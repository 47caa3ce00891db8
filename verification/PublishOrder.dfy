/** What the reporter sees over a whole run: publications in order of (generation, revision),
    each one exactly the manager's view at that revision. */
module PublishOrder {
  import opened JobTypes
  import opened ManagerState
  import opened ManagerSystem
  import opened SystemFrames

  predicate KeyLess(g: nat, r: nat, g': nat, r': nat) { g < g' || (g == g' && r < r') }

  predicate KeyAtMost(g: nat, r: nat, g': nat, r': nat) { KeyLess(g, r, g', r') || (g == g' && r == r') }

  /** The body of a publication says exactly what its view says. */
  predicate Faithful(p: Publication) {
    match p.body
    case List(rows) => rows == p.view
    case Edge(u, speaking) => speaking == (u in p.view && p.view[u].speaking)
  }

  predicate RosterOK(m: State) {
    && m.roster.speakers <= m.roster.participants.Keys
    && "" !in m.roster.participants
    && (m.queue.Some? ==> m.current.streamID != "")
  }

  predicate KeyIs(m: State, generation: nat, revision: nat) { m.generation == generation && m.roster.revision == revision }

  predicate KeyReached(m: State, generation: nat, revision: nat) {
    KeyAtMost(generation, revision, m.generation, m.roster.revision)
  }

  predicate PublicationOK(m: State, p: Publication) {
    && Faithful(p)
    && KeyReached(m, p.generation, p.revision)
    && (KeyIs(m, p.generation, p.revision) && m.current.streamID != "" ==> p.view == View(m.roster))
  }

  predicate TaskOK(m: State, t: Task) {
    match t
    case ReportTask(r) =>
      && r.job.streamID != "" && KeyReached(m, r.generation, r.revision)
      && (KeyIs(m, r.generation, r.revision) && SameJob(m.current, r.job) ==> r.rows == View(m.roster))
    case SpeakerTask(r) =>
      && r.job.streamID != "" && KeyReached(m, r.generation, r.revision)
      && (KeyIs(m, r.generation, r.revision) && SameJob(m.current, r.job) ==> r.speaking == (r.userID in m.roster.speakers))
    case PublishTask(p) => PublicationOK(m, p)
    case StartJobTask(job, _) => job.streamID != ""
    case LeaveTask(stream) => stream != ""
    case VoiceTask(job, _, _, _) => job.streamID != ""
    case _ => true
  }

  /** p may be published after q. */
  predicate InOrder(q: Publication, p: Publication) {
    && KeyAtMost(q.generation, q.revision, p.generation, p.revision)
    && (q.generation == p.generation && q.revision == p.revision ==> q.view == p.view)
  }

  ghost predicate TraceOK(trace: seq<Observation>) {
    forall i, j :: 0 <= i < j < |trace| && trace[i].Published? && trace[j].Published?
      ==> InOrder(trace[i].publication, trace[j].publication)
  }

  ghost predicate Inv(s: System) {
    && RosterOK(s.m)
    && (forall id :: id in s.tasks ==> TaskOK(s.m, s.tasks[id]))
    && (forall id :: id in s.tasks && s.tasks[id].PublishTask? ==> s.holder == Some(id))
    && TraceOK(s.trace)
    && (forall i :: 0 <= i < |s.trace| && s.trace[i].Published? ==> PublicationOK(s.m, s.trace[i].publication))
    && (forall i, id :: 0 <= i < |s.trace| && s.trace[i].Published? && id in s.tasks && s.tasks[id].PublishTask?
          ==> InOrder(s.trace[i].publication, s.tasks[id].publication))
  }

  /** How one critical section may move the published part of the state. */
  predicate Evolves(m: State, n: State) {
    || KeyLess(m.generation, m.roster.revision, n.generation, n.roster.revision)
    || (m.generation == n.generation && m.roster.revision == n.roster.revision
        && ((View(m.roster) == View(n.roster) && m.roster.speakers == n.roster.speakers && m.current == n.current)
            || n.current.streamID == ""))
  }

  predicate SameCore(m: State, n: State) {
    && m.roster == n.roster && m.current == n.current && m.generation == n.generation && m.queue == n.queue
  }

  /** n differs from s in tasks and observations that have nothing to do with publishing. */
  predicate Quiet(s: System, n: System) {
    && n.holder == s.holder
    && (forall id :: id in n.tasks ==>
          (id in s.tasks && n.tasks[id] == s.tasks[id]) || (!n.tasks[id].PublishTask? && TaskOK(n.m, n.tasks[id])))
    && s.trace <= n.trace && (forall i :: |s.trace| <= i < |n.trace| ==> !n.trace[i].Published?)
  }

  /** The state's view at its current revision is the publication's view. */
  predicate Shows(m: State, p: Publication) {
    KeyIs(m, p.generation, p.revision) && View(m.roster) == p.view
  }

  ghost predicate Had(s: System, p: Publication) {
    (exists id :: id in s.tasks && s.tasks[id] == PublishTask(p)) || Published(p) in s.trace
  }

  /** Every publication of n was one of s or was captured in s's state. */
  ghost predicate Captured(s: System, n: System) {
    forall p :: Had(n, p) ==> Had(s, p) || Shows(s.m, p)
  }

  lemma TaskKept(m: State, n: State, t: Task)
    requires Evolves(m, n) && TaskOK(m, t)
    ensures TaskOK(n, t)
  {
  }

  lemma PublicationKept(m: State, n: State, p: Publication)
    requires Evolves(m, n) && PublicationOK(m, p)
    ensures PublicationOK(n, p)
  {
  }

  /** A step that publishes nothing and takes no publication lock. */
  lemma QuietStep(s: System, n: System)
    requires Inv(s) && Evolves(s.m, n.m) && RosterOK(n.m) && Quiet(s, n)
    ensures Inv(n) && Captured(s, n)
  {
    forall id | id in n.tasks ensures TaskOK(n.m, n.tasks[id]) {
      if id in s.tasks && n.tasks[id] == s.tasks[id] { TaskKept(s.m, n.m, s.tasks[id]); }
    }
    forall i | 0 <= i < |n.trace| && n.trace[i].Published? ensures PublicationOK(n.m, n.trace[i].publication) {
      assert n.trace[i] == s.trace[i];
      PublicationKept(s.m, n.m, s.trace[i].publication);
    }
  }

  // ----- what each critical section does to the published part -----

  lemma UpdateStopCore(cfg: Config, m: State, now: int) ensures SameCore(m, UpdateStop(cfg, m, now).state) {}

  predicate OutcomeOK(m: State, o: Outcome) {
    && Evolves(m, o.state) && RosterOK(o.state)
    && (o.report.Some? ==> TaskOK(o.state, ReportTask(o.report.value)))
    && (o.speaker.Some? ==> TaskOK(o.state, SpeakerTask(o.speaker.value)))
  }

  lemma MergeNamed(known: map<Id, Participant>, members: seq<Member>, now: int)
    ensures "" !in MergeMembers(known, members, now)
  {
  }

  lemma SettleOK(cfg: Config, m: State, r: Roster, speaker: Option<SpeakerReport>, now: int)
    requires RosterOK(m) && r.revision == m.roster.revision + 1 && m.current.streamID != ""
    requires r.speakers <= r.participants.Keys && "" !in r.participants
    requires speaker.Some? ==> TaskOK(m.(roster := r), SpeakerTask(speaker.value))
    ensures OutcomeOK(m, Settle(cfg, m, r, speaker, now))
  {
    UpdateStopCore(cfg, m.(roster := r), now);
  }

  lemma ChangeOK(cfg: Config, m: State, e: ParticipantEvent, now: int)
    requires RosterOK(m)
    ensures OutcomeOK(m, ChangeParticipant(cfg, m, e, now))
  {
    var o := ChangeParticipant(cfg, m, e, now);
    if o.report.Some? {
      UpdateStopCore(cfg, m.(roster := o.state.roster), now);
      SettleOK(cfg, m, o.state.roster, o.speaker, now);
    }
  }

  lemma SyncOK(cfg: Config, m: State, s: Snapshot, o: SyncOptions, now: int)
    requires RosterOK(m)
    ensures OutcomeOK(m, SyncParticipants(cfg, m, s, o, now))
  {
    var r := Replaced(m.roster, s, now);
    MergeNamed(m.roster.participants, s.members, now);
    assert r.speakers <= r.participants.Keys && "" !in r.participants;
    if m.current.streamID != "" {
      SettleOK(cfg, m, r, None, now);
    }
  }

  lemma SpeakerOK(m: State, stream: Id, u: Id, speaking: bool, others: bool)
    requires RosterOK(m)
    ensures OutcomeOK(m, SetSpeaker(m, stream, u, speaking, others))
  {
  }

  lemma ClearOK(m: State, stream: Id)
    requires RosterOK(m)
    ensures OutcomeOK(m, ClearSpeakers(m, stream))
  {
  }

  lemma FinishKeeps(s: System, stream: Id, o: Outcome)
    requires Inv(s) && OutcomeOK(s.m, o)
    ensures var n := Finish(s, stream, o); Inv(n) && Captured(s, n)
  {
    QuietStep(s, Finish(s, stream, o));
  }

  // ----- one lemma for each kind of step -----

  lemma RunReportKeeps(s: System, id: nat, t: Task)
    requires Inv(s) && id in s.tasks && s.tasks[id] == t && (t.ReportTask? || t.SpeakerTask?)
    ensures var n := RunReport(s, id, t); Inv(n) && Captured(s, n)
  {
    var n := RunReport(s, id, t);
    if s.holder.None? && n.holder.Some? {
      var p := n.tasks[id].publication;
      assert PublicationOK(s.m, p);
    }
  }

  lemma RunPublishKeeps(s: System, id: nat, p: Publication)
    requires Inv(s) && id in s.tasks && s.tasks[id] == PublishTask(p)
    ensures var n := RunPublish(s, id, p); Inv(n) && Captured(s, n)
  {
    var n := RunPublish(s, id, p);
    assert n.trace[..|s.trace|] == s.trace && n.trace[|s.trace|] == Published(p);
  }

  lemma ApplyRetryKeeps(s: System, queue: nat, job: VoiceJob, generation: nat, edge: Option<Id>)
    requires Inv(s)
    ensures var n := ApplyRetry(s, queue, job, generation, edge); Inv(n) && Captured(s, n)
  {
    var n := ApplyRetry(s, queue, job, generation, edge);
    if s.holder.None? && n.holder.Some? {
      assert PublicationOK(s.m, n.tasks[s.next].publication);
    }
  }

  lemma RunStopKeeps(cfg: Config, s: System, id: nat, t: Task, answer: Answer, now: int)
    requires Inv(s) && id in s.tasks && s.tasks[id] == t && t.StopTask?
    ensures var n := RunStop(cfg, s, id, t, answer, now); Inv(n) && Captured(s, n)
  {
    if t.stopPhase.StopSyncing? {
      var p := t.stopPhase;
      var o := SyncOptions(true, p.reconnect, true, true, p.revision);
      var k := Become(s, id, t.(stopPhase := StopCancelling(p.job, p.reconnect)));
      SyncOK(cfg, s.m, p.snapshot, o, now);
      QuietStep(s, k);
      FinishKeeps(k, s.m.current.streamID, SyncParticipants(cfg, s.m, p.snapshot, o, now));
    } else {
      StopFrame(cfg, s, id, t, answer, now);
      StopFramedKeeps(s, RunStop(cfg, s, id, t, answer, now), id, t);
    }
  }

  lemma StopFramedKeeps(s: System, n: System, id: nat, t: Task)
    requires Inv(s) && t.StopTask? && StopFramed(s, n, id, t)
    ensures Inv(n) && Captured(s, n)
  {
    QuietStep(s, n);
  }

  lemma StartFramedKeeps(s: System, n: System, id: nat, t: Task)
    requires Inv(s) && t.StartTask? && StartFramed(s, n, id, t)
    ensures Inv(n) && Captured(s, n)
  {
    QuietStep(s, n);
  }

  lemma ReconcileFramedKeeps(s: System, n: System, id: nat, t: Task)
    requires Inv(s) && t.ReconcileTask? && ReconcileFramed(s, n, id, t)
    ensures Inv(n) && Captured(s, n)
  {
    QuietStep(s, n);
  }

  lemma JoinFramedKeeps(s: System, n: System, id: nat, t: Task)
    requires Inv(s) && t.JoinTask? && JoinFramed(s, n, id, t)
    ensures Inv(n) && Captured(s, n)
  {
    QuietStep(s, n);
  }

  lemma BeginJoiningKeeps(cfg: Config, s: System, e: JoinEvent, now: int)
    requires Inv(s)
    ensures var n := BeginJoining(cfg, s, e, now); Inv(n) && Captured(s, n)
  {
    BeginJoinFrame(cfg, s.m, e, now);
    QuietStep(s, BeginJoining(cfg, s, e, now));
  }

  lemma RunJobKeeps(s: System, id: nat, t: Task, answer: Answer)
    requires Inv(s) && id in s.tasks && s.tasks[id] == t && (t.StartJobTask? || t.LeaveTask?)
    ensures var n := RunJob(s, id, t, answer); Inv(n) && Captured(s, n)
  {
    QuietStep(s, RunJob(s, id, t, answer));
  }

  lemma RunVoiceKeeps(cfg: Config, s: System, id: nat, t: Task, answer: Answer)
    requires Inv(s) && id in s.tasks && s.tasks[id] == t && t.VoiceTask?
    ensures var n := RunVoice(cfg, s, id, t, answer); Inv(n) && Captured(s, n)
  {
    QuietStep(s, RunVoice(cfg, s, id, t, answer));
  }

  lemma EndKeeps(s: System, id: nat)
    requires Inv(s)
    ensures var n := End(s, id); Inv(n) && Captured(s, n)
  {
  }

  lemma RunTaskKeeps(cfg: Config, s: System, id: nat, answer: Answer, now: int)
    requires Inv(s)
    ensures var n := RunTask(cfg, s, id, answer, now); Inv(n) && Captured(s, n)
  {
    if id in s.tasks {
      var t := s.tasks[id];
      match t
      case StopTask(_, _, _, _) => RunStopKeeps(cfg, s, id, t, answer, now);
      case StartTask(_, _, _, _) => StartFrame(cfg, s, id, t, answer); StartFramedKeeps(s, RunStart(cfg, s, id, t, answer), id, t);
      case ReportTask(_) => RunReportKeeps(s, id, t);
      case SpeakerTask(_) => RunReportKeeps(s, id, t);
      case PublishTask(p) => RunPublishKeeps(s, id, p);
      case JoinBeginTask(e) => EndKeeps(s, id); BeginJoiningKeeps(cfg, End(s, id), e, now);
      case JoinTask(_, _, _) => JoinFrame(cfg, s, id, t, answer); JoinFramedKeeps(s, RunJoin(cfg, s, id, t, answer), id, t);
      case ReconcileTask(_, _, _) => ReconcileFrame(cfg, s, id, t, answer); ReconcileFramedKeeps(s, RunReconcile(cfg, s, id, t, answer), id, t);
      case StartJobTask(_, _) => RunJobKeeps(s, id, t, answer);
      case LeaveTask(_) => RunJobKeeps(s, id, t, answer);
      case VoiceTask(_, _, _, _) => RunVoiceKeeps(cfg, s, id, t, answer);
    }
  }

  /** The calls that change the job. */
  lemma LifecycleKeeps(cfg: Config, s: System, e: Event, now: int)
    requires Inv(s) && (e.StartCall? || e.StopCall? || e.ConnectedCall? || e.DisconnectedCall?)
    ensures var n := Apply(cfg, s, e, now); Inv(n) && Captured(s, n)
  {
    LifecycleQuiet(cfg, s, e, now);
    LifecycleEvolves(cfg, s, e, now);
    QuietStep(s, Apply(cfg, s, e, now));
  }

  lemma LifecycleEvolves(cfg: Config, s: System, e: Event, now: int)
    requires RosterOK(s.m) && (e.StartCall? || e.StopCall? || e.ConnectedCall? || e.DisconnectedCall?)
    ensures var n := Apply(cfg, s, e, now); Evolves(s.m, n.m) && RosterOK(n.m)
  {
  }

  lemma LifecycleQuiet(cfg: Config, s: System, e: Event, now: int)
    requires e.StartCall? || e.StopCall? || e.ConnectedCall? || e.DisconnectedCall?
    ensures Quiet(s, Apply(cfg, s, e, now))
  {
  }

  /** The calls that only change the projection or a switch. */
  lemma SettingKeeps(cfg: Config, s: System, e: Event, now: int)
    requires Inv(s) && (e.ProjectCall? || e.ExecutingCall? || e.StopperCall? || e.StarterCall?)
    ensures var n := Apply(cfg, s, e, now); Inv(n) && Captured(s, n)
  {
    QuietStep(s, Apply(cfg, s, e, now));
  }

  lemma ApplyKeeps(cfg: Config, s: System, e: Event, now: int)
    requires Inv(s)
    ensures var n := Apply(cfg, s, e, now); Inv(n) && Captured(s, n)
  {
    match e
    case ParticipantCall(p) => ChangeOK(cfg, s.m, p, now); FinishKeeps(s, s.m.current.streamID, ChangeParticipant(cfg, s.m, p, now));
    case SyncCall(w, o) => SyncOK(cfg, s.m, w, o, now); FinishKeeps(s, s.m.current.streamID, SyncParticipants(cfg, s.m, w, o, now));
    case SpeakerCall(stream, u, b, k) => SpeakerOK(s.m, stream, u, b, k); FinishKeeps(s, s.m.current.streamID, SetSpeaker(s.m, stream, u, b, k));
    case ClearCall(stream) => ClearOK(s.m, stream); FinishKeeps(s, s.m.current.streamID, ClearSpeakers(s.m, stream));
    case JoinCall(j) => BeginJoiningKeeps(cfg, s, j, now);
    case RetryCall(q, job, g, edge) => ApplyRetryKeeps(s, q, job, g, edge);
    case Run(task, answer) => RunTaskKeeps(cfg, s, task, answer, now);
    case StartCall(_) => LifecycleKeeps(cfg, s, e, now);
    case StopCall(_) => LifecycleKeeps(cfg, s, e, now);
    case ConnectedCall => LifecycleKeeps(cfg, s, e, now);
    case DisconnectedCall(_) => LifecycleKeeps(cfg, s, e, now);
    case _ => SettingKeeps(cfg, s, e, now);
  }

  lemma {:induction false} InvHolds(cfg: Config, run: seq<Timed>)
    ensures Inv(Execute(cfg, BOOT, run))
  {
    if run != [] {
      InvHolds(cfg, run[..|run| - 1]);
      var last := run[|run| - 1];
      ApplyKeeps(cfg, Execute(cfg, BOOT, run[..|run| - 1]), last.event, last.now);
    }
  }

  /** Some state along the run shows exactly what p publishes, at p's revision. */
  ghost predicate ViewExisted(cfg: Config, run: seq<Timed>, p: Publication) {
    exists k :: 0 <= k <= |run| && Shows(Execute(cfg, BOOT, run[..k]).m, p)
  }

  lemma {:induction false} ViewsExisted(cfg: Config, run: seq<Timed>, p: Publication)
    requires Had(Execute(cfg, BOOT, run), p)
    ensures ViewExisted(cfg, run, p)
  {
    if run != [] {
      var front := run[..|run| - 1];
      LastCaptured(cfg, run);
      if Had(Execute(cfg, BOOT, front), p) {
        ViewsExisted(cfg, front, p);
        var k :| 0 <= k <= |front| && Shows(Execute(cfg, BOOT, front[..k]).m, p);
        assert run[..k] == front[..k];
      } else {
        assert run[..|front|] == front;
      }
    }
  }

  lemma LastCaptured(cfg: Config, run: seq<Timed>)
    requires run != []
    ensures Captured(Execute(cfg, BOOT, run[..|run| - 1]), Execute(cfg, BOOT, run))
  {
    var front := run[..|run| - 1];
    InvHolds(cfg, front);
    ApplyKeeps(cfg, Execute(cfg, BOOT, front), run[|run| - 1].event, run[|run| - 1].now);
  }

  /** MAIN: over every run, publications carry non-decreasing (generation, revision), each one is
      exactly the view the manager had at that revision, equal revisions show equal views, and
      every active speaker is a participant. */
  lemma PublicationsInOrder(cfg: Config, run: seq<Timed>)
    ensures var s := Execute(cfg, BOOT, run);
      && s.m.roster.speakers <= s.m.roster.participants.Keys
      && (forall i :: 0 <= i < |s.trace| && s.trace[i].Published? ==>
            Faithful(s.trace[i].publication) && ViewExisted(cfg, run, s.trace[i].publication))
      && (forall i, j :: 0 <= i < j < |s.trace| && s.trace[i].Published? && s.trace[j].Published? ==>
            var p, q := s.trace[i].publication, s.trace[j].publication;
            && (p.generation < q.generation || (p.generation == q.generation && p.revision <= q.revision))
            && (p.generation == q.generation && p.revision == q.revision ==> p.view == q.view))
  {
    InvHolds(cfg, run);
    var s := Execute(cfg, BOOT, run);
    forall i | 0 <= i < |s.trace| && s.trace[i].Published? ensures ViewExisted(cfg, run, s.trace[i].publication) {
      ViewsExisted(cfg, run, s.trace[i].publication);
    }
  }
}
