/** The assignment epoch from the waiting projection, through refreshes that omit the stream, to
    the job that Start records and the fence that Stop sets. */
module AssignmentEpoch {
  import opened JobTypes
  import opened ManagerState
  import opened ManagerSystem
  import opened SystemFrames

  /** The epoch that the manager would give a start of the stream. */
  predicate Holds(a: AutoStart, stream: Id, epoch: Id) {
    if stream in a.defaults then a.defaults[stream].epoch == epoch
    else stream in a.retained && a.retained[stream].epoch == epoch
  }

  /** Some part of the process still refers to the stream. */
  predicate StillPinned(m: State, stream: Id) {
    || m.current.streamID == stream || stream in m.start.retries || stream in m.start.pending
    || (m.start.executing.Some? && stream in m.start.executing.value)
  }

  /** What a refresh leaves of a stream's epoch: a projected stream gets the projected one. An omitted
      one keeps its own exactly when an execution snapshot was supplied and the stream is pinned, or
      none was ever supplied, the refresh is empty and the epoch had been retained already. */
  lemma ProjectionDecidesEpoch(m: State, incoming: map<Id, VoiceDefaults>, stream: Id, epoch: Id)
    requires stream in Projected(incoming) || Holds(m.start, stream, epoch)
    ensures Holds(Project(m, incoming).start, stream, epoch) <==>
      if stream in Projected(incoming) then incoming[stream].epoch == epoch
      else if m.start.executing.Some? then StillPinned(m, stream)
      else Projected(incoming) == map[] && stream in m.start.retained && m.start.retained[stream].epoch == epoch
  {
  }

  /** With an execution snapshot the retained epochs are those of projected or pinned streams only,
      and an omitted stream is never an auto-start candidate. */
  lemma RetentionIsBounded(m: State, incoming: map<Id, VoiceDefaults>, stream: Id)
    requires m.start.executing.Some?
    ensures stream in Project(m, incoming).start.retained ==> stream in Projected(incoming) || StillPinned(m, stream)
    ensures stream !in Projected(incoming) ==>
      (forall g, v :: Matching(Project(m, incoming).start.defaults, g, v) == stream ==> stream == "")
      && (forall r :: !(stream != "" && StartValid(Project(m, incoming), stream, r)))
  {
  }

  // ----- over runs -----

  /** A projection event that keeps the stream's epoch. */
  predicate Keeps(m: State, e: Event, stream: Id, epoch: Id) {
    e.ProjectCall? ==>
      if stream in Projected(e.incoming) then e.incoming[stream].epoch == epoch
      else m.start.executing.Some? && StillPinned(m, stream)
  }

  ghost predicate RefreshesKeep(cfg: Config, s: System, run: seq<Timed>, stream: Id, epoch: Id) {
    forall k :: 0 <= k < |run| ==> Keeps(Execute(cfg, s, run[..k]).m, run[k].event, stream, epoch)
  }

  predicate SameEpochs(m: State, n: State) {
    n.start.defaults == m.start.defaults && n.start.retained == m.start.retained && n.start.executing == m.start.executing
  }

  /** A start or a stop between its two sections. */
  predicate Lifecycle(t: Task) { t.StartJobTask? || t.LeaveTask? }

  /** The job, its epoch and whether it is stopping, and the starts and stops under way, are those of s. */
  predicate SameJobState(s: System, n: System) {
    && n.m.current == s.m.current && n.m.epoch == s.m.epoch && n.m.stopping == s.m.stopping
    && (forall id :: id in n.tasks && Lifecycle(n.tasks[id]) ==> id in s.tasks && n.tasks[id] == s.tasks[id])
  }

  lemma FramedSame(s: System, n: System, id: nat, t: Task)
    requires || (t.StopTask? && StopFramed(s, n, id, t)) || (t.StartTask? && StartFramed(s, n, id, t))
             || (t.JoinTask? && JoinFramed(s, n, id, t)) || (t.ReconcileTask? && ReconcileFramed(s, n, id, t))
    ensures SameEpochs(s.m, n.m) && SameJobState(s, n)
  {
  }

  lemma SyncingSame(cfg: Config, s: System, id: nat, t: Task, answer: Answer, now: int)
    requires t.StopTask? && t.stopPhase.StopSyncing?
    ensures var n := RunStop(cfg, s, id, t, answer, now); SameEpochs(s.m, n.m) && SameJobState(s, n)
  {
    SettleFrame(cfg, s.m, Replaced(s.m.roster, t.stopPhase.snapshot, now), None, now);
  }

  lemma OtherTaskSame(cfg: Config, s: System, id: nat, answer: Answer, now: int)
    requires id in s.tasks
    requires var t := s.tasks[id]; t.ReportTask? || t.SpeakerTask? || t.PublishTask? || t.VoiceTask?
    ensures var n := RunTask(cfg, s, id, answer, now); SameEpochs(s.m, n.m) && SameJobState(s, n)
  {
  }

  lemma StopTaskSame(cfg: Config, s: System, id: nat, t: Task, answer: Answer, now: int)
    requires t.StopTask? && id in s.tasks && s.tasks[id] == t
    ensures var n := RunStop(cfg, s, id, t, answer, now); SameEpochs(s.m, n.m) && SameJobState(s, n)
  {
    if t.stopPhase.StopSyncing? {
      SyncingSame(cfg, s, id, t, answer, now);
    } else {
      StopFrame(cfg, s, id, t, answer, now);
      FramedSame(s, RunStop(cfg, s, id, t, answer, now), id, t);
    }
  }

  lemma JoinBeginSame(cfg: Config, s: System, id: nat, e: JoinEvent, now: int)
    requires id in s.tasks && s.tasks[id].JoinBeginTask?
    ensures var n := BeginJoining(cfg, End(s, id), e, now); SameEpochs(s.m, n.m) && SameJobState(s, n)
  {
    BeginJoinFrame(cfg, s.m, e, now);
  }

  lemma TaskSame(cfg: Config, s: System, id: nat, answer: Answer, now: int)
    requires id in s.tasks && !Lifecycle(s.tasks[id])
    ensures var n := RunTask(cfg, s, id, answer, now); SameEpochs(s.m, n.m) && SameJobState(s, n)
  {
    var t := s.tasks[id];
    match t
    case StopTask(_, _, _, _) => StopTaskSame(cfg, s, id, t, answer, now);
    case StartTask(_, _, _, _) => StartFrame(cfg, s, id, t, answer); FramedSame(s, RunStart(cfg, s, id, t, answer), id, t);
    case JoinTask(_, _, _) => JoinFrame(cfg, s, id, t, answer); FramedSame(s, RunJoin(cfg, s, id, t, answer), id, t);
    case ReconcileTask(_, _, _) => ReconcileFrame(cfg, s, id, t, answer); FramedSame(s, RunReconcile(cfg, s, id, t, answer), id, t);
    case JoinBeginTask(e) => JoinBeginSame(cfg, s, id, e, now);
    case _ => OtherTaskSame(cfg, s, id, answer, now);
  }

  lemma RosterCallSame(cfg: Config, s: System, e: Event, now: int)
    requires e.ParticipantCall? || e.SyncCall? || e.SpeakerCall? || e.ClearCall?
    ensures var n := Apply(cfg, s, e, now); SameEpochs(s.m, n.m) && SameJobState(s, n)
  {
    var stream := s.m.current.streamID;
    match e
    case ParticipantCall(p) => ChangeSame(cfg, s.m, p, now); FinishSame(s, stream, ChangeParticipant(cfg, s.m, p, now));
    case SyncCall(w, o) =>
      SettleFrame(cfg, s.m, Replaced(s.m.roster, w, now), None, now);
      FinishSame(s, stream, SyncParticipants(cfg, s.m, w, o, now));
    case SpeakerCall(x, u, b, k) => FinishSame(s, stream, SetSpeaker(s.m, x, u, b, k));
    case ClearCall(x) => FinishSame(s, stream, ClearSpeakers(s.m, x));
  }

  lemma ChangeSame(cfg: Config, m: State, p: ParticipantEvent, now: int)
    ensures var n := ChangeParticipant(cfg, m, p, now).state;
      n.start == m.start && n.current == m.current && n.epoch == m.epoch && n.stopping == m.stopping
  {
    ChangeIsSettled(cfg, m, p, now);
    if r, speaker :| ChangeParticipant(cfg, m, p, now) == Settle(cfg, m, r, speaker, now) { SettleFrame(cfg, m, r, speaker, now); }
  }

  lemma FinishSame(s: System, stream: Id, o: Outcome)
    requires o.state.start == s.m.start && o.state.current == s.m.current && o.state.epoch == s.m.epoch && o.state.stopping == s.m.stopping
    ensures var n := Finish(s, stream, o); SameEpochs(s.m, n.m) && SameJobState(s, n)
  {
  }

  /** The events that may change the current job: the last section of a Start or of a Stop. */
  predicate ChangesJob(s: System, e: Event) {
    e.Run? && e.task in s.tasks && Lifecycle(s.tasks[e.task]) && e.answer.Done?
  }

  lemma EpochsStep(cfg: Config, s: System, e: Event, now: int)
    requires !e.ProjectCall? && !e.ExecutingCall?
    ensures SameEpochs(s.m, Apply(cfg, s, e, now).m)
  {
    match e
    case Run(id, answer) => if id in s.tasks && !Lifecycle(s.tasks[id]) { TaskSame(cfg, s, id, answer, now); }
    case ParticipantCall(_) => RosterCallSame(cfg, s, e, now);
    case SyncCall(_, _) => RosterCallSame(cfg, s, e, now);
    case SpeakerCall(_, _, _, _) => RosterCallSame(cfg, s, e, now);
    case ClearCall(_) => RosterCallSame(cfg, s, e, now);
    case _ => CallSame(cfg, s, e, now);
  }

  lemma EpochStep(cfg: Config, s: System, e: Event, now: int, stream: Id, epoch: Id)
    requires Holds(s.m.start, stream, epoch) && Keeps(s.m, e, stream, epoch)
    ensures Holds(Apply(cfg, s, e, now).m.start, stream, epoch)
  {
    if e.ProjectCall? {
      ProjectionDecidesEpoch(s.m, e.incoming, stream, epoch);
    } else if !e.ExecutingCall? {
      EpochsStep(cfg, s, e, now);
    }
  }

  lemma CallSame(cfg: Config, s: System, e: Event, now: int)
    requires !e.ProjectCall? && !e.ExecutingCall? && !e.Run? && !e.ParticipantCall? && !e.SyncCall? && !e.SpeakerCall? && !e.ClearCall?
    ensures SameEpochs(s.m, Apply(cfg, s, e, now).m)
  {
    match e
    case JoinCall(j) => BeginJoinFrame(cfg, s.m, j, now);
    case StartCall(job) => CancelStopFrame(s.m, job.streamID);
    case _ =>
  }

  lemma {:induction false} EpochSurvives(cfg: Config, s: System, run: seq<Timed>, stream: Id, epoch: Id)
    requires Holds(s.m.start, stream, epoch) && RefreshesKeep(cfg, s, run, stream, epoch)
    ensures Holds(Execute(cfg, s, run).m.start, stream, epoch)
  {
    if run != [] {
      var front := run[..|run| - 1];
      forall k | 0 <= k < |front| ensures Keeps(Execute(cfg, s, front[..k]).m, front[k].event, stream, epoch) {
        assert run[..k] == front[..k];
      }
      EpochSurvives(cfg, s, front, stream, epoch);
      EpochStep(cfg, Execute(cfg, s, front), run[|run| - 1].event, run[|run| - 1].now, stream, epoch);
    }
  }

  /** Only Start and Stop and their own tasks change the current job or begin a start or a stop. */
  lemma JobStep(cfg: Config, s: System, e: Event, now: int)
    requires !e.StartCall? && !e.StopCall? && !(e.Run? && e.task in s.tasks && Lifecycle(s.tasks[e.task]))
    ensures SameJobState(s, Apply(cfg, s, e, now))
  {
    match e
    case Run(id, answer) => if id in s.tasks { TaskSame(cfg, s, id, answer, now); }
    case JoinCall(j) => BeginJoinFrame(cfg, s.m, j, now);
    case ParticipantCall(_) => RosterCallSame(cfg, s, e, now);
    case SyncCall(_, _) => RosterCallSame(cfg, s, e, now);
    case SpeakerCall(_, _, _, _) => RosterCallSame(cfg, s, e, now);
    case ClearCall(_) => RosterCallSame(cfg, s, e, now);
    case _ =>
  }

  /** What the first sections of Start and Stop and the steps of their tasks change of it. */
  lemma LifecycleStep(cfg: Config, s: System, e: Event, now: int)
    requires e.StartCall? || e.StopCall? || (e.Run? && e.task in s.tasks && Lifecycle(s.tasks[e.task]))
    ensures var n := Apply(cfg, s, e, now);
      && (forall id :: id in n.tasks && Lifecycle(n.tasks[id]) && id != s.next ==> id in s.tasks && n.tasks[id] == s.tasks[id])
      && (!ChangesJob(s, e) ==> n.m.current == s.m.current && n.m.epoch == s.m.epoch)
  {
    match e
    case StartCall(job) => CancelStopFrame(s.m, job.streamID);
    case _ =>
  }

  lemma AnyStep(cfg: Config, s: System, e: Event, now: int)
    ensures var n := Apply(cfg, s, e, now);
      && (forall id :: id in n.tasks && Lifecycle(n.tasks[id]) && id != s.next ==> id in s.tasks && n.tasks[id] == s.tasks[id])
      && (!ChangesJob(s, e) ==> n.m.current == s.m.current && n.m.epoch == s.m.epoch)
  {
    if e.StartCall? || e.StopCall? || (e.Run? && e.task in s.tasks && Lifecycle(s.tasks[e.task])) {
      LifecycleStep(cfg, s, e, now);
    } else {
      JobStep(cfg, s, e, now);
    }
  }

  lemma {:induction false} PendingStartStays(cfg: Config, s: System, run: seq<Timed>, id: nat)
    requires Numbered(s) && id < s.next
    ensures var n := Execute(cfg, s, run);
      && Numbered(n) && s.next <= n.next
      && (id in n.tasks && Lifecycle(n.tasks[id]) ==> id in s.tasks && n.tasks[id] == s.tasks[id])
  {
    if run != [] {
      var front := run[..|run| - 1];
      PendingStartStays(cfg, s, front, id);
      var k := Execute(cfg, s, front);
      NumberedStep(cfg, k, run[|run| - 1].event, run[|run| - 1].now);
      AnyStep(cfg, k, run[|run| - 1].event, run[|run| - 1].now);
    }
  }

  ghost predicate JobUntouched(cfg: Config, s: System, run: seq<Timed>) {
    forall k :: 0 <= k < |run| ==> !ChangesJob(Execute(cfg, s, run[..k]), run[k].event)
  }

  lemma {:induction false} JobStays(cfg: Config, s: System, run: seq<Timed>)
    requires Numbered(s) && JobUntouched(cfg, s, run)
    ensures var n := Execute(cfg, s, run); Numbered(n) && n.m.current == s.m.current && n.m.epoch == s.m.epoch
  {
    if run != [] {
      var front := run[..|run| - 1];
      forall k | 0 <= k < |front| ensures !ChangesJob(Execute(cfg, s, front[..k]), front[k].event) {
        assert run[..k] == front[..k];
      }
      JobStays(cfg, s, front);
      var k := Execute(cfg, s, front);
      NumberedStep(cfg, k, run[|run| - 1].event, run[|run| - 1].now);
      AnyStep(cfg, k, run[|run| - 1].event, run[|run| - 1].now);
    }
  }

  /** MAIN, first half: a stream held with an epoch, then any run whose refreshes each project it with
      that epoch or find it pinned, then Start: the job that Start later commits carries the epoch,
      whatever happens in between. */
  lemma StartRecordsTheEpoch(cfg: Config, s: System, before: seq<Timed>, job: VoiceJob, now: int, joining: seq<Timed>, at: int, epoch: Id)
    requires Numbered(s) && Holds(s.m.start, job.streamID, epoch) && RefreshesKeep(cfg, s, before, job.streamID, epoch)
    requires Numbered(Execute(cfg, s, before)) && StartAllowed(Execute(cfg, s, before).m, job)
    requires var called := Apply(cfg, Execute(cfg, s, before), StartCall(job), now);
      var id := Execute(cfg, s, before).next;
      var ready := Execute(cfg, called, joining);
      id in ready.tasks && ready.tasks[id].StartJobTask?
    ensures var called := Apply(cfg, Execute(cfg, s, before), StartCall(job), now);
      var id := Execute(cfg, s, before).next;
      var done := Apply(cfg, Execute(cfg, called, joining), Run(id, Done), at);
      done.m.current == job && done.m.epoch == epoch
  {
    var k := Execute(cfg, s, before);
    EpochSurvives(cfg, s, before, job.streamID, epoch);
    StartCaptures(cfg, k, job, now, epoch);
    PendingStartStays(cfg, Apply(cfg, k, StartCall(job), now), joining, k.next);
    CommitRecords(cfg, Execute(cfg, Apply(cfg, k, StartCall(job), now), joining), k.next, job, epoch, at);
  }

  lemma StartCaptures(cfg: Config, s: System, job: VoiceJob, now: int, epoch: Id)
    requires Numbered(s) && StartAllowed(s.m, job) && Holds(s.m.start, job.streamID, epoch)
    ensures var n := Apply(cfg, s, StartCall(job), now);
      Numbered(n) && s.next < n.next && s.next in n.tasks && n.tasks[s.next] == StartJobTask(job, epoch)
  {
  }

  lemma CommitRecords(cfg: Config, s: System, id: nat, job: VoiceJob, epoch: Id, at: int)
    requires id in s.tasks && s.tasks[id] == StartJobTask(job, epoch)
    ensures var n := Apply(cfg, s, Run(id, Done), at).m; n.current == job && n.epoch == epoch
  {
  }

  // ----- a program that supplies an execution snapshot first -----

  /** No refresh projects a stream before the first execution snapshot. */
  predicate SnapshotFirst(run: seq<Timed>) {
    forall k :: 0 <= k < |run| && run[k].event.ProjectCall? && Projected(run[k].event.incoming) != map[] ==> Supplied(run, k)
  }

  predicate Supplied(run: seq<Timed>, k: nat)
    requires k <= |run|
  {
    exists j :: 0 <= j < k && run[j].event.ExecutingCall?
  }

  /** Without an execution snapshot the manager has seen no projection. */
  predicate NothingYet(a: AutoStart) { a.executing.None? ==> a.defaults == map[] && a.retained == map[] }

  lemma {:induction false} SnapshotFirstHolds(cfg: Config, run: seq<Timed>)
    requires SnapshotFirst(run)
    ensures NothingYet(Execute(cfg, BOOT, run).m.start)
    ensures Supplied(run, |run|) ==> Execute(cfg, BOOT, run).m.start.executing.Some?
  {
    if run != [] {
      var front, e := run[..|run| - 1], run[|run| - 1].event;
      forall k | 0 <= k < |front| && front[k].event.ProjectCall? && Projected(front[k].event.incoming) != map[] ensures Supplied(front, k) {
        assert Supplied(run, k);
        var j :| 0 <= j < k && run[j].event.ExecutingCall?;
        assert front[j].event.ExecutingCall?;
      }
      SnapshotFirstHolds(cfg, front);
      if e.ProjectCall? && Projected(e.incoming) != map[] {
        assert Supplied(run, |front|);
        var j :| 0 <= j < |front| && run[j].event.ExecutingCall?;
        assert front[j].event.ExecutingCall?;
      }
      if Supplied(run, |run|) && !e.ExecutingCall? {
        var j :| 0 <= j < |run| && run[j].event.ExecutingCall?;
        assert front[j].event.ExecutingCall?;
      }
      if !e.ProjectCall? && !e.ExecutingCall? { EpochsStep(cfg, Execute(cfg, BOOT, front), e, run[|run| - 1].now); }
    }
  }

  /** MAIN: in a program whose first execution snapshot precedes its first non-empty refresh, no event
      makes a stream lose the epoch it is held with while something still refers to the stream, unless
      it is projected with another epoch. */
  lemma PinnedIsNeverForgotten(cfg: Config, run: seq<Timed>, e: Event, now: int, stream: Id, epoch: Id)
    requires SnapshotFirst(run) && Holds(Execute(cfg, BOOT, run).m.start, stream, epoch)
    requires e.ProjectCall? ==>
      if stream in Projected(e.incoming) then e.incoming[stream].epoch == epoch else StillPinned(Execute(cfg, BOOT, run).m, stream)
    ensures Holds(Apply(cfg, Execute(cfg, BOOT, run), e, now).m.start, stream, epoch)
  {
    SnapshotFirstHolds(cfg, run);
    EpochStep(cfg, Execute(cfg, BOOT, run), e, now, stream, epoch);
  }

  const JOB_A := VoiceJob("a", "g", "v", "", 0, 0, "")

  /** A caller that never supplies an execution snapshot. */
  const LEGACY: seq<Timed> := [
    Timed(ProjectCall(map["a" := VoiceDefaults("e1", "g", "v", "", true)]), 0), Timed(StartCall(JOB_A), 0), Timed(Run(0, Done), 0)]

  const OTHER: map<Id, VoiceDefaults> := map["b" := VoiceDefaults("e2", "g", "w", "", true)]

  /** After those three events the manager runs "a" and has "e1" retained for it. */
  lemma LegacyRuns(cfg: Config)
    ensures var s := Execute(cfg, BOOT, LEGACY);
      && s.m.current == JOB_A && s.m.start.executing.None? && s.m.start.defaults == s.m.start.retained
      && "a" in s.m.start.defaults && s.m.start.defaults["a"].epoch == "e1"
  {
    LegacyStarts(cfg);
    CommitKeepsEpochs(cfg, Execute(cfg, BOOT, LEGACY[..2]), 0);
  }

  lemma LegacyStarts(cfg: Config)
    ensures var s := Execute(cfg, BOOT, LEGACY[..2]);
      && s.tasks == map[0 := StartJobTask(JOB_A, "e1")] && s.m.start.executing.None? && s.m.start.defaults == s.m.start.retained
      && "a" in s.m.start.defaults && s.m.start.defaults["a"].epoch == "e1"
  {
    LegacyProjects(cfg);
    assert LEGACY[..2][..1] == LEGACY[..1];
    CancelStopFrame(Execute(cfg, BOOT, LEGACY[..1]).m, "a");
  }

  lemma LegacyProjects(cfg: Config)
    ensures var s := Execute(cfg, BOOT, LEGACY[..1]);
      && s.tasks == map[] && s.next == 0 && s.m.current == NO_JOB && !s.m.stopping
      && s.m.start.executing.None? && s.m.start.defaults == s.m.start.retained
      && "a" in s.m.start.defaults && s.m.start.defaults["a"].epoch == "e1"
  {
    assert LEGACY[..1][..0] == [];
    assert "a" in Projected(LEGACY[0].event.incoming);
  }

  lemma CommitKeepsEpochs(cfg: Config, s: System, id: nat)
    requires id in s.tasks && s.tasks[id].StartJobTask?
    ensures var n := Apply(cfg, s, Run(id, Done), 0); SameEpochs(s.m, n.m) && n.m.current == s.tasks[id].job
  {
  }

  /** Without one the promise fails: a refresh that projects only another stream makes the manager
      forget the epoch of the stream that it is running. */
  lemma OmissionForgetsWithoutSnapshot(cfg: Config)
    ensures !SnapshotFirst(LEGACY)
    ensures var s := Execute(cfg, BOOT, LEGACY);
      && s.m.current == JOB_A && StillPinned(s.m, "a") && Holds(s.m.start, "a", "e1")
      && var n := Apply(cfg, s, ProjectCall(OTHER), 0);
        !Holds(n.m.start, "a", "e1") && StartEpoch(n.m, "a") == ""
  {
    assert LEGACY[0].event.ProjectCall? && "a" in Projected(LEGACY[0].event.incoming);
    LegacyRuns(cfg);
    assert "b" in Projected(OTHER);
  }

  // ----- Stop -----

  /** Over any run in which no other start or stop commits, Stop's commit fences the stream with the
      epoch and channel of the job it ends. StopEpoch says exactly when that is sure beforehand. */
  lemma StopFencesWithTheEpoch(cfg: Config, s: System, run: seq<Timed>, stream: Id, id: nat, at: int)
    requires Numbered(s) && JobUntouched(cfg, s, run)
    requires var n := Execute(cfg, s, run); id in n.tasks && n.tasks[id] == LeaveTask(stream)
    ensures var n := Apply(cfg, Execute(cfg, s, run), Run(id, Done), at);
      && stream in n.m.start.stopped
      && n.m.start.stopped[stream] == VoiceDefaults(s.m.epoch, s.m.current.guildID, s.m.current.voiceChannelID, "", false)
      && n.m.current == NO_JOB
  {
    JobStays(cfg, s, run);
    LeaveFences(cfg, Execute(cfg, s, run), stream, id, at);
  }

  lemma LeaveFences(cfg: Config, s: System, stream: Id, id: nat, at: int)
    requires id in s.tasks && s.tasks[id] == LeaveTask(stream)
    ensures var n := Apply(cfg, s, Run(id, Done), at);
      && stream in n.m.start.stopped
      && n.m.start.stopped[stream] == VoiceDefaults(s.m.epoch, s.m.current.guildID, s.m.current.voiceChannelID, "", false)
      && n.m.current == NO_JOB
  {
  }
}
