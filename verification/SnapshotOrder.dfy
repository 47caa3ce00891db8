/** What an authoritative participant snapshot does: which snapshots are ignored, what an accepted one
    installs, and that no older snapshot of a job follows a newer one over whole runs. */
module SnapshotOrder {
  import opened JobTypes
  import opened ManagerState
  import opened ManagerSystem
  import opened SystemFrames

  // ----- one snapshot -----

  /** The snapshot is one of the running job, and of the connection its sender has read it from. */
  predicate OfTheJob(m: State, w: Snapshot, o: SyncOptions) {
    && m.current.streamID == w.streamID != "" && m.current.guildID == w.guildID != ""
    && m.current.voiceChannelID == w.voiceChannelID != "" && !m.stopping && !m.disconnected
    && (o.requireGeneration ==> o.expectedGeneration == m.generation)
  }

  /** The participants have changed since the sender looked at them. */
  predicate Overtaken(m: State, o: SyncOptions) { o.requireRevision && o.expectedRevision != m.roster.revision }

  /** Unnumbered, or newer than every snapshot installed for the job. */
  predicate Newest(m: State, w: Snapshot) { w.revision == 0 || m.roster.snapshotRevision < w.revision }

  predicate Installs(m: State, w: Snapshot, o: SyncOptions) { OfTheJob(m, w, o) && !Overtaken(m, o) && Newest(m, w) }

  /** An ignored snapshot that still makes the manager report what it has. */
  predicate Replays(m: State, w: Snapshot, o: SyncOptions) {
    OfTheJob(m, w, o) && (Overtaken(m, o) || (o.authoritativeReplay && 0 < w.revision == m.roster.snapshotRevision))
  }

  /** Entry i is the last one of its user. */
  predicate LastOf(members: seq<Member>, i: nat, u: Id) {
    i < |members| && members[i].userID == u && forall j :: i < j < |members| ==> members[j].userID != u
  }

  /** What a snapshot's entry and the participant known so far make of a user. */
  predicate Updated(known: map<Id, Participant>, item: Member, now: int, p: Participant) {
    && p.userID == item.userID
    && p.joinedAt == (if p.userID in known then known[p.userID].joinedAt else now)
    && p.username == (if item.username == "" && p.userID in known then known[p.userID].username else item.username)
    && p.avatarURL == (if item.avatarURL == "" && p.userID in known then known[p.userID].avatarURL else item.avatarURL)
    && (p.isBot <==> item.isBot || (p.userID in known && known[p.userID].isBot))
  }

  /** The roster that snapshot w leaves in place of r. */
  ghost predicate Installed(r: Roster, w: Snapshot, now: int, n: Roster) {
    && (forall u :: u in n.participants <==> u != "" && Named(w.members, u))
    && (forall u, i: nat :: u in n.participants && LastOf(w.members, i, u) ==> Updated(r.participants, w.members[i], now, n.participants[u]))
    && (forall u :: u in n.speakers <==> u in r.speakers && u in n.participants)
    && n.revision == r.revision + 1
    && r.snapshotRevision <= n.snapshotRevision && w.revision <= n.snapshotRevision
    && (n.snapshotRevision == r.snapshotRevision || n.snapshotRevision == w.revision)
  }

  predicate Named(members: seq<Member>, u: Id) { exists i :: 0 <= i < |members| && members[i].userID == u }

  lemma NamedAgain(members: seq<Member>, last: Member, u: Id)
    ensures Named(members + [last], u) <==> Named(members, u) || last.userID == u
  {
    var more := members + [last];
    if i :| 0 <= i < |members| && members[i].userID == u { assert more[i].userID == u; }
    if last.userID == u { assert more[|members|].userID == u; }
  }

  lemma {:induction false} MergedKeys(known: map<Id, Participant>, members: seq<Member>, now: int, u: Id)
    ensures u in MergeMembers(known, members, now) <==> u != "" && Named(members, u)
  {
    if members != [] {
      var init, last := members[..|members| - 1], members[|members| - 1];
      MergedKeys(known, init, now, u);
      assert members == init + [last];
      NamedAgain(init, last, u);
    }
  }

  lemma {:induction false} MergedLast(known: map<Id, Participant>, members: seq<Member>, now: int, u: Id, i: nat)
    requires u != "" && LastOf(members, i, u)
    ensures u in MergeMembers(known, members, now) && Updated(known, members[i], now, MergeMembers(known, members, now)[u])
  {
    if i < |members| - 1 {
      MergedLast(known, members[..|members| - 1], now, u, i);
      assert members[|members| - 1].userID != u;
    }
  }

  lemma ReplacedIsInstalled(r: Roster, w: Snapshot, now: int)
    ensures Installed(r, w, now, Replaced(r, w, now))
  {
    var n := Replaced(r, w, now).participants;
    forall u ensures u in n <==> u != "" && Named(w.members, u) { MergedKeys(r.participants, w.members, now, u); }
    forall u, i: nat | u in n && LastOf(w.members, i, u) ensures Updated(r.participants, w.members[i], now, n[u]) {
      MergedLast(r.participants, w.members, now, u, i);
    }
  }

  lemma OutcomeOfSync(cfg: Config, m: State, w: Snapshot, o: SyncOptions, now: int)
    ensures var n := SyncParticipants(cfg, m, w, o, now);
      && (n.report.Some? <==> Installs(m, w, o) || Replays(m, w, o))
      && n.speaker.None? && (n.report.Some? ==> n.report.value == ReportOf(n.state))
      && (!Installs(m, w, o) ==> n.state == m && n.armed.None?)
      && (Installs(m, w, o) ==> Installed(m.roster, w, now, n.state.roster) && n == Settle(cfg, m, n.state.roster, None, now))
  {
    if Installs(m, w, o) {
      SettleFrame(cfg, m, Replaced(m.roster, w, now), None, now);
      ReplacedIsInstalled(m.roster, w, now);
    }
  }

  // ----- whoever brings it -----

  /** The snapshot that an event brings under the lock: a synchronisation, or the re-reading of an auto-stop. */
  function Brought(s: System, e: Event): Option<(Snapshot, SyncOptions)> {
    match e
    case SyncCall(w, o) => Some((w, o))
    case Run(id, _) =>
      if id in s.tasks && s.tasks[id].StopTask? && s.tasks[id].stopPhase.StopSyncing?
      then
        var p := s.tasks[id].stopPhase;
        Some((p.snapshot, SyncOptions(true, p.reconnect, true, true, p.revision)))
      else None
    case _ => None
  }

  predicate InstallsNow(s: System, e: Event) {
    Brought(s, e).Some? && Installs(s.m, Brought(s, e).value.0, Brought(s, e).value.1)
  }

  /** The step has handed out a participant report. */
  predicate NewReport(s: System, n: System) {
    exists id :: id in n.tasks && n.tasks[id].ReportTask? && s.next <= id
  }

  /** One row per participant, with its speaking flag. */
  predicate Lists(rows: map<Id, Row>, r: Roster) {
    && rows.Keys == r.participants.Keys
    && forall u :: u in rows ==> rows[u].participant == r.participants[u] && (rows[u].speaking <==> u in r.speakers)
  }

  /** Every report the step has handed out is of the job, roster, revision and generation it left. */
  predicate ReportsItself(s: System, n: System) {
    forall id :: id in n.tasks && n.tasks[id].ReportTask? && s.next <= id ==>
      var r := n.tasks[id].report;
      r.job == n.m.current && Lists(r.rows, n.m.roster) && r.revision == n.m.roster.revision && r.generation == n.m.generation
  }

  lemma FinishReports(s: System, stream: Id, o: Outcome)
    requires Numbered(s)
    ensures var n := Finish(s, stream, o);
      && (NewReport(s, n) <==> o.report.Some?)
      && ((o.report.Some? ==> o.report.value == ReportOf(o.state)) ==> ReportsItself(s, n))
  {
    if o.report.Some? { assert Finish(s, stream, o).tasks[s.next] == ReportTask(o.report.value); }
  }

  lemma BroughtOutcome(cfg: Config, s: System, e: Event, now: int)
    requires Brought(s, e).Some?
    ensures var o := SyncParticipants(cfg, s.m, Brought(s, e).value.0, Brought(s, e).value.1, now);
      var n := Apply(cfg, s, e, now);
      && n.m == o.state && n.trace == s.trace && (Numbered(s) ==> (NewReport(s, n) <==> o.report.Some?))
      && (Numbered(s) && (o.report.Some? ==> o.report.value == ReportOf(o.state)) ==> ReportsItself(s, n))
  {
    var o := SyncParticipants(cfg, s.m, Brought(s, e).value.0, Brought(s, e).value.1, now);
    if Numbered(s) {
      if e.Run? {
        var p := s.tasks[e.task].stopPhase;
        var k := Become(s, e.task, s.tasks[e.task].(stopPhase := StopCancelling(p.job, p.reconnect)));
        FinishReports(k, s.m.current.streamID, o);
      } else {
        FinishReports(s, s.m.current.streamID, o);
      }
    }
  }

  /**
   * MAIN: a numbered snapshot that is not newer than the last one installed changes nothing at all;
   * it replaces no participant, arms and cancels no stop.
   */
  lemma StaleSnapshotChangesNothing(cfg: Config, s: System, e: Event, now: int)
    requires Brought(s, e).Some? && 0 < Brought(s, e).value.0.revision <= s.m.roster.snapshotRevision
    ensures Apply(cfg, s, e, now).m == s.m
  {
    var b := Brought(s, e).value;
    BroughtOutcome(cfg, s, e, now);
    OutcomeOfSync(cfg, s.m, b.0, b.1, now);
  }

  /**
   * MAIN: a snapshot of the running job that is not overtaken, and unnumbered or newer, installs exactly
   * its named users with the largest revision so far; any other leaves the manager as it is. A report
   * follows an installed snapshot, an overtaken one, and a replay of the last one.
   */
  lemma SnapshotInstallsExactly(cfg: Config, s: System, e: Event, now: int)
    requires Numbered(s) && Brought(s, e).Some?
    ensures var (w, o), n := Brought(s, e).value, Apply(cfg, s, e, now);
      && (if Installs(s.m, w, o) then Installed(s.m.roster, w, now, n.m.roster) else n.m == s.m)
      && (NewReport(s, n) <==> Installs(s.m, w, o) || Replays(s.m, w, o)) && ReportsItself(s, n)
  {
    var b := Brought(s, e).value;
    BroughtOutcome(cfg, s, e, now);
    OutcomeOfSync(cfg, s.m, b.0, b.1, now);
  }

  // ----- over runs -----

  predicate CommitsStart(s: System, e: Event) {
    e.Run? && e.task in s.tasks && s.tasks[e.task].StartJobTask? && e.answer.Done?
  }

  lemma TaskRevision(cfg: Config, s: System, id: nat, answer: Answer, now: int)
    requires id in s.tasks && !CommitsStart(s, Run(id, answer)) && Brought(s, Run(id, answer)).None?
    ensures RunTask(cfg, s, id, answer, now).m.roster.snapshotRevision == s.m.roster.snapshotRevision
  {
    var t := s.tasks[id];
    match t
    case StopTask(_, _, _, _) => StopFrame(cfg, s, id, t, answer, now);
    case StartTask(_, _, _, _) => StartFrame(cfg, s, id, t, answer);
    case JoinTask(_, _, _) => JoinFrame(cfg, s, id, t, answer);
    case ReconcileTask(_, _, _) => ReconcileFrame(cfg, s, id, t, answer);
    case JoinBeginTask(e) => BeginJoinFrame(cfg, s.m, e, now);
    case _ => PlainTaskRevision(cfg, s, id, answer, now);
  }

  lemma PlainTaskRevision(cfg: Config, s: System, id: nat, answer: Answer, now: int)
    requires id in s.tasks && !CommitsStart(s, Run(id, answer))
    requires var t := s.tasks[id]; !t.StopTask? && !t.StartTask? && !t.JoinTask? && !t.ReconcileTask? && !t.JoinBeginTask?
    ensures RunTask(cfg, s, id, answer, now).m.roster.snapshotRevision == s.m.roster.snapshotRevision
  {
  }

  lemma CallRevision(cfg: Config, s: System, e: Event, now: int)
    requires !e.Run? && !e.SyncCall?
    ensures Apply(cfg, s, e, now).m.roster.snapshotRevision == s.m.roster.snapshotRevision
  {
    match e
    case ParticipantCall(p) => ChangeRevision(cfg, s.m, p, now);
    case JoinCall(j) => BeginJoinFrame(cfg, s.m, j, now);
    case StartCall(job) => CancelStopFrame(s.m, job.streamID);
    case _ =>
  }

  lemma ChangeRevision(cfg: Config, m: State, e: ParticipantEvent, now: int)
    ensures ChangeParticipant(cfg, m, e, now).state.roster.snapshotRevision == m.roster.snapshotRevision
  {
    var o := ChangeParticipant(cfg, m, e, now);
    if o.report.Some? { SettleFrame(cfg, m, o.state.roster, o.speaker, now); }
  }

  /** Unless it commits a start, no step lowers the revision, and an installing one raises it to the snapshot's. */
  lemma RevisionStep(cfg: Config, s: System, e: Event, now: int)
    requires !CommitsStart(s, e)
    ensures s.m.roster.snapshotRevision <= Apply(cfg, s, e, now).m.roster.snapshotRevision
    ensures InstallsNow(s, e) ==> Brought(s, e).value.0.revision <= Apply(cfg, s, e, now).m.roster.snapshotRevision
  {
    if Brought(s, e).Some? {
      BroughtOutcome(cfg, s, e, now);
      OutcomeOfSync(cfg, s.m, Brought(s, e).value.0, Brought(s, e).value.1, now);
    } else if e.Run? {
      if e.task in s.tasks { TaskRevision(cfg, s, e.task, e.answer, now); }
    } else {
      CallRevision(cfg, s, e, now);
    }
  }

  /** No start commits from the i-th event of the run to before its j-th. */
  ghost predicate OneJob(cfg: Config, s: System, run: seq<Timed>, i: nat, j: nat)
    requires i <= j <= |run|
  {
    forall k :: i <= k < j ==> !CommitsStart(Execute(cfg, s, run[..k]), run[k].event)
  }

  lemma RevisionAt(cfg: Config, s: System, run: seq<Timed>, k: nat)
    requires k < |run| && !CommitsStart(Execute(cfg, s, run[..k]), run[k].event)
    ensures var m, n := Execute(cfg, s, run[..k]), Execute(cfg, s, run[..k + 1]);
      && m.m.roster.snapshotRevision <= n.m.roster.snapshotRevision
      && (InstallsNow(m, run[k].event) ==> Brought(m, run[k].event).value.0.revision <= n.m.roster.snapshotRevision)
  {
    assert run[..k + 1][..k] == run[..k];
    RevisionStep(cfg, Execute(cfg, s, run[..k]), run[k].event, run[k].now);
  }

  /** MAIN: between two commits of Start the revision of the installed snapshot never goes back. */
  lemma {:induction false} InstalledRevisionNeverDecreases(cfg: Config, s: System, run: seq<Timed>, i: nat, j: nat)
    requires i <= j <= |run| && OneJob(cfg, s, run, i, j)
    ensures Execute(cfg, s, run[..i]).m.roster.snapshotRevision <= Execute(cfg, s, run[..j]).m.roster.snapshotRevision
  {
    if i < j {
      InstalledRevisionNeverDecreases(cfg, s, run, i, j - 1);
      RevisionAt(cfg, s, run, j - 1);
    }
  }

  /** MAIN: and of two numbered snapshots installed for one job the later one has the larger revision. */
  lemma NoOlderSnapshotFollows(cfg: Config, s: System, run: seq<Timed>, i: nat, j: nat)
    requires i < j < |run| && OneJob(cfg, s, run, i, j)
    requires InstallsNow(Execute(cfg, s, run[..i]), run[i].event) && InstallsNow(Execute(cfg, s, run[..j]), run[j].event)
    ensures var first := Brought(Execute(cfg, s, run[..i]), run[i].event).value.0.revision;
      var second := Brought(Execute(cfg, s, run[..j]), run[j].event).value.0.revision;
      second > 0 ==> first < second
  {
    RevisionAt(cfg, s, run, i);
    InstalledRevisionNeverDecreases(cfg, s, run, i + 1, j);
  }
}
