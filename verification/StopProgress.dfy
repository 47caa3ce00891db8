/** How many steps the goroutine of one armed auto-stop can take at all. */
module StopProgress {
  import opened JobTypes
  import opened ManagerState
  import opened ManagerSystem
  import opened SystemFrames
  import opened AutoStopSafety

  /** The retries left, as long as the generation is the one the manager waits for. */
  function AttemptsLeft(cfg: Config, m: State, stream: Id, g: nat): nat {
    if Live(m, stream, g) && Count(m.stop.attempts, stream) <= cfg.stopRetryDelays
    then cfg.stopRetryDelays - Count(m.stop.attempts, stream) else 0
  }

  /** How far the stages of one attempt are from its end. */
  function PhaseRank(p: StopPhase): nat {
    match p
    case StopWaiting => 9
    case StopReading(_, _, _) => 8
    case StopSyncing(_, _, _, _) => 7
    case StopCancelling(_, _) => 1
    case StopEmptied(_, _) => 5
    case StopIssuing(_, _) => 4
    case StopRequested => 3
    case StopFailed => 2
    case StopFinishing => 1
  }

  /** A task that is about to cancel ends with its next step, whatever it has lost. */
  function Potential(cfg: Config, m: State, t: Task): (p: nat)
    requires t.StopTask?
    ensures 1 <= p <= Bound(cfg)
  {
    if t.stopPhase.StopCancelling? then 1
    else 16 * AttemptsLeft(cfg, m, t.stream, t.generation) + (if t.passed then 0 else 8) + PhaseRank(t.stopPhase)
  }

  /** Sixteen for every retry, eight for the first confirmation, nine for the stages. */
  function Bound(cfg: Config): nat { 16 * cfg.stopRetryDelays + 17 }

  // ----- the task's own steps -----

  /** A step of the task ends it, waits, or lowers its potential. */
  predicate Progresses(cfg: Config, s: System, n: System, id: nat, t: Task)
    requires t.StopTask?
  {
    id !in n.tasks || n == s
    || (SamePair(t, n.tasks[id]) && Potential(cfg, n.m, n.tasks[id]) < Potential(cfg, s.m, t))
  }

  /** Every step of a stop task, in every stage, ends it, waits, or lowers its potential. */
  lemma StopTaskEnds(cfg: Config, s: System, id: nat, t: Task, answer: Answer, now: int)
    requires Numbered(s) && id in s.tasks && s.tasks[id] == t && t.StopTask?
    ensures Progresses(cfg, s, RunStop(cfg, s, id, t, answer, now), id, t)
  {
    match t.stopPhase
    case StopSyncing(_, _, _, _) => SyncingEnds(cfg, s, id, t, answer, now);
    case StopRequested => RequestedEnds(cfg, s, id, t, answer, now);
    case StopFailed => FailedEnds(cfg, s, id, t, answer, now);
    case _ => PlainStageEnds(cfg, s, id, t, answer, now);
  }

  lemma PlainStageEnds(cfg: Config, s: System, id: nat, t: Task, answer: Answer, now: int)
    requires Numbered(s) && id in s.tasks && s.tasks[id] == t && t.StopTask?
    requires !t.stopPhase.StopSyncing? && !t.stopPhase.StopRequested? && !t.stopPhase.StopFailed?
    ensures Progresses(cfg, s, RunStop(cfg, s, id, t, answer, now), id, t)
  {
  }

  lemma SyncingEnds(cfg: Config, s: System, id: nat, t: Task, answer: Answer, now: int)
    requires Numbered(s) && id in s.tasks && s.tasks[id] == t && t.StopTask? && t.stopPhase.StopSyncing?
    ensures Progresses(cfg, s, RunStop(cfg, s, id, t, answer, now), id, t)
  {
    var p := t.stopPhase;
    var k := Become(s, id, t.(stopPhase := StopCancelling(p.job, p.reconnect)));
    FinishAdds(k, s.m.current.streamID, SyncParticipants(cfg, s.m, p.snapshot, SyncOptions(true, p.reconnect, true, true, p.revision), now));
  }

  /** The tasks of a participant section get numbers of their own. */
  lemma FinishAdds(s: System, stream: Id, o: Outcome)
    requires Numbered(s)
    ensures var n := Finish(s, stream, o);
      && n.m == o.state && (forall id :: id in s.tasks ==> id in n.tasks && n.tasks[id] == s.tasks[id])
      && (forall id :: id in n.tasks && id < s.next ==> id in s.tasks)
  {
  }

  lemma RequestedEnds(cfg: Config, s: System, id: nat, t: Task, answer: Answer, now: int)
    requires Numbered(s) && id in s.tasks && s.tasks[id] == t && t.StopTask? && t.stopPhase.StopRequested?
    ensures Progresses(cfg, s, RunStop(cfg, s, id, t, answer, now), id, t)
  {
  }

  lemma FailedEnds(cfg: Config, s: System, id: nat, t: Task, answer: Answer, now: int)
    requires Numbered(s) && id in s.tasks && s.tasks[id] == t && t.StopTask? && t.stopPhase.StopFailed?
    ensures Progresses(cfg, s, RunStop(cfg, s, id, t, answer, now), id, t)
  {
  }

  // ----- the steps of everything else -----

  /** The stop tasks that were there are those that are there and one that may just have been armed, no
      retry came back for any of them, and nothing is observed of any. */
  ghost predicate Elsewhere(cfg: Config, s: System, n: System) {
    && Evolves(s.m, n.m, "", -1) && OtherTrace(s.trace, n.trace)
    && (forall id :: id in n.tasks && n.tasks[id].StopTask? ==>
          (id in s.tasks && n.tasks[id] == s.tasks[id]) || (id >= s.next && JustArmed(cfg, s.m, n.m, n.tasks[id])))
  }

  lemma EvolvesLowers(cfg: Config, m: State, n: State, t: Task, stream: Id, g: int)
    requires t.StopTask? && Evolves(m, n, stream, g) && t.generation <= Count(m.stop.generation, t.stream)
    requires t.stream != stream || t.generation != g
    ensures Potential(cfg, n, t) <= Potential(cfg, m, t)
  {
  }

  lemma FinishElsewhere(cfg: Config, s: System, stream: Id, o: Outcome)
    requires Numbered(s) && Evolves(s.m, o.state, "", -1)
    requires o.armed.Some? ==> JustArmed(cfg, s.m, o.state, StopTask(stream, o.armed.value, false, StopWaiting))
    ensures Elsewhere(cfg, s, Finish(s, stream, o))
  {
  }

  lemma RosterCallElsewhere(cfg: Config, s: System, e: Event, now: int)
    requires Numbered(s) && (e.ParticipantCall? || e.SyncCall? || e.SpeakerCall? || e.ClearCall?)
    ensures Elsewhere(cfg, s, Apply(cfg, s, e, now))
  {
    var stream := s.m.current.streamID;
    match e
    case ParticipantCall(p) =>
      ChangeEvolves(cfg, s.m, p, now);
      FinishElsewhere(cfg, s, stream, ChangeParticipant(cfg, s.m, p, now));
    case SyncCall(w, o) =>
      SettleEvolves(cfg, s.m, Replaced(s.m.roster, w, now), None, now);
      FinishElsewhere(cfg, s, stream, SyncParticipants(cfg, s.m, w, o, now));
    case SpeakerCall(x, u, b, k) => FinishElsewhere(cfg, s, stream, SetSpeaker(s.m, x, u, b, k));
    case ClearCall(x) => FinishElsewhere(cfg, s, stream, ClearSpeakers(s.m, x));
  }

  lemma CallElsewhere(cfg: Config, s: System, e: Event, now: int)
    requires Numbered(s) && !e.Run? && !e.ParticipantCall? && !e.SyncCall? && !e.SpeakerCall? && !e.ClearCall?
    ensures Elsewhere(cfg, s, Apply(cfg, s, e, now))
  {
    if e.JoinCall? { JoinEvolves(cfg, s.m, e.join, now); }
    if e.StartCall? { CancelEvolves(s.m, e.job.streamID); }
  }

  lemma TaskElsewhere(cfg: Config, s: System, id: nat, answer: Answer, now: int)
    requires Numbered(s) && id in s.tasks && !s.tasks[id].StopTask?
    ensures Elsewhere(cfg, s, RunTask(cfg, s, id, answer, now))
  {
    var t := s.tasks[id];
    match t
    case StartTask(_, _, _, _) => StartFrame(cfg, s, id, t, answer); FramedElsewhere(cfg, s, RunStart(cfg, s, id, t, answer), id, t);
    case JoinTask(_, _, _) => JoinFrame(cfg, s, id, t, answer); FramedElsewhere(cfg, s, RunJoin(cfg, s, id, t, answer), id, t);
    case ReconcileTask(_, _, _) => ReconcileFrame(cfg, s, id, t, answer); FramedElsewhere(cfg, s, RunReconcile(cfg, s, id, t, answer), id, t);
    case JoinBeginTask(e) => JoinEvolves(cfg, s.m, e, now);
    case _ => PublishingElsewhere(cfg, s, id, answer, now);
  }

  /** The step of a stop task. */
  predicate StepsStop(s: System, e: Event) { e.Run? && e.task in s.tasks && s.tasks[e.task].StopTask? }

  lemma OtherElsewhere(cfg: Config, s: System, e: Event, now: int)
    requires Numbered(s) && !StepsStop(s, e)
    ensures Elsewhere(cfg, s, Apply(cfg, s, e, now))
  {
    match e
    case Run(j, answer) => if j in s.tasks { TaskElsewhere(cfg, s, j, answer, now); }
    case ParticipantCall(_) => RosterCallElsewhere(cfg, s, e, now);
    case SyncCall(_, _) => RosterCallElsewhere(cfg, s, e, now);
    case SpeakerCall(_, _, _, _) => RosterCallElsewhere(cfg, s, e, now);
    case ClearCall(_) => RosterCallElsewhere(cfg, s, e, now);
    case _ => CallElsewhere(cfg, s, e, now);
  }

  lemma FramedElsewhere(cfg: Config, s: System, n: System, id: nat, t: Task)
    requires (t.StartTask? && StartFramed(s, n, id, t)) || (t.JoinTask? && JoinFramed(s, n, id, t)) || (t.ReconcileTask? && ReconcileFramed(s, n, id, t))
    ensures Elsewhere(cfg, s, n)
  {
  }

  lemma PublishingElsewhere(cfg: Config, s: System, id: nat, answer: Answer, now: int)
    requires Numbered(s) && id in s.tasks
    requires var t := s.tasks[id]; t.ReportTask? || t.SpeakerTask? || t.PublishTask? || t.StartJobTask? || t.LeaveTask? || t.VoiceTask?
    ensures Elsewhere(cfg, s, RunTask(cfg, s, id, answer, now))
  {
  }

  /** The stop tasks below `s.next` other than `id` are as they were. */
  predicate OthersSame(s: System, n: System, id: nat) {
    forall j :: j in n.tasks && n.tasks[j].StopTask? && j < s.next && j != id ==> j in s.tasks && n.tasks[j] == s.tasks[j]
  }

  /** A step of one stop task leaves the others alone, and can only use up the retries of its own pair. */
  lemma StopElsewhere(cfg: Config, s: System, id: nat, t: Task, answer: Answer, now: int)
    requires Numbered(s) && id in s.tasks && s.tasks[id] == t && t.StopTask?
    ensures var n := RunStop(cfg, s, id, t, answer, now); Evolves(s.m, n.m, t.stream, t.generation) && OthersSame(s, n, id)
  {
    if t.stopPhase.StopSyncing? {
      SyncingElsewhere(cfg, s, id, t, answer, now);
    } else {
      StopFrame(cfg, s, id, t, answer, now);
      FramedOthersSame(s, RunStop(cfg, s, id, t, answer, now), id, t);
      StageEvolves(cfg, s, id, t, answer, now);
    }
  }

  lemma FramedOthersSame(s: System, n: System, id: nat, t: Task)
    requires t.StopTask? && StopFramed(s, n, id, t)
    ensures OthersSame(s, n, id)
  {
  }

  lemma SyncingElsewhere(cfg: Config, s: System, id: nat, t: Task, answer: Answer, now: int)
    requires Numbered(s) && id in s.tasks && s.tasks[id] == t && t.StopTask? && t.stopPhase.StopSyncing?
    ensures var n := RunStop(cfg, s, id, t, answer, now); Evolves(s.m, n.m, t.stream, t.generation) && OthersSame(s, n, id)
  {
    var p := t.stopPhase;
    var o := SyncOptions(true, p.reconnect, true, true, p.revision);
    SyncEvolves(cfg, s.m, p.snapshot, o, now);
    FinishOthersSame(s, id, t.(stopPhase := StopCancelling(p.job, p.reconnect)), SyncParticipants(cfg, s.m, p.snapshot, o, now));
  }

  lemma SyncEvolves(cfg: Config, m: State, w: Snapshot, o: SyncOptions, now: int)
    ensures Evolves(m, SyncParticipants(cfg, m, w, o, now).state, "", -1)
  {
    SettleEvolves(cfg, m, Replaced(m.roster, w, now), None, now);
  }

  lemma FinishOthersSame(s: System, id: nat, t: Task, o: Outcome)
    requires Numbered(s) && id in s.tasks
    ensures OthersSame(s, Finish(Become(s, id, t), s.m.current.streamID, o), id)
  {
    FinishAdds(Become(s, id, t), s.m.current.streamID, o);
  }

  lemma StageEvolves(cfg: Config, s: System, id: nat, t: Task, answer: Answer, now: int)
    requires t.StopTask? && !t.stopPhase.StopSyncing?
    ensures Evolves(s.m, RunStop(cfg, s, id, t, answer, now).m, t.stream, t.generation)
  {
    match t.stopPhase
    case StopCancelling(_, _) => CancellingEnds(cfg, s, id, t, answer, now);
    case StopIssuing(_, _) => IssuingEvolves(cfg, s, id, t, answer, now);
    case StopRequested => RequestedEvolves(cfg, s, id, t, answer, now);
    case StopFailed => FailedEvolves(cfg, s, id, t, answer, now);
    case StopFinishing => FinishingEvolves(cfg, s, id, t, answer, now);
    case _ => QuietFrame(cfg, s, id, t, answer, now);
  }

  lemma IssuingEvolves(cfg: Config, s: System, id: nat, t: Task, answer: Answer, now: int)
    requires t.StopTask? && t.stopPhase.StopIssuing?
    ensures Evolves(s.m, RunStop(cfg, s, id, t, answer, now).m, "", -1)
  {
  }

  lemma RequestedEvolves(cfg: Config, s: System, id: nat, t: Task, answer: Answer, now: int)
    requires t.StopTask? && t.stopPhase.StopRequested?
    ensures Evolves(s.m, RunStop(cfg, s, id, t, answer, now).m, "", -1)
  {
  }

  lemma FailedEvolves(cfg: Config, s: System, id: nat, t: Task, answer: Answer, now: int)
    requires t.StopTask? && t.stopPhase.StopFailed?
    ensures Evolves(s.m, RunStop(cfg, s, id, t, answer, now).m, t.stream, t.generation)
  {
    RetryEvolves(cfg, s.m, t.stream, t.generation);
  }

  lemma FinishingEvolves(cfg: Config, s: System, id: nat, t: Task, answer: Answer, now: int)
    requires t.StopTask? && t.stopPhase.StopFinishing?
    ensures Evolves(s.m, RunStop(cfg, s, id, t, answer, now).m, "", -1)
  {
    FinishEvolves(s.m, t.stream, t.generation);
  }

  // ----- over runs -----

  function Left(cfg: Config, s: System, id: nat): nat {
    if id in s.tasks && s.tasks[id].StopTask? then Potential(cfg, s.m, s.tasks[id]) else 0
  }

  /** The step from s to n moved the stop task `id`: it changed its stage or ended. */
  predicate Moved(s: System, n: System, id: nat) {
    id in s.tasks && s.tasks[id].StopTask? && (id !in n.tasks || n.tasks[id] != s.tasks[id])
  }

  /** No event raises the potential of a stop task that is there, and every move of it lowers it. */
  lemma PotentialStep(cfg: Config, s: System, e: Event, now: int, id: nat)
    requires Inv(cfg, s) && Numbered(s) && id < s.next
    ensures var n := Apply(cfg, s, e, now); Left(cfg, n, id) + (if Moved(s, n, id) then 1 else 0) <= Left(cfg, s, id)
  {
    var n := Apply(cfg, s, e, now);
    if StepsStop(s, e) {
      StopStep(cfg, s, e.task, e.answer, now, id);
    } else {
      OtherElsewhere(cfg, s, e, now);
      ElsewhereLowers(cfg, s, n, id);
    }
  }

  lemma ElsewhereLowers(cfg: Config, s: System, n: System, id: nat)
    requires Inv(cfg, s) && Elsewhere(cfg, s, n) && id < s.next
    ensures Left(cfg, n, id) + (if Moved(s, n, id) then 1 else 0) <= Left(cfg, s, id)
  {
    if id in n.tasks && n.tasks[id].StopTask? {
      var t := s.tasks[id];
      assert Stage(cfg, s.m, s.trace, t);
      EvolvesLowers(cfg, s.m, n.m, t, "", -1);
    }
  }

  lemma StopStep(cfg: Config, s: System, j: nat, answer: Answer, now: int, id: nat)
    requires Inv(cfg, s) && Numbered(s) && id < s.next && j in s.tasks && s.tasks[j].StopTask?
    ensures var n := RunStop(cfg, s, j, s.tasks[j], answer, now);
      Left(cfg, n, id) + (if Moved(s, n, id) then 1 else 0) <= Left(cfg, s, id)
  {
    var t, n := s.tasks[j], RunStop(cfg, s, j, s.tasks[j], answer, now);
    if id == j {
      StopTaskEnds(cfg, s, j, t, answer, now);
    } else {
      StopElsewhere(cfg, s, j, t, answer, now);
      if id in n.tasks && n.tasks[id].StopTask? {
        assert Stage(cfg, s.m, s.trace, s.tasks[id]);
        EvolvesLowers(cfg, s.m, n.m, s.tasks[id], t.stream, t.generation);
      }
    }
  }

  /** How often the stop task `id` moves in a run. */
  ghost function Moves(cfg: Config, run: seq<Timed>, id: nat): nat {
    if run == [] then 0
    else
      var s := Execute(cfg, BOOT, run[..|run| - 1]);
      Moves(cfg, run[..|run| - 1], id) + (if Moved(s, Execute(cfg, BOOT, run), id) then 1 else 0)
  }

  lemma {:induction false} MovesAndPotential(cfg: Config, run: seq<Timed>, id: nat)
    ensures var s := Execute(cfg, BOOT, run);
      && (id >= s.next ==> Moves(cfg, run, id) == 0 && Left(cfg, s, id) == 0)
      && Moves(cfg, run, id) + Left(cfg, s, id) <= Bound(cfg)
  {
    if run != [] {
      var front, last := run[..|run| - 1], run[|run| - 1];
      var s := Execute(cfg, BOOT, front);
      MovesAndPotential(cfg, front, id);
      InvHolds(cfg, front);
      NumberedHolds(cfg, front);
      NumberedStep(cfg, s, last.event, last.now);
      if id < s.next { PotentialStep(cfg, s, last.event, last.now, id); }
    }
  }

  /**
   * MAIN: over every run, whatever happens to the auto-stop records between its steps, one auto-stop
   * goroutine changes its stage at most 16 * len(retry delays) + 17 times before it ends.
   */
  lemma StopTaskMovesAreBounded(cfg: Config, run: seq<Timed>, id: nat)
    ensures Moves(cfg, run, id) <= 16 * cfg.stopRetryDelays + 17
  {
    MovesAndPotential(cfg, run, id);
  }
}
