/** What the panel's answer to a stop request leads to: one step of the task that has asked, and over
    whole runs which answers a further request may follow. */
module StopAnswers {
  import opened JobTypes
  import opened ManagerState
  import opened ManagerSystem
  import opened SystemFrames
  import AS = AutoStopSafety
  import opened StopProgress

  /** Where the requests of one armed generation and their answers have got to. */
  datatype Asking = Unasked | Outstanding | Repeatable | Over | Broken

  function Heard(p: Asking, o: Observation, stream: Id, g: nat): Asking {
    if o == StopIssued(stream, g) then (if p == Unasked || p == Repeatable then Outstanding else Broken)
    else if o.StopAnswered? && o.stream == stream && o.generation == g then
      if p != Outstanding then Broken else if o.answer == Failed(true) then Repeatable else Over
    else p
  }

  function Asked(trace: seq<Observation>, stream: Id, g: nat): Asking {
    if trace == [] then Unasked else Heard(Asked(trace[..|trace| - 1], stream, g), trace[|trace| - 1], stream, g)
  }

  lemma AskedAppended(trace: seq<Observation>, longer: seq<Observation>, stream: Id, g: nat)
    requires Longer(trace, longer)
    ensures Asked(longer, stream, g) == Heard(Asked(trace, stream, g), longer[|trace|], stream, g)
  {
  }

  /** The stage of a task agrees with what has been asked and answered for its pair. */
  predicate Fits(trace: seq<Observation>, t: Task)
    requires t.StopTask?
  {
    var p := Asked(trace, t.stream, t.generation);
    match t.stopPhase
    case StopRequested => p == Outstanding
    case StopFailed => p == Repeatable
    case StopFinishing => p == Over
    case _ => p == Unasked || p == Repeatable
  }

  ghost predicate Inv(s: System) {
    && (forall stream, g :: Asked(s.trace, stream, g) != Broken)
    && (forall id :: id in s.tasks && s.tasks[id].StopTask? ==> Fits(s.trace, s.tasks[id]))
    && (forall stream, g :: g > Count(s.m.stop.generation, stream) ==> Asked(s.trace, stream, g) == Unasked)
  }

  // ----- steps of everything else -----

  lemma SameAsking(trace: seq<Observation>, longer: seq<Observation>)
    requires AS.OtherTrace(trace, longer)
    ensures forall stream, g :: Asked(longer, stream, g) == Asked(trace, stream, g)
  {
    if longer != trace {
      forall stream, g ensures Asked(longer, stream, g) == Asked(trace, stream, g) { AskedAppended(trace, longer, stream, g); }
    }
  }

  lemma ElsewhereKeeps(cfg: Config, s: System, n: System)
    requires Inv(s) && Elsewhere(cfg, s, n)
    ensures Inv(n)
  {
    SameAsking(s.trace, n.trace);
    forall id | id in n.tasks && n.tasks[id].StopTask? ensures Fits(n.trace, n.tasks[id]) {
      if !(id in s.tasks && n.tasks[id] == s.tasks[id]) { assert AS.JustArmed(cfg, s.m, n.m, n.tasks[id]); }
    }
  }

  // ----- the steps of the task itself -----

  /** No two tasks act for one pair. */
  ghost predicate OneTaskEach(s: System) {
    forall i, j | i in s.tasks && j in s.tasks && i != j && s.tasks[i].StopTask? && s.tasks[j].StopTask? ::
      s.tasks[i].stream != s.tasks[j].stream || s.tasks[i].generation != s.tasks[j].generation
  }

  /** The task ends, or goes on to a stage that fits. */
  lemma OwnKeeps(cfg: Config, s: System, n: System, id: nat, t: Task)
    requires Inv(s) && OneTaskEach(s) && id in s.tasks && s.tasks[id] == t && t.StopTask? && StopFramed(s, n, id, t)
    requires AS.Evolves(s.m, n.m, t.stream, t.generation) && t.generation <= Count(s.m.stop.generation, t.stream)
    requires Asked(n.trace, t.stream, t.generation) != Broken
    requires id in n.tasks && n.tasks[id].StopTask? ==> Fits(n.trace, n.tasks[id])
    ensures Inv(n)
  {
    forall stream, g | stream != t.stream || g != t.generation ensures Asked(n.trace, stream, g) == Asked(s.trace, stream, g) {
      if n.trace != s.trace { AskedAppended(s.trace, n.trace, stream, g); }
    }
  }

  /** The stages of an attempt that come before its request. */
  predicate Quiet(p: StopPhase) { !p.StopIssuing? && !p.StopRequested? && !p.StopFailed? && !p.StopFinishing? }

  lemma QuietKeeps(cfg: Config, s: System, id: nat, t: Task, answer: Answer, now: int)
    requires Inv(s) && id in s.tasks && s.tasks[id] == t && t.StopTask?
    requires !t.stopPhase.StopSyncing? && Quiet(t.stopPhase)
    ensures var n := RunStop(cfg, s, id, t, answer, now);
      && Asked(n.trace, t.stream, t.generation) == Asked(s.trace, t.stream, t.generation)
      && (id in n.tasks && n.tasks[id].StopTask? ==> Fits(n.trace, n.tasks[id]))
  {
    var n := RunStop(cfg, s, id, t, answer, now);
    if n.trace != s.trace { AskedAppended(s.trace, n.trace, t.stream, t.generation); }
  }

  lemma AskingKeeps(cfg: Config, s: System, id: nat, t: Task, answer: Answer, now: int)
    requires Inv(s) && id in s.tasks && s.tasks[id] == t && t.StopTask?
    requires !Quiet(t.stopPhase)
    ensures var n := RunStop(cfg, s, id, t, answer, now);
      && Asked(n.trace, t.stream, t.generation) != Broken
      && (id in n.tasks && n.tasks[id].StopTask? ==> Fits(n.trace, n.tasks[id]))
  {
    var n := RunStop(cfg, s, id, t, answer, now);
    if n.trace != s.trace { AskedAppended(s.trace, n.trace, t.stream, t.generation); }
  }

  lemma StopStepKeeps(cfg: Config, s: System, id: nat, t: Task, answer: Answer, now: int)
    requires Inv(s) && OneTaskEach(s) && Numbered(s) && id in s.tasks && s.tasks[id] == t && t.StopTask?
    requires t.generation <= Count(s.m.stop.generation, t.stream)
    ensures Inv(RunStop(cfg, s, id, t, answer, now))
  {
    if t.stopPhase.StopSyncing? {
      SyncingKeeps(cfg, s, id, t, answer, now);
    } else {
      StopFrame(cfg, s, id, t, answer, now);
      StageEvolves(cfg, s, id, t, answer, now);
      if Quiet(t.stopPhase) { QuietKeeps(cfg, s, id, t, answer, now); } else { AskingKeeps(cfg, s, id, t, answer, now); }
      OwnKeeps(cfg, s, RunStop(cfg, s, id, t, answer, now), id, t);
    }
  }

  lemma SyncingKeeps(cfg: Config, s: System, id: nat, t: Task, answer: Answer, now: int)
    requires Inv(s) && Numbered(s) && id in s.tasks && s.tasks[id] == t && t.StopTask? && t.stopPhase.StopSyncing?
    ensures Inv(RunStop(cfg, s, id, t, answer, now))
  {
    var p := t.stopPhase;
    var k := Become(s, id, t.(stopPhase := StopCancelling(p.job, p.reconnect)));
    var o := SyncParticipants(cfg, s.m, p.snapshot, SyncOptions(true, p.reconnect, true, true, p.revision), now);
    assert Inv(k);
    AS.SettleEvolves(cfg, s.m, Replaced(s.m.roster, p.snapshot, now), None, now);
    FinishElsewhere(cfg, k, s.m.current.streamID, o);
    ElsewhereKeeps(cfg, k, Finish(k, s.m.current.streamID, o));
  }

  lemma {:induction false} InvHolds(cfg: Config, run: seq<Timed>)
    ensures Inv(Execute(cfg, BOOT, run)) && AS.Inv(cfg, Execute(cfg, BOOT, run)) && Numbered(Execute(cfg, BOOT, run))
  {
    AS.InvHolds(cfg, run);
    NumberedHolds(cfg, run);
    if run != [] {
      InvHolds(cfg, run[..|run| - 1]);
      StepKeeps(cfg, Execute(cfg, BOOT, run[..|run| - 1]), run[|run| - 1].event, run[|run| - 1].now);
    }
  }

  lemma StepKeeps(cfg: Config, s: System, e: Event, now: int)
    requires Inv(s) && AS.Inv(cfg, s) && Numbered(s)
    ensures Inv(Apply(cfg, s, e, now))
  {
    if StepsStop(s, e) {
      assert AS.Stage(cfg, s.m, s.trace, s.tasks[e.task]);
      StopStepKeeps(cfg, s, e.task, s.tasks[e.task], e.answer, now);
    } else {
      OtherElsewhere(cfg, s, e, now);
      ElsewhereKeeps(cfg, s, Apply(cfg, s, e, now));
    }
  }

  // ----- what a trace says -----

  lemma AskedNext(trace: seq<Observation>, k: nat, stream: Id, g: nat)
    requires k < |trace|
    ensures Asked(trace[..k + 1], stream, g) == Heard(Asked(trace[..k], stream, g), trace[k], stream, g)
  {
    assert trace[..k + 1][..k] == trace[..k];
  }

  lemma {:induction false} StaysClosed(trace: seq<Observation>, k: nat, stream: Id, g: nat)
    requires k <= |trace|
    ensures Asked(trace[..k], stream, g) == Broken ==> Asked(trace, stream, g) == Broken
    ensures Asked(trace[..k], stream, g) == Over ==> Asked(trace, stream, g) == Over || Asked(trace, stream, g) == Broken
    ensures Asked(trace[..k], stream, g) != Unasked ==> Asked(trace, stream, g) != Unasked
  {
    if k == |trace| {
      assert trace[..k] == trace;
    } else {
      assert trace[..|trace| - 1][..k] == trace[..k];
      StaysClosed(trace[..|trace| - 1], k, stream, g);
    }
  }

  /** After a request, a pair may ask again only once a retryable failure has been answered. */
  lemma {:induction false} FailureBetween(trace: seq<Observation>, i: nat, n: nat, stream: Id, g: nat) returns (k: nat)
    requires i < n <= |trace| && trace[i] == StopIssued(stream, g) && Asked(trace[..n], stream, g) == Repeatable
    ensures i < k < n && trace[k] == StopAnswered(stream, g, Failed(true))
  {
    AskedNext(trace, n - 1, stream, g);
    if trace[n - 1] == StopAnswered(stream, g, Failed(true)) && n - 1 != i {
      k := n - 1;
    } else {
      k := FailureBetween(trace, i, n - 1, stream, g);
    }
  }

  lemma SecondNeedsFailure(trace: seq<Observation>, i: nat, j: nat, stream: Id, g: nat) returns (k: nat)
    requires i < j < |trace| && trace[i] == trace[j] == StopIssued(stream, g) && Asked(trace, stream, g) != Broken
    ensures i < k < j && trace[k] == StopAnswered(stream, g, Failed(true))
  {
    AskedNext(trace, i, stream, g);
    AskedNext(trace, j, stream, g);
    StaysClosed(trace, j + 1, stream, g);
    assert trace[..j][..i + 1] == trace[..i + 1];
    StaysClosed(trace[..j], i + 1, stream, g);
    k := FailureBetween(trace, i, j, stream, g);
  }

  lemma NothingAfterOver(trace: seq<Observation>, i: nat, j: nat, stream: Id, g: nat)
    requires i < j < |trace| && trace[i].StopAnswered? && trace[i].stream == stream && trace[i].generation == g
    requires trace[i].answer != Failed(true) && Asked(trace, stream, g) != Broken
    ensures trace[j] != StopIssued(stream, g)
  {
    AskedNext(trace, i, stream, g);
    AskedNext(trace, j, stream, g);
    StaysClosed(trace, j + 1, stream, g);
    assert trace[..j][..i + 1] == trace[..i + 1];
    StaysClosed(trace[..j], i + 1, stream, g);
  }

  /**
   * MAIN: over every run a generation asks the panel again only after a retryable failure was answered
   * since, and never after an answer that was a success or a failure not worth repeating.
   */
  lemma OnlyRetryableFailuresAreRepeated(cfg: Config, run: seq<Timed>, i: nat, j: nat, stream: Id, g: nat)
    requires var trace := Execute(cfg, BOOT, run).trace; i < j < |trace| && trace[j] == StopIssued(stream, g)
    ensures var trace := Execute(cfg, BOOT, run).trace;
      && (trace[i] == StopIssued(stream, g) ==> exists k :: i < k < j && trace[k] == StopAnswered(stream, g, Failed(true)))
      && (trace[i].StopAnswered? && trace[i].stream == stream && trace[i].generation == g ==> trace[i].answer == Failed(true))
  {
    InvHolds(cfg, run);
    var trace := Execute(cfg, BOOT, run).trace;
    if trace[i] == StopIssued(stream, g) {
      var k := SecondNeedsFailure(trace, i, j, stream, g);
    } else if trace[i].StopAnswered? && trace[i].stream == stream && trace[i].generation == g && trace[i].answer != Failed(true) {
      NothingAfterOver(trace, i, j, stream, g);
    }
  }

  // ----- what one answer leads to -----

  /** The generation is still the one the manager waits for, of the running stream's empty channel. */
  predicate StillWanted(m: State, stream: Id, g: nat) {
    && stream in m.stop.generation && m.stop.generation[stream] == g && stream in m.stop.pending
    && m.current.streamID == stream && m.roster.participants == map[] && m.stopper
  }

  predicate AnswerOf(answer: Answer) { answer.Done? || answer.Failed? }

  /**
   * MAIN: an answer forgets the request of its own generation. A retryable failure of a generation
   * still wanted goes on to its retry, every other answer of one to its end, and an answer that is no
   * longer wanted ends the task, with a reconciliation if a rejoin was recorded meanwhile.
   */
  lemma AnswerLeadsOn(cfg: Config, s: System, id: nat, t: Task, answer: Answer, now: int)
    requires Numbered(s) && id in s.tasks && s.tasks[id] == t && t.StopTask? && t.stopPhase.StopRequested? && t.generation > 0
    ensures var n := RunStop(cfg, s, id, t, answer, now);
      if !AnswerOf(answer) then n == s
      else
        && n.trace == s.trace + [StopAnswered(t.stream, t.generation, answer)]
        && n.m.stop.inFlight == (if t.stream in s.m.stop.inFlight && s.m.stop.inFlight[t.stream].generation == t.generation
                                 then s.m.stop.inFlight - {t.stream} else s.m.stop.inFlight)
        && (id in n.tasks <==> StillWanted(s.m, t.stream, t.generation))
        && (id in n.tasks ==> n.tasks[id] == t.(stopPhase := if answer == Failed(true) then StopFailed else StopFinishing))
        && (s.next in n.tasks <==> id !in n.tasks && exists key :: key in s.m.rejoin.intents && s.m.rejoin.intents[key].source == t.stream)
  {
  }

  /** A retryable failure with a retry left waits again, one attempt further; without one the stop is over. */
  lemma FailureLeadsOn(cfg: Config, s: System, id: nat, t: Task, answer: Answer, now: int)
    requires t.StopTask? && t.stopPhase.StopFailed? && t.generation > 0 && StillWanted(s.m, t.stream, t.generation)
    ensures var n := RunStop(cfg, s, id, t, answer, now); var used := Count(s.m.stop.attempts, t.stream);
      if used < cfg.stopRetryDelays
      then id in n.tasks && n.tasks[id] == t.(stopPhase := StopWaiting) && n.m.stop == s.m.stop.(attempts := s.m.stop.attempts[t.stream := used + 1])
      else id !in n.tasks && t.stream !in n.m.stop.pending && t.stream !in n.m.stop.attempts
  {
  }

  /** No generation below the current one is ever waited for again. */
  lemma {:induction false} GoneForGood(cfg: Config, s: System, run: seq<Timed>, stream: Id, g: nat)
    requires AS.Inv(cfg, s) && Numbered(s) && g <= Count(s.m.stop.generation, stream) && !AS.Live(s.m, stream, g)
    ensures var n := Execute(cfg, s, run);
      AS.Inv(cfg, n) && Numbered(n) && g <= Count(n.m.stop.generation, stream) && !AS.Live(n.m, stream, g)
  {
    if run != [] {
      var k, last := Execute(cfg, s, run[..|run| - 1]), run[|run| - 1];
      GoneForGood(cfg, s, run[..|run| - 1], stream, g);
      AS.ApplyKeeps(cfg, k, last.event, last.now);
      NumberedStep(cfg, k, last.event, last.now);
      StaysGone(cfg, k, last.event, last.now, stream, g);
    }
  }

  lemma StaysGone(cfg: Config, s: System, e: Event, now: int, stream: Id, g: nat)
    requires Numbered(s) && g <= Count(s.m.stop.generation, stream) && !AS.Live(s.m, stream, g)
    ensures var n := Apply(cfg, s, e, now).m; g <= Count(n.stop.generation, stream) && !AS.Live(n, stream, g)
  {
    if StepsStop(s, e) {
      var t := s.tasks[e.task];
      if t.stream == stream && t.generation == g {
        OwnPairStaysGone(cfg, s, e.task, t, e.answer, now);
      } else {
        StopElsewhere(cfg, s, e.task, t, e.answer, now);
        EvolvesStaysGone(s.m, RunStop(cfg, s, e.task, t, e.answer, now).m, t.stream, t.generation, stream, g);
      }
    } else {
      OtherElsewhere(cfg, s, e, now);
    }
  }

  lemma EvolvesStaysGone(m: State, n: State, own: Id, exempt: int, stream: Id, g: nat)
    requires AS.Evolves(m, n, own, exempt) && (stream != own || g != exempt)
    requires g <= Count(m.stop.generation, stream) && !AS.Live(m, stream, g)
    ensures g <= Count(n.stop.generation, stream) && !AS.Live(n, stream, g)
  {
  }

  lemma OwnPairStaysGone(cfg: Config, s: System, id: nat, t: Task, answer: Answer, now: int)
    requires t.StopTask? && !AS.Live(s.m, t.stream, t.generation) && t.generation <= Count(s.m.stop.generation, t.stream)
    ensures var n := RunStop(cfg, s, id, t, answer, now).m;
      t.generation <= Count(n.stop.generation, t.stream) && !AS.Live(n, t.stream, t.generation)
  {
    match t.stopPhase
    case StopSyncing(job, reconnect, revision, snapshot) => SyncEvolves(cfg, s.m, snapshot, SyncOptions(true, reconnect, true, true, revision), now);
    case StopFailed =>
    case StopFinishing => FinishingEvolves(cfg, s, id, t, answer, now);
    case StopRequested => RequestedEvolves(cfg, s, id, t, answer, now);
    case StopIssuing(_, _) => IssuingEvolves(cfg, s, id, t, answer, now);
    case StopCancelling(_, _) => AS.CancellingEnds(cfg, s, id, t, answer, now);
    case _ => QuietFrame(cfg, s, id, t, answer, now);
  }

  /** MAIN: the finishing step after a final answer ends the task, and its generation is never pending again. */
  lemma FinishedForGood(cfg: Config, run: seq<Timed>, id: nat, answer: Answer, now: int, more: seq<Timed>)
    requires var s := Execute(cfg, BOOT, run); id in s.tasks && s.tasks[id].StopTask? && s.tasks[id].stopPhase.StopFinishing?
    ensures var s := Execute(cfg, BOOT, run); var t, n := s.tasks[id], Apply(cfg, s, Run(id, answer), now);
      && id !in n.tasks
      && var m := Execute(cfg, n, more).m;
        !(t.stream in m.stop.pending && t.stream in m.stop.generation && m.stop.generation[t.stream] == t.generation)
  {
    var s := Execute(cfg, BOOT, run);
    var t, n := s.tasks[id], Apply(cfg, s, Run(id, answer), now);
    InvHolds(cfg, run);
    assert AS.Stage(cfg, s.m, s.trace, t);
    AS.ApplyKeeps(cfg, s, Run(id, answer), now);
    NumberedStep(cfg, s, Run(id, answer), now);
    FinishStopEnds(s.m, t.stream, t.generation);
    AS.FinishEvolves(s.m, t.stream, t.generation);
    GoneForGood(cfg, n, more, t.stream, t.generation);
  }

  lemma FinishStopEnds(m: State, stream: Id, g: nat)
    ensures !AS.Live(FinishStop(m, stream, g), stream, g)
  {
  }
}
