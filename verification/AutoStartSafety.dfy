/** Whole-run safety of the automatic start: the checks and readings before every StartStream
    call, how many calls a reservation makes, and what its checks have found. */
module AutoStartSafety {
  import opened JobTypes
  import opened ManagerState
  import opened ManagerSystem
  import opened SystemFrames

  /** Where the observations of one reservation have got to in the order the source prescribes:
      check, known presence, check, call - or check, call without a presence source. Only a call that
      is refused with a retryable error leaves it open. */
  datatype Protocol = Idle | Checked | Present | Ready | Closed | Broken

  predicate RetryableRefusal(r: StartResult) { !r.accepted && r.retryable }

  function Advance(cfg: Config, p: Protocol, o: Observation, id: nat): Protocol {
    match o
    case StartChecked(i) =>
      if i != id then p
      else if p == Idle then (if cfg.presenceSource then Checked else Ready)
      else if p == Present then Ready else Broken
    case StartPresent(i) => if i != id then p else if p == Checked then Present else Broken
    case StartCalled(_, i, r) => if i != id then p else if p != Ready then Broken else if RetryableRefusal(r) then Idle else Closed
    case _ => p
  }

  function Reached(cfg: Config, trace: seq<Observation>, id: nat): Protocol {
    if trace == [] then Idle
    else Advance(cfg, Reached(cfg, trace[..|trace| - 1], id), trace[|trace| - 1], id)
  }

  function Calls(trace: seq<Observation>, id: nat): nat {
    if trace == [] then 0
    else
      Calls(trace[..|trace| - 1], id)
      + (if trace[|trace| - 1].StartCalled? && trace[|trace| - 1].id == id then 1 else 0)
  }

  predicate StartObservation(o: Observation) { o.StartChecked? || o.StartPresent? || o.StartCalled? }

  predicate Mentions(o: Observation, id: nat) { StartObservation(o) && o.id == id }

  lemma Appended(cfg: Config, trace: seq<Observation>, o: Observation, id: nat)
    ensures Reached(cfg, trace + [o], id) == Advance(cfg, Reached(cfg, trace, id), o, id)
    ensures Calls(trace + [o], id) == Calls(trace, id) + (if o.StartCalled? && o.id == id then 1 else 0)
  {
    assert (trace + [o])[..|trace|] == trace;
  }

  predicate Stage(cfg: Config, m: State, trace: seq<Observation>, t: Task)
    requires t.StartTask?
  {
    var p := Reached(cfg, trace, t.r.id);
    && t.stream != "" && t.r.id < m.minted
    && Calls(trace, t.r.id) == t.calls <= 1 + cfg.startRetryDelays
    && match t.startPhase
       case StartChecking => p == Idle && t.calls <= cfg.startRetryDelays
       case StartReading => p == Checked && cfg.presenceSource && t.calls <= cfg.startRetryDelays
       case StartDeciding(known, present) =>
         cfg.presenceSource && t.calls <= cfg.startRetryDelays && p == (if known && present then Present else Checked)
       case StartCalling => p == Ready && t.calls <= cfg.startRetryDelays
       case StartNoting(r) => p == (if RetryableRefusal(r) then Idle else Closed) && t.calls >= 1
       case StartBackoff => p == Idle && t.calls <= cfg.startRetryDelays
       case StartFinishing => p != Broken
  }

  ghost predicate Inv(cfg: Config, s: System) {
    && (forall i :: i in s.tasks && s.tasks[i].StartTask? ==> Stage(cfg, s.m, s.trace, s.tasks[i]))
    && (forall i, j | i in s.tasks && j in s.tasks && i != j && s.tasks[i].StartTask? && s.tasks[j].StartTask? ::
          s.tasks[i].r.id != s.tasks[j].r.id)
    && (forall id :: Reached(cfg, s.trace, id) != Broken && Calls(s.trace, id) <= 1 + cfg.startRetryDelays)
    && (forall id :: id >= s.m.minted ==> Reached(cfg, s.trace, id) == Idle && Calls(s.trace, id) == 0)
  }

  predicate OtherTrace(trace: seq<Observation>, longer: seq<Observation>) {
    longer == trace || (|longer| == |trace| + 1 && longer[..|trace|] == trace && !StartObservation(longer[|trace|]))
  }

  lemma OtherTraceCounts(cfg: Config, trace: seq<Observation>, longer: seq<Observation>)
    requires OtherTrace(trace, longer)
    ensures forall id :: Reached(cfg, longer, id) == Reached(cfg, trace, id) && Calls(longer, id) == Calls(trace, id)
  {
    if longer != trace {
      assert longer == trace + [longer[|trace|]];
      forall id ensures Reached(cfg, longer, id) == Reached(cfg, trace, id) && Calls(longer, id) == Calls(trace, id) {
        Appended(cfg, trace, longer[|trace|], id);
      }
    }
  }

  predicate NewStart(s: System, n: System, t: Task)
    requires t.StartTask?
  {
    t.stream != "" && t.calls == 0 && t.startPhase.StartChecking? && s.m.minted == t.r.id < n.m.minted
  }

  /** The start tasks of n are those of s, except for at most one new one at `made`. */
  predicate SameStartTasks(s: System, n: System, made: int) {
    forall id :: id in n.tasks && n.tasks[id].StartTask? ==>
      (id in s.tasks && n.tasks[id] == s.tasks[id]) || (id == made && NewStart(s, n, n.tasks[id]))
  }

  lemma OtherStep(cfg: Config, s: System, n: System, made: int)
    requires Inv(cfg, s) && s.m.minted <= n.m.minted && OtherTrace(s.trace, n.trace)
    requires SameStartTasks(s, n, made)
    ensures Inv(cfg, n)
  {
    OtherTraceCounts(cfg, s.trace, n.trace);
    forall i | i in n.tasks && n.tasks[i].StartTask? ensures Stage(cfg, n.m, n.trace, n.tasks[i]) {
      assert Calls(n.trace, n.tasks[i].r.id) == Calls(s.trace, n.tasks[i].r.id);
    }
  }

  /** One step of the start task t. */
  lemma OwnStep(cfg: Config, s: System, n: System, id: nat, t: Task)
    requires Inv(cfg, s) && id in s.tasks && s.tasks[id] == t && t.StartTask? && s.m.minted <= n.m.minted
    requires n.trace == s.trace || (|n.trace| == |s.trace| + 1 && n.trace[..|s.trace|] == s.trace && Mentions(n.trace[|s.trace|], t.r.id))
    requires forall j | j in n.tasks && n.tasks[j].StartTask? ::
      || (j != id && j in s.tasks && n.tasks[j] == s.tasks[j])
      || (j == id && n.tasks[j].r == t.r && n.tasks[j].stream == t.stream && Stage(cfg, n.m, n.trace, n.tasks[j]))
    requires Reached(cfg, n.trace, t.r.id) != Broken && Calls(n.trace, t.r.id) <= 1 + cfg.startRetryDelays
    ensures Inv(cfg, n)
  {
    if n.trace != s.trace {
      assert n.trace == s.trace + [n.trace[|s.trace|]];
      forall i | i != t.r.id ensures Reached(cfg, n.trace, i) == Reached(cfg, s.trace, i) && Calls(n.trace, i) == Calls(s.trace, i) {
        Appended(cfg, s.trace, n.trace[|s.trace|], i);
      }
    }
    assert Stage(cfg, s.m, s.trace, t);
    forall j | j in n.tasks && n.tasks[j].StartTask? && j != id ensures Stage(cfg, n.m, n.trace, n.tasks[j]) {
      assert n.tasks[j].r.id != t.r.id;
      assert Calls(n.trace, n.tasks[j].r.id) == Calls(s.trace, n.tasks[j].r.id);
    }
  }

  lemma RunStartKeeps(cfg: Config, s: System, id: nat, t: Task, answer: Answer)
    requires Inv(cfg, s) && id in s.tasks && s.tasks[id] == t && t.StartTask?
    ensures Inv(cfg, RunStart(cfg, s, id, t, answer))
  {
    match t.startPhase
    case StartChecking => CheckingKeeps(cfg, s, id, t, answer);
    case StartReading => ReadingKeeps(cfg, s, id, t, answer);
    case StartDeciding(_, _) => DecidingKeeps(cfg, s, id, t, answer);
    case StartCalling => CallingKeeps(cfg, s, id, t, answer);
    case _ => LateKeeps(cfg, s, id, t, answer);
  }

  lemma CheckingKeeps(cfg: Config, s: System, id: nat, t: Task, answer: Answer)
    requires Inv(cfg, s) && id in s.tasks && s.tasks[id] == t && t.StartTask? && t.startPhase.StartChecking?
    ensures Inv(cfg, RunStart(cfg, s, id, t, answer))
  {
    assert Stage(cfg, s.m, s.trace, t);
    Appended(cfg, s.trace, StartChecked(t.r.id), t.r.id);
    OwnStep(cfg, s, RunStart(cfg, s, id, t, answer), id, t);
  }

  lemma ReadingKeeps(cfg: Config, s: System, id: nat, t: Task, answer: Answer)
    requires Inv(cfg, s) && id in s.tasks && s.tasks[id] == t && t.StartTask? && t.startPhase.StartReading?
    ensures Inv(cfg, RunStart(cfg, s, id, t, answer))
  {
    assert Stage(cfg, s.m, s.trace, t);
    Appended(cfg, s.trace, StartPresent(t.r.id), t.r.id);
    OwnStep(cfg, s, RunStart(cfg, s, id, t, answer), id, t);
  }

  lemma CallingKeeps(cfg: Config, s: System, id: nat, t: Task, answer: Answer)
    requires Inv(cfg, s) && id in s.tasks && s.tasks[id] == t && t.StartTask? && t.startPhase.StartCalling?
    ensures Inv(cfg, RunStart(cfg, s, id, t, answer))
  {
    assert Stage(cfg, s.m, s.trace, t);
    if answer.Replied? { Appended(cfg, s.trace, StartCalled(t.stream, t.r.id, answer.result), t.r.id); }
    OwnStep(cfg, s, RunStart(cfg, s, id, t, answer), id, t);
  }

  lemma DecidingKeeps(cfg: Config, s: System, id: nat, t: Task, answer: Answer)
    requires Inv(cfg, s) && id in s.tasks && s.tasks[id] == t && t.StartTask? && t.startPhase.StartDeciding?
    ensures Inv(cfg, RunStart(cfg, s, id, t, answer))
  {
    assert Stage(cfg, s.m, s.trace, t);
    Appended(cfg, s.trace, StartChecked(t.r.id), t.r.id);
    OwnStep(cfg, s, RunStart(cfg, s, id, t, answer), id, t);
  }

  lemma LateKeeps(cfg: Config, s: System, id: nat, t: Task, answer: Answer)
    requires Inv(cfg, s) && id in s.tasks && s.tasks[id] == t && t.StartTask?
    requires t.startPhase.StartNoting? || t.startPhase.StartBackoff? || t.startPhase.StartFinishing?
    ensures Inv(cfg, RunStart(cfg, s, id, t, answer))
  {
    assert Stage(cfg, s.m, s.trace, t);
    OwnStep(cfg, s, RunStart(cfg, s, id, t, answer), id, t);
  }

  // ----- every other step -----

  lemma FinishKeeps(cfg: Config, s: System, stream: Id, o: Outcome)
    requires Inv(cfg, s) && o.state.minted == s.m.minted
    ensures Inv(cfg, Finish(s, stream, o))
  {
    OtherStep(cfg, s, Finish(s, stream, o), -1);
  }

  lemma RunStopKeeps(cfg: Config, s: System, id: nat, t: Task, answer: Answer, now: int)
    requires Inv(cfg, s) && t.StopTask?
    ensures Inv(cfg, RunStop(cfg, s, id, t, answer, now))
  {
    if t.stopPhase.StopSyncing? {
      var p := t.stopPhase;
      var k := Become(s, id, t.(stopPhase := StopCancelling(p.job, p.reconnect)));
      OtherStep(cfg, s, k, -1);
      FinishKeeps(cfg, k, s.m.current.streamID,
        SyncParticipants(cfg, s.m, p.snapshot, SyncOptions(true, p.reconnect, true, true, p.revision), now));
    } else {
      StopFrame(cfg, s, id, t, answer, now);
      StopFramedKeeps(cfg, s, RunStop(cfg, s, id, t, answer, now), id, t);
    }
  }

  lemma StopFramedKeeps(cfg: Config, s: System, n: System, id: nat, t: Task)
    requires Inv(cfg, s) && t.StopTask? && StopFramed(s, n, id, t)
    ensures Inv(cfg, n)
  {
    OtherStep(cfg, s, n, -1);
  }

  lemma ReconcileFramedKeeps(cfg: Config, s: System, n: System, id: nat, t: Task)
    requires Inv(cfg, s) && t.ReconcileTask? && ReconcileFramed(s, n, id, t)
    ensures Inv(cfg, n)
  {
    OtherStep(cfg, s, n, -1);
  }

  lemma JoinFramedKeeps(cfg: Config, s: System, n: System, id: nat, t: Task)
    requires Inv(cfg, s) && t.JoinTask? && JoinFramed(s, n, id, t)
    ensures Inv(cfg, n)
  {
    OtherStep(cfg, s, n, s.next);
  }

  lemma BeginJoiningKeeps(cfg: Config, s: System, e: JoinEvent, now: int)
    requires Inv(cfg, s)
    ensures Inv(cfg, BeginJoining(cfg, s, e, now))
  {
    OtherStep(cfg, s, BeginJoining(cfg, s, e, now), -1);
  }

  lemma OtherTaskKeeps(cfg: Config, s: System, id: nat, answer: Answer, now: int)
    requires Inv(cfg, s) && id in s.tasks
    requires var t := s.tasks[id]; t.ReportTask? || t.SpeakerTask? || t.PublishTask? || t.VoiceTask? || t.StartJobTask? || t.LeaveTask?
    ensures Inv(cfg, RunTask(cfg, s, id, answer, now))
  {
    OtherStep(cfg, s, RunTask(cfg, s, id, answer, now), -1);
  }

  lemma RunTaskKeeps(cfg: Config, s: System, id: nat, answer: Answer, now: int)
    requires Inv(cfg, s) && id in s.tasks
    ensures Inv(cfg, RunTask(cfg, s, id, answer, now))
  {
    var t := s.tasks[id];
    match t
    case StopTask(_, _, _, _) => RunStopKeeps(cfg, s, id, t, answer, now);
    case StartTask(_, _, _, _) => RunStartKeeps(cfg, s, id, t, answer);
    case JoinBeginTask(e) => OtherStep(cfg, s, End(s, id), -1); BeginJoiningKeeps(cfg, End(s, id), e, now);
    case JoinTask(_, _, _) => JoinFrame(cfg, s, id, t, answer); JoinFramedKeeps(cfg, s, RunJoin(cfg, s, id, t, answer), id, t);
    case ReconcileTask(_, _, _) => ReconcileFrame(cfg, s, id, t, answer); ReconcileFramedKeeps(cfg, s, RunReconcile(cfg, s, id, t, answer), id, t);
    case _ => OtherTaskKeeps(cfg, s, id, answer, now);
  }

  lemma ApplyKeeps(cfg: Config, s: System, e: Event, now: int)
    requires Inv(cfg, s)
    ensures Inv(cfg, Apply(cfg, s, e, now))
  {
    match e
    case ParticipantCall(p) => FinishKeeps(cfg, s, s.m.current.streamID, ChangeParticipant(cfg, s.m, p, now));
    case SyncCall(w, o) => FinishKeeps(cfg, s, s.m.current.streamID, SyncParticipants(cfg, s.m, w, o, now));
    case SpeakerCall(stream, u, b, k) => FinishKeeps(cfg, s, s.m.current.streamID, SetSpeaker(s.m, stream, u, b, k));
    case ClearCall(stream) => FinishKeeps(cfg, s, s.m.current.streamID, ClearSpeakers(s.m, stream));
    case JoinCall(j) => BeginJoiningKeeps(cfg, s, j, now);
    case Run(id, answer) => if id in s.tasks { RunTaskKeeps(cfg, s, id, answer, now); }
    case _ => CallKeeps(cfg, s, e, now);
  }

  lemma CallKeeps(cfg: Config, s: System, e: Event, now: int)
    requires Inv(cfg, s) && !e.ParticipantCall? && !e.SyncCall? && !e.SpeakerCall? && !e.ClearCall? && !e.JoinCall? && !e.Run?
    ensures Inv(cfg, Apply(cfg, s, e, now))
  {
    OtherStep(cfg, s, Apply(cfg, s, e, now), -1);
  }

  lemma {:induction false} InvHolds(cfg: Config, run: seq<Timed>)
    ensures Inv(cfg, Execute(cfg, BOOT, run))
  {
    if run != [] {
      InvHolds(cfg, run[..|run| - 1]);
      ApplyKeeps(cfg, Execute(cfg, BOOT, run[..|run| - 1]), run[|run| - 1].event, run[|run| - 1].now);
    }
  }

  /** In a trace whose order is never broken, a call comes after a check, a known-present reading and
      another check of its own reservation, with no other call of it in between. */
  lemma {:induction false} CallHasItsOwnChecks(cfg: Config, trace: seq<Observation>, id: nat) returns (first: nat, reading: nat, second: nat)
    requires cfg.presenceSource && Reached(cfg, trace, id) == Ready
    ensures first < reading < second < |trace|
    ensures trace[first] == StartChecked(id) && trace[reading] == StartPresent(id) && trace[second] == StartChecked(id)
    ensures forall i :: first <= i < |trace| ==> !(trace[i].StartCalled? && trace[i].id == id)
  {
    var front, last := trace[..|trace| - 1], trace[|trace| - 1];
    if Mentions(last, id) {
      first, reading := ReadingHasItsCheck(cfg, front, id);
      second := |trace| - 1;
    } else {
      first, reading, second := CallHasItsOwnChecks(cfg, front, id);
    }
  }

  lemma {:induction false} ReadingHasItsCheck(cfg: Config, trace: seq<Observation>, id: nat) returns (first: nat, reading: nat)
    requires cfg.presenceSource && Reached(cfg, trace, id) == Present
    ensures first < reading < |trace|
    ensures trace[first] == StartChecked(id) && trace[reading] == StartPresent(id)
    ensures forall i :: first <= i < |trace| ==> !(trace[i].StartCalled? && trace[i].id == id)
  {
    var front, last := trace[..|trace| - 1], trace[|trace| - 1];
    if Mentions(last, id) {
      first := LastCheck(cfg, front, id);
      reading := |trace| - 1;
    } else {
      first, reading := ReadingHasItsCheck(cfg, front, id);
    }
  }

  lemma {:induction false} LastCheck(cfg: Config, trace: seq<Observation>, id: nat) returns (first: nat)
    requires cfg.presenceSource && Reached(cfg, trace, id) == Checked
    ensures first < |trace| && trace[first] == StartChecked(id)
    ensures forall i :: first <= i < |trace| ==> !(trace[i].StartCalled? && trace[i].id == id)
  {
    var front, last := trace[..|trace| - 1], trace[|trace| - 1];
    if Mentions(last, id) {
      first := |trace| - 1;
    } else {
      first := LastCheck(cfg, front, id);
    }
  }

  /** Check, presence, check precede position k for reservation id, after its previous call. */
  ghost predicate Prepared(trace: seq<Observation>, k: nat, id: nat)
    requires k <= |trace|
  {
    exists first, reading, second ::
      && 0 <= first < reading < second < k
      && trace[first] == StartChecked(id) && trace[reading] == StartPresent(id) && trace[second] == StartChecked(id)
      && forall i :: first <= i < k ==> !(trace[i].StartCalled? && trace[i].id == id)
  }

  lemma {:induction false} BrokenStays(cfg: Config, trace: seq<Observation>, k: nat, id: nat)
    requires k <= |trace| && Reached(cfg, trace[..k], id) == Broken
    ensures Reached(cfg, trace, id) == Broken
  {
    if k == |trace| {
      assert trace[..k] == trace;
    } else {
      assert trace[..|trace| - 1][..k] == trace[..k];
      BrokenStays(cfg, trace[..|trace| - 1], k, id);
    }
  }

  /** MAIN: over every run a reservation calls StartStream at most 1 + len(retry delays) times, and
      with a presence source every call has its own check, known-present reading and second check. */
  lemma CallsBoundedAndPrepared(cfg: Config, run: seq<Timed>)
    ensures var s := Execute(cfg, BOOT, run);
      && (forall id :: Calls(s.trace, id) <= 1 + cfg.startRetryDelays)
      && (cfg.presenceSource ==> forall k :: 0 <= k < |s.trace| && s.trace[k].StartCalled? ==> Prepared(s.trace, k, s.trace[k].id))
  {
    InvHolds(cfg, run);
    var s := Execute(cfg, BOOT, run);
    if cfg.presenceSource {
      forall k | 0 <= k < |s.trace| && s.trace[k].StartCalled? ensures Prepared(s.trace, k, s.trace[k].id) {
        var id := s.trace[k].id;
        assert s.trace[..k + 1][..k] == s.trace[..k];
        if Reached(cfg, s.trace[..k], id) != Ready {
          BrokenStays(cfg, s.trace, k + 1, id);
          assert false;
        }
        var first, reading, second := CallHasItsOwnChecks(cfg, s.trace[..k], id);
        assert forall i :: first <= i < k ==> s.trace[i] == s.trace[..k][i];
      }
    }
  }

  lemma {:induction false} ClosedStays(cfg: Config, trace: seq<Observation>, k: nat, id: nat)
    requires k <= |trace| && (Reached(cfg, trace[..k], id) == Closed || Reached(cfg, trace[..k], id) == Broken)
    ensures Reached(cfg, trace, id) == Closed || Reached(cfg, trace, id) == Broken
  {
    if k == |trace| {
      assert trace[..k] == trace;
    } else {
      assert trace[..|trace| - 1][..k] == trace[..k];
      ClosedStays(cfg, trace[..|trace| - 1], k, id);
    }
  }

  lemma ReachedNext(cfg: Config, trace: seq<Observation>, k: nat, id: nat)
    requires k < |trace|
    ensures Reached(cfg, trace[..k + 1], id) == Advance(cfg, Reached(cfg, trace[..k], id), trace[k], id)
  {
    assert trace[..k + 1][..k] == trace[..k];
  }

  lemma RepeatedAfterRefusal(cfg: Config, trace: seq<Observation>, i: nat, j: nat)
    requires i < j < |trace| && trace[i].StartCalled? && trace[j].StartCalled? && trace[i].id == trace[j].id
    requires Reached(cfg, trace, trace[i].id) != Broken
    ensures RetryableRefusal(trace[i].result)
  {
    var id := trace[i].id;
    if !RetryableRefusal(trace[i].result) {
      ReachedNext(cfg, trace, i, id);
      assert trace[..j][..i + 1] == trace[..i + 1];
      ClosedStays(cfg, trace[..j], i + 1, id);
      ReachedNext(cfg, trace, j, id);
      BrokenStays(cfg, trace, j + 1, id);
    }
  }

  /** MAIN: over every run a reservation calls StartStream again only after a call that was not accepted
      and whose error was retryable; an accepted call and any other refusal is its last. */
  lemma OnlyRetryableRefusalsAreRepeated(cfg: Config, run: seq<Timed>, i: nat, j: nat)
    requires var trace := Execute(cfg, BOOT, run).trace;
      i < j < |trace| && trace[i].StartCalled? && trace[j].StartCalled? && trace[i].id == trace[j].id
    ensures var result := Execute(cfg, BOOT, run).trace[i].result; !result.accepted && result.retryable
  {
    InvHolds(cfg, run);
    RepeatedAfterRefusal(cfg, Execute(cfg, BOOT, run).trace, i, j);
  }

  /** The answer to a call decides how its task goes on: a retryable refusal with a delay left waits for
      the next attempt, and everything else finishes. The reservation remembers whether the last
      refusal was for lack of capacity; an accepted first call leaves no note. */
  lemma AnswerDecides(cfg: Config, s: System, id: nat, t: Task, answer: Answer)
    requires t.StartTask? && t.startPhase.StartNoting?
    ensures var n, result := RunStart(cfg, s, id, t, answer), t.startPhase.result;
      && id in n.tasks
      && n.tasks[id] == t.(startPhase := if !result.accepted && result.retryable && t.calls <= cfg.startRetryDelays then StartBackoff else StartFinishing)
      && (forall x :: x in n.m.start.retries <==> x in s.m.start.retries)
      && (forall x :: x in s.m.start.retries ==>
            n.m.start.retries[x] == s.m.start.retries[x].(capacityBusy :=
              if x == t.stream && s.m.start.retries[x].id == t.r.id && !(result.accepted && t.calls == 1)
              then !result.accepted && result.busy else s.m.start.retries[x].capacityBusy))
  {
  }

  /** The stream's own reservation was refused for lack of capacity last, and no job has started. */
  predicate BusyToTheEnd(m: State, stream: Id, id: nat) {
    && stream in m.start.retries && m.start.retries[stream].id == id && m.start.retries[stream].capacityBusy
    && m.current.streamID == ""
  }

  /** Finishing ends the task and frees the stream's cooldown exactly when the reservation is still the
      stream's own, its last refusal was for lack of capacity, and no job has started. */
  lemma FinishingFreesTheCooldown(cfg: Config, s: System, id: nat, t: Task, answer: Answer)
    requires t.StartTask? && t.startPhase.StartFinishing?
    ensures var n := RunStart(cfg, s, id, t, answer);
      && id !in n.tasks && t.r.id in n.m.cancelled
      && (t.stream in n.m.start.pending <==> t.stream in s.m.start.pending && !BusyToTheEnd(s.m, t.stream, t.r.id))
      && (t.stream in n.m.start.retries ==> n.m.start.retries[t.stream].id != t.r.id)
  {
  }

  // ----- what a passed check has found -----

  /** The facts that allow one automatic StartStream call. */
  predicate DispatchAllowed(m: State, stream: Id, r: Reservation) {
    && stream in m.start.retries && m.start.retries[stream].id == r.id
    && m.current.streamID == ""
    && m.generation == r.generation
    && EpochOf(m.start.defaults, stream) == r.epoch
    && UniqueFor(m.start.defaults, stream, r.guildID, r.voiceChannelID)
  }

  /** Every passed check finds the caller's reservation still the stream's live one, no active job,
      the epoch and reconnect generation of the reservation, and the stream as the only enabled one
      of its voice channel; only the reservation's own task passes it. */
  lemma PassedCheckMeans(cfg: Config, s: System, e: Event, now: int)
    requires Inv(cfg, s)
    requires var n := Apply(cfg, s, e, now);
      |n.trace| > |s.trace| && n.trace[|s.trace|].StartChecked?
    ensures e.Run? && e.task in s.tasks && s.tasks[e.task].StartTask?
    ensures var t := s.tasks[e.task];
      && Apply(cfg, s, e, now).trace == s.trace + [StartChecked(t.r.id)]
      && DispatchAllowed(s.m, t.stream, t.r)
  {
    if e.Run? && e.task in s.tasks {
      if s.tasks[e.task].StartTask? {
        assert Stage(cfg, s.m, s.trace, s.tasks[e.task]);
      } else {
        OthersCheckNothing(cfg, s, e.task, e.answer, now);
      }
    }
  }

  lemma OthersCheckNothing(cfg: Config, s: System, id: nat, answer: Answer, now: int)
    requires id in s.tasks && !s.tasks[id].StartTask?
    ensures OtherTrace(s.trace, RunTask(cfg, s, id, answer, now).trace)
  {
    var t := s.tasks[id];
    match t
    case StopTask(_, _, _, p) => if !p.StopSyncing? { StopFrame(cfg, s, id, t, answer, now); }
    case ReconcileTask(_, _, _) => ReconcileFrame(cfg, s, id, t, answer);
    case JoinTask(_, _, _) => JoinFrame(cfg, s, id, t, answer);
    case _ =>
  }

  /** What one start task may change: the stream's reservation if that is its own, and then its pending start. */
  predicate OnlyItself(m: State, n: State, stream: Id, r: Reservation) {
    && n.start == m.start.(pending := n.start.pending, retries := n.start.retries)
    && (!(stream in m.start.retries && m.start.retries[stream].id == r.id) ==> n.start == m.start)
    && n.start.retries - {stream} == m.start.retries - {stream}
    && n.start.pending - {stream} == m.start.pending - {stream}
  }

  /** No step of a start task, its last one included, touches another reservation: not that of another
      stream, nor a newer one of its own. */
  lemma StartTaskTouchesOnlyItself(cfg: Config, s: System, id: nat, t: Task, answer: Answer)
    requires t.StartTask?
    ensures OnlyItself(s.m, RunStart(cfg, s, id, t, answer).m, t.stream, t.r)
  {
    match t.startPhase
    case StartDeciding(known, present) => DecidingTouchesOnlyItself(s.m, t.stream, t.r, known, present);
    case StartNoting(result) => NotingTouchesOnlyItself(s.m, t.stream, t.r, !result.accepted && result.busy);
    case StartFinishing => FinishingTouchesOnlyItself(s.m, t.stream, t.r);
    case _ => CallFrame(cfg, s, id, t, answer);
  }

  lemma DecidingTouchesOnlyItself(m: State, stream: Id, r: Reservation, known: bool, present: bool)
    ensures OnlyItself(m, DecideStart(m, stream, r, known, present), stream, r)
  {
    var n := DecideStart(m, stream, r, known, present);
    if n != m { DroppingTouchesOnlyItself(m, n, stream, r); }
  }

  lemma DroppingTouchesOnlyItself(m: State, n: State, stream: Id, r: Reservation)
    requires stream in m.start.retries && m.start.retries[stream].id == r.id
    requires n.start == m.start.(pending := n.start.pending, retries := m.start.retries - {stream})
    requires n.start.pending == m.start.pending || n.start.pending == m.start.pending - {stream}
    ensures OnlyItself(m, n, stream, r)
  {
    assert n.start.retries - {stream} == m.start.retries - {stream};
    assert n.start.pending - {stream} == m.start.pending - {stream};
  }

  lemma NotingTouchesOnlyItself(m: State, stream: Id, r: Reservation, busy: bool)
    ensures OnlyItself(m, NoteCapacity(m, stream, r, busy), stream, r)
  {
    var n := NoteCapacity(m, stream, r, busy);
    assert n.start.retries - {stream} == m.start.retries - {stream};
  }

  lemma FinishingTouchesOnlyItself(m: State, stream: Id, r: Reservation)
    ensures OnlyItself(m, FinishStart(m, stream, r), stream, r)
  {
    if stream in m.start.retries && m.start.retries[stream].id == r.id {
      DroppingTouchesOnlyItself(m, FinishStart(m, stream, r), stream, r);
    }
  }
}
