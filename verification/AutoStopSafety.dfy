/** Whole-run safety of the empty-channel auto-stop: what precedes a stop request, how many an
    armed generation makes, and which task may act for it. */
module AutoStopSafety {
  import opened JobTypes
  import opened ManagerState
  import opened ManagerSystem
  import opened SystemFrames

  /** Stop requests issued so far for one armed generation of a stream. */
  function Requests(trace: seq<Observation>, stream: Id, g: nat): nat {
    if trace == [] then 0
    else Requests(trace[..|trace| - 1], stream, g) + (if trace[|trace| - 1] == StopIssued(stream, g) then 1 else 0)
  }

  /** Known-empty snapshots read for it since its last request, or since it was armed. */
  function ReadsSince(trace: seq<Observation>, stream: Id, g: nat): nat {
    if trace == [] then 0
    else
      var last := trace[|trace| - 1];
      if last == StopIssued(stream, g) then 0
      else ReadsSince(trace[..|trace| - 1], stream, g) + (if last == EmptyRead(stream, g) then 1 else 0)
  }

  /** The readings that the next request needs: two for the first one, one for each retry. */
  function Needed(trace: seq<Observation>, stream: Id, g: nat): nat {
    if Requests(trace, stream, g) == 0 then 2 else 1
  }

  predicate Confirmed(trace: seq<Observation>, stream: Id, g: nat) {
    ReadsSince(trace, stream, g) >= Needed(trace, stream, g)
  }

  ghost predicate RequestsConfirmed(cfg: Config, trace: seq<Observation>) {
    cfg.snapshotSource ==> forall i | 0 <= i < |trace| && trace[i].StopIssued? ::
      Confirmed(trace[..i], trace[i].stream, trace[i].generation)
  }

  predicate StopObservation(o: Observation) { o.EmptyRead? || o.StopIssued? || o.StopAnswered? }

  /** The pair (stream, generation) is the one the manager currently waits for. */
  predicate Live(m: State, stream: Id, g: nat) {
    Count(m.stop.generation, stream) == g && stream in m.stop.pending
  }

  predicate Sent(p: StopPhase) { p.StopRequested? || p.StopFailed? || p.StopFinishing? }

  predicate Stage(cfg: Config, m: State, trace: seq<Observation>, t: Task)
    requires t.StopTask?
  {
    var q := Requests(trace, t.stream, t.generation);
    var k := ReadsSince(trace, t.stream, t.generation);
    var p := t.stopPhase;
    && 1 <= t.generation <= Count(m.stop.generation, t.stream)
    && (Live(m, t.stream, t.generation) ==>
          && q == Count(m.stop.attempts, t.stream) + (if Sent(p) then 1 else 0)
          && Count(m.stop.attempts, t.stream) <= cfg.stopRetryDelays)
    && (cfg.snapshotSource && !t.passed ==> q == 0 && !p.StopIssuing? && !Sent(p) && (p.StopEmptied? ==> k >= 1))
    && (cfg.snapshotSource && t.passed && !Sent(p) ==>
          k + 1 >= Needed(trace, t.stream, t.generation)
          && (p.StopEmptied? || p.StopIssuing? ==> k >= Needed(trace, t.stream, t.generation)))
  }

  ghost predicate Inv(cfg: Config, s: System) {
    && (forall id :: id in s.tasks && s.tasks[id].StopTask? ==> Stage(cfg, s.m, s.trace, s.tasks[id]))
    && (forall i, j | i in s.tasks && j in s.tasks && i != j && s.tasks[i].StopTask? && s.tasks[j].StopTask? ::
          s.tasks[i].stream != s.tasks[j].stream || s.tasks[i].generation != s.tasks[j].generation)
    && (forall stream, g :: Requests(s.trace, stream, g) <= 1 + cfg.stopRetryDelays)
    && (forall stream, g :: g > Count(s.m.stop.generation, stream) ==>
          Requests(s.trace, stream, g) == 0 && ReadsSince(s.trace, stream, g) == 0)
    && RequestsConfirmed(cfg, s.trace)
  }

  /** Generations never go back, and a pair that is live after the step was live before it with
      the same attempt count; the pair (stream, g) itself is exempt, and none is where g is negative. */
  ghost predicate Evolves(m: State, n: State, stream: Id, g: int) {
    forall x :: Count(n.stop.generation, x) >= Count(m.stop.generation, x)
      && (x in n.stop.pending && Count(n.stop.generation, x) == Count(m.stop.generation, x)
          && !(x == stream && Count(n.stop.generation, x) == g)
          ==> x in m.stop.pending && Count(n.stop.attempts, x) == Count(m.stop.attempts, x))
  }

  lemma Appended(trace: seq<Observation>, o: Observation, stream: Id, g: nat)
    ensures Requests(trace + [o], stream, g) == Requests(trace, stream, g) + (if o == StopIssued(stream, g) then 1 else 0)
    ensures ReadsSince(trace + [o], stream, g) ==
      if o == StopIssued(stream, g) then 0
      else ReadsSince(trace, stream, g) + (if o == EmptyRead(stream, g) then 1 else 0)
  {
    assert (trace + [o])[..|trace|] == trace;
  }

  /** Observations of other kinds leave every count alone. */
  predicate OtherTrace(trace: seq<Observation>, longer: seq<Observation>) {
    longer == trace || (|longer| == |trace| + 1 && longer[..|trace|] == trace && !StopObservation(longer[|trace|]))
  }

  lemma OtherTraceCounts(trace: seq<Observation>, longer: seq<Observation>)
    requires OtherTrace(trace, longer)
    ensures forall stream, g :: Requests(longer, stream, g) == Requests(trace, stream, g)
    ensures forall stream, g :: ReadsSince(longer, stream, g) == ReadsSince(trace, stream, g)
    ensures forall cfg :: RequestsConfirmed(cfg, trace) ==> RequestsConfirmed(cfg, longer)
  {
    if longer != trace {
      assert longer == trace + [longer[|trace|]];
      forall stream, g ensures Requests(longer, stream, g) == Requests(trace, stream, g) && ReadsSince(longer, stream, g) == ReadsSince(trace, stream, g) {
        Appended(trace, longer[|trace|], stream, g);
      }
      forall cfg | RequestsConfirmed(cfg, trace) && cfg.snapshotSource ensures RequestsConfirmed(cfg, longer) {
        forall i | 0 <= i < |longer| && longer[i].StopIssued? ensures Confirmed(longer[..i], longer[i].stream, longer[i].generation) {
          assert longer[..i] == trace[..i] && longer[i] == trace[i];
        }
      }
    }
  }

  /** A task that the step has just armed. */
  predicate JustArmed(cfg: Config, m: State, n: State, t: Task)
    requires t.StopTask?
  {
    && !t.passed && t.stopPhase.StopWaiting?
    && t.generation == Count(n.stop.generation, t.stream) > Count(m.stop.generation, t.stream)
    && Count(n.stop.attempts, t.stream) == 0
  }

  /** The stop tasks of n are those of s, except for at most one that was armed at `armedAt`. */
  predicate SameStopTasks(cfg: Config, s: System, n: System, armedAt: int) {
    forall id :: id in n.tasks && n.tasks[id].StopTask? ==>
      (id in s.tasks && n.tasks[id] == s.tasks[id]) || (id == armedAt && JustArmed(cfg, s.m, n.m, n.tasks[id]))
  }

  lemma OtherStep(cfg: Config, s: System, n: System, armedAt: int)
    requires Inv(cfg, s) && Evolves(s.m, n.m, "", -1) && OtherTrace(s.trace, n.trace)
    requires SameStopTasks(cfg, s, n, armedAt)
    ensures Inv(cfg, n)
  {
    OtherTraceCounts(s.trace, n.trace);
    forall id | id in n.tasks && n.tasks[id].StopTask? ensures Stage(cfg, n.m, n.trace, n.tasks[id]) {
      var t := n.tasks[id];
      assert Requests(n.trace, t.stream, t.generation) == Requests(s.trace, t.stream, t.generation);
    }
  }

  /** One step of the stop task t: it keeps its pair and reaches a proper stage, or ends. */
  lemma OwnStep(cfg: Config, s: System, n: System, id: nat, t: Task)
    requires Inv(cfg, s) && id in s.tasks && s.tasks[id] == t && t.StopTask?
    requires Evolves(s.m, n.m, t.stream, t.generation)
    requires n.trace == s.trace || (Longer(s.trace, n.trace) && OfPair(n.trace[|s.trace|], t.stream, t.generation))
    requires n.trace != s.trace && n.trace[|s.trace|].StopIssued? ==>
      && (cfg.snapshotSource ==> Confirmed(s.trace, t.stream, t.generation))
      && Requests(s.trace, t.stream, t.generation) <= cfg.stopRetryDelays
    requires forall j | j in n.tasks && n.tasks[j].StopTask? ::
      || (j != id && j in s.tasks && n.tasks[j] == s.tasks[j])
      || (j == id && n.tasks[j].stream == t.stream && n.tasks[j].generation == t.generation
          && Stage(cfg, n.m, n.trace, n.tasks[j]))
    ensures Inv(cfg, n)
  {
    if n.trace != s.trace {
      assert n.trace == s.trace + [n.trace[|s.trace|]];
      forall stream, g ensures
        && ((stream == t.stream && g == t.generation) || (Requests(n.trace, stream, g) == Requests(s.trace, stream, g) && ReadsSince(n.trace, stream, g) == ReadsSince(s.trace, stream, g)))
        && Requests(n.trace, stream, g) <= 1 + cfg.stopRetryDelays {
        Appended(s.trace, n.trace[|s.trace|], stream, g);
      }
      forall i | 0 <= i < |n.trace| && n.trace[i].StopIssued? && cfg.snapshotSource
        ensures Confirmed(n.trace[..i], n.trace[i].stream, n.trace[i].generation) {
        if i < |s.trace| {
          assert n.trace[..i] == s.trace[..i];
        } else {
          assert n.trace[..i] == s.trace;
        }
      }
    }
    forall j | j in n.tasks && n.tasks[j].StopTask? && j != id ensures Stage(cfg, n.m, n.trace, n.tasks[j]) {
      var u := n.tasks[j];
      assert u.stream != t.stream || u.generation != t.generation;
      assert Requests(n.trace, u.stream, u.generation) == Requests(s.trace, u.stream, u.generation);
      assert ReadsSince(n.trace, u.stream, u.generation) == ReadsSince(s.trace, u.stream, u.generation);
    }
  }

  // ----- how the critical sections move the auto-stop records -----

  lemma CancelEvolves(m: State, stream: Id) ensures Evolves(m, CancelStop(m, stream), "", -1) {}

  lemma UpdateEvolves(cfg: Config, m: State, now: int)
    ensures var a := UpdateStop(cfg, m, now);
      && Evolves(m, a.state, "", -1)
      && (a.generation.Some? ==> JustArmed(cfg, m, a.state, StopTask(m.current.streamID, a.generation.value, false, StopWaiting)))
  {
    if m.roster.participants != map[] {
      var stream := m.current.streamID;
      CancelEvolves(if stream in m.stop.inFlight then RecordIntent(m, stream, m.current.guildID, m.current.voiceChannelID) else m, stream);
    }
  }

  lemma ClearEvolves(m: State, stream: Id, g: nat) ensures Evolves(m, ClearInFlight(m, stream, g), "", -1) {}

  lemma FinishEvolves(m: State, stream: Id, g: nat) ensures Evolves(m, FinishStop(m, stream, g), "", -1) {}

  lemma RetryEvolves(cfg: Config, m: State, stream: Id, g: nat)
    ensures Evolves(m, RetryStop(cfg, m, stream, g).state, stream, g)
  {
  }

  /** A participant or speaker section followed by the tasks it hands out. */
  lemma FinishKeeps(cfg: Config, s: System, stream: Id, o: Outcome)
    requires Inv(cfg, s) && Evolves(s.m, o.state, "", -1)
    requires o.armed.Some? ==> JustArmed(cfg, s.m, o.state, StopTask(stream, o.armed.value, false, StopWaiting))
    ensures Inv(cfg, Finish(s, stream, o))
  {
    var n := Finish(s, stream, o);
    OtherStep(cfg, s, n, n.next - 1);
  }

  lemma SettleEvolves(cfg: Config, m: State, r: Roster, speaker: Option<SpeakerReport>, now: int)
    ensures var o := Settle(cfg, m, r, speaker, now);
      && Evolves(m, o.state, "", -1)
      && (o.armed.Some? ==> JustArmed(cfg, m, o.state, StopTask(m.current.streamID, o.armed.value, false, StopWaiting)))
  {
    UpdateEvolves(cfg, m.(roster := r), now);
  }

  lemma SyncKeeps(cfg: Config, s: System, w: Snapshot, o: SyncOptions, now: int)
    requires Inv(cfg, s)
    ensures Inv(cfg, Finish(s, s.m.current.streamID, SyncParticipants(cfg, s.m, w, o, now)))
  {
    SettleEvolves(cfg, s.m, Replaced(s.m.roster, w, now), None, now);
    FinishKeeps(cfg, s, s.m.current.streamID, SyncParticipants(cfg, s.m, w, o, now));
  }

  lemma ChangeKeeps(cfg: Config, s: System, e: ParticipantEvent, now: int)
    requires Inv(cfg, s)
    ensures Inv(cfg, Finish(s, s.m.current.streamID, ChangeParticipant(cfg, s.m, e, now)))
  {
    ChangeEvolves(cfg, s.m, e, now);
    FinishKeeps(cfg, s, s.m.current.streamID, ChangeParticipant(cfg, s.m, e, now));
  }

  lemma ChangeEvolves(cfg: Config, m: State, e: ParticipantEvent, now: int)
    ensures var o := ChangeParticipant(cfg, m, e, now);
      && Evolves(m, o.state, "", -1)
      && (o.armed.Some? ==> JustArmed(cfg, m, o.state, StopTask(m.current.streamID, o.armed.value, false, StopWaiting)))
  {
    ChangeIsSettled(cfg, m, e, now);
    if r, speaker :| ChangeParticipant(cfg, m, e, now) == Settle(cfg, m, r, speaker, now) {
      SettleEvolves(cfg, m, r, speaker, now);
    }
  }

  // ----- the stop task's own steps -----

  lemma RunStopKeeps(cfg: Config, s: System, id: nat, t: Task, answer: Answer, now: int)
    requires Inv(cfg, s) && id in s.tasks && s.tasks[id] == t && t.StopTask?
    ensures Inv(cfg, RunStop(cfg, s, id, t, answer, now))
  {
    match t.stopPhase
    case StopWaiting => WaitingKeeps(cfg, s, id, t, answer, now);
    case StopReading(_, _, _) => ReadingKeeps(cfg, s, id, t, answer, now);
    case StopEmptied(_, _) => WaitingKeeps(cfg, s, id, t, answer, now);
    case StopSyncing(_, _, _, _) => SyncingKeeps(cfg, s, id, t, answer, now);
    case StopCancelling(_, _) => CancellingKeeps(cfg, s, id, t, answer, now);
    case StopIssuing(_, _) => IssueKeeps(cfg, s, id, t, answer, now);
    case StopRequested => CompleteKeeps(cfg, s, id, t, answer, now);
    case StopFailed => RetryKeeps(cfg, s, id, t, answer, now);
    case StopFinishing => FinishingKeeps(cfg, s, id, t, answer, now);
  }

  lemma WaitingKeeps(cfg: Config, s: System, id: nat, t: Task, answer: Answer, now: int)
    requires Inv(cfg, s) && id in s.tasks && s.tasks[id] == t && t.StopTask? && (t.stopPhase.StopWaiting? || t.stopPhase.StopEmptied?)
    ensures Inv(cfg, RunStop(cfg, s, id, t, answer, now))
  {
    assert Stage(cfg, s.m, s.trace, t);
    OwnStep(cfg, s, RunStop(cfg, s, id, t, answer, now), id, t);
  }

  lemma ReadingKeeps(cfg: Config, s: System, id: nat, t: Task, answer: Answer, now: int)
    requires Inv(cfg, s) && id in s.tasks && s.tasks[id] == t && t.StopTask? && t.stopPhase.StopReading?
    ensures Inv(cfg, RunStop(cfg, s, id, t, answer, now))
  {
    assert Stage(cfg, s.m, s.trace, t);
    Appended(s.trace, EmptyRead(t.stream, t.generation), t.stream, t.generation);
    OwnStep(cfg, s, RunStop(cfg, s, id, t, answer, now), id, t);
  }

  lemma SyncingKeeps(cfg: Config, s: System, id: nat, t: Task, answer: Answer, now: int)
    requires Inv(cfg, s) && id in s.tasks && s.tasks[id] == t && t.StopTask? && t.stopPhase.StopSyncing?
    ensures Inv(cfg, RunStop(cfg, s, id, t, answer, now))
  {
    var p := t.stopPhase;
    var k := Become(s, id, t.(stopPhase := StopCancelling(p.job, p.reconnect)));
    assert Stage(cfg, s.m, s.trace, t);
    OwnStep(cfg, s, k, id, t);
    SyncKeeps(cfg, k, p.snapshot, SyncOptions(true, p.reconnect, true, true, p.revision), now);
  }

  lemma CancellingKeeps(cfg: Config, s: System, id: nat, t: Task, answer: Answer, now: int)
    requires Inv(cfg, s) && id in s.tasks && s.tasks[id] == t && t.StopTask? && t.stopPhase.StopCancelling?
    ensures Inv(cfg, RunStop(cfg, s, id, t, answer, now))
  {
    CancellingEnds(cfg, s, id, t, answer, now);
    EndStep(cfg, s, RunStop(cfg, s, id, t, answer, now), id, t);
  }

  lemma CancellingEnds(cfg: Config, s: System, id: nat, t: Task, answer: Answer, now: int)
    requires t.StopTask? && t.stopPhase.StopCancelling?
    ensures var n := RunStop(cfg, s, id, t, answer, now); Evolves(s.m, n.m, "", -1) && n.trace == s.trace && n.tasks == s.tasks - {id}
  {
    CancelEvolves(s.m, t.stream);
  }

  /** The last step of a stop task. */
  lemma EndStep(cfg: Config, s: System, n: System, id: nat, t: Task)
    requires Inv(cfg, s) && id in s.tasks && s.tasks[id] == t && t.StopTask?
    requires Evolves(s.m, n.m, "", -1) && n.trace == s.trace && n.tasks == s.tasks - {id}
    ensures Inv(cfg, n)
  {
    OtherStep(cfg, s, n, -1);
  }

  lemma FinishingKeeps(cfg: Config, s: System, id: nat, t: Task, answer: Answer, now: int)
    requires Inv(cfg, s) && id in s.tasks && s.tasks[id] == t && t.StopTask? && t.stopPhase.StopFinishing?
    ensures Inv(cfg, RunStop(cfg, s, id, t, answer, now))
  {
    FinishEvolves(s.m, t.stream, t.generation);
    EndStep(cfg, s, RunStop(cfg, s, id, t, answer, now), id, t);
  }

  lemma IssueKeeps(cfg: Config, s: System, id: nat, t: Task, answer: Answer, now: int)
    requires Inv(cfg, s) && id in s.tasks && s.tasks[id] == t && t.StopTask? && t.stopPhase.StopIssuing?
    ensures Inv(cfg, RunStop(cfg, s, id, t, answer, now))
  {
    Appended(s.trace, StopIssued(t.stream, t.generation), t.stream, t.generation);
    OwnStep(cfg, s, RunStop(cfg, s, id, t, answer, now), id, t);
  }

  lemma CompleteKeeps(cfg: Config, s: System, id: nat, t: Task, answer: Answer, now: int)
    requires Inv(cfg, s) && id in s.tasks && s.tasks[id] == t && t.StopTask? && t.stopPhase.StopRequested?
    ensures Inv(cfg, RunStop(cfg, s, id, t, answer, now))
  {
    ClearEvolves(s.m, t.stream, t.generation);
    if answer.Done? || answer.Failed? { Appended(s.trace, StopAnswered(t.stream, t.generation, answer), t.stream, t.generation); }
    OwnStep(cfg, s, RunStop(cfg, s, id, t, answer, now), id, t);
  }

  lemma RetryKeeps(cfg: Config, s: System, id: nat, t: Task, answer: Answer, now: int)
    requires Inv(cfg, s) && id in s.tasks && s.tasks[id] == t && t.StopTask? && t.stopPhase.StopFailed?
    ensures Inv(cfg, RunStop(cfg, s, id, t, answer, now))
  {
    RetryEvolves(cfg, s.m, t.stream, t.generation);
    OwnStep(cfg, s, RunStop(cfg, s, id, t, answer, now), id, t);
  }

  // ----- every other step -----

  lemma BeginJoiningKeeps(cfg: Config, s: System, e: JoinEvent, now: int)
    requires Inv(cfg, s)
    ensures Inv(cfg, BeginJoining(cfg, s, e, now))
  {
    JoinEvolves(cfg, s.m, e, now);
    OtherStep(cfg, s, BeginJoining(cfg, s, e, now), -1);
  }

  lemma JoinEvolves(cfg: Config, m: State, e: JoinEvent, now: int)
    ensures Evolves(m, BeginJoin(cfg, m, e, now).state, "", -1)
  {
    var stream := m.current.streamID;
    CancelEvolves(RecordIntent(m, stream, e.guildID, e.voiceChannelID), stream);
  }

  lemma JoinBeginKeeps(cfg: Config, s: System, id: nat, e: JoinEvent, now: int)
    requires Inv(cfg, s)
    ensures Inv(cfg, BeginJoining(cfg, End(s, id), e, now))
  {
    OtherStep(cfg, s, End(s, id), -1);
    BeginJoiningKeeps(cfg, End(s, id), e, now);
  }

  lemma RunTaskKeeps(cfg: Config, s: System, id: nat, answer: Answer, now: int)
    requires Inv(cfg, s)
    ensures Inv(cfg, RunTask(cfg, s, id, answer, now))
  {
    if id in s.tasks {
      var t := s.tasks[id];
      match t
      case StopTask(_, _, _, _) => RunStopKeeps(cfg, s, id, t, answer, now);
      case StartTask(_, _, _, _) => StartFrame(cfg, s, id, t, answer); FramedKeeps(cfg, s, RunStart(cfg, s, id, t, answer), id, t);
      case JoinBeginTask(e) => JoinBeginKeeps(cfg, s, id, e, now);
      case JoinTask(_, _, _) => JoinFrame(cfg, s, id, t, answer); FramedKeeps(cfg, s, RunJoin(cfg, s, id, t, answer), id, t);
      case ReconcileTask(_, _, _) => ReconcileFrame(cfg, s, id, t, answer); FramedKeeps(cfg, s, RunReconcile(cfg, s, id, t, answer), id, t);
      case VoiceTask(_, _, _, _) => RunVoiceKeeps(cfg, s, id, t, answer);
      case StartJobTask(_, _) => RunJobKeeps(cfg, s, id, t, answer);
      case LeaveTask(_) => RunJobKeeps(cfg, s, id, t, answer);
      case _ => PublishingKeeps(cfg, s, id, answer, now);
    }
  }

  lemma PublishingKeeps(cfg: Config, s: System, id: nat, answer: Answer, now: int)
    requires Inv(cfg, s) && id in s.tasks && (s.tasks[id].ReportTask? || s.tasks[id].SpeakerTask? || s.tasks[id].PublishTask?)
    ensures Inv(cfg, RunTask(cfg, s, id, answer, now))
  {
    OtherStep(cfg, s, RunTask(cfg, s, id, answer, now), 0);
  }

  lemma RunJobKeeps(cfg: Config, s: System, id: nat, t: Task, answer: Answer)
    requires Inv(cfg, s) && (t.StartJobTask? || t.LeaveTask?)
    ensures Inv(cfg, RunJob(s, id, t, answer))
  {
    OtherStep(cfg, s, RunJob(s, id, t, answer), 0);
  }

  lemma RunVoiceKeeps(cfg: Config, s: System, id: nat, t: Task, answer: Answer)
    requires Inv(cfg, s) && t.VoiceTask?
    ensures Inv(cfg, RunVoice(cfg, s, id, t, answer))
  {
    OtherStep(cfg, s, RunVoice(cfg, s, id, t, answer), 0);
  }

  lemma FramedKeeps(cfg: Config, s: System, n: System, id: nat, t: Task)
    requires Inv(cfg, s)
    requires || (t.StartTask? && StartFramed(s, n, id, t)) || (t.JoinTask? && JoinFramed(s, n, id, t))
             || (t.ReconcileTask? && ReconcileFramed(s, n, id, t))
    ensures Inv(cfg, n)
  {
    OtherStep(cfg, s, n, -1);
  }

  lemma ApplyKeeps(cfg: Config, s: System, e: Event, now: int)
    requires Inv(cfg, s)
    ensures Inv(cfg, Apply(cfg, s, e, now))
  {
    match e
    case ParticipantCall(p) => ChangeKeeps(cfg, s, p, now);
    case SyncCall(w, o) => SyncKeeps(cfg, s, w, o, now);
    case SpeakerCall(stream, u, b, k) => FinishKeeps(cfg, s, s.m.current.streamID, SetSpeaker(s.m, stream, u, b, k));
    case ClearCall(stream) => FinishKeeps(cfg, s, s.m.current.streamID, ClearSpeakers(s.m, stream));
    case JoinCall(j) => BeginJoiningKeeps(cfg, s, j, now);
    case Run(task, answer) => RunTaskKeeps(cfg, s, task, answer, now);
    case StartCall(_) => CallKeeps(cfg, s, e, now);
    case StopCall(_) => CallKeeps(cfg, s, e, now);
    case _ => SettingKeeps(cfg, s, e, now);
  }

  lemma CallKeeps(cfg: Config, s: System, e: Event, now: int)
    requires Inv(cfg, s) && (e.StartCall? || e.StopCall?)
    ensures Inv(cfg, Apply(cfg, s, e, now))
  {
    if e.StartCall? {
      CancelEvolves(s.m, e.job.streamID);
    }
    OtherStep(cfg, s, Apply(cfg, s, e, now), -1);
  }

  lemma SettingKeeps(cfg: Config, s: System, e: Event, now: int)
    requires Inv(cfg, s) && (e.ConnectedCall? || e.DisconnectedCall? || e.ProjectCall? || e.ExecutingCall? || e.StopperCall? || e.StarterCall? || e.RetryCall?)
    ensures Inv(cfg, Apply(cfg, s, e, now))
  {
    OtherStep(cfg, s, Apply(cfg, s, e, now), -1);
  }

  lemma {:induction false} InvHolds(cfg: Config, run: seq<Timed>)
    ensures Inv(cfg, Execute(cfg, BOOT, run))
  {
    if run != [] {
      InvHolds(cfg, run[..|run| - 1]);
      ApplyKeeps(cfg, Execute(cfg, BOOT, run[..|run| - 1]), run[|run| - 1].event, run[|run| - 1].now);
    }
  }

  /** MAIN: over every run each armed generation makes at most 1 + len(retry delays) requests;
      with a snapshot source its first request follows two known-empty snapshots and each retry
      one more; and no two tasks ever act for the same stream and generation. */
  lemma RequestsBoundedAndConfirmed(cfg: Config, run: seq<Timed>)
    ensures var s := Execute(cfg, BOOT, run);
      && (forall stream, g :: Requests(s.trace, stream, g) <= 1 + cfg.stopRetryDelays)
      && (cfg.snapshotSource ==> forall i :: 0 <= i < |s.trace| && s.trace[i].StopIssued? ==>
            ReadsSince(s.trace[..i], s.trace[i].stream, s.trace[i].generation)
              >= if Requests(s.trace[..i], s.trace[i].stream, s.trace[i].generation) == 0 then 2 else 1)
      && (forall i, j | i in s.tasks && j in s.tasks && i != j && s.tasks[i].StopTask? && s.tasks[j].StopTask? ::
            s.tasks[i].stream != s.tasks[j].stream || s.tasks[i].generation != s.tasks[j].generation)
  {
    InvHolds(cfg, run);
    var s := Execute(cfg, BOOT, run);
    if cfg.snapshotSource {
      forall i | 0 <= i < |s.trace| && s.trace[i].StopIssued?
        ensures Confirmed(s.trace[..i], s.trace[i].stream, s.trace[i].generation) {}
    }
  }

  /** A request is issued only by the issuing stage of the task for the live pair, from a state with
      that job, that reconnect generation and no participant; the in-flight record says so. */
  lemma IssuedOnlyWhenEmpty(cfg: Config, s: System, e: Event, now: int)
    requires var n := Apply(cfg, s, e, now);
      |n.trace| > |s.trace| && n.trace[|s.trace|].StopIssued?
    ensures e.Run? && e.task in s.tasks && s.tasks[e.task].StopTask?
    ensures var t, n := s.tasks[e.task], Apply(cfg, s, e, now);
      && n.trace == s.trace + [StopIssued(t.stream, t.generation)]
      && t.stopPhase.StopIssuing?
      && Live(s.m, t.stream, t.generation)
      && s.m.current.streamID == t.stream && s.m.roster.participants == map[]
      && s.m.generation == t.stopPhase.reconnect && SameJob(s.m.current, t.stopPhase.job)
      && n.m.stop.inFlight == s.m.stop.inFlight[t.stream := InFlight(s.m.epoch, t.generation, s.m.minted, s.m.current)]
      && n.m.stop.lastAttempt == s.m.stop.lastAttempt[t.stream := now]
  {
    if e.Run? && e.task in s.tasks {
      var t := s.tasks[e.task];
      if t.StartTask? {
        StartFrame(cfg, s, e.task, t, e.answer);
      } else if t.ReconcileTask? {
        ReconcileFrame(cfg, s, e.task, t, e.answer);
      } else if t.JoinTask? {
        JoinFrame(cfg, s, e.task, t, e.answer);
      }
    }
  }

  /** The three ways in which a request's answer is processed. */
  datatype Ending = Completing | Retrying | Finishing

  function Ended(cfg: Config, m: State, stream: Id, g: nat, how: Ending): State {
    match how
    case Completing => CompleteStop(m, stream, g).state
    case Retrying => RetryStop(cfg, m, stream, g).state
    case Finishing => FinishStop(m, stream, g)
  }

  /** Only the in-flight record of the pair (stream, g) may be gone. */
  predicate NothingNewer(m: State, n: State, stream: Id, g: nat) {
    && n.stop.(inFlight := m.stop.inFlight) == m.stop
    && (forall x :: x in m.stop.inFlight && (x != stream || m.stop.inFlight[x].generation != g) ==>
          x in n.stop.inFlight && n.stop.inFlight[x] == m.stop.inFlight[x])
    && n.stop.inFlight.Keys <= m.stop.inFlight.Keys
  }

  lemma ClearingTouchesNothingNewer(m: State, stream: Id, g: nat)
    ensures NothingNewer(m, ClearInFlight(m, stream, g), stream, g)
  {
  }

  /** The answer to a request of an older generation changes nothing of the newer one: not its
      pending flag, not its attempt count, not its in-flight record, nor anything of another stream. */
  lemma OldAnswerTouchesNothingNewer(cfg: Config, m: State, stream: Id, g: nat, how: Ending)
    requires g != Count(m.stop.generation, stream)
    ensures NothingNewer(m, Ended(cfg, m, stream, g, how), stream, g)
  {
    ClearingTouchesNothingNewer(m, stream, g);
    if how.Finishing? { assert ClearInFlight(m, stream, g).stop.generation == m.stop.generation; }
  }
}
