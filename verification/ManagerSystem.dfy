/** The job manager with everything that runs beside it. A goroutine between two critical
    sections is a task that carries exactly what it captured; an event either calls the manager
    from outside or lets one task take its next step, with the environment's answer. Every
    sequence of events is a run: an event that is not possible changes nothing.
    A goroutine that publishes and then goes on is split into two tasks, so a run may order
    those two freely; every order of the source is among them. */
module ManagerSystem {
  import opened JobTypes
  import opened ManagerState

  /** One publication: a participant list or a speaking edge, the revision it was captured at,
      and what the manager's own view was at that moment. */
  datatype Body = List(rows: map<Id, Row>) | Edge(userID: Id, speaking: bool)

  datatype Publication = Publication(generation: nat, revision: nat, view: map<Id, Row>, body: Body)

  /** What an outside observer sees, in order. */
  datatype Observation =
    | Published(publication: Publication)
    | EmptyRead(stream: Id, generation: nat)
    | StopIssued(stream: Id, generation: nat)
    | StopAnswered(stream: Id, generation: nat, answer: Answer)
    | StartChecked(id: nat)
    | StartPresent(id: nat)
    | StartCalled(stream: Id, id: nat, result: StartResult)
    | StartReserved(stream: Id, id: nat, existing: bool)
    | IntentConsumed(stream: Id, intent: Intent)

  /** The stages of autoStopWhenEmpty and scheduleAutoStopRetry. */
  datatype StopPhase =
    | StopWaiting
    | StopReading(job: VoiceJob, reconnect: nat, revision: nat)
    | StopSyncing(job: VoiceJob, reconnect: nat, revision: nat, snapshot: Snapshot)
    | StopCancelling(job: VoiceJob, reconnect: nat)
    | StopEmptied(job: VoiceJob, reconnect: nat)
    | StopIssuing(job: VoiceJob, reconnect: nat)
    | StopRequested
    | StopFailed
    | StopFinishing

  /** The stages of an auto-start reservation's goroutine. */
  datatype StartPhase =
    | StartChecking
    | StartReading
    | StartDeciding(known: bool, present: bool)
    | StartCalling
    | StartNoting(result: StartResult)
    | StartBackoff
    | StartFinishing

  datatype StartResult = StartResult(accepted: bool, retryable: bool, busy: bool)

  /** The stages of reconcileAutoStopRejoin. */
  datatype RejoinPhase =
    | RejoinScheduling
    | RejoinPolling
    | RejoinDeciding(key: VoiceTarget, seen: Intent)
    | RejoinExhausted
    | RejoinEnding

  datatype Task =
    | StopTask(stream: Id, generation: nat, passed: bool, stopPhase: StopPhase)
    | StartTask(stream: Id, r: Reservation, calls: nat, startPhase: StartPhase)
    | ReportTask(report: Report)
    | SpeakerTask(speaker: SpeakerReport)
    | PublishTask(publication: Publication)
    | JoinBeginTask(event: JoinEvent)
    | JoinTask(event: JoinEvent, plan: JoinPlan, at: int)
    | ReconcileTask(stream: Id, round: nat, rejoinPhase: RejoinPhase)
    | StartJobTask(job: VoiceJob, epoch: Id)
    | LeaveTask(stream: Id)
    | VoiceTask(job: VoiceJob, reconnect: nat, attempts: nat, joining: bool)

  /** The environment's answer to whatever a task is waiting for. */
  datatype Answer =
    | Done
    | Failed(retryable: bool)
    | Unknown
    | Seen(snapshot: Snapshot)
    | Presence(known: bool, present: bool)
    | Replied(result: StartResult)
    | Chosen(key: VoiceTarget)

  datatype Event =
    | ParticipantCall(participant: ParticipantEvent)
    | SyncCall(snapshot: Snapshot, options: SyncOptions)
    | SpeakerCall(stream: Id, userID: Id, speaking: bool, preserveOthers: bool)
    | ClearCall(stream: Id)
    | JoinCall(join: JoinEvent)
    | StartCall(job: VoiceJob)
    | StopCall(stream: Id)
    | ConnectedCall
    | DisconnectedCall(rejoin: bool)
    | ProjectCall(incoming: map<Id, VoiceDefaults>)
    | ExecutingCall(streams: set<Id>)
    | StopperCall(present: bool)
    | StarterCall(present: bool)
    | RetryCall(queue: nat, retried: VoiceJob, generation: nat, edge: Option<Id>)
    | Run(task: nat, answer: Answer)

  /** `holder` is the task that holds participantReportMu. */
  datatype System = System(m: State, tasks: map<nat, Task>, next: nat, holder: Option<nat>, trace: seq<Observation>)

  const BOOT := System(INITIAL, map[], 0, None, [])

  function Spawn(s: System, t: Task): System {
    s.(tasks := s.tasks[s.next := t], next := s.next + 1)
  }

  function SpawnSome(s: System, t: Option<Task>): System {
    if t.Some? then Spawn(s, t.value) else s
  }

  function Observe(s: System, o: Observation): System { s.(trace := s.trace + [o]) }

  function End(s: System, id: nat): System { s.(tasks := s.tasks - {id}) }

  function Become(s: System, id: nat, t: Task): System { s.(tasks := s.tasks[id := t]) }

  /** A participant or speaker section: its reports and its armed auto-stop become tasks. */
  function Finish(s: System, stream: Id, o: Outcome): System {
    var a := SpawnSome(s.(m := o.state), if o.report.Some? then Some(ReportTask(o.report.value)) else None);
    var b := SpawnSome(a, if o.speaker.Some? then Some(SpeakerTask(o.speaker.value)) else None);
    SpawnSome(b, if o.armed.Some? then Some(StopTask(stream, o.armed.value, false, StopWaiting)) else None)
  }

  // ----- publishing -----

  function ListOf(r: Report, view: map<Id, Row>): Publication { Publication(r.generation, r.revision, view, List(r.rows)) }

  function EdgeOf(r: SpeakerReport, view: map<Id, Row>): Publication {
    Publication(r.generation, r.revision, view, Edge(r.userID, r.speaking))
  }

  /** A report that gets participantReportMu either ends or turns into a publication under way. */
  function RunReport(s: System, id: nat, t: Task): System
    requires t.ReportTask? || t.SpeakerTask?
  {
    if s.holder.Some? then s
    else
      var p := match t
        case ReportTask(r) =>
          var c := CaptureReport(s.m, r);
          if c.Some? then Some(ListOf(c.value, View(s.m.roster))) else None
        case SpeakerTask(r) =>
          var c := CaptureSpeaker(s.m, r);
          if c.Some? then Some(EdgeOf(c.value, View(s.m.roster))) else None;
      if p.None? then End(s, id) else Become(s, id, PublishTask(p.value)).(holder := Some(id))
  }

  function RunPublish(s: System, id: nat, p: Publication): System {
    Observe(End(s, id), Published(p)).(holder := None)
  }

  /** deliverWorkerEventRetry up to the publication, for a report of any content. */
  function ApplyRetry(s: System, queue: nat, job: VoiceJob, generation: nat, edge: Option<Id>): System {
    if s.holder.Some? then s
    else
      var p := match edge
        case None =>
          var c := RefreshReport(s.m, queue, job, generation);
          if c.Some? then Some(ListOf(c.value, View(s.m.roster))) else None
        case Some(u) =>
          var c := RefreshSpeaker(s.m, queue, job, generation, u);
          if c.Some? then Some(EdgeOf(c.value, View(s.m.roster))) else None;
      if p.None? then s else Spawn(s, PublishTask(p.value)).(holder := Some(s.next))
  }

  // ----- auto-stop -----

  function RunStop(cfg: Config, s: System, id: nat, t: Task, answer: Answer, now: int): System
    requires t.StopTask?
  {
    var m := s.m;
    match t.stopPhase
    case StopWaiting =>
      if !StopValid(m, t.stream, t.generation) then End(s, id)
      else if cfg.snapshotSource
      then Become(s, id, t.(stopPhase := StopReading(m.current, m.generation, m.roster.revision)))
      else Become(s, id, t.(stopPhase := StopIssuing(m.current, m.generation)))
    case StopReading(job, reconnect, revision) =>
      if answer.Seen? && answer.snapshot.members == [] then
        Observe(Become(s, id, t.(stopPhase := StopEmptied(job, reconnect))), EmptyRead(t.stream, t.generation))
      else if answer.Seen? then Become(s, id, t.(stopPhase := StopSyncing(job, reconnect, revision, answer.snapshot)))
      else if answer.Unknown? then Become(s, id, t.(stopPhase := StopCancelling(job, reconnect)))
      else s
    case StopSyncing(job, reconnect, revision, snapshot) =>
      var o := SyncParticipants(cfg, m, snapshot, SyncOptions(true, reconnect, true, true, revision), now);
      Finish(Become(s, id, t.(stopPhase := StopCancelling(job, reconnect))), m.current.streamID, o)
    case StopCancelling(job, reconnect) =>
      End(if StopValidForJob(m, t.stream, t.generation, job, reconnect) then s.(m := CancelStop(m, t.stream)) else s, id)
    case StopEmptied(job, reconnect) =>
      if !StopValidForJob(m, t.stream, t.generation, job, reconnect) then End(s, id)
      else if !t.passed then Become(s, id, t.(passed := true, stopPhase := StopWaiting))
      else Become(s, id, t.(stopPhase := StopIssuing(job, reconnect)))
    case StopIssuing(job, reconnect) =>
      var i := IssueStop(m, t.stream, t.generation, job, reconnect, now);
      if i.None? then End(s, id)
      else Observe(Become(s.(m := i.value), id, t.(stopPhase := StopRequested)), StopIssued(t.stream, t.generation))
    case StopRequested =>
      if !answer.Done? && !answer.Failed? then s
      else
        var c := CompleteStop(m, t.stream, t.generation);
        var n := s.(m := c.state);
        var k := if !c.valid then End(n, id)
                 else Become(n, id, t.(stopPhase := if answer == Failed(true) then StopFailed else StopFinishing));
        Observe(SpawnSome(k, if c.reconcile then Some(ReconcileTask(t.stream, 0, RejoinScheduling)) else None),
                StopAnswered(t.stream, t.generation, answer))
    case StopFailed =>
      var r := RetryStop(cfg, m, t.stream, t.generation);
      var n := s.(m := r.state);
      if r.scheduled then Become(n, id, t.(stopPhase := StopWaiting)) else End(n, id)
    case StopFinishing => End(s.(m := FinishStop(m, t.stream, t.generation)), id)
  }

  // ----- auto-start -----

  function Reserving(s: System, e: JoinEvent, stream: Id, r: Reserved): System {
    var n := s.(m := r.state);
    if r.reservation.None? then n
    else Observe(Spawn(n, StartTask(stream, r.reservation.value, 0, StartChecking)),
                 StartReserved(stream, r.reservation.value.id, e.existing))
  }

  ghost function RunJoin(cfg: Config, s: System, id: nat, t: Task, answer: Answer): System
    requires t.JoinTask?
  {
    var n := End(s, id);
    match t.plan
    case JoinDone => n
    case JoinReserve(stream) => Reserving(n, t.event, stream, Reserve(cfg, s.m, t.event, stream, t.at))
    case JoinRefresh =>
      if answer.Failed? then n
      else Reserving(n, t.event, Matching(s.m.start.defaults, t.event.guildID, t.event.voiceChannelID),
                     ReserveRefreshed(cfg, s.m, t.event, t.at))
  }

  ghost function BeginJoining(cfg: Config, s: System, e: JoinEvent, now: int): System {
    var b := BeginJoin(cfg, s.m, e, now);
    var n := s.(m := b.state);
    if b.plan.JoinDone? then n else Spawn(n, JoinTask(e, b.plan, now))
  }

  ghost function RunStart(cfg: Config, s: System, id: nat, t: Task, answer: Answer): System
    requires t.StartTask?
  {
    var m := s.m;
    var finish := Become(s, id, t.(startPhase := StartFinishing));
    match t.startPhase
    case StartChecking =>
      if (t.calls == 0 && t.r.id in m.cancelled) || !StartValid(m, t.stream, t.r) then finish
      else Observe(Become(s, id, t.(startPhase := if cfg.presenceSource then StartReading else StartCalling)),
                   StartChecked(t.r.id))
    case StartReading =>
      if !answer.Presence? then s
      else
        var n := Become(s, id, t.(startPhase := StartDeciding(answer.known, answer.present)));
        if answer.known && answer.present then Observe(n, StartPresent(t.r.id)) else n
    case StartDeciding(known, present) =>
      var n := s.(m := DecideStart(m, t.stream, t.r, known, present));
      if StartValid(m, t.stream, t.r) && known && present
      then Observe(Become(n, id, t.(startPhase := StartCalling)), StartChecked(t.r.id))
      else Become(n, id, t.(startPhase := StartFinishing))
    case StartCalling =>
      if !answer.Replied? then s
      else Observe(Become(s, id, t.(calls := t.calls + 1, startPhase := StartNoting(answer.result))),
                   StartCalled(t.stream, t.r.id, answer.result))
    case StartNoting(result) =>
      var n := if result.accepted && t.calls == 1 then s
               else s.(m := NoteCapacity(m, t.stream, t.r, !result.accepted && result.busy));
      if !result.accepted && result.retryable && t.calls <= cfg.startRetryDelays
      then Become(n, id, t.(startPhase := StartBackoff))
      else Become(n, id, t.(startPhase := StartFinishing))
    case StartBackoff =>
      if answer.Failed? && t.r.id in m.cancelled then finish else Become(s, id, t.(startPhase := StartChecking))
    case StartFinishing => End(s.(m := FinishStart(m, t.stream, t.r)), id)
  }

  // ----- rejoin reconciliation -----

  function NextRound(cfg: Config, s: System, id: nat, t: Task): System
    requires t.ReconcileTask?
  {
    Become(s, id, t.(round := t.round + 1,
                     rejoinPhase := if t.round + 1 < cfg.rejoinDelays then RejoinPolling else RejoinExhausted))
  }

  /** The intent of the stream that the second lookup meets: any of them, and `key` where there is none. */
  function Looked(m: State, stream: Id, key: VoiceTarget, answer: Answer): VoiceTarget {
    if answer.Chosen? && IntentOf(m, answer.key, stream) then answer.key else key
  }

  ghost function RunReconcile(cfg: Config, s: System, id: nat, t: Task, answer: Answer): System
    requires t.ReconcileTask?
  {
    var m := s.m;
    match t.rejoinPhase
    case RejoinScheduling =>
      if !HasIntent(m, t.stream) || t.stream in m.rejoin.running then End(s, id)
      else Become(s.(m := m.(rejoin := m.rejoin.(running := m.rejoin.running + {t.stream}))), id,
                  t.(rejoinPhase := if 0 < cfg.rejoinDelays then RejoinPolling else RejoinExhausted))
    case RejoinPolling =>
      if !HasIntent(m, t.stream) then Become(s, id, t.(rejoinPhase := RejoinEnding))
      else if answer.Chosen? && IntentOf(m, answer.key, t.stream)
      then Become(s, id, t.(rejoinPhase := RejoinDeciding(answer.key, m.rejoin.intents[answer.key])))
      else s
    case RejoinDeciding(key, seen) =>
      if answer.Failed? && cfg.refresher then NextRound(cfg, s, id, t)
      else
        var d := DecideRejoin(m, t.stream, Looked(m, t.stream, key, answer), key, seen);
        var n := s.(m := d.state);
        (match d.plan
         case RejoinStop => Become(n, id, t.(rejoinPhase := RejoinEnding))
         case RejoinAgain => NextRound(cfg, n, id, t)
         case RejoinJoin(e) =>
           Observe(Spawn(Become(n, id, t.(rejoinPhase := RejoinEnding)), JoinBeginTask(e)), IntentConsumed(t.stream, seen)))
    case RejoinExhausted =>
      if !HasIntent(m, t.stream) then Become(s, id, t.(rejoinPhase := RejoinEnding))
      else if answer.Chosen? && IntentOf(m, answer.key, t.stream)
      then Become(s.(m := m.(rejoin := m.rejoin.(intents := m.rejoin.intents - {answer.key}))), id, t.(rejoinPhase := RejoinEnding))
      else s
    case RejoinEnding => End(s.(m := m.(rejoin := m.rejoin.(running := m.rejoin.running - {t.stream}))), id)
  }

  // ----- job lifecycle -----

  function RunVoice(cfg: Config, s: System, id: nat, t: Task, answer: Answer): System
    requires t.VoiceTask?
  {
    var m := s.m;
    var current := t.reconnect == m.generation && SameJob(m.current, t.job);
    if !t.joining then
      if t.attempts >= cfg.voiceAttempts || !current || m.stopping then End(s, id)
      else Become(s, id, t.(joining := true))
    else if answer.Done? then End(s.(m := CommitRejoin(m, t.job, t.reconnect)), id)
    else if !answer.Failed? then s
    else if !current then End(s, id)
    else Become(s, id, t.(joining := false, attempts := t.attempts + 1))
  }

  function RunJob(s: System, id: nat, t: Task, answer: Answer): System
    requires t.StartJobTask? || t.LeaveTask?
  {
    match t
    case StartJobTask(job, epoch) =>
      if answer.Done? then End(s.(m := CommitStart(s.m, job, epoch)), id)
      else if answer.Failed? then End(s, id) else s
    case LeaveTask(stream) =>
      if answer.Done? then End(s.(m := CommitStop(s.m, stream)), id)
      else if answer.Failed? then End(s.(m := RevertStop(s.m, stream)), id) else s
  }

  ghost function RunTask(cfg: Config, s: System, id: nat, answer: Answer, now: int): System {
    if id !in s.tasks then s
    else
      var t := s.tasks[id];
      match t
      case StopTask(_, _, _, _) => RunStop(cfg, s, id, t, answer, now)
      case StartTask(_, _, _, _) => RunStart(cfg, s, id, t, answer)
      case ReportTask(_) => RunReport(s, id, t)
      case SpeakerTask(_) => RunReport(s, id, t)
      case PublishTask(p) => RunPublish(s, id, p)
      case JoinBeginTask(e) => BeginJoining(cfg, End(s, id), e, now)
      case JoinTask(_, _, _) => RunJoin(cfg, s, id, t, answer)
      case ReconcileTask(_, _, _) => RunReconcile(cfg, s, id, t, answer)
      case StartJobTask(_, _) => RunJob(s, id, t, answer)
      case LeaveTask(_) => RunJob(s, id, t, answer)
      case VoiceTask(_, _, _, _) => RunVoice(cfg, s, id, t, answer)
  }

  function Disconnecting(s: System, rejoin: bool): System {
    var n := s.(m := Disconnect(s.m));
    if rejoin && !s.m.stopping && s.m.current.streamID != ""
    then Spawn(n, VoiceTask(s.m.current, n.m.generation, 0, false)) else n
  }

  ghost function Apply(cfg: Config, s: System, e: Event, now: int): System {
    var m := s.m;
    match e
    case ParticipantCall(p) => Finish(s, m.current.streamID, ChangeParticipant(cfg, m, p, now))
    case SyncCall(snapshot, o) => Finish(s, m.current.streamID, SyncParticipants(cfg, m, snapshot, o, now))
    case SpeakerCall(stream, u, speaking, others) => Finish(s, m.current.streamID, SetSpeaker(m, stream, u, speaking, others))
    case ClearCall(stream) => Finish(s, m.current.streamID, ClearSpeakers(m, stream))
    case JoinCall(j) => BeginJoining(cfg, s, j, now)
    case StartCall(job) =>
      if StartAllowed(m, job) then Spawn(s.(m := BeginStart(m, job)), StartJobTask(job, StartEpoch(m, job.streamID))) else s
    case StopCall(stream) =>
      SpawnSome(s.(m := BeginStop(m, stream)), if StopAllowed(m, stream) then Some(LeaveTask(m.current.streamID)) else None)
    case ConnectedCall => s.(m := Connect(m))
    case DisconnectedCall(rejoin) => Disconnecting(s, rejoin)
    case ProjectCall(incoming) => s.(m := Project(m, incoming))
    case ExecutingCall(streams) => s.(m := m.(start := m.start.(executing := Some(streams))))
    case StopperCall(present) => s.(m := m.(stopper := present))
    case StarterCall(present) => s.(m := m.(starter := present))
    case RetryCall(queue, job, generation, edge) => ApplyRetry(s, queue, job, generation, edge)
    case Run(task, answer) => RunTask(cfg, s, task, answer, now)
  }

  /** An event together with the time at which it happens. */
  datatype Timed = Timed(event: Event, now: int)

  ghost function Execute(cfg: Config, s: System, run: seq<Timed>): System {
    if run == [] then s
    else
      var before := Execute(cfg, s, run[..|run| - 1]);
      Apply(cfg, before, run[|run| - 1].event, run[|run| - 1].now)
  }

  /** Task numbers are never reused, so no step overwrites a task that is still running. */
  predicate Numbered(s: System) {
    forall id :: id in s.tasks ==> id < s.next
  }

  lemma NumberedStep(cfg: Config, s: System, e: Event, now: int)
    requires Numbered(s)
    ensures Numbered(Apply(cfg, s, e, now)) && s.next <= Apply(cfg, s, e, now).next
  {
    if e.Run? && e.task in s.tasks {
      NumberedRun(cfg, s, e.task, e.answer, now);
    } else if e.ParticipantCall? || e.SyncCall? || e.SpeakerCall? || e.ClearCall? {
      NumberedReport(cfg, s, e, now);
    }
  }

  lemma NumberedReport(cfg: Config, s: System, e: Event, now: int)
    requires Numbered(s) && (e.ParticipantCall? || e.SyncCall? || e.SpeakerCall? || e.ClearCall?)
    ensures Numbered(Apply(cfg, s, e, now)) && s.next <= Apply(cfg, s, e, now).next
  {
  }

  lemma NumberedRun(cfg: Config, s: System, id: nat, answer: Answer, now: int)
    requires Numbered(s) && id in s.tasks
    ensures var n := RunTask(cfg, s, id, answer, now); Numbered(n) && s.next <= n.next
  {
    match s.tasks[id]
    case StartTask(_, _, _, _) => NumberedStart(cfg, s, id, s.tasks[id], answer);
    case StopTask(_, _, _, _) => NumberedStop(cfg, s, id, s.tasks[id], answer, now);
    case ReconcileTask(_, _, _) => NumberedReconcile(cfg, s, id, s.tasks[id], answer);
    case _ => NumberedOther(cfg, s, id, answer, now);
  }

  lemma NumberedOther(cfg: Config, s: System, id: nat, answer: Answer, now: int)
    requires Numbered(s) && id in s.tasks && !s.tasks[id].StartTask? && !s.tasks[id].StopTask? && !s.tasks[id].ReconcileTask?
    ensures var n := RunTask(cfg, s, id, answer, now); Numbered(n) && s.next <= n.next
  {
  }

  lemma NumberedStart(cfg: Config, s: System, id: nat, t: Task, answer: Answer)
    requires Numbered(s) && id in s.tasks && t.StartTask?
    ensures var n := RunStart(cfg, s, id, t, answer); Numbered(n) && s.next <= n.next
  {
  }

  lemma NumberedStop(cfg: Config, s: System, id: nat, t: Task, answer: Answer, now: int)
    requires Numbered(s) && id in s.tasks && t.StopTask?
    ensures var n := RunStop(cfg, s, id, t, answer, now); Numbered(n) && s.next <= n.next
  {
  }

  lemma NumberedReconcile(cfg: Config, s: System, id: nat, t: Task, answer: Answer)
    requires Numbered(s) && id in s.tasks && t.ReconcileTask?
    ensures var n := RunReconcile(cfg, s, id, t, answer); Numbered(n) && s.next <= n.next
  {
  }

  lemma {:induction false} NumberedHolds(cfg: Config, run: seq<Timed>)
    ensures Numbered(Execute(cfg, BOOT, run))
  {
    if run != [] {
      NumberedHolds(cfg, run[..|run| - 1]);
      NumberedStep(cfg, Execute(cfg, BOOT, run[..|run| - 1]), run[|run| - 1].event, run[|run| - 1].now);
    }
  }
}
