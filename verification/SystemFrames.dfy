/** What one step of each kind of task can change at all. */
module SystemFrames {
  import opened JobTypes
  import opened ManagerState
  import opened ManagerSystem

  /** Only the auto-stop records, the identities and the contexts differ. */
  predicate StopPartOnly(m: State, n: State) {
    n == m.(stop := n.stop, cancelled := n.cancelled, minted := n.minted) && m.minted <= n.minted
  }

  /** Only the pending starts, the reservations and the contexts differ. */
  predicate StartPartOnly(m: State, n: State) {
    n == m.(start := m.start.(pending := n.start.pending, retries := n.start.retries), cancelled := n.cancelled)
  }

  /** Only the rejoin records and the fences differ. */
  predicate RejoinPartOnly(m: State, n: State) {
    n == m.(rejoin := n.rejoin, start := m.start.(stopped := n.start.stopped))
  }

  /** The observation is one of the auto-stop of this pair. */
  predicate OfPair(o: Observation, stream: Id, g: nat) {
    (o.EmptyRead? || o.StopIssued? || o.StopAnswered?) && o.stream == stream && o.generation == g
  }

  predicate Longer(trace: seq<Observation>, longer: seq<Observation>) {
    |longer| == |trace| + 1 && longer[..|trace|] == trace
  }

  predicate SamePair(t: Task, u: Task) {
    t.StopTask? && u.StopTask? && u.stream == t.stream && u.generation == t.generation
  }

  /** A step of a stop task, unless it is the one that applies a snapshot. */
  predicate StopFramed(s: System, n: System, id: nat, t: Task)
    requires t.StopTask?
  {
    && StopPartOnly(s.m, n.m) && n.holder == s.holder
    && (n.trace == s.trace || (Longer(s.trace, n.trace) && OfPair(n.trace[|s.trace|], t.stream, t.generation)))
    && (forall j :: j in n.tasks ==>
          || (j in s.tasks && n.tasks[j] == s.tasks[j])
          || (j == id && SamePair(t, n.tasks[j]))
          || n.tasks[j] == ReconcileTask(t.stream, 0, RejoinScheduling))
  }

  lemma StopFrame(cfg: Config, s: System, id: nat, t: Task, answer: Answer, now: int)
    requires t.StopTask? && !t.stopPhase.StopSyncing?
    ensures StopFramed(s, RunStop(cfg, s, id, t, answer, now), id, t)
  {
    match t.stopPhase
    case StopCancelling(_, _) => CancelFrame(cfg, s, id, t, answer, now);
    case StopIssuing(_, _) => IssueFrame(cfg, s, id, t, answer, now);
    case StopRequested => CompleteFrame(cfg, s, id, t, answer, now);
    case StopFailed => RetryFrame(cfg, s, id, t, answer, now);
    case StopFinishing => FinishFrame(cfg, s, id, t, answer, now);
    case _ => QuietFrame(cfg, s, id, t, answer, now);
  }

  lemma QuietFrame(cfg: Config, s: System, id: nat, t: Task, answer: Answer, now: int)
    requires t.StopTask? && (t.stopPhase.StopWaiting? || t.stopPhase.StopReading? || t.stopPhase.StopEmptied?)
    ensures var n := RunStop(cfg, s, id, t, answer, now); n.m == s.m && StopFramed(s, n, id, t)
  {
  }

  lemma CancelFrame(cfg: Config, s: System, id: nat, t: Task, answer: Answer, now: int)
    requires t.StopTask? && t.stopPhase.StopCancelling?
    ensures StopFramed(s, RunStop(cfg, s, id, t, answer, now), id, t)
  {
  }

  lemma IssueFrame(cfg: Config, s: System, id: nat, t: Task, answer: Answer, now: int)
    requires t.StopTask? && t.stopPhase.StopIssuing?
    ensures StopFramed(s, RunStop(cfg, s, id, t, answer, now), id, t)
  {
  }

  lemma CompleteFrame(cfg: Config, s: System, id: nat, t: Task, answer: Answer, now: int)
    requires t.StopTask? && t.stopPhase.StopRequested?
    ensures StopFramed(s, RunStop(cfg, s, id, t, answer, now), id, t)
  {
    ClearFrame(s.m, t.stream, t.generation);
  }

  lemma ClearFrame(m: State, stream: Id, g: nat)
    ensures StopPartOnly(m, ClearInFlight(m, stream, g))
  {
  }

  lemma RetryFrame(cfg: Config, s: System, id: nat, t: Task, answer: Answer, now: int)
    requires t.StopTask? && t.stopPhase.StopFailed?
    ensures StopFramed(s, RunStop(cfg, s, id, t, answer, now), id, t)
  {
    FinishStopFrame(s.m, t.stream, t.generation);
  }

  lemma FinishFrame(cfg: Config, s: System, id: nat, t: Task, answer: Answer, now: int)
    requires t.StopTask? && t.stopPhase.StopFinishing?
    ensures StopFramed(s, RunStop(cfg, s, id, t, answer, now), id, t)
  {
    FinishStopFrame(s.m, t.stream, t.generation);
  }

  lemma FinishStopFrame(m: State, stream: Id, g: nat)
    ensures StopPartOnly(m, FinishStop(m, stream, g))
  {
  }

  /** A step of a start task. */
  predicate StartFramed(s: System, n: System, id: nat, t: Task)
    requires t.StartTask?
  {
    && StartPartOnly(s.m, n.m) && n.holder == s.holder
    && (n.trace == s.trace || n.trace == s.trace + [StartChecked(t.r.id)]
        || n.trace == s.trace + [StartPresent(t.r.id)]
        || (Longer(s.trace, n.trace) && n.trace[|s.trace|].StartCalled? && n.trace[|s.trace|].stream == t.stream
            && n.trace[|s.trace|].id == t.r.id))
    && (forall j :: j in n.tasks ==>
          || (j in s.tasks && n.tasks[j] == s.tasks[j])
          || (j == id && n.tasks[j].StartTask? && n.tasks[j].r == t.r && n.tasks[j].stream == t.stream))
  }

  lemma StartFrame(cfg: Config, s: System, id: nat, t: Task, answer: Answer)
    requires t.StartTask?
    ensures StartFramed(s, RunStart(cfg, s, id, t, answer), id, t)
  {
    match t.startPhase
    case StartDeciding(_, _) => DecideFrame(cfg, s, id, t, answer);
    case StartNoting(_) => NoteFrame(cfg, s, id, t, answer);
    case StartFinishing => EndFrame(cfg, s, id, t, answer);
    case _ => CallFrame(cfg, s, id, t, answer);
  }

  lemma DecideFrame(cfg: Config, s: System, id: nat, t: Task, answer: Answer)
    requires t.StartTask? && t.startPhase.StartDeciding?
    ensures StartFramed(s, RunStart(cfg, s, id, t, answer), id, t)
  {
    DroppedFrame(s.m, t.stream, t.r, t.startPhase.known, t.startPhase.present);
  }

  lemma DroppedFrame(m: State, stream: Id, r: Reservation, known: bool, present: bool)
    ensures StartPartOnly(m, DecideStart(m, stream, r, known, present))
  {
  }

  lemma NoteFrame(cfg: Config, s: System, id: nat, t: Task, answer: Answer)
    requires t.StartTask? && t.startPhase.StartNoting?
    ensures StartFramed(s, RunStart(cfg, s, id, t, answer), id, t)
  {
  }

  lemma EndFrame(cfg: Config, s: System, id: nat, t: Task, answer: Answer)
    requires t.StartTask? && t.startPhase.StartFinishing?
    ensures StartFramed(s, RunStart(cfg, s, id, t, answer), id, t)
  {
  }

  lemma CallFrame(cfg: Config, s: System, id: nat, t: Task, answer: Answer)
    requires t.StartTask? && !t.startPhase.StartDeciding? && !t.startPhase.StartNoting? && !t.startPhase.StartFinishing?
    ensures var n := RunStart(cfg, s, id, t, answer); n.m == s.m && StartFramed(s, n, id, t)
  {
  }

  /** A step of a rejoin reconciliation. */
  predicate ReconcileFramed(s: System, n: System, id: nat, t: Task)
    requires t.ReconcileTask?
  {
    && RejoinPartOnly(s.m, n.m) && n.holder == s.holder
    && (n.trace == s.trace
        || (t.rejoinPhase.RejoinDeciding? && n.trace == s.trace + [IntentConsumed(t.stream, t.rejoinPhase.seen)]))
    && (forall j :: j in n.tasks ==>
          || (j in s.tasks && n.tasks[j] == s.tasks[j])
          || (j == id && n.tasks[j].ReconcileTask? && n.tasks[j].stream == t.stream)
          || n.tasks[j].JoinBeginTask?)
  }

  lemma ReconcileFrame(cfg: Config, s: System, id: nat, t: Task, answer: Answer)
    requires t.ReconcileTask?
    ensures ReconcileFramed(s, RunReconcile(cfg, s, id, t, answer), id, t)
  {
    match t.rejoinPhase
    case RejoinDeciding(_, _) => DecidingFrame(cfg, s, id, t, answer);
    case RejoinPolling => PollingFrame(cfg, s, id, t, answer);
    case RejoinExhausted => ExhaustedFrame(cfg, s, id, t, answer);
    case _ => RunningFrame(cfg, s, id, t, answer);
  }

  lemma DecidingFrame(cfg: Config, s: System, id: nat, t: Task, answer: Answer)
    requires t.ReconcileTask? && t.rejoinPhase.RejoinDeciding?
    ensures ReconcileFramed(s, RunReconcile(cfg, s, id, t, answer), id, t)
  {
    DecideRejoinFrame(s.m, t.stream, Looked(s.m, t.stream, t.rejoinPhase.key, answer), t.rejoinPhase.key, t.rejoinPhase.seen);
  }

  lemma DecideRejoinFrame(m: State, stream: Id, looked: VoiceTarget, key: VoiceTarget, seen: Intent)
    ensures RejoinPartOnly(m, DecideRejoin(m, stream, looked, key, seen).state)
  {
  }

  lemma PollingFrame(cfg: Config, s: System, id: nat, t: Task, answer: Answer)
    requires t.ReconcileTask? && t.rejoinPhase.RejoinPolling?
    ensures ReconcileFramed(s, RunReconcile(cfg, s, id, t, answer), id, t)
  {
  }

  lemma ExhaustedFrame(cfg: Config, s: System, id: nat, t: Task, answer: Answer)
    requires t.ReconcileTask? && t.rejoinPhase.RejoinExhausted?
    ensures ReconcileFramed(s, RunReconcile(cfg, s, id, t, answer), id, t)
  {
  }

  lemma RunningFrame(cfg: Config, s: System, id: nat, t: Task, answer: Answer)
    requires t.ReconcileTask? && (t.rejoinPhase.RejoinScheduling? || t.rejoinPhase.RejoinEnding?)
    ensures ReconcileFramed(s, RunReconcile(cfg, s, id, t, answer), id, t)
  {
  }

  /** Only the auto-stop records, the rejoin records, the contexts and the refresh time differ. */
  predicate JoinPartOnly(m: State, n: State) {
    n == m.(stop := n.stop, rejoin := n.rejoin, cancelled := n.cancelled, start := m.start.(refreshAt := n.start.refreshAt))
  }

  /** Only the rejoin records and the refresh time differ. */
  predicate IdlePartOnly(m: State, n: State) {
    n == m.(rejoin := n.rejoin, start := m.start.(refreshAt := n.start.refreshAt))
  }

  lemma BeginJoinFrame(cfg: Config, m: State, e: JoinEvent, now: int)
    ensures JoinPartOnly(m, BeginJoin(cfg, m, e, now).state)
  {
    if m.current.streamID == "" {
      IdleJoinFrame(cfg, m, e, now);
    } else {
      RunningJoinFrame(cfg, m, e, now);
    }
  }

  lemma IdleJoinFrame(cfg: Config, m: State, e: JoinEvent, now: int)
    requires m.current.streamID == ""
    ensures IdlePartOnly(m, BeginJoin(cfg, m, e, now).state)
  {
  }

  lemma RunningJoinFrame(cfg: Config, m: State, e: JoinEvent, now: int)
    requires m.current.streamID != ""
    ensures JoinPartOnly(m, BeginJoin(cfg, m, e, now).state)
  {
    var s := m.current.streamID;
    CancelStopFrame(RecordIntent(m, s, e.guildID, e.voiceChannelID), s);
  }

  lemma CancelStopFrame(m: State, stream: Id)
    ensures StopPartOnly(m, CancelStop(m, stream)) && CancelStop(m, stream).minted == m.minted
  {
  }

  /** Only the fences, the pending starts, the reservations and the identities differ. */
  predicate ReservePartOnly(m: State, n: State) {
    && n == m.(minted := n.minted, start := m.start.(stopped := n.start.stopped, pending := n.start.pending, retries := n.start.retries))
    && m.minted <= n.minted
  }

  lemma ReserveFrame(cfg: Config, m: State, e: JoinEvent, stream: Id, now: int)
    ensures var n := Reserve(cfg, m, e, stream, now);
      && ReservePartOnly(m, n.state)
      && (n.reservation.Some? ==> stream != "" && n.reservation.value.id == m.minted < n.state.minted)
  {
  }

  /** A reserving step: a new start task, or none. */
  predicate JoinFramed(s: System, n: System, id: nat, t: Task)
    requires t.JoinTask?
  {
    && ReservePartOnly(s.m, n.m) && n.holder == s.holder
    && (forall j :: j in n.tasks ==>
          || (j in s.tasks && n.tasks[j] == s.tasks[j])
          || (j == s.next && s.m.minted < n.m.minted && n.tasks[j].StartTask? && n.tasks[j].stream != ""
              && n.tasks[j].r.id == s.m.minted && n.tasks[j].calls == 0 && n.tasks[j].startPhase == StartChecking))
    && (n.trace == s.trace || (|n.trace| == |s.trace| + 1 && s.trace <= n.trace && n.trace[|s.trace|].StartReserved?
                               && n.trace[|s.trace|].existing == t.event.existing))
  }

  lemma JoinFrame(cfg: Config, s: System, id: nat, t: Task, answer: Answer)
    requires t.JoinTask?
    ensures JoinFramed(s, RunJoin(cfg, s, id, t, answer), id, t)
  {
    var stream := if t.plan.JoinReserve? then t.plan.stream else Matching(s.m.start.defaults, t.event.guildID, t.event.voiceChannelID);
    ReserveFrame(cfg, s.m, t.event, stream, t.at);
  }

  lemma SettleFrame(cfg: Config, m: State, r: Roster, speaker: Option<SpeakerReport>, now: int)
    ensures var n := Settle(cfg, m, r, speaker, now).state;
      n == m.(roster := r, stop := n.stop, rejoin := n.rejoin, cancelled := n.cancelled)
  {
    var k := m.(roster := r);
    var s := m.current.streamID;
    CancelStopFrame(if s in m.stop.inFlight then RecordIntent(k, s, m.current.guildID, m.current.voiceChannelID) else k, s);
  }

  /** A participant event is ignored, or settles a new roster. */
  lemma ChangeIsSettled(cfg: Config, m: State, e: ParticipantEvent, now: int)
    ensures var o := ChangeParticipant(cfg, m, e, now);
      o == Unchanged(m) || exists r, speaker :: o == Settle(cfg, m, r, speaker, now)
  {
  }
}
