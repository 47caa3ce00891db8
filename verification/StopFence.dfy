/** The fence that Stop leaves behind, over whole runs: presence alone never restarts a stopped
    stream. */
module StopFence {
  import opened JobTypes
  import opened ManagerState
  import opened ManagerSystem
  import opened SystemFrames

  /** The three things that may lift the fence of a stopped stream. */
  ghost predicate LiftedBy(s: System, e: Event, stream: Id) {
    || (e.ProjectCall? && stream in s.m.start.stopped && Lifts(Projected(e.incoming), stream, s.m.start.stopped[stream]))
    || (e.Run? && e.task in s.tasks && GenuineJoin(s, s.tasks[e.task], stream))
    || (e.Run? && e.task in s.tasks && Rejoins(s, s.tasks[e.task], e.answer, stream))
  }

  /** The task reserves the stream for a member who has just joined. */
  ghost predicate GenuineJoin(s: System, t: Task, stream: Id) {
    t.JoinTask? && !t.event.existing
    && (t.plan == JoinReserve(stream)
        || (t.plan.JoinRefresh? && Matching(s.m.start.defaults, t.event.guildID, t.event.voiceChannelID) == stream))
  }

  /** The task consumes a rejoin intent of the stream. */
  ghost predicate Rejoins(s: System, t: Task, answer: Answer, stream: Id) {
    t.ReconcileTask? && t.rejoinPhase.RejoinDeciding? && t.stream == stream
    && var key := t.rejoinPhase.key;
      DecideRejoin(s.m, stream, Looked(s.m, stream, key, answer), key, t.rejoinPhase.seen).plan.RejoinJoin?
  }

  /** The step from s to n reserved the stream. */
  predicate JustReserved(s: System, n: System, stream: Id) {
    |n.trace| > |s.trace| && n.trace[|s.trace|].StartReserved? && n.trace[|s.trace|].stream == stream
  }

  predicate Kept(s: System, n: System, stream: Id) {
    stream in n.m.start.stopped && !JustReserved(s, n, stream)
  }

  lemma StopTaskKeeps(cfg: Config, s: System, id: nat, t: Task, answer: Answer, now: int, stream: Id)
    requires t.StopTask? && stream in s.m.start.stopped
    ensures Kept(s, RunStop(cfg, s, id, t, answer, now), stream)
  {
    if t.stopPhase.StopSyncing? {
      var p := t.stopPhase;
      var o := SyncOptions(true, p.reconnect, true, true, p.revision);
      SyncLeavesFences(cfg, s.m, p.snapshot, o, now);
      FinishKeeps(Become(s, id, t.(stopPhase := StopCancelling(p.job, p.reconnect))), SyncParticipants(cfg, s.m, p.snapshot, o, now), stream);
    } else {
      StopFrame(cfg, s, id, t, answer, now);
    }
  }

  lemma ReconcileKeeps(cfg: Config, s: System, id: nat, t: Task, answer: Answer, stream: Id)
    requires t.ReconcileTask? && stream in s.m.start.stopped && !Rejoins(s, t, answer, stream)
    ensures Kept(s, RunReconcile(cfg, s, id, t, answer), stream)
  {
    ReconcileFrame(cfg, s, id, t, answer);
    if t.rejoinPhase.RejoinDeciding? {
      DecidingKeeps(cfg, s, id, t, answer, stream);
    } else {
      PollingKeeps(cfg, s, id, t, answer, stream);
    }
  }

  lemma DecidingKeeps(cfg: Config, s: System, id: nat, t: Task, answer: Answer, stream: Id)
    requires t.ReconcileTask? && t.rejoinPhase.RejoinDeciding? && stream in s.m.start.stopped && !Rejoins(s, t, answer, stream)
    ensures stream in RunReconcile(cfg, s, id, t, answer).m.start.stopped
  {
    var key := t.rejoinPhase.key;
    DecidingLeavesFence(s.m, t.stream, Looked(s.m, t.stream, key, answer), key, t.rejoinPhase.seen, stream);
  }

  lemma PollingKeeps(cfg: Config, s: System, id: nat, t: Task, answer: Answer, stream: Id)
    requires t.ReconcileTask? && !t.rejoinPhase.RejoinDeciding? && stream in s.m.start.stopped
    ensures stream in RunReconcile(cfg, s, id, t, answer).m.start.stopped
  {
  }

  lemma DecidingLeavesFence(m: State, source: Id, looked: VoiceTarget, key: VoiceTarget, seen: Intent, stream: Id)
    requires stream in m.start.stopped
    requires source == stream ==> !DecideRejoin(m, source, looked, key, seen).plan.RejoinJoin?
    ensures stream in DecideRejoin(m, source, looked, key, seen).state.start.stopped
  {
  }

  /** Reserving lifts no fence but that of the reserved stream, and not for a member who was there before. */
  lemma ReserveKeepsFence(cfg: Config, m: State, e: JoinEvent, chosen: Id, now: int, stream: Id)
    requires stream in m.start.stopped && (chosen != stream || e.existing)
    ensures var r := Reserve(cfg, m, e, chosen, now);
      stream in r.state.start.stopped && (r.reservation.Some? ==> chosen != stream)
  {
  }

  lemma ReservingKeeps(s: System, k: System, e: JoinEvent, chosen: Id, r: Reserved, stream: Id)
    requires k.trace == s.trace && stream in r.state.start.stopped && (r.reservation.Some? ==> chosen != stream)
    ensures Kept(s, Reserving(k, e, chosen, r), stream)
  {
  }

  lemma JoinKeeps(cfg: Config, s: System, id: nat, t: Task, answer: Answer, stream: Id)
    requires t.JoinTask? && stream in s.m.start.stopped && !GenuineJoin(s, t, stream)
    ensures Kept(s, RunJoin(cfg, s, id, t, answer), stream)
  {
    var n, e := End(s, id), t.event;
    match t.plan
    case JoinDone =>
    case JoinReserve(chosen) =>
      ReserveKeepsFence(cfg, s.m, e, chosen, t.at, stream);
      ReservingKeeps(s, n, e, chosen, Reserve(cfg, s.m, e, chosen, t.at), stream);
    case JoinRefresh =>
      var chosen := Matching(s.m.start.defaults, e.guildID, e.voiceChannelID);
      ReserveKeepsFence(cfg, s.m, e, chosen, t.at, stream);
      ReservingKeeps(s, n, e, chosen, ReserveRefreshed(cfg, s.m, e, t.at), stream);
  }

  lemma OtherTaskKeeps(cfg: Config, s: System, id: nat, answer: Answer, now: int, stream: Id)
    requires id in s.tasks && stream in s.m.start.stopped
    requires var t := s.tasks[id]; t.ReportTask? || t.SpeakerTask? || t.PublishTask? || t.VoiceTask? || t.StartJobTask? || t.LeaveTask?
    ensures Kept(s, RunTask(cfg, s, id, answer, now), stream)
  {
  }

  lemma TaskKeeps(cfg: Config, s: System, id: nat, answer: Answer, now: int, stream: Id)
    requires id in s.tasks && stream in s.m.start.stopped && !LiftedBy(s, Run(id, answer), stream)
    ensures Kept(s, RunTask(cfg, s, id, answer, now), stream)
  {
    var t := s.tasks[id];
    match t
    case StopTask(_, _, _, _) => StopTaskKeeps(cfg, s, id, t, answer, now, stream);
    case StartTask(_, _, _, _) => StartFrame(cfg, s, id, t, answer);
    case ReconcileTask(_, _, _) => ReconcileKeeps(cfg, s, id, t, answer, stream);
    case JoinTask(_, _, _) => JoinKeeps(cfg, s, id, t, answer, stream);
    case JoinBeginTask(e) => BeginJoinFrame(cfg, s.m, e, now);
    case _ => OtherTaskKeeps(cfg, s, id, answer, now, stream);
  }

  /** One step: a fenced stream stays fenced and is not reserved, unless a member has really joined,
      the stream is projected with another epoch or channel, or its rejoin is reconciled. */
  lemma FenceHoldsStep(cfg: Config, s: System, e: Event, now: int, stream: Id)
    requires stream in s.m.start.stopped && !LiftedBy(s, e, stream)
    ensures Kept(s, Apply(cfg, s, e, now), stream)
  {
    match e
    case Run(id, answer) => if id in s.tasks { TaskKeeps(cfg, s, id, answer, now, stream); }
    case ParticipantCall(_) => RosterCallKeeps(cfg, s, e, now, stream);
    case SyncCall(_, _) => RosterCallKeeps(cfg, s, e, now, stream);
    case SpeakerCall(_, _, _, _) => RosterCallKeeps(cfg, s, e, now, stream);
    case ClearCall(_) => RosterCallKeeps(cfg, s, e, now, stream);
    case JoinCall(j) => BeginJoinFrame(cfg, s.m, j, now);
    case ProjectCall(incoming) => ProjectKeeps(s.m, incoming, stream);
    case _ => CallKeeps(cfg, s, e, now, stream);
  }

  lemma ProjectKeeps(m: State, incoming: map<Id, VoiceDefaults>, stream: Id)
    requires stream in m.start.stopped && !Lifts(Projected(incoming), stream, m.start.stopped[stream])
    ensures stream in Project(m, incoming).start.stopped
  {
  }

  /** Settling a roster leaves the fences alone, and no roster event observes a reservation. */
  lemma RosterCallKeeps(cfg: Config, s: System, e: Event, now: int, stream: Id)
    requires stream in s.m.start.stopped && (e.ParticipantCall? || e.SyncCall? || e.SpeakerCall? || e.ClearCall?)
    ensures Kept(s, Apply(cfg, s, e, now), stream)
  {
    match e
    case ParticipantCall(p) => ChangeLeavesFences(cfg, s.m, p, now); FinishKeeps(s, ChangeParticipant(cfg, s.m, p, now), stream);
    case SyncCall(w, o) => SyncLeavesFences(cfg, s.m, w, o, now); FinishKeeps(s, SyncParticipants(cfg, s.m, w, o, now), stream);
    case SpeakerCall(x, u, b, k) => FinishKeeps(s, SetSpeaker(s.m, x, u, b, k), stream);
    case ClearCall(x) => FinishKeeps(s, ClearSpeakers(s.m, x), stream);
  }

  lemma FinishKeeps(s: System, o: Outcome, stream: Id)
    requires stream in s.m.start.stopped && o.state.start == s.m.start
    ensures Kept(s, Finish(s, s.m.current.streamID, o), stream)
  {
  }

  lemma ChangeLeavesFences(cfg: Config, m: State, e: ParticipantEvent, now: int)
    ensures ChangeParticipant(cfg, m, e, now).state.start == m.start
  {
    ChangeIsSettled(cfg, m, e, now);
    if r, speaker :| ChangeParticipant(cfg, m, e, now) == Settle(cfg, m, r, speaker, now) {
      SettleFrame(cfg, m, r, speaker, now);
    }
  }

  lemma SyncLeavesFences(cfg: Config, m: State, w: Snapshot, o: SyncOptions, now: int)
    ensures SyncParticipants(cfg, m, w, o, now).state.start == m.start
  {
    SettleFrame(cfg, m, Replaced(m.roster, w, now), None, now);
  }

  lemma CallKeeps(cfg: Config, s: System, e: Event, now: int, stream: Id)
    requires stream in s.m.start.stopped
    requires e.StartCall? || e.StopCall? || e.ConnectedCall? || e.DisconnectedCall? || e.ExecutingCall? || e.StopperCall? || e.StarterCall? || e.RetryCall?
    ensures Kept(s, Apply(cfg, s, e, now), stream)
  {
    match e
    case StartCall(_) => StartCallKeeps(cfg, s, e, now, stream);
    case RetryCall(_, _, _, _) => RetryCallKeeps(cfg, s, e, now, stream);
    case StopCall(_) => StopCallKeeps(cfg, s, e, now, stream);
    case DisconnectedCall(_) => DisconnectedCallKeeps(cfg, s, e, now, stream);
    case _ =>
  }

  lemma DisconnectedCallKeeps(cfg: Config, s: System, e: Event, now: int, stream: Id)
    requires stream in s.m.start.stopped && e.DisconnectedCall?
    ensures Kept(s, Apply(cfg, s, e, now), stream)
  {
  }

  lemma StopCallKeeps(cfg: Config, s: System, e: Event, now: int, stream: Id)
    requires stream in s.m.start.stopped && e.StopCall?
    ensures Kept(s, Apply(cfg, s, e, now), stream)
  {
  }

  lemma StartCallKeeps(cfg: Config, s: System, e: Event, now: int, stream: Id)
    requires stream in s.m.start.stopped && e.StartCall?
    ensures Kept(s, Apply(cfg, s, e, now), stream)
  {
    CancelStopFrame(s.m, e.job.streamID);
  }

  lemma RetryCallKeeps(cfg: Config, s: System, e: Event, now: int, stream: Id)
    requires stream in s.m.start.stopped && e.RetryCall?
    ensures Kept(s, Apply(cfg, s, e, now), stream)
  {
  }

  /** No event of a run lifts the stream's fence. */
  ghost predicate NeverLifted(cfg: Config, s: System, run: seq<Timed>, stream: Id) {
    forall k :: 0 <= k < |run| ==> !LiftedBy(Execute(cfg, s, run[..k]), run[k].event, stream)
  }

  /** The k-th step of a run reserves the stream. */
  ghost predicate ReservedAt(cfg: Config, s: System, run: seq<Timed>, k: nat, stream: Id)
    requires k < |run|
  {
    JustReserved(Execute(cfg, s, run[..k]), Execute(cfg, s, run[..k + 1]), stream)
  }

  ghost predicate NeverReserved(cfg: Config, s: System, run: seq<Timed>, stream: Id) {
    forall k: nat :: k < |run| ==> !ReservedAt(cfg, s, run, k, stream)
  }

  lemma FrontNeverLifted(cfg: Config, s: System, run: seq<Timed>, stream: Id)
    requires run != [] && NeverLifted(cfg, s, run, stream)
    ensures NeverLifted(cfg, s, run[..|run| - 1], stream)
    ensures !LiftedBy(Execute(cfg, s, run[..|run| - 1]), run[|run| - 1].event, stream)
  {
    var front := run[..|run| - 1];
    forall k | 0 <= k < |front| ensures !LiftedBy(Execute(cfg, s, front[..k]), front[k].event, stream) {
      assert run[..k] == front[..k];
    }
  }

  lemma ReservedInFront(cfg: Config, s: System, run: seq<Timed>, k: nat, stream: Id)
    requires k < |run| - 1
    ensures ReservedAt(cfg, s, run, k, stream) == ReservedAt(cfg, s, run[..|run| - 1], k, stream)
  {
    var front := run[..|run| - 1];
    assert run[..k] == front[..k] && run[..k + 1] == front[..k + 1];
  }

  lemma ReservedLast(cfg: Config, s: System, run: seq<Timed>, stream: Id)
    requires run != []
    ensures ReservedAt(cfg, s, run, |run| - 1, stream)
      <==> JustReserved(Execute(cfg, s, run[..|run| - 1]), Execute(cfg, s, run), stream)
  {
    assert run[..|run|] == run;
  }

  lemma NeverReservedGrows(cfg: Config, s: System, run: seq<Timed>, stream: Id)
    requires run != [] && NeverReserved(cfg, s, run[..|run| - 1], stream)
    requires !JustReserved(Execute(cfg, s, run[..|run| - 1]), Execute(cfg, s, run), stream)
    ensures NeverReserved(cfg, s, run, stream)
  {
    forall k: nat | k < |run| ensures !ReservedAt(cfg, s, run, k, stream) {
      if k < |run| - 1 {
        ReservedInFront(cfg, s, run, k, stream);
      } else {
        ReservedLast(cfg, s, run, stream);
      }
    }
  }

  /** MAIN: from any state in which the stream is fenced, over every run without a genuine join, a
      changed projection or a reconciled rejoin, the fence stands and no step reserves the stream. */
  lemma {:induction false} FenceHolds(cfg: Config, s: System, run: seq<Timed>, stream: Id)
    requires stream in s.m.start.stopped && NeverLifted(cfg, s, run, stream)
    ensures stream in Execute(cfg, s, run).m.start.stopped && NeverReserved(cfg, s, run, stream)
  {
    if run != [] {
      FrontNeverLifted(cfg, s, run, stream);
      FenceHolds(cfg, s, run[..|run| - 1], stream);
      FenceHoldsStep(cfg, Execute(cfg, s, run[..|run| - 1]), run[|run| - 1].event, run[|run| - 1].now, stream);
      NeverReservedGrows(cfg, s, run, stream);
    }
  }

  /** The event is neither a projection nor a reconciled rejoin, and a join it makes is of a member already there. */
  predicate PresenceOnly(s: System, e: Event) {
    !e.ProjectCall? && (e.Run? && e.task in s.tasks ==> !s.tasks[e.task].ReconcileTask? && (s.tasks[e.task].JoinTask? ==> s.tasks[e.task].event.existing))
  }

  /** MAIN: presence alone never restarts a stopped stream, over every run of anything but projections,
      rejoins and genuine joins. */
  lemma PresenceAloneNeverRestarts(cfg: Config, s: System, run: seq<Timed>, stream: Id)
    requires stream in s.m.start.stopped && forall k :: 0 <= k < |run| ==> PresenceOnly(Execute(cfg, s, run[..k]), run[k].event)
    ensures stream in Execute(cfg, s, run).m.start.stopped && NeverReserved(cfg, s, run, stream)
  {
    forall k | 0 <= k < |run| ensures !LiftedBy(Execute(cfg, s, run[..k]), run[k].event, stream) {
      assert PresenceOnly(Execute(cfg, s, run[..k]), run[k].event);
    }
    FenceHolds(cfg, s, run, stream);
  }
}
