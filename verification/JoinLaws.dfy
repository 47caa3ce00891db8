/** What a member's join leads to: whether it is ignored, recorded for a rejoin, sent to a refresh or
    reserved, and what a reconciled rejoin does. */
module JoinLaws {
  import opened JobTypes
  import opened ManagerState
  import opened ManagerSystem
  import opened SystemFrames
  import RL = RosterLaws

  // ----- who is meant -----

  /** The stream is the only one that starts automatically in the channel. */
  predicate OnlyStream(defaults: map<Id, VoiceDefaults>, stream: Id, guild: Id, voice: Id) {
    stream in defaults && Starts(defaults[stream], guild, voice) && forall other :: other in defaults && Starts(defaults[other], guild, voice) ==> other == stream
  }

  predicate Starts(d: VoiceDefaults, guild: Id, voice: Id) { d.autoStart && d.guildID == guild && d.voiceChannelID == voice }

  /** The stream has the only request under way for the channel. */
  predicate OnlyRequest(flights: map<Id, InFlight>, stream: Id, guild: Id, voice: Id) {
    && stream in flights && flights[stream].job.guildID == guild && flights[stream].job.voiceChannelID == voice
    && forall other :: other in flights && flights[other].job.guildID == guild && flights[other].job.voiceChannelID == voice ==> other == stream
  }

  /** MAIN: the lookups find a stream exactly when it is the only one, and then no other. */
  lemma LookupsMean(m: State, guild: Id, voice: Id, stream: Id)
    requires stream != ""
    ensures Matching(m.start.defaults, guild, voice) == stream
      <==> guild != "" && voice != "" && OnlyStream(m.start.defaults, stream, guild, voice)
    ensures RequestFor(m.stop.inFlight, guild, voice) == stream
      <==> guild != "" && voice != "" && OnlyRequest(m.stop.inFlight, stream, guild, voice)
  {
    if OnlyStream(m.start.defaults, stream, guild, voice) { assert UniqueFor(m.start.defaults, stream, guild, voice); }
    if OnlyRequest(m.stop.inFlight, stream, guild, voice) { assert SoleRequest(m.stop.inFlight, stream, guild, voice); }
  }

  /** The event was sent under this authority, or without one where the stream has no epoch. */
  predicate SentFor(e: JoinEvent, stream: Id, epoch: Id) {
    if e.authority.Some? then e.authority.value.streamID == stream && e.authority.value.epoch == epoch else epoch == ""
  }

  // ----- the first section -----

  predicate Names(e: JoinEvent) { e.guildID != "" && e.voiceChannelID != "" && e.userID != "" }

  /** A join into the running stream's channel while its stop is being asked for. */
  predicate Overtakes(m: State, e: JoinEvent) {
    && Names(e) && !e.existing && SentFor(e, m.current.streamID, m.epoch)
    && m.current.guildID == e.guildID && m.current.voiceChannelID == e.voiceChannelID && m.current.streamID in m.stop.inFlight
  }

  /**
   * MAIN: while a stream runs a join starts nothing. A genuine one into its own channel cancels the stop
   * request under way and leaves a rejoin intent; any other is ignored.
   */
  lemma JoinWhileRunning(cfg: Config, s: System, e: JoinEvent, now: int)
    requires s.m.current.streamID != ""
    ensures var n, stream := Apply(cfg, s, JoinCall(e), now), s.m.current.streamID;
      if !Overtakes(s.m, e) then n == s
      else
        && n == s.(m := n.m) && n.m == s.m.(stop := n.m.stop, rejoin := n.m.rejoin, cancelled := n.m.cancelled)
        && stream !in n.m.stop.inFlight && stream !in n.m.stop.pending && n.m.cancelled == s.m.cancelled + {s.m.stop.inFlight[stream].context}
        && VoiceTarget(e.guildID, e.voiceChannelID) in n.m.rejoin.intents
        && n.m.rejoin.intents[VoiceTarget(e.guildID, e.voiceChannelID)].source == stream
  {
    var stream := s.m.current.streamID;
    RL.RecordingMeans(s.m, stream, e.guildID, e.voiceChannelID);
    RL.CancellingMeans(RecordIntent(s.m, stream, e.guildID, e.voiceChannelID), stream);
  }

  /** The channel's stream was just asked to stop, and no job runs. */
  predicate OwnedBy(m: State, e: JoinEvent, owner: Id) {
    m.current.streamID == "" && Names(e) && owner != "" && OnlyRequest(m.stop.inFlight, owner, e.guildID, e.voiceChannelID)
  }

  /**
   * MAIN: a join into a channel whose stream has ended but whose stop request is not answered yet starts
   * nothing; a genuine one of that stream's epoch is kept as a rejoin intent.
   */
  lemma JoinWhileStopping(cfg: Config, s: System, e: JoinEvent, owner: Id, now: int)
    requires OwnedBy(s.m, e, owner)
    ensures var n, key := Apply(cfg, s, JoinCall(e), now), VoiceTarget(e.guildID, e.voiceChannelID);
      if e.existing || !SentFor(e, owner, s.m.stop.inFlight[owner].epoch) then n == s
      else
        && n == s.(m := s.m.(rejoin := n.m.rejoin))
        && key in n.m.rejoin.intents && n.m.rejoin.intents[key].source == owner
        && (n != s ==> n.m.rejoin.intents[key] == Intent(s.m.stop.inFlight[owner].epoch, e.guildID, e.voiceChannelID, owner, s.m.rejoin.sequence + 1))
  {
    LookupsMean(s.m, e.guildID, e.voiceChannelID, owner);
    RL.RecordingMeans(s.m, owner, e.guildID, e.voiceChannelID);
  }

  /** No stream is known for the channel, and the last refresh for such a join is long enough ago. */
  ghost predicate AsksForRefresh(cfg: Config, m: State, e: JoinEvent, now: int) {
    && cfg.refresher && !(exists stream :: stream != "" && OnlyStream(m.start.defaults, stream, e.guildID, e.voiceChannelID))
    && (cfg.refreshWait > 0 && m.start.refreshAt.Some? ==> m.start.refreshAt.value + cfg.refreshWait <= now)
  }

  /** The plan is to reserve the only stream of the channel, or none. */
  ghost predicate ReservesOnly(m: State, e: JoinEvent, plan: JoinPlan) {
    plan.JoinReserve? && forall x :: x != "" ==> (plan.stream == x <==> OnlyStream(m.start.defaults, x, e.guildID, e.voiceChannelID))
  }

  /**
   * MAIN: a join in an idle manager whose channel no request claims goes on: to a refresh when no stream is
   * known for the channel and the last refresh is long enough ago, and otherwise to the reservation of
   * the only stream there, if there is one.
   */
  lemma JoinWhileIdle(cfg: Config, s: System, e: JoinEvent, now: int)
    requires s.m.current.streamID == "" && Names(e) && "" !in s.m.start.defaults
    requires forall owner :: owner != "" ==> !OnlyRequest(s.m.stop.inFlight, owner, e.guildID, e.voiceChannelID)
    ensures var n := Apply(cfg, s, JoinCall(e), now);
      && n == s.(m := n.m, next := s.next + 1, tasks := n.tasks) && s.next in n.tasks && n.tasks[s.next].JoinTask?
      && n.tasks == s.tasks[s.next := JoinTask(e, n.tasks[s.next].plan, now)]
      && (if AsksForRefresh(cfg, s.m, e, now)
          then n.tasks[s.next].plan.JoinRefresh? && n.m == s.m.(start := s.m.start.(refreshAt := Some(now)))
          else n.m == s.m && ReservesOnly(s.m, e, n.tasks[s.next].plan))
  {
    var owner, stream := RequestFor(s.m.stop.inFlight, e.guildID, e.voiceChannelID), Matching(s.m.start.defaults, e.guildID, e.voiceChannelID);
    if owner != "" { LookupsMean(s.m, e.guildID, e.voiceChannelID, owner); }
    forall x | x != "" ensures stream == x <==> OnlyStream(s.m.start.defaults, x, e.guildID, e.voiceChannelID) {
      LookupsMean(s.m, e.guildID, e.voiceChannelID, x);
    }
    if stream != "" { assert OnlyStream(s.m.start.defaults, stream, e.guildID, e.voiceChannelID); }
    assert owner == "";
    var b := BeginJoin(cfg, s.m, e, now);
    assert b.plan.JoinRefresh? <==> AsksForRefresh(cfg, s.m, e, now);
  }

  // ----- the reserving section -----

  /** The last start of the stream is long enough ago, or its fence falls with this join. */
  predicate MayStart(cfg: Config, m: State, stream: Id, now: int) {
    stream in m.start.stopped || (stream in m.start.pending ==> m.start.pending[stream] + cfg.startCooldown <= now)
  }

  predicate Reserves(cfg: Config, m: State, e: JoinEvent, stream: Id, now: int) {
    && stream != "" && m.starter && stream !in m.start.retries && MayStart(cfg, m, stream, now)
    && SentFor(e, stream, if stream in m.start.defaults then m.start.defaults[stream].epoch else "")
    && (stream in m.start.stopped ==> !e.existing)
  }

  /** The stream that a join task is about to reserve; a refreshed join looks again. */
  ghost predicate About(m: State, t: Task, answer: Answer, stream: Id)
    requires t.JoinTask?
  {
    match t.plan
    case JoinDone => false
    case JoinReserve(chosen) => chosen == stream
    case JoinRefresh =>
      !answer.Failed? && m.current.streamID == "" && t.event.guildID != "" && t.event.voiceChannelID != ""
      && OnlyStream(m.start.defaults, stream, t.event.guildID, t.event.voiceChannelID)
  }

  /**
   * MAIN: a join reserves its stream exactly when it may: starts are possible, it was sent for the projected
   * epoch, the stream has no reservation, its cooldown is over or its fence falls, and a fence falls only
   * to a genuine join. Then the stream has one reservation and one task, its cooldown starts, and its
   * fence is gone.
   */
  lemma ReservesExactly(cfg: Config, s: System, id: nat, answer: Answer, now: int, stream: Id)
    requires Numbered(s) && id in s.tasks && s.tasks[id].JoinTask? && stream != "" && About(s.m, s.tasks[id], answer, stream)
    ensures var n, t := Apply(cfg, s, Run(id, answer), now), s.tasks[id];
      if Reserves(cfg, s.m, t.event, stream, t.at)
      then
        && s.next in n.tasks && n.tasks[s.next].StartTask? && n.tasks[s.next].stream == stream
        && n.tasks == (s.tasks - {id})[s.next := StartTask(stream, n.tasks[s.next].r, 0, StartChecking)]
        && n.m.start.retries == s.m.start.retries[stream := n.tasks[s.next].r]
        && stream in n.m.start.pending && n.m.start.pending[stream] == t.at && stream !in n.m.start.stopped
      else n.m.start.retries == s.m.start.retries && n.tasks == s.tasks - {id} && n.trace == s.trace
  {
    var t := s.tasks[id];
    ReservesAbout(cfg, s, id, t, answer, stream);
    ReserveMeans(cfg, s.m, t.event, stream, t.at);
    ReservingMeans(s, id, t.event, stream, Reserve(cfg, s.m, t.event, stream, t.at));
  }

  lemma ReservesAbout(cfg: Config, s: System, id: nat, t: Task, answer: Answer, stream: Id)
    requires t.JoinTask? && stream != "" && About(s.m, t, answer, stream)
    ensures RunJoin(cfg, s, id, t, answer) == Reserving(End(s, id), t.event, stream, Reserve(cfg, s.m, t.event, stream, t.at))
  {
    LookupsMean(s.m, t.event.guildID, t.event.voiceChannelID, stream);
  }

  lemma ReservingMeans(s: System, id: nat, e: JoinEvent, stream: Id, r: Reserved)
    requires Numbered(s)
    ensures var n := Reserving(End(s, id), e, stream, r);
      && n.m == r.state
      && (if r.reservation.Some? then n.tasks == (s.tasks - {id})[s.next := StartTask(stream, r.reservation.value, 0, StartChecking)]
          else n.tasks == s.tasks - {id} && n.trace == s.trace)
  {
  }

  lemma ReserveMeans(cfg: Config, m: State, e: JoinEvent, stream: Id, now: int)
    requires stream != ""
    ensures var n := Reserve(cfg, m, e, stream, now);
      && (n.reservation.Some? <==> Reserves(cfg, m, e, stream, now))
      && n.state.start.pending - {stream} == m.start.pending - {stream} && n.state.start.stopped - {stream} == m.start.stopped - {stream}
      && (n.reservation.None? ==> n.state.start.retries == m.start.retries)
      && (n.reservation.Some? ==>
            && n.state.start.retries == m.start.retries[stream := n.reservation.value]
            && stream in n.state.start.pending && n.state.start.pending[stream] == now && stream !in n.state.start.stopped)
  {
  }

  // ----- rejoin -----

  /** The intent the task has read is recorded unchanged, and the second lookup meets it. */
  predicate Confirmed(m: State, t: Task, answer: Answer)
    requires t.ReconcileTask? && t.rejoinPhase.RejoinDeciding?
  {
    var key, seen := t.rejoinPhase.key, t.rejoinPhase.seen;
    && key in m.rejoin.intents && m.rejoin.intents[key].source == t.stream && m.rejoin.intents[key].sequence == seen.sequence
    && (answer.Chosen? && answer.key in m.rejoin.intents && m.rejoin.intents[answer.key].source == t.stream ==> answer.key == key)
  }

  /** The stream may be started again where the intent was left. */
  predicate MayRejoin(m: State, t: Task)
    requires t.ReconcileTask? && t.rejoinPhase.RejoinDeciding?
  {
    var seen := t.rejoinPhase.seen;
    && m.starter && t.stream != "" && seen.guildID != "" && seen.voiceChannelID != ""
    && OnlyStream(m.start.defaults, t.stream, seen.guildID, seen.voiceChannelID) && m.start.defaults[t.stream].epoch == seen.epoch
  }

  /** The reconciliation tries again after its next delay, if one is left. */
  predicate TriesAgain(cfg: Config, s: System, n: System, id: nat, t: Task)
    requires t.ReconcileTask?
  {
    n == s.(tasks := s.tasks[id := t.(round := t.round + 1,
                                      rejoinPhase := if t.round + 1 < cfg.rejoinDelays then RejoinPolling else RejoinExhausted)])
  }

  /**
   * MAIN: the deciding step of a reconciliation. An intent that has changed ends it. While the stream's own
   * job runs the intent is kept for the next round, and while another stream's job runs it is dropped.
   * With no job the intent is consumed, the fence lifted and one genuine join sent, if the stream may
   * start there under the intent's epoch, and kept for the next round otherwise.
   */
  lemma RejoinDecidesExactly(cfg: Config, s: System, id: nat, answer: Answer, now: int)
    requires Numbered(s) && id in s.tasks && s.tasks[id].ReconcileTask? && s.tasks[id].rejoinPhase.RejoinDeciding?
    requires !(answer.Failed? && cfg.refresher) && s.tasks[id].stream != ""
    ensures var n, t := Apply(cfg, s, Run(id, answer), now), s.tasks[id];
      var key, seen := t.rejoinPhase.key, t.rejoinPhase.seen;
      var ending, without := t.(rejoinPhase := RejoinEnding), s.m.rejoin.(intents := s.m.rejoin.intents - {key});
      if !Confirmed(s.m, t, answer) then n == s.(tasks := s.tasks[id := ending])
      else if s.m.current.streamID == t.stream then TriesAgain(cfg, s, n, id, t)
      else if s.m.current.streamID != "" then n == s.(tasks := s.tasks[id := ending], m := s.m.(rejoin := without))
      else if MayRejoin(s.m, t)
      then
        && n.m == s.m.(rejoin := without, start := s.m.start.(stopped := s.m.start.stopped - {t.stream}))
        && n.trace == s.trace + [IntentConsumed(t.stream, seen)]
        && n.tasks == s.tasks[id := ending][s.next := JoinBeginTask(JoinEvent(
             seen.guildID, seen.voiceChannelID, "retained-rejoin", false, Some(Authority(t.stream, seen.epoch))))]
      else TriesAgain(cfg, s, n, id, t)
  {
    var t := s.tasks[id];
    LookupsMean(s.m, t.rejoinPhase.seen.guildID, t.rejoinPhase.seen.voiceChannelID, t.stream);
    DecisionMeans(s.m, t, answer);
  }

  lemma DecisionMeans(m: State, t: Task, answer: Answer)
    requires t.ReconcileTask? && t.rejoinPhase.RejoinDeciding? && t.stream != ""
    ensures var key, seen := t.rejoinPhase.key, t.rejoinPhase.seen;
      var d := DecideRejoin(m, t.stream, Looked(m, t.stream, key, answer), key, seen);
      var without := m.rejoin.(intents := m.rejoin.intents - {key});
      if !Confirmed(m, t, answer) then d == RejoinDecided(m, RejoinStop)
      else if m.current.streamID == t.stream then d == RejoinDecided(m, RejoinAgain)
      else if m.current.streamID != "" then d == RejoinDecided(m.(rejoin := without), RejoinStop)
      else if MayRejoin(m, t) then
        d == RejoinDecided(m.(rejoin := without, start := m.start.(stopped := m.start.stopped - {t.stream})),
          RejoinJoin(JoinEvent(seen.guildID, seen.voiceChannelID, "retained-rejoin", false, Some(Authority(t.stream, seen.epoch)))))
      else d == RejoinDecided(m, RejoinAgain)
  {
    LookupsMean(m, t.rejoinPhase.seen.guildID, t.rejoinPhase.seen.voiceChannelID, t.stream);
  }

  /** MAIN: a reconciliation runs once per stream and only for an intent, drops the intent when its delays are
      used up, and frees the stream for the next one when it ends. */
  lemma ReconciliationMeans(cfg: Config, s: System, id: nat, answer: Answer, now: int)
    requires id in s.tasks && s.tasks[id].ReconcileTask? && !s.tasks[id].rejoinPhase.RejoinDeciding?
    ensures var n, t := Apply(cfg, s, Run(id, answer), now), s.tasks[id];
      var intended := exists key :: key in s.m.rejoin.intents && s.m.rejoin.intents[key].source == t.stream;
      var met := answer.Chosen? && answer.key in s.m.rejoin.intents && s.m.rejoin.intents[answer.key].source == t.stream;
      match t.rejoinPhase
      case RejoinScheduling =>
        if intended && t.stream !in s.m.rejoin.running
        then id in n.tasks && n.m == s.m.(rejoin := s.m.rejoin.(running := s.m.rejoin.running + {t.stream}))
          && n.tasks[id] == t.(rejoinPhase := if cfg.rejoinDelays > 0 then RejoinPolling else RejoinExhausted)
        else n == s.(tasks := s.tasks - {id})
      case RejoinPolling =>
        n.m == s.m && id in n.tasks
        && n.tasks[id] == (if !intended then t.(rejoinPhase := RejoinEnding)
                           else if met then t.(rejoinPhase := RejoinDeciding(answer.key, s.m.rejoin.intents[answer.key])) else t)
      case RejoinExhausted =>
        && id in n.tasks && n.tasks[id] == (if intended && !met then t else t.(rejoinPhase := RejoinEnding))
        && n.m == (if met then s.m.(rejoin := s.m.rejoin.(intents := s.m.rejoin.intents - {answer.key})) else s.m)
      case RejoinEnding =>
        n == s.(tasks := s.tasks - {id}, m := s.m.(rejoin := s.m.rejoin.(running := s.m.rejoin.running - {t.stream})))
      case _ => true
  {
  }
}
