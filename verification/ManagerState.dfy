/** The state behind Manager.mu and, for every critical section of the job manager, the state
    that section leaves behind together with the local values the goroutine carries out of it. */
module ManagerState {
  import opened JobTypes

  datatype Roster = Roster(
    participants: map<Id, Participant>, speakers: set<Id>, snapshotRevision: nat, revision: nat)

  datatype AutoStop = AutoStop(
    pending: set<Id>, generation: map<Id, nat>, attempts: map<Id, nat>,
    inFlight: map<Id, InFlight>, lastAttempt: map<Id, int>)

  datatype Rejoin = Rejoin(intents: map<VoiceTarget, Intent>, sequence: nat, running: set<Id>)

  datatype AutoStart = AutoStart(
    defaults: map<Id, VoiceDefaults>, retained: map<Id, VoiceDefaults>,
    executing: Option<set<Id>>, pending: map<Id, int>, stopped: map<Id, VoiceDefaults>,
    retries: map<Id, Reservation>, refreshAt: Option<int>)

  /** `minted` hands out identities of queues, reservations and contexts; `cancelled` are the
      contexts whose cancel function has been called. */
  datatype State = State(
    current: VoiceJob, epoch: Id, stopping: bool, disconnected: bool, generation: nat,
    queue: Option<nat>, stopper: bool, starter: bool,
    roster: Roster, stop: AutoStop, rejoin: Rejoin, start: AutoStart,
    minted: nat, cancelled: set<nat>)

  datatype Config = Config(
    stopRetryDelays: nat, startRetryDelays: nat, rejoinDelays: nat, voiceAttempts: nat,
    stopCooldown: int, startCooldown: int, refreshWait: int,
    snapshotSource: bool, presenceSource: bool, refresher: bool)

  const INITIAL := State(NO_JOB, "", false, false, 0, None, false, false,
    Roster(map[], {}, 0, 0), AutoStop({}, map[], map[], map[], map[]), Rejoin(map[], 0, {}),
    AutoStart(map[], map[], None, map[], map[], map[], None), 0, {})

  predicate Paused(m: State) { m.stopping || m.disconnected }

  /** What participantsSnapshotLocked publishes: every participant with its speaking flag. */
  function View(r: Roster): map<Id, Row> {
    map u | u in r.participants :: Row(r.participants[u], u in r.speakers)
  }

  // ----- auto-stop -----

  function Invalidate(st: AutoStop, stream: Id): AutoStop {
    if stream == "" then st
    else st.(generation := st.generation[stream := Count(st.generation, stream) + 1],
             pending := st.pending - {stream},
             attempts := st.attempts - {stream},
             lastAttempt := st.lastAttempt - {stream})
  }

  /** cancelAutoStopLocked: unlike Invalidate, this one cancels and forgets the request. */
  function CancelStop(m: State, stream: Id): State {
    if stream == "" then m
    else if stream in m.stop.inFlight then
      m.(cancelled := m.cancelled + {m.stop.inFlight[stream].context},
         stop := Invalidate(m.stop.(inFlight := m.stop.inFlight - {stream}), stream))
    else m.(stop := Invalidate(m.stop, stream))
  }

  function ClearInFlight(m: State, stream: Id, generation: nat): State {
    if stream in m.stop.inFlight && m.stop.inFlight[stream].generation == generation then
      m.(cancelled := m.cancelled + {m.stop.inFlight[stream].context},
         stop := m.stop.(inFlight := m.stop.inFlight - {stream}))
    else m
  }

  function FinishStop(m: State, stream: Id, generation: nat): State {
    var c := ClearInFlight(m, stream, generation);
    if Count(c.stop.generation, stream) != generation then c
    else c.(stop := c.stop.(pending := c.stop.pending - {stream}, attempts := c.stop.attempts - {stream}))
  }

  predicate StopValid(m: State, stream: Id, generation: nat) {
    && Count(m.stop.generation, stream) == generation
    && stream in m.stop.pending
    && m.current.streamID == stream
    && m.roster.participants == map[]
    && m.stopper
  }

  predicate StopValidForJob(m: State, stream: Id, generation: nat, job: VoiceJob, reconnect: nat) {
    && StopValid(m, stream, generation)
    && m.generation == reconnect
    && SameJob(m.current, job)
  }

  /** recordAutoStopRejoinIntentLocked. */
  function RecordIntent(m: State, source: Id, guild: Id, voice: Id): State {
    var key := VoiceTarget(guild, voice);
    if source == "" || guild == "" || voice == "" then m
    else if key in m.rejoin.intents && m.rejoin.intents[key].source == source then m
    else
      var epoch := if source in m.stop.inFlight then m.stop.inFlight[source].epoch else m.epoch;
      var sequence := m.rejoin.sequence + 1;
      m.(rejoin := m.rejoin.(sequence := sequence,
           intents := m.rejoin.intents[key := Intent(epoch, guild, voice, source, sequence)]))
  }

  /** updateAutoStopForParticipantSetLocked; `armed` is the generation of a scheduled auto-stop. */
  datatype Armed = Armed(state: State, generation: Option<nat>)

  function UpdateStop(cfg: Config, m: State, now: int): Armed {
    var s := m.current.streamID;
    if m.roster.participants != map[] then
      var r := if s in m.stop.inFlight
               then RecordIntent(m, s, m.current.guildID, m.current.voiceChannelID) else m;
      Armed(CancelStop(r, s), None)
    else if !m.stopper then Armed(m, None)
    else if s in m.stop.pending || (s in m.stop.lastAttempt && now - m.stop.lastAttempt[s] < cfg.stopCooldown) then
      Armed(m, None)
    else
      var g := Count(m.stop.generation, s) + 1;
      Armed(m.(stop := m.stop.(pending := m.stop.pending + {s},
                               generation := m.stop.generation[s := g],
                               attempts := m.stop.attempts[s := 0])), Some(g))
  }

  /** The lock-held dispatch decision of autoStopWhenEmpty. */
  function IssueStop(m: State, stream: Id, generation: nat, job: VoiceJob, reconnect: nat, now: int): Option<State> {
    if !StopValidForJob(m, stream, generation, job, reconnect) then None
    else Some(m.(minted := m.minted + 1,
                 stop := m.stop.(lastAttempt := m.stop.lastAttempt[stream := now],
                                 inFlight := m.stop.inFlight[stream := InFlight(m.epoch, generation, m.minted, m.current)])))
  }

  predicate HasIntent(m: State, stream: Id) {
    exists key :: key in m.rejoin.intents && m.rejoin.intents[key].source == stream
  }

  datatype Completed = Completed(state: State, valid: bool, reconcile: bool)

  function CompleteStop(m: State, stream: Id, generation: nat): Completed {
    var c := ClearInFlight(m, stream, generation);
    var valid := StopValid(c, stream, generation);
    Completed(c, valid, !valid && HasIntent(c, stream))
  }

  /** scheduleAutoStopRetry for a retryable failure: the new state and whether a timer starts. */
  datatype Retried = Retried(state: State, scheduled: bool)

  function RetryStop(cfg: Config, m: State, stream: Id, generation: nat): Retried {
    if !StopValid(m, stream, generation) then Retried(m, false)
    else if Count(m.stop.attempts, stream) >= cfg.stopRetryDelays then Retried(FinishStop(m, stream, generation), false)
    else Retried(m.(stop := m.stop.(attempts := m.stop.attempts[stream := Count(m.stop.attempts, stream) + 1])), true)
  }

  // ----- participants and speakers -----

  /** The arguments of one pending reportParticipantsIfCurrent call. */
  datatype Report = Report(job: VoiceJob, rows: map<Id, Row>, revision: nat, generation: nat)

  /** The arguments of one pending reportActiveSpeakerIfCurrent call. */
  datatype SpeakerReport = SpeakerReport(job: VoiceJob, userID: Id, speaking: bool, revision: nat, generation: nat)

  /** What a participant or speaker critical section hands to its goroutine. */
  datatype Outcome = Outcome(state: State, report: Option<Report>, speaker: Option<SpeakerReport>, armed: Option<nat>)

  function Unchanged(m: State): Outcome { Outcome(m, None, None, None) }

  function ReportOf(m: State): Report { Report(m.current, View(m.roster), m.roster.revision, m.generation) }

  function Merged(known: map<Id, Participant>, u: Member, now: int): Participant {
    if u.userID in known then
      var e := known[u.userID];
      Participant(u.userID, if u.username == "" then e.username else u.username,
                  if u.avatarURL == "" then e.avatarURL else u.avatarURL, u.isBot || e.isBot, e.joinedAt)
    else Participant(u.userID, u.username, u.avatarURL, u.isBot, now)
  }

  /** The common end of both participant sections: install the roster, report it, apply the policy. */
  function Settle(cfg: Config, m: State, r: Roster, speaker: Option<SpeakerReport>, now: int): Outcome {
    var n := m.(roster := r);
    var a := UpdateStop(cfg, n, now);
    Outcome(a.state, Some(ReportOf(n)), speaker, a.generation)
  }

  function ChangeParticipant(cfg: Config, m: State, e: ParticipantEvent, now: int): Outcome {
    if e.userID == "" || Paused(m) || m.current.streamID == "" || e.streamID != m.current.streamID then Unchanged(m)
    else
      var member := Member(e.userID, e.username, e.avatarURL, e.isBot);
      var r := m.roster.(
        participants := if e.present then m.roster.participants[e.userID := Merged(m.roster.participants, member, now)]
                        else m.roster.participants - {e.userID},
        speakers := if e.present then m.roster.speakers else m.roster.speakers - {e.userID},
        revision := m.roster.revision + 1);
      var speaker := if !e.present && e.userID in m.roster.speakers
                     then Some(SpeakerReport(m.current, e.userID, false, r.revision, m.generation)) else None;
      Settle(cfg, m, r, speaker, now)
  }

  /** The participant map that a snapshot's members replace `known` with. */
  function MergeMembers(known: map<Id, Participant>, members: seq<Member>, now: int): map<Id, Participant> {
    if members == [] then map[]
    else
      var last := members[|members| - 1];
      var rest := MergeMembers(known, members[..|members| - 1], now);
      if last.userID == "" then rest else rest[last.userID := Merged(known, last, now)]
  }

  predicate SnapshotForJob(m: State, s: Snapshot, o: SyncOptions) {
    && s.streamID != "" && s.guildID != "" && s.voiceChannelID != ""
    && !Paused(m)
    && m.current.streamID == s.streamID && m.current.guildID == s.guildID
    && m.current.voiceChannelID == s.voiceChannelID
    && (o.requireGeneration ==> m.generation == o.expectedGeneration)
  }

  /** The roster that an accepted snapshot installs. */
  function Replaced(r: Roster, s: Snapshot, now: int): Roster {
    var participants := MergeMembers(r.participants, s.members, now);
    Roster(participants, set u | u in r.speakers && u in participants,
           if s.revision > r.snapshotRevision then s.revision else r.snapshotRevision, r.revision + 1)
  }

  function SyncParticipants(cfg: Config, m: State, s: Snapshot, o: SyncOptions, now: int): Outcome {
    var overtaken := o.requireRevision && m.roster.revision != o.expectedRevision;
    var stale := s.revision != 0 && s.revision <= m.roster.snapshotRevision;
    if !SnapshotForJob(m, s, o) then Unchanged(m)
    else if overtaken || (stale && o.authoritativeReplay && s.revision == m.roster.snapshotRevision)
    then Outcome(m, Some(ReportOf(m)), None, None)
    else if stale then Unchanged(m)
    else Settle(cfg, m, Replaced(m.roster, s, now), None, now)
  }

  function SetSpeaker(m: State, stream: Id, userID: Id, speaking: bool, preserveOthers: bool): Outcome {
    var active := m.roster.speakers;
    if Paused(m) || m.current.streamID == "" || (stream != "" && stream != m.current.streamID)
       || userID !in m.roster.participants then Unchanged(m)
    else if preserveOthers && (userID in active) == speaking then Unchanged(m)
    else if speaking && !preserveOthers && userID in active && |active| == 1 then Unchanged(m)
    else
      var speakers := if speaking then (if preserveOthers then active else {}) + {userID} else active - {userID};
      var n := m.(roster := m.roster.(speakers := speakers, revision := m.roster.revision + 1));
      Outcome(n, Some(ReportOf(n)),
              Some(SpeakerReport(m.current, userID, speaking, n.roster.revision, m.generation)), None)
  }

  function ClearSpeakers(m: State, stream: Id): Outcome {
    if m.current.streamID == "" || (stream != "" && stream != m.current.streamID) || m.roster.speakers == {}
    then Unchanged(m)
    else
      var n := m.(roster := m.roster.(speakers := {}, revision := m.roster.revision + 1));
      Outcome(n, Some(ReportOf(n)),
              Some(SpeakerReport(m.current, "", false, n.roster.revision, m.generation)), None)
  }

  /** reportParticipantsIfCurrent under both locks: what it publishes, if anything. */
  function CaptureReport(m: State, r: Report): Option<Report> {
    if Paused(m) || !SameJob(m.current, r.job) || m.generation != r.generation then None
    else if m.roster.revision != r.revision then Some(ReportOf(m))
    else Some(Report(m.current, r.rows, r.revision, m.generation))
  }

  function CaptureSpeaker(m: State, r: SpeakerReport): Option<SpeakerReport> {
    if Paused(m) || !SameJob(m.current, r.job) || m.generation != r.generation || m.roster.revision != r.revision
    then None else Some(r.(job := m.current))
  }

  /** refreshWorkerRetryReport for a participants report and for a speaker report. */
  predicate RetryCurrent(m: State, queue: nat, job: VoiceJob, generation: nat) {
    m.queue == Some(queue) && SameJob(m.current, job) && m.generation == generation
  }

  function RefreshReport(m: State, queue: nat, job: VoiceJob, generation: nat): Option<Report> {
    if RetryCurrent(m, queue, job, generation) then Some(ReportOf(m)) else None
  }

  function RefreshSpeaker(m: State, queue: nat, job: VoiceJob, generation: nat, userID: Id): Option<SpeakerReport> {
    if RetryCurrent(m, queue, job, generation)
    then Some(SpeakerReport(m.current, userID, userID != "" && userID in m.roster.speakers, m.roster.revision, m.generation))
    else None
  }

  // ----- auto-start -----

  /** A stream is the only enabled one for a voice channel. */
  predicate UniqueFor(defaults: map<Id, VoiceDefaults>, stream: Id, guild: Id, voice: Id) {
    && stream in defaults
    && Serves(defaults[stream], guild, voice)
    && forall other :: other in defaults && Serves(defaults[other], guild, voice) ==> other == stream
  }

  predicate Serves(d: VoiceDefaults, guild: Id, voice: Id) {
    d.autoStart && d.guildID == guild && d.voiceChannelID == voice
  }

  /** matchingAutoStartStreamLocked. */
  ghost function Matching(defaults: map<Id, VoiceDefaults>, guild: Id, voice: Id): (stream: Id)
    ensures stream != "" ==> UniqueFor(defaults, stream, guild, voice) && guild != "" && voice != ""
  {
    if guild != "" && voice != "" && exists s :: UniqueFor(defaults, s, guild, voice)
    then var s :| UniqueFor(defaults, s, guild, voice); s
    else ""
  }

  lemma MatchingIs(defaults: map<Id, VoiceDefaults>, stream: Id, guild: Id, voice: Id)
    requires "" !in defaults && guild != "" && voice != ""
    ensures UniqueFor(defaults, stream, guild, voice) <==> stream != "" && Matching(defaults, guild, voice) == stream
  {
  }

  /** A request claims a voice channel and no request of another stream does. */
  predicate SoleRequest(flights: map<Id, InFlight>, stream: Id, guild: Id, voice: Id) {
    && stream in flights && Claims(flights[stream], guild, voice)
    && forall other :: other in flights && Claims(flights[other], guild, voice) ==> other == stream
  }

  predicate Claims(f: InFlight, guild: Id, voice: Id) {
    f.job.guildID == guild && f.job.voiceChannelID == voice
  }

  /** inFlightAutoStopStreamForVoiceLocked. */
  ghost function RequestFor(flights: map<Id, InFlight>, guild: Id, voice: Id): (stream: Id)
    ensures stream != "" ==> SoleRequest(flights, stream, guild, voice)
  {
    if guild != "" && voice != "" && exists s :: SoleRequest(flights, s, guild, voice)
    then var s :| SoleRequest(flights, s, guild, voice); s
    else ""
  }

  predicate AuthorityMatches(stream: Id, epoch: Id, e: JoinEvent) {
    match e.authority
    case None => epoch == ""
    case Some(a) => a.streamID == stream && a.epoch == epoch
  }

  /** How VoiceUserJoined continues after its first critical section. */
  datatype JoinPlan = JoinDone | JoinReserve(stream: Id) | JoinRefresh

  datatype Begun = Begun(state: State, plan: JoinPlan)

  ghost function BeginJoin(cfg: Config, m: State, e: JoinEvent, now: int): Begun {
    var owner := RequestFor(m.stop.inFlight, e.guildID, e.voiceChannelID);
    if e.guildID == "" || e.voiceChannelID == "" || e.userID == "" then Begun(m, JoinDone)
    else if e.existing && m.current.streamID != "" then Begun(m, JoinDone)
    else if m.current.streamID != "" then
      var s := m.current.streamID;
      if !AuthorityMatches(s, m.epoch, e) then Begun(m, JoinDone)
      else if m.current.guildID == e.guildID && m.current.voiceChannelID == e.voiceChannelID && s in m.stop.inFlight
      then Begun(CancelStop(RecordIntent(m, s, e.guildID, e.voiceChannelID), s), JoinDone)
      else Begun(m, JoinDone)
    else if e.existing && owner != "" then Begun(m, JoinDone)
    else if owner != "" then
      if !AuthorityMatches(owner, m.stop.inFlight[owner].epoch, e) then Begun(m, JoinDone)
      else Begun(RecordIntent(m, owner, e.guildID, e.voiceChannelID), JoinDone)
    else
      var stream := Matching(m.start.defaults, e.guildID, e.voiceChannelID);
      var refresh := stream == "" && cfg.refresher
        && (cfg.refreshWait <= 0 || m.start.refreshAt == None || now - m.start.refreshAt.value >= cfg.refreshWait);
      if refresh then Begun(m.(start := m.start.(refreshAt := Some(now))), JoinRefresh)
      else Begun(m, JoinReserve(stream))
  }

  datatype Reserved = Reserved(state: State, reservation: Option<Reservation>)

  /** VoiceUserJoined's second critical section, for the stream chosen by the first one. */
  function Reserve(cfg: Config, m: State, e: JoinEvent, stream: Id, now: int): Reserved {
    if stream == "" || !AuthorityMatches(stream, EpochOf(m.start.defaults, stream), e) || !m.starter then Reserved(m, None)
    else if stream in m.start.stopped && e.existing then Reserved(m, None)
    else
      var fenced := stream in m.start.stopped;
      var a := if fenced then m.start.(stopped := m.start.stopped - {stream}, pending := m.start.pending - {stream}) else m.start;
      if stream in a.retries || (stream in a.pending && now - a.pending[stream] < cfg.startCooldown)
      then Reserved(m.(start := a), None)
      else
        var r := Reservation(m.minted, EpochOf(a.defaults, stream), m.generation, e.guildID, e.voiceChannelID, false);
        Reserved(m.(start := a.(pending := a.pending[stream := now], retries := a.retries[stream := r]),
                    minted := m.minted + 1), Some(r))
  }

  /** The same section after a refresh: the job check and the choice are made again. */
  ghost function ReserveRefreshed(cfg: Config, m: State, e: JoinEvent, now: int): Reserved {
    if m.current.streamID != "" then Reserved(m, None)
    else Reserve(cfg, m, e, Matching(m.start.defaults, e.guildID, e.voiceChannelID), now)
  }

  /** autoStartRetryStillValidLocked. */
  ghost predicate StartValid(m: State, stream: Id, r: Reservation) {
    && stream in m.start.retries && m.start.retries[stream].id == r.id
    && m.current.streamID == ""
    && m.generation == r.generation
    && EpochOf(m.start.defaults, stream) == r.epoch
    && Matching(m.start.defaults, r.guildID, r.voiceChannelID) == stream
  }

  function CancelStart(m: State, stream: Id): State {
    if stream in m.start.retries then
      m.(cancelled := m.cancelled + {m.start.retries[stream].id},
         start := m.start.(retries := m.start.retries - {stream}))
    else m
  }

  function CancelAllStarts(m: State): State {
    m.(cancelled := m.cancelled + (set s | s in m.start.retries :: m.start.retries[s].id),
       start := m.start.(retries := map[]))
  }

  /** The second check of autoStartRetryStillValid, with the presence reading in hand. */
  ghost function DecideStart(m: State, stream: Id, r: Reservation, known: bool, present: bool): State {
    if StartValid(m, stream, r) && (!known || !present) then
      var c := CancelStart(m, stream);
      c.(start := c.start.(pending := c.start.pending - {stream}))
    else m
  }

  function NoteCapacity(m: State, stream: Id, r: Reservation, busy: bool): State {
    if stream in m.start.retries && m.start.retries[stream].id == r.id then
      m.(start := m.start.(retries := m.start.retries[stream := m.start.retries[stream].(capacityBusy := busy)]))
    else m
  }

  function FinishStart(m: State, stream: Id, r: Reservation): State {
    var c := m.(cancelled := m.cancelled + {r.id});
    if stream in m.start.retries && m.start.retries[stream].id == r.id then
      c.(start := m.start.(
           pending := if m.start.retries[stream].capacityBusy && m.current.streamID == ""
                      then m.start.pending - {stream} else m.start.pending,
           retries := m.start.retries - {stream}))
    else c
  }

  // ----- rejoin reconciliation -----

  predicate IntentOf(m: State, key: VoiceTarget, stream: Id) {
    key in m.rejoin.intents && m.rejoin.intents[key].source == stream
  }

  /** How reconcileAutoStopRejoin continues after the decision section. */
  datatype RejoinPlan = RejoinStop | RejoinAgain | RejoinJoin(event: JoinEvent)

  datatype RejoinDecided = RejoinDecided(state: State, plan: RejoinPlan)

  /** The decision section; `looked` is the intent of the stream that its second lookup has met. */
  ghost function DecideRejoin(m: State, stream: Id, looked: VoiceTarget, key: VoiceTarget, seen: Intent): RejoinDecided {
    if !IntentOf(m, looked, stream) || looked != key || m.rejoin.intents[key].sequence != seen.sequence then RejoinDecided(m, RejoinStop)
    else if m.current.streamID != "" then
      if m.current.streamID != stream
      then RejoinDecided(m.(rejoin := m.rejoin.(intents := m.rejoin.intents - {key})), RejoinStop)
      else RejoinDecided(m, RejoinAgain)
    else
      var rearmed := Matching(m.start.defaults, seen.guildID, seen.voiceChannelID);
      if rearmed == "" || rearmed != stream || !m.starter || EpochOf(m.start.defaults, rearmed) != seen.epoch
      then RejoinDecided(m, RejoinAgain)
      else RejoinDecided(m.(rejoin := m.rejoin.(intents := m.rejoin.intents - {key}),
                            start := m.start.(stopped := m.start.stopped - {rearmed})),
             RejoinJoin(JoinEvent(seen.guildID, seen.voiceChannelID, "retained-rejoin", false,
                                  Some(Authority(rearmed, seen.epoch)))))
  }

  // ----- projection of waiting streams -----

  function Projected(incoming: map<Id, VoiceDefaults>): map<Id, VoiceDefaults> {
    map s | s in incoming && s != "" :: incoming[s]
  }

  /** keep: a stream the process still refers to although the projection may omit it. */
  predicate Pinned(current: Id, executing: Option<set<Id>>, reserved: set<Id>, pending: map<Id, int>, stream: Id) {
    || stream == current
    || (executing.Some? && stream in executing.value)
    || stream in reserved
    || stream in pending
  }

  function KeptPinned(items: map<Id, VoiceDefaults>, current: Id, executing: Option<set<Id>>,
                      reserved: set<Id>, pending: map<Id, int>): map<Id, VoiceDefaults> {
    map s | s in items && Pinned(current, executing, reserved, pending, s) :: items[s]
  }

  /** Pending starts left after the streams projected with another epoch lost theirs. */
  function PendingAfterEpochs(a: AutoStart, projected: map<Id, VoiceDefaults>): map<Id, int> {
    map s | s in a.pending && !(s in projected && s in a.defaults && a.defaults[s].epoch != projected[s].epoch)
         :: a.pending[s]
  }

  function Retained(m: State, projected: map<Id, VoiceDefaults>): map<Id, VoiceDefaults> {
    if m.start.executing.None? then (if projected != map[] then projected else m.start.retained)
    else
      var pending := PendingAfterEpochs(m.start, projected);
      KeptPinned(m.start.retained, m.current.streamID, m.start.executing, m.start.retries.Keys, pending)
      + KeptPinned(m.start.defaults, m.current.streamID, m.start.executing, m.start.retries.Keys, pending)
      + projected
  }

  predicate Lifts(projected: map<Id, VoiceDefaults>, stream: Id, stopped: VoiceDefaults) {
    && stream in projected
    && (projected[stream].epoch != stopped.epoch || projected[stream].guildID != stopped.guildID
        || projected[stream].voiceChannelID != stopped.voiceChannelID)
  }

  predicate Obsolete(projected: map<Id, VoiceDefaults>, stream: Id, r: Reservation) {
    stream !in projected || !projected[stream].autoStart || projected[stream].epoch != r.epoch
  }

  function BackedPending(pending: map<Id, int>, projected: map<Id, VoiceDefaults>): map<Id, int> {
    map s | s in pending && s in projected :: pending[s]
  }

  function BackedRetries(retries: map<Id, Reservation>, projected: map<Id, VoiceDefaults>): map<Id, Reservation> {
    map s | s in retries && !Obsolete(projected, s, retries[s]) :: retries[s]
  }

  function ObsoleteIDs(retries: map<Id, Reservation>, projected: map<Id, VoiceDefaults>): set<nat> {
    set s | s in retries && Obsolete(projected, s, retries[s]) :: retries[s].id
  }

  function Lifted(stopped: map<Id, VoiceDefaults>, projected: map<Id, VoiceDefaults>): set<Id> {
    set s | s in stopped && Lifts(projected, s, stopped[s])
  }

  /** SetStreamVoiceDefaults. */
  function Project(m: State, incoming: map<Id, VoiceDefaults>): State {
    var p := Projected(incoming);
    var a := m.start;
    m.(cancelled := m.cancelled + ObsoleteIDs(a.retries, p),
       start := a.(
         defaults := p,
         retained := Retained(m, p),
         pending := BackedPending(PendingAfterEpochs(a, p), p) - Lifted(a.stopped, p),
         retries := BackedRetries(a.retries, p),
         stopped := a.stopped - Lifted(a.stopped, p)))
  }

  // ----- job lifecycle -----

  /** The epoch that Start captures for a stream. */
  function StartEpoch(m: State, stream: Id): Id {
    if stream in m.start.defaults then m.start.defaults[stream].epoch else EpochOf(m.start.retained, stream)
  }

  predicate StartAllowed(m: State, job: VoiceJob) {
    && job.streamID != "" && job.guildID != "" && job.voiceChannelID != ""
    && !m.stopping
    && (m.current.streamID == "" || m.current.streamID == job.streamID)
  }

  function BeginStart(m: State, job: VoiceJob): State {
    if StartAllowed(m, job) then CancelStop(m, job.streamID) else m
  }

  function CommitStart(m: State, job: VoiceJob, epoch: Id): State {
    CancelAllStarts(m.(
      generation := m.generation + 1, queue := Some(m.minted), minted := m.minted + 1,
      current := job, epoch := epoch, stopping := false, disconnected := false,
      roster := Roster(map[], {}, 0, 0),
      start := m.start.(pending := m.start.pending - {job.streamID})))
  }

  predicate StopAllowed(m: State, stream: Id) {
    m.current.streamID != "" && !m.stopping && (stream == "" || stream == m.current.streamID)
  }

  function BeginStop(m: State, stream: Id): State {
    var c := CancelAllStarts(m);
    if !StopAllowed(m, stream) then c
    else c.(stop := Invalidate(c.stop, c.current.streamID), stopping := true, queue := None, generation := c.generation + 1)
  }

  /** LeaveVoice failed: the job stays, with a new retry queue. */
  function RevertStop(m: State, stream: Id): State {
    if m.current.streamID == stream && m.stopping
    then m.(stopping := false, queue := Some(m.minted), minted := m.minted + 1) else m
  }

  function CommitStop(m: State, stream: Id): State {
    m.(queue := None,
       start := m.start.(stopped := m.start.stopped[stream :=
         VoiceDefaults(m.epoch, m.current.guildID, m.current.voiceChannelID, "", false)]),
       current := NO_JOB, stopping := false,
       roster := m.roster.(participants := map[], speakers := {}))
  }

  function Connect(m: State): State {
    if m.current.streamID != "" && !m.stopping
    then m.(disconnected := false, queue := Some(m.minted), minted := m.minted + 1)
    else m.(disconnected := false, queue := None)
  }

  function Disconnect(m: State): State {
    var c := CancelAllStarts(m);
    c.(disconnected := true, queue := None, generation := c.generation + 1)
  }

  /** The commit of one successful voice rejoin attempt. */
  function CommitRejoin(m: State, job: VoiceJob, generation: nat): State {
    if generation == m.generation && SameJob(m.current, job) && !m.stopping
    then m.(disconnected := false, queue := Some(m.minted), minted := m.minted + 1) else m
  }
}
