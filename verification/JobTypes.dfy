/** The values that the job manager stores, receives and hands out.
    Identifiers are strings that the callers have already trimmed; the empty string is
    the source's "no value". Times are integer nanoseconds. */
module JobTypes {
  datatype Option<+T> = None | Some(value: T)

  type Id = string

  /** A map lookup with the zero value of an absent counter. */
  function Count(counts: map<Id, nat>, key: Id): nat {
    if key in counts then counts[key] else 0
  }

  function Pow2(n: nat): nat { if n == 0 then 1 else 2 * Pow2(n - 1) }

  /** internal/discord/client.go, VoiceJob. `settings` stands for the endpoints, tokens and
      buffer sizes, which take no part in deciding whether two jobs are the same. */
  datatype VoiceJob = VoiceJob(
    streamID: Id, guildID: Id, voiceChannelID: Id, textChannelID: Id,
    targetRevision: nat, jobGeneration: nat, settings: string)

  const NO_JOB := VoiceJob("", "", "", "", 0, 0, "")

  predicate SameJob(left: VoiceJob, right: VoiceJob) {
    && left.streamID == right.streamID
    && left.guildID == right.guildID
    && left.voiceChannelID == right.voiceChannelID
    && left.textChannelID == right.textChannelID
    && left.targetRevision == right.targetRevision
    && left.jobGeneration == right.jobGeneration
  }

  /** Two jobs are the same exactly when they differ in their settings at most. */
  lemma SameJobMeans(left: VoiceJob, right: VoiceJob)
    ensures SameJob(left, right) <==> left == right.(settings := left.settings)
  {
  }

  datatype VoiceDefaults = VoiceDefaults(
    epoch: Id, guildID: Id, voiceChannelID: Id, textChannelID: Id, autoStart: bool)

  /** The assignment epoch of a stream, with the zero value of an absent map entry. */
  function EpochOf(defaults: map<Id, VoiceDefaults>, stream: Id): Id {
    if stream in defaults then defaults[stream].epoch else ""
  }

  datatype Participant = Participant(
    userID: Id, username: string, avatarURL: string, isBot: bool, joinedAt: int)

  /** One row of a published participant list. */
  datatype Row = Row(participant: Participant, speaking: bool)

  datatype ParticipantEvent = ParticipantEvent(
    streamID: Id, userID: Id, username: string, avatarURL: string, isBot: bool, present: bool)

  datatype Member = Member(userID: Id, username: string, avatarURL: string, isBot: bool)

  datatype Snapshot = Snapshot(
    streamID: Id, guildID: Id, voiceChannelID: Id, revision: nat, members: seq<Member>)

  datatype SyncOptions = SyncOptions(
    requireGeneration: bool, expectedGeneration: nat, authoritativeReplay: bool,
    requireRevision: bool, expectedRevision: nat)

  datatype Authority = Authority(streamID: Id, epoch: Id)

  datatype JoinEvent = JoinEvent(
    guildID: Id, voiceChannelID: Id, userID: Id, existing: bool, authority: Option<Authority>)

  /** An outstanding auto-stop request. `context` is the identity of its cancelable context. */
  datatype InFlight = InFlight(epoch: Id, generation: nat, context: nat, job: VoiceJob)

  /** A Discord voice channel; the source joins the two identifiers with a NUL byte. */
  datatype VoiceTarget = VoiceTarget(guildID: Id, voiceChannelID: Id)

  datatype Intent = Intent(epoch: Id, guildID: Id, voiceChannelID: Id, source: Id, sequence: nat)

  /** An auto-start reservation. `id` is the identity of the source's heap object. */
  datatype Reservation = Reservation(
    id: nat, epoch: Id, generation: nat, guildID: Id, voiceChannelID: Id, capacityBusy: bool)
}
