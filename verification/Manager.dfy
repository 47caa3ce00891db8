/** internal/jobs: the Manager object. Every method is one critical section of the source (a
    stretch of code that runs under Manager.mu) or a helper called inside one, and is proved to
    turn the state into the one that ManagerState's function for that section gives.
    The source's fields are grouped into records by the protocol they belong to. */
module ManagerObject {
  import opened JobTypes
  import opened ManagerState

  /** No empty identifier is ever a key: the unique-match loops use "" as "no match". */
  predicate Named(m: State) {
    && "" !in m.start.defaults && "" !in m.stop.inFlight && "" !in m.stop.pending
    && "" !in m.roster.participants
  }

  lemma UpdateStaysNamed(cfg: Config, m: State, now: int)
    requires Named(m) && m.current.streamID != ""
    ensures Named(UpdateStop(cfg, m, now).state)
  {
    var s := m.current.streamID;
    if m.roster.participants != map[] {
      CancelStaysNamed(if s in m.stop.inFlight then RecordIntent(m, s, m.current.guildID, m.current.voiceChannelID) else m, s);
    }
  }

  lemma CancelStaysNamed(m: State, stream: Id)
    requires Named(m)
    ensures Named(CancelStop(m, stream))
  {
  }

  /** One turn of the loop that installs a projection. */
  lemma InstallOne(a: AutoStart, defaults: map<Id, VoiceDefaults>, stream: Id, item: VoiceDefaults)
    requires stream !in defaults
    ensures PendingAfterEpochs(a, defaults[stream := item])
      == if stream in a.defaults && a.defaults[stream].epoch != item.epoch then PendingAfterEpochs(a, defaults) - {stream}
         else PendingAfterEpochs(a, defaults)
  {
  }

  class Manager {
    const cfg: Config
    var current: VoiceJob
    var epoch: Id
    var stopping: bool
    var disconnected: bool
    var generation: nat
    var queue: Option<nat>
    var stopper: bool
    var starter: bool
    var roster: Roster
    var activeSpeaker: Id
    var stop: AutoStop
    var rejoin: Rejoin
    var start: AutoStart
    var minted: nat
    var cancelled: set<nat>

    ghost function Abstract(): State
      reads this
    {
      State(current, epoch, stopping, disconnected, generation, queue, stopper, starter,
            roster, stop, rejoin, start, minted, cancelled)
    }

    ghost predicate Valid()
      reads this
    {
      Named(Abstract()) && (activeSpeaker == "" || activeSpeaker in roster.speakers)
    }

    constructor (cfg: Config)
      ensures Valid() && Abstract() == INITIAL && this.cfg == cfg
    {
      this.cfg := cfg;
      current, epoch, stopping, disconnected := NO_JOB, "", false, false;
      generation, queue, stopper, starter := 0, None, false, false;
      roster, activeSpeaker := Roster(map[], {}, 0, 0), "";
      stop := AutoStop({}, map[], map[], map[], map[]);
      rejoin := Rejoin(map[], 0, {});
      start := AutoStart(map[], map[], None, map[], map[], map[], None);
      minted, cancelled := 0, {};
    }

    // ----- auto_stop.go -----

    method InvalidateAutoStop(stream: Id)
      modifies this`stop
      ensures stop == Invalidate(old(stop), stream)
    {
      if stream == "" { return; }
      stop := stop.(generation := stop.generation[stream := Count(stop.generation, stream) + 1]);
      stop := stop.(pending := stop.pending - {stream});
      stop := stop.(attempts := stop.attempts - {stream});
      stop := stop.(lastAttempt := stop.lastAttempt - {stream});
    }

    method CancelAutoStop(stream: Id)
      modifies this`stop, this`cancelled
      ensures Abstract() == CancelStop(old(Abstract()), stream)
    {
      if stream == "" { return; }
      if stream in stop.inFlight {
        cancelled := cancelled + {stop.inFlight[stream].context};
        stop := stop.(inFlight := stop.inFlight - {stream});
      }
      InvalidateAutoStop(stream);
    }

    method ClearAutoStopInFlight(stream: Id, generation: nat)
      modifies this`stop, this`cancelled
      ensures Abstract() == ClearInFlight(old(Abstract()), stream, generation)
    {
      if stream !in stop.inFlight || stop.inFlight[stream].generation != generation { return; }
      cancelled := cancelled + {stop.inFlight[stream].context};
      stop := stop.(inFlight := stop.inFlight - {stream});
    }

    method FinishAutoStop(stream: Id, generation: nat)
      modifies this`stop, this`cancelled
      ensures Abstract() == FinishStop(old(Abstract()), stream, generation)
    {
      ClearAutoStopInFlight(stream, generation);
      if Count(stop.generation, stream) != generation { return; }
      stop := stop.(pending := stop.pending - {stream}, attempts := stop.attempts - {stream});
    }

    method RecordAutoStopRejoinIntent(source: Id, guild: Id, voice: Id)
      modifies this`rejoin
      ensures Abstract() == RecordIntent(old(Abstract()), source, guild, voice)
    {
      if source == "" || guild == "" || voice == "" { return; }
      var key := VoiceTarget(guild, voice);
      if key in rejoin.intents && rejoin.intents[key].source == source { return; }
      rejoin := rejoin.(sequence := rejoin.sequence + 1);
      var captured := epoch;
      if source in stop.inFlight {
        captured := stop.inFlight[source].epoch;
      }
      rejoin := rejoin.(intents := rejoin.intents[key := Intent(captured, guild, voice, source, rejoin.sequence)]);
    }

    method UpdateAutoStopForParticipantSet(now: int) returns (armed: Option<nat>)
      modifies this`stop, this`cancelled, this`rejoin
      ensures Armed(Abstract(), armed) == UpdateStop(cfg, old(Abstract()), now)
    {
      armed := None;
      var stream := current.streamID;
      if roster.participants != map[] {
        if stream in stop.inFlight {
          RecordAutoStopRejoinIntent(stream, current.guildID, current.voiceChannelID);
        }
        CancelAutoStop(stream);
        return;
      }
      if !stopper { return; }
      if stream in stop.pending || (stream in stop.lastAttempt && now - stop.lastAttempt[stream] < cfg.stopCooldown) {
        return;
      }
      stop := stop.(pending := stop.pending + {stream});
      stop := stop.(generation := stop.generation[stream := Count(stop.generation, stream) + 1]);
      stop := stop.(attempts := stop.attempts[stream := 0]);
      armed := Some(stop.generation[stream]);
    }

    method AutoStopStillValid(stream: Id, g: nat) returns (valid: bool)
      ensures valid == StopValid(Abstract(), stream, g)
    {
      valid := Count(stop.generation, stream) == g && stream in stop.pending
        && current.streamID == stream && |roster.participants| == 0 && stopper;
    }

    method AutoStopStillValidForJob(stream: Id, g: nat, job: VoiceJob, reconnect: nat) returns (valid: bool)
      ensures valid == StopValidForJob(Abstract(), stream, g, job, reconnect)
    {
      valid := AutoStopStillValid(stream, g);
      valid := valid && generation == reconnect && SameJob(current, job);
    }

    method CancelAutoStopIfValid(stream: Id, g: nat, job: VoiceJob, reconnect: nat)
      modifies this`stop, this`cancelled
      ensures Abstract() == if StopValidForJob(old(Abstract()), stream, g, job, reconnect)
                            then CancelStop(old(Abstract()), stream) else old(Abstract())
    {
      var valid := AutoStopStillValidForJob(stream, g, job, reconnect);
      if valid {
        CancelAutoStop(stream);
      }
    }

    method IssueAutoStop(stream: Id, g: nat, job: VoiceJob, reconnect: nat, now: int) returns (issued: bool)
      requires Valid()
      modifies this`stop, this`minted
      ensures Valid()
      ensures issued == IssueStop(old(Abstract()), stream, g, job, reconnect, now).Some?
      ensures Abstract() == if issued then IssueStop(old(Abstract()), stream, g, job, reconnect, now).value
                            else old(Abstract())
    {
      issued := AutoStopStillValidForJob(stream, g, job, reconnect);
      if !issued { return; }
      stop := stop.(lastAttempt := stop.lastAttempt[stream := now]);
      stop := stop.(inFlight := stop.inFlight[stream := InFlight(epoch, g, minted, current)]);
      minted := minted + 1;
    }

    method HasAutoStopRejoinIntent(stream: Id) returns (found: bool)
      ensures found == HasIntent(Abstract(), stream)
    {
      var key := AutoStopRejoinIntentForStream(stream);
      found := key.Some?;
    }

    method CompleteAutoStop(stream: Id, g: nat) returns (valid: bool, reconcile: bool)
      modifies this`stop, this`cancelled
      ensures Completed(Abstract(), valid, reconcile) == CompleteStop(old(Abstract()), stream, g)
    {
      ClearAutoStopInFlight(stream, g);
      valid := AutoStopStillValid(stream, g);
      reconcile := HasAutoStopRejoinIntent(stream);
      reconcile := !valid && reconcile;
    }

    method ScheduleAutoStopRetry(stream: Id, g: nat) returns (scheduled: bool)
      modifies this`stop, this`cancelled
      ensures Retried(Abstract(), scheduled) == RetryStop(cfg, old(Abstract()), stream, g)
    {
      scheduled := AutoStopStillValid(stream, g);
      if !scheduled { return; }
      var attempt := Count(stop.attempts, stream);
      if attempt >= cfg.stopRetryDelays {
        FinishAutoStop(stream, g);
        return false;
      }
      stop := stop.(attempts := stop.attempts[stream := attempt + 1]);
    }

    // ----- participants.go and active_speakers.go -----

    /** participantsSnapshotLocked: one row for every participant, in the map's own order. */
    method ParticipantsSnapshot() returns (rows: seq<Row>, ghost order: seq<Id>)
      ensures |rows| == |roster.participants|
      ensures forall u :: u in roster.participants ==> View(roster)[u] in rows
      ensures |rows| == |order|
      ensures forall u :: u in order <==> u in roster.participants
      ensures forall i, j :: 0 <= i < j < |order| ==> order[i] != order[j]
      ensures forall i :: 0 <= i < |rows| ==> order[i] in roster.participants && rows[i] == View(roster)[order[i]]
    {
      rows, order := [], [];
      var rest := roster.participants.Keys;
      while rest != {}
        invariant rest <= roster.participants.Keys && |rows| == |order|
        invariant |rows| + |rest| == |roster.participants|
        invariant forall u :: u in roster.participants && u !in rest ==> View(roster)[u] in rows
        invariant forall u :: u in order <==> u in roster.participants && u !in rest
        invariant forall i, j :: 0 <= i < j < |order| ==> order[i] != order[j]
        invariant forall i :: 0 <= i < |rows| ==> order[i] in roster.participants && rows[i] == View(roster)[order[i]]
        decreases |rest|
      {
        var u :| u in rest;
        rest := rest - {u};
        var row := Row(roster.participants[u], u in roster.speakers);
        assert row == View(roster)[u];
        rows := rows + [row];
        order := order + [u];
      }
    }

    /** anyActiveSpeaker. */
    method AnyActiveSpeaker() returns (speaker: Id)
      ensures if roster.speakers == {} then speaker == "" else speaker in roster.speakers
    {
      speaker := "";
      if roster.speakers != {} {
        speaker :| speaker in roster.speakers;
      }
    }

    /** The part of ParticipantChanged that edits the participants and speakers. */
    method ApplyParticipantEvent(e: ParticipantEvent, now: int) returns (speakerStopped: bool)
      requires Valid() && e.userID != ""
      modifies this`roster, this`activeSpeaker
      ensures Valid()
      ensures speakerStopped == (!e.present && e.userID in old(roster).speakers)
      ensures roster == old(roster).(
        participants := if e.present then old(roster).participants[e.userID :=
          Merged(old(roster).participants, Member(e.userID, e.username, e.avatarURL, e.isBot), now)]
          else old(roster).participants - {e.userID},
        speakers := if e.present then old(roster).speakers else old(roster).speakers - {e.userID},
        revision := old(roster).revision + 1)
    {
      speakerStopped := false;
      if e.present {
        var p := Merged(roster.participants, Member(e.userID, e.username, e.avatarURL, e.isBot), now);
        roster := roster.(participants := roster.participants[e.userID := p]);
      } else {
        speakerStopped := e.userID in roster.speakers;
        roster := roster.(participants := roster.participants - {e.userID});
        roster := roster.(speakers := roster.speakers - {e.userID});
        if activeSpeaker == e.userID {
          activeSpeaker := AnyActiveSpeaker();
        }
      }
      roster := roster.(revision := roster.revision + 1);
    }

    method ParticipantChanged(e: ParticipantEvent, now: int)
      returns (report: Option<Report>, speaker: Option<SpeakerReport>, armed: Option<nat>)
      requires Valid()
      modifies this`roster, this`activeSpeaker, this`stop, this`cancelled, this`rejoin
      ensures Valid()
      ensures Outcome(Abstract(), report, speaker, armed) == ChangeParticipant(cfg, old(Abstract()), e, now)
    {
      report, speaker, armed := None, None, None;
      if e.userID == "" || stopping || disconnected || current.streamID == "" || e.streamID != current.streamID {
        return;
      }
      var speakerStopped := ApplyParticipantEvent(e, now);
      report := Some(Report(current, View(roster), roster.revision, generation));
      if speakerStopped {
        speaker := Some(SpeakerReport(current, e.userID, false, roster.revision, generation));
      }
      UpdateStaysNamed(cfg, Abstract(), now);
      armed := UpdateAutoStopForParticipantSet(now);
    }

    /** The loop of participantsSynced that builds the replacement map. */
    method MergeSnapshot(members: seq<Member>, now: int) returns (merged: map<Id, Participant>)
      ensures merged == MergeMembers(roster.participants, members, now)
      ensures "" !in merged
    {
      merged := map[];
      for i := 0 to |members|
        invariant merged == MergeMembers(roster.participants, members[..i], now)
        invariant "" !in merged
      {
        assert members[..i + 1][..i] == members[..i];
        if members[i].userID != "" {
          merged := merged[members[i].userID := Merged(roster.participants, members[i], now)];
        }
      }
      assert members[..|members|] == members;
    }

    /** The part of participantsSynced that replaces the participants and prunes the speakers. */
    method ReplaceParticipants(s: Snapshot, now: int)
      requires Valid()
      modifies this`roster, this`activeSpeaker
      ensures Valid()
      ensures roster == Replaced(old(roster), s, now)
    {
      if s.revision > roster.snapshotRevision {
        roster := roster.(snapshotRevision := s.revision);
      }
      var merged := MergeSnapshot(s.members, now);
      roster := roster.(participants := merged);
      roster := roster.(speakers := set u | u in roster.speakers && u in merged);
      if activeSpeaker !in roster.speakers {
        activeSpeaker := AnyActiveSpeaker();
      }
      roster := roster.(revision := roster.revision + 1);
    }

    method ParticipantsSynced(s: Snapshot, o: SyncOptions, now: int)
      returns (report: Option<Report>, armed: Option<nat>)
      requires Valid()
      modifies this`roster, this`activeSpeaker, this`stop, this`cancelled, this`rejoin
      ensures Valid()
      ensures Outcome(Abstract(), report, None, armed) == SyncParticipants(cfg, old(Abstract()), s, o, now)
    {
      report, armed := None, None;
      if s.streamID == "" || s.guildID == "" || s.voiceChannelID == "" { return; }
      if stopping || disconnected || current.streamID != s.streamID || current.guildID != s.guildID
         || current.voiceChannelID != s.voiceChannelID || (o.requireGeneration && generation != o.expectedGeneration) {
        return;
      }
      if o.requireRevision && roster.revision != o.expectedRevision {
        report := Some(Report(current, View(roster), roster.revision, generation));
        return;
      }
      if s.revision != 0 && s.revision <= roster.snapshotRevision {
        if o.authoritativeReplay && s.revision == roster.snapshotRevision {
          report := Some(Report(current, View(roster), roster.revision, generation));
        }
        return;
      }
      report, armed := InstallSnapshot(s, now);
    }

    /** The end of participantsSynced, for a snapshot that it accepts. */
    method InstallSnapshot(s: Snapshot, now: int) returns (report: Option<Report>, armed: Option<nat>)
      requires Valid() && current.streamID != ""
      modifies this`roster, this`activeSpeaker, this`stop, this`cancelled, this`rejoin
      ensures Valid()
      ensures Outcome(Abstract(), report, None, armed) == Settle(cfg, old(Abstract()), Replaced(old(roster), s, now), None, now)
    {
      ReplaceParticipants(s, now);
      report := Some(Report(current, View(roster), roster.revision, generation));
      UpdateStaysNamed(cfg, Abstract(), now);
      armed := UpdateAutoStopForParticipantSet(now);
    }

    method SetSpeakerState(stream: Id, userID: Id, speaking: bool, preserveOthers: bool)
      returns (report: Option<Report>, speaker: Option<SpeakerReport>)
      requires Valid()
      modifies this
      ensures Valid()
      ensures Outcome(Abstract(), report, speaker, None) == SetSpeaker(old(Abstract()), stream, userID, speaking, preserveOthers)
    {
      report, speaker := None, None;
      if stopping || disconnected || current.streamID == "" || (stream != "" && stream != current.streamID) { return; }
      if userID !in roster.participants { return; }
      var currentlySpeaking := userID in roster.speakers;
      if preserveOthers && currentlySpeaking == speaking { return; }
      if speaking && !preserveOthers && currentlySpeaking && |roster.speakers| == 1 { return; }
      if speaking {
        if !preserveOthers {
          roster := roster.(speakers := {});
        }
        roster := roster.(speakers := roster.speakers + {userID});
        activeSpeaker := userID;
      } else {
        roster := roster.(speakers := roster.speakers - {userID});
        if activeSpeaker == userID {
          activeSpeaker := AnyActiveSpeaker();
        }
      }
      roster := roster.(revision := roster.revision + 1);
      report := Some(Report(current, View(roster), roster.revision, generation));
      speaker := Some(SpeakerReport(current, userID, speaking, roster.revision, generation));
    }

    method ClearSpeakerStates(stream: Id) returns (report: Option<Report>, speaker: Option<SpeakerReport>)
      requires Valid()
      modifies this
      ensures Valid()
      ensures Outcome(Abstract(), report, speaker, None) == ClearSpeakers(old(Abstract()), stream)
    {
      report, speaker := None, None;
      if current.streamID == "" || (stream != "" && stream != current.streamID) || roster.speakers == {} { return; }
      roster := roster.(speakers := {});
      activeSpeaker := "";
      roster := roster.(revision := roster.revision + 1);
      report := Some(Report(current, View(roster), roster.revision, generation));
      speaker := Some(SpeakerReport(current, "", false, roster.revision, generation));
    }

    // ----- auto_start.go -----

    /** matchingAutoStartStreamLocked: the map is visited in an arbitrary order. */
    method MatchingAutoStartStream(guild: Id, voice: Id) returns (matched: Id)
      requires "" !in start.defaults
      ensures matched == Matching(start.defaults, guild, voice)
    {
      matched := "";
      if guild == "" || voice == "" { return; }
      var rest := start.defaults.Keys;
      while rest != {}
        invariant rest <= start.defaults.Keys
        invariant matched == "" ==> forall s :: s in start.defaults && s !in rest ==> !Serves(start.defaults[s], guild, voice)
        invariant matched != "" ==> matched in start.defaults && matched !in rest && Serves(start.defaults[matched], guild, voice)
        invariant matched != "" ==> forall s :: s in start.defaults && s !in rest && s != matched ==> !Serves(start.defaults[s], guild, voice)
        decreases |rest|
      {
        var stream :| stream in rest;
        rest := rest - {stream};
        var d := start.defaults[stream];
        if !d.autoStart { continue; }
        if d.guildID != guild || d.voiceChannelID != voice { continue; }
        if matched != "" {
          assert Serves(start.defaults[stream], guild, voice) && Serves(start.defaults[matched], guild, voice);
          return "";
        }
        matched := stream;
      }
      if matched != "" {
        assert UniqueFor(start.defaults, matched, guild, voice);
      }
    }

    /** inFlightAutoStopStreamForVoiceLocked. */
    method InFlightAutoStopStreamForVoice(guild: Id, voice: Id) returns (matched: Id)
      requires "" !in stop.inFlight
      ensures matched == RequestFor(stop.inFlight, guild, voice)
    {
      matched := "";
      if guild == "" || voice == "" { return; }
      var rest := stop.inFlight.Keys;
      while rest != {}
        invariant rest <= stop.inFlight.Keys
        invariant matched == "" ==> forall s :: s in stop.inFlight && s !in rest ==> !Claims(stop.inFlight[s], guild, voice)
        invariant matched != "" ==> matched in stop.inFlight && matched !in rest && Claims(stop.inFlight[matched], guild, voice)
        invariant matched != "" ==> forall s :: s in stop.inFlight && s !in rest && s != matched ==> !Claims(stop.inFlight[s], guild, voice)
        decreases |rest|
      {
        var stream :| stream in rest;
        rest := rest - {stream};
        var f := stop.inFlight[stream];
        if f.job.guildID != guild || f.job.voiceChannelID != voice { continue; }
        if matched != "" && matched != stream {
          assert Claims(stop.inFlight[stream], guild, voice) && Claims(stop.inFlight[matched], guild, voice);
          return "";
        }
        matched := stream;
      }
      if matched != "" {
        assert SoleRequest(stop.inFlight, matched, guild, voice);
      }
    }

    /** The active branch of VoiceUserJoined: the join overtakes a request under way. */
    method JoinCancelsAutoStop(e: JoinEvent)
      requires Valid() && current.streamID in stop.inFlight
      modifies this`stop, this`cancelled, this`rejoin
      ensures Valid()
      ensures Abstract() == CancelStop(RecordIntent(old(Abstract()), current.streamID, e.guildID, e.voiceChannelID), current.streamID)
    {
      RecordAutoStopRejoinIntent(current.streamID, e.guildID, e.voiceChannelID);
      CancelStaysNamed(Abstract(), current.streamID);
      CancelAutoStop(current.streamID);
    }

    method VoiceUserJoined(e: JoinEvent, now: int) returns (plan: JoinPlan)
      requires Valid()
      modifies this`stop, this`cancelled, this`rejoin, this`start
      ensures Valid()
      ensures Begun(Abstract(), plan) == BeginJoin(cfg, old(Abstract()), e, now)
    {
      plan := JoinDone;
      if e.guildID == "" || e.voiceChannelID == "" || e.userID == "" { return; }
      if e.existing && current.streamID != "" { return; }
      if current.streamID != "" {
        if !AuthorityMatches(current.streamID, epoch, e) { return; }
        if current.guildID == e.guildID && current.voiceChannelID == e.voiceChannelID && current.streamID in stop.inFlight {
          JoinCancelsAutoStop(e);
        }
        return;
      }
      var source := InFlightAutoStopStreamForVoice(e.guildID, e.voiceChannelID);
      if e.existing && source != "" { return; }
      if source != "" {
        if !AuthorityMatches(source, stop.inFlight[source].epoch, e) { return; }
        RecordAutoStopRejoinIntent(source, e.guildID, e.voiceChannelID);
        return;
      }
      var stream := MatchingAutoStartStream(e.guildID, e.voiceChannelID);
      if stream == "" && cfg.refresher && (cfg.refreshWait <= 0 || start.refreshAt == None || now - start.refreshAt.value >= cfg.refreshWait) {
        start := start.(refreshAt := Some(now));
        return JoinRefresh;
      }
      plan := JoinReserve(stream);
    }

    method ReserveAutoStart(e: JoinEvent, stream: Id, now: int) returns (reservation: Option<Reservation>)
      modifies this`start, this`minted
      ensures Reserved(Abstract(), reservation) == Reserve(cfg, old(Abstract()), e, stream, now)
    {
      reservation := None;
      if stream == "" { return; }
      if !AuthorityMatches(stream, EpochOf(start.defaults, stream), e) { return; }
      if !starter { return; }
      if stream in start.stopped {
        if e.existing { return; }
        start := start.(stopped := start.stopped - {stream});
        start := start.(pending := start.pending - {stream});
      }
      if stream in start.retries { return; }
      if stream in start.pending && now - start.pending[stream] < cfg.startCooldown { return; }
      start := start.(pending := start.pending[stream := now]);
      var r := Reservation(minted, EpochOf(start.defaults, stream), generation, e.guildID, e.voiceChannelID, false);
      minted := minted + 1;
      start := start.(retries := start.retries[stream := r]);
      reservation := Some(r);
    }

    method ReserveAutoStartRefreshed(e: JoinEvent, now: int) returns (reservation: Option<Reservation>)
      requires Valid()
      modifies this`start, this`minted
      ensures Reserved(Abstract(), reservation) == ReserveRefreshed(cfg, old(Abstract()), e, now)
    {
      if current.streamID != "" { return None; }
      var stream := MatchingAutoStartStream(e.guildID, e.voiceChannelID);
      reservation := ReserveAutoStart(e, stream, now);
    }

    method AutoStartRetryStillValid(stream: Id, r: Reservation) returns (valid: bool)
      requires Valid()
      ensures valid == StartValid(Abstract(), stream, r)
    {
      if stream !in start.retries || start.retries[stream].id != r.id || current.streamID != "" || generation != r.generation {
        return false;
      }
      var matched := MatchingAutoStartStream(r.guildID, r.voiceChannelID);
      valid := EpochOf(start.defaults, stream) == r.epoch && matched == stream;
    }

    method CancelAutoStartRetry(stream: Id)
      modifies this`start, this`cancelled
      ensures Abstract() == CancelStart(old(Abstract()), stream)
    {
      if stream in start.retries {
        cancelled := cancelled + {start.retries[stream].id};
        start := start.(retries := start.retries - {stream});
      }
    }

    method CancelAllAutoStartRetries()
      modifies this`start, this`cancelled
      ensures Abstract() == CancelAllStarts(old(Abstract()))
    {
      var retries := start.retries;
      var rest := retries.Keys;
      while rest != {}
        invariant rest <= retries.Keys && start == old(start)
        invariant cancelled == old(cancelled) + set s | s in retries && s !in rest :: retries[s].id
        decreases |rest|
      {
        var stream :| stream in rest;
        rest := rest - {stream};
        cancelled := cancelled + {retries[stream].id};
      }
      assert cancelled == old(cancelled) + set s | s in retries :: retries[s].id;
      start := start.(retries := map[]);
    }

    /** The section of autoStartRetryStillValid after the presence reading. */
    method DecideAutoStart(stream: Id, r: Reservation, known: bool, present: bool) returns (pass: bool)
      requires Valid()
      modifies this`start, this`cancelled
      ensures Valid()
      ensures pass == (StartValid(old(Abstract()), stream, r) && known && present)
      ensures Abstract() == DecideStart(old(Abstract()), stream, r, known, present)
    {
      pass := AutoStartRetryStillValid(stream, r);
      if !pass { return; }
      if !known || !present {
        CancelAutoStartRetry(stream);
        start := start.(pending := start.pending - {stream});
        pass := false;
      }
    }

    method NoteAutoStartCapacityResult(stream: Id, r: Reservation, busy: bool)
      modifies this`start
      ensures Abstract() == NoteCapacity(old(Abstract()), stream, r, busy)
    {
      if stream in start.retries && start.retries[stream].id == r.id {
        start := start.(retries := start.retries[stream := start.retries[stream].(capacityBusy := busy)]);
      }
    }

    method FinishAutoStartRetry(stream: Id, r: Reservation)
      modifies this`start, this`cancelled
      ensures Abstract() == FinishStart(old(Abstract()), stream, r)
    {
      if stream in start.retries && start.retries[stream].id == r.id {
        if start.retries[stream].capacityBusy && current.streamID == "" {
          start := start.(pending := start.pending - {stream});
        }
        start := start.(retries := start.retries - {stream});
      }
      cancelled := cancelled + {r.id};
    }

    // ----- auto_stop_rejoin.go -----

    /** autoStopRejoinIntentForStreamLocked: the first intent of the stream that the loop over the map meets. */
    method AutoStopRejoinIntentForStream(stream: Id) returns (found: Option<VoiceTarget>)
      ensures found.Some? ==> IntentOf(Abstract(), found.value, stream)
      ensures found.None? ==> !HasIntent(Abstract(), stream)
    {
      found := None;
      var rest := rejoin.intents.Keys;
      while rest != {}
        invariant rest <= rejoin.intents.Keys
        invariant forall k :: k in rejoin.intents && k !in rest ==> rejoin.intents[k].source != stream
        decreases |rest|
      {
        var key :| key in rest;
        rest := rest - {key};
        if rejoin.intents[key].source == stream { return Some(key); }
      }
    }

    method DecideAutoStopRejoin(stream: Id, key: VoiceTarget, seen: Intent) returns (plan: RejoinPlan, ghost looked: VoiceTarget)
      requires Valid()
      modifies this`rejoin, this`start
      ensures Valid()
      ensures HasIntent(old(Abstract()), stream) ==> IntentOf(old(Abstract()), looked, stream)
      ensures RejoinDecided(Abstract(), plan) == DecideRejoin(old(Abstract()), stream, looked, key, seen)
    {
      var found := AutoStopRejoinIntentForStream(stream);
      looked := if found.Some? then found.value else key;
      if found.None? || found.value != key || rejoin.intents[key].sequence != seen.sequence {
        return RejoinStop, looked;
      }
      if current.streamID != "" {
        if current.streamID != stream {
          rejoin := rejoin.(intents := rejoin.intents - {key});
          return RejoinStop, looked;
        }
        return RejoinAgain, looked;
      }
      var rearmed := MatchingAutoStartStream(seen.guildID, seen.voiceChannelID);
      if rearmed == "" || rearmed != stream || !starter || EpochOf(start.defaults, rearmed) != seen.epoch {
        return RejoinAgain, looked;
      }
      rejoin := rejoin.(intents := rejoin.intents - {key});
      start := start.(stopped := start.stopped - {rearmed});
      plan := RejoinJoin(JoinEvent(seen.guildID, seen.voiceChannelID, "retained-rejoin", false,
                                   Some(Authority(rearmed, seen.epoch))));
    }

    // ----- manager.go and reconnect.go -----

    method StartBegin(job: VoiceJob) returns (captured: Option<Id>)
      modifies this`stop, this`cancelled
      ensures Abstract() == BeginStart(old(Abstract()), job)
      ensures captured == if StartAllowed(old(Abstract()), job) then Some(StartEpoch(old(Abstract()), job.streamID)) else None
    {
      if job.streamID == "" || job.guildID == "" || job.voiceChannelID == "" { return None; }
      if stopping { return None; }
      if current.streamID != "" && current.streamID != job.streamID { return None; }
      CancelAutoStop(job.streamID);
      var assignmentEpoch := EpochOf(start.defaults, job.streamID);
      if job.streamID !in start.defaults {
        assignmentEpoch := EpochOf(start.retained, job.streamID);
      }
      captured := Some(assignmentEpoch);
    }

    method StartCommit(job: VoiceJob, captured: Id)
      requires Valid()
      modifies this
      ensures Valid()
      ensures Abstract() == CommitStart(old(Abstract()), job, captured)
    {
      ResetForJob(job, captured);
      start := start.(pending := start.pending - {job.streamID});
      CancelAllAutoStartRetries();
    }

    /** The field assignments of Start's second section. */
    method ResetForJob(job: VoiceJob, captured: Id)
      modifies this`generation, this`queue, this`minted, this`current, this`epoch, this`stopping,
               this`disconnected, this`roster, this`activeSpeaker
      ensures generation == old(generation) + 1 && queue == Some(old(minted)) && minted == old(minted) + 1
      ensures current == job && epoch == captured && !stopping && !disconnected
      ensures roster == Roster(map[], {}, 0, 0) && activeSpeaker == ""
    {
      generation := generation + 1;
      queue, minted := Some(minted), minted + 1;
      current, epoch := job, captured;
      stopping, disconnected := false, false;
      roster, activeSpeaker := Roster(map[], {}, 0, 0), "";
    }

    method StopBegin(stream: Id) returns (leaving: Option<Id>)
      requires Valid()
      modifies this
      ensures Valid()
      ensures Abstract() == BeginStop(old(Abstract()), stream)
      ensures leaving == if StopAllowed(old(Abstract()), stream) then Some(old(current.streamID)) else None
    {
      CancelAllAutoStartRetries();
      if current.streamID == "" { return None; }
      if stopping { return None; }
      if stream != "" && stream != current.streamID { return None; }
      InvalidateAutoStop(current.streamID);
      stopping := true;
      queue := None;
      generation := generation + 1;
      leaving := Some(current.streamID);
    }

    method StopRevert(stream: Id)
      modifies this`stopping, this`queue, this`minted
      ensures Abstract() == RevertStop(old(Abstract()), stream)
    {
      if current.streamID == stream && stopping {
        stopping := false;
        queue, minted := Some(minted), minted + 1;
      }
    }

    method StopCommit(stream: Id)
      requires Valid()
      modifies this
      ensures Valid()
      ensures Abstract() == CommitStop(old(Abstract()), stream)
    {
      queue := None;
      start := start.(stopped := start.stopped[stream :=
        VoiceDefaults(epoch, current.guildID, current.voiceChannelID, "", false)]);
      current := NO_JOB;
      stopping := false;
      roster := roster.(participants := map[]);
      activeSpeaker := "";
      roster := roster.(speakers := {});
    }

    method DiscordConnected()
      modifies this`disconnected, this`queue, this`minted
      ensures Abstract() == Connect(old(Abstract()))
    {
      disconnected := false;
      if current.streamID != "" && !stopping {
        queue, minted := Some(minted), minted + 1;
      } else {
        queue := None;
      }
    }

    method DiscordDisconnected()
      modifies this
      ensures Abstract() == Disconnect(old(Abstract())) && activeSpeaker == old(activeSpeaker)
    {
      CancelAllAutoStartRetries();
      disconnected := true;
      queue := None;
      generation := generation + 1;
    }

    method RejoinCommit(job: VoiceJob, reconnect: nat)
      modifies this`disconnected, this`queue, this`minted
      ensures Abstract() == CommitRejoin(old(Abstract()), job, reconnect)
    {
      if reconnect == generation && SameJob(current, job) && !stopping {
        disconnected := false;
        queue, minted := Some(minted), minted + 1;
      }
    }

    // ----- voice_defaults.go and runtime_gateway.go -----

    method SetExecutionAuthorityStreams(streams: map<Id, bool>)
      modifies this`start
      ensures start == old(start).(executing := Some(set s | s in streams && streams[s]))
    {
      var executing: set<Id> := {};
      var rest := streams.Keys;
      while rest != {}
        invariant rest <= streams.Keys
        invariant executing == set s | s in streams && s !in rest && streams[s]
        decreases |rest|
      {
        var s :| s in rest;
        rest := rest - {s};
        if streams[s] {
          executing := executing + {s};
        }
      }
      assert executing == set s | s in streams && streams[s];
      start := start.(executing := Some(executing));
    }

    /** The loop of SetStreamVoiceDefaults that installs the incoming projection. */
    method InstallProjection(incoming: map<Id, VoiceDefaults>)
      modifies this`start
      ensures start == old(start).(defaults := Projected(incoming),
                                   pending := PendingAfterEpochs(old(start), Projected(incoming)))
    {
      var previous := start;
      var defaults: map<Id, VoiceDefaults> := map[];
      var pending := start.pending;
      var rest := incoming.Keys;
      while rest != {}
        invariant rest <= incoming.Keys
        invariant defaults == map s | s in incoming && s !in rest && s != "" :: incoming[s]
        invariant start == previous && pending == PendingAfterEpochs(previous, defaults)
        decreases |rest|
      {
        var stream :| stream in rest;
        rest := rest - {stream};
        if stream == "" { continue; }
        var item := incoming[stream];
        InstallOne(previous, defaults, stream, item);
        if stream in previous.defaults && previous.defaults[stream].epoch != item.epoch {
          pending := pending - {stream};
        }
        defaults := defaults[stream := item];
      }
      assert rest == {} && defaults == Projected(incoming);
      start := start.(defaults := defaults, pending := pending);
    }

    /** One loop over earlier projections that keeps the pinned streams. */
    method KeepPinned(items: map<Id, VoiceDefaults>) returns (kept: map<Id, VoiceDefaults>)
      ensures kept == KeptPinned(items, current.streamID, start.executing, start.retries.Keys, start.pending)
    {
      kept := map[];
      var rest := items.Keys;
      while rest != {}
        invariant rest <= items.Keys
        invariant kept == map s | s in items && s !in rest
          && Pinned(current.streamID, start.executing, start.retries.Keys, start.pending, s) :: items[s]
        decreases |rest|
      {
        var s :| s in rest;
        rest := rest - {s};
        if s == current.streamID || (start.executing.Some? && s in start.executing.value)
           || s in start.retries || s in start.pending {
          kept := kept[s := items[s]];
        }
      }
      assert kept == KeptPinned(items, current.streamID, start.executing, start.retries.Keys, start.pending);
    }

    /** The loop that drops the pending starts the projection no longer backs. */
    method PrunePending()
      modifies this`start
      ensures start == old(start).(pending := BackedPending(old(start).pending, start.defaults))
    {
      var pending := start.pending;
      var rest := pending.Keys;
      while rest != {}
        invariant rest <= start.pending.Keys
        invariant pending == map s | s in start.pending && (s in rest || s in start.defaults) :: start.pending[s]
        decreases |rest|
      {
        var stream :| stream in rest;
        rest := rest - {stream};
        if stream !in start.defaults {
          pending := pending - {stream};
        }
      }
      assert pending == BackedPending(start.pending, start.defaults);
      start := start.(pending := pending);
    }

    /** The loop that cancels and drops the reservations the projection no longer backs. */
    method PruneReservations()
      modifies this`start, this`cancelled
      ensures cancelled == old(cancelled) + ObsoleteIDs(old(start).retries, start.defaults)
      ensures start == old(start).(retries := BackedRetries(old(start).retries, start.defaults))
    {
      var retries, defaults := start.retries, start.defaults;
      var rest := retries.Keys;
      var kept: map<Id, Reservation> := map[];
      while rest != {}
        invariant rest <= retries.Keys && start == old(start)
        invariant kept == map s | s in retries && s !in rest && !Obsolete(defaults, s, retries[s]) :: retries[s]
        invariant cancelled == old(cancelled) + set s | s in retries && s !in rest && Obsolete(defaults, s, retries[s]) :: retries[s].id
        decreases |rest|
      {
        var stream :| stream in rest;
        rest := rest - {stream};
        var r := retries[stream];
        if stream !in defaults || !defaults[stream].autoStart || defaults[stream].epoch != r.epoch {
          cancelled := cancelled + {r.id};
        } else {
          kept := kept[stream := r];
        }
      }
      assert kept == BackedRetries(retries, defaults);
      assert cancelled == old(cancelled) + ObsoleteIDs(retries, defaults);
      start := start.(retries := kept);
    }

    /** The loop that lifts the fences whose stream was projected with new authority. */
    method LiftFences()
      modifies this`start
      ensures start == old(start).(stopped := old(start).stopped - Lifted(old(start).stopped, start.defaults),
                                   pending := old(start).pending - Lifted(old(start).stopped, start.defaults))
    {
      var rest := start.stopped.Keys;
      var lifted: set<Id> := {};
      while rest != {}
        invariant rest <= start.stopped.Keys
        invariant lifted == set s | s in start.stopped && s !in rest && Lifts(start.defaults, s, start.stopped[s])
        decreases |rest|
      {
        var stream :| stream in rest;
        rest := rest - {stream};
        var stopped := start.stopped[stream];
        if stream in start.defaults {
          var next := start.defaults[stream];
          if next.epoch != stopped.epoch || next.guildID != stopped.guildID || next.voiceChannelID != stopped.voiceChannelID {
            lifted := lifted + {stream};
          }
        }
      }
      assert lifted == Lifted(start.stopped, start.defaults);
      start := start.(stopped := start.stopped - lifted, pending := start.pending - lifted);
    }

    /** The part of SetStreamVoiceDefaults that replaces the projection and the retained epochs. */
    method ReplaceProjection(incoming: map<Id, VoiceDefaults>)
      modifies this`start
      ensures start == old(start).(defaults := Projected(incoming),
                                   retained := Retained(old(Abstract()), Projected(incoming)),
                                   pending := PendingAfterEpochs(old(start), Projected(incoming)))
    {
      var previousDefaults := start.defaults;
      InstallProjection(incoming);
      if start.executing.None? {
        if start.defaults != map[] {
          start := start.(retained := start.defaults);
        }
      } else {
        var retained := KeepPinned(start.retained);
        var previous := KeepPinned(previousDefaults);
        start := start.(retained := retained + previous + start.defaults);
      }
    }

    method SetStreamVoiceDefaults(incoming: map<Id, VoiceDefaults>)
      requires Valid()
      modifies this`start, this`cancelled
      ensures Valid()
      ensures Abstract() == Project(old(Abstract()), incoming)
    {
      ReplaceProjection(incoming);
      PrunePending();
      PruneReservations();
      LiftFences();
    }
  }
}
