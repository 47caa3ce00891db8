/** What the participant and speaker events do to the roster, to the reports that follow and to the
    empty-channel policy, and what a report that gets its turn publishes. */
module RosterLaws {
  import opened JobTypes
  import opened ManagerState
  import opened ManagerSystem
  import opened SystemFrames
  import opened SnapshotOrder
  import PO = PublishOrder

  // ----- one participant -----

  predicate Accepts(m: State, e: ParticipantEvent) {
    && e.userID != "" && m.current.streamID != "" && e.streamID == m.current.streamID && !m.stopping && !m.disconnected
  }

  /** The roster after one event about one user. */
  predicate ChangedBy(r: Roster, e: ParticipantEvent, now: int, n: Roster) {
    && n.revision == r.revision + 1 && n.snapshotRevision == r.snapshotRevision
    && n.participants - {e.userID} == r.participants - {e.userID}
    && (e.userID in n.participants <==> e.present)
    && (e.present ==> Updated(r.participants, Member(e.userID, e.username, e.avatarURL, e.isBot), now, n.participants[e.userID]))
    && n.speakers == (if e.present then r.speakers else r.speakers - {e.userID})
  }

  /** The speaking edge that the step has handed out, if any. */
  predicate SaysOnly(s: System, n: System, edge: Option<(Id, bool)>) {
    && (edge.Some? <==> exists id :: id in n.tasks && n.tasks[id].SpeakerTask? && s.next <= id)
    && (forall id :: id in n.tasks && n.tasks[id].SpeakerTask? && s.next <= id ==>
          var r := n.tasks[id].speaker;
          && edge.Some? && r.userID == edge.value.0 && r.speaking == edge.value.1
          && r.job == n.m.current && r.revision == n.m.roster.revision && r.generation == n.m.generation)
  }

  lemma FinishSays(s: System, stream: Id, o: Outcome, edge: Option<(Id, bool)>)
    requires Numbered(s) && (edge.Some? <==> o.speaker.Some?)
    requires o.speaker.Some? ==>
      o.speaker.value == SpeakerReport(o.state.current, edge.value.0, edge.value.1, o.state.roster.revision, o.state.generation)
    ensures SaysOnly(s, Finish(s, stream, o), edge)
  {
    var n := Finish(s, stream, o);
    if o.speaker.Some? {
      var id := if o.report.Some? then s.next + 1 else s.next;
      assert n.tasks[id] == SpeakerTask(o.speaker.value);
    }
  }

  predicate ChangesTo(cfg: Config, m: State, e: ParticipantEvent, now: int, o: Outcome) {
    && ChangedBy(m.roster, e, now, o.state.roster) && o == Settle(cfg, m, o.state.roster, o.speaker, now)
    && o.state.current == m.current && o.state.generation == m.generation
    && o.speaker == (if !e.present && e.userID in m.roster.speakers
                     then Some(SpeakerReport(m.current, e.userID, false, o.state.roster.revision, m.generation)) else None)
  }

  lemma ChangeOutcome(cfg: Config, m: State, e: ParticipantEvent, now: int)
    ensures var o := ChangeParticipant(cfg, m, e, now); if Accepts(m, e) then ChangesTo(cfg, m, e, now, o) else o == Unchanged(m)
  {
    if Accepts(m, e) {
      if e.present { JoinedOutcome(cfg, m, e, now); } else { LeftOutcome(cfg, m, e, now); }
    }
  }

  lemma JoinedOutcome(cfg: Config, m: State, e: ParticipantEvent, now: int)
    requires Accepts(m, e) && e.present
    ensures ChangesTo(cfg, m, e, now, ChangeParticipant(cfg, m, e, now))
  {
    var p := Merged(m.roster.participants, Member(e.userID, e.username, e.avatarURL, e.isBot), now);
    var q := m.roster.(participants := m.roster.participants[e.userID := p], revision := m.roster.revision + 1);
    SettleFrame(cfg, m, q, None, now);
    assert q.participants - {e.userID} == m.roster.participants - {e.userID};
  }

  lemma LeftOutcome(cfg: Config, m: State, e: ParticipantEvent, now: int)
    requires Accepts(m, e) && !e.present
    ensures ChangesTo(cfg, m, e, now, ChangeParticipant(cfg, m, e, now))
  {
    var o := ChangeParticipant(cfg, m, e, now);
    var q := m.roster.(participants := m.roster.participants - {e.userID}, speakers := m.roster.speakers - {e.userID}, revision := m.roster.revision + 1);
    SettleFrame(cfg, m, q, o.speaker, now);
    assert q.participants - {e.userID} == m.roster.participants - {e.userID};
  }

  /**
   * MAIN: a participant event of the running stream adds, updates or removes its one user, is reported with
   * the roster it leaves, and silences a speaker who left; any other event changes nothing.
   */
  lemma ParticipantMeans(cfg: Config, s: System, e: ParticipantEvent, now: int)
    requires Numbered(s)
    ensures var n := Apply(cfg, s, ParticipantCall(e), now);
      if !Accepts(s.m, e) then n == s
      else
        && ChangedBy(s.m.roster, e, now, n.m.roster) && NewReport(s, n) && ReportsItself(s, n)
        && SaysOnly(s, n, if !e.present && e.userID in s.m.roster.speakers then Some((e.userID, false)) else None)
  {
    var o := ChangeParticipant(cfg, s.m, e, now);
    ChangeOutcome(cfg, s.m, e, now);
    if Accepts(s.m, e) {
      SettleFrame(cfg, s.m, o.state.roster, o.speaker, now);
      FinishReports(s, s.m.current.streamID, o);
      FinishSays(s, s.m.current.streamID, o, if !e.present && e.userID in s.m.roster.speakers then Some((e.userID, false)) else None);
    }
  }

  // ----- speakers -----

  /** The speaker call concerns a participant of the running stream and would change something. */
  predicate Speaks(m: State, stream: Id, u: Id, speaking: bool, others: bool) {
    && m.current.streamID != "" && !m.stopping && !m.disconnected && (stream == "" || stream == m.current.streamID)
    && u in m.roster.participants
    && (if others then speaking != (u in m.roster.speakers) else !(speaking && m.roster.speakers == {u}))
  }

  lemma OnlySpeaker(speakers: set<Id>, u: Id)
    ensures u in speakers && |speakers| == 1 <==> speakers == {u}
  {
    if u in speakers {
      assert speakers == {u} + (speakers - {u});
      assert |speakers| == 1 + |speakers - {u}|;
    }
  }

  lemma SpeakerOutcome(m: State, stream: Id, u: Id, speaking: bool, others: bool)
    ensures var o := SetSpeaker(m, stream, u, speaking, others); var q := o.state.roster;
      if !Speaks(m, stream, u, speaking, others) then o == Unchanged(m)
      else
        && q.speakers == (if speaking then (if others then m.roster.speakers + {u} else {u}) else m.roster.speakers - {u})
        && o.state == m.(roster := m.roster.(speakers := q.speakers, revision := m.roster.revision + 1))
        && o == Outcome(o.state, Some(ReportOf(o.state)), Some(SpeakerReport(m.current, u, speaking, q.revision, m.generation)), None)
  {
    OnlySpeaker(m.roster.speakers, u);
  }

  /**
   * MAIN: a speaker call makes a participant of the running stream speak, alone or beside the others, or
   * silences it; it is reported with the roster it leaves and as an edge. One that would change nothing,
   * or that is about nobody in the channel, is ignored.
   */
  lemma SpeakerMeans(cfg: Config, s: System, stream: Id, u: Id, speaking: bool, others: bool, now: int)
    requires Numbered(s)
    ensures var n := Apply(cfg, s, SpeakerCall(stream, u, speaking, others), now); var r, q := s.m.roster, n.m.roster;
      if !Speaks(s.m, stream, u, speaking, others) then n == s
      else
        && n.m == s.m.(roster := q) && q == r.(speakers := q.speakers, revision := r.revision + 1)
        && q.speakers == (if speaking then (if others then r.speakers + {u} else {u}) else r.speakers - {u})
        && NewReport(s, n) && ReportsItself(s, n) && SaysOnly(s, n, Some((u, speaking)))
  {
    var o := SetSpeaker(s.m, stream, u, speaking, others);
    SpeakerOutcome(s.m, stream, u, speaking, others);
    if Speaks(s.m, stream, u, speaking, others) {
      FinishReports(s, s.m.current.streamID, o);
      FinishSays(s, s.m.current.streamID, o, Some((u, speaking)));
    }
  }

  /** MAIN: clearing silences everybody of the running stream at once, if anybody speaks. */
  lemma ClearMeans(cfg: Config, s: System, stream: Id, now: int)
    requires Numbered(s)
    ensures var n := Apply(cfg, s, ClearCall(stream), now); var r := s.m.roster;
      if s.m.current.streamID == "" || (stream != "" && stream != s.m.current.streamID) || r.speakers == {} then n == s
      else
        && n.m == s.m.(roster := r.(speakers := {}, revision := r.revision + 1))
        && NewReport(s, n) && ReportsItself(s, n) && SaysOnly(s, n, Some(("", false)))
  {
    var o := ClearSpeakers(s.m, stream);
    if o.report.Some? {
      FinishReports(s, s.m.current.streamID, o);
      FinishSays(s, s.m.current.streamID, o, Some(("", false)));
    }
  }

  // ----- the empty-channel policy -----

  /** An event that installs another roster: a participant event, or a snapshot that somebody brings. */
  predicate Installing(cfg: Config, s: System, e: Event) {
    (e.ParticipantCall? && Accepts(s.m, e.participant)) || InstallsNow(s, e)
  }

  /** The stop is armed: somebody is to be asked, no stop is pending, and the last request is long enough ago. */
  predicate Arms(cfg: Config, m: State, now: int) {
    var stream := m.current.streamID;
    && m.stopper && stream !in m.stop.pending
    && (stream in m.stop.lastAttempt ==> m.stop.lastAttempt[stream] + cfg.stopCooldown <= now)
  }

  /** What an empty channel does: a new generation without attempts, or nothing. */
  predicate Emptied(cfg: Config, m: State, now: int, n: State) {
    var stream := m.current.streamID;
    if Arms(cfg, m, now)
    then
      && stream in n.stop.generation && n.stop.generation[stream] == Count(m.stop.generation, stream) + 1
      && n.stop == m.stop.(pending := m.stop.pending + {stream}, attempts := m.stop.attempts[stream := 0],
                           generation := m.stop.generation[stream := n.stop.generation[stream]])
      && n.rejoin == m.rejoin && n.cancelled == m.cancelled
    else n.stop == m.stop && n.rejoin == m.rejoin && n.cancelled == m.cancelled
  }

  /** What an occupied channel does: no stop is pending or remembered any more, its generation is over, and a
      request under way is cancelled and leaves a rejoin intent of its epoch. */
  predicate Occupied(m: State, n: State) {
    var stream, key := m.current.streamID, VoiceTarget(m.current.guildID, m.current.voiceChannelID);
    stream != "" ==>
      && stream !in n.stop.pending && stream !in n.stop.attempts && stream !in n.stop.lastAttempt && stream !in n.stop.inFlight
      && stream in n.stop.generation && n.stop.generation[stream] == Count(m.stop.generation, stream) + 1
      && (stream !in m.stop.inFlight ==> n.rejoin == m.rejoin && n.cancelled == m.cancelled)
      && (stream in m.stop.inFlight ==>
            && n.cancelled == m.cancelled + {m.stop.inFlight[stream].context}
            && (key.guildID != "" && key.voiceChannelID != "" ==> key in n.rejoin.intents && n.rejoin.intents[key].source == stream)
            && (key in n.rejoin.intents && !(key in m.rejoin.intents && n.rejoin.intents[key] == m.rejoin.intents[key]) ==>
                  n.rejoin.intents[key] == Intent(m.stop.inFlight[stream].epoch, key.guildID, key.voiceChannelID, stream, m.rejoin.sequence + 1)))
      && n.stop.pending == m.stop.pending - {stream} && n.stop.inFlight == m.stop.inFlight - {stream}
  }

  lemma SettleEmptied(cfg: Config, m: State, r: Roster, speaker: Option<SpeakerReport>, now: int)
    requires r.participants == map[]
    ensures var o := Settle(cfg, m, r, speaker, now);
      Emptied(cfg, m, now, o.state) && (o.armed.Some? <==> Arms(cfg, m, now))
      && (o.armed.Some? ==> o.armed.value == Count(m.stop.generation, m.current.streamID) + 1)
  {
  }

  lemma SettleOccupied(cfg: Config, m: State, r: Roster, speaker: Option<SpeakerReport>, now: int)
    requires r.participants != map[]
    ensures var o := Settle(cfg, m, r, speaker, now); Occupied(m, o.state) && o.armed.None?
  {
    if m.current.streamID != "" { RequestEnds(m, m.(roster := r)); }
  }

  lemma RequestEnds(m: State, k: State)
    requires m.current.streamID != "" && k == m.(roster := k.roster)
    ensures var stream := m.current.streamID;
      Occupied(m, CancelStop(if stream in m.stop.inFlight then RecordIntent(k, stream, m.current.guildID, m.current.voiceChannelID) else k, stream))
  {
    var stream := m.current.streamID;
    var i := if stream in m.stop.inFlight then RecordIntent(k, stream, m.current.guildID, m.current.voiceChannelID) else k;
    RecordingMeans(k, stream, m.current.guildID, m.current.voiceChannelID);
    CancellingMeans(i, stream);
  }

  /** Cancelling a stop starts a new generation with nothing pending, and ends the request under way. */
  lemma CancellingMeans(m: State, stream: Id)
    requires stream != ""
    ensures var n := CancelStop(m, stream);
      && n == m.(stop := n.stop, cancelled := n.cancelled)
      && stream in n.stop.generation && n.stop.generation[stream] == Count(m.stop.generation, stream) + 1
      && n.stop == AutoStop(m.stop.pending - {stream}, m.stop.generation[stream := n.stop.generation[stream]],
                            m.stop.attempts - {stream}, m.stop.inFlight - {stream}, m.stop.lastAttempt - {stream})
      && n.cancelled == (if stream in m.stop.inFlight then m.cancelled + {m.stop.inFlight[stream].context} else m.cancelled)
  {
    if stream !in m.stop.inFlight { assert m.stop.inFlight - {stream} == m.stop.inFlight; }
  }

  /** An intent is recorded once per channel and stream, under the next number and the epoch of the request. */
  lemma RecordingMeans(m: State, source: Id, guild: Id, voice: Id)
    ensures var n, key := RecordIntent(m, source, guild, voice), VoiceTarget(guild, voice);
      if source == "" || guild == "" || voice == "" || (key in m.rejoin.intents && m.rejoin.intents[key].source == source) then n == m
      else
        && n == m.(rejoin := n.rejoin) && n.rejoin.sequence == m.rejoin.sequence + 1 && n.rejoin.running == m.rejoin.running
        && n.rejoin.intents == m.rejoin.intents[key := Intent(
             if source in m.stop.inFlight then m.stop.inFlight[source].epoch else m.epoch, guild, voice, source, m.rejoin.sequence + 1)]
  {
  }

  lemma InstallingSettles(cfg: Config, s: System, e: Event, now: int) returns (o: Outcome)
    requires Installing(cfg, s, e)
    ensures Apply(cfg, s, e, now).m == o.state && o == Settle(cfg, s.m, o.state.roster, o.speaker, now)
    ensures e.ParticipantCall? ==> Apply(cfg, s, e, now) == Finish(s, s.m.current.streamID, o)
    ensures e.SyncCall? ==> Apply(cfg, s, e, now) == Finish(s, s.m.current.streamID, o)
  {
    if e.ParticipantCall? {
      o := ChangeParticipant(cfg, s.m, e.participant, now);
      ChangeOutcome(cfg, s.m, e.participant, now);
    } else {
      var b := Brought(s, e).value;
      o := SyncParticipants(cfg, s.m, b.0, b.1, now);
      BroughtOutcome(cfg, s, e, now);
      OutcomeOfSync(cfg, s.m, b.0, b.1, now);
    }
  }

  /**
   * MAIN: whatever installs a roster, an empty one arms a stop of a new generation exactly when somebody can
   * be asked, none is pending and the cooldown of the last request is over, and an occupied one ends the
   * stream's generation and cancels the request under way.
   */
  lemma PolicyMeans(cfg: Config, s: System, e: Event, now: int)
    requires Installing(cfg, s, e)
    ensures var n := Apply(cfg, s, e, now).m; if n.roster.participants == map[] then Emptied(cfg, s.m, now, n) else Occupied(s.m, n)
  {
    var o := InstallingSettles(cfg, s, e, now);
    if o.state.roster.participants == map[] {
      SettleEmptied(cfg, s.m, o.state.roster, o.speaker, now);
    } else {
      SettleOccupied(cfg, s.m, o.state.roster, o.speaker, now);
    }
  }

  /** MAIN: and the task of the new generation is there exactly when the stop is armed. */
  lemma ArmedTaskStarts(cfg: Config, s: System, e: Event, now: int)
    requires Installing(cfg, s, e) && !e.Run? && Numbered(s)
    ensures var n := Apply(cfg, s, e, now); var stream := s.m.current.streamID;
      (exists id :: s.next <= id && id in n.tasks && n.tasks[id] == StopTask(stream, Count(s.m.stop.generation, stream) + 1, false, StopWaiting))
      <==> n.m.roster.participants == map[] && Arms(cfg, s.m, now)
  {
    var o := InstallingSettles(cfg, s, e, now);
    if o.state.roster.participants == map[] {
      SettleEmptied(cfg, s.m, o.state.roster, o.speaker, now);
    } else {
      SettleOccupied(cfg, s.m, o.state.roster, o.speaker, now);
    }
    FinishArms(s, s.m.current.streamID, o);
  }

  lemma FinishArms(s: System, stream: Id, o: Outcome)
    requires Numbered(s)
    ensures var n := Finish(s, stream, o);
      && (o.armed.Some? ==> exists id :: s.next <= id && id in n.tasks && n.tasks[id] == StopTask(stream, o.armed.value, false, StopWaiting))
      && (o.armed.None? ==> forall id :: s.next <= id && id in n.tasks ==> !n.tasks[id].StopTask?)
  {
    var n := Finish(s, stream, o);
    if o.armed.Some? { assert n.tasks[n.next - 1] == StopTask(stream, o.armed.value, false, StopWaiting); }
  }

  // ----- publishing -----

  /** The report is still of the running job and connection, and publishing is not paused. */
  predicate StillOf(m: State, job: VoiceJob, generation: nat) {
    !m.stopping && !m.disconnected && SameJob(m.current, job) && m.generation == generation
  }

  /** The publication is the current list, or the current flag of one user, at the current revision. */
  predicate Current(m: State, p: Publication) {
    && p.generation == m.generation && p.revision == m.roster.revision && Lists(p.view, m.roster)
    && match p.body
       case List(rows) => Lists(rows, m.roster)
       case Edge(u, speaking) => speaking <==> u in m.roster.speakers
  }

  /** The task has taken the report lock with a publication of the state as it is. */
  predicate TakesLock(s: System, n: System, id: nat) {
    && n.holder == Some(id) && id in n.tasks && n.tasks[id].PublishTask? && Current(s.m, n.tasks[id].publication)
    && n == s.(tasks := s.tasks[id := n.tasks[id]], holder := n.holder)
  }

  /**
   * MAIN: in every reachable state a participant report that gets the free lock publishes the current list if
   * its job and connection still run, whatever has changed since, and is dropped otherwise.
   */
  lemma ReportPublishesTheList(cfg: Config, run: seq<Timed>, id: nat, answer: Answer, now: int)
    requires var s := Execute(cfg, BOOT, run); id in s.tasks && s.tasks[id].ReportTask? && s.holder.None?
    ensures var s := Execute(cfg, BOOT, run); var n, r := Apply(cfg, s, Run(id, answer), now), s.tasks[id].report;
      if StillOf(s.m, r.job, r.generation) then TakesLock(s, n, id) && n.tasks[id].publication.body.List?
      else n == s.(tasks := s.tasks - {id})
  {
    var s := Execute(cfg, BOOT, run);
    PO.InvHolds(cfg, run);
    SoundReportPublishes(cfg, s, id, s.tasks[id], answer, now);
  }

  lemma SoundReportPublishes(cfg: Config, s: System, id: nat, t: Task, answer: Answer, now: int)
    requires id in s.tasks && s.tasks[id] == t && t.ReportTask? && s.holder.None? && PO.TaskOK(s.m, t)
    ensures var n := RunReport(s, id, t);
      if StillOf(s.m, t.report.job, t.report.generation) then TakesLock(s, n, id) && n.tasks[id].publication.body.List?
      else n == s.(tasks := s.tasks - {id})
  {
  }

  /** MAIN: a speaking edge is published only at the very revision it was made at, with the flag that user has. */
  lemma EdgePublishesTheFlag(cfg: Config, run: seq<Timed>, id: nat, answer: Answer, now: int)
    requires var s := Execute(cfg, BOOT, run); id in s.tasks && s.tasks[id].SpeakerTask? && s.holder.None?
    ensures var s := Execute(cfg, BOOT, run); var n, r := Apply(cfg, s, Run(id, answer), now), s.tasks[id].speaker;
      if StillOf(s.m, r.job, r.generation) && r.revision == s.m.roster.revision
      then TakesLock(s, n, id) && n.tasks[id].publication.body == Edge(r.userID, r.speaking)
      else n == s.(tasks := s.tasks - {id})
  {
    var s := Execute(cfg, BOOT, run);
    PO.InvHolds(cfg, run);
    assert PO.TaskOK(s.m, s.tasks[id]);
  }

  /** MAIN: publishing ends the task, hands out exactly what it holds, and frees the lock; while it is held no report moves. */
  lemma PublishingMeans(cfg: Config, s: System, id: nat, answer: Answer, now: int)
    requires id in s.tasks
    ensures s.tasks[id].PublishTask? ==>
      Apply(cfg, s, Run(id, answer), now)
        == s.(tasks := s.tasks - {id}, holder := None, trace := s.trace + [Published(s.tasks[id].publication)])
    ensures s.holder.Some? && (s.tasks[id].ReportTask? || s.tasks[id].SpeakerTask?) ==> Apply(cfg, s, Run(id, answer), now) == s
  {
  }

  /** MAIN: a retried report publishes the state as it is, if it comes from the running job's own queue and connection. */
  lemma RetryPublishesTheState(cfg: Config, run: seq<Timed>, queue: nat, job: VoiceJob, generation: nat, edge: Option<Id>, now: int)
    ensures var s := Execute(cfg, BOOT, run); var n := Apply(cfg, s, RetryCall(queue, job, generation, edge), now);
      if s.holder.None? && s.m.queue == Some(queue) && SameJob(s.m.current, job) && s.m.generation == generation
      then
        && n.next == s.next + 1 && TakesLock(s.(next := n.next), n, s.next)
        && (match edge case None => n.tasks[s.next].publication.body.List? case Some(u) => n.tasks[s.next].publication.body.Edge? && n.tasks[s.next].publication.body.userID == u)
      else n == s
  {
    PO.InvHolds(cfg, run);
    SoundRetryPublishes(Execute(cfg, BOOT, run), queue, job, generation, edge);
  }

  lemma SoundRetryPublishes(s: System, queue: nat, job: VoiceJob, generation: nat, edge: Option<Id>)
    requires PO.RosterOK(s.m)
    ensures var n := ApplyRetry(s, queue, job, generation, edge);
      if s.holder.None? && s.m.queue == Some(queue) && SameJob(s.m.current, job) && s.m.generation == generation
      then
        && n.next == s.next + 1 && TakesLock(s.(next := n.next), n, s.next)
        && (match edge case None => n.tasks[s.next].publication.body.List? case Some(u) => n.tasks[s.next].publication.body.Edge? && n.tasks[s.next].publication.body.userID == u)
      else n == s
  {
  }
}
