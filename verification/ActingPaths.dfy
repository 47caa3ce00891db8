/** That the automatic stop and start do act: the stages of their goroutines one by one, and the undisturbed
    runs that end with the panel being asked. */
module ActingPaths {
  import opened JobTypes
  import opened ManagerState
  import opened ManagerSystem
  import opened SystemFrames
  import SA = StopAnswers
  import RL = RosterLaws
  import JL = JoinLaws

  // ----- the stages of a stop before its request -----

  /** The generation is still wanted, by the job and connection it was looked at for. */
  predicate WantedFor(m: State, stream: Id, g: nat, job: VoiceJob, reconnect: nat) {
    SA.StillWanted(m, stream, g) && m.generation == reconnect && SameJob(m.current, job)
  }

  /** The task takes another stage, and nothing else happens but the observation. */
  predicate GoesOn(s: System, n: System, id: nat, t: Task, seen: seq<Observation>) {
    n == s.(tasks := s.tasks[id := t], trace := s.trace + seen)
  }

  /** MAIN: a reading without members confirms that the channel is empty, one with members goes on to be merged,
      and where nothing can be read the generation is given up. */
  lemma ReadingMeans(cfg: Config, s: System, id: nat, answer: Answer, now: int)
    requires id in s.tasks && s.tasks[id].StopTask? && s.tasks[id].stopPhase.StopReading?
    ensures var n, t := Apply(cfg, s, Run(id, answer), now), s.tasks[id]; var p := t.stopPhase;
      match answer
      case Seen(w) =>
        if w.members == [] then GoesOn(s, n, id, t.(stopPhase := StopEmptied(p.job, p.reconnect)), [EmptyRead(t.stream, t.generation)])
        else GoesOn(s, n, id, t.(stopPhase := StopSyncing(p.job, p.reconnect, p.revision, w)), [])
      case Unknown => GoesOn(s, n, id, t.(stopPhase := StopCancelling(p.job, p.reconnect)), [])
      case _ => n == s
  {
    assert s.trace + [] == s.trace;
  }

  /**
   * MAIN: the other stages of a stop up to its request. A generation no longer wanted ends it; one that is
   * takes a reading where there is a source; the first confirmation waits again, the second leads to the
   * request; and giving up ends the generation, if it is still the one that was looked at.
   */
  lemma StopStagesMean(cfg: Config, s: System, id: nat, answer: Answer, now: int)
    requires id in s.tasks && s.tasks[id].StopTask? && s.tasks[id].generation > 0 && s.tasks[id].stream != ""
    ensures var n, t := Apply(cfg, s, Run(id, answer), now), s.tasks[id];
      match t.stopPhase
      case StopWaiting =>
        if !SA.StillWanted(s.m, t.stream, t.generation) then n == s.(tasks := s.tasks - {id})
        else GoesOn(s, n, id, t.(stopPhase := if cfg.snapshotSource then StopReading(s.m.current, s.m.generation, s.m.roster.revision)
                                              else StopIssuing(s.m.current, s.m.generation)), [])
      case StopCancelling(job, reconnect) =>
        && n == s.(tasks := s.tasks - {id}, m := n.m)
        && (if WantedFor(s.m, t.stream, t.generation, job, reconnect)
            then t.stream !in n.m.stop.pending && Count(n.m.stop.generation, t.stream) == t.generation + 1 else n.m == s.m)
      case StopEmptied(job, reconnect) =>
        if !WantedFor(s.m, t.stream, t.generation, job, reconnect) then n == s.(tasks := s.tasks - {id})
        else GoesOn(s, n, id, if t.passed then t.(stopPhase := StopIssuing(job, reconnect)) else t.(passed := true, stopPhase := StopWaiting), [])
      case _ => true
  {
    assert s.trace + [] == s.trace;
    RL.CancellingMeans(s.m, s.tasks[id].stream);
  }

  /** MAIN: the request is made exactly if the generation is still wanted for its job and connection, and
      leaves its time and an in-flight record of the epoch, the generation and the job. */
  lemma RequestMeans(cfg: Config, s: System, id: nat, answer: Answer, now: int)
    requires id in s.tasks && s.tasks[id].StopTask? && s.tasks[id].generation > 0 && s.tasks[id].stopPhase.StopIssuing?
    ensures var n, t := Apply(cfg, s, Run(id, answer), now), s.tasks[id]; var p, m := t.stopPhase, s.m;
      if !WantedFor(m, t.stream, t.generation, p.job, p.reconnect) then n == s.(tasks := s.tasks - {id})
      else
        n == s.(tasks := s.tasks[id := t.(stopPhase := StopRequested)], trace := s.trace + [StopIssued(t.stream, t.generation)],
                m := m.(minted := m.minted + 1, stop := m.stop.(
                  lastAttempt := m.stop.lastAttempt[t.stream := now],
                  inFlight := m.stop.inFlight[t.stream := InFlight(m.epoch, t.generation, m.minted, m.current)])))
  {
  }

  /**
   * MAIN: an undisturbed stop of an empty channel does ask the panel: after its delay, a reading without
   * members, its second delay and another such reading, and with a record of the job that runs.
   */
  lemma EmptyChannelIsStopped(cfg: Config, s: System, id: nat, w: Snapshot, v: Snapshot, now: int)
    requires id in s.tasks && s.tasks[id].StopTask? && s.tasks[id] == StopTask(s.m.current.streamID, s.tasks[id].generation, false, StopWaiting)
    requires cfg.snapshotSource && w.members == [] && v.members == [] && s.tasks[id].generation > 0 && s.m.current.streamID != ""
    requires SA.StillWanted(s.m, s.m.current.streamID, s.tasks[id].generation)
    ensures var n, t := Answered(cfg, s, id, [Done, Seen(w), Done, Done, Seen(v), Done, Done], now), s.tasks[id];
      && n.trace == s.trace + [EmptyRead(t.stream, t.generation), EmptyRead(t.stream, t.generation), StopIssued(t.stream, t.generation)]
      && id in n.tasks && n.tasks[id] == t.(passed := true, stopPhase := StopRequested)
      && n.m.stop.inFlight == s.m.stop.inFlight[t.stream := InFlight(s.m.epoch, t.generation, s.m.minted, s.m.current)]
  {
    var t := s.tasks[id];
    var k := Answered(cfg, s, id, [Done, Seen(w), Done], now);
    FirstReading(cfg, s, id, t, w, now);
    SecondReading(cfg, k, id, k.tasks[id], v, now);
    AnsweredInTwo(cfg, s, id, [Done, Seen(w), Done], [Done, Seen(v), Done, Done], now);
    assert [Done, Seen(w), Done] + [Done, Seen(v), Done, Done] == [Done, Seen(w), Done, Done, Seen(v), Done, Done];
  }

  /** One task takes its steps with these answers, and nothing else happens in between. */
  ghost function Answered(cfg: Config, s: System, id: nat, answers: seq<Answer>, now: int): System
    decreases |answers|
  {
    if answers == [] then s else Answered(cfg, Apply(cfg, s, Run(id, answers[0]), now), id, answers[1..], now)
  }

  lemma {:induction false} AnsweredInTwo(cfg: Config, s: System, id: nat, first: seq<Answer>, second: seq<Answer>, now: int)
    ensures Answered(cfg, s, id, first + second, now) == Answered(cfg, Answered(cfg, s, id, first, now), id, second, now)
    decreases |first|
  {
    if first == [] {
      assert first + second == second;
    } else {
      assert (first + second)[1..] == first[1..] + second;
      AnsweredInTwo(cfg, Apply(cfg, s, Run(id, first[0]), now), id, first[1..], second, now);
    }
  }

  lemma AnsweredOne(cfg: Config, s: System, id: nat, answer: Answer, rest: seq<Answer>, now: int)
    ensures Answered(cfg, s, id, [answer] + rest, now) == Answered(cfg, Apply(cfg, s, Run(id, answer), now), id, rest, now)
  {
    assert ([answer] + rest)[1..] == rest;
  }

  lemma FirstReading(cfg: Config, s: System, id: nat, t: Task, w: Snapshot, now: int)
    requires id in s.tasks && s.tasks[id] == t && t.StopTask? && t.stopPhase.StopWaiting? && !t.passed && t.generation > 0 && t.stream != ""
    requires cfg.snapshotSource && w.members == [] && SA.StillWanted(s.m, t.stream, t.generation)
    ensures GoesOn(s, Answered(cfg, s, id, [Done, Seen(w), Done], now), id, t.(passed := true), [EmptyRead(t.stream, t.generation)])
  {
    var s1 := Apply(cfg, s, Run(id, Done), now);
    var s2 := Apply(cfg, s1, Run(id, Seen(w)), now);
    StopStagesMean(cfg, s, id, Done, now);
    ReadingMeans(cfg, s1, id, Seen(w), now);
    StopStagesMean(cfg, s2, id, Done, now);
    AnsweredOne(cfg, s, id, Done, [Seen(w), Done], now);
    AnsweredOne(cfg, s1, id, Seen(w), [Done], now);
    AnsweredOne(cfg, s2, id, Done, [], now);
    assert [Done] + [Seen(w), Done] == [Done, Seen(w), Done] && [Seen(w)] + [Done] == [Seen(w), Done] && [Done] + [] == [Done];
  }

  lemma SecondReading(cfg: Config, s: System, id: nat, t: Task, w: Snapshot, now: int)
    requires id in s.tasks && s.tasks[id] == t && t.StopTask? && t.stopPhase.StopWaiting? && t.passed && t.generation > 0 && t.stream != ""
    requires cfg.snapshotSource && w.members == [] && SA.StillWanted(s.m, t.stream, t.generation)
    ensures var n := Answered(cfg, s, id, [Done, Seen(w), Done, Done], now);
      && n.trace == s.trace + [EmptyRead(t.stream, t.generation), StopIssued(t.stream, t.generation)]
      && id in n.tasks && n.tasks[id] == t.(stopPhase := StopRequested)
      && n.m.stop.inFlight == s.m.stop.inFlight[t.stream := InFlight(s.m.epoch, t.generation, s.m.minted, s.m.current)]
  {
    var s1 := Apply(cfg, s, Run(id, Done), now);
    var s2 := Apply(cfg, s1, Run(id, Seen(w)), now);
    var s3 := Apply(cfg, s2, Run(id, Done), now);
    StopStagesMean(cfg, s, id, Done, now);
    ReadingMeans(cfg, s1, id, Seen(w), now);
    StopStagesMean(cfg, s2, id, Done, now);
    RequestMeans(cfg, s3, id, Done, now);
    AnsweredOne(cfg, s, id, Done, [Seen(w), Done, Done], now);
    AnsweredOne(cfg, s1, id, Seen(w), [Done, Done], now);
    AnsweredOne(cfg, s2, id, Done, [Done], now);
    AnsweredOne(cfg, s3, id, Done, [], now);
    assert [Done] + [Seen(w), Done, Done] == [Done, Seen(w), Done, Done] && [Seen(w)] + [Done, Done] == [Seen(w), Done, Done];
    assert [Done] + [Done] == [Done, Done] && [Done] + [] == [Done];
  }

  // ----- the stages of a start before its call -----

  /** The reservation is the stream's own, no job runs, and connection, epoch and channel are as it was made for. */
  ghost predicate MayCall(m: State, stream: Id, r: Reservation) {
    && stream in m.start.retries && m.start.retries[stream].id == r.id && m.current.streamID == "" && m.generation == r.generation
    && (if stream in m.start.defaults then m.start.defaults[stream].epoch == r.epoch else r.epoch == "")
    && r.guildID != "" && r.voiceChannelID != "" && JL.OnlyStream(m.start.defaults, stream, r.guildID, r.voiceChannelID)
  }

  lemma MayCallIsValid(m: State, stream: Id, r: Reservation)
    requires stream != ""
    ensures StartValid(m, stream, r) <==> MayCall(m, stream, r)
  {
    JL.LookupsMean(m, r.guildID, r.voiceChannelID, stream);
  }

  /**
   * MAIN: the stages of a start up to its call. A reservation that may not call any more finishes; one that
   * may reads the presence where there is a source, and calls if a member is known to be there and it still
   * may; an unknown or missing presence gives the reservation up with its cooldown. A canceled wait
   * finishes, an elapsed one checks again.
   */
  lemma StartStagesMean(cfg: Config, s: System, id: nat, answer: Answer, now: int)
    requires id in s.tasks && s.tasks[id].StartTask? && s.tasks[id].stream != ""
    ensures var n, t := Apply(cfg, s, Run(id, answer), now), s.tasks[id];
      var finishing := s.tasks[id := t.(startPhase := StartFinishing)];
      match t.startPhase
      case StartChecking =>
        if !MayCall(s.m, t.stream, t.r) || (t.calls == 0 && t.r.id in s.m.cancelled) then n == s.(tasks := finishing)
        else GoesOn(s, n, id, t.(startPhase := if cfg.presenceSource then StartReading else StartCalling), [StartChecked(t.r.id)])
      case StartReading =>
        (match answer
         case Presence(known, present) =>
           GoesOn(s, n, id, t.(startPhase := StartDeciding(known, present)), if known && present then [StartPresent(t.r.id)] else [])
         case _ => n == s)
      case StartDeciding(known, present) =>
        if MayCall(s.m, t.stream, t.r) && known && present then GoesOn(s, n, id, t.(startPhase := StartCalling), [StartChecked(t.r.id)])
        else
          && n == s.(tasks := finishing, m := n.m)
          && (if MayCall(s.m, t.stream, t.r)
              then t.stream !in n.m.start.retries && t.stream !in n.m.start.pending && t.r.id in n.m.cancelled else n.m == s.m)
      case StartCalling =>
        (match answer
         case Replied(result) =>
           GoesOn(s, n, id, t.(calls := t.calls + 1, startPhase := StartNoting(result)), [StartCalled(t.stream, t.r.id, result)])
         case _ => n == s)
      case StartBackoff =>
        n == s.(tasks := if answer.Failed? && t.r.id in s.m.cancelled then finishing else s.tasks[id := t.(startPhase := StartChecking)])
      case _ => true
  {
    MayCallIsValid(s.m, s.tasks[id].stream, s.tasks[id].r);
    assert s.trace + [] == s.trace;
  }

  /**
   * MAIN: an undisturbed join into the channel of a waiting stream does ask for its start: it is reserved,
   * checked, its member found present, checked again, and the panel is called.
   */
  lemma JoinIsCalled(cfg: Config, s: System, e: JoinEvent, stream: Id, result: StartResult, now: int)
    requires Numbered(s) && s.m.current.streamID == "" && cfg.presenceSource && "" !in s.m.start.defaults && JL.Names(e) && stream != ""
    requires forall owner :: owner != "" ==> !JL.OnlyRequest(s.m.stop.inFlight, owner, e.guildID, e.voiceChannelID)
    requires JL.OnlyStream(s.m.start.defaults, stream, e.guildID, e.voiceChannelID) && JL.Reserves(cfg, s.m, e, stream, now)
    requires s.m.minted !in s.m.cancelled
    ensures var s1 := Apply(cfg, s, JoinCall(e), now); var s2 := Apply(cfg, s1, Run(s.next, Done), now);
      var n, id := Answered(cfg, s2, s1.next, [Done, Presence(true, true), Done, Replied(result)], now), s.m.minted;
      n.trace == s.trace + [StartReserved(stream, id, e.existing)] + [StartChecked(id)] + [StartPresent(id)] + [StartChecked(id)] + [StartCalled(stream, id, result)]
  {
    var s1 := Apply(cfg, s, JoinCall(e), now);
    var s2 := Apply(cfg, s1, Run(s.next, Done), now);
    JoinIsReserved(cfg, s, e, stream, now);
    CheckedAndCalled(cfg, s2, s1.next, s2.tasks[s1.next], result, now);
  }

  /** The join's two sections leave one task that may call. */
  lemma JoinIsReserved(cfg: Config, s: System, e: JoinEvent, stream: Id, now: int)
    requires Numbered(s) && s.m.current.streamID == "" && "" !in s.m.start.defaults && JL.Names(e) && stream != ""
    requires forall owner :: owner != "" ==> !JL.OnlyRequest(s.m.stop.inFlight, owner, e.guildID, e.voiceChannelID)
    requires JL.OnlyStream(s.m.start.defaults, stream, e.guildID, e.voiceChannelID) && JL.Reserves(cfg, s.m, e, stream, now)
    requires s.m.minted !in s.m.cancelled
    ensures var s1 := Apply(cfg, s, JoinCall(e), now); var s2 := Apply(cfg, s1, Run(s.next, Done), now);
      && s2.trace == s.trace + [StartReserved(stream, s.m.minted, e.existing)]
      && s1.next in s2.tasks && s2.tasks[s1.next].StartTask? && s2.tasks[s1.next].startPhase.StartChecking? && s2.tasks[s1.next].stream == stream
      && s2.tasks[s1.next].r.id == s.m.minted && s.m.minted !in s2.m.cancelled && MayCall(s2.m, stream, s2.tasks[s1.next].r)
  {
    var s1 := Apply(cfg, s, JoinCall(e), now);
    JL.JoinWhileIdle(cfg, s, e, now);
    var t := s1.tasks[s.next];
    assert t == JoinTask(e, JoinReserve(stream), now);
    ReservedMayCall(cfg, s1, s.next, t, stream, now);
  }

  lemma ReservedMayCall(cfg: Config, s: System, id: nat, t: Task, stream: Id, now: int)
    requires id in s.tasks && s.tasks[id] == t && t.JoinTask? && t.plan == JoinReserve(stream) && id < s.next && stream != ""
    requires JL.Reserves(cfg, s.m, t.event, stream, t.at) && s.m.current.streamID == "" && JL.Names(t.event) && s.m.minted !in s.m.cancelled
    requires JL.OnlyStream(s.m.start.defaults, stream, t.event.guildID, t.event.voiceChannelID)
    ensures var n := Apply(cfg, s, Run(id, Done), now);
      && n.trace == s.trace + [StartReserved(stream, s.m.minted, t.event.existing)]
      && s.next in n.tasks && n.tasks[s.next].StartTask? && n.tasks[s.next].startPhase.StartChecking? && n.tasks[s.next].stream == stream
      && n.tasks[s.next].r.id == s.m.minted && s.m.minted !in n.m.cancelled && MayCall(n.m, stream, n.tasks[s.next].r)
  {
    JL.ReserveMeans(cfg, s.m, t.event, stream, t.at);
  }

  lemma CheckedAndCalled(cfg: Config, s: System, id: nat, t: Task, result: StartResult, now: int)
    requires id in s.tasks && s.tasks[id] == t && t.StartTask? && t.startPhase.StartChecking? && t.stream != ""
    requires cfg.presenceSource && MayCall(s.m, t.stream, t.r) && t.r.id !in s.m.cancelled
    ensures Answered(cfg, s, id, [Done, Presence(true, true), Done, Replied(result)], now).trace
      == s.trace + [StartChecked(t.r.id)] + [StartPresent(t.r.id)] + [StartChecked(t.r.id)] + [StartCalled(t.stream, t.r.id, result)]
  {
    var s1 := Apply(cfg, s, Run(id, Done), now);
    var s2 := Apply(cfg, s1, Run(id, Presence(true, true)), now);
    var s3 := Apply(cfg, s2, Run(id, Done), now);
    StartStagesMean(cfg, s, id, Done, now);
    StartStagesMean(cfg, s1, id, Presence(true, true), now);
    StartStagesMean(cfg, s2, id, Done, now);
    StartStagesMean(cfg, s3, id, Replied(result), now);
    AnsweredOne(cfg, s, id, Done, [Presence(true, true), Done, Replied(result)], now);
    AnsweredOne(cfg, s1, id, Presence(true, true), [Done, Replied(result)], now);
    AnsweredOne(cfg, s2, id, Done, [Replied(result)], now);
    AnsweredOne(cfg, s3, id, Replied(result), [], now);
    assert [Done] + [Presence(true, true), Done, Replied(result)] == [Done, Presence(true, true), Done, Replied(result)];
    assert [Presence(true, true)] + [Done, Replied(result)] == [Presence(true, true), Done, Replied(result)];
    assert [Done] + [Replied(result)] == [Done, Replied(result)] && [Replied(result)] + [] == [Replied(result)];
  }
}
