/** Where the reservations of a run come from: every start task goes back to one reserving step, and
    carries what that step found. */
module ReservationOrigin {
  import opened JobTypes
  import opened ManagerState
  import opened ManagerSystem
  import opened SystemFrames

  /** The reservation was made in state m for the join event j. */
  predicate MadeIn(m: State, j: JoinEvent, stream: Id, r: Reservation) {
    && stream != "" && stream !in m.start.retries && m.starter && r.id == m.minted
    && r.epoch == EpochOf(m.start.defaults, stream) && r.generation == m.generation
    && r.guildID == j.guildID && r.voiceChannelID == j.voiceChannelID && AuthorityMatches(stream, r.epoch, j)
    && (j.existing ==> stream !in m.start.stopped)
  }

  /** The event is the step of a join task that makes this reservation. */
  ghost predicate MadeBy(s: System, e: Event, stream: Id, r: Reservation) {
    e.Run? && e.task in s.tasks && s.tasks[e.task].JoinTask? && MadeIn(s.m, s.tasks[e.task].event, stream, r)
  }

  predicate SameStart(s: System, t: Task, id: nat)
    requires t.StartTask?
  {
    id in s.tasks && s.tasks[id].StartTask? && s.tasks[id].stream == t.stream && s.tasks[id].r == t.r
  }

  /** Every start task after a step was there before it or has just been made by it. */
  ghost predicate Traced(s: System, e: Event, n: System) {
    forall id :: id in n.tasks && n.tasks[id].StartTask? ==>
      SameStart(s, n.tasks[id], id) || MadeBy(s, e, n.tasks[id].stream, n.tasks[id].r)
  }

  lemma StepTraced(cfg: Config, s: System, e: Event, now: int)
    ensures Traced(s, e, Apply(cfg, s, e, now))
  {
    if e.Run? && e.task in s.tasks {
      var t := s.tasks[e.task];
      match t
      case StopTask(_, _, _, _) => StopTraced(cfg, s, e.task, t, e.answer, now);
      case StartTask(_, _, _, _) => StartFrame(cfg, s, e.task, t, e.answer);
      case ReconcileTask(_, _, _) => ReconcileFrame(cfg, s, e.task, t, e.answer);
      case JoinTask(_, _, _) => JoinTraced(cfg, s, e.task, t, e.answer);
      case _ => OtherTraced(cfg, s, e.task, e.answer, now);
    } else {
      CallTraced(cfg, s, e, now);
    }
  }

  lemma CallTraced(cfg: Config, s: System, e: Event, now: int)
    requires e.Run? ==> e.task !in s.tasks
    ensures Traced(s, e, Apply(cfg, s, e, now))
  {
    var stream := s.m.current.streamID;
    match e
    case ParticipantCall(p) => FinishTraced(s, e, stream, ChangeParticipant(cfg, s.m, p, now));
    case SyncCall(w, o) => FinishTraced(s, e, stream, SyncParticipants(cfg, s.m, w, o, now));
    case SpeakerCall(x, u, b, k) => FinishTraced(s, e, stream, SetSpeaker(s.m, x, u, b, k));
    case ClearCall(x) => FinishTraced(s, e, stream, ClearSpeakers(s.m, x));
    case _ => PlainCallTraced(cfg, s, e, now);
  }

  lemma FinishTraced(s: System, e: Event, stream: Id, o: Outcome)
    ensures Traced(s, e, Finish(s, stream, o))
  {
  }

  lemma PlainCallTraced(cfg: Config, s: System, e: Event, now: int)
    requires e.Run? ==> e.task !in s.tasks
    requires !e.ParticipantCall? && !e.SyncCall? && !e.SpeakerCall? && !e.ClearCall?
    ensures Traced(s, e, Apply(cfg, s, e, now))
  {
  }

  lemma OtherTraced(cfg: Config, s: System, id: nat, answer: Answer, now: int)
    requires id in s.tasks
    requires var t := s.tasks[id]; !t.StopTask? && !t.StartTask? && !t.ReconcileTask? && !t.JoinTask?
    ensures Traced(s, Run(id, answer), RunTask(cfg, s, id, answer, now))
  {
  }

  lemma StopTraced(cfg: Config, s: System, id: nat, t: Task, answer: Answer, now: int)
    requires t.StopTask?
    ensures Traced(s, Run(id, answer), RunStop(cfg, s, id, t, answer, now))
  {
    if !t.stopPhase.StopSyncing? { StopFrame(cfg, s, id, t, answer, now); }
  }

  lemma JoinTraced(cfg: Config, s: System, id: nat, t: Task, answer: Answer)
    requires id in s.tasks && s.tasks[id] == t && t.JoinTask?
    ensures Traced(s, Run(id, answer), RunJoin(cfg, s, id, t, answer))
  {
    var stream := if t.plan.JoinReserve? then t.plan.stream else Matching(s.m.start.defaults, t.event.guildID, t.event.voiceChannelID);
    ReservedIsMade(cfg, s.m, t.event, stream, t.at);
  }

  lemma ReservedIsMade(cfg: Config, m: State, j: JoinEvent, stream: Id, now: int)
    ensures var n := Reserve(cfg, m, j, stream, now); n.reservation.Some? ==> MadeIn(m, j, stream, n.reservation.value)
  {
  }

  /** The k-th event of the run made this reservation. */
  ghost predicate MadeAt(cfg: Config, run: seq<Timed>, k: nat, stream: Id, r: Reservation)
    requires k < |run|
  {
    MadeBy(Execute(cfg, BOOT, run[..k]), run[k].event, stream, r)
  }

  /**
   * MAIN: over every run, each start task acts for a reservation that one earlier event of the run made
   * while the stream had none, under the epoch, the reconnect generation and the identity of that
   * moment, for the channel and the authority of its join; and no fence stood if that join was of a
   * member who was already there.
   */
  lemma {:induction false} EveryStartWasReserved(cfg: Config, run: seq<Timed>, id: nat)
    requires var s := Execute(cfg, BOOT, run); id in s.tasks && s.tasks[id].StartTask?
    ensures var t := Execute(cfg, BOOT, run).tasks[id]; exists k: nat :: k < |run| && MadeAt(cfg, run, k, t.stream, t.r)
  {
    var n := |run| - 1;
    var s, t := Execute(cfg, BOOT, run[..n]), Execute(cfg, BOOT, run).tasks[id];
    StepTraced(cfg, s, run[n].event, run[n].now);
    if SameStart(s, t, id) {
      EveryStartWasReserved(cfg, run[..n], id);
      var k: nat :| k < n && MadeAt(cfg, run[..n], k, t.stream, t.r);
      assert run[..n][..k] == run[..k];
      assert MadeAt(cfg, run, k, t.stream, t.r);
    } else {
      assert MadeAt(cfg, run, n, t.stream, t.r);
    }
  }
}
