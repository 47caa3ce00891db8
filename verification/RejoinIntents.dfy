/** Rejoin intents over whole runs: each recorded intent is consumed at most once, and only for its
    own stream and epoch while no job is active. */
module RejoinIntents {
  import opened JobTypes
  import opened ManagerState
  import opened ManagerSystem
  import opened SystemFrames

  /** The number was given out and no recorded intent carries it any more. */
  predicate Spent(r: Rejoin, sequence: nat) {
    sequence <= r.sequence && forall k :: k in r.intents ==> r.intents[k].sequence != sequence
  }

  /** An intent that a task has seen is either still the recorded one or gone for good. */
  predicate Remembered(r: Rejoin, key: VoiceTarget, seen: Intent) {
    && seen.sequence <= r.sequence
    && (forall k :: k in r.intents && r.intents[k].sequence == seen.sequence ==> k == key && r.intents[k] == seen)
  }

  predicate Deciding(t: Task) { t.ReconcileTask? && t.rejoinPhase.RejoinDeciding? }

  ghost predicate Inv(s: System) {
    var r := s.m.rejoin;
    && (forall k :: k in r.intents ==> r.intents[k].sequence <= r.sequence)
    && (forall k, l :: k in r.intents && l in r.intents && k != l ==> r.intents[k].sequence != r.intents[l].sequence)
    && (forall i :: 0 <= i < |s.trace| && s.trace[i].IntentConsumed? ==> Spent(r, s.trace[i].intent.sequence))
    && (forall i, j | 0 <= i < j < |s.trace| && s.trace[i].IntentConsumed? && s.trace[j].IntentConsumed? ::
          s.trace[i].intent.sequence != s.trace[j].intent.sequence)
    && (forall id :: id in s.tasks && Deciding(s.tasks[id]) ==>
          Remembered(r, s.tasks[id].rejoinPhase.key, s.tasks[id].rejoinPhase.seen))
  }

  /** A change of the records forgets intents or adds one under the next number. */
  predicate Evolves(r: Rejoin, q: Rejoin) {
    || (r.sequence == q.sequence && forall k :: k in q.intents ==> k in r.intents && q.intents[k] == r.intents[k])
    || (q.sequence == r.sequence + 1
        && exists key :: key in q.intents && q.intents[key].sequence == q.sequence
             && forall k :: k in q.intents && k != key ==> k in r.intents && q.intents[k] == r.intents[k])
  }

  lemma RecordEvolves(m: State, source: Id, guild: Id, voice: Id)
    ensures Evolves(m.rejoin, RecordIntent(m, source, guild, voice).rejoin)
  {
    var n := RecordIntent(m, source, guild, voice);
    if n != m {
      assert n.rejoin.intents[VoiceTarget(guild, voice)].sequence == n.rejoin.sequence;
    }
  }

  /** A step that consumes nothing and gives no task an intent to decide about. */
  lemma OtherStep(s: System, n: System)
    requires Inv(s) && Evolves(s.m.rejoin, n.m.rejoin)
    requires s.trace <= n.trace && forall i :: |s.trace| <= i < |n.trace| ==> !n.trace[i].IntentConsumed?
    requires forall id :: id in n.tasks && Deciding(n.tasks[id]) ==> id in s.tasks && n.tasks[id] == s.tasks[id]
    ensures Inv(n)
  {
    forall i | 0 <= i < |n.trace| && n.trace[i].IntentConsumed? ensures Spent(n.m.rejoin, n.trace[i].intent.sequence) {
      assert n.trace[i] == s.trace[i];
    }
  }

  // ----- the reconciliation's own steps -----

  lemma PollingKeeps(cfg: Config, s: System, id: nat, t: Task, answer: Answer)
    requires Inv(s) && t.ReconcileTask? && t.rejoinPhase.RejoinPolling?
    ensures Inv(RunReconcile(cfg, s, id, t, answer))
  {
  }

  lemma DecidingKeeps(cfg: Config, s: System, id: nat, t: Task, answer: Answer)
    requires Inv(s) && id in s.tasks && s.tasks[id] == t && Deciding(t)
    ensures Inv(RunReconcile(cfg, s, id, t, answer))
  {
    var n := RunReconcile(cfg, s, id, t, answer);
    var key, seen := t.rejoinPhase.key, t.rejoinPhase.seen;
    if n.trace == s.trace {
      OtherStep(s, n);
    } else {
      ConsumedOnce(s, n, key, seen);
    }
  }

  lemma ConsumedOnce(s: System, n: System, key: VoiceTarget, seen: Intent)
    requires Inv(s) && key in s.m.rejoin.intents && s.m.rejoin.intents[key].sequence == seen.sequence
    requires n.m.rejoin == s.m.rejoin.(intents := s.m.rejoin.intents - {key})
    requires |n.trace| == |s.trace| + 1 && s.trace <= n.trace
    requires n.trace[|s.trace|].IntentConsumed? && n.trace[|s.trace|].intent == seen
    requires forall id :: id in n.tasks && Deciding(n.tasks[id]) ==> id in s.tasks && n.tasks[id] == s.tasks[id]
    ensures Inv(n)
  {
    forall i | 0 <= i < |s.trace| && s.trace[i].IntentConsumed? ensures s.trace[i].intent.sequence != seen.sequence {
      assert Spent(s.m.rejoin, s.trace[i].intent.sequence);
    }
    forall i | 0 <= i < |n.trace| && n.trace[i].IntentConsumed? ensures Spent(n.m.rejoin, n.trace[i].intent.sequence) {
      if i < |s.trace| { assert n.trace[i] == s.trace[i]; }
    }
  }

  lemma OtherPhaseKeeps(cfg: Config, s: System, id: nat, t: Task, answer: Answer)
    requires Inv(s) && t.ReconcileTask? && !t.rejoinPhase.RejoinPolling? && !t.rejoinPhase.RejoinDeciding?
    ensures Inv(RunReconcile(cfg, s, id, t, answer))
  {
    OtherStep(s, RunReconcile(cfg, s, id, t, answer));
  }

  // ----- every other step -----

  lemma SettleEvolves(cfg: Config, m: State, r: Roster, speaker: Option<SpeakerReport>, now: int)
    ensures Evolves(m.rejoin, Settle(cfg, m, r, speaker, now).state.rejoin)
  {
    var k := m.(roster := r);
    var i := RecordIntent(k, m.current.streamID, m.current.guildID, m.current.voiceChannelID);
    RecordEvolves(k, m.current.streamID, m.current.guildID, m.current.voiceChannelID);
    CancelStopFrame(if m.current.streamID in m.stop.inFlight then i else k, m.current.streamID);
  }

  lemma FinishKeeps(s: System, stream: Id, o: Outcome)
    requires Inv(s) && Evolves(s.m.rejoin, o.state.rejoin)
    ensures Inv(Finish(s, stream, o))
  {
    OtherStep(s, Finish(s, stream, o));
  }

  lemma SyncKeeps(cfg: Config, s: System, w: Snapshot, o: SyncOptions, now: int)
    requires Inv(s)
    ensures Inv(Finish(s, s.m.current.streamID, SyncParticipants(cfg, s.m, w, o, now)))
  {
    SettleEvolves(cfg, s.m, Replaced(s.m.roster, w, now), None, now);
    FinishKeeps(s, s.m.current.streamID, SyncParticipants(cfg, s.m, w, o, now));
  }

  lemma ChangeKeeps(cfg: Config, s: System, e: ParticipantEvent, now: int)
    requires Inv(s)
    ensures Inv(Finish(s, s.m.current.streamID, ChangeParticipant(cfg, s.m, e, now)))
  {
    ChangeEvolves(cfg, s.m, e, now);
    FinishKeeps(s, s.m.current.streamID, ChangeParticipant(cfg, s.m, e, now));
  }

  lemma ChangeEvolves(cfg: Config, m: State, e: ParticipantEvent, now: int)
    ensures Evolves(m.rejoin, ChangeParticipant(cfg, m, e, now).state.rejoin)
  {
    ChangeIsSettled(cfg, m, e, now);
    if r, speaker :| ChangeParticipant(cfg, m, e, now) == Settle(cfg, m, r, speaker, now) {
      SettleEvolves(cfg, m, r, speaker, now);
    }
  }

  lemma FramedKeeps(s: System, n: System, id: nat, t: Task)
    requires Inv(s)
    requires || (t.StopTask? && StopFramed(s, n, id, t)) || (t.StartTask? && StartFramed(s, n, id, t))
             || (t.JoinTask? && JoinFramed(s, n, id, t))
    ensures Inv(n)
  {
    OtherStep(s, n);
  }

  lemma StopTaskKeeps(cfg: Config, s: System, id: nat, t: Task, answer: Answer, now: int)
    requires Inv(s) && t.StopTask?
    ensures Inv(RunStop(cfg, s, id, t, answer, now))
  {
    if t.stopPhase.StopSyncing? {
      var p := t.stopPhase;
      var k := Become(s, id, t.(stopPhase := StopCancelling(p.job, p.reconnect)));
      OtherStep(s, k);
      SyncKeeps(cfg, k, p.snapshot, SyncOptions(true, p.reconnect, true, true, p.revision), now);
    } else {
      StopFrame(cfg, s, id, t, answer, now);
      FramedKeeps(s, RunStop(cfg, s, id, t, answer, now), id, t);
    }
  }

  lemma JoinEvolves(cfg: Config, m: State, e: JoinEvent, now: int)
    ensures Evolves(m.rejoin, BeginJoin(cfg, m, e, now).state.rejoin)
  {
    var owner := RequestFor(m.stop.inFlight, e.guildID, e.voiceChannelID);
    RecordEvolves(m, m.current.streamID, e.guildID, e.voiceChannelID);
    RecordEvolves(m, owner, e.guildID, e.voiceChannelID);
  }

  lemma BeginJoiningKeeps(cfg: Config, s: System, e: JoinEvent, now: int)
    requires Inv(s)
    ensures Inv(BeginJoining(cfg, s, e, now))
  {
    JoinEvolves(cfg, s.m, e, now);
    OtherStep(s, BeginJoining(cfg, s, e, now));
  }

  lemma OtherTaskKeeps(cfg: Config, s: System, id: nat, answer: Answer, now: int)
    requires Inv(s) && id in s.tasks
    requires var t := s.tasks[id]; t.ReportTask? || t.SpeakerTask? || t.PublishTask? || t.VoiceTask? || t.StartJobTask? || t.LeaveTask?
    ensures Inv(RunTask(cfg, s, id, answer, now))
  {
    OtherStep(s, RunTask(cfg, s, id, answer, now));
  }

  lemma RunTaskKeeps(cfg: Config, s: System, id: nat, answer: Answer, now: int)
    requires Inv(s) && id in s.tasks
    ensures Inv(RunTask(cfg, s, id, answer, now))
  {
    var t := s.tasks[id];
    match t
    case StopTask(_, _, _, _) => StopTaskKeeps(cfg, s, id, t, answer, now);
    case StartTask(_, _, _, _) => StartFrame(cfg, s, id, t, answer); FramedKeeps(s, RunStart(cfg, s, id, t, answer), id, t);
    case JoinBeginTask(e) => OtherStep(s, End(s, id)); BeginJoiningKeeps(cfg, End(s, id), e, now);
    case JoinTask(_, _, _) => JoinFrame(cfg, s, id, t, answer); FramedKeeps(s, RunJoin(cfg, s, id, t, answer), id, t);
    case ReconcileTask(_, _, p) =>
      if p.RejoinPolling? { PollingKeeps(cfg, s, id, t, answer); }
      else if p.RejoinDeciding? { DecidingKeeps(cfg, s, id, t, answer); }
      else { OtherPhaseKeeps(cfg, s, id, t, answer); }
    case _ => OtherTaskKeeps(cfg, s, id, answer, now);
  }

  lemma ApplyKeeps(cfg: Config, s: System, e: Event, now: int)
    requires Inv(s)
    ensures Inv(Apply(cfg, s, e, now))
  {
    match e
    case ParticipantCall(p) => ChangeKeeps(cfg, s, p, now);
    case SyncCall(w, o) => SyncKeeps(cfg, s, w, o, now);
    case SpeakerCall(stream, u, b, k) => FinishKeeps(s, s.m.current.streamID, SetSpeaker(s.m, stream, u, b, k));
    case ClearCall(stream) => FinishKeeps(s, s.m.current.streamID, ClearSpeakers(s.m, stream));
    case JoinCall(j) => BeginJoiningKeeps(cfg, s, j, now);
    case Run(id, answer) => if id in s.tasks { RunTaskKeeps(cfg, s, id, answer, now); }
    case _ => CallKeeps(cfg, s, e, now);
  }

  lemma CallKeeps(cfg: Config, s: System, e: Event, now: int)
    requires Inv(s) && !e.ParticipantCall? && !e.SyncCall? && !e.SpeakerCall? && !e.ClearCall? && !e.JoinCall? && !e.Run?
    ensures Inv(Apply(cfg, s, e, now))
  {
    OtherStep(s, Apply(cfg, s, e, now));
  }

  lemma {:induction false} InvHolds(cfg: Config, run: seq<Timed>)
    ensures Inv(Execute(cfg, BOOT, run))
  {
    if run != [] {
      InvHolds(cfg, run[..|run| - 1]);
      ApplyKeeps(cfg, Execute(cfg, BOOT, run[..|run| - 1]), run[|run| - 1].event, run[|run| - 1].now);
    }
  }

  /** MAIN: over every run no intent is consumed twice, and a consumed one is no longer recorded. */
  lemma IntentsConsumedOnce(cfg: Config, run: seq<Timed>)
    ensures var s := Execute(cfg, BOOT, run);
      && (forall i, j | 0 <= i < j < |s.trace| && s.trace[i].IntentConsumed? && s.trace[j].IntentConsumed? ::
            s.trace[i].intent.sequence != s.trace[j].intent.sequence)
      && (forall i, k :: 0 <= i < |s.trace| && s.trace[i].IntentConsumed? && k in s.m.rejoin.intents ==>
            s.m.rejoin.intents[k] != s.trace[i].intent)
  {
    InvHolds(cfg, run);
    var s := Execute(cfg, BOOT, run);
    forall i, k | 0 <= i < |s.trace| && s.trace[i].IntentConsumed? && k in s.m.rejoin.intents
      ensures s.m.rejoin.intents[k] != s.trace[i].intent {
      assert Spent(s.m.rejoin, s.trace[i].intent.sequence);
    }
  }

  /** An intent is consumed only by its stream's reconciliation, at a lock where the recorded intent is
      exactly the one it read before, no job is active, and the stream is the only enabled one of that
      channel under the intent's epoch; the consumed intent and the fence go, and one join follows. */
  lemma ConsumptionMeans(cfg: Config, s: System, e: Event, now: int)
    requires Inv(s)
    requires var n := Apply(cfg, s, e, now); |n.trace| > |s.trace| && n.trace[|s.trace|].IntentConsumed?
    ensures e.Run? && e.task in s.tasks && Deciding(s.tasks[e.task])
    ensures var t, n := s.tasks[e.task], Apply(cfg, s, e, now); var key, seen := t.rejoinPhase.key, t.rejoinPhase.seen;
      && n.trace == s.trace + [IntentConsumed(t.stream, seen)]
      && key in s.m.rejoin.intents && s.m.rejoin.intents[key] == seen && seen.source == t.stream
      && s.m.current.streamID == "" && s.m.starter
      && UniqueFor(s.m.start.defaults, t.stream, seen.guildID, seen.voiceChannelID)
      && s.m.start.defaults[t.stream].epoch == seen.epoch
      && key !in n.m.rejoin.intents && t.stream !in n.m.start.stopped
  {
    if e.Run? && e.task in s.tasks {
      var t := s.tasks[e.task];
      if t.StartTask? {
        StartFrame(cfg, s, e.task, t, e.answer);
      } else if t.StopTask? {
        if !t.stopPhase.StopSyncing? {
          StopFrame(cfg, s, e.task, t, e.answer, now);
        }
      } else if t.ReconcileTask? {
        ReconcileConsumes(cfg, s, e.task, t, e.answer);
      }
    }
  }

  lemma ReconcileConsumes(cfg: Config, s: System, id: nat, t: Task, answer: Answer)
    requires Inv(s) && id in s.tasks && s.tasks[id] == t && t.ReconcileTask?
    requires var n := RunReconcile(cfg, s, id, t, answer); |n.trace| > |s.trace|
    ensures Deciding(t)
    ensures var n := RunReconcile(cfg, s, id, t, answer); var key, seen := t.rejoinPhase.key, t.rejoinPhase.seen;
      && n.trace == s.trace + [IntentConsumed(t.stream, seen)]
      && key in s.m.rejoin.intents && s.m.rejoin.intents[key] == seen && seen.source == t.stream
      && s.m.current.streamID == "" && s.m.starter
      && UniqueFor(s.m.start.defaults, t.stream, seen.guildID, seen.voiceChannelID)
      && s.m.start.defaults[t.stream].epoch == seen.epoch
      && key !in n.m.rejoin.intents && t.stream !in n.m.start.stopped
  {
    if Deciding(t) {
      assert Remembered(s.m.rejoin, t.rejoinPhase.key, t.rejoinPhase.seen);
    }
  }
}
