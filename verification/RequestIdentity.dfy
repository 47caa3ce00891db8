/** Identities over a run: a context is never cancelled while its request is still recorded as
    outstanding, so Stop, which cancels reservations, can never cancel the panel's own request. */
module RequestIdentity {
  import opened JobTypes
  import opened ManagerState
  import opened ManagerSystem
  import opened SystemFrames

  /** No outstanding request has this context. */
  predicate Unused(m: State, context: nat) {
    forall x :: x in m.stop.inFlight ==> m.stop.inFlight[x].context != context
  }

  ghost predicate Sound(m: State) {
    && (forall x :: x in m.stop.inFlight ==> m.stop.inFlight[x].context < m.minted)
    && (forall x :: x in m.stop.inFlight ==> m.stop.inFlight[x].context !in m.cancelled)
    && (forall x, y :: x in m.stop.inFlight && y in m.stop.inFlight && x != y
          ==> m.stop.inFlight[x].context != m.stop.inFlight[y].context)
    && (forall c :: c in m.cancelled ==> c < m.minted)
    && (forall y :: y in m.start.retries ==> m.start.retries[y].id < m.minted && Unused(m, m.start.retries[y].id))
  }

  ghost predicate Inv(s: System) {
    && Sound(s.m)
    && (forall id :: id in s.tasks && s.tasks[id].StartTask? ==> s.tasks[id].r.id < s.m.minted && Unused(s.m, s.tasks[id].r.id))
  }

  /** Outstanding requests are only forgotten, and whatever a step cancels is either the context of a
      request it forgets or nobody's request. */
  ghost predicate Evolves(m: State, n: State) {
    && m.minted <= n.minted
    && (forall x :: x in n.stop.inFlight ==> x in m.stop.inFlight && n.stop.inFlight[x] == m.stop.inFlight[x])
    && (forall c :: c in n.cancelled && c !in m.cancelled ==> c < n.minted && Unused(n, c))
    && (forall y :: y in n.start.retries ==> n.start.retries[y].id < n.minted)
    && (forall y :: y in n.start.retries ==>
          ((y in m.start.retries && n.start.retries[y].id == m.start.retries[y].id) || m.minted <= n.start.retries[y].id))
  }

  predicate StartTasksFrom(s: System, n: System) {
    forall id | id in n.tasks && n.tasks[id].StartTask? ::
      || (id in s.tasks && s.tasks[id].StartTask? && s.tasks[id].r == n.tasks[id].r)
      || s.m.minted <= n.tasks[id].r.id < n.m.minted
  }

  lemma StepKeeps(s: System, n: System)
    requires Inv(s) && Evolves(s.m, n.m) && StartTasksFrom(s, n)
    ensures Inv(n)
  {
    SoundKeeps(s.m, n.m);
    forall id | id in n.tasks && n.tasks[id].StartTask?
      ensures n.tasks[id].r.id < n.m.minted && Unused(n.m, n.tasks[id].r.id) {
      assert id in s.tasks && s.tasks[id].StartTask? ==> Unused(s.m, s.tasks[id].r.id);
    }
  }

  lemma SoundKeeps(m: State, n: State)
    requires Sound(m) && Evolves(m, n)
    ensures Sound(n)
  {
    forall x | x in n.stop.inFlight ensures n.stop.inFlight[x].context !in n.cancelled {
      assert m.stop.inFlight[x] == n.stop.inFlight[x];
    }
  }

  // ----- critical sections -----

  lemma ForgottenNotFlying(m: State, n: State, stream: Id)
    requires Sound(m) && stream in m.stop.inFlight && n.stop.inFlight == m.stop.inFlight - {stream}
    ensures Unused(n, m.stop.inFlight[stream].context)
  {
  }

  lemma CancelEvolves(k: State, m: State, stream: Id)
    requires Sound(k) && m.(rejoin := k.rejoin, roster := k.roster) == k
    ensures Evolves(k, CancelStop(m, stream))
  {
    if stream != "" && stream in m.stop.inFlight {
      ForgottenNotFlying(k, CancelStop(m, stream), stream);
    }
  }

  lemma ClearEvolves(m: State, stream: Id, g: nat)
    requires Sound(m)
    ensures Evolves(m, ClearInFlight(m, stream, g))
  {
    if stream in m.stop.inFlight && m.stop.inFlight[stream].generation == g {
      ForgottenNotFlying(m, ClearInFlight(m, stream, g), stream);
    }
  }

  lemma SettleEvolves(cfg: Config, m: State, r: Roster, speaker: Option<SpeakerReport>, now: int)
    requires Sound(m)
    ensures Evolves(m, Settle(cfg, m, r, speaker, now).state)
  {
    var k := m.(roster := r);
    var stream := m.current.streamID;
    var i := if stream in m.stop.inFlight then RecordIntent(k, stream, m.current.guildID, m.current.voiceChannelID) else k;
    assert i.(rejoin := m.rejoin, roster := m.roster) == m;
    CancelEvolves(m, i, stream);
  }

  lemma FinishKeeps(s: System, stream: Id, o: Outcome)
    requires Inv(s) && Evolves(s.m, o.state)
    ensures Inv(Finish(s, stream, o))
  {
    StepKeeps(s, Finish(s, stream, o));
  }

  lemma CancelAllEvolves(m: State)
    requires Sound(m)
    ensures Evolves(m, CancelAllStarts(m))
  {
  }

  lemma ProjectEvolves(m: State, incoming: map<Id, VoiceDefaults>)
    requires Sound(m)
    ensures Evolves(m, Project(m, incoming))
  {
    var n := Project(m, incoming);
    forall c | c in n.cancelled && c !in m.cancelled ensures c < n.minted && Unused(n, c) {
      assert c in ObsoleteIDs(m.start.retries, Projected(incoming));
    }
  }

  // ----- steps -----

  lemma RunStopKeeps(cfg: Config, s: System, id: nat, t: Task, answer: Answer, now: int)
    requires Inv(s) && t.StopTask?
    ensures Inv(RunStop(cfg, s, id, t, answer, now))
  {
    if t.stopPhase.StopSyncing? {
      SyncingKeeps(cfg, s, id, t, answer, now);
    } else if t.stopPhase.StopIssuing? {
      IssueKeeps(cfg, s, id, t, answer, now);
    } else {
      var n := RunStop(cfg, s, id, t, answer, now);
      StopEvolves(cfg, s, id, t, answer, now);
      StopFrame(cfg, s, id, t, answer, now);
      StopFramedFrom(s, n, id, t);
      StepKeeps(s, n);
    }
  }

  lemma IssueKeeps(cfg: Config, s: System, id: nat, t: Task, answer: Answer, now: int)
    requires Inv(s) && t.StopTask? && t.stopPhase.StopIssuing?
    ensures Inv(RunStop(cfg, s, id, t, answer, now))
  {
    var n := RunStop(cfg, s, id, t, answer, now);
    IssueSound(s.m, t.stream, t.generation, t.stopPhase.job, t.stopPhase.reconnect, now);
    forall j | j in n.tasks && n.tasks[j].StartTask?
      ensures n.tasks[j].r.id < n.m.minted && Unused(n.m, n.tasks[j].r.id) {
      assert j in s.tasks && s.tasks[j].StartTask? && Unused(s.m, s.tasks[j].r.id);
    }
  }

  lemma IssueSound(m: State, stream: Id, g: nat, job: VoiceJob, reconnect: nat, now: int)
    requires Sound(m)
    ensures var i := IssueStop(m, stream, g, job, reconnect, now);
      i.Some? ==> Sound(i.value) && m.minted <= i.value.minted && forall c: nat :: c < m.minted && Unused(m, c) ==> Unused(i.value, c)
  {
  }

  lemma SyncingKeeps(cfg: Config, s: System, id: nat, t: Task, answer: Answer, now: int)
    requires Inv(s) && t.StopTask? && t.stopPhase.StopSyncing?
    ensures Inv(RunStop(cfg, s, id, t, answer, now))
  {
    var k := Become(s, id, t.(stopPhase := StopCancelling(t.stopPhase.job, t.stopPhase.reconnect)));
    StepKeeps(s, k);
    SyncKeeps(cfg, k, t.stopPhase.snapshot, SyncOptions(true, t.stopPhase.reconnect, true, true, t.stopPhase.revision), now);
  }

  lemma StopEvolves(cfg: Config, s: System, id: nat, t: Task, answer: Answer, now: int)
    requires Sound(s.m) && t.StopTask? && !t.stopPhase.StopSyncing? && !t.stopPhase.StopIssuing?
    ensures Evolves(s.m, RunStop(cfg, s, id, t, answer, now).m)
  {
    match t.stopPhase
    case StopCancelling(_, _) => CancelEvolves(s.m, s.m, t.stream);
    case StopRequested => ClearEvolves(s.m, t.stream, t.generation);
    case StopFailed => RetryEvolves(cfg, s.m, t.stream, t.generation);
    case StopFinishing => FinishStopEvolves(s.m, t.stream, t.generation);
    case _ => QuietFrame(cfg, s, id, t, answer, now);
  }

  lemma RetryEvolves(cfg: Config, m: State, stream: Id, g: nat)
    requires Sound(m)
    ensures Evolves(m, RetryStop(cfg, m, stream, g).state)
  {
    FinishStopEvolves(m, stream, g);
  }

  lemma FinishStopEvolves(m: State, stream: Id, g: nat)
    requires Sound(m)
    ensures Evolves(m, FinishStop(m, stream, g))
  {
    ClearEvolves(m, stream, g);
  }

  lemma StopFramedFrom(s: System, n: System, id: nat, t: Task)
    requires t.StopTask? && StopFramed(s, n, id, t)
    ensures StartTasksFrom(s, n)
  {
  }

  lemma ReconcileFramedKeeps(s: System, n: System, id: nat, t: Task)
    requires Inv(s) && t.ReconcileTask? && ReconcileFramed(s, n, id, t)
    ensures Inv(n)
  {
    StepKeeps(s, n);
  }

  lemma SyncKeeps(cfg: Config, s: System, w: Snapshot, o: SyncOptions, now: int)
    requires Inv(s)
    ensures Inv(Finish(s, s.m.current.streamID, SyncParticipants(cfg, s.m, w, o, now)))
  {
    SettleEvolves(cfg, s.m, Replaced(s.m.roster, w, now), None, now);
    FinishKeeps(s, s.m.current.streamID, SyncParticipants(cfg, s.m, w, o, now));
  }

  lemma ChangeKeeps(cfg: Config, s: System, e: ParticipantEvent, now: int)
    requires Inv(s)
    ensures Inv(Finish(s, s.m.current.streamID, ChangeParticipant(cfg, s.m, e, now)))
  {
    ChangeEvolves(cfg, s.m, e, now);
    FinishKeeps(s, s.m.current.streamID, ChangeParticipant(cfg, s.m, e, now));
  }

  lemma ChangeEvolves(cfg: Config, m: State, e: ParticipantEvent, now: int)
    requires Sound(m)
    ensures Evolves(m, ChangeParticipant(cfg, m, e, now).state)
  {
    ChangeIsSettled(cfg, m, e, now);
    if r, speaker :| ChangeParticipant(cfg, m, e, now) == Settle(cfg, m, r, speaker, now) {
      SettleEvolves(cfg, m, r, speaker, now);
    }
  }

  lemma RunStartKeeps(cfg: Config, s: System, id: nat, t: Task, answer: Answer)
    requires Inv(s) && id in s.tasks && s.tasks[id] == t && t.StartTask?
    ensures Inv(RunStart(cfg, s, id, t, answer))
  {
    var n := RunStart(cfg, s, id, t, answer);
    StartEvolves(cfg, s, id, t, answer);
    StartFrame(cfg, s, id, t, answer);
    StartFramedKeeps(s, n, id, t);
  }

  lemma StartFramedKeeps(s: System, n: System, id: nat, t: Task)
    requires Inv(s) && id in s.tasks && s.tasks[id] == t && t.StartTask? && StartFramed(s, n, id, t) && Evolves(s.m, n.m)
    ensures Inv(n)
  {
    StepKeeps(s, n);
  }

  lemma StartEvolves(cfg: Config, s: System, id: nat, t: Task, answer: Answer)
    requires Sound(s.m) && t.StartTask? && t.r.id < s.m.minted && Unused(s.m, t.r.id)
    ensures Evolves(s.m, RunStart(cfg, s, id, t, answer).m)
  {
    match t.startPhase
    case StartDeciding(known, present) => DecideEvolves(s.m, t.stream, t.r, known, present);
    case StartNoting(result) => NoteEvolves(s.m, t.stream, t.r, !result.accepted && result.busy);
    case StartFinishing => FinishEvolves(s.m, t.stream, t.r);
    case _ => CallFrame(cfg, s, id, t, answer);
  }

  lemma DecideEvolves(m: State, stream: Id, r: Reservation, known: bool, present: bool)
    requires Sound(m)
    ensures Evolves(m, DecideStart(m, stream, r, known, present))
  {
  }

  lemma NoteEvolves(m: State, stream: Id, r: Reservation, busy: bool)
    requires Sound(m)
    ensures Evolves(m, NoteCapacity(m, stream, r, busy))
  {
  }

  lemma FinishEvolves(m: State, stream: Id, r: Reservation)
    requires Sound(m) && r.id < m.minted && Unused(m, r.id)
    ensures Evolves(m, FinishStart(m, stream, r))
  {
  }

  lemma BeginJoiningKeeps(cfg: Config, s: System, e: JoinEvent, now: int)
    requires Inv(s)
    ensures Inv(BeginJoining(cfg, s, e, now))
  {
    JoinEvolves(cfg, s.m, e, now);
    StepKeeps(s, BeginJoining(cfg, s, e, now));
  }

  lemma JoinEvolves(cfg: Config, m: State, e: JoinEvent, now: int)
    requires Sound(m)
    ensures Evolves(m, BeginJoin(cfg, m, e, now).state)
  {
    if m.current.streamID != "" {
      JoinRunningEvolves(cfg, m, e, now);
    } else {
      IdleJoinFrame(cfg, m, e, now);
      IdlePartEvolves(m, BeginJoin(cfg, m, e, now).state);
    }
  }

  lemma IdlePartEvolves(m: State, n: State)
    requires Sound(m) && IdlePartOnly(m, n)
    ensures Evolves(m, n)
  {
  }

  lemma JoinRunningEvolves(cfg: Config, m: State, e: JoinEvent, now: int)
    requires Sound(m) && m.current.streamID != ""
    ensures Evolves(m, BeginJoin(cfg, m, e, now).state)
  {
    var stream := m.current.streamID;
    CancelEvolves(m, RecordIntent(m, stream, e.guildID, e.voiceChannelID), stream);
  }

  lemma RunJoinKeeps(cfg: Config, s: System, id: nat, t: Task, answer: Answer)
    requires Inv(s) && t.JoinTask?
    ensures Inv(RunJoin(cfg, s, id, t, answer))
  {
    JoinFrame(cfg, s, id, t, answer);
    ReservingEvolves(cfg, s, id, t, answer);
    JoinFramedKeeps(s, RunJoin(cfg, s, id, t, answer), id, t);
  }

  lemma ReservingEvolves(cfg: Config, s: System, id: nat, t: Task, answer: Answer)
    requires Sound(s.m) && t.JoinTask?
    ensures Evolves(s.m, RunJoin(cfg, s, id, t, answer).m)
  {
    var stream := if t.plan.JoinReserve? then t.plan.stream else Matching(s.m.start.defaults, t.event.guildID, t.event.voiceChannelID);
    ReserveEvolves(cfg, s.m, t.event, stream, t.at);
  }

  lemma ReserveEvolves(cfg: Config, m: State, e: JoinEvent, stream: Id, now: int)
    requires Sound(m)
    ensures Evolves(m, Reserve(cfg, m, e, stream, now).state)
  {
  }

  lemma JoinFramedKeeps(s: System, n: System, id: nat, t: Task)
    requires Inv(s) && t.JoinTask? && JoinFramed(s, n, id, t) && Evolves(s.m, n.m)
    ensures Inv(n)
  {
    StepKeeps(s, n);
  }

  lemma RunJobKeeps(s: System, id: nat, t: Task, answer: Answer)
    requires Inv(s) && (t.StartJobTask? || t.LeaveTask?)
    ensures Inv(RunJob(s, id, t, answer))
  {
    CancelAllEvolves(s.m);
    StepKeeps(s, RunJob(s, id, t, answer));
  }

  lemma OtherTaskKeeps(cfg: Config, s: System, id: nat, answer: Answer, now: int)
    requires Inv(s) && id in s.tasks
    requires s.tasks[id].ReportTask? || s.tasks[id].SpeakerTask? || s.tasks[id].PublishTask? || s.tasks[id].VoiceTask?
    ensures Inv(RunTask(cfg, s, id, answer, now))
  {
    StepKeeps(s, RunTask(cfg, s, id, answer, now));
  }

  lemma ApplyKeeps(cfg: Config, s: System, e: Event, now: int)
    requires Inv(s)
    ensures Inv(Apply(cfg, s, e, now))
  {
    match e
    case ParticipantCall(p) => ChangeKeeps(cfg, s, p, now);
    case SyncCall(w, o) => SyncKeeps(cfg, s, w, o, now);
    case SpeakerCall(stream, u, b, k) => FinishKeeps(s, s.m.current.streamID, SetSpeaker(s.m, stream, u, b, k));
    case ClearCall(stream) => FinishKeeps(s, s.m.current.streamID, ClearSpeakers(s.m, stream));
    case JoinCall(j) => BeginJoiningKeeps(cfg, s, j, now);
    case Run(id, answer) => if id in s.tasks { RunTaskKeeps(cfg, s, id, answer, now); }
    case RetryCall(queue, job, g, edge) => StepKeeps(s, ApplyRetry(s, queue, job, g, edge));
    case StartCall(_) => StartCallKeeps(cfg, s, e, now);
    case StopCall(_) => StopCallKeeps(cfg, s, e, now);
    case DisconnectedCall(_) => DisconnectedCallKeeps(cfg, s, e, now);
    case _ => SettingKeeps(cfg, s, e, now);
  }

  lemma StartCallKeeps(cfg: Config, s: System, e: Event, now: int)
    requires Inv(s) && e.StartCall?
    ensures Inv(Apply(cfg, s, e, now))
  {
    CancelEvolves(s.m, s.m, e.job.streamID);
    StepKeeps(s, Apply(cfg, s, e, now));
  }

  lemma StopCallKeeps(cfg: Config, s: System, e: Event, now: int)
    requires Inv(s) && e.StopCall?
    ensures Inv(Apply(cfg, s, e, now))
  {
    BeginStopEvolves(s.m, e.stream);
    StepKeeps(s, Apply(cfg, s, e, now));
  }

  lemma DisconnectedCallKeeps(cfg: Config, s: System, e: Event, now: int)
    requires Inv(s) && e.DisconnectedCall?
    ensures Inv(Apply(cfg, s, e, now))
  {
    CancelAllEvolves(s.m);
    StepKeeps(s, Apply(cfg, s, e, now));
  }

  lemma BeginStopEvolves(m: State, stream: Id)
    requires Sound(m)
    ensures Evolves(m, BeginStop(m, stream))
  {
    CancelAllEvolves(m);
  }

  lemma SettingKeeps(cfg: Config, s: System, e: Event, now: int)
    requires Inv(s) && (e.ConnectedCall? || e.ProjectCall? || e.ExecutingCall? || e.StopperCall? || e.StarterCall?)
    ensures Inv(Apply(cfg, s, e, now))
  {
    if e.ProjectCall? {
      ProjectEvolves(s.m, e.incoming);
    }
    StepKeeps(s, Apply(cfg, s, e, now));
  }

  lemma RunTaskKeeps(cfg: Config, s: System, id: nat, answer: Answer, now: int)
    requires Inv(s) && id in s.tasks
    ensures Inv(RunTask(cfg, s, id, answer, now))
  {
    var t := s.tasks[id];
    match t
    case StopTask(_, _, _, _) => RunStopKeeps(cfg, s, id, t, answer, now);
    case StartTask(_, _, _, _) => RunStartKeeps(cfg, s, id, t, answer);
    case JoinBeginTask(e) => StepKeeps(s, End(s, id)); BeginJoiningKeeps(cfg, End(s, id), e, now);
    case JoinTask(_, _, _) => RunJoinKeeps(cfg, s, id, t, answer);
    case ReconcileTask(_, _, _) => ReconcileFrame(cfg, s, id, t, answer); ReconcileFramedKeeps(s, RunReconcile(cfg, s, id, t, answer), id, t);
    case StartJobTask(_, _) => RunJobKeeps(s, id, t, answer);
    case LeaveTask(_) => RunJobKeeps(s, id, t, answer);
    case _ => OtherTaskKeeps(cfg, s, id, answer, now);
  }

  lemma {:induction false} InvHolds(cfg: Config, run: seq<Timed>)
    ensures Inv(Execute(cfg, BOOT, run))
  {
    if run != [] {
      InvHolds(cfg, run[..|run| - 1]);
      ApplyKeeps(cfg, Execute(cfg, BOOT, run[..|run| - 1]), run[|run| - 1].event, run[|run| - 1].now);
    }
  }

  /** An event is one of Stop's sections: its first one, or the one after LeaveVoice. */
  predicate IsStop(s: System, e: Event) {
    e.StopCall? || (e.Run? && e.task in s.tasks && s.tasks[e.task].LeaveTask?)
  }

  /** MAIN: in every reachable state no outstanding request's context is cancelled, and none of
      Stop's sections forgets an outstanding request or cancels its context. */
  lemma StopNeverCancelsTheRequest(cfg: Config, run: seq<Timed>, e: Event, now: int)
    ensures var s := Execute(cfg, BOOT, run); var n := Apply(cfg, s, e, now);
      && (forall x :: x in s.m.stop.inFlight ==> s.m.stop.inFlight[x].context !in s.m.cancelled)
      && (IsStop(s, e) ==> n.m.stop.inFlight == s.m.stop.inFlight)
      && (IsStop(s, e) ==> forall x :: x in s.m.stop.inFlight ==> s.m.stop.inFlight[x].context !in n.m.cancelled)
  {
    InvHolds(cfg, run);
    var s := Execute(cfg, BOOT, run);
    ApplyKeeps(cfg, s, e, now);
    if IsStop(s, e) {
      StopForgetsNothing(cfg, s, e, now);
    }
  }

  lemma StopForgetsNothing(cfg: Config, s: System, e: Event, now: int)
    requires IsStop(s, e)
    ensures Apply(cfg, s, e, now).m.stop.inFlight == s.m.stop.inFlight
  {
  }
}
