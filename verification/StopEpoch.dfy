/** When Stop fences a stream with the epoch and the channel of the job that it was asked to stop. */
module StopEpoch {
  import opened JobTypes
  import opened ManagerState
  import opened ManagerSystem
  import opened SystemFrames
  import opened AssignmentEpoch
  import opened RefreshLock

  /** The fence that stopping the current job should leave. */
  function FenceOf(m: State): VoiceDefaults {
    VoiceDefaults(m.epoch, m.current.guildID, m.current.voiceChannelID, "", false)
  }

  /** Stop number `id` is between its two sections. */
  predicate Leaving(s: System, id: nat) { id in s.tasks && s.tasks[id].LeaveTask? }

  /** No other start or stop is under way. */
  predicate NoneBeside(s: System, id: nat) {
    forall j :: j in s.tasks && j != id ==> !Lifecycle(s.tasks[j])
  }

  /** If Stop number `id` commits after the run, it leaves the fence of the job that `s` runs. */
  ghost predicate FencesAfter(cfg: Config, s: System, id: nat, run: seq<Timed>) {
    var n := Execute(cfg, s, run);
    Leaving(n, id) ==>
      var stream, m := n.tasks[id].stream, Apply(cfg, n, Run(id, Done), 0).m;
      stream in m.start.stopped && m.start.stopped[stream] == FenceOf(s.m)
  }

  // ----- enough: nothing else is under way -----

  /** What stays true of Stop number `id` while it waits for LeaveVoice. */
  predicate Undisturbed(s: System, n: System, id: nat) {
    && Numbered(n) && id < n.next
    && (Leaving(n, id) ==> n.m.stopping && n.m.current == s.m.current && n.m.epoch == s.m.epoch && NoneBeside(n, id))
  }

  lemma UndisturbedStep(cfg: Config, s: System, k: System, id: nat, e: Event, now: int)
    requires Undisturbed(s, k, id)
    ensures Undisturbed(s, Apply(cfg, k, e, now), id)
  {
    var n := Apply(cfg, k, e, now);
    NumberedStep(cfg, k, e, now);
    AnyStep(cfg, k, e, now);
    if Leaving(n, id) {
      assert Leaving(k, id);
      if e.StartCall? || e.StopCall? {
        RefusedWhileStopping(cfg, k, e, now);
      } else if e.Run? && e.task in k.tasks && Lifecycle(k.tasks[e.task]) {
        assert e.task == id;
      } else {
        JobStep(cfg, k, e, now);
      }
    }
  }

  lemma RefusedWhileStopping(cfg: Config, s: System, e: Event, now: int)
    requires s.m.stopping && (e.StartCall? || e.StopCall?)
    ensures var n := Apply(cfg, s, e, now); n.tasks == s.tasks && SameJobState(s, n)
  {
  }

  lemma {:induction false} UndisturbedRun(cfg: Config, s: System, id: nat, run: seq<Timed>)
    requires Undisturbed(s, s, id)
    ensures Undisturbed(s, Execute(cfg, s, run), id)
  {
    if run != [] {
      UndisturbedRun(cfg, s, id, run[..|run| - 1]);
      UndisturbedStep(cfg, s, Execute(cfg, s, run[..|run| - 1]), id, run[|run| - 1].event, run[|run| - 1].now);
    }
  }

  // ----- needed: anything else under way can get in between -----

  /** Jobs have a stream and a channel, the current one and those whose start is under way. */
  predicate Established(s: System) {
    && (s.m.current.streamID != "" ==> s.m.current.guildID != "" && s.m.current.voiceChannelID != "")
    && (forall id :: id in s.tasks && s.tasks[id].StartJobTask? ==> Complete(s.tasks[id].job))
  }

  predicate Complete(job: VoiceJob) { job.streamID != "" && job.guildID != "" && job.voiceChannelID != "" }

  lemma EstablishedStep(cfg: Config, s: System, e: Event, now: int)
    requires Established(s) && Numbered(s)
    ensures Established(Apply(cfg, s, e, now))
  {
    if !e.StartCall? { OnlyStartBegins(cfg, s, e, now); }
    AnyStep(cfg, s, e, now);
  }

  lemma {:induction false} EstablishedHolds(cfg: Config, run: seq<Timed>)
    ensures Established(Execute(cfg, BOOT, run))
  {
    if run != [] {
      EstablishedHolds(cfg, run[..|run| - 1]);
      NumberedHolds(cfg, run[..|run| - 1]);
      EstablishedStep(cfg, Execute(cfg, BOOT, run[..|run| - 1]), run[|run| - 1].event, run[|run| - 1].now);
    }
  }

  lemma Executed(cfg: Config, s: System, run: seq<Timed>, e: Event)
    ensures Execute(cfg, s, run + [Timed(e, 0)]) == Apply(cfg, Execute(cfg, s, run), e, 0)
  {
    assert (run + [Timed(e, 0)])[..|run|] == run;
  }

  lemma OneEvent(cfg: Config, s: System, e: Event)
    ensures Execute(cfg, s, [Timed(e, 0)]) == Apply(cfg, s, e, 0)
  {
    assert [Timed(e, 0)][..0] == [];
  }

  /** After `run`, Stop number `id` would fence with what the state then holds. */
  lemma Misfences(cfg: Config, s: System, id: nat, run: seq<Timed>)
    requires Leaving(Execute(cfg, s, run), id) && FenceOf(Execute(cfg, s, run).m) != FenceOf(s.m)
    ensures !FencesAfter(cfg, s, id, run)
  {
    var n := Execute(cfg, s, run);
    LeaveFences(cfg, n, n.tasks[id].stream, id, 0);
  }

  /** Another start or stop under way yields a run that ends with a wrong fence, also under the lock. */
  lemma WrongFence(cfg: Config, s: System, id: nat, other: nat) returns (run: seq<Timed>)
    requires Numbered(s) && Established(s) && Leaving(s, id) && s.m.current.streamID != ""
    requires other in s.tasks && other != id && Lifecycle(s.tasks[other])
    ensures !FencesAfter(cfg, s, id, run)
    ensures (forall j :: j in s.tasks && s.tasks[j].StartJobTask? ==> j == other) ==> Serialised(cfg, s, run)
  {
    run := [Timed(Run(other, Done), 0)];
    OneEvent(cfg, s, Run(other, Done));
    var n := Apply(cfg, s, Run(other, Done), 0);
    if FenceOf(n.m) != FenceOf(s.m) {
      Misfences(cfg, s, id, run);
    } else {
      assert s.tasks[other].StartJobTask?;
      run := MovedAgain(cfg, s, id, other);
    }
  }

  function Moved(job: VoiceJob): VoiceJob { job.(voiceChannelID := job.voiceChannelID + "x") }

  lemma MovedDiffers(job: VoiceJob)
    ensures Moved(job).voiceChannelID != job.voiceChannelID
  {
    assert |Moved(job).voiceChannelID| == |job.voiceChannelID| + 1;
  }

  lemma StartCommits(cfg: Config, s: System, id: nat, other: nat)
    requires Numbered(s) && Established(s) && Leaving(s, id) && other in s.tasks && s.tasks[other].StartJobTask?
    ensures var n := Apply(cfg, s, Run(other, Done), 0);
      && Numbered(n) && n.next == s.next && Leaving(n, id) && id < n.next
      && n.m.current == s.tasks[other].job && StartAllowed(n.m, Moved(s.tasks[other].job))
      && n.tasks == s.tasks - {other}
  {
  }

  function Again(job: VoiceJob, other: nat, next: nat): seq<Timed> {
    [Timed(Run(other, Done), 0)] + [Timed(StartCall(Moved(job)), 0)] + [Timed(Run(next, Done), 0)]
  }

  lemma AgainSteps(cfg: Config, s: System, job: VoiceJob, other: nat, next: nat)
    ensures var n1 := Apply(cfg, s, Run(other, Done), 0);
      && Execute(cfg, s, Again(job, other, next)[..1]) == n1
      && Execute(cfg, s, Again(job, other, next)) == Apply(cfg, Apply(cfg, n1, StartCall(Moved(job)), 0), Run(next, Done), 0)
  {
    var run1 := [Timed(Run(other, Done), 0)];
    assert Again(job, other, next)[..1] == run1;
    OneEvent(cfg, s, Run(other, Done));
    Executed(cfg, s, run1, StartCall(Moved(job)));
    Executed(cfg, s, run1 + [Timed(StartCall(Moved(job)), 0)], Run(next, Done));
  }

  /** The other start commits the very same epoch and channel; a further start then moves the channel. */
  lemma MovedAgain(cfg: Config, s: System, id: nat, other: nat) returns (run: seq<Timed>)
    requires Numbered(s) && Established(s) && Leaving(s, id) && other in s.tasks && s.tasks[other].StartJobTask?
    requires FenceOf(Apply(cfg, s, Run(other, Done), 0).m) == FenceOf(s.m)
    ensures !FencesAfter(cfg, s, id, run)
    ensures (forall j :: j in s.tasks && s.tasks[j].StartJobTask? ==> j == other) ==> Serialised(cfg, s, run)
  {
    var job := s.tasks[other].job;
    var n1 := Apply(cfg, s, Run(other, Done), 0);
    StartCommits(cfg, s, id, other);
    MovedDiffers(job);
    CommitsMoved(cfg, n1, Moved(job));
    run := Again(job, other, n1.next);
    AgainSteps(cfg, s, job, other, n1.next);
    Misfences(cfg, s, id, run);
    forall k | 0 <= k < |run| && NeedsLock(run[k].event) ensures Execute(cfg, s, run[..k]) == n1 {
      assert k == 1;
    }
  }

  lemma CommitsMoved(cfg: Config, n: System, moved: VoiceJob)
    requires Numbered(n) && StartAllowed(n.m, moved)
    ensures var n2 := Apply(cfg, n, StartCall(moved), 0);
      var n3 := Apply(cfg, n2, Run(n.next, Done), 0);
      n3.m.current == moved && forall id :: Leaving(n, id) ==> Leaving(n3, id)
  {
    CancelStopFrame(n.m, moved.streamID);
  }

  // ----- exactly -----

  /**
   * MAIN: when a Stop is accepted, it is sure to fence its stream with the epoch and the channel of
   * the job it stops, whatever happens before its commit, exactly when no start and no other stop is
   * under way at that moment. The lock of RefreshRuntimeConfig does not change the condition.
   */
  lemma StopFencesExactly(cfg: Config, before: seq<Timed>, stream: Id, now: int)
    requires StopAllowed(Execute(cfg, BOOT, before).m, stream)
    ensures var s0 := Execute(cfg, BOOT, before);
      var s, id := Apply(cfg, s0, StopCall(stream), now), s0.next;
      && s.tasks == s0.tasks[id := LeaveTask(s0.m.current.streamID)] && FenceOf(s.m) == FenceOf(s0.m)
      && ((forall run :: FencesAfter(cfg, s, id, run)) <==> NoneBeside(s0, id))
      && (Serialised(cfg, BOOT, before) ==>
            ((forall run :: Serialised(cfg, s, run) ==> FencesAfter(cfg, s, id, run)) <==> NoneBeside(s0, id)))
  {
    var s0 := Execute(cfg, BOOT, before);
    var s, id := Apply(cfg, s0, StopCall(stream), now), s0.next;
    NumberedHolds(cfg, before);
    EstablishedHolds(cfg, before);
    NumberedStep(cfg, s0, StopCall(stream), now);
    StopBegins(cfg, s0, stream, now);
    if NoneBeside(s0, id) {
      forall run ensures FencesAfter(cfg, s, id, run) { SureFence(cfg, s, id, run); }
    } else {
      var other :| other in s0.tasks && other != id && Lifecycle(s0.tasks[other]);
      var run := WrongFence(cfg, s, id, other);
      if Serialised(cfg, BOOT, before) {
        var only := if exists j :: j in s0.tasks && s0.tasks[j].StartJobTask? then (var j :| j in s0.tasks && s0.tasks[j].StartJobTask?; j) else other;
        forall j | j in s.tasks && s.tasks[j].StartJobTask? ensures j == only { OneStartAtATime(cfg, before, j, only); }
        var locked := WrongFence(cfg, s, id, only);
        assert Serialised(cfg, s, locked) && !FencesAfter(cfg, s, id, locked);
      }
    }
  }

  lemma StopBegins(cfg: Config, s0: System, stream: Id, now: int)
    requires StopAllowed(s0.m, stream) && Established(s0)
    ensures var s := Apply(cfg, s0, StopCall(stream), now);
      && s.tasks == s0.tasks[s0.next := LeaveTask(s0.m.current.streamID)] && s.next == s0.next + 1
      && s.m.stopping && s.m.current == s0.m.current && s.m.epoch == s0.m.epoch && Established(s)
  {
  }

  lemma SureFence(cfg: Config, s: System, id: nat, run: seq<Timed>)
    requires Undisturbed(s, s, id)
    ensures FencesAfter(cfg, s, id, run)
  {
    UndisturbedRun(cfg, s, id, run);
    var n := Execute(cfg, s, run);
    if Leaving(n, id) { LeaveFences(cfg, n, n.tasks[id].stream, id, 0); }
  }

  // ----- a run of the program in which the fence is wrong -----

  /** The stream is projected again while its job runs, and started again before it is stopped. */
  const RESTART: seq<Timed> := [
    Timed(ExecutingCall({"a"}), 0), Timed(ProjectCall(map["a" := VoiceDefaults("e1", "g", "v", "", true)]), 0),
    Timed(StartCall(JOB_A), 0), Timed(Run(0, Done), 0),
    Timed(ProjectCall(map["a" := VoiceDefaults("e2", "g", "v", "", true)]), 0), Timed(StartCall(JOB_A), 0),
    Timed(StopCall("a"), 0), Timed(Run(1, Done), 0), Timed(Run(2, Done), 0)]

  ghost function Restarting(cfg: Config, n: nat): System
    requires n <= 9
  {
    Execute(cfg, BOOT, RESTART[..n])
  }

  lemma RestartStep(cfg: Config, n: nat)
    requires n < 9
    ensures Restarting(cfg, n + 1) == Apply(cfg, Restarting(cfg, n), RESTART[n].event, 0)
  {
    assert RESTART[..n + 1][..n] == RESTART[..n] && RESTART[n].now == 0;
  }

  /** What matters of a state of that run. */
  predicate At(s: System, current: VoiceJob, epoch: Id, stopping: bool, next: nat, tasks: map<nat, Task>) {
    s.m.current == current && s.m.epoch == epoch && s.m.stopping == stopping && s.next == next && s.tasks == tasks
  }

  lemma RestartProjects(cfg: Config, n: nat, epoch: Id)
    requires n < 9 && RESTART[n].event == ProjectCall(map["a" := VoiceDefaults(epoch, "g", "v", "", true)])
    ensures var s, k := Restarting(cfg, n), Restarting(cfg, n + 1);
      At(k, s.m.current, s.m.epoch, s.m.stopping, s.next, s.tasks) && StartEpoch(k.m, "a") == epoch
  {
    RestartStep(cfg, n);
  }

  lemma RestartStarts(cfg: Config, n: nat)
    requires n < 9 && RESTART[n].event == StartCall(JOB_A) && StartAllowed(Restarting(cfg, n).m, JOB_A)
    ensures var s := Restarting(cfg, n);
      At(Restarting(cfg, n + 1), s.m.current, s.m.epoch, s.m.stopping, s.next + 1, s.tasks[s.next := StartJobTask(JOB_A, StartEpoch(s.m, "a"))])
  {
    RestartStep(cfg, n);
    CancelStopFrame(Restarting(cfg, n).m, "a");
  }

  lemma RestartCommits(cfg: Config, n: nat, id: nat, epoch: Id)
    requires n < 9 && RESTART[n].event == Run(id, Done)
    requires id in Restarting(cfg, n).tasks && Restarting(cfg, n).tasks[id] == StartJobTask(JOB_A, epoch)
    ensures var s := Restarting(cfg, n); At(Restarting(cfg, n + 1), JOB_A, epoch, false, s.next, s.tasks - {id})
  {
    RestartStep(cfg, n);
  }

  lemma RestartStops(cfg: Config, n: nat)
    requires n < 9 && RESTART[n].event == StopCall("a") && StopAllowed(Restarting(cfg, n).m, "a")
    ensures var s := Restarting(cfg, n);
      At(Restarting(cfg, n + 1), s.m.current, s.m.epoch, true, s.next + 1, s.tasks[s.next := LeaveTask("a")])
  {
    RestartStep(cfg, n);
  }

  lemma Projected1(cfg: Config)
    ensures At(Restarting(cfg, 0), NO_JOB, "", false, 0, map[]) && At(Restarting(cfg, 1), NO_JOB, "", false, 0, map[])
    ensures At(Restarting(cfg, 2), NO_JOB, "", false, 0, map[]) && StartEpoch(Restarting(cfg, 2).m, "a") == "e1"
  {
    assert RESTART[..0] == [];
    RestartStep(cfg, 0);
    RestartProjects(cfg, 1, "e1");
  }

  lemma FirstStart(cfg: Config)
    ensures At(Restarting(cfg, 4), JOB_A, "e1", false, 1, map[])
    ensures !Starting(Restarting(cfg, 0)) && !Starting(Restarting(cfg, 1)) && !Starting(Restarting(cfg, 2))
  {
    Projected1(cfg);
    RestartStarts(cfg, 2);
    RestartCommits(cfg, 3, 0, "e1");
    assert map[0 := StartJobTask(JOB_A, "e1")] - {0} == map[];
  }

  /** The second start of the running stream is under way when Stop is accepted. */
  predicate Restarted(s: System) { At(s, JOB_A, "e1", false, 2, map[1 := StartJobTask(JOB_A, "e2")]) }

  lemma SecondStart(cfg: Config)
    ensures Restarted(Restarting(cfg, 6)) && !Starting(Restarting(cfg, 4)) && !Starting(Restarting(cfg, 5))
  {
    FirstStart(cfg);
    RestartProjects(cfg, 4, "e2");
    RestartStarts(cfg, 5);
  }

  lemma StopAccepted(cfg: Config)
    ensures At(Restarting(cfg, 7), JOB_A, "e1", true, 3, map[1 := StartJobTask(JOB_A, "e2"), 2 := LeaveTask("a")])
  {
    SecondStart(cfg);
    RestartStops(cfg, 6);
  }

  lemma ThirdCommit(cfg: Config)
    ensures At(Restarting(cfg, 8), JOB_A, "e2", false, 3, map[2 := LeaveTask("a")])
  {
    StopAccepted(cfg);
    RestartCommits(cfg, 7, 1, "e2");
    assert map[1 := StartJobTask(JOB_A, "e2"), 2 := LeaveTask("a")] - {1} == map[2 := LeaveTask("a")];
  }

  lemma RestartIsSerialised(cfg: Config)
    ensures Serialised(cfg, BOOT, RESTART)
  {
    FirstStart(cfg);
    SecondStart(cfg);
    forall k | 0 <= k < |RESTART| && NeedsLock(RESTART[k].event) ensures !Starting(Execute(cfg, BOOT, RESTART[..k])) {
      assert k == 0 || k == 1 || k == 2 || k == 4 || k == 5;
      assert Execute(cfg, BOOT, RESTART[..k]) == Restarting(cfg, k);
    }
  }

  /**
   * MAIN: such a Stop really goes wrong under the lock: the stream that ran under "e1" when Stop was
   * accepted is fenced with "e2", and the job that has just been started is dropped.
   */
  lemma RestartMisfences(cfg: Config)
    ensures Serialised(cfg, BOOT, RESTART)
    ensures Restarted(Restarting(cfg, 6)) && StopAllowed(Restarting(cfg, 6).m, "a")
    ensures Restarting(cfg, 8).m.current == JOB_A && Restarting(cfg, 8).m.epoch == "e2"
    ensures var s := Restarting(cfg, 9).m;
      "a" in s.start.stopped && s.start.stopped["a"] == VoiceDefaults("e2", "g", "v", "", false) && s.current == NO_JOB
  {
    SecondStart(cfg);
    ThirdCommit(cfg);
    RestartIsSerialised(cfg);
    RestartStep(cfg, 8);
    LeaveFences(cfg, Restarting(cfg, 8), "a", 2, 0);
  }
}
