/**
 * The lock of RefreshRuntimeConfig (internal/jobs/voice_defaults.go:10-14). The only caller of Start
 * holds it from before Start's first section until Start returns (internal/httpapi/server.go:203-212),
 * and every refresh holds it while it supplies an execution snapshot and a projection.
 */
module RefreshLock {
  import opened JobTypes
  import opened ManagerState
  import opened ManagerSystem
  import opened AssignmentEpoch

  /** Some Start is between its two sections, and so holds the lock. */
  predicate Starting(s: System) { exists id :: id in s.tasks && s.tasks[id].StartJobTask? }

  predicate NeedsLock(e: Event) { e.StartCall? || e.ProjectCall? || e.ExecutingCall? }

  /** A run in which nothing that needs the lock happens while a Start holds it. */
  ghost predicate Serialised(cfg: Config, s: System, run: seq<Timed>) {
    forall k :: 0 <= k < |run| && NeedsLock(run[k].event) ==> !Starting(Execute(cfg, s, run[..k]))
  }

  lemma SerialisedFront(cfg: Config, s: System, run: seq<Timed>)
    requires run != [] && Serialised(cfg, s, run)
    ensures Serialised(cfg, s, run[..|run| - 1])
  {
    var front := run[..|run| - 1];
    forall k | 0 <= k < |front| && NeedsLock(front[k].event) ensures !Starting(Execute(cfg, s, front[..k])) {
      assert run[..k] == front[..k] && run[k] == front[k];
    }
  }

  /** Under the lock at most one Start is under way at any time. */
  lemma {:induction false} OneStartAtATime(cfg: Config, run: seq<Timed>, i: nat, j: nat)
    requires Serialised(cfg, BOOT, run)
    ensures var s := Execute(cfg, BOOT, run);
      i in s.tasks && j in s.tasks && s.tasks[i].StartJobTask? && s.tasks[j].StartJobTask? ==> i == j
  {
    if run != [] {
      var front, t := run[..|run| - 1], run[|run| - 1];
      var s := Execute(cfg, BOOT, front);
      SerialisedFront(cfg, BOOT, run);
      OneStartAtATime(cfg, front, i, j);
      NumberedHolds(cfg, front);
      AnyStep(cfg, s, t.event, t.now);
      if !t.event.StartCall? { OnlyStartBegins(cfg, s, t.event, t.now); }
    }
  }

  lemma OnlyStartBegins(cfg: Config, s: System, e: Event, now: int)
    requires Numbered(s) && !e.StartCall?
    ensures var n := Apply(cfg, s, e, now);
      forall id :: id in n.tasks && n.tasks[id].StartJobTask? ==> id in s.tasks && n.tasks[id] == s.tasks[id]
  {
    if e.StopCall? || (e.Run? && e.task in s.tasks && Lifecycle(s.tasks[e.task])) {
      LifecycleStep(cfg, s, e, now);
    } else {
      JobStep(cfg, s, e, now);
    }
  }
}
