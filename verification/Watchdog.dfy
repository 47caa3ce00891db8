/** internal/davewatch/watchdog.go: rate-bounded recovery of a stuck DAVE session. */
module Watchdog {
  import opened JobTypes

  const SECOND: int := 1_000_000_000

  datatype Config = Config(
    stuckTimeout: int, missingTimeout: int, divergedTimeout: int,
    resendLimit: int, resendWindow: int, resetLimit: int, resetWindow: int)

  const DEFAULTS := Config(10 * SECOND, 15 * SECOND, 5 * SECOND, 3, 60 * SECOND, 3, 120 * SECOND)

  function Or(wanted: int, otherwise: int): int { if wanted <= 0 then otherwise else wanted }

  /** The configuration that New keeps. */
  function Normalized(c: Config): Config {
    Config(Or(c.stuckTimeout, DEFAULTS.stuckTimeout), Or(c.missingTimeout, DEFAULTS.missingTimeout),
           Or(c.divergedTimeout, DEFAULTS.divergedTimeout), Or(c.resendLimit, DEFAULTS.resendLimit),
           Or(c.resendWindow, DEFAULTS.resendWindow), Or(c.resetLimit, DEFAULTS.resetLimit), Or(c.resetWindow, DEFAULTS.resetWindow))
  }

  /** Absent instants are the zero time. */
  datatype Health = Health(
    initialized: bool, op26SentAt: Option<int>, epochEstablished: bool, lastMissing: int,
    missingFirstSeen: Option<int>, proposalFailedSince: Option<int>)

  datatype Reason = EpochDiverged | WelcomeTimeout | MissingRatchets | WelcomeResendFailed

  datatype Attempt = Resend(at: int, number: nat, ok: bool) | Reset(at: int, reason: Reason, number: nat, ok: bool)

  /** What the connection answers to one tick. */
  datatype Answers = Answers(present: bool, health: Health, resendOk: bool, resetOk: bool)

  /**
   * The two stamp lists, the times of every resend and every reset attempted so far, and the events
   * reported about them.
   */
  datatype Watch = Watch(resends: seq<int>, resets: seq<int>, allResends: seq<int>, allResets: seq<int>, events: seq<Attempt>)

  const BOOT := Watch([], [], [], [], [])

  /** The stamps after the cutoff. */
  function Newer(stamps: seq<int>, cutoff: int): seq<int> {
    if stamps == [] then []
    else
      var before, last := Newer(stamps[..|stamps| - 1], cutoff), stamps[|stamps| - 1];
      if last > cutoff then before + [last] else before
  }

  function TriedReset(cfg: Config, w: Watch, now: int, reason: Reason, ok: bool): Watch {
    var kept := Newer(w.resets, now - cfg.resetWindow);
    if |kept| >= cfg.resetLimit then w.(resets := kept)
    else w.(resets := kept + [now], allResets := w.allResets + [now], events := w.events + [Reset(now, reason, |kept| + 1, ok)])
  }

  /** A resend, before it is known whether it succeeded. */
  function Resent(cfg: Config, w: Watch, now: int, ok: bool): Watch {
    var kept := Newer(w.resends, now - cfg.resendWindow);
    if |kept| >= cfg.resendLimit then w.(resends := kept)
    else w.(resends := kept + [now], allResends := w.allResends + [now], events := w.events + [Resend(now, |kept| + 1, ok)])
  }

  /** The resends that are still fresh use up the limit. */
  predicate Full(cfg: Config, w: Watch, now: int) { |Newer(w.resends, now - cfg.resendWindow)| >= cfg.resendLimit }

  function TriedResend(cfg: Config, w: Watch, now: int, a: Answers): Watch {
    var n := Resent(cfg, w, now, a.resendOk);
    if a.resendOk || Full(cfg, w, now) then n else TriedReset(cfg, n, now, WelcomeResendFailed, a.resetOk)
  }

  predicate Over(since: Option<int>, now: int, limit: int) { since.Some? && now - since.value > limit }

  function Ticked(cfg: Config, w: Watch, now: int, a: Answers): Watch {
    var h := a.health;
    if !a.present || !h.initialized || h.op26SentAt.None? then w
    else if Over(h.proposalFailedSince, now, cfg.divergedTimeout) then TriedReset(cfg, w, now, EpochDiverged, a.resetOk)
    else if !h.epochEstablished && Over(h.op26SentAt, now, cfg.stuckTimeout) then TriedResend(cfg, w, now, a)
    else if h.epochEstablished && h.lastMissing > 0 && Over(h.missingFirstSeen, now, cfg.missingTimeout)
    then TriedReset(cfg, w, now, MissingRatchets, a.resetOk)
    else w
  }

  /** A growing slice of stamps: the first `len` places of its backing array. */
  class StampList {
    var buffer: array<int>
    var len: nat

    ghost predicate Valid()
      reads this
    {
      len <= buffer.Length
    }

    ghost function Contents(): seq<int>
      requires Valid()
      reads this, buffer
    {
      buffer[..len]
    }

    constructor ()
      ensures Valid() && Contents() == [] && fresh(buffer)
    {
      buffer, len := new int[0], 0;
    }

    /** MAIN: pruneOlderThan filters in place, writing over the places it has already read. */
    method PruneOlderThan(cutoff: int)
      requires Valid()
      modifies this`len, buffer
      ensures Valid() && buffer == old(buffer)
      ensures Contents() == Newer(old(Contents()), cutoff)
    {
      ghost var stamps := Contents();
      var kept := 0;
      for i := 0 to len
        modifies buffer
        invariant kept <= i <= len
        invariant buffer[..kept] == Newer(stamps[..i], cutoff)
        invariant buffer[i..len] == stamps[i..]
      {
        var stamp := buffer[i];
        assert stamp == buffer[i..len][0] == stamps[i];
        assert stamps[..i + 1][..i] == stamps[..i];
        assert buffer[i..len][1..] == buffer[i + 1..len] == stamps[i + 1..];
        if stamp > cutoff {
          buffer[kept] := stamp;
          kept := kept + 1;
        }
      }
      assert stamps[..len] == stamps;
      len := kept;
    }

    /** append, which moves to a larger array when the slice is full. */
    method Append(stamp: int)
      requires Valid()
      modifies this, buffer
      ensures Valid() && (buffer == old(buffer) || fresh(buffer))
      ensures Contents() == old(Contents()) + [stamp]
    {
      if len == buffer.Length {
        var larger := new int[2 * len + 1];
        for i := 0 to len
          modifies larger
          invariant larger[..i] == buffer[..i]
        {
          larger[i] := buffer[i];
        }
        buffer := larger;
      }
      buffer[len] := stamp;
      len := len + 1;
    }
  }

  class Watchdog {
    const cfg: Config
    const resends: StampList
    const resets: StampList
    ghost var allResends: seq<int>
    ghost var allResets: seq<int>
    ghost var events: seq<Attempt>

    ghost predicate Valid()
      reads this, resends, resets
    {
      resends != resets && resends.Valid() && resets.Valid() && resends.buffer != resets.buffer
    }

    ghost function Abstract(): Watch
      requires Valid()
      reads this, resends, resets, resends.buffer, resets.buffer
    {
      Watch(resends.Contents(), resets.Contents(), allResends, allResets, events)
    }

    constructor (wanted: Config)
      ensures Valid() && cfg == Normalized(wanted) && Abstract() == BOOT
    {
      cfg := Normalized(wanted);
      var first := new StampList();
      var second := new StampList();
      resends, resets, allResends, allResets, events := first, second, [], [], [];
    }

    method TryReset(now: int, reason: Reason, ok: bool)
      requires Valid()
      modifies this, resets, resets.buffer
      ensures Valid() && (resets.buffer == old(resets.buffer) || fresh(resets.buffer))
      ensures Abstract() == TriedReset(cfg, old(Abstract()), now, reason, ok)
    {
      resets.PruneOlderThan(now - cfg.resetWindow);
      if resets.len >= cfg.resetLimit { return; }
      resets.Append(now);
      allResets := allResets + [now];
      events := events + [Reset(now, reason, resets.len, ok)];
    }

    method TryResend(now: int, a: Answers)
      requires Valid()
      modifies this, resends, resends.buffer, resets, resets.buffer
      ensures Valid()
      ensures Abstract() == TriedResend(cfg, old(Abstract()), now, a)
    {
      resends.PruneOlderThan(now - cfg.resendWindow);
      if resends.len >= cfg.resendLimit { return; }
      resends.Append(now);
      allResends := allResends + [now];
      events := events + [Resend(now, resends.len, a.resendOk)];
      if !a.resendOk { TryReset(now, WelcomeResendFailed, a.resetOk); }
    }

    method Tick(now: int, a: Answers)
      requires Valid()
      modifies this, resends, resends.buffer, resets, resets.buffer
      ensures Valid()
      ensures Abstract() == Ticked(cfg, old(Abstract()), now, a)
    {
      var h := a.health;
      if !a.present { return; }
      if !h.initialized || h.op26SentAt.None? { return; }
      if h.proposalFailedSince.Some? && now - h.proposalFailedSince.value > cfg.divergedTimeout {
        TryReset(now, EpochDiverged, a.resetOk);
      } else if !h.epochEstablished && now - h.op26SentAt.value > cfg.stuckTimeout {
        TryResend(now, a);
      } else if h.epochEstablished && h.lastMissing > 0 && h.missingFirstSeen.Some?
                && now - h.missingFirstSeen.value > cfg.missingTimeout {
        TryReset(now, MissingRatchets, a.resetOk);
      }
    }
  }

  // ----- what Newer means -----

  lemma {:induction false} NewerTwice(stamps: seq<int>, first: int, second: int)
    requires first <= second
    ensures Newer(Newer(stamps, first), second) == Newer(stamps, second)
  {
    if stamps != [] {
      NewerTwice(stamps[..|stamps| - 1], first, second);
    }
  }

  /** The number of stamps in the half-open window that starts at `from`. */
  function Within(stamps: seq<int>, from: int, length: int): nat {
    if stamps == [] then 0
    else
      var last := stamps[|stamps| - 1];
      Within(stamps[..|stamps| - 1], from, length) + (if from <= last < from + length then 1 else 0)
  }

  lemma {:induction false} WithinNewer(stamps: seq<int>, from: int, length: int, cutoff: int)
    requires cutoff < from
    ensures Within(stamps, from, length) <= |Newer(stamps, cutoff)|
  {
    if stamps != [] {
      WithinNewer(stamps[..|stamps| - 1], from, length, cutoff);
    }
  }

  // ----- runs of ticks -----

  datatype Turn = Turn(now: int, answers: Answers)

  function Execute(cfg: Config, run: seq<Turn>): Watch {
    if run == [] then BOOT
    else Ticked(cfg, Execute(cfg, run[..|run| - 1]), run[|run| - 1].now, run[|run| - 1].answers)
  }

  predicate NonDecreasing(run: seq<Turn>) {
    forall i, j :: 0 <= i < j < |run| ==> run[i].now <= run[j].now
  }

  /**
   * The stamps are what a prune at `cut` left of all attempts, and no window holds more attempts
   * than the limit.
   */
  ghost predicate Bounded(stamps: seq<int>, attempts: seq<int>, limit: int, length: int, now: int, cut: int) {
    && cut <= now - length && stamps == Newer(attempts, cut)
    && (forall from :: Within(attempts, from, length) <= limit)
  }

  /** One try, whether it attempts something or not, keeps every window within the limit. */
  lemma TryKeepsBounded(stamps: seq<int>, attempts: seq<int>, limit: int, length: int, past: int, now: int, cut: int)
    requires Bounded(stamps, attempts, limit, length, past, cut) && past <= now && length > 0
    ensures var kept := Newer(stamps, now - length);
      if |kept| < limit then Bounded(kept + [now], attempts + [now], limit, length, now, now - length)
      else Bounded(kept, attempts, limit, length, now, now - length)
  {
    NewerTwice(attempts, cut, now - length);
    var kept, more := Newer(stamps, now - length), attempts + [now];
    if |kept| < limit {
      assert more[..|attempts|] == attempts;
      forall from ensures Within(more, from, length) <= limit {
        if from <= now < from + length { WithinNewer(attempts, from, length, now - length); }
      }
    }
  }

  /** `c` and `d` are where the two lists were last pruned. */
  ghost predicate Inv(cfg: Config, w: Watch, now: int, c: int, d: int) {
    && Bounded(w.resends, w.allResends, cfg.resendLimit, cfg.resendWindow, now, c)
    && Bounded(w.resets, w.allResets, cfg.resetLimit, cfg.resetWindow, now, d)
  }

  lemma ResetKeeps(cfg: Config, w: Watch, past: int, now: int, reason: Reason, ok: bool, c: int, d: int)
    requires Inv(cfg, w, past, c, d) && past <= now && cfg.resetWindow > 0
    ensures Inv(cfg, TriedReset(cfg, w, now, reason, ok), now, c, now - cfg.resetWindow)
  {
    TryKeepsBounded(w.resets, w.allResets, cfg.resetLimit, cfg.resetWindow, past, now, d);
  }

  lemma ResentKeeps(cfg: Config, w: Watch, past: int, now: int, ok: bool, c: int, d: int)
    requires Inv(cfg, w, past, c, d) && past <= now && cfg.resendWindow > 0
    ensures Inv(cfg, Resent(cfg, w, now, ok), now, now - cfg.resendWindow, d)
  {
    TryKeepsBounded(w.resends, w.allResends, cfg.resendLimit, cfg.resendWindow, past, now, c);
  }

  lemma ResendCases(cfg: Config, w: Watch, now: int, a: Answers)
    ensures var n := Resent(cfg, w, now, a.resendOk);
      TriedResend(cfg, w, now, a)
      == if a.resendOk || Full(cfg, w, now) then n else TriedReset(cfg, n, now, WelcomeResendFailed, a.resetOk)
  {
  }

  /** A resend with the reset that follows when it fails; `f` is where the resets are pruned afterwards. */
  lemma ResendKeeps(cfg: Config, w: Watch, past: int, now: int, a: Answers, c: int, d: int) returns (f: int)
    requires Inv(cfg, w, past, c, d) && past <= now && cfg.resendWindow > 0 && cfg.resetWindow > 0
    ensures Inv(cfg, TriedResend(cfg, w, now, a), now, now - cfg.resendWindow, f)
  {
    var n := Resent(cfg, w, now, a.resendOk);
    assert Inv(cfg, n, now, now - cfg.resendWindow, d) by { ResentKeeps(cfg, w, past, now, a.resendOk, c, d); }
    ResendCases(cfg, w, now, a);
    if a.resendOk || Full(cfg, w, now) {
      f := d;
    } else {
      f := now - cfg.resetWindow;
      ResetKeeps(cfg, n, now, now, WelcomeResendFailed, a.resetOk, now - cfg.resendWindow, d);
    }
  }

  lemma TickKeeps(cfg: Config, w: Watch, past: int, now: int, a: Answers, c: int, d: int) returns (e: int, f: int)
    requires Inv(cfg, w, past, c, d) && past <= now && cfg.resendWindow > 0 && cfg.resetWindow > 0
    ensures Inv(cfg, Ticked(cfg, w, now, a), now, e, f)
  {
    var h := a.health;
    e, f := c, d;
    if !a.present || !h.initialized || h.op26SentAt.None? {
    } else if Over(h.proposalFailedSince, now, cfg.divergedTimeout) {
      ResetKeeps(cfg, w, past, now, EpochDiverged, a.resetOk, c, d);
      f := now - cfg.resetWindow;
    } else if !h.epochEstablished && Over(h.op26SentAt, now, cfg.stuckTimeout) {
      e := now - cfg.resendWindow;
      f := ResendKeeps(cfg, w, past, now, a, c, d);
    } else if h.epochEstablished && h.lastMissing > 0 && Over(h.missingFirstSeen, now, cfg.missingTimeout) {
      ResetKeeps(cfg, w, past, now, MissingRatchets, a.resetOk, c, d);
      f := now - cfg.resetWindow;
    }
  }

  lemma {:induction false} InvHolds(cfg: Config, run: seq<Turn>) returns (c: int, d: int)
    requires run != [] && NonDecreasing(run)
    requires cfg.resendLimit > 0 && cfg.resetLimit > 0 && cfg.resendWindow > 0 && cfg.resetWindow > 0
    ensures Inv(cfg, Execute(cfg, run), run[|run| - 1].now, c, d)
  {
    var init, now := run[..|run| - 1], run[|run| - 1].now;
    c, d := now - cfg.resendWindow, now - cfg.resetWindow;
    if init == [] {
      c, d := TickKeeps(cfg, BOOT, now, now, run[0].answers, c, d);
    } else {
      c, d := InvHolds(cfg, init);
      c, d := TickKeeps(cfg, Execute(cfg, init), init[|init| - 1].now, now, run[|run| - 1].answers, c, d);
    }
  }

  /**
   * MAIN: however New was configured and whatever the connection answers, for non-decreasing tick
   * times every half-open window of the resend length holds at most the resend limit of resends, and
   * likewise for the resets of all three causes together.
   */
  lemma AttemptsAreRateBounded(wanted: Config, run: seq<Turn>, from: int)
    requires NonDecreasing(run)
    ensures var cfg := Normalized(wanted);
      && Within(Execute(cfg, run).allResends, from, cfg.resendWindow) <= cfg.resendLimit
      && Within(Execute(cfg, run).allResets, from, cfg.resetWindow) <= cfg.resetLimit
  {
    if run != [] {
      var c, d := InvHolds(Normalized(wanted), run);
    }
  }

  // ----- exactly when something is attempted -----

  predicate Watched(a: Answers) { a.present && a.health.initialized && a.health.op26SentAt.Some? }

  /** A proposal has failed, and for longer than the timeout. */
  predicate Diverged(cfg: Config, a: Answers, now: int) {
    Watched(a) && a.health.proposalFailedSince.Some? && a.health.proposalFailedSince.value + cfg.divergedTimeout < now
  }

  /** The session has been asked for longer ago than the timeout, and is not there. */
  predicate Unwelcomed(cfg: Config, a: Answers, now: int) {
    Watched(a) && !Diverged(cfg, a, now) && !a.health.epochEstablished && a.health.op26SentAt.value + cfg.stuckTimeout < now
  }

  /** The session is there, but ratchets have been missing for longer than the timeout. */
  predicate Incomplete(cfg: Config, a: Answers, now: int) {
    && Watched(a) && !Diverged(cfg, a, now) && a.health.epochEstablished && 0 < a.health.lastMissing
    && a.health.missingFirstSeen.Some? && a.health.missingFirstSeen.value + cfg.missingTimeout < now
  }

  /** How many attempts were made after the cutoff. */
  function Since(attempts: seq<int>, cutoff: int): nat {
    if attempts == [] then 0
    else Since(attempts[..|attempts| - 1], cutoff) + (if cutoff < attempts[|attempts| - 1] then 1 else 0)
  }

  lemma {:induction false} NewerCounts(attempts: seq<int>, cutoff: int)
    ensures |Newer(attempts, cutoff)| == Since(attempts, cutoff)
  {
    if attempts != [] { NewerCounts(attempts[..|attempts| - 1], cutoff); }
  }

  predicate Resends(cfg: Config, w: Watch, a: Answers, now: int) {
    Unwelcomed(cfg, a, now) && Since(w.allResends, now - cfg.resendWindow) < cfg.resendLimit
  }

  /** Why the session is to be reset, if it is: the failed resend of this very tick is a reason too. */
  function ResetReason(cfg: Config, w: Watch, a: Answers, now: int): Option<Reason> {
    if Diverged(cfg, a, now) then Some(EpochDiverged)
    else if Incomplete(cfg, a, now) then Some(MissingRatchets)
    else if Resends(cfg, w, a, now) && !a.resendOk then Some(WelcomeResendFailed)
    else None
  }

  predicate Resets(cfg: Config, w: Watch, a: Answers, now: int) {
    ResetReason(cfg, w, a, now).Some? && Since(w.allResets, now - cfg.resetWindow) < cfg.resetLimit
  }

  /** The stamps of both lists after the start of their windows are all the attempts after it. */
  predicate Complete(cfg: Config, w: Watch, now: int) {
    && |Newer(w.resends, now - cfg.resendWindow)| == Since(w.allResends, now - cfg.resendWindow)
    && |Newer(w.resets, now - cfg.resetWindow)| == Since(w.allResets, now - cfg.resetWindow)
  }

  lemma InvIsComplete(cfg: Config, w: Watch, past: int, now: int, c: int, d: int)
    requires Inv(cfg, w, past, c, d) && past <= now
    ensures Complete(cfg, w, now)
  {
    NewerTwice(w.allResends, c, now - cfg.resendWindow);
    NewerTwice(w.allResets, d, now - cfg.resetWindow);
    NewerCounts(w.allResends, now - cfg.resendWindow);
    NewerCounts(w.allResets, now - cfg.resetWindow);
  }

  predicate ActsExactly(cfg: Config, w: Watch, n: Watch, now: int, a: Answers) {
    var again := if Resends(cfg, w, a, now) then [Resend(now, Since(w.allResends, now - cfg.resendWindow) + 1, a.resendOk)] else [];
    var anew := if Resets(cfg, w, a, now)
      then [Reset(now, ResetReason(cfg, w, a, now).value, Since(w.allResets, now - cfg.resetWindow) + 1, a.resetOk)] else [];
    && n.allResends == w.allResends + (if again == [] then [] else [now])
    && n.allResets == w.allResets + (if anew == [] then [] else [now])
    && n.events == w.events + again + anew
  }

  lemma CompleteActs(cfg: Config, w: Watch, now: int, a: Answers)
    requires Complete(cfg, w, now)
    ensures ActsExactly(cfg, w, Ticked(cfg, w, now, a), now, a)
  {
    var n := Ticked(cfg, w, now, a);
    assert w.events + [] == w.events && w.allResends + [] == w.allResends && w.allResets + [] == w.allResets;
  }

  /**
   * MAIN: over every non-decreasing run a tick resends the key package exactly when the session is asked
   * for and overdue and the last window has room, and resets it exactly for a lasting failed proposal,
   * lasting missing ratchets or a resend that has just failed, if the last window has room; it reports
   * each attempt with its number within the window, and it does nothing else.
   */
  lemma TickActsExactly(wanted: Config, run: seq<Turn>)
    requires run != [] && NonDecreasing(run)
    ensures var t := run[|run| - 1];
      ActsExactly(Normalized(wanted), Execute(Normalized(wanted), run[..|run| - 1]), Execute(Normalized(wanted), run), t.now, t.answers)
  {
    var cfg, init, t := Normalized(wanted), run[..|run| - 1], run[|run| - 1];
    if init != [] {
      var c, d := InvHolds(cfg, init);
      InvIsComplete(cfg, Execute(cfg, init), init[|init| - 1].now, t.now, c, d);
    }
    CompleteActs(cfg, Execute(cfg, init), t.now, t.answers);
  }

  /** What New makes of a configuration: the wanted values, and for each that is not positive 10, 15 and 5 s
      for the three timeouts, 3 attempts each, and windows of one and two minutes. */
  lemma NormalizedMeans(c: Config)
    ensures var n := Normalized(c);
      && n.stuckTimeout == (if c.stuckTimeout > 0 then c.stuckTimeout else 10_000_000_000)
      && n.missingTimeout == (if c.missingTimeout > 0 then c.missingTimeout else 15_000_000_000)
      && n.divergedTimeout == (if c.divergedTimeout > 0 then c.divergedTimeout else 5_000_000_000)
      && n.resendLimit == (if c.resendLimit > 0 then c.resendLimit else 3)
      && n.resendWindow == (if c.resendWindow > 0 then c.resendWindow else 60_000_000_000)
      && n.resetLimit == (if c.resetLimit > 0 then c.resetLimit else 3)
      && n.resetWindow == (if c.resetWindow > 0 then c.resetWindow else 120_000_000_000)
  {
  }

  /** A stuck session whose resends succeed. */
  const STUCK := Answers(true, Health(true, Some(-1_000_000 * SECOND), false, 0, None, None), true, true)

  /** Two resends allowed in any ten nanoseconds. */
  const TIGHT := DEFAULTS.(resendLimit := 2, resendWindow := 10)

  /** A tick of the stuck session that finds `kept` still fresh. */
  lemma StuckTick(run: seq<Turn>, w: Watch, now: int, kept: seq<int>)
    requires now >= 0 && Execute(TIGHT, run) == w && Newer(w.resends, now - 10) == kept && |kept| < 2
    ensures var n := Execute(TIGHT, run + [Turn(now, STUCK)]);
      n.resends == kept + [now] && n.allResends == w.allResends + [now]
  {
    assert (run + [Turn(now, STUCK)])[..|run|] == run;
  }

  lemma WithinAppended(stamps: seq<int>, last: int)
    ensures Within(stamps + [last], 0, 10) == Within(stamps, 0, 10) + (if 0 <= last < 10 then 1 else 0)
  {
    assert (stamps + [last])[..|stamps|] == stamps;
  }

  lemma NewerPair(a: int, b: int, cutoff: int)
    ensures Newer([a], cutoff) == if a > cutoff then [a] else []
    ensures Newer([a, b], cutoff) == if b > cutoff then Newer([a], cutoff) + [b] else Newer([a], cutoff)
  {
    assert [a, b][..1] == [a] && [a][..0] == [] && [] + [a] == [a];
  }

  const SET_BACK := [Turn(0, STUCK)] + [Turn(1, STUCK)] + [Turn(20, STUCK)] + [Turn(2, STUCK)]

  lemma SetBackRun()
    ensures Execute(TIGHT, SET_BACK).allResends == [] + [0] + [1] + [20] + [2]
  {
    var run1 := [Turn(0, STUCK)];
    StuckTick([], BOOT, 0, []);
    assert [] + run1 == run1 && [] + [0] == [0];
    NewerPair(0, 1, -9);
    StuckTick(run1, Execute(TIGHT, run1), 1, [0]);
    assert [0] + [1] == [0, 1];
    NewerPair(0, 1, 10);
    StuckTick(run1 + [Turn(1, STUCK)], Execute(TIGHT, run1 + [Turn(1, STUCK)]), 20, []);
    assert [] + [20] == [20];
    NewerPair(20, 2, -8);
    StuckTick(run1 + [Turn(1, STUCK)] + [Turn(20, STUCK)], Execute(TIGHT, run1 + [Turn(1, STUCK)] + [Turn(20, STUCK)]), 2, [20]);
  }

  /** The hypothesis is needed for a caller of Tick with times of its own; the ticker's never go back. */
  lemma ClockSetBackBreaksTheBound()
    ensures !NonDecreasing(SET_BACK)
    ensures Within(Execute(TIGHT, SET_BACK).allResends, 0, TIGHT.resendWindow) > TIGHT.resendLimit
  {
    assert SET_BACK[2].now > SET_BACK[3].now;
    SetBackRun();
    WithinAppended([], 0);
    WithinAppended([] + [0], 1);
    WithinAppended([] + [0] + [1], 20);
    WithinAppended([] + [0] + [1] + [20], 2);
  }
}
