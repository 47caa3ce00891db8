/** internal/audioforward/client.go: the deadline that covers all attempts of one request, in 64-bit nanoseconds. */
module RetryBudget {
  import opened JobTypes

  const SECOND: int := 1_000_000_000
  const LEAST: int := 5 * SECOND
  const MOST: int := 30 * SECOND
  const LIMIT: int := 0x8000_0000_0000_0000

  predicate Fits(x: int) { -LIMIT <= x < LIMIT }

  /** What a 64-bit signed operation leaves of its exact result. */
  function Wrap(x: int): (r: int)
    ensures Fits(r) && (Fits(x) ==> r == x)
  {
    (x + LIMIT) % (2 * LIMIT) - LIMIT
  }

  datatype Config = Config(timeout: int, retryMax: int, retryBase: int)

  function Attempts(cfg: Config): nat
    ensures Attempts(cfg) >= 1
  {
    if cfg.retryMax <= 0 then 1 else cfg.retryMax
  }

  function PerAttempt(cfg: Config): int { if cfg.timeout <= 0 then LEAST else cfg.timeout }

  /** The delay before attempt k + 1, without any limit on the width of a number. */
  function Ideal(base: int, k: nat): int
    requires k >= 1
  {
    if base <= 0 then 0 else if base * Pow2(k - 1) > MOST then MOST else base * Pow2(k - 1)
  }

  /** What k - 1 doublings of 64-bit numbers leave. */
  function Doubled(base: int, k: nat): int
    requires k >= 1
  {
    if k == 1 then base else Wrap(2 * Doubled(base, k - 1))
  }

  /** What retryDelay returns. */
  function Delay(base: int, k: nat): int
    requires k >= 1
  {
    if base <= 0 then 0 else if Doubled(base, k) > MOST then MOST else Doubled(base, k)
  }

  method RetryDelay(base: int, attempt: nat) returns (delay: int)
    requires Fits(base) && attempt >= 1
    ensures delay == Delay(base, attempt)
  {
    if base <= 0 { return 0; }
    delay := base;
    for i := 1 to attempt
      invariant delay == Doubled(base, i)
    {
      delay := Wrap(delay * 2);
    }
    if delay > MOST { return MOST; }
  }

  // ----- when the 64-bit delay is the ideal one -----

  lemma {:induction false} DoubledIsExact(base: int, k: nat)
    requires k >= 1 && 0 < base && base * Pow2(k - 1) < LIMIT
    ensures Doubled(base, k) == base * Pow2(k - 1)
  {
    if k > 1 {
      PowStep(base, k);
      DoubledIsExact(base, k - 1);
    }
  }

  lemma PowStep(base: int, k: nat)
    requires k > 1 && base > 0
    ensures base * Pow2(k - 1) == 2 * (base * Pow2(k - 2)) && base * Pow2(k - 2) > 0
  {
    PowPositive(k - 2);
    assert Pow2(k - 1) == 2 * Pow2(k - 2);
    assert base * (2 * Pow2(k - 2)) == 2 * (base * Pow2(k - 2));
    Positive(base, Pow2(k - 2));
  }

  lemma Positive(a: int, b: int)
    requires a > 0 && b > 0
    ensures a * b > 0
  {
  }

  lemma {:induction false} PowPositive(n: nat)
    ensures Pow2(n) >= 1
  {
    if n > 0 { PowPositive(n - 1); }
  }

  /** The first doubling that leaves the range turns the delay negative. */
  lemma FirstOverflowIsNegative(base: int, k: nat)
    requires k > 1 && 0 < base && base * Pow2(k - 2) < LIMIT <= base * Pow2(k - 1)
    ensures Doubled(base, k) < 0
  {
    PowStep(base, k);
    DoubledIsExact(base, k - 1);
  }

  lemma {:induction false} PowGrows(base: int, k: nat, n: nat)
    requires 1 <= k <= n && base > 0
    ensures base * Pow2(k - 1) <= base * Pow2(n - 1)
  {
    if k < n {
      PowStep(base, n);
      PowGrows(base, k, n - 1);
    }
  }

  /**
   * MAIN: the delays before all of the first n retries are the ideal ones exactly when the last
   * doubling still fits into 64 bits; otherwise one of them is negative, and nothing is waited.
   */
  lemma DelaysAreIdealExactly(base: int, n: nat)
    requires n >= 1 && 0 < base < LIMIT
    ensures (forall k :: 1 <= k <= n ==> Delay(base, k) == Ideal(base, k)) <==> base * Pow2(n - 1) < LIMIT
    ensures base * Pow2(n - 1) >= LIMIT ==> exists k :: 1 <= k <= n && Delay(base, k) < 0 && Ideal(base, k) == MOST
  {
    if base * Pow2(n - 1) < LIMIT {
      forall k | 1 <= k <= n ensures Delay(base, k) == Ideal(base, k) {
        PowGrows(base, k, n);
        DoubledIsExact(base, k);
      }
    } else {
      var k := FirstOverflow(base, n);
      FirstOverflowIsNegative(base, k);
      assert Delay(base, k) < 0 && Ideal(base, k) == MOST;
    }
  }

  lemma {:induction false} FirstOverflow(base: int, n: nat) returns (k: nat)
    requires n >= 1 && 0 < base < LIMIT && base * Pow2(n - 1) >= LIMIT
    ensures 1 < k <= n && base * Pow2(k - 2) < LIMIT <= base * Pow2(k - 1)
  {
    assert Pow2(0) == 1;
    if n > 1 && base * Pow2(n - 2) >= LIMIT {
      k := FirstOverflow(base, n - 1);
    } else {
      k := n;
    }
  }

  // ----- the budget -----

  /** The margin, k attempts, and the delays between them. */
  function Spent(cfg: Config, k: nat): int
    requires k >= 1
  {
    if k == 1 then SECOND + PerAttempt(cfg) else Spent(cfg, k - 1) + Ideal(cfg.retryBase, k - 1) + PerAttempt(cfg)
  }

  function Delays(cfg: Config, k: nat): int
    requires k >= 1
  {
    if k == 1 then 0 else Delays(cfg, k - 1) + Ideal(cfg.retryBase, k - 1)
  }

  lemma {:induction false} SpentIsTheSum(cfg: Config, k: nat)
    requires k >= 1
    ensures Spent(cfg, k) == SECOND + k * PerAttempt(cfg) + Delays(cfg, k)
  {
    if k > 1 {
      SpentIsTheSum(cfg, k - 1);
      assert k * PerAttempt(cfg) == (k - 1) * PerAttempt(cfg) + PerAttempt(cfg);
    }
  }

  lemma IdealIsNotNegative(base: int, k: nat)
    requires k >= 1
    ensures 0 <= Ideal(base, k) <= MOST
  {
    if base > 0 {
      PowPositive(k - 1);
      Positive(base, Pow2(k - 1));
    }
  }

  lemma {:induction false} SpentGrows(cfg: Config, k: nat, n: nat)
    requires 1 <= k <= n
    ensures Spent(cfg, k) <= Spent(cfg, n)
    ensures k < n ==> Spent(cfg, k) + Ideal(cfg.retryBase, k) < Spent(cfg, n)
  {
    if k < n {
      SpentGrows(cfg, k, n - 1);
      IdealIsNotNegative(cfg.retryBase, n - 1);
    }
  }

  function Clamped(x: int): int { if x < LEAST then LEAST else if x > MOST then MOST else x }

  /** A retry is budgeted only while the delays so far are small, so its doublings are exact. */
  lemma BudgetedDelayIsIdeal(base: int, k: nat)
    requires k >= 1 && Fits(base) && (k > 1 ==> Ideal(base, k - 1) < MOST)
    ensures Delay(base, k) == Ideal(base, k)
  {
    if base > 0 {
      if k > 1 { PowStep(base, k); }
      assert Pow2(0) == 1;
      DoubledIsExact(base, k);
    }
  }

  /**
   * MAIN: computed with 64-bit operations throughout, the timeout is the exact sum of the margin, all
   * attempts and all delays, kept between 5 and 30 seconds.
   */
  method ForwardOpusRequestTimeout(cfg: Config) returns (r: int)
    requires Fits(cfg.timeout) && Fits(cfg.retryBase)
    ensures r == Clamped(SECOND + Attempts(cfg) * PerAttempt(cfg) + Delays(cfg, Attempts(cfg)))
  {
    var attempts := Attempts(cfg);
    SpentIsTheSum(cfg, attempts);
    var perAttempt := PerAttempt(cfg);
    var budget := SECOND;
    var attempt := 1;
    while attempt <= attempts
      invariant 1 <= attempt <= attempts && SECOND <= budget < MOST
      invariant budget + perAttempt == Spent(cfg, attempt)
      invariant attempt > 1 ==> Ideal(cfg.retryBase, attempt - 1) < MOST
    {
      SpentGrows(cfg, attempt, attempts);
      if perAttempt >= Wrap(MOST - budget) { return MOST; }
      budget := Wrap(budget + perAttempt);
      if attempt == attempts { break; }
      var delay := RetryDelay(cfg.retryBase, attempt);
      BudgetedDelayIsIdeal(cfg.retryBase, attempt);
      IdealIsNotNegative(cfg.retryBase, attempt);
      if delay >= Wrap(MOST - budget) { return MOST; }
      budget := Wrap(budget + delay);
      attempt := attempt + 1;
    }
    if budget < LEAST { return LEAST; }
    if budget > MOST { return MOST; }
    return budget;
  }

  // ----- the attempts that the budget is for -----

  /** How one attempt ended, and how long it took. */
  datatype Answer = TransportError(took: int) | Status(code: int, took: int)

  predicate Succeeds(a: Answer) { a.Status? && 200 <= a.code < 300 }

  predicate Retries(a: Answer) {
    a.TransportError? || a.code == 408 || a.code == 409 || a.code == 429 || a.code >= 500
  }

  /** No answer at all, a timeout or a conflict there, too many requests, or a server error. */
  predicate Transient(a: Answer) { a.Status? ==> a.code in {408, 409, 429} || 499 < a.code }

  /** How the whole request ended: sent, the last error, or a sleep cut short by the parent. */
  datatype Ended = Delivered | Failed(last: Answer) | Interrupted

  /**
   * The attempt loop of ForwardOpus. `answers` are what successive attempts meet, and `awake` tells
   * whether the sleep after an attempt runs to its end.
   */
  method Forward(cfg: Config, answers: seq<Answer>, awake: seq<bool>) returns (ended: Ended, made: nat, elapsed: int)
    requires Fits(cfg.retryBase) && |answers| == |awake| == Attempts(cfg)
    ensures 1 <= made <= Attempts(cfg)
    ensures forall i :: 0 <= i < made - 1 ==> Retries(answers[i]) && !Succeeds(answers[i]) && Slept(cfg, awake, i)
    ensures ended.Delivered? <==> Succeeds(answers[made - 1])
    ensures ended.Failed? ==> ended.last == answers[made - 1] && (made == Attempts(cfg) || !Retries(answers[made - 1]))
    ensures ended.Interrupted? ==> made < Attempts(cfg) && Retries(answers[made - 1]) && !Slept(cfg, awake, made - 1)
    ensures forall i :: 0 <= i < made - 1 ==> Transient(answers[i])
    ensures made < Attempts(cfg) && ended.Failed? ==> answers[made - 1].Status? && !Transient(answers[made - 1])
    ensures ended.Delivered? <==> answers[made - 1].Status? && answers[made - 1].code / 100 == 2
    ensures elapsed == Elapsed(cfg, answers, made)
  {
    var attempts := Attempts(cfg);
    made, elapsed := 0, 0;
    ended := Interrupted;
    var attempt := 1;
    while attempt <= attempts
      invariant 1 <= attempt <= attempts && made == attempt - 1
      invariant forall i :: 0 <= i < made ==> Retries(answers[i]) && !Succeeds(answers[i]) && Slept(cfg, awake, i)
      invariant elapsed == (if made == 0 then 0 else Elapsed(cfg, answers, made) + Waited(cfg, made))
    {
      var answer := answers[attempt - 1];
      made := attempt;
      elapsed := elapsed + answer.took;
      if answer.Status? {
        if 200 <= answer.code < 300 { return Delivered, made, elapsed; }
        if !Retries(answer) { return Failed(answer), made, elapsed; }
      }
      if attempt == attempts { return Failed(answer), made, elapsed; }
      var delay := RetryDelay(cfg.retryBase, attempt);
      if delay > 0 && !awake[attempt - 1] { return Interrupted, made, elapsed; }
      elapsed := elapsed + (if delay > 0 then delay else 0);
      attempt := attempt + 1;
    }
  }

  /** A delay that is not positive is not slept at all, and cannot be interrupted. */
  predicate Slept(cfg: Config, awake: seq<bool>, i: nat)
    requires i < |awake|
  {
    Delay(cfg.retryBase, i + 1) <= 0 || awake[i]
  }

  function Waited(cfg: Config, k: nat): int
    requires k >= 1
  {
    if Delay(cfg.retryBase, k) > 0 then Delay(cfg.retryBase, k) else 0
  }

  /** The time of the first k attempts and of the sleeps between them. */
  function Elapsed(cfg: Config, answers: seq<Answer>, k: nat): int
    requires 1 <= k <= |answers|
  {
    answers[k - 1].took + if k == 1 then 0 else Elapsed(cfg, answers, k - 1) + Waited(cfg, k - 1)
  }

  /**
   * MAIN: a timeout below its upper bound leaves every attempt its own deadline, every sleep its
   * length, and a second to spare, however many of the attempts are needed.
   */
  lemma TimeoutCoversTheAttempts(cfg: Config, answers: seq<Answer>, made: nat, timeout: int)
    requires Fits(cfg.timeout) && Fits(cfg.retryBase) && 1 <= made <= |answers| == Attempts(cfg)
    requires forall i :: 0 <= i < |answers| ==> answers[i].took <= PerAttempt(cfg)
    requires timeout == Clamped(SECOND + Attempts(cfg) * PerAttempt(cfg) + Delays(cfg, Attempts(cfg))) && timeout < MOST
    ensures Elapsed(cfg, answers, made) + SECOND <= timeout
  {
    SpentIsTheSum(cfg, Attempts(cfg));
    SpentGrows(cfg, made, Attempts(cfg));
    ElapsedFits(cfg, answers, made);
  }

  lemma {:induction false} ElapsedFits(cfg: Config, answers: seq<Answer>, k: nat)
    requires Fits(cfg.retryBase) && 1 <= k <= |answers|
    requires forall i :: 0 <= i < |answers| ==> answers[i].took <= PerAttempt(cfg)
    requires Spent(cfg, k) <= MOST
    ensures Elapsed(cfg, answers, k) + SECOND <= Spent(cfg, k)
    ensures k > 1 ==> Ideal(cfg.retryBase, k - 1) < MOST
  {
    if k > 1 {
      SpentGrows(cfg, 1, k - 1);
      IdealIsNotNegative(cfg.retryBase, k - 1);
      ElapsedFits(cfg, answers, k - 1);
      BudgetedDelayIsIdeal(cfg.retryBase, k - 1);
    }
  }
}
