/** When a report of the retry queue is queued, how long it waits, and which one is taken next. */
module RetryTimes {
  import opened JobTypes
  import opened RetryQueue

  /** How long a report waits that has been sent this often: 250 ms at first and after the first send, then twice as long. */
  function Wait(attempts: nat): int {
    if attempts <= 1 then 250_000_000 else if attempts == 2 then 500_000_000 else 1_000_000_000
  }

  /** The time at which the report may be sent. */
  function Ripe(r: Report): int { r.queuedAt + Wait(r.attempts) }

  lemma WaitIsBackoff(attempts: nat)
    requires attempts <= 3
    ensures Backoff(attempts) == Wait(attempts)
  {
    if attempts == 3 { assert Backoff(2) == 500_000_000; }
  }

  // ----- what one event puts into the queue -----

  /**
   * MAIN: whatever an event puts into the queue is queued at the time of that event. A new report gets the
   * next number and no attempts; one that comes back keeps its number and its attempts.
   */
  lemma QueuedWhenPut(s: System, e: Event, now: int, key: Key)
    requires Inv(s) && key in Apply(s, e, now).q.pending && !(key in s.q.pending && Apply(s, e, now).q.pending[key] == s.q.pending[key])
    ensures var r := Apply(s, e, now).q.pending[key];
      && r.queuedAt == now && r.nextTryAt == Ripe(r)
      && match e
         case Enqueue(offered, _) => offered.key == key && r.kind == offered.kind && r.sequence == s.q.sequence + 1 && r.attempts == 0
         case Settle =>
           && s.hand.Published? && s.hand.outcome == Retryable && s.hand.report.attempts < 4
           && s.hand.report.key == key && r.kind == s.hand.report.kind && r.sequence == s.hand.report.sequence
           && r.attempts == s.hand.report.attempts
         case _ => false
  {
    if e.Settle? && s.hand.Published? && s.hand.report.attempts < 4 { WaitIsBackoff(s.hand.report.attempts); }
  }

  /** A chat report that no other chat report has been queued before. */
  predicate WaitedLongest(q: Queue, key: Key) {
    && key in q.pending && q.pending[key].kind == ChatEvent
    && forall k :: k in q.pending && q.pending[k].kind == ChatEvent ==> q.pending[key].queuedAt <= q.pending[k].queuedAt
  }

  /** MAIN: an offered report is refused exactly by a stopped queue or a full one without chat; a full one
      loses the chat report that has waited longest, and nothing else goes. */
  lemma EnqueueMeans(s: System, offered: Report, victim: Option<Key>, now: int)
    requires Inv(s) && offered.key != NoKey && !s.q.stopped
    requires if offered.key in s.q.pending || |s.q.pending| < 256 then victim.None?
             else victim.Some? && OldestChat(s.q, victim.value)
    ensures var n := Apply(s, Enqueue(offered, victim), now);
      && offered.key in n.q.pending && n.q.latest[offered.key] == n.q.pending[offered.key].sequence == n.q.sequence == s.q.sequence + 1
      && (forall k :: k != offered.key ==> (k in n.q.pending <==> k in s.q.pending && victim != Some(k)))
      && (forall k :: k != offered.key && k in n.q.pending ==> n.q.pending[k] == s.q.pending[k])
      && (victim.Some? ==> WaitedLongest(s.q, victim.value) && (victim.value != offered.key ==> victim.value !in n.q.latest))
  {
    assert KeyOk(s, offered.key);
    if victim.Some? {
      forall k | k in s.q.pending && s.q.pending[k].kind == ChatEvent
        ensures s.q.pending[victim.value].queuedAt <= s.q.pending[k].queuedAt { assert IsChat(s.q, k); }
    }
  }

  /**
   * MAIN: a published report comes back exactly when its failure was worth repeating, it was sent fewer than
   * four times, and nothing newer of its key has been enqueued or has removed it since; otherwise its
   * key is forgotten, unless a newer report has it.
   */
  lemma SettleMeans(s: System, now: int)
    requires Inv(s) && s.hand.Published?
    ensures var n, r := Apply(s, Settle, now), s.hand.report;
      var latest := r.key in s.q.latest && s.q.latest[r.key] == r.sequence;
      var back := s.hand.outcome == Retryable && r.attempts < 4 && latest;
      && n.hand == Empty && n.q.sequence == s.q.sequence
      && n.q.pending == (if back then s.q.pending[r.key := r.(queuedAt := now, nextTryAt := now + Wait(r.attempts))] else s.q.pending)
      && n.q.latest == (if latest && !back then s.q.latest - {r.key} else s.q.latest)
  {
    var r := s.hand.report;
    assert KeyOk(s, r.key) && CountOk(s, r.key);
    if r.attempts < 4 { WaitIsBackoff(r.attempts); }
    if r.key !in s.q.pending { assert s.q.pending - {r.key} == s.q.pending; }
  }

  // ----- over runs -----

  ghost predicate Timed(s: System, k: Key) {
    k in s.q.pending ==> s.q.pending[k].nextTryAt == Ripe(s.q.pending[k])
  }

  lemma {:induction false} TimesHold(run: seq<(Event, int)>)
    ensures forall k :: Timed(Execute(BOOT, run), k)
  {
    if run != [] {
      var s, e, now := Execute(BOOT, run[..|run| - 1]), run[|run| - 1].0, run[|run| - 1].1;
      TimesHold(run[..|run| - 1]);
      InvHolds(run[..|run| - 1]);
      forall k ensures Timed(Execute(BOOT, run), k) {
        assert Timed(s, k);
        if k in Apply(s, e, now).q.pending && !(k in s.q.pending && Apply(s, e, now).q.pending[k] == s.q.pending[k]) {
          QueuedWhenPut(s, e, now, k);
        }
      }
    }
  }

  /** The report has waited its time, and no other that has was queued before it. */
  predicate FirstInLine(q: Queue, key: Key, now: int) {
    && key in q.pending && Ripe(q.pending[key]) <= now
    && forall k :: k in q.pending && Ripe(q.pending[k]) <= now ==> q.pending[key].queuedAt <= q.pending[k].queuedAt
  }

  /**
   * MAIN: over every run the consumer takes a report exactly when it holds none, the report has waited its
   * time since it was queued last, and no other report that has waited its own was queued before it.
   */
  lemma TakenInItsTurn(run: seq<(Event, int)>, key: Key, now: int)
    ensures var s := Execute(BOOT, run); var n := Apply(s, Take(key), now);
      && (n != s <==> s.hand.Empty? && FirstInLine(s.q, key, now))
      && (n != s ==> n.hand == Holding(s.q.pending[key]) && n.q == s.q.(pending := s.q.pending - {key}))
  {
    TimesHold(run);
    var s := Execute(BOOT, run);
    forall k ensures Due(s.q, k, now) <==> k in s.q.pending && Ripe(s.q.pending[k]) <= now { assert Timed(s, k); }
  }
}
