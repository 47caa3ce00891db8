/** internal/jobs/event_retry.go: the bounded, coalescing, newest-wins retry queue. */
module RetryQueue {
  import opened JobTypes

  const MAX_PENDING: nat := 256
  const MAX_ATTEMPTS: nat := 4
  const RETRY_BASE: nat := 250_000_000
  const RETRY_MAX: nat := 3_000_000_000

  /** The NUL-joined keys; NoKey is the key of a zero report. */
  datatype Key = NoKey | ParticipantsKey(stream: Id) | SpeakerKey(stream: Id) | ChatKey(stream: Id, message: Id)

  datatype Kind = ParticipantsEvent | SpeakerEvent | ChatEvent

  datatype Report = Report(key: Key, kind: Kind, sequence: nat, attempts: nat, nextTryAt: int, queuedAt: int)

  datatype Queue = Queue(pending: map<Key, Report>, latest: map<Key, nat>, sequence: nat, stopped: bool)

  const EMPTY := Queue(map[], map[], 0, false)

  /** A lookup in `latest` with the zero value of an absent key. */
  function Latest(q: Queue, key: Key): nat { if key in q.latest then q.latest[key] else 0 }

  function Without(q: Queue, key: Key): Queue { q.(pending := q.pending - {key}, latest := q.latest - {key}) }

  predicate IsChat(q: Queue, key: Key) { key in q.pending && q.pending[key].kind == ChatEvent }

  /** A chat report that has waited as long as any other. */
  ghost predicate OldestChat(q: Queue, key: Key) {
    IsChat(q, key) && forall other :: IsChat(q, other) ==> q.pending[key].queuedAt <= q.pending[other].queuedAt
  }

  predicate Due(q: Queue, key: Key, now: int) { key in q.pending && q.pending[key].nextTryAt <= now }

  ghost predicate NextDue(q: Queue, key: Key, now: int) {
    Due(q, key, now) && forall other :: Due(q, other, now) ==> q.pending[key].queuedAt <= q.pending[other].queuedAt
  }

  predicate Overflows(q: Queue, key: Key) { key !in q.pending && |q.pending| >= MAX_PENDING }

  /** What enqueue leaves behind when it accepts the report; `victim` is the evicted chat report. */
  function Accepted(q: Queue, r: Report, victim: Option<Key>, now: int): Queue {
    var room := if victim.Some? then Without(q, victim.value) else q;
    var stamped := r.(sequence := q.sequence + 1, attempts := 0, queuedAt := now, nextTryAt := now + RETRY_BASE);
    room.(sequence := q.sequence + 1, latest := room.latest[r.key := q.sequence + 1], pending := room.pending[r.key := stamped])
  }

  function Dropped(q: Queue, r: Report): Queue {
    if Latest(q, r.key) == r.sequence then Without(q, r.key) else q
  }

  function Backoff(attempts: nat): nat {
    if attempts <= 1 then RETRY_BASE else
      var d := 2 * Backoff(attempts - 1);
      if d >= RETRY_MAX then RETRY_MAX else d
  }

  predicate Requeues(q: Queue, r: Report) {
    !q.stopped && Latest(q, r.key) == r.sequence && r.key !in q.pending
  }

  function Requeued(q: Queue, r: Report, now: int): Queue {
    if !Requeues(q, r) then q
    else if r.attempts >= MAX_ATTEMPTS then q.(latest := q.latest - {r.key})
    else q.(pending := q.pending[r.key := r.(nextTryAt := now + Backoff(r.attempts), queuedAt := now)])
  }

  class WorkerEventRetryQueue {
    var pending: map<Key, Report>
    var latest: map<Key, nat>
    var sequence: nat
    var stopped: bool

    ghost function Abstract(): Queue
      reads this
    {
      Queue(pending, latest, sequence, stopped)
    }

    constructor ()
      ensures Abstract() == EMPTY
    {
      pending, latest, sequence, stopped := map[], map[], 0, false;
    }

    /** stopAndWait, up to the wait. */
    method Stop()
      modifies this
      ensures Abstract() == if old(stopped) then old(Abstract()) else Queue(map[], map[], old(sequence), true)
    {
      if !stopped {
        stopped := true;
        pending := map[];
        latest := map[];
      }
    }

    /** dropOldestChatLocked: one pass over the map in an arbitrary order. */
    method DropOldestChat() returns (victim: Option<Key>)
      modifies this`pending, this`latest
      ensures victim.None? ==> forall k :: !IsChat(old(Abstract()), k)
      ensures victim.Some? ==> OldestChat(old(Abstract()), victim.value)
      ensures Abstract() == if victim.Some? then Without(old(Abstract()), victim.value) else old(Abstract())
    {
      victim := None;
      var oldest := 0;
      var rest := pending.Keys;
      while rest != {}
        invariant rest <= pending.Keys
        invariant pending == old(pending) && latest == old(latest)
        invariant victim.None? ==> forall k :: IsChat(Abstract(), k) ==> k in rest
        invariant victim.Some? ==> IsChat(Abstract(), victim.value) && oldest == pending[victim.value].queuedAt
        invariant victim.Some? ==> forall k :: IsChat(Abstract(), k) && k !in rest ==> oldest <= pending[k].queuedAt
        decreases |rest|
      {
        var key :| key in rest;
        rest := rest - {key};
        var report := pending[key];
        if report.kind != ChatEvent { continue; }
        if victim.None? || report.queuedAt < oldest {
          victim := Some(key);
          oldest := report.queuedAt;
        }
      }
      if victim.Some? {
        pending := pending - {victim.value};
        latest := latest - {victim.value};
      }
    }

    method Enqueue(report: Report, now: int) returns (accepted: bool, ghost victim: Option<Key>)
      modifies this
      ensures accepted <==> !old(stopped) && (Overflows(old(Abstract()), report.key) ==> exists k :: IsChat(old(Abstract()), k))
      ensures victim.Some? <==> accepted && Overflows(old(Abstract()), report.key)
      ensures victim.Some? ==> OldestChat(old(Abstract()), victim.value)
      ensures Abstract() == if accepted then Accepted(old(Abstract()), report, victim, now) else old(Abstract())
    {
      accepted, victim := false, None;
      if stopped { return; }
      if report.key !in pending && |pending| >= MAX_PENDING {
        var dropped := DropOldestChat();
        if dropped.None? { return; }
        victim := dropped;
      }
      sequence := sequence + 1;
      var stamped := report.(sequence := sequence, attempts := 0, queuedAt := now, nextTryAt := now + RETRY_BASE);
      latest := latest[report.key := sequence];
      pending := pending[report.key := stamped];
      accepted := true;
    }

    /** next: the oldest due report, or how long to wait for the first one. */
    method Next(now: int) returns (selected: Option<Report>, wait: nat)
      requires forall k :: k in pending ==> pending[k].key == k
      modifies this`pending
      ensures selected.None? ==> Abstract() == old(Abstract()) && forall k :: !Due(old(Abstract()), k, now)
      ensures selected.None? && wait > 0 ==> forall k :: k in pending ==> now + wait <= pending[k].nextTryAt
      ensures selected.None? && wait == 0 ==> pending == map[]
      ensures selected.Some? ==> var k := selected.value.key;
        NextDue(old(Abstract()), k, now) && selected.value == old(pending)[k]
        && Abstract() == old(Abstract()).(pending := old(pending) - {k})
    {
      selected, wait := None, 0;
      var rest := pending.Keys;
      while rest != {}
        invariant rest <= pending.Keys && pending == old(pending)
        invariant selected.None? ==> forall k :: Due(Abstract(), k, now) ==> k in rest
        invariant selected.Some? ==> Due(Abstract(), selected.value.key, now) && selected.value == pending[selected.value.key]
        invariant selected.Some? ==> forall k :: Due(Abstract(), k, now) && k !in rest ==> selected.value.queuedAt <= pending[k].queuedAt
        invariant wait == 0 ==> forall k :: k in pending && k !in rest ==> Due(Abstract(), k, now)
        invariant wait > 0 ==> forall k :: k in pending && k !in rest && !Due(Abstract(), k, now) ==> now + wait <= pending[k].nextTryAt
        decreases |rest|
      {
        var key :| key in rest;
        rest := rest - {key};
        var report := pending[key];
        if report.nextTryAt <= now {
          if selected.None? || report.queuedAt < selected.value.queuedAt {
            selected := Some(report);
          }
          continue;
        }
        if wait == 0 || report.nextTryAt - now < wait {
          wait := report.nextTryAt - now;
        }
      }
      if selected.Some? {
        pending := pending - {selected.value.key};
        wait := 0;
      }
    }

    method MarkDropped(report: Report)
      modifies this`pending, this`latest
      ensures Abstract() == Dropped(old(Abstract()), report)
    {
      if (if report.key in latest then latest[report.key] else 0) == report.sequence {
        pending := pending - {report.key};
        latest := latest - {report.key};
      }
    }

    /** The queue part of supersedeWorkerEventRetry. */
    method Supersede(key: Key)
      modifies this`pending, this`latest
      ensures Abstract() == if old(stopped) then old(Abstract()) else Without(old(Abstract()), key)
    {
      if !stopped {
        pending := pending - {key};
        latest := latest - {key};
      }
    }

    /** The doubling loop of requeue. */
    method RetryDelay(attempts: nat) returns (delay: nat)
      ensures delay == Backoff(attempts)
    {
      delay := RETRY_BASE;
      var attempt := 1;
      while attempt < attempts
        invariant 1 <= attempt && (attempts >= 1 ==> attempt <= attempts)
        invariant attempts == 0 ==> attempt == 1
        invariant delay == Backoff(attempt) < RETRY_MAX
      {
        delay := delay * 2;
        if delay >= RETRY_MAX {
          delay := RETRY_MAX;
          BackoffStays(attempt + 1, attempts);
          return;
        }
        attempt := attempt + 1;
      }
    }

    method Requeue(report: Report, now: int)
      modifies this`pending, this`latest
      ensures Abstract() == Requeued(old(Abstract()), report, now)
    {
      if stopped || (if report.key in latest then latest[report.key] else 0) != report.sequence { return; }
      if report.key in pending { return; }
      if report.attempts >= MAX_ATTEMPTS {
        latest := latest - {report.key};
        return;
      }
      var delay := RetryDelay(report.attempts);
      pending := pending[report.key := report.(nextTryAt := now + delay, queuedAt := now)];
    }
  }

  lemma {:induction false} BackoffStays(low: nat, high: nat)
    requires low <= high && Backoff(low) == RETRY_MAX
    ensures Backoff(high) == RETRY_MAX
  {
    if low < high {
      BackoffStays(low, high - 1);
    }
  }

  /** The capped doubling in closed form. */
  lemma {:induction false} BackoffIsCappedDoubling(attempts: nat)
    requires attempts >= 1
    ensures Backoff(attempts) == if RETRY_BASE * Pow2(attempts - 1) >= RETRY_MAX then RETRY_MAX else RETRY_BASE * Pow2(attempts - 1)
  {
    if attempts > 1 {
      BackoffIsCappedDoubling(attempts - 1);
    }
  }

  // ----- the queue with its producers and its one consumer -----

  /** What the consumer does with the report it has taken out of the queue. */
  datatype Hand = Empty | Holding(report: Report) | Published(report: Report, outcome: Outcome)

  datatype Outcome = Delivered | Retryable | Refused

  datatype Observation = Inserted(key: Key, sequence: nat) | Sent(sequence: nat)

  /** `abandoned` are the keys whose latest report was in hand when its refresh failed, as long as
      nothing has been enqueued for them or has removed them since. */
  datatype System = System(q: Queue, hand: Hand, abandoned: set<Key>, trace: seq<Observation>)

  const BOOT := System(EMPTY, Empty, {}, [])

  datatype Event =
    | Enqueue(offered: Report, victim: Option<Key>)
    | Supersede(key: Key)
    | Stop
    | Take(taken: Key)
    | Discard
    | Abandon
    | Publish(outcome: Outcome)
    | Settle

  function Observe(s: System, o: Observation): System { s.(trace := s.trace + [o]) }

  ghost predicate MayEvict(q: Queue, key: Key, victim: Option<Key>) {
    if Overflows(q, key) then victim.Some? && OldestChat(q, victim.value) else victim.None?
  }

  /** The report a failed refresh returns in place of the one it was given. */
  const ZERO := Report(NoKey, ChatEvent, 0, 0, 0, 0)

  /** deliverWorkerEventRetry, split where it lets go of the queue's lock. */
  ghost function Apply(s: System, e: Event, now: int): System {
    var q := s.q;
    match e
    case Enqueue(r, victim) =>
      if q.stopped || r.key.NoKey? || !MayEvict(q, r.key, victim) then s
      else Observe(s.(q := Accepted(q, r, victim, now), abandoned := s.abandoned - {r.key}), Inserted(r.key, q.sequence + 1))
    case Supersede(key) => if q.stopped then s else s.(q := Without(q, key), abandoned := s.abandoned - {key})
    case Stop => if q.stopped then s else s.(q := Queue(map[], map[], q.sequence, true), abandoned := {})
    case Take(key) =>
      if s.hand.Empty? && NextDue(q, key, now)
      then s.(hand := Holding(q.pending[key]), q := q.(pending := q.pending - {key})) else s
    case Discard => if s.hand.Holding? then s.(hand := Empty, q := Dropped(q, s.hand.report)) else s
    case Abandon =>
      if s.hand.Holding?
      then
        s.(hand := Empty, q := Dropped(q, ZERO),
           abandoned := if InHandLatest(s, s.hand.report.key) then s.abandoned + {s.hand.report.key} else s.abandoned)
      else s
    case Publish(outcome) =>
      if s.hand.Holding?
      then Observe(s.(hand := Published(s.hand.report.(attempts := s.hand.report.attempts + 1), outcome)), Sent(s.hand.report.sequence)) else s
    case Settle =>
      if !s.hand.Published? then s
      else
        var r := s.hand.report;
        if s.hand.outcome != Retryable || r.attempts >= MAX_ATTEMPTS then s.(hand := Empty, q := Dropped(q, r))
        else
          var n := s.(hand := Empty, q := Requeued(q, r, now));
          if Requeues(q, r) then Observe(n, Inserted(r.key, r.sequence)) else n
  }

  ghost function Execute(s: System, run: seq<(Event, int)>): System {
    if run == [] then s
    else Apply(Execute(s, run[..|run| - 1]), run[|run| - 1].0, run[|run| - 1].1)
  }

  function Sends(trace: seq<Observation>, sequence: nat): nat {
    if trace == [] then 0
    else Sends(trace[..|trace| - 1], sequence) + (if trace[|trace| - 1] == Sent(sequence) then 1 else 0)
  }

  lemma SendsAppended(trace: seq<Observation>, o: Observation)
    ensures forall n :: Sends(trace + [o], n) == Sends(trace, n) + (if o == Sent(n) then 1 else 0)
  {
    assert (trace + [o])[..|trace|] == trace;
  }

  function InHand(s: System): nat { if s.hand.Empty? then 0 else 1 }

  /** The report in hand is the latest of `key`. */
  predicate InHandLatest(s: System, key: Key) {
    !s.hand.Empty? && s.hand.report.key == key && Latest(s.q, key) == s.hand.report.sequence
  }

  /** `pending` and `latest` agree on `k`, and no other key is remembered. */
  ghost predicate KeyOk(s: System, k: Key) {
    var q := s.q;
    && (k in q.pending ==> q.pending[k].key == k && k in q.latest && q.latest[k] == q.pending[k].sequence)
    && (k in q.latest ==> !q.stopped && k != NoKey && 1 <= q.latest[k] <= q.sequence)
    && (k in q.latest && k !in q.pending && !InHandLatest(s, k) <==> k in s.abandoned)
  }

  /** The attempt counter of a pending report is the number of times it was sent. */
  ghost predicate CountOk(s: System, k: Key) {
    k in s.q.pending ==>
      && Sends(s.trace, s.q.pending[k].sequence) == s.q.pending[k].attempts < MAX_ATTEMPTS
      && (s.hand.Empty? || s.q.pending[k].sequence != s.hand.report.sequence)
  }

  /** Two keys never share a sequence. */
  ghost predicate Apart(q: Queue, k: Key, l: Key) {
    k in q.latest && l in q.latest && k != l ==> q.latest[k] != q.latest[l]
  }

  ghost predicate HandOk(s: System) {
    !s.hand.Empty? ==>
      && 1 <= s.hand.report.sequence <= s.q.sequence
      && Sends(s.trace, s.hand.report.sequence) == s.hand.report.attempts <= MAX_ATTEMPTS
      && (s.hand.Holding? ==> s.hand.report.attempts < MAX_ATTEMPTS)
  }

  ghost predicate SendsOk(s: System, n: nat) {
    Sends(s.trace, n) <= if n > s.q.sequence then 0 else MAX_ATTEMPTS
  }

  /** Newest wins: nothing inserted for a key is newer than what `latest` says. */
  ghost predicate Newest(s: System) {
    var q, trace := s.q, s.trace;
    && (forall i :: 0 <= i < |trace| && trace[i].Inserted? ==> trace[i].sequence <= q.sequence)
    && (forall i :: 0 <= i < |trace| && trace[i].Inserted? && trace[i].key in q.latest ==> trace[i].sequence <= q.latest[trace[i].key])
    && InsertedInOrder(trace)
  }

  ghost predicate InsertedInOrder(trace: seq<Observation>) {
    forall i, j | 0 <= i < j < |trace| && trace[i].Inserted? && trace[j].Inserted? && trace[i].key == trace[j].key ::
      trace[i].sequence <= trace[j].sequence
  }

  ghost predicate Inv(s: System) {
    && (forall k :: KeyOk(s, k)) && (forall k :: CountOk(s, k)) && (forall k, l :: Apart(s.q, k, l))
    && HandOk(s) && (forall n :: SendsOk(s, n)) && Newest(s)
    && |s.q.pending| + InHand(s) <= MAX_PENDING + 1
  }

  /** `n` forgot some of what `s` held and nothing else changed. */
  ghost predicate Shrunk(s: System, n: System) {
    && n.trace == s.trace && n.q.sequence == s.q.sequence && (n.hand == s.hand || n.hand.Empty?)
    && (forall k :: k in n.q.pending ==> k in s.q.pending && n.q.pending[k] == s.q.pending[k])
    && (forall k :: k in n.q.latest ==> k in s.q.latest && n.q.latest[k] == s.q.latest[k])
  }

  lemma ShrunkKeeps(s: System, n: System)
    requires Inv(s) && Shrunk(s, n) && forall k :: KeyOk(n, k)
    ensures Inv(n) && |n.q.pending| <= |s.q.pending|
  {
    assert n.q.pending.Keys <= s.q.pending.Keys;
    SubsetIsSmaller(n.q.pending.Keys, s.q.pending.Keys);
    forall k ensures CountOk(n, k) { assert CountOk(s, k); }
    forall k, l ensures Apart(n.q, k, l) { assert Apart(s.q, k, l); }
    forall m ensures SendsOk(n, m) { assert SendsOk(s, m); }
  }

  lemma {:induction false} SubsetIsSmaller<T>(small: set<T>, large: set<T>)
    requires small <= large
    ensures |small| <= |large|
  {
    assert large == small + (large - small);
  }

  lemma WithoutKeeps(s: System, key: Key)
    requires Inv(s)
    ensures Inv(s.(q := Without(s.q, key), abandoned := s.abandoned - {key}))
  {
    var n := s.(q := Without(s.q, key), abandoned := s.abandoned - {key});
    forall k ensures KeyOk(n, k) { assert KeyOk(s, k); }
    ShrunkKeeps(s, n);
  }

  lemma DroppedKeeps(s: System)
    requires Inv(s) && !s.hand.Empty?
    ensures Inv(s.(hand := Empty, q := Dropped(s.q, s.hand.report)))
  {
    var n := s.(hand := Empty, q := Dropped(s.q, s.hand.report));
    forall k ensures KeyOk(n, k) { assert KeyOk(s, k); }
    ShrunkKeeps(s, n);
  }

  lemma AbandonKeeps(s: System)
    requires Inv(s) && s.hand.Holding?
    ensures Inv(Apply(s, Abandon, 0))
  {
    assert KeyOk(s, NoKey);
    assert Without(s.q, NoKey) == s.q;
    var n := Apply(s, Abandon, 0);
    forall k ensures KeyOk(n, k) { assert KeyOk(s, k) && CountOk(s, k); }
    ShrunkKeeps(s, n);
  }

  lemma StopKeeps(s: System)
    requires Inv(s) && !s.q.stopped
    ensures Inv(Apply(s, Stop, 0))
  {
    ShrunkKeeps(s, Apply(s, Stop, 0));
  }

  lemma EnqueueKeeps(s: System, e: Event, now: int)
    requires Inv(s) && e.Enqueue?
    ensures Inv(Apply(s, e, now))
  {
    if Apply(s, e, now) != s {
      var key := e.offered.key;
      var room := if e.victim.Some? then s.(q := Without(s.q, e.victim.value), abandoned := s.abandoned - {e.victim.value}) else s;
      if e.victim.Some? {
        WithoutKeeps(s, e.victim.value);
        assert KeyOk(s, e.victim.value);
        assert s.abandoned - {e.victim.value} == s.abandoned;
        assert room.q.pending.Keys == s.q.pending.Keys - {e.victim.value};
      }
      PutKeeps(room, e.offered, now);
    }
  }

  /** Enqueueing when there is room. */
  function Put(s: System, r: Report, now: int): System {
    s.(q := Accepted(s.q, r, None, now), abandoned := s.abandoned - {r.key})
  }

  lemma PutKeeps(s: System, r: Report, now: int)
    requires Inv(s) && !s.q.stopped && r.key != NoKey
    requires |s.q.pending| + InHand(s) <= MAX_PENDING + (if r.key in s.q.pending then 1 else 0)
    ensures Inv(Observe(Put(s, r, now), Inserted(r.key, s.q.sequence + 1)))
  {
    var n := Observe(Put(s, r, now), Inserted(r.key, s.q.sequence + 1));
    SendsAppended(s.trace, Inserted(r.key, s.q.sequence + 1));
    assert n.q.pending.Keys == s.q.pending.Keys + {r.key};
    forall k ensures CountOk(n, k) { assert CountOk(s, k) && KeyOk(s, k) && SendsOk(s, s.q.sequence + 1); }
    forall m ensures SendsOk(n, m) { assert SendsOk(s, m); }
    PutStaysCoherent(s, r, now);
    PutStaysNewest(s, r, now);
  }

  lemma PutStaysCoherent(s: System, r: Report, now: int)
    requires Inv(s) && !s.q.stopped && r.key != NoKey
    ensures var n := Observe(Put(s, r, now), Inserted(r.key, s.q.sequence + 1));
      (forall k :: KeyOk(n, k)) && forall k, l :: Apart(n.q, k, l)
  {
    var n := Observe(Put(s, r, now), Inserted(r.key, s.q.sequence + 1));
    forall k ensures KeyOk(n, k) { assert KeyOk(s, k); }
    forall k, l ensures Apart(n.q, k, l) { assert Apart(s.q, k, l) && KeyOk(s, k) && KeyOk(s, l); }
  }

  lemma PutStaysNewest(s: System, r: Report, now: int)
    requires Inv(s)
    ensures Newest(Observe(Put(s, r, now), Inserted(r.key, s.q.sequence + 1)))
  {
  }

  lemma TakeKeeps(s: System, e: Event, now: int)
    requires Inv(s) && e.Take?
    ensures Inv(Apply(s, e, now))
  {
    var n := Apply(s, e, now);
    if n != s {
      assert n.q.pending.Keys == s.q.pending.Keys - {e.taken};
      assert KeyOk(s, e.taken) && CountOk(s, e.taken);
      forall k ensures KeyOk(n, k) { assert KeyOk(s, k); }
      forall k ensures CountOk(n, k) { assert CountOk(s, k) && KeyOk(s, k) && Apart(s.q, k, e.taken); }
      forall k, l ensures Apart(n.q, k, l) { assert Apart(s.q, k, l); }
      forall m ensures SendsOk(n, m) { assert SendsOk(s, m); }
    }
  }

  lemma PublishKeeps(s: System, e: Event, now: int)
    requires Inv(s) && e.Publish?
    ensures Inv(Apply(s, e, now))
  {
    var n := Apply(s, e, now);
    if s.hand.Holding? {
      SendsAppended(s.trace, Sent(s.hand.report.sequence));
      forall k ensures KeyOk(n, k) { assert KeyOk(s, k); }
      forall k ensures CountOk(n, k) { assert CountOk(s, k); }
      forall m ensures SendsOk(n, m) { assert SendsOk(s, m); }
    }
  }

  lemma SettleKeeps(s: System, e: Event, now: int)
    requires Inv(s) && e.Settle?
    ensures Inv(Apply(s, e, now))
  {
    if s.hand.Published? {
      var r := s.hand.report;
      var n := Apply(s, e, now);
      if s.hand.outcome != Retryable || r.attempts >= MAX_ATTEMPTS {
        DroppedKeeps(s);
      } else if Requeues(s.q, r) {
        RequeueKeeps(s, now);
      } else {
        forall k ensures KeyOk(n, k) { assert KeyOk(s, k) && CountOk(s, k); }
        ShrunkKeeps(s, n);
      }
    }
  }

  lemma RequeueKeeps(s: System, now: int)
    requires Inv(s) && !s.hand.Empty? && s.hand.report.attempts < MAX_ATTEMPTS && Requeues(s.q, s.hand.report)
    ensures var r := s.hand.report;
      Inv(Observe(s.(hand := Empty, q := Requeued(s.q, r, now)), Inserted(r.key, r.sequence)))
  {
    var r := s.hand.report;
    var n := Observe(s.(hand := Empty, q := Requeued(s.q, r, now)), Inserted(r.key, r.sequence));
    SendsAppended(s.trace, Inserted(r.key, r.sequence));
    assert n.q.pending.Keys == s.q.pending.Keys + {r.key};
    forall k ensures KeyOk(n, k) { assert KeyOk(s, k); }
    forall k ensures CountOk(n, k) { assert CountOk(s, k) && KeyOk(s, k) && Apart(s.q, k, r.key); }
    forall k, l ensures Apart(n.q, k, l) { assert Apart(s.q, k, l); }
    forall m ensures SendsOk(n, m) { assert SendsOk(s, m); }
  }

  lemma RemovalKeeps(s: System, e: Event, now: int)
    requires Inv(s) && (e.Supersede? || e.Stop? || e.Discard? || e.Abandon?)
    ensures Inv(Apply(s, e, now))
  {
    match e
    case Supersede(key) => WithoutKeeps(s, key);
    case Stop => if !s.q.stopped { StopKeeps(s); }
    case Discard => if s.hand.Holding? { DroppedKeeps(s); }
    case Abandon => if s.hand.Holding? { AbandonKeeps(s); }
  }

  lemma {:induction false} InvHolds(run: seq<(Event, int)>)
    ensures Inv(Execute(BOOT, run))
  {
    if run != [] {
      var s, e, now := Execute(BOOT, run[..|run| - 1]), run[|run| - 1].0, run[|run| - 1].1;
      InvHolds(run[..|run| - 1]);
      match e
      case Enqueue(_, _) => EnqueueKeeps(s, e, now);
      case Take(_) => TakeKeeps(s, e, now);
      case Publish(_) => PublishKeeps(s, e, now);
      case Settle => SettleKeeps(s, e, now);
      case _ => RemovalKeeps(s, e, now);
    }
  }

  /**
   * MAIN: whatever producers, supersessions, stops and publish outcomes interleave with the one
   * consumer, a pending report is the latest of its key, a key that `latest` remembers without a
   * pending report or the report in hand is exactly one whose refresh failed and that nothing has
   * touched since, the queue and the hand hold at most 257 reports, no sequence is sent more than
   * four times, and no older sequence is put back for a key after a newer one was enqueued.
   */
  lemma NewestWinsAndBounded(run: seq<(Event, int)>)
    ensures var s := Execute(BOOT, run);
      && (forall k :: k in s.q.pending ==> s.q.pending[k].key == k && k in s.q.latest && s.q.latest[k] == s.q.pending[k].sequence)
      && (forall k :: k in s.q.latest && k !in s.q.pending && !InHandLatest(s, k) <==> k in s.abandoned)
      && |s.q.pending| + InHand(s) <= 257
      && (forall n :: Sends(s.trace, n) <= 4)
      && InsertedInOrder(s.trace)
  {
    InvHolds(run);
    var s := Execute(BOOT, run);
    forall k ensures k in s.q.pending ==> s.q.pending[k].key == k && k in s.q.latest && s.q.latest[k] == s.q.pending[k].sequence {
      assert KeyOk(s, k);
    }
    forall k ensures k in s.q.latest && k !in s.q.pending && !InHandLatest(s, k) <==> k in s.abandoned {
      assert KeyOk(s, k);
    }
    forall n ensures Sends(s.trace, n) <= 4 {
      assert SendsOk(s, n);
    }
  }

  /**
   * MAIN: one step takes a report that is neither superseded, stopped nor taken out of the queue
   * only when it is the longest waiting chat report of a full queue, or a newer report of its key
   * replaces it.
   */
  lemma LossMeansOldestChat(s: System, e: Event, now: int, key: Key)
    requires Inv(s) && key in s.q.pending && (key !in Apply(s, e, now).q.pending || Apply(s, e, now).q.pending[key] != s.q.pending[key])
    ensures match e
      case Enqueue(r, victim) =>
        || (r.key == key && Latest(Apply(s, e, now).q, key) > Latest(s.q, key))
        || (victim == Some(key) && OldestChat(s.q, key) && |s.q.pending| >= 256 && r.key !in s.q.pending)
      case Supersede(k) => k == key
      case Stop => true
      case Take(k) => k == key
      case Discard => false
      case Abandon => false
      case Publish(_) => false
      case Settle => false
  {
    assert KeyOk(s, key) && CountOk(s, key);
  }

  /**
   * MAIN: so `latest` has no key outside the pending reports and the report in hand exactly when no
   * key is abandoned.
   */
  lemma NothingElseRememberedExactly(run: seq<(Event, int)>)
    ensures var s := Execute(BOOT, run);
      (forall k :: k in s.q.latest ==> k in s.q.pending || InHandLatest(s, k)) <==> s.abandoned == {}
  {
    InvHolds(run);
    var s := Execute(BOOT, run);
    assert forall k :: KeyOk(s, k);
    if s.abandoned != {} {
      var k :| k in s.abandoned;
      assert KeyOk(s, k);
    }
    forall k | k in s.q.latest && s.abandoned == {} ensures k in s.q.pending || InHandLatest(s, k) { assert KeyOk(s, k); }
  }

  const OFFERED := Report(ParticipantsKey("a"), ParticipantsEvent, 0, 0, 0, 0)

  /** A report is enqueued and taken, and then its refresh finds the queue replaced. */
  const REPLACED: seq<(Event, int)> := [(Enqueue(OFFERED, None), 0)] + [(Take(OFFERED.key), RETRY_BASE)] + [(Abandon, RETRY_BASE)]

  lemma AfterEvent(run: seq<(Event, int)>, e: Event, now: int)
    ensures Execute(BOOT, run + [(e, now)]) == Apply(Execute(BOOT, run), e, now)
  {
    assert (run + [(e, now)])[..|run|] == run;
  }

  lemma FirstTaken()
    ensures var s := Execute(BOOT, [(Enqueue(OFFERED, None), 0)] + [(Take(OFFERED.key), RETRY_BASE)]);
      && s.q.pending == map[] && s.q.latest == map[OFFERED.key := 1] && !s.q.stopped
      && s.hand.Holding? && s.hand.report.key == OFFERED.key && s.hand.report.sequence == 1
  {
    var run := [(Enqueue(OFFERED, None), 0)];
    AfterEvent([], Enqueue(OFFERED, None), 0);
    assert [] + run == run;
    var s1 := Execute(BOOT, run);
    assert s1.q.pending.Keys == {OFFERED.key} && s1.q.latest == map[OFFERED.key := 1];
    AfterEvent(run, Take(OFFERED.key), RETRY_BASE);
    assert NextDue(s1.q, OFFERED.key, RETRY_BASE);
  }

  /** MAIN: a failed refresh does leave a key behind: the report is gone, and `latest` still remembers it. */
  lemma FailedRefreshLeavesTheKey()
    ensures var s := Execute(BOOT, REPLACED);
      OFFERED.key in s.q.latest && s.q.pending == map[] && s.hand.Empty? && s.abandoned == {OFFERED.key}
  {
    FirstTaken();
    var run := [(Enqueue(OFFERED, None), 0)] + [(Take(OFFERED.key), RETRY_BASE)];
    AfterEvent(run, Abandon, RETRY_BASE);
    NewestWinsAndBounded(REPLACED);
    NothingElseRememberedExactly(REPLACED);
    var s := Execute(BOOT, REPLACED);
    assert forall k :: k in s.abandoned ==> k in s.q.latest;
  }
}
