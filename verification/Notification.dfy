/**
 * internal/jobs/notification.go: live notifications that are sent once per event, under concurrent calls.
 *
 * The hashes of the source are taken to be injective, so a key is the event identifier and a payload
 * is what is hashed. A receipt is a heap object in the source; here it is a place in `receipts`.
 */
module Notification {
  import opened JobTypes

  const TTL: int := 86_400_000_000_000
  const CAPACITY: nat := 2048

  datatype Payload = Payload(stream: Id, channel: Id, url: string)

  datatype Outcome = Pending | Sent(message: Id, at: int) | Failed(error: string)

  datatype Receipt = Receipt(payload: Payload, outcome: Outcome)

  datatype Board = Board(current: VoiceJob, table: map<Id, nat>, receipts: seq<Receipt>)

  datatype Request = Request(event: Id, payload: Payload)

  /** What a call does after its first critical section. */
  datatype Begun = Refused(error: string) | Waits(receipt: nat) | Sends(receipt: nat)

  const NO_STREAM := "notification stream_id is required"
  const NO_EVENT := "notification event_id is required"
  const NO_URL := "notification watch_url is required"
  const NO_JOB_ACTIVE := "no active live job"
  const STREAM_MISMATCH := "notification stream_id does not match active live job"
  const CHANNEL_MISSING := "active live job text channel is required"
  const CHANNEL_MISMATCH := "runtime text channel does not match active live job"
  const CONFLICT := "notification event_id was already used for another payload"
  const FULL := "notification receipt capacity reached"
  const UNAVAILABLE := "unavailable"

  /** The argument checks and validateLiveNotificationStateLocked, in their order. */
  function Objection(current: VoiceJob, r: Request): Option<string> {
    if r.payload.stream == "" then Some(NO_STREAM)
    else if r.event == "" then Some(NO_EVENT)
    else if r.payload.url == "" then Some(NO_URL)
    else if current.streamID == "" then Some(NO_JOB_ACTIVE)
    else if current.streamID != r.payload.stream then Some(STREAM_MISMATCH)
    else if current.textChannelID == "" || r.payload.channel == "" then Some(CHANNEL_MISSING)
    else if current.textChannelID != r.payload.channel then Some(CHANNEL_MISMATCH)
    else None
  }

  /** Every entry of the table points at a receipt. */
  ghost predicate Placed(table: map<Id, nat>, receipts: seq<Receipt>) {
    forall k :: k in table ==> table[k] < |receipts|
  }

  predicate Done(table: map<Id, nat>, receipts: seq<Receipt>, k: Id) {
    k in table && table[k] < |receipts| && receipts[table[k]].outcome.Sent?
  }

  predicate Expired(table: map<Id, nat>, receipts: seq<Receipt>, now: int, k: Id) {
    Done(table, receipts, k) && now - receipts[table[k]].outcome.at >= TTL
  }

  function Unexpired(table: map<Id, nat>, receipts: seq<Receipt>, now: int): map<Id, nat> {
    map k | k in table && !Expired(table, receipts, now, k) :: table[k]
  }

  ghost predicate NoLater(receipts: seq<Receipt>, gone: nat, kept: nat) {
    gone < |receipts| && kept < |receipts| && receipts[gone].outcome.Sent? && receipts[kept].outcome.Sent?
    && receipts[gone].outcome.at <= receipts[kept].outcome.at
  }

  /** `kept` is `table` without some of its oldest sent receipts, and no more of them than capacity demands. */
  ghost predicate Evicted(table: map<Id, nat>, receipts: seq<Receipt>, kept: map<Id, nat>) {
    && (forall k :: k in kept ==> k in table && kept[k] == table[k])
    && (forall k, l :: k in table && k !in kept && l in kept && Done(table, receipts, l) ==> NoLater(receipts, table[k], table[l]))
    && (forall k :: k in table && k !in kept ==> Done(table, receipts, k))
    && (kept == table || |kept| >= CAPACITY - 1)
  }

  /** What pruneNotificationReceiptsLocked may leave; ties between equally old receipts are open. */
  ghost predicate PrunedTo(table: map<Id, nat>, receipts: seq<Receipt>, now: int, kept: map<Id, nat>) {
    && Evicted(Unexpired(table, receipts, now), receipts, kept)
    && (|kept| < CAPACITY || forall k :: k in kept ==> !Done(kept, receipts, k))
  }

  /** How long ago the notification was sent; one that is not sent yet has no age. */
  function Age(r: Receipt, now: int): int { if r.outcome.Sent? then now - r.outcome.at else -1 }

  /** What every pruning of this table does, in terms of ages alone. */
  lemma PruningMeans(table: map<Id, nat>, receipts: seq<Receipt>, now: int)
    requires Placed(table, receipts)
    ensures forall kept :: PrunedTo(table, receipts, now, kept) ==> PrunedByAge(table, receipts, now, kept)
  {
    forall kept | PrunedTo(table, receipts, now, kept) ensures PrunedByAge(table, receipts, now, kept) {
      OnePruning(table, receipts, now, kept);
    }
  }

  ghost predicate PrunedByAge(table: map<Id, nat>, receipts: seq<Receipt>, now: int, kept: map<Id, nat>)
    requires Placed(table, receipts)
  {
    && (forall k :: k in kept ==> k in table && kept[k] == table[k])
    && (forall k :: k in table && Age(receipts[table[k]], now) >= 86_400_000_000_000 ==> k !in kept)
    && (forall k :: k in table && k !in kept && Age(receipts[table[k]], now) < 86_400_000_000_000
          ==> receipts[table[k]].outcome.Sent? && |table| >= 2048)
    && (forall k, l :: k in table && k !in kept && Age(receipts[table[k]], now) < 86_400_000_000_000
          && l in kept && receipts[kept[l]].outcome.Sent?
          ==> receipts[table[k]].outcome.at <= receipts[kept[l]].outcome.at)
  }

  lemma OnePruning(table: map<Id, nat>, receipts: seq<Receipt>, now: int, kept: map<Id, nat>)
    requires Placed(table, receipts) && PrunedTo(table, receipts, now, kept)
    ensures PrunedByAge(table, receipts, now, kept)
  {
    var young := Unexpired(table, receipts, now);
    MapSizes(young, table);
    forall k | k in table && k !in kept && Age(receipts[table[k]], now) < 86_400_000_000_000
      ensures receipts[table[k]].outcome.Sent? && |table| >= 2048 {
      assert k in young;
      assert Done(young, receipts, k);
      FewerKept(young, kept, k);
    }
    forall k, l | k in table && k !in kept && Age(receipts[table[k]], now) < 86_400_000_000_000 && l in kept && receipts[kept[l]].outcome.Sent?
      ensures receipts[table[k]].outcome.at <= receipts[kept[l]].outcome.at {
      assert k in young && Done(young, receipts, l);
      assert NoLater(receipts, young[k], young[l]);
    }
  }

  lemma FewerKept(table: map<Id, nat>, kept: map<Id, nat>, k: Id)
    requires kept.Keys <= table.Keys && k in table && k !in kept
    ensures |kept| < |table|
  {
    assert kept.Keys <= table.Keys - {k};
    var rest := table - {k};
    assert rest.Keys == table.Keys - {k};
    MapSizes(kept, rest);
    assert table.Keys == rest.Keys + {k};
    assert |table.Keys| == |rest.Keys| + 1;
  }

  function BegunWith(b: Board, r: Request, kept: map<Id, nat>): Begun {
    if Objection(b.current, r).Some? then Refused(Objection(b.current, r).value)
    else if r.event in kept then
      if kept[r.event] < |b.receipts| && b.receipts[kept[r.event]].payload == r.payload then Waits(kept[r.event]) else Refused(CONFLICT)
    else if |kept| >= CAPACITY then Refused(FULL)
    else Sends(|b.receipts|)
  }

  function AfterBegin(b: Board, r: Request, kept: map<Id, nat>): Board {
    if Objection(b.current, r).Some? then b
    else if BegunWith(b, r, kept).Sends? then
      b.(table := kept[r.event := |b.receipts|], receipts := b.receipts + [Receipt(r.payload, Pending)])
    else b.(table := kept)
  }

  /** `answer` is what the voice client returned; an empty message identifier is a failure too. */
  function OutcomeOf(answer: Outcome, now: int): Outcome {
    match answer
    case Pending => Failed(UNAVAILABLE)
    case Failed(e) => Failed(e)
    case Sent(message, _) => if message == "" then Failed(UNAVAILABLE) else Sent(message, now)
  }

  function Completed(b: Board, event: Id, receipt: nat, outcome: Outcome): Board
    requires receipt < |b.receipts|
  {
    b.(receipts := b.receipts[receipt := b.receipts[receipt].(outcome := outcome)],
       table := if outcome.Failed? then b.table - {event} else b.table)
  }

  class NotificationBoard {
    var current: VoiceJob
    var table: map<Id, nat>
    var receipts: seq<Receipt>

    ghost function Abstract(): Board
      reads this
    {
      Board(current, table, receipts)
    }

    constructor ()
      ensures Abstract() == Board(NO_JOB, map[], [])
    {
      current, table, receipts := NO_JOB, map[], [];
    }

    /** The first loop of the pruning: what is older than the retention time. */
    method DropExpired(now: int)
      requires Placed(table, receipts)
      modifies this`table
      ensures table == Unexpired(old(table), receipts, now)
    {
      var rest := table.Keys;
      while rest != {}
        invariant rest <= table.Keys <= old(table).Keys
        invariant forall k :: k in table ==> table[k] == old(table)[k]
        invariant forall k :: k in old(table) && k !in rest ==> (k in table <==> !Expired(old(table), receipts, now, k))
        decreases |rest|
      {
        var key :| key in rest;
        rest := rest - {key};
        var outcome := receipts[table[key]].outcome;
        if outcome.Sent? && now - outcome.at >= TTL { table := table - {key}; }
      }
    }

    /** One pass of the second loop: the oldest sent receipt, if there is one. */
    method OldestSent() returns (oldest: Option<Id>)
      requires Placed(table, receipts)
      ensures oldest.None? ==> forall k :: k in table ==> !Done(table, receipts, k)
      ensures oldest.Some? ==> Done(table, receipts, oldest.value)
      ensures oldest.Some? ==> forall k :: Done(table, receipts, k) ==> NoLater(receipts, table[oldest.value], table[k])
    {
      oldest := None;
      var rest := table.Keys;
      while rest != {}
        invariant rest <= table.Keys
        invariant oldest.None? ==> forall k :: k in table && k !in rest ==> !Done(table, receipts, k)
        invariant oldest.Some? ==> Done(table, receipts, oldest.value)
        invariant oldest.Some? ==> forall k :: k !in rest && Done(table, receipts, k) ==> NoLater(receipts, table[oldest.value], table[k])
        decreases |rest|
      {
        var key :| key in rest;
        rest := rest - {key};
        var outcome := receipts[table[key]].outcome;
        if !outcome.Sent? { continue; }
        if oldest.None? || outcome.at < receipts[table[oldest.value]].outcome.at { oldest := Some(key); }
      }
    }

    /**
     * MAIN: the pruning ends, below capacity or with nothing left that is not in flight. A receipt sent
     * 24 hours ago or more is gone; a younger one goes only when the table was full, and then only
     * if no sent receipt that stays is older.
     */
    method Prune(now: int)
      requires Placed(table, receipts)
      modifies this`table
      ensures PrunedTo(old(table), receipts, now, table)
      ensures PrunedByAge(old(table), receipts, now, table)
    {
      PruningMeans(table, receipts, now);
      DropExpired(now);
      ghost var unexpired := table;
      while |table| >= CAPACITY
        invariant Placed(table, receipts) && Evicted(unexpired, receipts, table)
        decreases |table|
      {
        var oldest := OldestSent();
        if oldest.None? { return; }
        EvictionGoesOn(unexpired, receipts, table, oldest.value);
        table := table - {oldest.value};
      }
    }

    /** NotifyYouTubeLive up to the first unlock. */
    method Begin(r: Request, now: int) returns (begun: Begun, ghost kept: map<Id, nat>)
      requires Placed(table, receipts)
      modifies this`table, this`receipts
      ensures Objection(current, r).None? ==> PrunedTo(old(table), old(receipts), now, kept)
      ensures begun == BegunWith(old(Abstract()), r, kept)
      ensures Abstract() == AfterBegin(old(Abstract()), r, kept) && Placed(table, receipts)
    {
      kept := map[];
      if Objection(current, r).Some? { return Refused(Objection(current, r).value), kept; }
      Prune(now);
      kept := table;
      if r.event in table {
        var receipt := receipts[table[r.event]];
        if receipt.payload != r.payload { return Refused(CONFLICT), kept; }
        return Waits(table[r.event]), kept;
      }
      if |table| >= CAPACITY { return Refused(FULL), kept; }
      begun := Sends(|receipts|);
      table := table[r.event := |receipts|];
      receipts := receipts + [Receipt(r.payload, Pending)];
    }

    /** The second critical section of the call that sends. */
    method Complete(event: Id, receipt: nat, answer: Outcome, now: int)
      requires receipt < |receipts|
      modifies this`table, this`receipts
      ensures Abstract() == Completed(old(Abstract()), event, receipt, OutcomeOf(answer, now))
    {
      var outcome := OutcomeOf(answer, now);
      receipts := receipts[receipt := receipts[receipt].(outcome := outcome)];
      if outcome.Failed? { table := table - {event}; }
    }
  }

  lemma EvictionGoesOn(table: map<Id, nat>, receipts: seq<Receipt>, kept: map<Id, nat>, oldest: Id)
    requires Evicted(table, receipts, kept) && Placed(kept, receipts) && Done(kept, receipts, oldest) && |kept| >= CAPACITY
    requires forall k :: Done(kept, receipts, k) ==> NoLater(receipts, kept[oldest], kept[k])
    ensures Evicted(table, receipts, kept - {oldest}) && |kept - {oldest}| == |kept| - 1
  {
    var less := kept - {oldest};
    assert less.Keys == kept.Keys - {oldest};
    forall k, l | k in table && k !in less && l in less && Done(table, receipts, l) ensures NoLater(receipts, table[k], table[l]) {
      assert Done(kept, receipts, l);
    }
  }

  // ----- concurrent calls -----

  datatype Observation = Started(event: Id, receipt: nat, begun: int) | Ended(event: Id, receipt: nat, outcome: Outcome)

  predicate Ends(o: Observation, event: Id, receipt: nat) { o.Ended? && o.event == event && o.receipt == receipt }

  /** `senders` are the calls between their two critical sections, by receipt. */
  datatype System = System(board: Board, senders: map<nat, Id>, trace: seq<Observation>)

  const BOOT := System(Board(NO_JOB, map[], []), map[], [])

  datatype Event =
    | SetJob(job: VoiceJob)
    | Begin(request: Request, now: int, kept: map<Id, nat>)
    | Complete(receipt: nat, answer: Outcome, at: int)

  /** A Begin event names what its pruning kept; one that names an impossible table does nothing. */
  ghost function Apply(s: System, e: Event): System {
    match e
    case SetJob(job) => s.(board := s.board.(current := job))
    case Begin(r, now, kept) =>
      if !PrunedTo(s.board.table, s.board.receipts, now, kept) then s
      else
        var begun, n := BegunWith(s.board, r, kept), s.(board := AfterBegin(s.board, r, kept));
        if begun.Sends? then n.(senders := s.senders[begun.receipt := r.event], trace := s.trace + [Started(r.event, begun.receipt, now)]) else n
    case Complete(receipt, answer, at) =>
      if receipt !in s.senders || receipt >= |s.board.receipts| then s
      else
        s.(board := Completed(s.board, s.senders[receipt], receipt, OutcomeOf(answer, at)),
           senders := s.senders - {receipt}, trace := s.trace + [Ended(s.senders[receipt], receipt, OutcomeOf(answer, at))])
  }

  ghost function Execute(s: System, run: seq<Event>): System {
    if run == [] then s else Apply(Execute(s, run[..|run| - 1]), run[|run| - 1])
  }

  /** A sending call still owns the entry of its key; every unfinished receipt of the table has a sender. */
  ghost predicate SenderOk(s: System, receipt: nat) {
    receipt in s.senders ==>
      && receipt < |s.board.receipts| && s.board.receipts[receipt].outcome.Pending?
      && s.senders[receipt] in s.board.table && s.board.table[s.senders[receipt]] == receipt
  }

  ghost predicate EntryOk(s: System, key: Id) {
    key in s.board.table ==>
      && s.board.table[key] < |s.board.receipts|
      && !s.board.receipts[s.board.table[key]].outcome.Failed?
      && (s.board.receipts[s.board.table[key]].outcome.Pending? ==> s.board.table[key] in s.senders && s.senders[s.board.table[key]] == key)
  }

  ghost predicate EndedAfter(trace: seq<Observation>, i: nat, event: Id, receipt: nat) {
    exists k :: i < k < |trace| && Ends(trace[k], event, receipt)
  }

  /** A send that has started and not ended is one of the senders. */
  ghost predicate StartOk(s: System, i: nat) {
    i < |s.trace| && s.trace[i].Started? ==>
      || EndedAfter(s.trace, i, s.trace[i].event, s.trace[i].receipt)
      || (s.trace[i].receipt in s.senders && s.senders[s.trace[i].receipt] == s.trace[i].event)
  }

  ghost predicate Apart(trace: seq<Observation>, i: nat, j: nat) {
    i < j < |trace| && trace[i].Started? && trace[j].Started? && trace[i].event == trace[j].event
    ==> exists k :: i < k < j && Ends(trace[k], trace[i].event, trace[i].receipt)
  }

  ghost predicate Inv(s: System) {
    && (forall r: nat :: SenderOk(s, r)) && (forall k :: EntryOk(s, k)) && |s.board.table| <= CAPACITY
    && (forall i: nat :: StartOk(s, i)) && (forall i: nat, j: nat :: Apart(s.trace, i, j))
  }

  lemma KeptIsPart(table: map<Id, nat>, receipts: seq<Receipt>, now: int, kept: map<Id, nat>, k: Id)
    requires PrunedTo(table, receipts, now, kept)
    ensures k in kept ==> k in table && kept[k] == table[k]
    ensures k in table && k !in kept ==> Done(table, receipts, k)
  {
    if k in table && k !in kept && k in Unexpired(table, receipts, now) {
      assert Done(Unexpired(table, receipts, now), receipts, k);
    }
  }

  lemma {:induction false} MapSizes(small: map<Id, nat>, large: map<Id, nat>)
    requires small.Keys <= large.Keys
    ensures |small| <= |large|
  {
    assert large.Keys == small.Keys + (large.Keys - small.Keys);
    assert |small| == |small.Keys| && |large| == |large.Keys|;
  }

  lemma ObservationKeeps(s: System, n: System, o: Observation)
    requires Inv(s) && n.trace == s.trace + [o]
    requires o.Started? ==> n.senders == s.senders[o.receipt := o.event] && o.receipt !in s.senders && (forall r :: r in s.senders ==> s.senders[r] != o.event)
    requires o.Ended? ==> o.receipt in s.senders && s.senders[o.receipt] == o.event && n.senders == s.senders - {o.receipt}
    ensures (forall i: nat :: StartOk(n, i)) && forall i: nat, j: nat :: Apart(n.trace, i, j)
  {
    forall i: nat ensures StartOk(n, i) {
      assert StartOk(s, i);
      if i < |s.trace| && s.trace[i].Started? {
        var event, receipt := s.trace[i].event, s.trace[i].receipt;
        if EndedAfter(s.trace, i, event, receipt) {
          var k :| i < k < |s.trace| && Ends(s.trace[k], event, receipt);
          assert n.trace[k] == s.trace[k];
        } else if o.Ended? && o.receipt == receipt {
          assert Ends(n.trace[|s.trace|], event, receipt);
        }
      }
    }
    forall i: nat, j: nat ensures Apart(n.trace, i, j) {
      assert Apart(s.trace, i, j) && StartOk(s, i);
      if i < j <= |s.trace| && n.trace[i].Started? && n.trace[j].Started? && n.trace[i].event == n.trace[j].event {
        var k :| i < k < j && Ends(s.trace[k], n.trace[i].event, n.trace[i].receipt);
        assert n.trace[k] == s.trace[k];
      }
    }
  }

  lemma BeginKeeps(s: System, e: Event)
    requires Inv(s) && e.Begin?
    ensures Inv(Apply(s, e))
  {
    var n, r, kept := Apply(s, e), e.request, e.kept;
    if n != s {
      forall k ensures k in kept ==> k in s.board.table { KeptIsPart(s.board.table, s.board.receipts, e.now, kept, k); }
      MapSizes(kept, s.board.table);
      forall k ensures EntryOk(n, k) {
        KeptIsPart(s.board.table, s.board.receipts, e.now, kept, k);
        assert EntryOk(s, k);
      }
      forall x: nat ensures SenderOk(n, x) {
        assert SenderOk(s, x);
        if x in s.senders { KeptIsPart(s.board.table, s.board.receipts, e.now, kept, s.senders[x]); }
      }
      if BegunWith(s.board, r, kept).Sends? {
        var o := Started(r.event, |s.board.receipts|, e.now);
        assert SenderOk(s, |s.board.receipts|);
        forall x | x in s.senders ensures s.senders[x] != r.event {
          assert SenderOk(s, x);
          KeptIsPart(s.board.table, s.board.receipts, e.now, kept, s.senders[x]);
        }
        ObservationKeeps(s, n, o);
      } else {
        forall i: nat ensures StartOk(n, i) { assert StartOk(s, i); }
      }
    }
  }

  lemma CompleteKeeps(s: System, e: Event)
    requires Inv(s) && e.Complete?
    ensures Inv(Apply(s, e))
  {
    var n, x := Apply(s, e), e.receipt;
    if n != s {
      assert SenderOk(s, x);
      MapSizes(n.board.table, s.board.table);
      forall k ensures EntryOk(n, k) { assert EntryOk(s, k); }
      forall y: nat ensures SenderOk(n, y) { assert SenderOk(s, y); }
      ObservationKeeps(s, n, Ended(s.senders[x], x, OutcomeOf(e.answer, e.at)));
    }
  }

  lemma {:induction false} InvHolds(run: seq<Event>)
    ensures Inv(Execute(BOOT, run))
  {
    if run != [] {
      InvHolds(run[..|run| - 1]);
      var s, e := Execute(BOOT, run[..|run| - 1]), run[|run| - 1];
      match e
      case SetJob(job) => JobKeeps(s, job);
      case Begin(_, _, _) => BeginKeeps(s, e);
      case Complete(_, _, _) => CompleteKeeps(s, e);
    }
  }

  lemma JobKeeps(s: System, job: VoiceJob)
    requires Inv(s)
    ensures Inv(Apply(s, SetJob(job)))
  {
    var n := Apply(s, SetJob(job));
    forall k ensures EntryOk(n, k) { assert EntryOk(s, k); }
    forall y: nat ensures SenderOk(n, y) { assert SenderOk(s, y); }
    forall i: nat ensures StartOk(n, i) { assert StartOk(s, i); }
  }

  /** MAIN: over every run no two sends of one event key overlap: the first has ended before the second starts. */
  lemma OneSendInFlight(run: seq<Event>, i: nat, j: nat)
    requires var trace := Execute(BOOT, run).trace;
      i < j < |trace| && trace[i].Started? && trace[j].Started? && trace[i].event == trace[j].event
    ensures var trace := Execute(BOOT, run).trace;
      exists k :: i < k < j && Ends(trace[k], trace[i].event, trace[i].receipt)
  {
    InvHolds(run);
    assert Apart(Execute(BOOT, run).trace, i, j);
  }

  /**
   * MAIN: over every run the table holds at most 2048 receipts, and a call that is sending finds its
   * own unfinished receipt under its key, so deleting by key deletes nobody else's receipt.
   */
  lemma SendersOwnTheirEntries(run: seq<Event>, receipt: nat)
    ensures var s := Execute(BOOT, run);
      && |s.board.table| <= 2048
      && (receipt in s.senders ==>
            && s.senders[receipt] in s.board.table && s.board.table[s.senders[receipt]] == receipt
            && receipt < |s.board.receipts| && s.board.receipts[receipt].outcome.Pending?)
  {
    InvHolds(run);
    assert SenderOk(Execute(BOOT, run), receipt);
  }

  /**
   * MAIN: a call that finds its event retained never sends; it waits for that very receipt, which
   * carries its own payload, or it is told that the event was used for another payload.
   */
  lemma RetainedIsNeverResent(run: seq<Event>, r: Request, now: int, kept: map<Id, nat>)
    requires var s := Execute(BOOT, run);
      PrunedTo(s.board.table, s.board.receipts, now, kept) && r.event in kept && Objection(s.board.current, r).None?
    ensures var s := Execute(BOOT, run);
      && r.event in s.board.table && kept[r.event] == s.board.table[r.event] < |s.board.receipts|
      && BegunWith(s.board, r, kept) == (if s.board.receipts[kept[r.event]].payload == r.payload then Waits(kept[r.event]) else Refused(CONFLICT))
      && Apply(s, Begin(r, now, kept)).trace == s.trace
  {
    InvHolds(run);
    var s := Execute(BOOT, run);
    KeptIsPart(s.board.table, s.board.receipts, now, kept, r.event);
    assert EntryOk(s, r.event);
  }

  /** MAIN: a finished receipt keeps its payload and its result for ever, so every waiter returns the original one. */
  lemma {:induction false} ResultsAreFinal(run: seq<Event>, more: seq<Event>, receipt: nat)
    requires receipt < |Execute(BOOT, run).board.receipts|
    ensures var before, after := Execute(BOOT, run).board.receipts, Execute(BOOT, run + more).board.receipts;
      && receipt < |after| && after[receipt].payload == before[receipt].payload
      && (!before[receipt].outcome.Pending? ==> after[receipt] == before[receipt])
  {
    if more == [] {
      assert run + more == run;
    } else {
      var init, e := run + more[..|more| - 1], more[|more| - 1];
      ResultsAreFinal(run, more[..|more| - 1], receipt);
      assert (run + more)[..|run + more| - 1] == init;
      InvHolds(init);
      if e.Complete? { assert SenderOk(Execute(BOOT, init), e.receipt); }
    }
  }

  // ----- 24 hours -----

  /**
   * MAIN: a call sends exactly when it names its stream, its event and its address, the active job is of
   * that stream and channel, its event is not retained and fewer than 2048 receipts are. Nothing else
   * in the table changes but what the pruning has removed.
   */
  lemma SendsExactly(s: System, e: Event)
    requires e.Begin? && PrunedTo(s.board.table, s.board.receipts, e.now, e.kept) && Placed(s.board.table, s.board.receipts)
    ensures var n, p, job := Apply(s, e), e.request.payload, s.board.current;
      if p.stream != "" && e.request.event != "" && p.url != "" && job.streamID == p.stream && job.textChannelID == p.channel != ""
        && e.request.event !in e.kept && |e.kept| < 2048
      then
        && n.trace == s.trace + [Started(e.request.event, |s.board.receipts|, e.now)]
        && n.board.table == e.kept[e.request.event := |s.board.receipts|]
        && n.board.receipts == s.board.receipts + [Receipt(p, Pending)]
      else n.trace == s.trace && n.board.receipts == s.board.receipts && (n.board.table == s.board.table || n.board.table == e.kept)
  {
  }

  /**
   * MAIN: a send that the client answered with a message identifier is retained under its event with that
   * message and time; every other answer frees the event for another try.
   */
  lemma CompletionMeans(run: seq<Event>, receipt: nat, answer: Outcome, at: int)
    requires receipt in Execute(BOOT, run).senders
    ensures var s := Execute(BOOT, run); var event, n := s.senders[receipt], Apply(s, Complete(receipt, answer, at)).board;
      && receipt < |s.board.receipts| == |n.receipts|
      && n.receipts == s.board.receipts[receipt := n.receipts[receipt]] && n.receipts[receipt].payload == s.board.receipts[receipt].payload
      && (if answer.Sent? && answer.message != ""
          then n.table == s.board.table && event in n.table && n.table[event] == receipt && n.receipts[receipt].outcome == Sent(answer.message, at)
          else n.table == s.board.table - {event} && n.receipts[receipt].outcome.Failed?)
  {
    InvHolds(run);
    assert SenderOk(Execute(BOOT, run), receipt);
  }

  function TimeOf(e: Event, before: int): int {
    match e
    case SetJob(_) => before
    case Begin(_, now, _) => now
    case Complete(_, _, at) => at
  }

  /** The time of the last event of the run that has one. */
  function Clock(run: seq<Event>, start: int): int {
    if run == [] then start else TimeOf(run[|run| - 1], Clock(run[..|run| - 1], start))
  }

  ghost predicate NeverBack(run: seq<Event>, start: int) {
    forall k :: 0 <= k < |run| ==> Clock(run[..k], start) <= Clock(run[..k + 1], start)
  }

  /** The table is never full. */
  ghost predicate NeverFull(run: seq<Event>) {
    forall k :: 0 <= k <= |run| ==> |Execute(BOOT, run[..k]).board.table| < 2048
  }

  /** What was sent is retained as it was, or 24 hours have passed since. */
  ghost predicate Remembered(s: System, clock: int, o: Observation) {
    o.Ended? && o.outcome.Sent? ==>
      || clock - o.outcome.at >= 86_400_000_000_000
      || (o.event in s.board.table && s.board.table[o.event] == o.receipt && o.receipt < |s.board.receipts|
          && s.board.receipts[o.receipt].outcome == o.outcome)
  }

  lemma {:induction false} FrontIsSo(run: seq<Event>, start: int)
    requires run != [] && NeverBack(run, start) && NeverFull(run)
    ensures NeverBack(run[..|run| - 1], start) && NeverFull(run[..|run| - 1])
    ensures Clock(run[..|run| - 1], start) <= Clock(run, start) && |Execute(BOOT, run[..|run| - 1]).board.table| < 2048
  {
    var init := run[..|run| - 1];
    forall k | 0 <= k < |init| ensures Clock(init[..k], start) <= Clock(init[..k + 1], start) {
      assert init[..k] == run[..k] && init[..k + 1] == run[..k + 1];
    }
    forall k | 0 <= k <= |init| ensures |Execute(BOOT, init[..k]).board.table| < 2048 { assert init[..k] == run[..k]; }
    assert run[..|run|] == run && run[..|init| + 1] == run;
  }

  lemma BeginRemembers(s: System, e: Event, clock: int, o: Observation)
    requires Inv(s) && e.Begin? && |s.board.table| < 2048 && clock <= e.now && Remembered(s, clock, o)
    ensures Remembered(Apply(s, e), e.now, o)
  {
    if o.Ended? && o.outcome.Sent? && Apply(s, e) != s && e.now - o.outcome.at < 86_400_000_000_000 {
      AllPlaced(s);
      OnePruning(s.board.table, s.board.receipts, e.now, e.kept);
    }
  }

  lemma AllPlaced(s: System)
    requires Inv(s)
    ensures Placed(s.board.table, s.board.receipts)
  {
    forall k | k in s.board.table ensures s.board.table[k] < |s.board.receipts| { assert EntryOk(s, k); }
  }

  lemma CompleteRemembers(s: System, e: Event, clock: int, o: Observation)
    requires Inv(s) && e.Complete? && clock <= e.at && Remembered(s, clock, o)
    ensures Remembered(Apply(s, e), e.at, o)
  {
    assert SenderOk(s, e.receipt);
  }

  lemma EndedIsRemembered(s: System, e: Event)
    requires Inv(s) && e.Complete? && Apply(s, e).trace != s.trace
    ensures var n := Apply(s, e); n.trace == s.trace + [n.trace[|s.trace|]] && Remembered(n, e.at, n.trace[|s.trace|])
  {
    assert SenderOk(s, e.receipt);
  }

  lemma {:induction false} SentIsRemembered(run: seq<Event>, start: int, i: nat)
    requires NeverBack(run, start) && NeverFull(run) && i < |Execute(BOOT, run).trace|
    ensures Remembered(Execute(BOOT, run), Clock(run, start), Execute(BOOT, run).trace[i])
  {
    if run != [] {
      var init, e := run[..|run| - 1], run[|run| - 1];
      var s, n := Execute(BOOT, init), Execute(BOOT, run);
      FrontIsSo(run, start);
      InvHolds(init);
      if i < |s.trace| {
        SentIsRemembered(init, start, i);
        match e
        case Begin(_, _, _) => BeginRemembers(s, e, Clock(init, start), s.trace[i]);
        case Complete(_, _, _) => CompleteRemembers(s, e, Clock(init, start), s.trace[i]);
        case _ =>
      } else if e.Complete? {
        EndedIsRemembered(s, e);
      }
    }
  }

  /**
   * MAIN: over every run in which time does not go back and the table is never full, an event whose
   * notification was sent is not sent again within 24 hours of its completion.
   */
  lemma NoResendWithinADay(run: seq<Event>, start: int, i: nat)
    requires NeverBack(run, start) && NeverFull(run) && run != [] && run[|run| - 1].Begin?
    requires var init, e := run[..|run| - 1], run[|run| - 1]; var before := Execute(BOOT, init).trace;
      && i < |before| && before[i].Ended? && before[i].outcome.Sent?
      && Execute(BOOT, run).trace != before && e.request.event == before[i].event
    ensures run[|run| - 1].now - Execute(BOOT, run[..|run| - 1]).trace[i].outcome.at >= 86_400_000_000_000
  {
    var init, e := run[..|run| - 1], run[|run| - 1];
    FrontIsSo(run, start);
    SentIsRemembered(init, start, i);
    InvHolds(init);
    RememberedBlocks(Execute(BOOT, init), e, Clock(init, start), Execute(BOOT, init).trace[i]);
  }

  lemma RememberedBlocks(s: System, e: Event, clock: int, o: Observation)
    requires Inv(s) && e.Begin? && |s.board.table| < 2048 && clock <= e.now && Remembered(s, clock, o)
    requires o.Ended? && o.outcome.Sent? && Apply(s, e).trace != s.trace && e.request.event == o.event
    ensures e.now - o.outcome.at >= 86_400_000_000_000
  {
    if e.now - o.outcome.at < 86_400_000_000_000 {
      AllPlaced(s);
      OnePruning(s.board.table, s.board.receipts, e.now, e.kept);
    }
  }
}
