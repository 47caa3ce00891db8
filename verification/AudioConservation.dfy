/** The encoder path, the two bounded queues, and where every received packet is counted. */
module AudioConservation {
  import opened JobTypes
  import opened AudioForward
  import opened AudioOrder

  function Packets(q: seq<seq<Packet>>): nat {
    if q == [] then 0 else Packets(q[..|q| - 1]) + |q[|q| - 1]|
  }

  /**
   * The packets of a target that no counter reports: batches flushed after the job was replaced,
   * taken by a consumer whose context was over, refused by the remote side, or counted too late.
   */
  function Missed(trace: seq<Observation>, t: Target): nat {
    if trace == [] then 0
    else
      var before, o := Missed(trace[..|trace| - 1], t), trace[|trace| - 1];
      match o
      case Received(_, _) => before
      case Flushed(u, batch, fate) => if u == t && (fate.Stale? || fate.NoToken? || fate == QueueFull(false)) then before + |batch| else before
      case Taken(u, batch, turn) => if u == t && turn != Sent(true, true) then before + |batch| else before
  }

  lemma MissedAppended(trace: seq<Observation>, o: Observation, t: Target)
    ensures Missed(trace + [o], t) == Missed(trace, t) + (if Unreported(o, t) then |o.batch| else 0)
  {
    assert (trace + [o])[..|trace|] == trace;
  }

  predicate Unreported(o: Observation, t: Target) {
    match o
    case Received(_, _) => false
    case Flushed(u, _, fate) => u == t && (fate.Stale? || fate.NoToken? || fate == QueueFull(false))
    case Taken(u, _, turn) => u == t && turn != Sent(true, true)
  }

  lemma {:induction false} PacketsSplit(q: seq<seq<Packet>>)
    requires q != []
    ensures Packets(q) == |q[0]| + Packets(q[1..])
  {
    if |q| == 1 {
      assert q[..0] == [] && q[1..] == [];
    } else {
      var n := |q| - 1;
      PacketsSplit(q[..n]);
      assert q[..n][1..] == q[1..][..n - 1];
    }
  }

  lemma PacketsAppended(q: seq<seq<Packet>>, b: seq<Packet>)
    ensures Packets(q + [b]) == Packets(q) + |b|
  {
    assert (q + [b])[..|q|] == q;
  }

  /** Everything the counters and the buffers of the encoder path account for. */
  function Accounted(f: Forward): nat {
    f.counters.encoderForwarded + f.counters.encoderDrops + Packets(f.encoderQueue) + |f.encoderBatch| + Missed(f.trace, Encoder)
  }

  /** The open encoder batch stays below the cap, and every flushed one was within it. */
  ghost predicate Capped(f: Forward) {
    forall i :: 0 <= i < |f.trace| && f.trace[i].Flushed? && f.trace[i].target == Encoder ==> 1 <= |f.trace[i].batch| <= ENCODER_BATCH_PACKETS
  }

  ghost predicate Fifo(f: Forward, t: Target) {
    TakenFrom(f.trace, t) + Queue(f, t) == Accepted(f.trace, t) && |Queue(f, t)| <= QUEUE_BATCHES
  }

  ghost predicate Ordered(cfg: Config, f: Forward) {
    && Fifo(f, Encoder) && Fifo(f, Caption) && Capped(f)
    && Flat(f.trace, Encoder) + f.encoderBatch == (if cfg.encoderURL != "" then Arrived(f.trace) else [])
  }

  predicate Balanced(status: Counters, f: Forward) {
    && f.counters.received == status.received + |Arrived(f.trace)|
    && Accounted(f) == status.encoderForwarded + status.encoderDrops + |Flat(f.trace, Encoder)| + |f.encoderBatch|
  }

  /** All that this module claims of a loop, relative to the counters it started from. */
  ghost predicate Conserved(cfg: Config, status: Counters, f: Forward) { Ordered(cfg, f) && Balanced(status, f) }

  /** Nothing this module looks at differs. */
  predicate SamePath(f: Forward, g: Forward) {
    && g.trace == f.trace && g.encoderBatch == f.encoderBatch && g.counters == f.counters
    && g.encoderQueue == f.encoderQueue && g.captionQueue == f.captionQueue
  }

  lemma SameConserved(cfg: Config, status: Counters, f: Forward, g: Forward)
    requires SamePath(f, g) && Conserved(cfg, status, f)
    ensures Conserved(cfg, status, g)
  {
  }

  lemma CaptionFlushedConserves(cfg: Config, status: Counters, f: Forward, a: FlushAnswer)
    requires Conserved(cfg, status, f)
    ensures Conserved(cfg, status, CaptionFlushed(cfg, f, a))
    ensures CaptionFlushed(cfg, f, a).encoderBatch == f.encoderBatch
  {
    CaptionFlushedOrdered(cfg, f, a);
    CaptionFlushedBalanced(cfg, status, f, a);
  }

  lemma CaptionFlushedOrdered(cfg: Config, f: Forward, a: FlushAnswer)
    requires Ordered(cfg, f)
    ensures Ordered(cfg, CaptionFlushed(cfg, f, a))
  {
    Appended(f.trace, Flushed(Caption, f.captionBatch, CaptionFate(cfg, f, a)));
    var q, b := f.captionQueue, f.captionBatch;
    assert TakenFrom(f.trace, Caption) + (q + [b]) == (TakenFrom(f.trace, Caption) + q) + [b];
  }

  lemma CaptionFlushedBalanced(cfg: Config, status: Counters, f: Forward, a: FlushAnswer)
    requires Balanced(status, f)
    ensures Balanced(status, CaptionFlushed(cfg, f, a))
  {
    var o := Flushed(Caption, f.captionBatch, CaptionFate(cfg, f, a));
    Appended(f.trace, o);
    MissedAppended(f.trace, o, Encoder);
  }

  lemma EncoderFlushedConserves(cfg: Config, status: Counters, f: Forward, a: FlushAnswer)
    requires Conserved(cfg, status, f) && |f.encoderBatch| <= ENCODER_BATCH_PACKETS
    ensures Conserved(cfg, status, EncoderFlushed(f, a))
    ensures |EncoderFlushed(f, a).encoderBatch| == 0
  {
    EncoderFlushedOrdered(cfg, f, a);
    EncoderFlushedBalanced(status, f, a);
  }

  lemma EncoderFlushedOrdered(cfg: Config, f: Forward, a: FlushAnswer)
    requires Ordered(cfg, f) && |f.encoderBatch| <= ENCODER_BATCH_PACKETS
    ensures Ordered(cfg, EncoderFlushed(f, a))
  {
    Appended(f.trace, Flushed(Encoder, f.encoderBatch, EncoderFate(f, a)));
    var q, b := f.encoderQueue, f.encoderBatch;
    assert TakenFrom(f.trace, Encoder) + (q + [b]) == (TakenFrom(f.trace, Encoder) + q) + [b];
  }

  lemma EncoderFlushedBalanced(status: Counters, f: Forward, a: FlushAnswer)
    requires Balanced(status, f)
    ensures Balanced(status, EncoderFlushed(f, a))
  {
    var o := Flushed(Encoder, f.encoderBatch, EncoderFate(f, a));
    Appended(f.trace, o);
    MissedAppended(f.trace, o, Encoder);
    PacketsAppended(f.encoderQueue, f.encoderBatch);
  }

  /** A packet is counted as received and joins the encoder batch in one step. */
  lemma PlacedConserves(cfg: Config, status: Counters, f: Forward, p: Packet)
    requires Conserved(cfg, status, f)
    ensures Conserved(cfg, status, EncoderPlaced(cfg, Counted(f), p))
  {
    PlacedOrdered(cfg, f, p);
    var o := Received(p, Refuses(cfg, Counted(f), p));
    Appended(f.trace, o);
    MissedAppended(f.trace, o, Encoder);
  }

  lemma PlacedOrdered(cfg: Config, f: Forward, p: Packet)
    requires Ordered(cfg, f)
    ensures Ordered(cfg, EncoderPlaced(cfg, Counted(f), p))
  {
    Appended(f.trace, Received(p, Refuses(cfg, Counted(f), p)));
    assert Flat(f.trace, Encoder) + (f.encoderBatch + [p]) == (Flat(f.trace, Encoder) + f.encoderBatch) + [p];
  }

  lemma ServedConserves(cfg: Config, status: Counters, f: Forward, t: Target, turn: Turn)
    requires Conserved(cfg, status, f)
    ensures Conserved(cfg, status, Served(f, t, turn))
    ensures Served(f, t, turn).encoderBatch == f.encoderBatch
  {
    ServedOrdered(cfg, f, t, turn);
    ServedBalanced(status, f, t, turn);
  }

  lemma ServedOrdered(cfg: Config, f: Forward, t: Target, turn: Turn)
    requires Ordered(cfg, f)
    ensures Ordered(cfg, Served(f, t, turn))
  {
    if Queue(f, t) != [] {
      Appended(f.trace, Taken(t, Queue(f, t)[0], turn));
      ServedFifo(f, t, turn, Encoder);
      ServedFifo(f, t, turn, Caption);
    }
  }

  lemma ServedFifo(f: Forward, t: Target, turn: Turn, u: Target)
    requires Fifo(f, u)
    ensures Fifo(Served(f, t, turn), u)
  {
    var q := Queue(f, t);
    if q != [] {
      Appended(f.trace, Taken(t, q[0], turn));
      if u == t {
        assert (TakenFrom(f.trace, t) + [q[0]]) + q[1..] == TakenFrom(f.trace, t) + q;
      } else {
        assert Queue(Served(f, t, turn), u) == Queue(f, u);
      }
    }
  }

  lemma ServedBalanced(status: Counters, f: Forward, t: Target, turn: Turn)
    requires Balanced(status, f)
    ensures Balanced(status, Served(f, t, turn))
  {
    var q := Queue(f, t);
    if q != [] {
      var o := Taken(t, q[0], turn);
      Appended(f.trace, o);
      MissedAppended(f.trace, o, Encoder);
      PacketsSplit(q);
    }
  }

  lemma DuesConserve(cfg: Config, status: Counters, f: Forward, caption: bool, encoder: bool, now: int, a: Answers)
    requires Conserved(cfg, status, f) && |f.encoderBatch| <= ENCODER_BATCH_PACKETS
    ensures var g := EncoderDue(CaptionDue(cfg, f, caption, now, a), encoder, now, a);
      Conserved(cfg, status, g) && |g.encoderBatch| == if encoder then 0 else |f.encoderBatch|
  {
    CaptionFlushedConserves(cfg, status, f, a.caption);
    var g := CaptionDue(cfg, f, caption, now, a);
    if caption { SameConserved(cfg, status, CaptionFlushed(cfg, f, a.caption), g); }
    EncoderFlushedConserves(cfg, status, g, a.encoder);
    if encoder { SameConserved(cfg, status, EncoderFlushed(g, a.encoder), EncoderDue(g, encoder, now, a)); }
  }

  lemma TickedConserves(cfg: Config, status: Counters, f: Forward, order: seq<Ssrc>, now: int, a: Answers)
    requires Conserved(cfg, status, f) && |f.encoderBatch| < ENCODER_BATCH_PACKETS
    ensures Conserved(cfg, status, Ticked(cfg, f, order, now, a))
    ensures |Ticked(cfg, f, order, now, a).encoderBatch| < ENCODER_BATCH_PACKETS
  {
    if a.current {
      var g := Expired(cfg, f, order, now, a);
      SameConserved(cfg, status, f, g);
      var due := now - g.lastCaptionFlush >= CaptionFlush(cfg);
      var h := CaptionDue(cfg, g, due, now, a);
      DuesConserve(cfg, status, g, due, now - h.lastEncoderFlush >= ENCODER_FLUSH, now, a);
    } else {
      SameConserved(cfg, status, f, Ticked(cfg, f, order, now, a));
    }
  }

  /** After the encoder batch, placing a packet touches only the caption side. */
  lemma PlacedSame(cfg: Config, f: Forward, p: Packet, order: seq<Ssrc>, now: int, a: Answers)
    ensures SamePath(EncoderPlaced(cfg, f, p), Placed(cfg, f, p, order, now, a))
    ensures |Placed(cfg, f, p, order, now, a).encoderBatch| <= |f.encoderBatch| + 1
  {
  }

  lemma HeardConserves(cfg: Config, status: Counters, f: Forward, v: Voice, order: seq<Ssrc>, now: int, a: Answers)
    requires Conserved(cfg, status, f) && |f.encoderBatch| < ENCODER_BATCH_PACKETS
    ensures Conserved(cfg, status, Heard(cfg, f, v, order, now, a))
    ensures |Heard(cfg, f, v, order, now, a).encoderBatch| < ENCODER_BATCH_PACKETS
  {
    if Places(v, a) {
      var p := Stamped(cfg, v, Speaker(f, now, a), now);
      var g := Identified(f, now, a);
      SameConserved(cfg, status, f, g);
      PlacedConserves(cfg, status, g, p);
      var h := Placed(cfg, Counted(g), p, order, now, a);
      PlacedSame(cfg, Counted(g), p, order, now, a);
      SameConserved(cfg, status, EncoderPlaced(cfg, Counted(g), p), h);
      var due := |h.captionBatch| >= CaptionBatchMax(cfg);
      DuesConserve(cfg, status, h, due, |CaptionDue(cfg, h, due, now, a).encoderBatch| >= ENCODER_BATCH_PACKETS, now, a);
    } else {
      SameConserved(cfg, status, f, Heard(cfg, f, v, order, now, a));
    }
  }

  lemma {:induction false} ConservedAlways(cfg: Config, start: int, status: Counters, run: seq<Event>)
    ensures var f := Execute(cfg, Start(start, status), run);
      Conserved(cfg, status, f) && |f.encoderBatch| < ENCODER_BATCH_PACKETS
  {
    if run != [] {
      var init := run[..|run| - 1];
      ConservedAlways(cfg, start, status, init);
      var f := Execute(cfg, Start(start, status), init);
      match run[|run| - 1]
      case Hear(v, now, a, order) => HeardConserves(cfg, status, f, v, order, now, a);
      case Tick(now, a, order) => TickedConserves(cfg, status, f, order, now, a);
      case Stop => SameConserved(cfg, status, f, f.(running := false));
      case Serve(t, turn) => ServedConserves(cfg, status, f, t, turn);
    }
  }

  /**
   * MAIN: over every run the flushed encoder batches followed by the open one are all received
   * packets in arrival order, and every flushed encoder batch has 1 to 50 packets.
   */
  lemma EncoderInOrder(cfg: Config, start: int, status: Counters, run: seq<Event>)
    requires cfg.encoderURL != ""
    ensures var f := Execute(cfg, Start(start, status), run);
      && Flat(f.trace, Encoder) + f.encoderBatch == Arrived(f.trace)
      && |f.encoderBatch| < 50
      && forall i :: 0 <= i < |f.trace| && f.trace[i].Flushed? && f.trace[i].target == Encoder ==> 1 <= |f.trace[i].batch| <= 50
  {
    ConservedAlways(cfg, start, status, run);
  }

  /**
   * MAIN: over every run a queue holds at most 64 batches, and the batches its consumer took
   * followed by the queue are the batches it accepted: delivery is in order and misses only whole
   * batches.
   */
  lemma QueuesAreFifo(cfg: Config, start: int, status: Counters, run: seq<Event>, t: Target)
    ensures var f := Execute(cfg, Start(start, status), run);
      && TakenFrom(f.trace, t) + Queue(f, t) == Accepted(f.trace, t)
      && |Queue(f, t)| <= 64
  {
    ConservedAlways(cfg, start, status, run);
  }

  /**
   * MAIN: over every run each packet counted as received is counted as forwarded or dropped, waits
   * in the queue or in the open batch, or belongs to a batch that met one of the unreported ends.
   */
  lemma EncoderPacketsAreAccountedFor(cfg: Config, start: int, status: Counters, run: seq<Event>)
    requires cfg.encoderURL != ""
    ensures var f := Execute(cfg, Start(start, status), run);
      f.counters.received - status.received
      == (f.counters.encoderForwarded - status.encoderForwarded) + (f.counters.encoderDrops - status.encoderDrops)
         + Packets(f.encoderQueue) + |f.encoderBatch| + Missed(f.trace, Encoder)
  {
    ConservedAlways(cfg, start, status, run);
    var f := Execute(cfg, Start(start, status), run);
    assert |Flat(f.trace, Encoder) + f.encoderBatch| == |Arrived(f.trace)|;
  }

  // ----- a resolved SSRC that becomes unresolved within one event -----

  const HELD_CONFIG := Config("encoder", "caption", "token", 0, 0, 0, false, 0, 1)

  const UNKNOWN := Answers(true, "", true, map[], "", FlushAnswer(true, true), FlushAnswer(true, true))

  /** The first lookup finds a speaker, the second one does not, and nobody is alone in the channel. */
  const FLICKER := UNKNOWN.(first := "alice")

  const FIRST := Hear(Voice(7, 1, 0, [0]), 0, UNKNOWN, [])
  const SECOND := Hear(Voice(7, 2, 0, [0]), 1, FLICKER, [])

  lemma FirstIsHeld(status: Counters)
    ensures var f := Apply(HELD_CONFIG, Start(0, status), FIRST);
      f.running && f.unresolved == map[7 := [Stamped(HELD_CONFIG, FIRST.voice, "", 0)]] && f.since == map[7 := 0]
      && f.fallbackAt == Some(0) && f.fallback == ""
  {
    var f0 := Start(0, status);
    var g := Counted(Identified(f0, 0, UNKNOWN));
    var p := Stamped(HELD_CONFIG, FIRST.voice, "", 0);
    assert Holds(HELD_CONFIG, p) && HeardOrder(HELD_CONFIG, f0, FIRST.voice, [], 0, UNKNOWN);
    assert [] + [p] == [p];
    assert Placed(HELD_CONFIG, g, p, [], 0, UNKNOWN) == WithHeld(EncoderPlaced(HELD_CONFIG, g, p), p, 0);
  }

  /** The second packet is placed directly and leaves the first one held. */
  lemma SecondOvertakes(f: Forward)
    requires f.running && f.unresolved == map[7 := [Stamped(HELD_CONFIG, FIRST.voice, "", 0)]] && f.since == map[7 := 0]
    requires f.fallbackAt == Some(0) && f.fallback == ""
    ensures HeardOrder(HELD_CONFIG, f, SECOND.voice, [], 1, FLICKER)
    ensures Overtakes(HELD_CONFIG, f, SECOND.voice, 1, FLICKER)
  {
    var g := Counted(Identified(f, 1, FLICKER));
    var q := Stamped(HELD_CONFIG, SECOND.voice, "alice", 1);
    assert UserOf(EncoderPlaced(HELD_CONFIG, g, q), 7, 1, FLICKER) == "" && UserOf(g, 7, 1, FLICKER) == "";
  }

  lemma NotAlike()
    ensures var p, q := Stamped(HELD_CONFIG, FIRST.voice, "", 0), Stamped(HELD_CONFIG, SECOND.voice, "alice", 1);
      !Alike([p], q, 7)
  {
    var p, q := Stamped(HELD_CONFIG, FIRST.voice, "", 0), Stamped(HELD_CONFIG, SECOND.voice, "alice", 1);
    OfOne(p, 7);
    OfOne(q, 7);
    assert ([p.(userID := "")] + [q.(userID := "")])[0].sequence == 1;
    assert ([q.(userID := "")] + [p.(userID := "")])[0].sequence == 2;
  }

  /** MAIN: without that condition the order is lost: the second packet overtakes the first one. */
  lemma FlickerReordersCaptions(status: Counters)
    ensures var f := Execute(HELD_CONFIG, Start(0, status), [FIRST, SECOND]);
      !LineOk(f, 7) && !StaysResolved(SECOND)
  {
    var f0 := Start(0, status);
    assert [FIRST, SECOND][..1] == [FIRST] && [FIRST][..0] == [];
    var f1 := Apply(HELD_CONFIG, f0, FIRST);
    assert Execute(HELD_CONFIG, f0, [FIRST][..0]) == f0;
    assert f1 == Execute(HELD_CONFIG, f0, [FIRST]);
    FirstIsHeld(status);
    BuffersHold(HELD_CONFIG, 0, status, [FIRST]);
    CaptionsInOrderWhileResolved(HELD_CONFIG, 0, status, [FIRST], 7);
    SecondOvertakes(f1);
    NotAlike();
    HeardKeepsExactly(HELD_CONFIG, f1, SECOND.voice, [], 1, FLICKER, 7);
  }
}
