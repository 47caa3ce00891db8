/** What a run of the forwarding loop delivers, in which order, and what it loses. */
module AudioOrder {
  import opened JobTypes
  import opened AudioForward

  datatype Event =
    | Hear(voice: Voice, now: int, answers: Answers, order: seq<Ssrc>)
    | Tick(now: int, answers: Answers, order: seq<Ssrc>)
    | Stop
    | Serve(target: Target, turn: Turn)

  /** An event that names an impossible map order does nothing. */
  ghost function Apply(cfg: Config, f: Forward, e: Event): Forward {
    match e
    case Hear(v, now, a, order) => if f.running && HeardOrder(cfg, f, v, order, now, a) then Heard(cfg, f, v, order, now, a) else f
    case Tick(now, a, order) => if f.running && ReleaseOrder(cfg, f, order, now, a) then Ticked(cfg, f, order, now, a) else f
    case Stop => f.(running := false)
    case Serve(t, turn) => Served(f, t, turn)
  }

  ghost function Execute(cfg: Config, f: Forward, run: seq<Event>): Forward {
    if run == [] then f else Apply(cfg, Execute(cfg, f, run[..|run| - 1]), run[|run| - 1])
  }

  // ----- what the trace says -----

  /** Every packet the loop received, in arrival order. */
  function Arrived(trace: seq<Observation>): seq<Packet> {
    if trace == [] then []
    else
      var before, o := Arrived(trace[..|trace| - 1]), trace[|trace| - 1];
      if o.Received? then before + [o.packet] else before
  }

  /** The packets of the flushed batches of a target, in the order they were flushed. */
  function Flat(trace: seq<Observation>, t: Target): seq<Packet> {
    if trace == [] then []
    else
      var before, o := Flat(trace[..|trace| - 1], t), trace[|trace| - 1];
      if o.Flushed? && o.target == t then before + o.batch else before
  }

  /** The batches that found room in a target's queue, in order. */
  function Accepted(trace: seq<Observation>, t: Target): seq<seq<Packet>> {
    if trace == [] then []
    else
      var before, o := Accepted(trace[..|trace| - 1], t), trace[|trace| - 1];
      if o.Flushed? && o.target == t && o.fate.Enqueued? then before + [o.batch] else before
  }

  /** The batches a target's consumer took, in order. */
  function TakenFrom(trace: seq<Observation>, t: Target): seq<seq<Packet>> {
    if trace == [] then []
    else
      var before, o := TakenFrom(trace[..|trace| - 1], t), trace[|trace| - 1];
      if o.Taken? && o.target == t then before + [o.batch] else before
  }

  /** The packets of one SSRC, without the speaker that was filled in on the way. */
  function Of(packets: seq<Packet>, x: Ssrc): seq<Packet> {
    if packets == [] then []
    else
      var before, p := Of(packets[..|packets| - 1], x), packets[|packets| - 1];
      if p.ssrc == x then before + [p.(userID := "")] else before
  }

  /** What arrived on an SSRC, less what a full held buffer refused. */
  function Kept(trace: seq<Observation>, x: Ssrc): seq<Packet> {
    if trace == [] then []
    else
      var before, o := Kept(trace[..|trace| - 1], x), trace[|trace| - 1];
      if o.Received? && !o.refused && o.packet.ssrc == x then before + [o.packet.(userID := "")] else before
  }

  /** Flushed, waiting in the open batch, or held back: the caption path of one SSRC. */
  function Line(f: Forward, x: Ssrc): seq<Packet> {
    Of(Flat(f.trace, Caption), x) + Of(f.captionBatch, x) + Of(Held(f, x), x)
  }

  lemma {:induction false} OfAppend(s: seq<Packet>, t: seq<Packet>, x: Ssrc)
    ensures Of(s + t, x) == Of(s, x) + Of(t, x)
  {
    if t == [] {
      assert s + t == s;
    } else {
      var u := t[..|t| - 1];
      assert (s + t)[..|s + t| - 1] == s + u;
      OfAppend(s, u, x);
    }
  }

  lemma OfOne(p: Packet, x: Ssrc)
    ensures Of([p], x) == if p.ssrc == x then [p.(userID := "")] else []
  {
    assert [p][..0] == [];
  }

  lemma Appended(trace: seq<Observation>, o: Observation)
    ensures Arrived(trace + [o]) == if o.Received? then Arrived(trace) + [o.packet] else Arrived(trace)
    ensures forall t :: Flat(trace + [o], t) == if o.Flushed? && o.target == t then Flat(trace, t) + o.batch else Flat(trace, t)
    ensures forall t :: Accepted(trace + [o], t) == if o.Flushed? && o.target == t && o.fate.Enqueued? then Accepted(trace, t) + [o.batch] else Accepted(trace, t)
    ensures forall t :: TakenFrom(trace + [o], t) == if o.Taken? && o.target == t then TakenFrom(trace, t) + [o.batch] else TakenFrom(trace, t)
    ensures forall x :: Kept(trace + [o], x) == if o.Received? && !o.refused && o.packet.ssrc == x then Kept(trace, x) + [o.packet.(userID := "")] else Kept(trace, x)
  {
    assert (trace + [o])[..|trace|] == trace;
  }

  // ----- the held buffers -----

  ghost predicate BufferOk(f: Forward, x: Ssrc) {
    && (x in f.unresolved <==> x in f.since)
    && (x in f.unresolved ==> 1 <= |f.unresolved[x]| <= HELD_PACKETS && forall p :: p in f.unresolved[x] ==> p.ssrc == x)
  }

  /** The two maps share their keys, and buffers exist only where captions and holding are on. */
  ghost predicate Buffers(cfg: Config, f: Forward) {
    && (forall x :: BufferOk(f, x))
    && (f.unresolved != map[] ==> cfg.captionURL != "" && UnresolvedWindow(cfg) > 0)
  }

  lemma EmptiedBuffers(cfg: Config, f: Forward, order: seq<Ssrc>, asked: bool, now: int, a: Answers)
    requires Buffers(cfg, f)
    ensures Buffers(cfg, Emptied(cfg, f, order, asked, now, a))
  {
    var g := Emptied(cfg, f, order, asked, now, a);
    forall x ensures BufferOk(g, x) { assert BufferOk(f, x); }
  }

  lemma {:induction false} NamedOf(packets: seq<Packet>, user: Id, x: Ssrc)
    ensures Of(Named(packets, user), x) == Of(packets, x)
  {
    if packets != [] {
      var n := |packets| - 1;
      NamedOf(packets[..n], user, x);
      assert Named(packets, user)[..n] == Named(packets[..n], user);
    }
  }

  lemma {:induction false} OfOthers(packets: seq<Packet>, x: Ssrc)
    requires forall p :: p in packets ==> p.ssrc != x
    ensures Of(packets, x) == []
  {
    if packets != [] {
      OfOthers(packets[..|packets| - 1], x);
    }
  }

  /** Releasing buffers gives each SSRC its own buffer, once, whatever the order. */
  lemma {:induction false} ReleasedOf(cfg: Config, f: Forward, order: seq<Ssrc>, now: int, a: Answers, x: Ssrc)
    requires Buffers(cfg, f) && cfg.captionURL != ""
    requires forall i, j :: 0 <= i < j < |order| ==> order[i] != order[j]
    ensures Of(Released(cfg, f, order, now, a), x) == if x in order then Of(Held(f, x), x) else []
  {
    if order != [] {
      var init, y := order[..|order| - 1], order[|order| - 1];
      ReleasedOf(cfg, f, init, now, a, x);
      var last := if y in f.unresolved then Named(f.unresolved[y], UserOf(f, y, now, a)) else [];
      OfAppend(Released(cfg, f, init, now, a), last, x);
      assert order == init + [y];
      BufferOf(cfg, f, y, UserOf(f, y, now, a), x);
    }
  }

  lemma BufferOf(cfg: Config, f: Forward, y: Ssrc, user: Id, x: Ssrc)
    requires Buffers(cfg, f)
    ensures Of(if y in f.unresolved then Named(f.unresolved[y], user) else [], x) == if y == x then Of(Held(f, x), x) else []
  {
    assert BufferOk(f, y);
    if y in f.unresolved { NamedOf(f.unresolved[y], user, x); }
    if y != x { OfOthers(Held(f, y), x); }
  }

  lemma EmptiedLine(cfg: Config, f: Forward, order: seq<Ssrc>, asked: bool, now: int, a: Answers, x: Ssrc)
    requires Buffers(cfg, f) && cfg.captionURL != ""
    requires forall i, j :: 0 <= i < j < |order| ==> order[i] != order[j]
    ensures Line(Emptied(cfg, f, order, asked, now, a), x) == Line(f, x)
  {
    var g := Emptied(cfg, f, order, asked, now, a);
    var out := Released(cfg, f, order, now, a);
    ReleasedOf(cfg, f, order, now, a, x);
    OfAppend(f.captionBatch, out, x);
    var done, open, held := Of(Flat(f.trace, Caption), x), Of(f.captionBatch, x), Of(Held(f, x), x);
    HeldAfter(cfg, f, order, asked, now, a, x);
    assert g.trace == f.trace && g.captionBatch == f.captionBatch + out;
    Regroup(done, open, held);
  }

  lemma HeldAfter(cfg: Config, f: Forward, order: seq<Ssrc>, asked: bool, now: int, a: Answers, x: Ssrc)
    ensures Held(Emptied(cfg, f, order, asked, now, a), x) == if x in order then [] else Held(f, x)
  {
  }

  /** Moving the held packets behind the open batch, or leaving them, keeps the line. */
  lemma Regroup(done: seq<Packet>, open: seq<Packet>, held: seq<Packet>)
    ensures done + (open + held) + [] == done + open + held
    ensures done + (open + []) + held == done + open + held
    ensures (done + open) + [] + held == done + open + held
  {
    assert open + [] == open;
  }

  // ----- flushing moves packets, and loses none from the line -----

  lemma CaptionFlushedLine(cfg: Config, f: Forward, a: FlushAnswer, x: Ssrc)
    ensures Line(CaptionFlushed(cfg, f, a), x) == Line(f, x)
    ensures Kept(CaptionFlushed(cfg, f, a).trace, x) == Kept(f.trace, x)
  {
    var g, o := CaptionFlushed(cfg, f, a), Flushed(Caption, f.captionBatch, CaptionFate(cfg, f, a));
    if f.captionBatch != [] {
      assert g.trace == f.trace + [o] && g.captionBatch == [] && g.unresolved == f.unresolved;
      Appended(f.trace, o);
      OfAppend(Flat(f.trace, Caption), f.captionBatch, x);
      Regroup(Of(Flat(f.trace, Caption), x), Of(f.captionBatch, x), Of(Held(f, x), x));
    }
  }

  lemma EncoderFlushedLine(f: Forward, a: FlushAnswer, x: Ssrc)
    ensures Line(EncoderFlushed(f, a), x) == Line(f, x)
    ensures Kept(EncoderFlushed(f, a).trace, x) == Kept(f.trace, x)
  {
    Appended(f.trace, Flushed(Encoder, f.encoderBatch, EncoderFate(f, a)));
  }

  // ----- placing one packet -----

  /** The branch that fails: the packet's own buffer was not released before the packet was appended. */
  ghost predicate Overtaken(cfg: Config, f: Forward, p: Packet, now: int, a: Answers) {
    !Holds(cfg, p) && p.ssrc in f.unresolved && !Releases(cfg, f, p.ssrc, now, a)
  }

  predicate Alike(held: seq<Packet>, p: Packet, x: Ssrc) { Of(held, x) + Of([p], x) == Of([p], x) + Of(held, x) }

  lemma EncoderPlacedLine(cfg: Config, f: Forward, p: Packet, x: Ssrc)
    ensures var g := EncoderPlaced(cfg, f, p);
      && Line(g, x) == Line(f, x) && Held(g, x) == Held(f, x)
      && Kept(g.trace, x) == if !Refuses(cfg, f, p) && p.ssrc == x then Kept(f.trace, x) + [p.(userID := "")] else Kept(f.trace, x)
  {
    var g, o := EncoderPlaced(cfg, f, p), Received(p, Refuses(cfg, f, p));
    assert g.trace == f.trace + [o] && g.captionBatch == f.captionBatch && g.unresolved == f.unresolved;
    Appended(f.trace, o);
  }

  lemma HeldLine(g: Forward, p: Packet, now: int, x: Ssrc)
    ensures Line(WithHeld(g, p, now), x) == Line(g, x) + Of([p], x)
  {
    OfAppend(Held(g, p.ssrc), [p], x);
    OfOne(p, x);
    if p.ssrc != x {
      assert Held(WithHeld(g, p, now), x) == Held(g, x);
    }
  }

  lemma DirectLine(h: Forward, p: Packet, x: Ssrc)
    ensures Line(h.(captionBatch := h.captionBatch + [p]), x) == Line(h, x) + Of([p], x) <==> Alike(Held(h, x), p, x)
  {
    OfAppend(h.captionBatch, [p], x);
    var done := Of(Flat(h.trace, Caption), x) + Of(h.captionBatch, x);
    var held, one := Of(Held(h, x), x), Of([p], x);
    assert Line(h.(captionBatch := h.captionBatch + [p]), x) == done + (one + held);
    assert Line(h, x) + one == done + (held + one);
    if done + (one + held) == done + (held + one) {
      assert (done + (one + held))[|done|..] == one + held;
      assert (done + (held + one))[|done|..] == held + one;
    }
  }

  /** What a packet appended past the held buffers does to each SSRC. */
  lemma AppendedLine(cfg: Config, g: Forward, p: Packet, order: seq<Ssrc>, now: int, a: Answers, x: Ssrc)
    requires Buffers(cfg, g) && cfg.captionURL != "" && ReleaseOrder(cfg, g, order, now, a)
    ensures var h := Expired(cfg, g, order, now, a);
      Line(h.(captionBatch := h.captionBatch + [p]), x) == Line(g, x) + Of([p], x)
      <==> (x in order || Alike(Held(g, x), p, x))
  {
    var h := Expired(cfg, g, order, now, a);
    EmptiedLine(cfg, g, order, AnyUnknown(g, a), now, a, x);
    DirectLine(h, p, x);
    assert Held(h, x) == if x in order then [] else Held(g, x);
    assert Alike([], p, x);
  }

  lemma AlikeCases(held: seq<Packet>, p: Packet, x: Ssrc)
    requires held == [] || p.ssrc != x
    ensures Alike(held, p, x)
  {
    OfOne(p, x);
  }

  /** The direct case of PlacedLine. */
  lemma DirectPlaced(cfg: Config, f: Forward, p: Packet, order: seq<Ssrc>, now: int, a: Answers, x: Ssrc)
    requires Buffers(cfg, f) && cfg.captionURL != "" && PlacedOrder(cfg, f, p, order, now, a) && !Holds(cfg, p)
    ensures var g := Placed(cfg, f, p, order, now, a);
      Line(g, x) == Line(f, x) + Of([p], x) <==> !Overtaken(cfg, f, p, now, a) || Alike(Held(f, x), p, x)
  {
    var g := EncoderPlaced(cfg, f, p);
    EncoderPlacedLine(cfg, f, p, x);
    EncoderPlacedBuffers(cfg, f, p);
    AppendedLine(cfg, g, p, order, now, a, x);
    OrderOrAlike(cfg, f, p, order, now, a, x);
  }

  lemma EncoderPlacedBuffers(cfg: Config, f: Forward, p: Packet)
    requires Buffers(cfg, f)
    ensures Buffers(cfg, EncoderPlaced(cfg, f, p))
  {
    forall y ensures BufferOk(EncoderPlaced(cfg, f, p), y) { assert BufferOk(f, y); }
  }

  /** The packet's own buffer is released first exactly when the packet does not overtake it. */
  lemma OrderOrAlike(cfg: Config, f: Forward, p: Packet, order: seq<Ssrc>, now: int, a: Answers, x: Ssrc)
    requires cfg.captionURL != "" && PlacedOrder(cfg, f, p, order, now, a) && !Holds(cfg, p)
    ensures x in order || Alike(Held(f, x), p, x) <==> !Overtaken(cfg, f, p, now, a) || Alike(Held(f, x), p, x)
  {
    assert x in order <==> Releases(cfg, EncoderPlaced(cfg, f, p), x, now, a);
    assert Releases(cfg, EncoderPlaced(cfg, f, p), x, now, a) <==> Releases(cfg, f, x, now, a);
    if Held(f, x) == [] || p.ssrc != x { AlikeCases(Held(f, x), p, x); }
  }

  lemma DirectKept(cfg: Config, f: Forward, p: Packet, order: seq<Ssrc>, now: int, a: Answers, x: Ssrc)
    requires !Holds(cfg, p)
    ensures Kept(Placed(cfg, f, p, order, now, a).trace, x) == Kept(f.trace, x) + Of([p], x)
  {
    EncoderPlacedLine(cfg, f, p, x);
    OfOne(p, x);
    assert Placed(cfg, f, p, order, now, a).trace == EncoderPlaced(cfg, f, p).trace;
  }

  lemma HeldPlaced(cfg: Config, f: Forward, p: Packet, order: seq<Ssrc>, now: int, a: Answers, x: Ssrc)
    requires Holds(cfg, p)
    ensures var g := Placed(cfg, f, p, order, now, a);
      if Refuses(cfg, f, p) then Line(g, x) == Line(f, x) && Kept(g.trace, x) == Kept(f.trace, x)
      else Line(g, x) == Line(f, x) + Of([p], x) && Kept(g.trace, x) == Kept(f.trace, x) + Of([p], x)
  {
    EncoderPlacedLine(cfg, f, p, x);
    OfOne(p, x);
    if !Refuses(cfg, f, p) {
      HeldLine(EncoderPlaced(cfg, f, p), p, now, x);
    }
  }

  /**
   * MAIN: when the caption line of an SSRC is in arrival order, receiving one more packet keeps it
   * in order exactly when the packet does not overtake its own held buffer, or what is held cannot
   * be told apart from it.
   */
  lemma PlacedLine(cfg: Config, f: Forward, p: Packet, order: seq<Ssrc>, now: int, a: Answers, x: Ssrc)
    requires Buffers(cfg, f) && cfg.captionURL != "" && PlacedOrder(cfg, f, p, order, now, a)
    requires Line(f, x) == Kept(f.trace, x)
    ensures var g := Placed(cfg, f, p, order, now, a);
      Line(g, x) == Kept(g.trace, x) <==> !Overtaken(cfg, f, p, now, a) || Alike(Held(f, x), p, x)
  {
    if Holds(cfg, p) {
      HeldPlaced(cfg, f, p, order, now, a, x);
    } else {
      DirectPlaced(cfg, f, p, order, now, a, x);
      DirectKept(cfg, f, p, order, now, a, x);
    }
  }

  // ----- whole steps and whole runs of the caption path -----

  ghost predicate LineOk(f: Forward, x: Ssrc) { Line(f, x) == Kept(f.trace, x) }

  lemma CaptionDueLine(cfg: Config, f: Forward, due: bool, now: int, a: Answers, x: Ssrc)
    ensures LineOk(CaptionDue(cfg, f, due, now, a), x) <==> LineOk(f, x)
  {
    CaptionFlushedLine(cfg, f, a.caption, x);
    var g := CaptionFlushed(cfg, f, a.caption);
    assert Line(g.(lastCaptionFlush := now), x) == Line(g, x);
  }

  lemma EncoderDueLine(f: Forward, due: bool, now: int, a: Answers, x: Ssrc)
    ensures LineOk(EncoderDue(f, due, now, a), x) <==> LineOk(f, x)
  {
    EncoderFlushedLine(f, a.encoder, x);
    var g := EncoderFlushed(f, a.encoder);
    assert Line(g.(lastEncoderFlush := now), x) == Line(g, x);
  }

  lemma FullFlushedLine(cfg: Config, f: Forward, now: int, a: Answers, x: Ssrc)
    ensures LineOk(FullFlushed(cfg, f, now, a), x) <==> LineOk(f, x)
  {
    var due := |f.captionBatch| >= CaptionBatchMax(cfg);
    var g := CaptionDue(cfg, f, due, now, a);
    CaptionDueLine(cfg, f, due, now, a, x);
    EncoderDueLine(g, |g.encoderBatch| >= ENCODER_BATCH_PACKETS, now, a, x);
  }

  lemma SameBuffers(cfg: Config, f: Forward, g: Forward)
    requires g.unresolved == f.unresolved && g.since == f.since
    ensures Buffers(cfg, f) ==> Buffers(cfg, g)
  {
    if Buffers(cfg, f) {
      forall x ensures BufferOk(g, x) { assert BufferOk(f, x); }
    }
  }

  lemma PlacedBuffers(cfg: Config, f: Forward, p: Packet, order: seq<Ssrc>, now: int, a: Answers)
    requires Buffers(cfg, f)
    ensures Buffers(cfg, Placed(cfg, f, p, order, now, a))
  {
    var g := EncoderPlaced(cfg, f, p);
    SameBuffers(cfg, f, g);
    if Refuses(cfg, f, p) {
    } else if Holds(cfg, p) {
      forall x ensures BufferOk(WithHeld(g, p, now), x) { assert BufferOk(g, x); }
    } else if cfg.captionURL != "" {
      EmptiedBuffers(cfg, g, order, AnyUnknown(g, a), now, a);
      SameBuffers(cfg, Expired(cfg, g, order, now, a), Placed(cfg, f, p, order, now, a));
    }
  }

  lemma TickedKeeps(cfg: Config, f: Forward, order: seq<Ssrc>, now: int, a: Answers, x: Ssrc)
    requires Buffers(cfg, f) && cfg.captionURL != "" && ReleaseOrder(cfg, f, order, now, a) && LineOk(f, x)
    ensures LineOk(Ticked(cfg, f, order, now, a), x)
  {
    if a.current {
      var g := Expired(cfg, f, order, now, a);
      EmptiedLine(cfg, f, order, AnyUnknown(f, a), now, a, x);
      assert LineOk(g, x);
      FlushedByClock(cfg, g, now, a, x);
    }
  }

  lemma FlushedByClock(cfg: Config, g: Forward, now: int, a: Answers, x: Ssrc)
    requires LineOk(g, x)
    ensures var h := CaptionDue(cfg, g, now - g.lastCaptionFlush >= CaptionFlush(cfg), now, a);
      LineOk(EncoderDue(h, now - h.lastEncoderFlush >= ENCODER_FLUSH, now, a), x)
  {
    var due := now - g.lastCaptionFlush >= CaptionFlush(cfg);
    var h := CaptionDue(cfg, g, due, now, a);
    CaptionDueLine(cfg, g, due, now, a, x);
    EncoderDueLine(h, now - h.lastEncoderFlush >= ENCODER_FLUSH, now, a, x);
  }

  lemma TickedBuffers(cfg: Config, f: Forward, order: seq<Ssrc>, now: int, a: Answers)
    requires Buffers(cfg, f)
    ensures Buffers(cfg, Ticked(cfg, f, order, now, a))
  {
    if a.current {
      EmptiedBuffers(cfg, f, order, AnyUnknown(f, a), now, a);
      SameBuffers(cfg, Expired(cfg, f, order, now, a), Ticked(cfg, f, order, now, a));
    } else {
      SameBuffers(cfg, f, Ticked(cfg, f, order, now, a));
    }
  }

  /** The loop and the packet at the moment the packet is put in its place. */
  predicate Places(v: Voice, a: Answers) { v.opus != [] && a.current && a.received }

  ghost predicate Overtakes(cfg: Config, f: Forward, v: Voice, now: int, a: Answers) {
    Places(v, a) && Overtaken(cfg, Counted(Identified(f, now, a)), Stamped(cfg, v, Speaker(f, now, a), now), now, a)
  }

  /**
   * MAIN: one packet case keeps the caption line of an SSRC in arrival order exactly when the packet
   * does not overtake its own held buffer, or cannot be told apart from what is held.
   */
  lemma HeardKeepsExactly(cfg: Config, f: Forward, v: Voice, order: seq<Ssrc>, now: int, a: Answers, x: Ssrc)
    requires Buffers(cfg, f) && cfg.captionURL != "" && HeardOrder(cfg, f, v, order, now, a) && LineOk(f, x)
    ensures LineOk(Heard(cfg, f, v, order, now, a), x)
      <==> !Overtakes(cfg, f, v, now, a) || Alike(Held(f, x), Stamped(cfg, v, Speaker(f, now, a), now), x)
  {
    if Places(v, a) {
      var g, p := Counted(Identified(f, now, a)), Stamped(cfg, v, Speaker(f, now, a), now);
      SameBuffers(cfg, f, g);
      assert LineOk(g, x) && Held(g, x) == Held(f, x);
      PlacedLine(cfg, g, p, order, now, a, x);
      FullFlushedLine(cfg, Placed(cfg, g, p, order, now, a), now, a, x);
    } else {
      StoppedLine(f, Heard(cfg, f, v, order, now, a), x);
    }
  }

  lemma StoppedLine(f: Forward, g: Forward, x: Ssrc)
    requires g.trace == f.trace && g.captionBatch == f.captionBatch && g.unresolved == f.unresolved
    ensures LineOk(g, x) <==> LineOk(f, x)
  {
  }

  lemma HeardBuffers(cfg: Config, f: Forward, v: Voice, order: seq<Ssrc>, now: int, a: Answers)
    requires Buffers(cfg, f)
    ensures Buffers(cfg, Heard(cfg, f, v, order, now, a))
  {
    if Places(v, a) {
      var g, p := Counted(Identified(f, now, a)), Stamped(cfg, v, Speaker(f, now, a), now);
      SameBuffers(cfg, f, g);
      PlacedBuffers(cfg, g, p, order, now, a);
      FullFlushedBuffers(cfg, Placed(cfg, g, p, order, now, a), now, a);
    } else {
      SameBuffers(cfg, f, Heard(cfg, f, v, order, now, a));
    }
  }

  lemma FullFlushedBuffers(cfg: Config, f: Forward, now: int, a: Answers)
    requires Buffers(cfg, f)
    ensures Buffers(cfg, FullFlushed(cfg, f, now, a))
  {
    SameBuffers(cfg, f, FullFlushed(cfg, f, now, a));
  }

  /** The second lookup of a packet's SSRC in one event agrees with a first one that found a speaker. */
  predicate StaysResolved(e: Event) {
    e.Hear? && e.answers.first != "" ==> Known(e.answers.users, e.voice.ssrc) != ""
  }

  /** A packet overtakes its buffer only when a resolved SSRC became unresolved again within the event. */
  lemma OvertakesMeansUnresolvedAgain(cfg: Config, f: Forward, e: Event)
    requires e.Hear? && Buffers(cfg, f) && Overtakes(cfg, f, e.voice, e.now, e.answers)
    ensures !StaysResolved(e)
  {
    var a, x := e.answers, e.voice.ssrc;
    assert BufferOk(f, x);
  }

  ghost predicate NeverOvertakes(cfg: Config, f: Forward, run: seq<Event>) {
    forall i :: 0 <= i < |run| ==> NotOvertaking(cfg, Execute(cfg, f, run[..i]), run[i])
  }

  ghost predicate NotOvertaking(cfg: Config, f: Forward, e: Event) {
    e.Hear? && f.running && HeardOrder(cfg, f, e.voice, e.order, e.now, e.answers)
    ==> !Overtakes(cfg, f, e.voice, e.now, e.answers)
  }

  lemma ServedLine(cfg: Config, f: Forward, t: Target, turn: Turn, x: Ssrc)
    ensures LineOk(Served(f, t, turn), x) <==> LineOk(f, x)
    ensures Buffers(cfg, f) ==> Buffers(cfg, Served(f, t, turn))
  {
    SameBuffers(cfg, f, Served(f, t, turn));
    ServedTrace(f, t, turn, x);
    assert Served(f, t, turn).captionBatch == f.captionBatch && Held(Served(f, t, turn), x) == Held(f, x);
  }

  lemma ServedTrace(f: Forward, t: Target, turn: Turn, x: Ssrc)
    ensures var g := Served(f, t, turn); Flat(g.trace, Caption) == Flat(f.trace, Caption) && Kept(g.trace, x) == Kept(f.trace, x)
  {
    if Queue(f, t) != [] {
      Appended(f.trace, Taken(t, Queue(f, t)[0], turn));
    }
  }

  /**
   * MAIN: over every run, `unresolved` and `unresolvedSince` share one key set, and every held buffer
   * has 1 to 50 packets of its own SSRC.
   */
  lemma HeldBuffersStayBounded(cfg: Config, start: int, status: Counters, run: seq<Event>)
    ensures var f := Execute(cfg, Start(start, status), run);
      && f.unresolved.Keys == f.since.Keys
      && (forall x :: x in f.unresolved ==> 1 <= |f.unresolved[x]| <= 50 && forall p :: p in f.unresolved[x] ==> p.ssrc == x)
      && Buffers(cfg, f)
  {
    var f := Execute(cfg, Start(start, status), run);
    BuffersHold(cfg, start, status, run);
    forall x ensures (x in f.unresolved <==> x in f.since)
      && (x in f.unresolved ==> 1 <= |f.unresolved[x]| <= 50 && forall p :: p in f.unresolved[x] ==> p.ssrc == x)
    {
      assert BufferOk(f, x);
    }
  }

  lemma {:induction false} BuffersHold(cfg: Config, start: int, status: Counters, run: seq<Event>)
    ensures Buffers(cfg, Execute(cfg, Start(start, status), run))
  {
    if run != [] {
      BuffersHold(cfg, start, status, run[..|run| - 1]);
      var f := Execute(cfg, Start(start, status), run[..|run| - 1]);
      match run[|run| - 1]
      case Hear(v, now, a, order) => HeardBuffers(cfg, f, v, order, now, a);
      case Tick(now, a, order) => TickedBuffers(cfg, f, order, now, a);
      case Stop => SameBuffers(cfg, f, f.(running := false));
      case Serve(t, turn) => ServedLine(cfg, f, t, turn, 0);
    }
  }

  /**
   * MAIN: over every run in which no packet overtakes its own held buffer, the caption packets of an
   * SSRC flushed so far, then the open batch, then its held buffer, are the packets received on it
   * in arrival order, less exactly those a full buffer refused.
   */
  lemma {:induction false} CaptionsInOrder(cfg: Config, start: int, status: Counters, run: seq<Event>, x: Ssrc)
    requires cfg.captionURL != "" && NeverOvertakes(cfg, Start(start, status), run)
    ensures var f := Execute(cfg, Start(start, status), run);
      Of(Flat(f.trace, Caption), x) + Of(f.captionBatch, x) + Of(Held(f, x), x) == Kept(f.trace, x)
  {
    var f0 := Start(start, status);
    if run != [] {
      var init, e := run[..|run| - 1], run[|run| - 1];
      assert forall i :: 0 <= i < |init| ==> init[..i] == run[..i];
      CaptionsInOrder(cfg, start, status, init, x);
      BuffersHold(cfg, start, status, init);
      assert NotOvertaking(cfg, Execute(cfg, f0, run[..|run| - 1]), run[|run| - 1]);
      StepInOrder(cfg, Execute(cfg, f0, init), e, x);
    }
  }

  lemma StepInOrder(cfg: Config, f: Forward, e: Event, x: Ssrc)
    requires Buffers(cfg, f) && cfg.captionURL != "" && LineOk(f, x) && NotOvertaking(cfg, f, e)
    ensures LineOk(Apply(cfg, f, e), x)
  {
    if Apply(cfg, f, e) != f {
      match e
      case Hear(v, now, a, order) => HeardKeepsExactly(cfg, f, v, order, now, a, x);
      case Tick(now, a, order) => TickedKeeps(cfg, f, order, now, a, x);
      case Stop => StoppedLine(f, f.(running := false), x);
      case Serve(t, turn) => ServedLine(cfg, f, t, turn, x);
    }
  }

  /** MAIN: so captions stay in order in every run in which a resolved SSRC stays resolved. */
  lemma CaptionsInOrderWhileResolved(cfg: Config, start: int, status: Counters, run: seq<Event>, x: Ssrc)
    requires cfg.captionURL != "" && forall i :: 0 <= i < |run| ==> StaysResolved(run[i])
    ensures LineOk(Execute(cfg, Start(start, status), run), x)
  {
    forall i | 0 <= i < |run| ensures NotOvertaking(cfg, Execute(cfg, Start(start, status), run[..i]), run[i]) {
      var f, e := Execute(cfg, Start(start, status), run[..i]), run[i];
      BuffersHold(cfg, start, status, run[..i]);
      if e.Hear? && Overtakes(cfg, f, e.voice, e.now, e.answers) {
        OvertakesMeansUnresolvedAgain(cfg, f, e);
      }
    }
    CaptionsInOrder(cfg, start, status, run, x);
  }
}
