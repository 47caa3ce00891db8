/**
 * internal/discord/audio_forward.go: the loop that turns received packets into encoder and caption
 * batches, holding back caption packets whose speaker is not known yet.
 *
 * The class holds the loop's local variables and the two queues; its methods are the loop's
 * closures and cases. Each is proved equal to a function on `Forward`, about which AudioOrder
 * proves what a whole run delivers.
 */
module AudioForward {
  import opened JobTypes

  type Ssrc = nat

  const QUEUE_BATCHES: nat := 64
  const ENCODER_BATCH_PACKETS: nat := 50
  const HELD_PACKETS: nat := 50
  const ENCODER_FLUSH: int := 100_000_000
  const MILLISECOND: int := 1_000_000
  const FALLBACK_LIFE: int := 250_000_000

  datatype Config = Config(
    encoderURL: Id, captionURL: Id, captionToken: Id,
    maxBatchPackets: int, flushMS: int, bufferMS: int, bufferMSSet: bool,
    jobGeneration: nat, voiceGeneration: nat)

  function CaptionBatchMax(cfg: Config): nat {
    if cfg.maxBatchPackets <= 0 then 5 else if cfg.maxBatchPackets > 100 then 100 else cfg.maxBatchPackets
  }

  function CaptionFlush(cfg: Config): int {
    var wanted := cfg.flushMS * MILLISECOND;
    if wanted <= 0 then 100 * MILLISECOND else if wanted > 1000 * MILLISECOND then 1000 * MILLISECOND else wanted
  }

  /** unresolvedSSRCBufferWindow: only an explicit zero turns holding off. */
  function UnresolvedWindow(cfg: Config): int {
    var window := cfg.bufferMS * MILLISECOND;
    if window < 0 || (window == 0 && !cfg.bufferMSSet) then 1000 * MILLISECOND else window
  }

  datatype Voice = Voice(ssrc: Ssrc, sequence: nat, timestamp: nat, opus: seq<bv8>)

  datatype Packet = Packet(
    ssrc: Ssrc, userID: Id, sequence: nat, timestamp: nat, receivedAt: int, opus: seq<bv8>,
    jobGeneration: nat, connectionGeneration: nat)

  datatype Target = Encoder | Caption

  /** `recorded` says whether the status still belonged to this job when the loss was counted. */
  datatype Fate = Enqueued | Stale | NoToken(recorded: bool) | QueueFull(recorded: bool)

  datatype Observation =
    | Received(packet: Packet, refused: bool)
    | Flushed(target: Target, batch: seq<Packet>, fate: Fate)
    | Taken(target: Target, batch: seq<Packet>, turn: Turn)

  /** What became of a batch the consumer took: lost to a canceled context, or handed to the forwarder. */
  datatype Turn = Canceled | Sent(ok: bool, recorded: bool)

  datatype Counters = Counters(
    received: nat, encoderForwarded: nat, captionForwarded: nat,
    encoderDrops: nat, captionDrops: nat, encoderErrors: nat, captionErrors: nat)

  datatype Forward = Forward(
    running: bool,
    encoderBatch: seq<Packet>, captionBatch: seq<Packet>, lastEncoderFlush: int, lastCaptionFlush: int,
    fallback: Id, fallbackAt: Option<int>,
    unresolved: map<Ssrc, seq<Packet>>, since: map<Ssrc, int>,
    encoderQueue: seq<seq<Packet>>, captionQueue: seq<seq<Packet>>,
    counters: Counters, trace: seq<Observation>)

  function Start(now: int, counters: Counters): Forward {
    Forward(true, [], [], now, now, "", None, map[], map[], [], [], counters, [])
  }

  /** What the rest of the client answers while one flush is under way. */
  datatype FlushAnswer = FlushAnswer(current: bool, recorded: bool)

  /**
   * What the rest of the client answers while the loop handles one event: whether the job is still
   * the current one, the speaker of each SSRC (empty when unknown), the only human in the channel.
   */
  datatype Answers = Answers(
    current: bool, first: Id, received: bool, users: map<Ssrc, Id>, unique: Id,
    encoder: FlushAnswer, caption: FlushAnswer)

  function Known(users: map<Ssrc, Id>, x: Ssrc): Id { if x in users then users[x] else "" }

  function Observe(f: Forward, o: Observation): Forward { f.(trace := f.trace + [o]) }

  // ----- resolveFallbackUser -----

  predicate FallbackCached(f: Forward, now: int) { f.fallbackAt.Some? && now - f.fallbackAt.value < FALLBACK_LIFE }

  function Consult(f: Forward, now: int, unique: Id): Forward {
    if FallbackCached(f, now) then f else f.(fallback := unique, fallbackAt := Some(now))
  }

  function UserOf(f: Forward, x: Ssrc, now: int, a: Answers): Id {
    if Known(a.users, x) != "" then Known(a.users, x) else Consult(f, now, a.unique).fallback
  }

  // ----- flush and enqueueOpusForwardBatch -----

  function CaptionFate(cfg: Config, f: Forward, a: FlushAnswer): Fate {
    if cfg.captionToken == "" then NoToken(a.recorded)
    else if !a.current then Stale
    else if |f.captionQueue| < QUEUE_BATCHES then Enqueued
    else QueueFull(a.recorded)
  }

  function EncoderFate(f: Forward, a: FlushAnswer): Fate {
    if !a.current then Stale else if |f.encoderQueue| < QUEUE_BATCHES then Enqueued else QueueFull(a.recorded)
  }

  function CaptionFlushed(cfg: Config, f: Forward, a: FlushAnswer): Forward {
    var batch, fate := f.captionBatch, CaptionFate(cfg, f, a);
    if batch == [] then f
    else
      var c := f.counters;
      Observe(f.(captionBatch := [],
                 captionQueue := if fate.Enqueued? then f.captionQueue + [batch] else f.captionQueue,
                 counters := if fate == NoToken(true) then c.(captionErrors := c.captionErrors + 1)
                             else if fate == QueueFull(true) then c.(captionDrops := c.captionDrops + |batch|, captionErrors := c.captionErrors + 1)
                             else c),
              Flushed(Caption, batch, fate))
  }

  function EncoderFlushed(f: Forward, a: FlushAnswer): Forward {
    var batch, fate := f.encoderBatch, EncoderFate(f, a);
    if batch == [] then f
    else
      var c := f.counters;
      Observe(f.(encoderBatch := [],
                 encoderQueue := if fate.Enqueued? then f.encoderQueue + [batch] else f.encoderQueue,
                 counters := if fate == QueueFull(true) then c.(encoderDrops := c.encoderDrops + |batch|, encoderErrors := c.encoderErrors + 1)
                             else c),
              Flushed(Encoder, batch, fate))
  }

  function CaptionDue(cfg: Config, f: Forward, due: bool, now: int, a: Answers): Forward {
    if due then CaptionFlushed(cfg, f, a.caption).(lastCaptionFlush := now) else f
  }

  function EncoderDue(f: Forward, due: bool, now: int, a: Answers): Forward {
    if due then EncoderFlushed(f, a.encoder).(lastEncoderFlush := now) else f
  }

  // ----- flushExpiredUnresolved -----

  predicate Releases(cfg: Config, f: Forward, x: Ssrc, now: int, a: Answers) {
    x in f.unresolved && x in f.since && (UserOf(f, x, now, a) != "" || now - f.since[x] >= UnresolvedWindow(cfg))
  }

  function Named(packets: seq<Packet>, user: Id): (named: seq<Packet>)
    ensures |named| == |packets|
    ensures forall i :: 0 <= i < |packets| ==> named[i] == packets[i].(userID := user)
  {
    seq(|packets|, i requires 0 <= i < |packets| => packets[i].(userID := user))
  }

  /** The buffers of `order`, one after the other, with their speakers filled in. */
  function Released(cfg: Config, f: Forward, order: seq<Ssrc>, now: int, a: Answers): seq<Packet> {
    if order == [] || cfg.captionURL == "" then []
    else
      var x := order[|order| - 1];
      Released(cfg, f, order[..|order| - 1], now, a)
      + (if x in f.unresolved then Named(f.unresolved[x], UserOf(f, x, now, a)) else [])
  }

  /** `order` is one of the orders in which the loop over the map can meet the buffers it releases. */
  ghost predicate ReleaseOrder(cfg: Config, f: Forward, order: seq<Ssrc>, now: int, a: Answers) {
    && (forall i, j :: 0 <= i < j < |order| ==> order[i] != order[j])
    && (forall x :: x in order <==> Releases(cfg, f, x, now, a))
  }

  /** The loop after it has released the buffers of `order`; `asked` says whether any speaker was unknown. */
  function Emptied(cfg: Config, f: Forward, order: seq<Ssrc>, asked: bool, now: int, a: Answers): Forward {
    var g := if asked then Consult(f, now, a.unique) else f;
    var gone := set x | x in order;
    g.(captionBatch := f.captionBatch + Released(cfg, f, order, now, a),
       unresolved := f.unresolved - gone, since := f.since - gone)
  }

  predicate AnyUnknown(f: Forward, a: Answers) { exists x :: x in f.unresolved && Known(a.users, x) == "" }

  function Expired(cfg: Config, f: Forward, order: seq<Ssrc>, now: int, a: Answers): Forward {
    Emptied(cfg, f, order, AnyUnknown(f, a), now, a)
  }

  /** One turn of the loop over the held buffers. */
  function Visited(cfg: Config, f: Forward, x: Ssrc, now: int, a: Answers): Forward {
    var g := if Known(a.users, x) == "" then Consult(f, now, a.unique) else f;
    if !Releases(cfg, f, x, now, a) then g
    else
      g.(captionBatch := if cfg.captionURL != "" then f.captionBatch + Named(f.unresolved[x], UserOf(f, x, now, a)) else f.captionBatch,
         unresolved := f.unresolved - {x}, since := f.since - {x})
  }

  /** Visiting a buffer that stays leaves the loop as it was, apart from the fallback speaker. */
  lemma VisitKeeps(cfg: Config, f: Forward, order: seq<Ssrc>, asked: bool, x: Ssrc, now: int, a: Answers)
    requires x in f.unresolved && x in f.since && x !in order && !Releases(cfg, f, x, now, a)
    ensures Visited(cfg, Emptied(cfg, f, order, asked, now, a), x, now, a)
      == Emptied(cfg, f, order, asked || Known(a.users, x) == "", now, a)
  {
    var g := Emptied(cfg, f, order, asked, now, a);
    assert UserOf(g, x, now, a) == UserOf(f, x, now, a);
  }

  lemma ReleasedExtends(cfg: Config, f: Forward, order: seq<Ssrc>, x: Ssrc, now: int, a: Answers)
    requires x in f.unresolved
    ensures Released(cfg, f, order + [x], now, a)
      == if cfg.captionURL != "" then Released(cfg, f, order, now, a) + Named(f.unresolved[x], UserOf(f, x, now, a)) else []
    ensures cfg.captionURL == "" ==> Released(cfg, f, order, now, a) == []
  {
    assert (order + [x])[..|order|] == order;
  }

  lemma GoneExtends(held: map<Ssrc, seq<Packet>>, since: map<Ssrc, int>, order: seq<Ssrc>, x: Ssrc)
    ensures held - (set y | y in order + [x]) == (held - (set y | y in order)) - {x}
    ensures since - (set y | y in order + [x]) == (since - (set y | y in order)) - {x}
  {
    assert (set y | y in order + [x]) == (set y | y in order) + {x};
  }

  /** Visiting a buffer that goes is releasing one more. */
  lemma VisitReleases(cfg: Config, f: Forward, order: seq<Ssrc>, asked: bool, x: Ssrc, now: int, a: Answers)
    requires x !in order && Releases(cfg, f, x, now, a)
    ensures Visited(cfg, Emptied(cfg, f, order, asked, now, a), x, now, a)
      == Emptied(cfg, f, order + [x], asked || Known(a.users, x) == "", now, a)
  {
    var g := Emptied(cfg, f, order, asked, now, a);
    assert UserOf(g, x, now, a) == UserOf(f, x, now, a);
    GoneExtends(f.unresolved, f.since, order, x);
    OpenExtends(cfg, f, order, x, now, a);
    assert g.unresolved[x] == f.unresolved[x] && g.since[x] == f.since[x];
  }

  lemma OpenExtends(cfg: Config, f: Forward, order: seq<Ssrc>, x: Ssrc, now: int, a: Answers)
    requires x in f.unresolved
    ensures f.captionBatch + Released(cfg, f, order + [x], now, a)
      == if cfg.captionURL != "" then (f.captionBatch + Released(cfg, f, order, now, a)) + Named(f.unresolved[x], UserOf(f, x, now, a))
         else f.captionBatch + Released(cfg, f, order, now, a)
  {
    ReleasedExtends(cfg, f, order, x, now, a);
  }

  lemma VisitedOne(cfg: Config, f: Forward, order: seq<Ssrc>, asked: bool, x: Ssrc, now: int, a: Answers)
    requires x in f.unresolved && x in f.since && x !in order
    ensures Visited(cfg, Emptied(cfg, f, order, asked, now, a), x, now, a)
      == Emptied(cfg, f, if Releases(cfg, f, x, now, a) then order + [x] else order, asked || Known(a.users, x) == "", now, a)
  {
    if Releases(cfg, f, x, now, a) {
      VisitReleases(cfg, f, order, asked, x, now, a);
    } else {
      VisitKeeps(cfg, f, order, asked, x, now, a);
    }
  }

  /** `order` is an order of the released buffers among those the loop has met. */
  ghost predicate OrderSoFar(cfg: Config, f: Forward, order: seq<Ssrc>, rest: set<Ssrc>, now: int, a: Answers) {
    && (forall i, j :: 0 <= i < j < |order| ==> order[i] != order[j])
    && (forall x :: x in order <==> x in f.unresolved && x !in rest && Releases(cfg, f, x, now, a))
  }

  lemma OrderGrows(cfg: Config, f: Forward, order: seq<Ssrc>, rest: set<Ssrc>, x: Ssrc, now: int, a: Answers)
    requires OrderSoFar(cfg, f, order, rest, now, a) && x in rest && x in f.unresolved
    ensures OrderSoFar(cfg, f, if Releases(cfg, f, x, now, a) then order + [x] else order, rest - {x}, now, a)
  {
  }

  // ----- the two cases of the loop -----

  function Ticked(cfg: Config, f: Forward, order: seq<Ssrc>, now: int, a: Answers): Forward {
    if !a.current then f.(running := false)
    else
      var g := Expired(cfg, f, order, now, a);
      var h := CaptionDue(cfg, g, now - g.lastCaptionFlush >= CaptionFlush(cfg), now, a);
      EncoderDue(h, now - h.lastEncoderFlush >= ENCODER_FLUSH, now, a)
  }

  function Stamped(cfg: Config, v: Voice, user: Id, now: int): Packet {
    Packet(v.ssrc, user, v.sequence, v.timestamp, now, v.opus, cfg.jobGeneration, cfg.voiceGeneration)
  }

  predicate Holds(cfg: Config, p: Packet) { cfg.captionURL != "" && p.userID == "" && UnresolvedWindow(cfg) > 0 }

  function Held(f: Forward, x: Ssrc): seq<Packet> { if x in f.unresolved then f.unresolved[x] else [] }

  predicate Refuses(cfg: Config, f: Forward, p: Packet) { Holds(cfg, p) && |Held(f, p.ssrc)| >= HELD_PACKETS }

  function WithHeld(f: Forward, p: Packet, now: int): Forward {
    f.(unresolved := f.unresolved[p.ssrc := Held(f, p.ssrc) + [p]],
       since := if p.ssrc in f.since then f.since else f.since[p.ssrc := now])
  }

  function EncoderPlaced(cfg: Config, f: Forward, p: Packet): Forward {
    Observe(if cfg.encoderURL != "" then f.(encoderBatch := f.encoderBatch + [p]) else f,
            Received(p, Refuses(cfg, f, p)))
  }

  /** Where one received packet goes: the encoder batch, and the caption batch or a held buffer. */
  function Placed(cfg: Config, f: Forward, p: Packet, order: seq<Ssrc>, now: int, a: Answers): Forward {
    var g := EncoderPlaced(cfg, f, p);
    if Refuses(cfg, f, p) then g
    else if Holds(cfg, p) then WithHeld(g, p, now)
    else if cfg.captionURL != "" then
      var h := Expired(cfg, g, order, now, a);
      h.(captionBatch := h.captionBatch + [p])
    else g
  }

  function FullFlushed(cfg: Config, f: Forward, now: int, a: Answers): Forward {
    var g := CaptionDue(cfg, f, |f.captionBatch| >= CaptionBatchMax(cfg), now, a);
    EncoderDue(g, |g.encoderBatch| >= ENCODER_BATCH_PACKETS, now, a)
  }

  /** The speaker the packet gets on arrival, and the loop after asking for it. */
  function Identified(f: Forward, now: int, a: Answers): Forward {
    if a.first == "" then Consult(f, now, a.unique) else f
  }

  function Speaker(f: Forward, now: int, a: Answers): Id {
    if a.first == "" then Consult(f, now, a.unique).fallback else a.first
  }

  function Counted(f: Forward): Forward { f.(counters := f.counters.(received := f.counters.received + 1)) }

  function Heard(cfg: Config, f: Forward, v: Voice, order: seq<Ssrc>, now: int, a: Answers): Forward {
    if v.opus == [] then f
    else if !a.current then f.(running := false)
    else if !a.received then Identified(f, now, a).(running := false)
    else
      var p := Stamped(cfg, v, Speaker(f, now, a), now);
      FullFlushed(cfg, Placed(cfg, Counted(Identified(f, now, a)), p, order, now, a), now, a)
  }

  /** When a packet goes straight to the caption batch, `order` is how the held buffers were met. */
  ghost predicate PlacedOrder(cfg: Config, f: Forward, p: Packet, order: seq<Ssrc>, now: int, a: Answers) {
    cfg.captionURL != "" && !Holds(cfg, p) ==> ReleaseOrder(cfg, EncoderPlaced(cfg, f, p), order, now, a)
  }

  ghost predicate HeardOrder(cfg: Config, f: Forward, v: Voice, order: seq<Ssrc>, now: int, a: Answers) {
    v.opus != [] && a.current && a.received
    ==> PlacedOrder(cfg, Counted(Identified(f, now, a)), Stamped(cfg, v, Speaker(f, now, a), now), order, now, a)
  }

  // ----- the consumers -----

  function Queue(f: Forward, t: Target): seq<seq<Packet>> { if t == Encoder then f.encoderQueue else f.captionQueue }

  /** The counters after the result callback of runOpusForwardTarget. */
  function Reported(c: Counters, t: Target, count: nat, turn: Turn): Counters {
    if turn.Canceled? || !turn.recorded then c
    else if turn.ok then
      if t == Encoder then c.(encoderForwarded := c.encoderForwarded + count) else c.(captionForwarded := c.captionForwarded + count)
    else
      if t == Encoder then c.(encoderErrors := c.encoderErrors + 1) else c.(captionErrors := c.captionErrors + 1)
  }

  function Served(f: Forward, t: Target, turn: Turn): Forward {
    if Queue(f, t) == [] then f
    else
      var batch, rest := Queue(f, t)[0], Queue(f, t)[1..];
      var g := if t == Encoder then f.(encoderQueue := rest) else f.(captionQueue := rest);
      Observe(g.(counters := Reported(f.counters, t, |batch|, turn)), Taken(t, batch, turn))
  }

  // ----- the loop's variables -----

  class ForwardLoop {
    const cfg: Config
    var running: bool
    var encoderBatch: seq<Packet>
    var captionBatch: seq<Packet>
    var lastEncoderFlush: int
    var lastCaptionFlush: int
    var fallback: Id
    var fallbackAt: Option<int>
    var unresolved: map<Ssrc, seq<Packet>>
    var since: map<Ssrc, int>
    var encoderQueue: seq<seq<Packet>>
    var captionQueue: seq<seq<Packet>>
    var counters: Counters
    ghost var trace: seq<Observation>

    ghost function Abstract(): Forward
      reads this
    {
      Forward(running, encoderBatch, captionBatch, lastEncoderFlush, lastCaptionFlush, fallback, fallbackAt,
              unresolved, since, encoderQueue, captionQueue, counters, trace)
    }

    constructor (config: Config, now: int, status: Counters)
      ensures cfg == config && Abstract() == Start(now, status)
    {
      cfg, running := config, true;
      encoderBatch, captionBatch, lastEncoderFlush, lastCaptionFlush := [], [], now, now;
      fallback, fallbackAt, unresolved, since := "", None, map[], map[];
      encoderQueue, captionQueue, counters, trace := [], [], status, [];
    }

    method ResolveFallbackUser(now: int, unique: Id) returns (user: Id)
      modifies this`fallback, this`fallbackAt
      ensures Abstract() == Consult(old(Abstract()), now, unique)
      ensures user == Abstract().fallback
    {
      if fallbackAt.Some? && now - fallbackAt.value < FALLBACK_LIFE { return fallback; }
      fallbackAt := Some(now);
      fallback := unique;
      return fallback;
    }

    /** flush and enqueueOpusForwardBatch for the caption target. */
    method FlushCaption(a: FlushAnswer)
      modifies this`captionBatch, this`captionQueue, this`counters, this`trace
      ensures Abstract() == CaptionFlushed(cfg, old(Abstract()), a)
    {
      var batch := captionBatch;
      captionBatch := [];
      if |batch| == 0 { return; }
      if cfg.captionToken == "" {
        if a.recorded { counters := counters.(captionErrors := counters.captionErrors + 1); }
        trace := trace + [Flushed(Caption, batch, NoToken(a.recorded))];
        return;
      }
      if !a.current {
        trace := trace + [Flushed(Caption, batch, Stale)];
        return;
      }
      if |captionQueue| < QUEUE_BATCHES {
        captionQueue := captionQueue + [batch];
        trace := trace + [Flushed(Caption, batch, Enqueued)];
      } else {
        if a.recorded {
          counters := counters.(captionDrops := counters.captionDrops + |batch|, captionErrors := counters.captionErrors + 1);
        }
        trace := trace + [Flushed(Caption, batch, QueueFull(a.recorded))];
      }
    }

    method FlushEncoder(a: FlushAnswer)
      modifies this`encoderBatch, this`encoderQueue, this`counters, this`trace
      ensures Abstract() == EncoderFlushed(old(Abstract()), a)
    {
      var batch := encoderBatch;
      encoderBatch := [];
      if |batch| == 0 { return; }
      if !a.current {
        trace := trace + [Flushed(Encoder, batch, Stale)];
        return;
      }
      if |encoderQueue| < QUEUE_BATCHES {
        encoderQueue := encoderQueue + [batch];
        trace := trace + [Flushed(Encoder, batch, Enqueued)];
      } else {
        if a.recorded {
          counters := counters.(encoderDrops := counters.encoderDrops + |batch|, encoderErrors := counters.encoderErrors + 1);
        }
        trace := trace + [Flushed(Encoder, batch, QueueFull(a.recorded))];
      }
    }

    /** One turn of the loop of flushExpiredUnresolved. */
    method Visit(ssrc: Ssrc, now: int, a: Answers)
      requires ssrc in unresolved && ssrc in since
      modifies this`captionBatch, this`unresolved, this`since, this`fallback, this`fallbackAt
      ensures Abstract() == Visited(cfg, old(Abstract()), ssrc, now, a)
    {
      var user := if ssrc in a.users then a.users[ssrc] else "";
      if user == "" { user := ResolveFallbackUser(now, a.unique); }
      if user == "" && now - since[ssrc] < UnresolvedWindow(cfg) { return; }
      if cfg.captionURL != "" { captionBatch := captionBatch + Named(unresolved[ssrc], user); }
      unresolved := unresolved - {ssrc};
      since := since - {ssrc};
    }

    method FlushExpiredUnresolved(now: int, a: Answers) returns (ghost order: seq<Ssrc>)
      requires unresolved.Keys == since.Keys
      modifies this`captionBatch, this`unresolved, this`since, this`fallback, this`fallbackAt
      ensures ReleaseOrder(cfg, old(Abstract()), order, now, a)
      ensures Abstract() == Expired(cfg, old(Abstract()), order, now, a)
    {
      ghost var f := Abstract();
      ghost var asked := false;
      order := [];
      var rest := unresolved.Keys;
      while rest != {}
        invariant rest <= f.unresolved.Keys
        invariant OrderSoFar(cfg, f, order, rest, now, a)
        invariant asked ==> AnyUnknown(f, a)
        invariant !asked ==> forall x :: x in f.unresolved && x !in rest ==> Known(a.users, x) != ""
        invariant Abstract() == Emptied(cfg, f, order, asked, now, a)
        decreases |rest|
      {
        var ssrc :| ssrc in rest;
        OrderGrows(cfg, f, order, rest, ssrc, now, a);
        rest := rest - {ssrc};
        Visit(ssrc, now, a);
        VisitedOne(cfg, f, order, asked, ssrc, now, a);
        order := if Releases(cfg, f, ssrc, now, a) then order + [ssrc] else order;
        asked := asked || Known(a.users, ssrc) == "";
      }
    }

    method Tick(now: int, a: Answers) returns (ghost order: seq<Ssrc>)
      requires unresolved.Keys == since.Keys
      modifies this
      ensures a.current ==> ReleaseOrder(cfg, old(Abstract()), order, now, a)
      ensures Abstract() == Ticked(cfg, old(Abstract()), order, now, a)
    {
      order := [];
      if !a.current {
        running := false;
        return;
      }
      order := FlushExpiredUnresolved(now, a);
      if now - lastCaptionFlush >= CaptionFlush(cfg) {
        FlushCaption(a.caption);
        lastCaptionFlush := now;
      }
      if now - lastEncoderFlush >= ENCODER_FLUSH {
        FlushEncoder(a.encoder);
        lastEncoderFlush := now;
      }
    }

    method PlaceForEncoder(p: Packet)
      modifies this`trace, this`encoderBatch
      ensures Abstract() == EncoderPlaced(cfg, old(Abstract()), p)
    {
      trace := trace + [Received(p, Refuses(cfg, Abstract(), p))];
      if cfg.encoderURL != "" { encoderBatch := encoderBatch + [p]; }
    }

    /** A packet without a speaker joins the held buffer of its SSRC, unless that is full. */
    method Hold(p: Packet, now: int)
      modifies this`unresolved, this`since
      ensures Abstract() == if |Held(old(Abstract()), p.ssrc)| < HELD_PACKETS then WithHeld(old(Abstract()), p, now) else old(Abstract())
    {
      var held := if p.ssrc in unresolved then unresolved[p.ssrc] else [];
      if |held| < HELD_PACKETS {
        unresolved := unresolved[p.ssrc := held + [p]];
        if p.ssrc !in since { since := since[p.ssrc := now]; }
      }
    }

    /** The part of the packet case that puts a received packet in its place. */
    method Place(p: Packet, now: int, a: Answers) returns (ghost order: seq<Ssrc>)
      requires unresolved.Keys == since.Keys
      modifies this
      ensures PlacedOrder(cfg, old(Abstract()), p, order, now, a)
      ensures Abstract() == Placed(cfg, old(Abstract()), p, order, now, a)
    {
      order := [];
      PlaceForEncoder(p);
      if cfg.captionURL != "" && p.userID == "" && UnresolvedWindow(cfg) > 0 {
        Hold(p, now);
      } else if cfg.captionURL != "" {
        order := FlushExpiredUnresolved(now, a);
        captionBatch := captionBatch + [p];
      }
    }

    /** One turn of a target's consumer, with its result callback. */
    method Serve(t: Target, turn: Turn)
      modifies this`encoderQueue, this`captionQueue, this`counters, this`trace
      ensures Abstract() == Served(old(Abstract()), t, turn)
    {
      var queue := if t == Encoder then encoderQueue else captionQueue;
      if |queue| == 0 { return; }
      var batch := queue[0];
      if t == Encoder { encoderQueue := queue[1..]; } else { captionQueue := queue[1..]; }
      trace := trace + [Taken(t, batch, turn)];
      if turn.Canceled? || !turn.recorded { return; }
      match (turn.ok, t)
      case (false, Encoder) => counters := counters.(encoderErrors := counters.encoderErrors + 1);
      case (false, Caption) => counters := counters.(captionErrors := counters.captionErrors + 1);
      case (true, Encoder) => counters := counters.(encoderForwarded := counters.encoderForwarded + |batch|);
      case (true, Caption) => counters := counters.(captionForwarded := counters.captionForwarded + |batch|);
    }

    method FlushFull(now: int, a: Answers)
      modifies this
      ensures Abstract() == FullFlushed(cfg, old(Abstract()), now, a)
    {
      if |captionBatch| >= CaptionBatchMax(cfg) {
        FlushCaption(a.caption);
        lastCaptionFlush := now;
      }
      if |encoderBatch| >= ENCODER_BATCH_PACKETS {
        FlushEncoder(a.encoder);
        lastEncoderFlush := now;
      }
    }

    method Hear(v: Voice, now: int, a: Answers) returns (ghost order: seq<Ssrc>)
      requires unresolved.Keys == since.Keys
      modifies this
      ensures Abstract() == Heard(cfg, old(Abstract()), v, order, now, a)
      ensures HeardOrder(cfg, old(Abstract()), v, order, now, a)
    {
      order := [];
      if |v.opus| == 0 { return; }
      if !a.current {
        running := false;
        return;
      }
      var user := a.first;
      if user == "" { user := ResolveFallbackUser(now, a.unique); }
      if !a.received {
        running := false;
        return;
      }
      order := Accept(Packet(v.ssrc, user, v.sequence, v.timestamp, now, v.opus, cfg.jobGeneration, cfg.voiceGeneration), now, a);
    }

    /** The rest of the packet case, once the packet has been recorded as received. */
    method Accept(p: Packet, now: int, a: Answers) returns (ghost order: seq<Ssrc>)
      requires unresolved.Keys == since.Keys
      modifies this
      ensures PlacedOrder(cfg, Counted(old(Abstract())), p, order, now, a)
      ensures Abstract() == FullFlushed(cfg, Placed(cfg, Counted(old(Abstract())), p, order, now, a), now, a)
    {
      counters := counters.(received := counters.received + 1);
      assert Abstract() == Counted(old(Abstract()));
      order := Place(p, now, a);
      FlushFull(now, a);
    }
  }
}
