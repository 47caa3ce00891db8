/** What the packets of the forwarding loop say: they are the received voices, under the speaker that was
    known when they left, and they leave when they are due. */
module AudioFidelity {
  import opened JobTypes
  import opened AudioForward
  import opened AudioOrder

  // ----- the speaker -----

  /** The only human of the channel, as asked for now or less than 250 ms ago. */
  function OnlyHuman(f: Forward, now: int, a: Answers): Id {
    if f.fallbackAt.Some? && now - f.fallbackAt.value < 250_000_000 then f.fallback else a.unique
  }

  function SpeakerOnArrival(f: Forward, now: int, a: Answers): Id {
    if a.first != "" then a.first else OnlyHuman(f, now, a)
  }

  /** The speaker of an SSRC whose packets are held back. */
  function SpeakerOnRelease(f: Forward, x: Ssrc, now: int, a: Answers): Id {
    if x in a.users && a.users[x] != "" then a.users[x] else OnlyHuman(f, now, a)
  }

  // ----- what is recorded as received -----

  /** The event brings a packet with audio for a job that is current before and after its speaker is looked up. */
  ghost predicate Records(cfg: Config, f: Forward, e: Event) {
    e.Hear? && f.running && HeardOrder(cfg, f, e.voice, e.order, e.now, e.answers)
    && |e.voice.opus| > 0 && e.answers.current && e.answers.received
  }

  /** The packet is this voice as received at this time on this connection. */
  predicate Carries(cfg: Config, p: Packet, v: Voice, now: int) {
    && p.ssrc == v.ssrc && p.sequence == v.sequence && p.timestamp == v.timestamp && p.opus == v.opus
    && p.receivedAt == now && p.jobGeneration == cfg.jobGeneration && p.connectionGeneration == cfg.voiceGeneration
  }

  lemma ArrivedAppended(trace: seq<Observation>, o: Observation)
    ensures Arrived(trace + [o]) == if o.Received? then Arrived(trace) + [o.packet] else Arrived(trace)
  {
    assert (trace + [o])[..|trace|] == trace;
  }

  lemma FlatAppended(trace: seq<Observation>, o: Observation)
    ensures Flat(trace + [o], Caption) == if o.Flushed? && o.target == Caption then Flat(trace, Caption) + o.batch else Flat(trace, Caption)
  {
    assert (trace + [o])[..|trace|] == trace;
  }

  lemma SameArrived(cfg: Config, f: Forward, due: bool, now: int, a: Answers)
    ensures Arrived(CaptionDue(cfg, f, due, now, a).trace) == Arrived(f.trace)
    ensures Arrived(EncoderDue(f, due, now, a).trace) == Arrived(f.trace)
  {
    if f.captionBatch != [] { ArrivedAppended(f.trace, Flushed(Caption, f.captionBatch, CaptionFate(cfg, f, a.caption))); }
    if f.encoderBatch != [] { ArrivedAppended(f.trace, Flushed(Encoder, f.encoderBatch, EncoderFate(f, a.encoder))); }
  }

  lemma FullFlushArrived(cfg: Config, f: Forward, now: int, a: Answers)
    ensures Arrived(FullFlushed(cfg, f, now, a).trace) == Arrived(f.trace)
  {
    var due := |f.captionBatch| >= CaptionBatchMax(cfg);
    var g := CaptionDue(cfg, f, due, now, a);
    SameArrived(cfg, f, due, now, a);
    SameArrived(cfg, g, |g.encoderBatch| >= ENCODER_BATCH_PACKETS, now, a);
  }

  lemma PlacedTrace(cfg: Config, f: Forward, p: Packet, order: seq<Ssrc>, now: int, a: Answers)
    ensures Placed(cfg, f, p, order, now, a).trace == f.trace + [Received(p, Refuses(cfg, f, p))]
  {
  }

  lemma PlacedArrived(cfg: Config, f: Forward, p: Packet, order: seq<Ssrc>, now: int, a: Answers)
    ensures Arrived(Placed(cfg, f, p, order, now, a).trace) == Arrived(f.trace) + [p]
  {
    PlacedTrace(cfg, f, p, order, now, a);
    ArrivedAppended(f.trace, Received(p, Refuses(cfg, f, p)));
  }

  /**
   * MAIN: a packet event that records anything records one packet, the voice it brought, under the
   * speaker of its SSRC or else the only human of the channel; no other event records any.
   */
  lemma RecordedIsReceived(cfg: Config, f: Forward, e: Event)
    ensures var before, after := Arrived(f.trace), Arrived(Apply(cfg, f, e).trace);
      if Records(cfg, f, e)
      then
        && |after| == |before| + 1 && after[..|before|] == before
        && Carries(cfg, after[|before|], e.voice, e.now)
        && after[|before|].userID == SpeakerOnArrival(f, e.now, e.answers)
      else after == before
  {
    match e
    case Hear(_, _, _, _) => HearArrived(cfg, f, e);
    case Tick(now, a, order) => TickArrived(cfg, f, e);
    case Stop =>
    case Serve(t, turn) =>
      if Queue(f, t) != [] { ArrivedAppended(f.trace, Taken(t, Queue(f, t)[0], turn)); }
  }

  /** The packet that a recording event makes, and the loop when it has been put in its place. */
  lemma HeardSteps(cfg: Config, f: Forward, e: Event) returns (p: Packet, h: Forward, k: Forward)
    requires Records(cfg, f, e)
    ensures Apply(cfg, f, e) == FullFlushed(cfg, k, e.now, e.answers) && k == Placed(cfg, h, p, e.order, e.now, e.answers)
    ensures h.trace == f.trace && h.captionBatch == f.captionBatch && h.unresolved == f.unresolved && h.since == f.since
    ensures Carries(cfg, p, e.voice, e.now) && p.userID == SpeakerOnArrival(f, e.now, e.answers)
  {
    h := Counted(Identified(f, e.now, e.answers));
    p := Stamped(cfg, e.voice, Speaker(f, e.now, e.answers), e.now);
    k := Placed(cfg, h, p, e.order, e.now, e.answers);
  }

  lemma HearArrived(cfg: Config, f: Forward, e: Event)
    requires e.Hear?
    ensures var before, after := Arrived(f.trace), Arrived(Apply(cfg, f, e).trace);
      if Records(cfg, f, e)
      then
        && |after| == |before| + 1 && after[..|before|] == before
        && Carries(cfg, after[|before|], e.voice, e.now)
        && after[|before|].userID == SpeakerOnArrival(f, e.now, e.answers)
      else after == before
  {
    if Records(cfg, f, e) {
      var p, h, k := HeardSteps(cfg, f, e);
      PlacedArrived(cfg, h, p, e.order, e.now, e.answers);
      FullFlushArrived(cfg, k, e.now, e.answers);
    }
  }

  lemma TickArrived(cfg: Config, f: Forward, e: Event)
    requires e.Tick?
    ensures Arrived(Apply(cfg, f, e).trace) == Arrived(f.trace)
  {
    var now, a := e.now, e.answers;
    var g := Expired(cfg, f, e.order, now, a);
    var due := now - g.lastCaptionFlush >= CaptionFlush(cfg);
    var h := CaptionDue(cfg, g, due, now, a);
    SameArrived(cfg, g, due, now, a);
    SameArrived(cfg, h, now - h.lastEncoderFlush >= ENCODER_FLUSH, now, a);
  }

  /** The recorded voices of a run with the times they were received at. */
  ghost function Voices(cfg: Config, f: Forward, run: seq<Event>): seq<(Voice, int)> {
    if run == [] then []
    else
      var before, e := Voices(cfg, f, run[..|run| - 1]), run[|run| - 1];
      if Records(cfg, Execute(cfg, f, run[..|run| - 1]), e) then before + [(e.voice, e.now)] else before
  }

  predicate Matched(cfg: Config, packets: seq<Packet>, voices: seq<(Voice, int)>) {
    |packets| == |voices| && forall i :: 0 <= i < |packets| ==> Carries(cfg, packets[i], voices[i].0, voices[i].1)
  }

  lemma MatchedGrows(cfg: Config, before: seq<Packet>, after: seq<Packet>, voices: seq<(Voice, int)>, v: Voice, now: int)
    requires Matched(cfg, before, voices) && |after| == |before| + 1 && after[..|before|] == before && Carries(cfg, after[|before|], v, now)
    ensures Matched(cfg, after, voices + [(v, now)])
  {
    forall i | 0 <= i < |before| ensures after[i] == before[i] { assert after[..|before|][i] == before[i]; }
  }

  lemma StepMatches(cfg: Config, f: Forward, e: Event, voices: seq<(Voice, int)>)
    requires Matched(cfg, Arrived(f.trace), voices)
    ensures Matched(cfg, Arrived(Apply(cfg, f, e).trace), if Records(cfg, f, e) then voices + [(e.voice, e.now)] else voices)
  {
    RecordedIsReceived(cfg, f, e);
    if Records(cfg, f, e) { MatchedGrows(cfg, Arrived(f.trace), Arrived(Apply(cfg, f, e).trace), voices, e.voice, e.now); }
  }

  /**
   * MAIN: over every run the packets received are the voices of the recorded events, one each, in their
   * order, with their audio and numbers.
   */
  lemma {:induction false} ReceivedAreTheVoices(cfg: Config, start: int, status: Counters, run: seq<Event>)
    ensures var f0 := Start(start, status); Matched(cfg, Arrived(Execute(cfg, f0, run).trace), Voices(cfg, f0, run))
  {
    if run != [] {
      var f0, init := Start(start, status), run[..|run| - 1];
      ReceivedAreTheVoices(cfg, start, status, init);
      StepMatches(cfg, Execute(cfg, f0, init), run[|run| - 1], Voices(cfg, f0, init));
    }
  }

  // ----- what leaves the held buffers -----

  /** How long a packet without a speaker may wait: the configured time, and one second by default. */
  function Window(cfg: Config): int {
    if cfg.bufferMS > 0 then cfg.bufferMS * 1_000_000 else if cfg.bufferMS == 0 && cfg.bufferMSSet then 0 else 1_000_000_000
  }

  predicate Leaves(cfg: Config, f: Forward, x: Ssrc, now: int, a: Answers)
    requires x in f.since
  {
    SpeakerOnRelease(f, x, now, a) != "" || now - f.since[x] >= Window(cfg)
  }

  /** q is a packet held back in f, under the speaker its SSRC has now. */
  predicate WasHeld(f: Forward, q: Packet, now: int, a: Answers) {
    exists x, i :: x in f.unresolved && 0 <= i < |f.unresolved[x]| && q == f.unresolved[x][i].(userID := SpeakerOnRelease(f, x, now, a))
  }

  lemma {:induction false} ReleasedWereHeld(cfg: Config, f: Forward, order: seq<Ssrc>, now: int, a: Answers)
    ensures forall q :: q in Released(cfg, f, order, now, a) ==> WasHeld(f, q, now, a)
  {
    if order != [] {
      var x := order[|order| - 1];
      ReleasedWereHeld(cfg, f, order[..|order| - 1], now, a);
      if x in f.unresolved {
        var named := Named(f.unresolved[x], UserOf(f, x, now, a));
        forall q | q in named ensures WasHeld(f, q, now, a) {
          var i :| 0 <= i < |named| && named[i] == q;
          assert q == f.unresolved[x][i].(userID := SpeakerOnRelease(f, x, now, a));
        }
      }
    }
  }

  /**
   * MAIN: a release pass empties exactly the buffers whose SSRC has a speaker by now or has waited its
   * time, keeps the others as they are, and gives every packet that leaves the speaker of its SSRC.
   */
  lemma ReleaseMeans(cfg: Config, f: Forward, order: seq<Ssrc>, now: int, a: Answers)
    requires ReleaseOrder(cfg, f, order, now, a) && f.unresolved.Keys == f.since.Keys
    ensures var g := Expired(cfg, f, order, now, a);
      && (forall x :: x in g.unresolved <==> x in f.unresolved && !Leaves(cfg, f, x, now, a))
      && (forall x :: x in g.unresolved ==> g.unresolved[x] == f.unresolved[x] && x in g.since && g.since[x] == f.since[x])
      && f.captionBatch <= g.captionBatch
      && (forall q :: q in g.captionBatch[|f.captionBatch|..] ==> WasHeld(f, q, now, a))
      && g.encoderBatch == f.encoderBatch && g.trace == f.trace
  {
    ReleasedWereHeld(cfg, f, order, now, a);
    var g := Expired(cfg, f, order, now, a);
    assert g.captionBatch[|f.captionBatch|..] == Released(cfg, f, order, now, a);
    forall x | x in f.unresolved ensures Releases(cfg, f, x, now, a) <==> Leaves(cfg, f, x, now, a) {}
  }

  /** Every caption packet that has left the held buffers: flushed, or in the open batch. */
  function Out(f: Forward): seq<Packet> { Flat(f.trace, Caption) + f.captionBatch }

  lemma CaptionDueOut(cfg: Config, f: Forward, due: bool, now: int, a: Answers)
    ensures var g := CaptionDue(cfg, f, due, now, a); Out(g) == Out(f) && g.unresolved == f.unresolved && g.since == f.since
  {
    if f.captionBatch != [] { FlatAppended(f.trace, Flushed(Caption, f.captionBatch, CaptionFate(cfg, f, a.caption))); }
  }

  lemma EncoderDueOut(f: Forward, due: bool, now: int, a: Answers)
    ensures var g := EncoderDue(f, due, now, a); Out(g) == Out(f) && g.unresolved == f.unresolved && g.since == f.since
  {
    if f.encoderBatch != [] { FlatAppended(f.trace, Flushed(Encoder, f.encoderBatch, EncoderFate(f, a.encoder))); }
  }

  lemma SameOut(cfg: Config, f: Forward, now: int, a: Answers)
    ensures var g := FullFlushed(cfg, f, now, a); Out(g) == Out(f) && g.unresolved == f.unresolved && g.since == f.since
  {
    var due := |f.captionBatch| >= CaptionBatchMax(cfg);
    var g := CaptionDue(cfg, f, due, now, a);
    CaptionDueOut(cfg, f, due, now, a);
    EncoderDueOut(g, |g.encoderBatch| >= ENCODER_BATCH_PACKETS, now, a);
  }

  /** What the caption path does with one packet. */
  predicate Takes(cfg: Config, f: Forward, g: Forward, p: Packet, now: int) {
    var x := p.ssrc;
    var held := if x in f.unresolved then f.unresolved[x] else [];
    if p.userID != "" || Window(cfg) == 0 then |Out(g)| > 0 && Out(g)[|Out(g)| - 1] == p
    else if |held| < 50
    then
      && Out(g) == Out(f) && g.unresolved == f.unresolved[x := held + [p]]
      && g.since == (if x in f.since then f.since else f.since[x := now])
    else Out(g) == Out(f) && g.unresolved == f.unresolved && g.since == f.since
  }

  /**
   * MAIN: the caption path takes the recorded packet as it is: at the end of what has left when its speaker
   * is known or nothing is held back, and otherwise at the end of the held buffer of its SSRC, unless
   * that has 50 packets.
   */
  lemma CaptionTakesThePacket(cfg: Config, f: Forward, e: Event) returns (p: Packet)
    requires Records(cfg, f, e) && cfg.captionURL != ""
    ensures Arrived(Apply(cfg, f, e).trace) == Arrived(f.trace) + [p] && Takes(cfg, f, Apply(cfg, f, e), p, e.now)
  {
    var h, k;
    p, h, k := HeardSteps(cfg, f, e);
    PlacedArrived(cfg, h, p, e.order, e.now, e.answers);
    FullFlushArrived(cfg, k, e.now, e.answers);
    if Holds(cfg, p) { HoldTakes(cfg, h, p, e.order, e.now, e.answers); } else { DirectTakes(cfg, h, p, e.order, e.now, e.answers); }
    TakesAndFlushes(cfg, f, h, k, p, e.now, e.answers);
  }

  lemma TakesAndFlushes(cfg: Config, f: Forward, h: Forward, k: Forward, p: Packet, now: int, a: Answers)
    requires Takes(cfg, h, k, p, now) && Out(h) == Out(f) && h.unresolved == f.unresolved && h.since == f.since
    ensures Takes(cfg, f, FullFlushed(cfg, k, now, a), p, now)
  {
    SameOut(cfg, k, now, a);
  }

  lemma HoldTakes(cfg: Config, f: Forward, p: Packet, order: seq<Ssrc>, now: int, a: Answers)
    requires Holds(cfg, p)
    ensures Takes(cfg, f, Placed(cfg, f, p, order, now, a), p, now)
  {
    FlatAppended(f.trace, Received(p, Refuses(cfg, f, p)));
  }

  lemma DirectTakes(cfg: Config, f: Forward, p: Packet, order: seq<Ssrc>, now: int, a: Answers)
    requires cfg.captionURL != "" && !Holds(cfg, p)
    ensures Takes(cfg, f, Placed(cfg, f, p, order, now, a), p, now)
  {
    var g := Placed(cfg, f, p, order, now, a);
    assert g.captionBatch[|g.captionBatch| - 1] == p;
    assert Out(g)[|Out(g)| - 1] == g.captionBatch[|g.captionBatch| - 1];
  }

  // ----- when batches leave -----

  function CaptionMax(cfg: Config): int {
    if cfg.maxBatchPackets < 1 then 5 else if cfg.maxBatchPackets < 100 then cfg.maxBatchPackets else 100
  }

  function CaptionWait(cfg: Config): int {
    if cfg.flushMS < 1 then 100_000_000 else if cfg.flushMS < 1000 then cfg.flushMS * 1_000_000 else 1_000_000_000
  }

  /** MAIN: a tick empties the open batches that have waited long enough, and leaves the others open. */
  lemma TickFlushesWhatIsDue(cfg: Config, f: Forward, e: Event)
    requires e.Tick? && f.running && e.answers.current && ReleaseOrder(cfg, f, e.order, e.now, e.answers)
    ensures var g := Apply(cfg, f, e);
      && (if e.now - f.lastEncoderFlush >= 100_000_000 then g.encoderBatch == [] && g.lastEncoderFlush == e.now
          else g.encoderBatch == f.encoderBatch && g.lastEncoderFlush == f.lastEncoderFlush)
      && (if e.now - f.lastCaptionFlush >= CaptionWait(cfg) then g.captionBatch == [] && g.lastCaptionFlush == e.now
          else f.captionBatch <= g.captionBatch && g.lastCaptionFlush == f.lastCaptionFlush)
  {
  }

  /** MAIN: a packet event leaves neither open batch full. */
  lemma HearFlushesWhatIsFull(cfg: Config, f: Forward, e: Event)
    requires Records(cfg, f, e)
    ensures var g := Apply(cfg, f, e); |g.encoderBatch| < 50 && |g.captionBatch| < CaptionMax(cfg)
  {
    var now, a := e.now, e.answers;
    var h := Placed(cfg, Counted(Identified(f, now, a)), Stamped(cfg, e.voice, Speaker(f, now, a), now), e.order, now, a);
    FullFlushEmpties(cfg, h, now, a);
  }

  lemma FullFlushEmpties(cfg: Config, f: Forward, now: int, a: Answers)
    ensures var g := FullFlushed(cfg, f, now, a); |g.encoderBatch| < 50 && |g.captionBatch| < CaptionMax(cfg)
  {
  }

  /** How an open batch ends: queued while the job is current and fewer than 64 batches wait, dropped and
      counted when 64 do, lost when the job was replaced; captions need their token as well. */
  lemma FlushMeans(cfg: Config, f: Forward, a: FlushAnswer)
    ensures var g, c, n := EncoderFlushed(f, a), f.counters, |f.encoderBatch|;
      && g.encoderBatch == [] && g.captionBatch == f.captionBatch && g.captionQueue == f.captionQueue
      && g.encoderQueue == (if n > 0 && a.current && |f.encoderQueue| < 64 then f.encoderQueue + [f.encoderBatch] else f.encoderQueue)
      && g.counters == (if n > 0 && a.current && |f.encoderQueue| >= 64 && a.recorded
                        then c.(encoderDrops := c.encoderDrops + n, encoderErrors := c.encoderErrors + 1) else c)
    ensures var g, c, n := CaptionFlushed(cfg, f, a), f.counters, |f.captionBatch|;
      && g.captionBatch == [] && g.encoderBatch == f.encoderBatch && g.encoderQueue == f.encoderQueue
      && g.captionQueue == (if n > 0 && cfg.captionToken != "" && a.current && |f.captionQueue| < 64
                            then f.captionQueue + [f.captionBatch] else f.captionQueue)
      && g.counters == (if n > 0 && cfg.captionToken == "" && a.recorded then c.(captionErrors := c.captionErrors + 1)
                        else if n > 0 && cfg.captionToken != "" && a.current && |f.captionQueue| >= 64 && a.recorded
                        then c.(captionDrops := c.captionDrops + n, captionErrors := c.captionErrors + 1) else c)
  {
  }

  /** A consumer takes the first batch; it counts as forwarded, or as one error, unless the job was replaced. */
  lemma ServeMeans(cfg: Config, f: Forward, t: Target, turn: Turn)
    ensures var g, c := Apply(cfg, f, Serve(t, turn)), f.counters;
      match t
      case Encoder =>
        && g.captionQueue == f.captionQueue && g.encoderQueue == (if f.encoderQueue == [] then [] else f.encoderQueue[1..])
        && g.counters == (if f.encoderQueue == [] then c
                          else if turn == Sent(true, true) then c.(encoderForwarded := c.encoderForwarded + |f.encoderQueue[0]|)
                          else if turn == Sent(false, true) then c.(encoderErrors := c.encoderErrors + 1) else c)
      case Caption =>
        && g.encoderQueue == f.encoderQueue && g.captionQueue == (if f.captionQueue == [] then [] else f.captionQueue[1..])
        && g.counters == (if f.captionQueue == [] then c
                          else if turn == Sent(true, true) then c.(captionForwarded := c.captionForwarded + |f.captionQueue[0]|)
                          else if turn == Sent(false, true) then c.(captionErrors := c.captionErrors + 1) else c)
  {
  }
}
