/** internal/audioforward/queue.go: the bounded single-consumer queue that owns copies of its batches. */
module BatchQueue {
  import opened JobTypes

  /** The payload is a slice: two packets may share the array that holds their bytes. */
  datatype OpusPacket = OpusPacket(ssrc: nat, userID: Id, sequence: nat, timestamp: nat, receivedAt: int, opus: array<bv8>)

  /** What a packet says, apart from where its bytes are stored. */
  datatype Content = Content(ssrc: nat, userID: Id, sequence: nat, timestamp: nat, receivedAt: int, bytes: seq<bv8>)

  ghost function ContentOf(p: OpusPacket): Content
    reads p.opus
  {
    Content(p.ssrc, p.userID, p.sequence, p.timestamp, p.receivedAt, p.opus[..])
  }

  ghost function Buffers(packets: seq<OpusPacket>): set<object> {
    set i | 0 <= i < |packets| :: packets[i].opus as object
  }

  ghost function Contents(packets: seq<OpusPacket>): (cs: seq<Content>)
    reads Buffers(packets)
    ensures |cs| == |packets|
    ensures forall i :: 0 <= i < |packets| ==> cs[i] == ContentOf(packets[i])
  {
    seq(|packets|, i requires 0 <= i < |packets| reads Buffers(packets) => ContentOf(packets[i]))
  }

  /** How one turn of the consumer's loop ended. */
  datatype Turn = Idle | Canceled | Dropped(batch: seq<OpusPacket>) | Sent(batch: seq<OpusPacket>, reported: bool)

  class BatchQueue {
    const capacity: nat
    var batches: seq<seq<OpusPacket>>
    ghost var owned: set<object>

    /** Every byte the queue holds is in an array of its own. */
    ghost predicate Valid()
      reads this
    {
      && this !in owned
      && 1 <= capacity && |batches| <= capacity
      && (forall i | 0 <= i < |batches| :: batches[i] != [] && Buffers(batches[i]) <= owned)
    }

    ghost function Queued(): (q: seq<seq<Content>>)
      requires Valid()
      reads this, owned
      ensures |q| == |batches|
      ensures forall i :: 0 <= i < |batches| ==> q[i] == Contents(batches[i])
    {
      seq(|batches|, i requires 0 <= i < |batches| && Valid() reads this, owned => Contents(batches[i]))
    }

    constructor (size: int)
      ensures Valid() && batches == [] && owned == {}
      ensures capacity == if size < 1 then 1 else size
    {
      capacity := if size < 1 then 1 else size;
      batches := [];
      owned := {};
    }

    /**
     * The batch is copied down to its bytes before the channel is tried, so nothing the caller
     * writes later to `batch` or to its payload arrays is seen by the consumer.
     */
    method Enqueue(batch: array<OpusPacket>) returns (accepted: bool)
      requires Valid()
      modifies this
      ensures Valid() && fresh(owned - old(owned)) && old(owned) <= owned
      ensures accepted <==> batch.Length > 0 && |old(batches)| < capacity
      ensures Queued() == if accepted then old(Queued()) + [old(Contents(batch[..]))] else old(Queued())
    {
      if batch.Length == 0 {
        return false;
      }
      var copy: seq<OpusPacket> := [];
      ghost var copies: set<object> := {};
      for i := 0 to batch.Length
        modifies {}
        invariant |copy| == i
        invariant fresh(copies) && Buffers(copy) <= copies
        invariant forall j :: 0 <= j < i ==> ContentOf(copy[j]) == old(ContentOf(batch[j]))
      {
        var packet := batch[i];
        var bytes := new bv8[packet.opus.Length];
        for k := 0 to packet.opus.Length
          modifies bytes
          invariant bytes[..k] == packet.opus[..k]
        {
          bytes[k] := packet.opus[k];
        }
        assert packet.opus[..] == old(batch[i].opus[..]);
        copies := copies + {bytes};
        copy := copy + [packet.(opus := bytes)];
      }
      if |batches| >= capacity {
        return false;
      }
      batches := batches + [copy];
      owned := owned + copies;
      accepted := true;
      assert Contents(copy) == old(Contents(batch[..]));
    }

    /**
     * One turn of Run's loop. `done` is what the select chose when the context was already over,
     * the other flags are the two later looks at the context.
     */
    method RunTurn(done: bool, canceledBeforeSend: bool, canceledDuringSend: bool) returns (turn: Turn)
      requires Valid()
      modifies this
      ensures Valid() && owned == old(owned)
      ensures turn.Idle? || turn.Canceled? ==> Queued() == old(Queued())
      ensures turn.Idle? <==> !done && old(batches) == []
      ensures turn.Canceled? <==> done
      ensures turn.Dropped? || turn.Sent? ==> [Contents(turn.batch)] + Queued() == old(Queued())
      ensures turn.Dropped? ==> canceledBeforeSend
      ensures turn.Sent? ==> !canceledBeforeSend && (turn.reported <==> !canceledDuringSend)
    {
      if done { return Canceled; }
      if |batches| == 0 { return Idle; }
      var batch := batches[0];
      batches := batches[1..];
      assert forall i :: 0 <= i < |batches| ==> batches[i] == old(batches)[i + 1];
      if canceledBeforeSend { return Dropped(batch); }
      turn := Sent(batch, !canceledDuringSend);
    }
  }
}
