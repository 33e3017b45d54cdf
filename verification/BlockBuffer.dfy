/** Moving received messages into the download queue. */
module BlockBuffer {
  import opened SyncTypes
  import opened BlockQueues

  /** The blocks of one message that decode and are newer than `n`. */
  function Newer(shard: Shard, n: int): BlockQueue {
    if shard == [] then multiset{}
    else
      var front := Newer(shard[..|shard| - 1], n);
      match shard[|shard| - 1]
      case None => front
      case Some(b) => if b.number <= n then front else front + multiset{b}
  }

  function NewerAll(shards: seq<Shard>, n: int): BlockQueue {
    if shards == [] then multiset{}
    else NewerAll(shards[..|shards| - 1], n) + Newer(shards[|shards| - 1], n)
  }

  /** How many messages a flush accepts: it stops at the first one that finds `limit` blocks queued. */
  function Accepted(buffer: seq<Shard>, blocks: BlockQueue, n: int, limit: nat): (k: nat)
    ensures k <= |buffer|
    decreases |buffer|
  {
    if buffer == [] || |blocks| >= limit then 0
    else 1 + Accepted(buffer[1..], blocks + Newer(buffer[0], n), n, limit)
  }

  /** The message that finds the queue full is popped and lost; the ones behind it stay. */
  function BufferAfter(buffer: seq<Shard>, blocks: BlockQueue, n: int, limit: nat): seq<Shard> {
    var k := Accepted(buffer, blocks, n, limit);
    if k == |buffer| then [] else buffer[k + 1..]
  }

  function BlocksAfter(buffer: seq<Shard>, blocks: BlockQueue, n: int, limit: nat): BlockQueue {
    blocks + NewerAll(buffer[..Accepted(buffer, blocks, n, limit)], n)
  }

  lemma NewerAbove(shard: Shard, n: int)
    ensures forall b: Block :: b in Newer(shard, n) ==> b.number > n && Some(b) in shard
    ensures |Newer(shard, n)| <= |shard|
  {
  }

  lemma {:induction false} NewerAllAbove(shards: seq<Shard>, n: int)
    ensures forall b: Block :: b in NewerAll(shards, n) ==> b.number > n
  {
    if shards != [] {
      NewerAllAbove(shards[..|shards| - 1], n);
      NewerAbove(shards[|shards| - 1], n);
    }
  }

  lemma {:induction false} NewerAllSplit(a: seq<Shard>, b: seq<Shard>, n: int)
    ensures NewerAll(a + b, n) == NewerAll(a, n) + NewerAll(b, n)
  {
    if b == [] {
      assert a + b == a;
    } else {
      var front := b[..|b| - 1];
      assert (a + b)[..|a + b| - 1] == a + front;
      NewerAllSplit(a, front, n);
    }
  }

  /** How many blocks are queued once the first `i` messages are in. */
  function Queued(buffer: seq<Shard>, blocks: BlockQueue, n: int, i: nat): nat
    requires i <= |buffer|
  {
    |blocks + NewerAll(buffer[..i], n)|
  }

  lemma QueuedNone(buffer: seq<Shard>, blocks: BlockQueue, n: int)
    ensures Queued(buffer, blocks, n, 0) == |blocks|
  {
    assert blocks + NewerAll(buffer[..0], n) == blocks;
  }

  lemma QueuedNext(buffer: seq<Shard>, blocks: BlockQueue, n: int, i: nat)
    requires i < |buffer|
    ensures Queued(buffer, blocks, n, i + 1) <= Queued(buffer, blocks, n, i) + |buffer[i]|
  {
    assert buffer[..i + 1][..i] == buffer[..i];
    NewerAbove(buffer[i], n);
  }

  lemma QueuedShift(buffer: seq<Shard>, blocks: BlockQueue, n: int, i: nat)
    requires i < |buffer|
    ensures Queued(buffer, blocks, n, i + 1) == Queued(buffer[1..], blocks + Newer(buffer[0], n), n, i)
  {
    assert buffer[..i + 1] == [buffer[0]] + buffer[1..][..i];
    NewerAllSplit([buffer[0]], buffer[1..][..i], n);
    assert NewerAll([buffer[0]], n) == Newer(buffer[0], n);
    assert blocks + NewerAll(buffer[..i + 1], n) == blocks + Newer(buffer[0], n) + NewerAll(buffer[1..][..i], n);
  }

  /** A flush accepts the messages before the first one that finds the queue full. */
  lemma {:induction false} AcceptedIsFirstFull(buffer: seq<Shard>, blocks: BlockQueue, n: int, limit: nat)
    ensures var k := Accepted(buffer, blocks, n, limit);
      && (forall i :: 0 <= i < k ==> Queued(buffer, blocks, n, i) < limit)
      && (k < |buffer| ==> Queued(buffer, blocks, n, k) >= limit)
    decreases |buffer|
  {
    QueuedNone(buffer, blocks, n);
    if buffer != [] && |blocks| < limit {
      var rest, blocks' := buffer[1..], blocks + Newer(buffer[0], n);
      AcceptedIsFirstFull(rest, blocks', n, limit);
      var k := Accepted(rest, blocks', n, limit);
      forall i | 0 < i <= k
        ensures Queued(buffer, blocks, n, i) < limit
      {
        QueuedShift(buffer, blocks, n, i - 1);
      }
      if k < |rest| {
        QueuedShift(buffer, blocks, n, k);
      }
    }
  }

  /** However full the buffer, the queue overshoots its limit by less than one message. */
  lemma FlushCapacity(buffer: seq<Shard>, blocks: BlockQueue, n: int, limit: nat, largest: nat)
    requires forall i :: 0 <= i < |buffer| ==> |buffer[i]| <= largest
    ensures |BlocksAfter(buffer, blocks, n, limit)| <= Max(|blocks|, limit + largest - 1)
    ensures |BufferAfter(buffer, blocks, n, limit)| <= |buffer|
  {
    var k := Accepted(buffer, blocks, n, limit);
    AcceptedIsFirstFull(buffer, blocks, n, limit);
    if k > 0 {
      QueuedNext(buffer, blocks, n, k - 1);
    } else {
      QueuedNone(buffer, blocks, n);
    }
  }

  /** One message into the queue, refused as a whole when the queue is full. */
  method FlushOneShard(shard: Shard, blocks: BlockQueue, n: int, limit: nat) returns (after: BlockQueue, ok: bool)
    ensures ok <==> |blocks| < limit
    ensures after == if ok then blocks + Newer(shard, n) else blocks
  {
    after := blocks;
    if |blocks| >= limit {
      return after, false;
    }
    for i := 0 to |shard|
      invariant after == blocks + Newer(shard[..i], n)
    {
      assert shard[..i + 1][..i] == shard[..i];
      if shard[i].Some? && shard[i].value.number > n {
        after := after + multiset{shard[i].value};
      }
    }
    assert shard[..|shard|] == shard;
    ok := true;
  }

  /** A flush, taken message by message. */
  lemma FlushNext(buffer: seq<Shard>, blocks: BlockQueue, n: int, limit: nat)
    requires buffer != []
    ensures var more := blocks + Newer(buffer[0], n);
      if |blocks| < limit
      then BufferAfter(buffer, blocks, n, limit) == BufferAfter(buffer[1..], more, n, limit)
           && BlocksAfter(buffer, blocks, n, limit) == BlocksAfter(buffer[1..], more, n, limit)
      else BufferAfter(buffer, blocks, n, limit) == buffer[1..] && BlocksAfter(buffer, blocks, n, limit) == blocks
  {
    if |blocks| < limit {
      var k := Accepted(buffer[1..], blocks + Newer(buffer[0], n), n, limit);
      assert buffer[..k + 1] == [buffer[0]] + buffer[1..][..k];
      NewerAllSplit([buffer[0]], buffer[1..][..k], n);
      assert NewerAll([buffer[0]], n) == Newer(buffer[0], n);
    }
  }

  method FlushBuffer(buffer: seq<Shard>, blocks: BlockQueue, n: int, limit: nat)
    returns (rest: seq<Shard>, after: BlockQueue)
    ensures rest == BufferAfter(buffer, blocks, n, limit)
    ensures after == BlocksAfter(buffer, blocks, n, limit)
  {
    rest, after := buffer, blocks;
    var ok := true;
    while |rest| > 0 && ok
      invariant if ok
        then BufferAfter(buffer, blocks, n, limit) == BufferAfter(rest, after, n, limit)
             && BlocksAfter(buffer, blocks, n, limit) == BlocksAfter(rest, after, n, limit)
        else rest == BufferAfter(buffer, blocks, n, limit) && after == BlocksAfter(buffer, blocks, n, limit)
      decreases |rest|
    {
      FlushNext(rest, after, n, limit);
      hide BufferAfter, BlocksAfter;
      var shard := rest[0];
      rest := rest[1..];
      after, ok := FlushOneShard(shard, after, n, limit);
    }
  }
}
