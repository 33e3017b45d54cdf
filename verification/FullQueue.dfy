/** What a flush does to a download queue that is full, or more than full. */
module FullQueue {
  import opened SyncTypes
  import opened SyncConfig
  import opened BlockQueues
  import opened BlockBuffer
  import opened PeerTracking
  import opened SyncProtocol
  import opened SyncInvariants
  import opened StepEffects
  import opened SyncRuns
  import opened RequestLaws
  import opened QueueLaws

  // ---- what a message brings ----

  /** Of a message exactly the entries that decode and are newer count, wherever they stand in it. */
  lemma {:induction false} NewerIs(shard: Shard, n: int, b: Block)
    ensures Newer(shard, n)[b] == if b.number > n then multiset(shard)[Some(b)] else 0
  {
    if shard != [] {
      var front, last := shard[..|shard| - 1], shard[|shard| - 1];
      assert shard == front + [last];
      NewerIs(front, n, b);
    }
  }

  // ---- the next block arrives ----

  lemma {:induction false} FlushKeepsQueued(buffer: seq<Shard>, blocks: BlockQueue, n: int, limit: nat)
    ensures blocks <= BlocksAfter(buffer, blocks, n, limit)
  {
  }

  lemma FirstIsQueued(buffer: seq<Shard>, blocks: BlockQueue, n: int, limit: nat, b: Block)
    requires buffer != [] && buffer[0] == [Some(b)] && b.number > n && |blocks| < limit
    ensures b in BlocksAfter(buffer, blocks, n, limit)
  {
    FlushNext(buffer, blocks, n, limit);
    NewerIs(buffer[0], n, b);
    FlushKeepsQueued(buffer[1..], blocks + Newer(buffer[0], n), n, limit);
    hide Newer, BlocksAfter;
    assert multiset(buffer[0])[Some(b)] == 1;
    assert b in Newer(buffer[0], n);
  }

  /** The whole flush of a node that is behind. A queue that is exactly full and lacks the next block starts
      over empty. Then the messages are taken in order, each with all it brings, until one finds the queue full:
      that one is lost, and the ones behind it stay. */
  lemma FlushLaw(s: State) returns (start: BlockQueue, k: nat)
    requires Inv(s) && Behind(s.cfg)
    ensures start == if |s.blocks| == s.p.maxQueue > 0 && !Holds(s.blocks, s.cfg.blockNumber + 1) then multiset{} else s.blocks
    ensures k <= |s.buffer|
    ensures forall i :: 0 <= i < k ==> |start + NewerAll(s.buffer[..i], s.cfg.blockNumber)| < s.p.maxQueue
    ensures k < |s.buffer| ==> |start + NewerAll(s.buffer[..k], s.cfg.blockNumber)| >= s.p.maxQueue
    ensures RunMaintainBuffer(s) == s.(buffer := if k < |s.buffer| then s.buffer[k + 1..] else [],
                                       blocks := start + NewerAll(s.buffer[..k], s.cfg.blockNumber))
  {
    var n, limit := s.cfg.blockNumber, s.p.maxQueue;
    start := FlushStart(s);
    hide Inv, RunMaintainBuffer;
    k := Accepted(s.buffer, start, n, limit);
    TakenUntilFull(s.buffer, start, n, limit);
  }

  lemma TakenUntilFull(buffer: seq<Shard>, blocks: BlockQueue, n: int, limit: nat)
    ensures var k := Accepted(buffer, blocks, n, limit);
      && (forall i :: 0 <= i < k ==> |blocks + NewerAll(buffer[..i], n)| < limit)
      && (k < |buffer| ==> |blocks + NewerAll(buffer[..k], n)| >= limit)
  {
    AcceptedIsFirstFull(buffer, blocks, n, limit);
    var k := Accepted(buffer, blocks, n, limit);
    forall i | 0 <= i < k
      ensures |blocks + NewerAll(buffer[..i], n)| < limit
    {
      assert Queued(buffer, blocks, n, i) < limit;
    }
  }

  lemma FlushStart(s: State) returns (start: BlockQueue)
    requires Inv(s) && Behind(s.cfg)
    ensures start == if |s.blocks| == s.p.maxQueue > 0 && !Holds(s.blocks, s.cfg.blockNumber + 1) then multiset{} else s.blocks
    ensures RunMaintainBuffer(s) == s.(buffer := BufferAfter(s.buffer, start, s.cfg.blockNumber, s.p.maxQueue),
                                       blocks := BlocksAfter(s.buffer, start, s.cfg.blockNumber, s.p.maxQueue))
  {
    var n, limit := s.cfg.blockNumber, s.p.maxQueue;
    assert NumbersAbove(s.blocks, n) && s.cfg.nextBlock == n + 1;
    hide Inv;
    if |s.blocks| > 0 {
      TopIsHeld(s.blocks, n);
    } else {
      assert s.blocks == multiset{};
    }
    hide TopNumber, Holds, NumbersAbove;
    start := if |s.blocks| == limit > 0 && !Holds(s.blocks, n + 1) then multiset{} else s.blocks;
    NothingToFlush(n, limit);
    hide BufferAfter, BlocksAfter;
    assert |s.buffer| == 0 ==> s.buffer == [];
  }

  lemma NothingToFlush(n: int, limit: nat)
    ensures BufferAfter([], multiset{}, n, limit) == [] && BlocksAfter([], multiset{}, n, limit) == multiset{}
  {
  }

  /** A flush with the next block in front: the download queue holds that block afterwards if and only if it
      held it before or was not beyond its limit. A queue filled exactly to the limit makes room for it. */
  lemma NextIsQueued(s: State, b: Block)
    requires Inv(s) && Behind(s.cfg) && s.p.maxQueue > 0
    requires s.buffer != [] && s.buffer[0] == [Some(b)] && b.number == s.cfg.blockNumber + 1
    ensures var t := RunMaintainBuffer(s);
      Holds(t.blocks, b.number) <==> Holds(s.blocks, b.number) || |s.blocks| <= s.p.maxQueue
  {
    var n, limit := s.cfg.blockNumber, s.p.maxQueue;
    assert NumbersAbove(s.blocks, n) && s.cfg.nextBlock == n + 1;
    hide Inv, BlocksAfter, BufferAfter;
    if |s.blocks| > 0 {
      TopIsHeld(s.blocks, n);
    }
    hide TopNumber;
    if |s.blocks| > limit {
      FullRefuses(s.buffer, s.blocks, n, limit);
    } else if |s.blocks| < limit {
      FirstIsQueued(s.buffer, s.blocks, n, limit, b);
    } else if Holds(s.blocks, n + 1) {
      FlushKeepsQueued(s.buffer, s.blocks, n, limit);
    } else {
      FirstIsQueued(s.buffer, multiset{}, n, limit, b);
    }
  }

  lemma FullRefuses(buffer: seq<Shard>, blocks: BlockQueue, n: int, limit: nat)
    requires |blocks| >= limit
    ensures BlocksAfter(buffer, blocks, n, limit) == blocks
    ensures BufferAfter(buffer, blocks, n, limit) == if buffer == [] then [] else buffer[1..]
  {
    assert blocks + multiset{} == blocks;
  }

  // ---- a queue beyond its limit ----

  /** More blocks are queued than the limit allows, none of them is the next one, and nothing is under way. */
  ghost predicate Jammed(s: State) {
    && |s.blocks| > s.p.maxQueue && NumbersAbove(s.blocks, s.cfg.blockNumber + 1)
    && s.cfg.executed == s.cfg.blockNumber
    && s.commitQueue == s.executing == s.checking == s.storing == s.committing == multiset{}
  }

  lemma JammedFlush(s: State)
    requires Jammed(s) && Behind(s.cfg)
    ensures RunMaintainBuffer(s) == s.(buffer := if s.buffer == [] then [] else s.buffer[1..])
  {
    hide TopNumber, BlocksAfter, BufferAfter;
    FullRefuses(s.buffer, s.blocks, s.cfg.blockNumber, s.p.maxQueue);
  }

  lemma JammedQueue(s: State, pick: Option<Block>, next: Option<Block>)
    requires Inv(s) && Jammed(s) && Behind(s.cfg) && Enabled(s, MaintainQueue(pick, next))
    ensures RunMaintainQueue(s, pick, next) == s
  {
    hide Inv, Enabled, RunMaintainQueue;
    var n, t := s.cfg.blockNumber, RunMaintainQueue(s, pick, next);
    QueueLaw(s, pick, next);
    assert After(s, MaintainQueue(pick, next)) == t;
    hide After;
    assert !Holds(s.blocks, n + 1) && !Holds(s.commitQueue, n + 1);
    AllAbove(s.blocks, n, t.blocks);
    AllAbove(s.commitQueue, n, t.commitQueue);
  }

  lemma AllAbove(q: BlockQueue, n: int, r: BlockQueue)
    requires NumbersAbove(q, n) && IsAbove(q, n, r)
    ensures r == q
  {
    assert forall c: Block :: q[c] > 0 ==> c in q;
    assert forall c: Block :: r[c] == q[c];
  }

  /** The source clears a queue that is exactly full, not one that is fuller: a jammed queue stays as it is
      through every flush, worker round, request, message and timeout, and every message that brings the
      missing block is popped and lost. */
  lemma JammedStep(s: State, step: Step, t: State)
    requires Inv(s) && Jammed(s) && Behind(s.cfg) && IsStep(s, step, t)
    requires step.NewBlock? ==> step.number <= s.cfg.blockNumber
    ensures Jammed(t) && t.blocks == s.blocks && t.cfg.blockNumber == s.cfg.blockNumber
  {
    if step.MaintainQueue? {
      JammedQueue(s, step.pick, step.next);
    } else if step.MaintainBuffer? {
      JammedFlush(s);
    } else if step.NewBlock? {
      NewBlockLaw(s, step.number, step.hash, step.pick);
    } else {
      JammedRest(s, step);
    }
    hide After, Enabled, Inv;
  }

  lemma JammedRest(s: State, step: Step)
    requires Jammed(s) && Enabled(s, step) && !step.MaintainQueue? && !step.MaintainBuffer? && !step.NewBlock?
    ensures var t := After(s, step);
      && t.p == s.p && t.blocks == s.blocks && t.cfg.blockNumber == s.cfg.blockNumber && t.cfg.executed == s.cfg.executed
      && t.commitQueue == s.commitQueue && t.executing == s.executing && t.checking == s.checking
      && t.storing == s.storing && t.committing == s.committing
  {
    hide NumbersAbove, BatchShards, BatchEnd, RequestTo, WithStaying;
    WithStayingKeeps(s, step);
  }

  lemma WithStayingKeeps(s: State, step: Step)
    ensures step.MaintainPeers? ==> WithStaying(s, step.view) == s.(peers := WithStaying(s, step.view).peers)
  {
  }

  /** Over every run: as long as the node stays behind and no block comes from outside, it stays jammed. */
  lemma {:induction false} JammedForGood(r: Run, i: nat, k: nat)
    requires IsRun(r) && i <= k <= |r.steps| && Jammed(r.states[i])
    requires forall l :: i <= l < k ==> Behind(r.states[l].cfg)
    requires forall l :: i <= l < k && r.steps[l].NewBlock? ==> r.steps[l].number <= r.states[l].cfg.blockNumber
    ensures Jammed(r.states[k]) && r.states[k].cfg.blockNumber == r.states[i].cfg.blockNumber
    decreases k
  {
    hide Inv, Effect, Initial, IsStep, Jammed;
    if i < k {
      JammedForGood(r, i, k - 1);
      RunStep(r, k - 1);
      JammedStep(r.states[k - 1], r.steps[k - 1], r.states[k]);
    }
  }

  // ---- a run that jams the queue ----

  const P := Params(1, 8, 2, 10)
  const B2 := Block(2, 12, 0)
  const B3 := Block(3, 13, 0)
  const PEER := NodeId(1)
  const NEWS := Status(5, 15, 7)

  function At(known: int, buffer: seq<Shard>, blocks: BlockQueue): State {
    State(P, NodeId(0), Config(0, 1, 0, known, 0, 7, if known == 0 then 7 else 15, 7),
          if known == 0 then map[] else map[PEER := NEWS], buffer, blocks,
          multiset{}, multiset{}, multiset{}, multiset{}, multiset{}, Idle, 0)
  }

  lemma JamMessage(shard: Shard)
    requires shard == [Some(B2), Some(B3)]
    ensures Newer(shard, 0) == multiset{B2, B3}
  {
    var front := [Some(B2)];
    assert shard[..1] == front && front[..0] == [];
    assert Newer(front, 0) == Newer([], 0) + multiset{B2};
    assert Newer(shard, 0) == Newer(front, 0) + multiset{B3};
  }

  lemma JamBlocks(buffer: seq<Shard>)
    requires buffer == [[Some(B2), Some(B3)]]
    ensures BlocksAfter(buffer, multiset{}, 0, 1) == multiset{B2, B3} && BufferAfter(buffer, multiset{}, 0, 1) == []
  {
    hide Newer, BlocksAfter, BufferAfter;
    JamMessage(buffer[0]);
    FlushNext(buffer, multiset{}, 0, 1);
    assert buffer[1..] == [] && multiset{} + multiset{B2, B3} == multiset{B2, B3};
    FullRefuses([], multiset{B2, B3}, 0, 1);
  }

  lemma JamFlush()
    ensures IsStep(At(5, [[Some(B2), Some(B3)]], multiset{}), MaintainBuffer, At(5, [], multiset{B2, B3}))
  {
    hide BlocksAfter, BufferAfter, TopNumber;
    JamBlocks([[Some(B2), Some(B3)]]);
  }

  /** One message with two blocks beyond the next one is enough when the limit is one. */
  lemma QueueJams() returns (r: Run)
    ensures IsRun(r) && Jammed(r.states[|r.steps|]) && Behind(r.states[|r.steps|].cfg)
  {
    var s0, s1 := At(0, [], multiset{}), At(5, [], multiset{});
    var s2, s3 := At(5, [[Some(B2), Some(B3)]], multiset{}), At(5, [], multiset{B2, B3});
    r := Run([s0, s1, s2, s3], [ReceiveStatus(PEER, NEWS, true), ReceiveBlocks([Some(B2), Some(B3)]), MaintainBuffer]);
    JamFlush();
    JamStarts();
    hide IsStep, Initial;
  }

  lemma JamStarts()
    ensures Initial(At(0, [], multiset{}))
    ensures IsStep(At(0, [], multiset{}), ReceiveStatus(PEER, NEWS, true), At(5, [], multiset{}))
    ensures IsStep(At(5, [], multiset{}), ReceiveBlocks([Some(B2), Some(B3)]), At(5, [[Some(B2), Some(B3)]], multiset{}))
  {
    assert At(0, [], multiset{}).cfg == ResetConfig(SetGenesis(FRESH, 7), 0, 7);
  }
}
