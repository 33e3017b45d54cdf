/** What the worker's own part of a round does to the pipeline, and to what is left to do. */
module WorkerRound {
  import opened SyncTypes
  import opened BlockQueues
  import opened BlockBuffer
  import opened RequestPlanner
  import opened SyncProtocol
  import opened SyncInvariants
  import opened Convergence
  import opened Delivery
  import opened Pipeline

  // ---- the measure ----

  /** Of the next block to execute: 2 when it has not been asked for, 1 while it is on its way, 0 when it is
      here. */
  ghost function Phase(chain: Chain, w: World): int {
    var f := Frontier(w.s);
    if w.s.maxRequest <= f then 2 else if chain(f + 1) in w.replies then 1 else 0
  }

  /** What is left to do until every block up to `top` is committed. */
  ghost function Left(chain: Chain, w: World, top: int): int {
    var f := Frontier(w.s);
    Pending(w.s) + if f < top then 9 * (top - f) - 2 + Phase(chain, w) else 0
  }

  lemma LeftIsPositive(chain: Chain, w: World, top: int, spare: nat)
    requires IsChain(chain) && Flow(chain, w, top, spare)
    ensures Left(chain, w, top) >= 0
    ensures w.s.cfg.blockNumber < top ==> Left(chain, w, top) > 0
  {
    hide Complete, Content, Clean, NumbersAbove, NumbersIn, Span, Capacity, Surroundings;
    var s := w.s;
    assert s.cfg.knownHighest == top by { TopIsKnown(s, top, spare); }
    assert s.cfg.blockNumber < s.cfg.executed ==> s.checking != multiset{} || s.storing + s.committing != multiset{};
  }

  lemma TopIsKnown(s: State, top: int, spare: nat)
    requires Surroundings(s, top, spare)
    ensures s.cfg.knownHighest == top && s.cfg.proposal < top && s.p.waterMark > 0 && s.p.maxRequestBlocks > 0
    ensures 0 < Capacity(s) <= s.p.maxQueue - spare
  {
    var e, k := |Eligible(s.peers, top)|, s.p.maxShardPerPeer;
    MulMono(1, e, k);
    MulMono(1, e * k, s.p.maxRequestBlocks);
  }

  lemma ArrivalLeft(chain: Chain, w: World, v: World, top: int)
    requires Arrival(w, v)
    ensures Left(chain, v, top) - Left(chain, w, top) <= Pending(v.s) - Pending(w.s)
  {
    hide Pending;
  }

  // ---- between two parts of a round ----

  lemma ReplyPending(w: World, v: World)
    requires Reply(w, v)
    ensures Pending(v.s) == Pending(w.s)
  {
  }

  lemma StepLeft(chain: Chain, w: World, v: World, top: int, spare: nat)
    requires IsChain(chain) && Flow(chain, w, top, spare) && EnvStep(w, v)
    ensures Flow(chain, v, top, spare) && Arrival(w, v)
    ensures Left(chain, v, top) <= Left(chain, w, top) && Pending(v.s) <= Pending(w.s)
    ensures Callback(w, v) ==> Left(chain, v, top) < Left(chain, w, top)
  {
    hide Flow, Pending, Left, Arrival, Delivers, Reply;
    ArrivalFlows(chain, w, v, top, spare);
    ArrivalLeft(chain, w, v, top);
    if Callback(w, v) {
      var step :| Delivers(w, step, v);
      CallbackWork(w, step, v);
    } else {
      ReplyPending(w, v);
    }
  }

  lemma ArrivalTrans(u: World, v: World, w: World)
    requires Arrival(u, v) && Arrival(v, w)
    ensures Arrival(u, w)
  {
  }

  lemma ArrivalRefl(w: World)
    ensures Arrival(w, w)
  {
  }

  /** Any number of arrivals keep the pipeline in order and add nothing to what is left; a callback among
      them takes something away. */
  lemma {:induction false} ArrivalsFlow(chain: Chain, ws: seq<World>, top: int, spare: nat, i: nat)
    requires IsChain(chain) && EnvRun(ws) && i < |ws| && Flow(chain, ws[0], top, spare)
    ensures Flow(chain, ws[i], top, spare) && Arrival(ws[0], ws[i])
    ensures Left(chain, ws[i], top) <= Left(chain, ws[0], top) && Pending(ws[i].s) <= Pending(ws[0].s)
    ensures (exists k :: 0 <= k < i && Callback(ws[k], ws[k + 1])) ==> Left(chain, ws[i], top) < Left(chain, ws[0], top)
  {
    hide Flow, Left, Arrival, EnvStep, Callback, Pending;
    if i == 0 {
      ArrivalRefl(ws[0]);
    } else {
      ArrivalsFlow(chain, ws, top, spare, i - 1);
      StepLeft(chain, ws[i - 1], ws[i], top, spare);
      ArrivalTrans(ws[0], ws[i - 1], ws[i]);
      if k :| 0 <= k < i && Callback(ws[k], ws[k + 1]) {
        assert k < i - 1 || Callback(ws[i - 1], ws[i]);
      }
    }
  }

  // ---- flush ----

  lemma {:induction false} NewerAllIsAbove(buffer: seq<Shard>, n: int)
    requires Clean(buffer) && n >= 0
    ensures NewerAll(buffer, n) == Above(NewerAll(buffer, 0), n)
    ensures |NewerAll(buffer, n)| <= |buffer|
  {
    if buffer == [] {
      AboveKeepsAll(multiset{}, n);
    } else {
      var front, shard := buffer[..|buffer| - 1], buffer[|buffer| - 1];
      NewerAllIsAbove(front, n);
      assert shard[..0] == [];
      AboveOfSum(NewerAll(front, 0), Newer(shard, 0), n);
      assert Above(Newer(shard, 0), n) == Newer(shard, n);
    }
  }

  /** A buffer that fits is accepted whole. */
  lemma AllAccepted(buffer: seq<Shard>, blocks: BlockQueue, n: int, limit: nat)
    requires Clean(buffer) && n >= 0 && |buffer| + |blocks| <= limit
    ensures BufferAfter(buffer, blocks, n, limit) == []
    ensures BlocksAfter(buffer, blocks, n, limit) == blocks + NewerAll(buffer, n)
  {
    var k := Accepted(buffer, blocks, n, limit);
    AcceptedIsFirstFull(buffer, blocks, n, limit);
    NewerAllIsAbove(buffer[..k], n);
    assert Queued(buffer, blocks, n, k) <= |blocks| + k;
    assert buffer[..|buffer|] == buffer;
  }

  lemma FlushShape(s: State)
    requires ShouldSync(s.cfg) && Clean(s.buffer) && s.cfg.blockNumber >= 0
    requires |s.buffer| + |s.blocks| <= s.p.maxQueue && |s.blocks| < s.p.maxQueue
    ensures RunMaintainBuffer(s) == s.(buffer := [], blocks := s.blocks + NewerAll(s.buffer, s.cfg.blockNumber))
  {
    AllAccepted(s.buffer, s.blocks, s.cfg.blockNumber, s.p.maxQueue);
    hide NewerAll, BufferAfter, BlocksAfter, TopNumber;
    assert NewerAll([], s.cfg.blockNumber) == multiset{};
  }

  /** The flushed blocks that are not executed yet, in front of those queued before. */
  ghost function Ready(buffer: seq<Shard>, blocks: BlockQueue, e: int): BlockQueue {
    blocks + Above(NewerAll(buffer, 0), e)
  }

  lemma ReadyIsAbove(buffer: seq<Shard>, blocks: BlockQueue, n: int, e: int)
    requires Clean(buffer) && 0 <= n <= e && NumbersAbove(blocks, e)
    ensures Above(blocks + NewerAll(buffer, n), e) == Ready(buffer, blocks, e)
    ensures NumbersAbove(Ready(buffer, blocks, e), e) && |Ready(buffer, blocks, e)| <= |blocks| + |buffer|
  {
    NewerAllIsAbove(buffer, n);
    NewerAllIsAbove(buffer, e);
    AboveOfSum(blocks, NewerAll(buffer, n), e);
    AboveKeepsAll(blocks, e);
    AboveTwice(NewerAll(buffer, 0), n, e);
    hide NewerAll, Above;
  }

  lemma ReadyIsComplete(chain: Chain, e: int, f: int, m: int, buffer: seq<Shard>, blocks: BlockQueue,
                        replies: multiset<Block>)
    requires IsChain(chain) && NumbersAbove(blocks, e) && Complete(chain, e, f, m, Content(buffer, blocks, replies))
    ensures Complete(chain, e, f, m, Content([], Ready(buffer, blocks, e), replies))
    ensures Ready(buffer, blocks, e) + Above(replies, e) == Span(chain, f, m)
  {
    var q, ready := NewerAll(buffer, 0), Ready(buffer, blocks, e);
    assert NewerAll([], 0) == multiset{};
    hide NewerAll;
    AboveOfParts(q, blocks, replies, e);
    AboveOfParts(multiset{}, ready, replies, e);
  }

  lemma AboveOfParts(q: BlockQueue, blocks: BlockQueue, replies: multiset<Block>, e: int)
    requires NumbersAbove(blocks, e)
    ensures Above(q + blocks + replies, e) == blocks + Above(q, e) + Above(replies, e)
    ensures Above(multiset{}, e) == multiset{} && NumbersAbove(blocks + Above(q, e), e)
  {
    AboveOfSum(q + blocks, replies, e);
    AboveOfSum(q, blocks, e);
    AboveKeepsAll(blocks, e);
    AboveKeepsAll(multiset{}, e);
    assert Above(q, e) + blocks == blocks + Above(q, e);
  }

  // ---- execute ----

  lemma QueueShape(s: State, pick: Option<Block>, next: Option<Block>)
    requires ShouldSync(s.cfg) && Enabled(s, MaintainQueue(pick, next))
    requires s.cfg.nextBlock == s.cfg.blockNumber + 1 && NumbersAbove(s.commitQueue, s.cfg.blockNumber + 1)
    ensures ExecutePick(s, next) && RunMaintainQueue(s, pick, next) == ExecuteNext(s, next)
  {
    hide ExecutePick, ExecuteNext;
    PassTakesNothing(s, pick);
    hide TryCommit, CommitPick;
  }

  lemma NextShape(s: State, next: Option<Block>)
    requires ExecutePick(s, next) && s.cfg.blockNumber <= s.cfg.executed
    ensures var live := Above(s.blocks, s.cfg.executed);
      match next
      case None =>
        && ExecuteNext(s, next) == s.(blocks := live)
        && (s.cfg.executed < s.cfg.blockNumber + s.p.waterMark ==>
              forall b: Block :: b in live ==> !(IsTop(live, b) && b.number == s.cfg.executed + 1))
      case Some(b) =>
        && IsTop(live, b) && b.number == s.cfg.executed + 1
        && ExecuteNext(s, next) ==
           s.(blocks := live - multiset{b}, executing := s.executing + multiset{b}, mode := Downloading)
  {
    var live := Above(s.blocks, s.cfg.executed);
    hide Above;
    if next == None && |live| > 0 {
      assert forall b: Block :: IsTop(live, b) ==> b.number <= TopNumber(live) <= b.number;
    }
  }

  // ---- the worker's part of a round before the request ----

  /** The world once the worker has flushed and dropped what is executed. */
  ghost function Flushed(w: World): World {
    World(w.s.(buffer := [], blocks := Ready(w.s.buffer, w.s.blocks, w.s.cfg.executed)), w.replies)
  }

  /** And once it has handed the next block to execution as well. */
  ghost function Started(chain: Chain, w: World): World {
    var s, b := Flushed(w).s, chain(w.s.cfg.executed + 1);
    World(s.(blocks := s.blocks - multiset{b}, executing := multiset{b}, mode := Downloading), w.replies)
  }

  lemma FlushedSupply(chain: Chain, w: World)
    requires IsChain(chain) && Supply(chain, w) && 0 <= w.s.cfg.blockNumber <= w.s.cfg.executed
    ensures Supply(chain, Flushed(w))
  {
    hide Complete, Content, Ready, NumbersAbove;
    var s, e, ready := w.s, w.s.cfg.executed, Ready(w.s.buffer, w.s.blocks, w.s.cfg.executed);
    assert NumbersAbove(ready, e) && |ready| <= |s.blocks| + |s.buffer| by {
      ReadyIsAbove(s.buffer, s.blocks, s.cfg.blockNumber, e);
    }
    assert Complete(chain, e, Frontier(s), s.maxRequest, Content([], ready, w.replies)) by {
      ReadyIsComplete(chain, e, Frontier(s), s.maxRequest, s.buffer, s.blocks, w.replies);
    }
  }

  lemma RefillFlow(chain: Chain, w: World, v: World, top: int, spare: nat)
    requires IsChain(chain) && Flow(chain, w, top, spare) && Supply(chain, v)
    requires v.s == w.s.(buffer := v.s.buffer, blocks := v.s.blocks, mode := v.s.mode) && v.replies == w.replies
    ensures Flow(chain, v, top, spare)
  {
    hide Surroundings, Capacity, InStages, Supply;
    SurroundingsHold(w.s, v.s, top, spare);
  }

  lemma FlushedFlow(chain: Chain, w: World, top: int, spare: nat)
    requires IsChain(chain) && Flow(chain, w, top, spare)
    ensures Flow(chain, Flushed(w), top, spare)
  {
    FlushedSupply(chain, w) by { hide Surroundings, Stages, Supply; }
    FlushedIs(w);
    hide Flow, Supply, Flushed;
    RefillFlow(chain, w, Flushed(w), top, spare);
  }

  lemma FlushedSlim(chain: Chain, w: World, spare: nat)
    requires IsChain(chain) && Supply(chain, w) && FewStale(w, spare)
    ensures Slim(Flushed(w), spare)
  {
    hide Complete, Content, Ready, Clean;
    var s := w.s;
    ReadyIsComplete(chain, s.cfg.executed, Frontier(s), s.maxRequest, s.buffer, s.blocks, w.replies);
    CardOfSum(Ready(s.buffer, s.blocks, s.cfg.executed), Above(w.replies, s.cfg.executed));
    hide Above, NumbersAbove;
  }

  lemma CardOfSum(q: multiset<Block>, r: multiset<Block>)
    ensures |q + r| == |q| + |r|
  {
  }

  lemma TakenComplete(chain: Chain, e: int, m: int, blocks: BlockQueue, replies: multiset<Block>)
    requires IsChain(chain) && Complete(chain, e, e, m, Content([], blocks, replies)) && chain(e + 1) in blocks
    ensures e < m && Complete(chain, e, e + 1, m, Content([], blocks - multiset{chain(e + 1)}, replies))
  {
    var b := chain(e + 1);
    assert NewerAll([], 0) == multiset{};
    var q, r := multiset{} + blocks + replies, multiset{} + (blocks - multiset{b}) + replies;
    assert q == r + multiset{b};
    AboveWithout(r, b, e);
    SpanTop(chain, e, m) by { assert b in Span(chain, e, m); }
    hide Above, Span;
  }

  lemma AboveWithout(q: BlockQueue, b: Block, e: int)
    requires b.number > e
    ensures Above(q, e) == Above(q + multiset{b}, e) - multiset{b}
    ensures b in Above(q + multiset{b}, e)
  {
    AboveOfSum(q, multiset{b}, e);
    AboveKeepsAll(multiset{b}, e);
  }

  lemma StartedFlow(chain: Chain, w: World, top: int, spare: nat)
    requires IsChain(chain) && Flow(chain, w, top, spare) && Slim(Flushed(w), spare)
    requires w.s.executing == multiset{} && chain(w.s.cfg.executed + 1) in Flushed(w).s.blocks
    ensures Flow(chain, Started(chain, w), top, spare) && Slim(Started(chain, w), spare)
    ensures Frontier(Started(chain, w).s) == Frontier(w.s) + 1 <= w.s.maxRequest
  {
    hide Surroundings, Capacity, InStages, Complete, Content, Flushed;
    FlushedFlow(chain, w, top, spare);
    FlushedIs(w);
    var f := Flushed(w);
    var e := f.s.cfg.executed;
    TakenComplete(chain, e, f.s.maxRequest, f.s.blocks, f.replies);
    TakeOne(f.s.blocks, chain(e + 1));
    SurroundingsHold(f.s, Started(chain, w).s, top, spare);
  }

  lemma FlushedIs(w: World)
    ensures Flushed(w).s == w.s.(buffer := [], blocks := Flushed(w).s.blocks) && Flushed(w).replies == w.replies
  {
  }

  /** What the pipeline says of the state the flush starts from. */
  lemma FlushFits(chain: Chain, w: World, top: int, spare: nat)
    requires IsChain(chain) && Flow(chain, w, top, spare)
    ensures 0 <= w.s.cfg.blockNumber <= w.s.cfg.executed <= top && w.s.cfg.nextBlock == w.s.cfg.blockNumber + 1
    ensures Clean(w.s.buffer) && |w.s.buffer| + |w.s.blocks| <= w.s.p.maxQueue && |w.s.blocks| < w.s.p.maxQueue
    ensures NumbersAbove(w.s.blocks, w.s.cfg.executed)
    ensures ShouldSync(w.s.cfg) <==> w.s.cfg.executed < top
  {
    hide Surroundings, Capacity, InStages, Complete, Content, Clean;
    var s := w.s;
    TopIsKnown(s, top, spare);
    QueueIsAbove(chain, s.cfg.executed, Frontier(s), s.maxRequest, s.buffer, s.blocks, w.replies);
    hide NumbersAbove;
  }

  lemma QueueIsBehind(chain: Chain, w: World, top: int, spare: nat)
    requires IsChain(chain) && Flow(chain, w, top, spare)
    ensures NumbersAbove(w.s.commitQueue, w.s.cfg.blockNumber + 1)
  {
    hide Surroundings, Supply, Counters, InCommit, NumbersIn;
  }

  /** The world with everything in the queue. */
  ghost function Moved(s: State): State {
    s.(buffer := [], blocks := s.blocks + NewerAll(s.buffer, s.cfg.blockNumber))
  }

  lemma WorkerRuns(chain: Chain, w: World, top: int, spare: nat, pick: Option<Block>, next: Option<Block>)
    requires IsChain(chain) && Flow(chain, w, top, spare) && w.s.cfg.executed < top
    requires Enabled(RunMaintainBuffer(w.s), MaintainQueue(pick, next))
    ensures RunMaintainQueue(RunMaintainBuffer(w.s), pick, next) == ExecuteNext(Moved(w.s), next)
    ensures ExecutePick(Moved(w.s), next)
  {
    hide Flow, RunMaintainBuffer, RunMaintainQueue, Enabled, ExecuteNext, ExecutePick, ShouldSync, NumbersAbove, Clean;
    FlushFits(chain, w, top, spare);
    QueueIsBehind(chain, w, top, spare);
    FlushShape(w.s);
    QueueShape(Moved(w.s), pick, next);
  }

  lemma MovedIsReady(chain: Chain, w: World, top: int, spare: nat)
    requires IsChain(chain) && Flow(chain, w, top, spare)
    ensures var s, e := w.s, w.s.cfg.executed;
      var ready := Flushed(w).s.blocks;
      && Flushed(w).s == Moved(s).(blocks := ready) && Above(Moved(s).blocks, e) == ready
      && (chain(e + 1) in ready ==> IsTop(ready, chain(e + 1)))
  {
    hide Flow;
    FlushFits(chain, w, top, spare);
    var s, e := w.s, w.s.cfg.executed;
    ReadyIsAbove(s.buffer, s.blocks, s.cfg.blockNumber, e);
    ReadyTop(chain, Ready(s.buffer, s.blocks, e), e);
    hide Ready, NewerAll, Above, NumbersAbove;
  }

  lemma WorkerShape(chain: Chain, w: World, top: int, spare: nat, pick: Option<Block>, next: Option<Block>)
    requires IsChain(chain) && Flow(chain, w, top, spare) && w.s.cfg.executed < top
    requires Enabled(RunMaintainBuffer(w.s), MaintainQueue(pick, next))
    ensures var s, v := w.s, World(RunMaintainQueue(RunMaintainBuffer(w.s), pick, next), w.replies);
      var f := Flushed(w).s;
      match next
      case None =>
        && v == Flushed(w)
        && (s.cfg.executed < s.cfg.blockNumber + s.p.waterMark ==> chain(s.cfg.executed + 1) !in f.blocks)
      case Some(b) =>
        && b in f.blocks && b.number == s.cfg.executed + 1
        && v.s == f.(blocks := f.blocks - multiset{b}, executing := s.executing + multiset{b}, mode := Downloading)
  {
    hide Flow, RunMaintainBuffer, RunMaintainQueue, Enabled, ExecuteNext, ExecutePick, IsTop, Above, Moved;
    WorkerRuns(chain, w, top, spare, pick, next);
    MovedIsReady(chain, w, top, spare);
    MovedIs(w.s);
    assert w.s.cfg.blockNumber <= w.s.cfg.executed by { FlushFits(chain, w, top, spare); }
    FlushedIs(w);
    hide Flushed;
    NextShape(Moved(w.s), next);
    TopIsIn(Flushed(w).s.blocks);
  }

  lemma MovedIs(s: State)
    ensures Moved(s) == s.(buffer := [], blocks := Moved(s).blocks)
  {
  }

  lemma TopIsIn(q: BlockQueue)
    ensures forall b: Block :: IsTop(q, b) ==> b in q
  {
  }

  lemma ReadyTop(chain: Chain, q: BlockQueue, e: int)
    requires IsChain(chain) && NumbersAbove(q, e)
    ensures chain(e + 1) in q ==> IsTop(q, chain(e + 1))
  {
  }

  /** A block in the queue with the number after the execution point is that of the chain, is not under
      execution, and is not on its way a second time. */
  lemma ReadyIsNext(chain: Chain, w: World, top: int, spare: nat, b: Block)
    requires IsChain(chain) && Flow(chain, w, top, spare) && b in Flushed(w).s.blocks
    requires b.number == w.s.cfg.executed + 1
    ensures b == chain(w.s.cfg.executed + 1) && w.s.executing == multiset{} && b !in w.replies
    ensures w.s.cfg.executed < w.s.maxRequest
  {
    hide Surroundings, Stages, Clean, Capacity;
    var s, e := w.s, w.s.cfg.executed;
    OnceInSpan(chain, Flushed(w).s.blocks, w.replies, e, Frontier(s), s.maxRequest, b) by {
      ReadyIsComplete(chain, e, Frontier(s), s.maxRequest, s.buffer, s.blocks, w.replies);
    }
    hide Complete, Content, NumbersAbove;
  }

  lemma OnceInSpan(chain: Chain, q: BlockQueue, replies: multiset<Block>, e: int, lo: int, hi: int, b: Block)
    requires IsChain(chain) && q + Above(replies, e) == Span(chain, lo, hi) && b in q && b.number > e
    ensures lo < b.number <= hi && b == chain(b.number) && b !in replies
  {
    assert (q + Above(replies, e))[b] == q[b] + Above(replies, e)[b] == 1;
  }

  /** Conversely, what was requested is in the queue or on its way. */
  lemma NextIsSomewhere(chain: Chain, w: World, top: int, spare: nat)
    requires IsChain(chain) && Flow(chain, w, top, spare) && w.s.executing == multiset{}
    ensures w.s.cfg.executed < w.s.maxRequest ==>
              chain(w.s.cfg.executed + 1) in Flushed(w).s.blocks || chain(w.s.cfg.executed + 1) in w.replies
  {
    hide Flow, Supply, Flushed, Above, Span;
    RequestBelowTop(chain, w, top, spare);
    ReadySpan(chain, w);
    if w.s.cfg.executed < w.s.maxRequest {
      SomewhereInSpan(chain, Flushed(w).s.blocks, w.replies, w.s.cfg.executed, w.s.maxRequest);
    }
  }

  lemma ReadySpan(chain: Chain, w: World)
    requires IsChain(chain) && Supply(chain, w)
    ensures Flushed(w).s.blocks + Above(w.replies, w.s.cfg.executed) == Span(chain, Frontier(w.s), w.s.maxRequest)
  {
    hide Complete, Content, Clean, Ready;
    var s := w.s;
    ReadyIsComplete(chain, s.cfg.executed, Frontier(s), s.maxRequest, s.buffer, s.blocks, w.replies);
  }

  lemma SomewhereInSpan(chain: Chain, q: BlockQueue, replies: multiset<Block>, e: int, hi: int)
    requires IsChain(chain) && q + Above(replies, e) == Span(chain, e, hi) && e < hi
    ensures chain(e + 1) in q || chain(e + 1) in replies
  {
    assert chain(e + 1) in q + Above(replies, e);
  }

  /** The worker at the known height: everything not executed is dropped, and there is nothing such. */
  ghost function Finished(w: World): World {
    World(w.s.(buffer := [], blocks := multiset{}, mode := Idle), w.replies)
  }

  lemma FinishedShape(s: State, pick: Option<Block>, next: Option<Block>)
    requires !ShouldSync(s.cfg) && Enabled(RunMaintainBuffer(s), MaintainQueue(pick, next))
    ensures RunMaintainQueue(RunMaintainBuffer(s), pick, next) == s.(buffer := [], blocks := multiset{}, mode := Idle)
  {
    hide BufferAfter, BlocksAfter, TopNumber, ExecutePick, CommitPick, TryCommit;
  }

  lemma FinishedSupply(chain: Chain, w: World)
    requires IsChain(chain) && Supply(chain, w) && w.s.executing == multiset{} && w.s.maxRequest <= w.s.cfg.executed
    ensures Supply(chain, Finished(w)) && Above(w.replies, w.s.cfg.executed) == multiset{}
  {
    hide Complete, Content;
    NothingAbove(chain, w.s.buffer, w.s.blocks, w.replies, w.s.cfg.executed, w.s.maxRequest);
    hide Above;
  }

  lemma NothingRequested(chain: Chain, w: World, top: int, spare: nat)
    requires IsChain(chain) && Flow(chain, w, top, spare) && w.s.cfg.executed >= top
    ensures w.s.executing == multiset{} && w.s.maxRequest <= w.s.cfg.executed && Frontier(w.s) >= top
  {
    hide Surroundings, Supply, Stages, Capacity;
    TopIsKnown(w.s, top, spare);
  }

  lemma FinishedFlow(chain: Chain, w: World, top: int, spare: nat)
    requires IsChain(chain) && Flow(chain, w, top, spare) && w.s.cfg.executed >= top
    ensures Flow(chain, Finished(w), top, spare) && (FewStale(w, spare) ==> Slim(Finished(w), spare))
  {
    NothingRequested(chain, w, top, spare);
    assert Supply(chain, w) by { hide Surroundings, Counters, Stages, Supply; }
    hide Flow, Supply, Above;
    FinishedSupply(chain, w);
    RefillFlow(chain, w, Finished(w), top, spare);
  }

  lemma NothingAbove(chain: Chain, buffer: seq<Shard>, blocks: BlockQueue, replies: multiset<Block>, e: int, m: int)
    requires IsChain(chain) && Complete(chain, e, e, m, Content(buffer, blocks, replies)) && m <= e
    requires NumbersAbove(blocks, e)
    ensures Complete(chain, e, e, m, Content([], multiset{}, replies)) && Above(replies, e) == multiset{}
  {
    ReadyIsComplete(chain, e, e, m, buffer, blocks, replies);
    hide Ready;
    assert Span(chain, e, m) == multiset{};
    assert Above(replies, e) == multiset{};
    assert NewerAll([], 0) + multiset{} + replies == replies;
  }

  /** What the worker's part of a round may do: it keeps the pipeline in order, adds nothing to what is
      left, and takes something away unless the next block is not there or may not be executed yet. */
  ghost predicate Advanced(chain: Chain, w: World, v: World, top: int, spare: nat)
    requires IsChain(chain)
  {
    && Flow(chain, v, top, spare) && Slim(v, spare) && v.replies == w.replies
    && v.s.cfg == w.s.cfg && v.s.maxRequest == w.s.maxRequest && v.s.p == w.s.p
    && Left(chain, v, top) <= Left(chain, w, top)
    && (Left(chain, v, top) < Left(chain, w, top) ||
        (v.s.executing == w.s.executing && Pending(v.s) == Pending(w.s) &&
         (w.s.executing == multiset{} && w.s.cfg.blockNumber == w.s.cfg.executed < top ==> 1 <= Phase(chain, w))))
  }

  lemma FinishedAdvances(chain: Chain, w: World, top: int, spare: nat)
    requires IsChain(chain) && Flow(chain, w, top, spare) && FewStale(w, spare) && w.s.cfg.executed >= top
    ensures Advanced(chain, w, Finished(w), top, spare)
  {
    hide Flow, Slim, FewStale, Left;
    FinishedFlow(chain, w, top, spare);
    SameLeft(chain, w, Finished(w), top);
  }

  lemma StartedLeft(chain: Chain, w: World, top: int)
    requires IsChain(chain) && w.s.executing == multiset{} && w.s.cfg.executed < w.s.maxRequest <= top
    requires chain(w.s.cfg.executed + 1) !in w.replies
    ensures Left(chain, Started(chain, w), top) < Left(chain, w, top)
  {
  }

  lemma RequestBelowTop(chain: Chain, w: World, top: int, spare: nat)
    requires IsChain(chain) && Flow(chain, w, top, spare)
    ensures w.s.maxRequest <= top && w.s.p.waterMark > 0 && Supply(chain, w)
  {
    hide Surroundings, Stages, Supply, Capacity;
    TopIsKnown(w.s, top, spare);
  }

  lemma StartedAdvances(chain: Chain, w: World, top: int, spare: nat, b: Block)
    requires IsChain(chain) && Flow(chain, w, top, spare) && FewStale(w, spare)
    requires b in Flushed(w).s.blocks && b.number == w.s.cfg.executed + 1
    ensures Advanced(chain, w, Started(chain, w), top, spare)
    ensures w.s.executing == multiset{} && b == chain(w.s.cfg.executed + 1)
  {
    hide Flow, Slim, FewStale, Supply, Left;
    RequestBelowTop(chain, w, top, spare);
    FlushedSlim(chain, w, spare);
    ReadyIsNext(chain, w, top, spare, b);
    StartedFlow(chain, w, top, spare);
    StartedLeft(chain, w, top);
    FlushedIs(w);
    hide Flushed;
  }

  lemma FlushedAdvances(chain: Chain, w: World, top: int, spare: nat)
    requires IsChain(chain) && Flow(chain, w, top, spare) && FewStale(w, spare)
    requires w.s.cfg.executed < w.s.cfg.blockNumber + w.s.p.waterMark ==>
               chain(w.s.cfg.executed + 1) !in Flushed(w).s.blocks
    ensures Advanced(chain, w, Flushed(w), top, spare)
  {
    hide Flow, Slim, FewStale, Supply, Flushed, Left;
    RequestBelowTop(chain, w, top, spare);
    FlushedSlim(chain, w, spare);
    FlushedFlow(chain, w, top, spare);
    FlushedIs(w);
    if w.s.executing == multiset{} {
      NextIsSomewhere(chain, w, top, spare);
    }
    SameLeft(chain, w, Flushed(w), top);
  }

  lemma SameLeft(chain: Chain, w: World, v: World, top: int)
    requires v.s == w.s.(buffer := v.s.buffer, blocks := v.s.blocks, mode := v.s.mode) && v.replies == w.replies
    ensures Left(chain, v, top) == Left(chain, w, top) && Pending(v.s) == Pending(w.s)
  {
  }

  lemma WorkerFlow(chain: Chain, w: World, top: int, spare: nat, pick: Option<Block>, next: Option<Block>, v: World)
    requires IsChain(chain) && Flow(chain, w, top, spare) && FewStale(w, spare)
    requires Enabled(RunMaintainBuffer(w.s), MaintainQueue(pick, next))
    requires v == World(RunMaintainQueue(RunMaintainBuffer(w.s), pick, next), w.replies)
    ensures Advanced(chain, w, v, top, spare)
  {
    hide RunMaintainBuffer, RunMaintainQueue, Enabled, Flow, FewStale, Advanced, Flushed, Clean, NumbersAbove, ShouldSync;
    FlushFits(chain, w, top, spare);
    if w.s.cfg.executed >= top {
      FinishedShape(w.s, pick, next);
      FinishedAdvances(chain, w, top, spare);
    } else {
      WorkerShape(chain, w, top, spare, pick, next);
      if next.Some? {
        StartedAdvances(chain, w, top, spare, next.value);
        assert multiset{} + multiset{next.value} == multiset{next.value};
      } else {
        FlushedAdvances(chain, w, top, spare);
      }
    }
  }

  // ---- the request ----

  /** A batch starts only when everything requested before is executed and at most one executed block is
      not committed yet; the download queue is empty then, and next to nothing is on its way. */
  lemma BatchStarts(chain: Chain, w: World, top: int, spare: nat)
    requires IsChain(chain) && Flow(chain, w, top, spare) && StartsBatch(w.s)
    ensures var s := w.s;
      && s.executing == multiset{} && s.maxRequest <= s.cfg.executed <= s.cfg.blockNumber + 1
      && 0 <= s.cfg.blockNumber <= s.cfg.executed && s.blocks == multiset{} && s.cfg.knownHighest == top
    ensures Slim(w, spare) ==> Size(w) <= spare
  {
    hide Surroundings, Capacity, NumbersIn, InCommit, RequestTo, ShouldSync, Content, Complete, Clean;
    var s := w.s;
    TopIsKnown(s, top, spare);
    QueueIsAbove(chain, s.cfg.executed, Frontier(s), s.maxRequest, s.buffer, s.blocks, w.replies);
    hide NumbersAbove;
  }

  /** On an empty download queue a batch asks for the next blocks, as many as fit. */
  lemma BatchOnEmpty(s: State, top: int, spare: nat)
    requires Surroundings(s, top, spare) && StartsBatch(s) && s.blocks == multiset{}
    ensures s.cfg.blockNumber < BatchEnd(s) <= top
    ensures BatchEnd(s) - s.cfg.blockNumber <= Capacity(s)
    ensures RunTryRequest(s) == s.(mode := Downloading, maxRequest := Max(s.maxRequest, BatchEnd(s)))
  {
    var from, b := s.cfg.blockNumber, s.p.maxRequestBlocks;
    var e, k := |Eligible(s.peers, top)|, BatchShards(s);
    ShardTotalBounds(from, top, b);
    MulMono(1, e, s.p.maxShardPerPeer);
    assert k >= 1;
    MulMono(1, k, b);
    MulMono(k, e * s.p.maxShardPerPeer, b);
  }

  /** The blocks asked for complete the supply up to the end of the batch. */
  lemma BatchComplete(chain: Chain, n: int, e: int, m: int, end: int, buffer: seq<Shard>, replies: multiset<Block>)
    requires IsChain(chain) && Complete(chain, e, e, m, Content(buffer, multiset{}, replies)) && m <= e && n <= e
    ensures Complete(chain, e, e, Max(m, end), Content(buffer, multiset{}, replies + Span(chain, n, end)))
  {
    var q := Content(buffer, multiset{}, replies);
    assert Content(buffer, multiset{}, replies + Span(chain, n, end)) == q + Span(chain, n, end);
    hide Content;
    AboveOfSum(q, Span(chain, n, end), e);
    SpanAbove(chain, n, end, e);
    EmptySpan(chain, e, m);
    assert multiset{} + Span(chain, e, end) == Span(chain, e, end);
    hide Above;
    if end <= e {
      EmptySpan(chain, e, end);
      EmptySpan(chain, e, Max(m, end));
    }
    hide Span;
  }

  /** The world after a batch for (n, end]. */
  ghost function Batched(chain: Chain, w: World, end: int): World
    requires IsChain(chain)
  {
    World(w.s.(mode := Downloading, maxRequest := Max(w.s.maxRequest, end)),
          w.replies + Span(chain, w.s.cfg.blockNumber, end))
  }

  lemma BatchedSupply(chain: Chain, w: World, end: int, spare: nat)
    requires IsChain(chain) && Supply(chain, w) && Size(w) <= spare
    requires var s := w.s;
      && s.executing == multiset{} && s.maxRequest <= s.cfg.executed && s.blocks == multiset{}
      && 0 <= s.cfg.blockNumber <= s.cfg.executed && s.cfg.blockNumber < end
      && end - s.cfg.blockNumber <= s.p.maxQueue - spare
    ensures Supply(chain, Batched(chain, w, end))
  {
    hide Complete, Content, Clean;
    var s := w.s;
    BatchComplete(chain, s.cfg.blockNumber, s.cfg.executed, s.maxRequest, end, s.buffer, w.replies);
    CardOfSum(w.replies, Span(chain, s.cfg.blockNumber, end));
  }

  lemma BatchedFlow(chain: Chain, w: World, top: int, spare: nat)
    requires IsChain(chain) && Flow(chain, w, top, spare) && Slim(w, spare) && StartsBatch(w.s)
    ensures w.s.p.maxRequestBlocks > 0 && AfterRequest(chain, w) == Batched(chain, w, BatchEnd(w.s))
    ensures Flow(chain, Batched(chain, w, BatchEnd(w.s)), top, spare)
    ensures w.s.cfg.blockNumber < BatchEnd(w.s)
  {
    hide StartsBatch, BatchEnd, RunTryRequest, Capacity, InStages, Supply;
    BatchStarts(chain, w, top, spare);
    TopIsKnown(w.s, top, spare);
    BatchOnEmpty(w.s, top, spare);
    hide Slim;
    var end := BatchEnd(w.s);
    BatchedSupply(chain, w, end, spare);
    SurroundingsHold(w.s, Batched(chain, w, end).s, top, spare);
    hide Surroundings, Span;
  }

  lemma BatchedLeft(chain: Chain, w: World, end: int, top: int)
    requires IsChain(chain) && w.s.maxRequest <= Frontier(w.s)
    ensures Left(chain, Batched(chain, w, end), top) <= Left(chain, w, top)
    ensures Frontier(w.s) < end && Frontier(w.s) < top ==>
              Left(chain, Batched(chain, w, end), top) < Left(chain, w, top)
  {
    hide Pending, Span;
    assert Pending(Batched(chain, w, end).s) == Pending(w.s) by { PendingFrame(w.s, Batched(chain, w, end).s); }
  }

  lemma PendingFrame(s: State, t: State)
    requires t == s.(mode := t.mode, maxRequest := t.maxRequest)
    ensures Pending(t) == Pending(s)
  {
  }

  lemma NoBatchShape(chain: Chain, w: World)
    requires IsChain(chain) && w.s.p.maxRequestBlocks > 0 && !StartsBatch(w.s)
    ensures var v := AfterRequest(chain, w);
      && v.replies == w.replies && v.s == w.s.(mode := v.s.mode)
      && (v.s.mode == w.s.mode || w.s.maxRequest <= w.s.cfg.blockNumber || w.s.maxRequest <= w.s.cfg.executed)
  {
    hide StartsBatch;
    assert w.replies + multiset{} == w.replies;
  }

  lemma NoBatchFlow(chain: Chain, w: World, v: World, top: int, spare: nat)
    requires IsChain(chain) && Flow(chain, w, top, spare) && v.replies == w.replies && v.s == w.s.(mode := v.s.mode)
    requires v.s.mode == w.s.mode || w.s.maxRequest <= w.s.cfg.executed
    ensures Flow(chain, v, top, spare)
  {
    assert Supply(chain, v) by { hide Surroundings, Counters, Stages, Complete, Content, Clean, NumbersAbove; }
    hide Flow, Supply;
    RefillFlow(chain, w, v, top, spare);
  }
}
