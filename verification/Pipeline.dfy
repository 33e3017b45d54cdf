/** A node in the middle of catching up, with any number of blocks between download and commit: what
    holds of it whenever a callback or a reply may arrive. */
module Pipeline {
  import opened SyncTypes
  import opened SyncConfig
  import opened BlockQueues
  import opened BlockBuffer
  import opened RequestPlanner
  import opened SyncProtocol
  import opened SyncInvariants
  import opened Convergence

  // ---- the invariant ----

  /** The most blocks one batch can ask for. */
  ghost function Capacity(s: State): int {
    |Eligible(s.peers, s.cfg.knownHighest)| * s.p.maxShardPerPeer * s.p.maxRequestBlocks
  }

  /** The fixed surroundings: a known height the consensus has not reached, at least one peer that has it,
      and a queue limit with room for a batch and `spare` blocks more. */
  ghost predicate Surroundings(s: State, top: int, spare: nat) {
    && s.p.maxRequestBlocks > 0 && s.p.maxShardPerPeer > 0 && s.p.waterMark > 0
    && s.cfg.knownHighest == top && s.cfg.proposal < top
    && |Eligible(s.peers, top)| > 0
    && Capacity(s) + spare <= s.p.maxQueue
  }

  /** The last block handed to execution. */
  function Frontier(s: State): int {
    s.cfg.executed + |s.executing|
  }

  ghost predicate Counters(chain: Chain, s: State) {
    var c := s.cfg;
    && 0 <= c.blockNumber <= c.executed <= c.knownHighest && c.nextBlock == c.blockNumber + 1
    && s.maxRequest <= c.knownHighest && s.maxRequest <= c.executed + Capacity(s)
    && (s.executing == multiset{} ||
        (s.executing == multiset{chain(c.executed + 1)} && c.executed < s.maxRequest))
  }

  /** A block numbered `m` is being stored or committed. */
  ghost predicate InCommit(storing: multiset<Block>, committing: multiset<Block>, m: int) {
    exists b: Block :: b in storing + committing && b.number == m
  }

  /** The executed blocks (n, e]: the next one is being checked, stored or committed, the others wait for
      it, and all that is left of earlier ones is the second commit of an empty block. */
  ghost predicate InStages(chain: Chain, n: int, e: int, queue: BlockQueue, checking: multiset<Block>,
                           storing: multiset<Block>, committing: multiset<Block>)
    requires IsChain(chain)
  {
    && queue == Span(chain, n + 1, e)
    && if checking != multiset{} then
         n < e && checking == multiset{chain(n + 1)} && NumbersIn(storing + committing, 0, n)
       else if n < e then
         NumbersIn(storing + committing, 0, n + 1) && InCommit(storing, committing, n + 1)
       else
         NumbersIn(storing + committing, 0, n)
  }

  ghost predicate Stages(chain: Chain, s: State)
    requires IsChain(chain)
  {
    InStages(chain, s.cfg.blockNumber, s.cfg.executed, s.commitQueue, s.checking, s.storing, s.committing)
  }

  /** The buffer holds one-block messages only, as the peers send them. */
  predicate Clean(buffer: seq<Shard>) {
    forall i :: 0 <= i < |buffer| ==> |buffer[i]| == 1 && buffer[i][0].Some?
  }

  /** All blocks downloaded and not executed, or still to come. */
  ghost function Content(buffer: seq<Shard>, blocks: BlockQueue, replies: multiset<Block>): multiset<Block> {
    NewerAll(buffer, 0) + blocks + replies
  }

  /** What was requested and not handed to execution is in `q`, each block once; whatever else is in it is
      of blocks already executed. */
  ghost predicate Complete(chain: Chain, e: int, frontier: int, requested: int, q: multiset<Block>)
    requires IsChain(chain)
  {
    Above(q, e) == Span(chain, frontier, requested)
  }

  function Size(w: World): nat {
    |w.s.buffer| + |w.s.blocks| + |w.replies|
  }

  ghost predicate Supply(chain: Chain, w: World)
    requires IsChain(chain)
  {
    var s := w.s;
    && Clean(s.buffer) && NumbersAbove(w.replies, 0) && NumbersAbove(s.blocks, s.cfg.executed)
    && Complete(chain, s.cfg.executed, Frontier(s), s.maxRequest, Content(s.buffer, s.blocks, w.replies))
    && Size(w) <= s.p.maxQueue
    && (s.mode == Idle ==> s.maxRequest <= s.cfg.executed)
  }

  ghost predicate Flow(chain: Chain, w: World, top: int, spare: nat)
    requires IsChain(chain)
  {
    0 < spare && Surroundings(w.s, top, spare) && Counters(chain, w.s) && Stages(chain, w.s) && Supply(chain, w)
  }

  /** At most `spare` of the replies on their way are of blocks already executed. */
  ghost predicate FewStale(w: World, spare: nat) {
    |w.replies| <= |Above(w.replies, w.s.cfg.executed)| + spare
  }

  /** And at most as many of all blocks that are there or on their way. */
  ghost predicate Slim(w: World, spare: nat) {
    Size(w) <= Max(0, w.s.maxRequest - Frontier(w.s)) + spare
  }

  // ---- what an arrival leaves alone ----

  ghost predicate Arrival(w: World, v: World) {
    var s, t := w.s, v.s;
    && t.p == s.p && t.peers == s.peers && t.blocks == s.blocks && t.mode == s.mode && t.maxRequest == s.maxRequest
    && t.cfg.knownHighest == s.cfg.knownHighest && t.cfg.proposal == s.cfg.proposal
    && s.cfg.blockNumber <= t.cfg.blockNumber && s.cfg.executed <= t.cfg.executed
    && Frontier(t) == Frontier(s) && Size(v) == Size(w) && v.replies <= w.replies
    && (s.executing == multiset{} ==> t.executing == multiset{})
  }

  lemma SurroundingsHold(s: State, t: State, top: int, spare: nat)
    requires Surroundings(s, top, spare) && t.p == s.p && t.peers == s.peers
    requires t.cfg.knownHighest == s.cfg.knownHighest && t.cfg.proposal == s.cfg.proposal
    ensures Surroundings(t, top, spare) && Capacity(t) == Capacity(s)
  {
  }

  // ---- passes over the commit queue ----

  lemma TopIsTaken(s: State, b: Block, pick: Option<Block>)
    requires CommitPick(s, pick) && Above(s.commitQueue, s.cfg.blockNumber) == s.commitQueue
    requires IsTop(s.commitQueue, b) && (forall c: Block :: IsTop(s.commitQueue, c) ==> c == b)
    requires b.number == s.cfg.nextBlock
    ensures TryCommit(s, pick) == s.(commitQueue := s.commitQueue - multiset{b}, checking := s.checking + multiset{b})
  {
    assert |s.commitQueue| > 0;
    hide Above;
    assert TopNumber(s.commitQueue) == b.number;
    hide TopNumber;
    assert pick == Some(b);
  }

  /** The pass takes the next block if the queue starts with it. */
  lemma PassTakes(chain: Chain, s: State, hi: int, pick: Option<Block>)
    requires IsChain(chain) && CommitPick(s, pick) && s.cfg.nextBlock == s.cfg.blockNumber + 1 <= hi
    requires s.commitQueue == Span(chain, s.cfg.blockNumber, hi) && s.checking == multiset{}
    ensures var n := s.cfg.blockNumber;
      TryCommit(s, pick) == s.(commitQueue := Span(chain, n + 1, hi), checking := multiset{chain(n + 1)})
  {
    hide TryCommit, CommitPick, Above, IsTop, TopNumber;
    var n := s.cfg.blockNumber;
    SpanAbove(chain, n, hi, n);
    SpanTop(chain, n, hi);
    assert multiset{} + multiset{chain(n + 1)} == multiset{chain(n + 1)};
    hide Span;
    TopIsTaken(s, chain(n + 1), pick);
  }

  /** And nothing if it starts after it. */
  lemma PassTakesNothing(s: State, pick: Option<Block>)
    requires CommitPick(s, pick) && s.cfg.nextBlock == s.cfg.blockNumber + 1
    requires NumbersAbove(s.commitQueue, s.cfg.blockNumber + 1)
    ensures TryCommit(s, pick) == s
  {
    AboveKeepsAll(s.commitQueue, s.cfg.blockNumber);
  }

  // ---- the shapes of the callbacks ----

  lemma SpanNext(chain: Chain, lo: int, hi: int)
    requires IsChain(chain) && lo <= hi
    ensures Span(chain, lo, hi + 1) == Span(chain, lo, hi) + multiset{chain(hi + 1)}
  {
  }

  lemma ExecutedAs(s: State, b: Block)
    requires s.executing == multiset{b} && s.cfg.blockNumber <= b.number
    ensures Executed(s, b) == s.(cfg := s.cfg.(executed := b.number), executing := multiset{},
                                 commitQueue := s.commitQueue + multiset{b})
  {
    assert multiset{b} - multiset{b} == multiset{};
  }

  lemma ExecuteShape(chain: Chain, s: State, b: Block, header: Option<Hash>, pick: Option<Block>)
    requires IsChain(chain) && Enabled(s, ExecuteDone(b, header, pick)) && ExecutedWell(b, header)
    requires s.cfg.blockNumber <= s.cfg.executed && s.cfg.nextBlock == s.cfg.blockNumber + 1
    requires b == chain(s.cfg.executed + 1) && s.executing == multiset{b}
    requires s.commitQueue == Span(chain, s.cfg.blockNumber + 1, s.cfg.executed)
    requires s.cfg.blockNumber == s.cfg.executed ==> s.checking == multiset{}
    ensures var n, e := s.cfg.blockNumber, s.cfg.executed;
      After(s, ExecuteDone(b, header, pick)) ==
      s.(cfg := s.cfg.(executed := e + 1), executing := multiset{}, commitQueue := Span(chain, n + 1, e + 1),
         checking := if n < e then s.checking else multiset{chain(n + 1)})
  {
    hide After, Enabled, TryCommit, CommitPick, Executed, Span;
    var n, e := s.cfg.blockNumber, s.cfg.executed;
    ExecuteIsPass(s, b, header, pick);
    ExecutedAs(s, b);
    ExecutedQueue(chain, n, e);
    PassAfterExecution(chain, s, Executed(s, b), pick);
  }

  lemma ExecutedQueue(chain: Chain, n: int, e: int)
    requires IsChain(chain) && n <= e
    ensures Span(chain, n + 1, e) + multiset{chain(e + 1)} ==
            if n < e then Span(chain, n + 1, e + 1) else Span(chain, n, n + 1)
  {
    if n < e {
      SpanNext(chain, n + 1, e);
    } else {
      SpanNext(chain, n, n);
      EmptySpan(chain, n, n);
      EmptySpan(chain, n + 1, n);
    }
  }

  lemma PassAfterExecution(chain: Chain, s: State, u: State, pick: Option<Block>)
    requires IsChain(chain) && CommitPick(u, pick)
    requires s.cfg.blockNumber <= s.cfg.executed && s.cfg.nextBlock == s.cfg.blockNumber + 1
    requires s.cfg.blockNumber == s.cfg.executed ==> s.checking == multiset{}
    requires var n, e := s.cfg.blockNumber, s.cfg.executed;
      u == s.(cfg := s.cfg.(executed := e + 1), executing := multiset{},
              commitQueue := if n < e then Span(chain, n + 1, e + 1) else Span(chain, n, n + 1))
    ensures var n, e := s.cfg.blockNumber, s.cfg.executed;
      TryCommit(u, pick) == u.(commitQueue := Span(chain, n + 1, e + 1),
                               checking := if n < e then s.checking else multiset{chain(n + 1)})
  {
    hide TryCommit, CommitPick, Span;
    var n, e := s.cfg.blockNumber, s.cfg.executed;
    if n < e {
      PassTakesNothing(u, pick);
    } else {
      PassTakes(chain, u, n + 1, pick);
    }
  }

  lemma EmptySpan(chain: Chain, lo: int, hi: int)
    requires IsChain(chain) && hi <= lo
    ensures Span(chain, lo, hi) == multiset{}
  {
  }

  lemma CheckShape(s: State, b: Block)
    requires Enabled(s, CheckDone(b, CheckPassed)) && s.checking == multiset{b}
    ensures var t := After(s, CheckDone(b, CheckPassed));
      && t == s.(checking := multiset{}, storing := s.storing + multiset{b}, committing := t.committing)
      && (forall c: Block :: c in t.committing ==> c in s.committing || c == b)
  {
    assert multiset{b} - multiset{b} == multiset{};
  }

  /** A new head while nothing queued has a number up to its. */
  lemma HeadShape(s: State, n: int, h: Hash)
    requires var c := ResetConfig(s.cfg, n, h);
      NumbersAbove(s.blocks, c.blockNumber) && NumbersAbove(s.commitQueue, c.blockNumber)
    ensures OnNewBlock(s, n, h) == s.(cfg := ResetConfig(s.cfg, n, h))
  {
    hide ResetConfig;
    AboveKeepsAll(s.blocks, ResetConfig(s.cfg, n, h).blockNumber);
    AboveKeepsAll(s.commitQueue, ResetConfig(s.cfg, n, h).blockNumber);
    hide Above;
  }

  /** A block already committed is committed once more, to no effect. */
  lemma StaleCommitShape(s: State, b: Block, h: Hash, pick: Option<Block>)
    requires Enabled(s, CommitDone(b, Some(h), pick)) && 0 < b.number <= s.cfg.blockNumber
    requires s.cfg.nextBlock == s.cfg.blockNumber + 1
    requires NumbersAbove(s.blocks, s.cfg.blockNumber) && NumbersAbove(s.commitQueue, s.cfg.blockNumber + 1)
    ensures After(s, CommitDone(b, Some(h), pick)) == s.(committing := s.committing - multiset{b})
  {
    hide After, Enabled, TryCommit, CommitPick, OnNewBlock;
    CommitIsPass(s, b, h, pick);
    HeadShape(s.(committing := s.committing - multiset{b}), b.number, h);
    PassTakesNothing(s.(committing := s.committing - multiset{b}), pick);
  }

  /** The next block is committed, and the one after it, if executed, goes to the check. */
  lemma NextCommitShape(chain: Chain, s: State, b: Block, h: Hash, pick: Option<Block>)
    requires IsChain(chain) && Enabled(s, CommitDone(b, Some(h), pick)) && s.checking == multiset{}
    requires 0 < b.number == s.cfg.blockNumber + 1 <= s.cfg.executed <= s.cfg.knownHighest
    requires NumbersAbove(s.blocks, s.cfg.executed)
    requires s.commitQueue == Span(chain, s.cfg.blockNumber + 1, s.cfg.executed)
    ensures var n, e := s.cfg.blockNumber + 1, s.cfg.executed;
      After(s, CommitDone(b, Some(h), pick)) ==
      s.(cfg := s.cfg.(blockNumber := n, nextBlock := n + 1, hash := h), committing := s.committing - multiset{b},
         commitQueue := Span(chain, n + 1, e), checking := if n < e then multiset{chain(n + 1)} else multiset{})
  {
    hide After, Enabled, TryCommit, CommitPick, OnNewBlock, Span;
    var n, e := s.cfg.blockNumber + 1, s.cfg.executed;
    assert ResetConfig(s.cfg, n, h) == s.cfg.(blockNumber := n, nextBlock := n + 1, hash := h);
    hide ResetConfig;
    CommitIsPass(s, b, h, pick);
    HeadShape(s.(committing := s.committing - multiset{b}), n, h);
    var u := OnNewBlock(s.(committing := s.committing - multiset{b}), n, h);
    if n < e {
      PassTakes(chain, u, e, pick);
    } else {
      EmptySpan(chain, n, e);
      EmptySpan(chain, n + 1, e);
      PassTakesNothing(u, pick);
    }
  }

  // ---- arrivals ----

  lemma AboveTwice(q: BlockQueue, m: int, n: int)
    requires m <= n
    ensures Above(Above(q, m), n) == Above(q, n)
  {
    var a, b := Above(Above(q, m), n), Above(q, n);
    assert forall c: Block :: a[c] == b[c];
  }

  /** The block under execution is nowhere else, so nothing changes when it is executed. */
  lemma ExecutedComplete(chain: Chain, e: int, m: int, q: multiset<Block>)
    requires IsChain(chain) && Complete(chain, e, e + 1, m, q)
    ensures Complete(chain, e + 1, e + 1, m, q)
  {
    AboveTwice(q, e, e + 1);
    SpanAbove(chain, e + 1, m, e + 1);
  }

  lemma QueueIsAbove(chain: Chain, e: int, f: int, m: int, buffer: seq<Shard>, blocks: BlockQueue, replies: multiset<Block>)
    requires IsChain(chain) && Complete(chain, e, f, m, Content(buffer, blocks, replies)) && NumbersAbove(blocks, e)
    ensures NumbersAbove(blocks, f) && |blocks| <= Max(0, m - f)
  {
    var q := Content(buffer, blocks, replies);
    assert blocks <= q;
    forall b: Block
      ensures blocks[b] <= Above(q, e)[b]
    {
      assert blocks[b] > 0 ==> b in blocks;
    }
    assert blocks <= Span(chain, f, m);
    SubsetSize(blocks, Span(chain, f, m));
  }

  lemma ExecutedStages(chain: Chain, n: int, e: int, queue: BlockQueue, checking: multiset<Block>,
                       storing: multiset<Block>, committing: multiset<Block>)
    requires IsChain(chain) && InStages(chain, n, e, queue, checking, storing, committing) && n <= e
    ensures InStages(chain, n, e + 1, Span(chain, n + 1, e + 1), if n < e then checking else multiset{chain(n + 1)},
                     storing, committing)
  {
    hide Span, InCommit;
  }

  lemma ExecuteFlows(chain: Chain, w: World, v: World, b: Block, header: Option<Hash>, pick: Option<Block>,
                     top: int, spare: nat)
    requires IsChain(chain) && Flow(chain, w, top, spare) && Delivers(w, ExecuteDone(b, header, pick), v)
    ensures Flow(chain, v, top, spare) && Arrival(w, v)
  {
    hide After, Enabled, Surroundings, Supply, Arrival, InCommit, NumbersIn, Span, Capacity, Stages;
    var s := w.s;
    IsInFlight(s, ExecuteDone(b, header, pick));
    assert b == chain(s.cfg.executed + 1) && s.executing == multiset{b};
    IdleStages(chain, s);
    ExecuteShape(chain, s, b, header, pick);
    hide Flow;
    ExecutedFlow(chain, w, v, top, spare);
  }

  lemma IdleStages(chain: Chain, s: State)
    requires IsChain(chain) && Stages(chain, s)
    ensures s.commitQueue == Span(chain, s.cfg.blockNumber + 1, s.cfg.executed)
    ensures s.cfg.blockNumber >= s.cfg.executed ==> s.checking == multiset{}
  {
    hide Span, NumbersIn, InCommit;
  }

  lemma IsInFlight(s: State, step: Step)
    requires Enabled(s, step)
    ensures step.ExecuteDone? ==> step.block in s.executing
    ensures step.CheckDone? ==> step.block in s.checking
    ensures step.StoreDone? ==> step.block in s.storing
    ensures step.CommitDone? ==> step.block in s.committing
  {
    hide CommitPick, TryCommit, OnNewBlock, ExecutePick;
  }

  lemma ExecutedFlow(chain: Chain, w: World, v: World, top: int, spare: nat)
    requires IsChain(chain) && Flow(chain, w, top, spare) && w.s.executing == multiset{chain(w.s.cfg.executed + 1)}
    requires var s, n, e := w.s, w.s.cfg.blockNumber, w.s.cfg.executed;
      v == World(s.(cfg := s.cfg.(executed := e + 1), executing := multiset{}, commitQueue := Span(chain, n + 1, e + 1),
                    checking := if n < e then s.checking else multiset{chain(n + 1)}), w.replies)
    ensures Flow(chain, v, top, spare) && Arrival(w, v)
  {
    hide Surroundings, Complete, Content, Clean, InStages, Span, Capacity;
    var s := w.s;
    SurroundingsHold(s, v.s, top, spare);
    ExecutedStages(chain, s.cfg.blockNumber, s.cfg.executed, s.commitQueue, s.checking, s.storing, s.committing);
    QueueIsAbove(chain, s.cfg.executed, Frontier(s), s.maxRequest, s.buffer, s.blocks, w.replies);
    ExecutedComplete(chain, s.cfg.executed, s.maxRequest, Content(s.buffer, s.blocks, w.replies));
    hide NumbersAbove;
  }

  lemma CheckedStages(chain: Chain, n: int, e: int, queue: BlockQueue, b: Block,
                      storing: multiset<Block>, committing: multiset<Block>, committing': multiset<Block>)
    requires IsChain(chain) && InStages(chain, n, e, queue, multiset{b}, storing, committing) && n >= 0
    requires forall c: Block :: c in committing' ==> c in committing || c == b
    ensures InStages(chain, n, e, queue, multiset{}, storing + multiset{b}, committing')
  {
    hide Span;
    assert b in multiset{b};
    assert b == chain(n + 1);
    assert b in storing + multiset{b} + committing';
  }

  lemma CheckFlows(chain: Chain, w: World, v: World, b: Block, top: int, spare: nat)
    requires IsChain(chain) && Flow(chain, w, top, spare) && Delivers(w, CheckDone(b, CheckPassed), v)
    ensures Flow(chain, v, top, spare) && Arrival(w, v)
  {
    hide After, Enabled, Surroundings, Complete, Content, Clean, NumbersAbove, InCommit, NumbersIn, Span, Capacity;
    var s := w.s;
    IsInFlight(s, CheckDone(b, CheckPassed));
    assert s.checking == multiset{b};
    hide InStages;
    CheckShape(s, b);
    SurroundingsHold(s, v.s, top, spare);
    CheckedStages(chain, s.cfg.blockNumber, s.cfg.executed, s.commitQueue, b, s.storing, s.committing, v.s.committing);
  }

  lemma StoredStages(chain: Chain, n: int, e: int, queue: BlockQueue, checking: multiset<Block>,
                     storing: multiset<Block>, committing: multiset<Block>, b: Block)
    requires IsChain(chain) && InStages(chain, n, e, queue, checking, storing, committing) && b in storing
    ensures InStages(chain, n, e, queue, checking, storing - multiset{b}, committing + multiset{b})
  {
    assert (storing - multiset{b}) + (committing + multiset{b}) == storing + committing;
  }

  lemma StoreShape(s: State, b: Block)
    requires Enabled(s, StoreDone(b, true))
    ensures After(s, StoreDone(b, true)) ==
            s.(storing := s.storing - multiset{b}, committing := s.committing + multiset{b})
  {
  }

  lemma StoreFlows(chain: Chain, w: World, v: World, b: Block, top: int, spare: nat)
    requires IsChain(chain) && Flow(chain, w, top, spare) && Delivers(w, StoreDone(b, true), v)
    ensures Flow(chain, v, top, spare) && Arrival(w, v)
  {
    hide After, Enabled, Surroundings, Complete, Content, Clean, NumbersAbove, InStages, Capacity;
    var s := w.s;
    IsInFlight(s, StoreDone(b, true));
    StoreShape(s, b);
    SurroundingsHold(s, v.s, top, spare);
    StoredStages(chain, s.cfg.blockNumber, s.cfg.executed, s.commitQueue, s.checking, s.storing, s.committing, b);
  }

  lemma StaleStages(chain: Chain, n: int, e: int, queue: BlockQueue, checking: multiset<Block>,
                    storing: multiset<Block>, committing: multiset<Block>, b: Block)
    requires IsChain(chain) && InStages(chain, n, e, queue, checking, storing, committing) && b.number <= n
    ensures InStages(chain, n, e, queue, checking, storing, committing - multiset{b})
  {
    hide Span;
    assert forall c: Block :: c in storing + (committing - multiset{b}) ==> c in storing + committing;
    if checking == multiset{} && n < e {
      var c: Block :| c in storing + committing && c.number == n + 1;
      assert c in storing + (committing - multiset{b});
    }
  }

  lemma NextStages(chain: Chain, n: int, e: int, queue: BlockQueue, storing: multiset<Block>,
                   committing: multiset<Block>, b: Block)
    requires IsChain(chain) && InStages(chain, n, e, queue, multiset{}, storing, committing)
    requires b.number == n + 1 <= e
    ensures InStages(chain, n + 1, e, Span(chain, n + 2, e), if n + 1 < e then multiset{chain(n + 2)} else multiset{},
                     storing, committing - multiset{b})
  {
    hide Span;
    assert forall c: Block :: c in storing + (committing - multiset{b}) ==> c in storing + committing;
  }

  /** In the committing stage the numbers tell a new commit from a repeated one. */
  lemma CommitNumbers(chain: Chain, n: int, e: int, queue: BlockQueue, checking: multiset<Block>,
                      storing: multiset<Block>, committing: multiset<Block>, b: Block)
    requires IsChain(chain) && InStages(chain, n, e, queue, checking, storing, committing) && b in committing
    ensures 0 < b.number <= n || (0 < b.number == n + 1 <= e && checking == multiset{})
    ensures queue == Span(chain, n + 1, e) && NumbersAbove(queue, n + 1)
  {
    assert b in storing + committing;
  }

  lemma CommitFlows(chain: Chain, w: World, v: World, b: Block, h: Hash, pick: Option<Block>, top: int, spare: nat)
    requires IsChain(chain) && Flow(chain, w, top, spare) && Delivers(w, CommitDone(b, Some(h), pick), v)
    ensures Flow(chain, v, top, spare) && Arrival(w, v)
  {
    hide After, Enabled, Surroundings, Arrival, Span, Capacity, Complete, Content, Clean, InStages;
    var s := w.s;
    IsInFlight(s, CommitDone(b, Some(h), pick));
    CommitNumbers(chain, s.cfg.blockNumber, s.cfg.executed, s.commitQueue, s.checking, s.storing, s.committing, b);
    if b.number <= s.cfg.blockNumber {
      assert NumbersAbove(s.blocks, s.cfg.blockNumber);
      hide NumbersAbove;
      StaleCommitShape(s, b, h, pick);
      hide Flow;
      StaleFlow(chain, w, v, b, top, spare);
    } else {
      hide NumbersAbove;
      NextCommitShape(chain, s, b, h, pick);
      hide Flow;
      NextFlow(chain, w, v, b, h, top, spare);
    }
  }

  lemma StaleFlow(chain: Chain, w: World, v: World, b: Block, top: int, spare: nat)
    requires IsChain(chain) && Flow(chain, w, top, spare) && b.number <= w.s.cfg.blockNumber
    requires v == World(w.s.(committing := w.s.committing - multiset{b}), w.replies)
    ensures Flow(chain, v, top, spare) && Arrival(w, v)
  {
    hide Surroundings, Capacity, Complete, Content, Clean, InStages, NumbersAbove;
    var s := w.s;
    SurroundingsHold(s, v.s, top, spare);
    StaleStages(chain, s.cfg.blockNumber, s.cfg.executed, s.commitQueue, s.checking, s.storing, s.committing, b);
  }

  lemma NextFlow(chain: Chain, w: World, v: World, b: Block, h: Hash, top: int, spare: nat)
    requires IsChain(chain) && Flow(chain, w, top, spare) && w.s.checking == multiset{}
    requires b.number == w.s.cfg.blockNumber + 1 <= w.s.cfg.executed
    requires var s, n, e := w.s, w.s.cfg.blockNumber + 1, w.s.cfg.executed;
      v == World(s.(cfg := s.cfg.(blockNumber := n, nextBlock := n + 1, hash := h), committing := s.committing - multiset{b},
                    commitQueue := Span(chain, n + 1, e),
                    checking := if n < e then multiset{chain(n + 1)} else multiset{}), w.replies)
    ensures Flow(chain, v, top, spare) && Arrival(w, v)
  {
    hide Surroundings, Capacity, Complete, Content, Clean, InStages, NumbersAbove, Span;
    var s := w.s;
    SurroundingsHold(s, v.s, top, spare);
    NextStages(chain, s.cfg.blockNumber, s.cfg.executed, s.commitQueue, s.storing, s.committing, b);
  }

  lemma AppendOne(buffer: seq<Shard>, b: Block)
    requires b.number > 0
    ensures NewerAll(buffer + [[Some(b)]], 0) == NewerAll(buffer, 0) + multiset{b}
  {
    var shard: Shard := [Some(b)];
    assert shard[..0] == [];
    assert Newer(shard, 0) == Newer([], 0) + multiset{b};
    assert (buffer + [shard])[..|buffer|] == buffer;
  }

  lemma ReplyShape(w: World, b: Block, v: World)
    requires Replies(w, b, v) && |w.s.buffer| < w.s.p.maxQueue
    ensures v.s == w.s.(buffer := w.s.buffer + [[Some(b)]])
    ensures w.replies == v.replies + multiset{b}
  {
  }

  lemma RepliedContent(buffer: seq<Shard>, blocks: BlockQueue, replies: multiset<Block>, b: Block)
    requires b.number > 0
    ensures Content(buffer + [[Some(b)]], blocks, replies) == Content(buffer, blocks, replies + multiset{b})
  {
    AppendOne(buffer, b);
    hide NewerAll;
  }

  lemma ReplyFlows(chain: Chain, w: World, b: Block, v: World, top: int, spare: nat)
    requires IsChain(chain) && Flow(chain, w, top, spare) && Replies(w, b, v)
    ensures Flow(chain, v, top, spare) && Arrival(w, v)
  {
    hide After, Enabled, Surroundings, InStages, Capacity, Complete, Content, Clean, Arrival;
    assert |w.replies| > 0 && b.number > 0;
    ReplyShape(w, b, v);
    hide Replies, Flow;
    RepliedFlow(chain, w, b, v, top, spare);
  }

  lemma RepliedFlow(chain: Chain, w: World, b: Block, v: World, top: int, spare: nat)
    requires IsChain(chain) && Flow(chain, w, top, spare) && b.number > 0
    requires v.s == w.s.(buffer := w.s.buffer + [[Some(b)]]) && w.replies == v.replies + multiset{b}
    ensures Flow(chain, v, top, spare) && Arrival(w, v)
  {
    hide Surroundings, InStages, Capacity, Complete, Content;
    SurroundingsHold(w.s, v.s, top, spare);
    RepliedContent(w.s.buffer, w.s.blocks, v.replies, b);
  }

  /** Whichever callback or reply arrives next, the pipeline stays in order. */
  lemma ArrivalFlows(chain: Chain, w: World, v: World, top: int, spare: nat)
    requires IsChain(chain) && Flow(chain, w, top, spare) && EnvStep(w, v)
    ensures Flow(chain, v, top, spare) && Arrival(w, v)
  {
    hide Flow, Arrival, Enabled, After, Replies;
    if Reply(w, v) {
      var b :| Replies(w, b, v);
      ReplyFlows(chain, w, b, v, top, spare);
    } else {
      var step :| Delivers(w, step, v);
      match step
      case ExecuteDone(b, header, pick) => ExecuteFlows(chain, w, v, b, header, pick, top, spare);
      case CheckDone(b, _) => CheckFlows(chain, w, v, b, top, spare);
      case StoreDone(b, _) => StoreFlows(chain, w, v, b, top, spare);
      case CommitDone(b, ledger, pick) => CommitFlows(chain, w, v, b, ledger.value, pick, top, spare);
    }
  }
}
