/** A node that is behind catches up, however its blocks overlap between download and commit: with replies
    and callbacks that may take `d` rounds, and room for a batch and `d` blocks more, 9 * d worker rounds per
    missing block are enough. */
module CatchUp {
  import opened SyncTypes
  import opened SyncConfig
  import opened BlockQueues
  import opened PeerTracking
  import opened RequestPlanner
  import opened SyncProtocol
  import opened SyncInvariants
  import opened Convergence
  import opened Delivery
  import opened Pipeline
  import opened WorkerRound

  // ---- one round ----

  /** With no callback pending every executed block is committed. */
  lemma NothingPending(chain: Chain, w: World, top: int, spare: nat)
    requires IsChain(chain) && Flow(chain, w, top, spare)
    ensures 0 <= w.s.cfg.blockNumber <= w.s.cfg.executed <= top
    ensures !CallbackPending(w.s) ==> w.s.executing == multiset{} && w.s.cfg.blockNumber == w.s.cfg.executed
  {
    hide Surroundings, Supply, Capacity, Span;
    TopIsKnown(w.s, top, spare);
  }

  /** The request keeps the pipeline in order and adds nothing to what is left. */
  lemma RequestFlow(chain: Chain, w: World, top: int, spare: nat)
    requires IsChain(chain) && Flow(chain, w, top, spare) && Slim(w, spare) && w.s.p.maxRequestBlocks > 0
    ensures var v := AfterRequest(chain, w);
      && Flow(chain, v, top, spare) && Left(chain, v, top) <= Left(chain, w, top)
      && v.s.cfg == w.s.cfg && v.s.executing == w.s.executing && Pending(v.s) == Pending(w.s)
  {
    hide Flow, Slim, StartsBatch, BatchEnd, AfterRequest, Left, Pending;
    if StartsBatch(w.s) {
      BatchStarts(chain, w, top, spare);
      BatchedFlow(chain, w, top, spare);
      BatchedLeft(chain, w, BatchEnd(w.s), top);
      PendingFrame(w.s, AfterRequest(chain, w).s);
    } else {
      NothingPending(chain, w, top, spare);
      NoBatchShape(chain, w);
      NoBatchFlow(chain, w, AfterRequest(chain, w), top, spare);
      SameLeft(chain, w, AfterRequest(chain, w), top);
    }
  }

  /** When nothing more is requested and nothing is under way, the request starts a batch. */
  lemma IdleRequests(chain: Chain, w: World, top: int, spare: nat)
    requires IsChain(chain) && Flow(chain, w, top, spare) && Slim(w, spare) && w.s.p.maxRequestBlocks > 0
    requires w.s.executing == multiset{} && w.s.maxRequest <= w.s.cfg.executed == w.s.cfg.blockNumber < top
    ensures Left(chain, AfterRequest(chain, w), top) < Left(chain, w, top)
  {
    IdleStarts(chain, w, top, spare);
    hide Flow, Slim, StartsBatch, BatchEnd, AfterRequest, Left;
    BatchedFlow(chain, w, top, spare);
    BatchedLeft(chain, w, BatchEnd(w.s), top);
  }

  lemma IdleStarts(chain: Chain, w: World, top: int, spare: nat)
    requires IsChain(chain) && Flow(chain, w, top, spare)
    requires w.s.executing == multiset{} && w.s.maxRequest <= w.s.cfg.executed == w.s.cfg.blockNumber < top
    ensures StartsBatch(w.s)
  {
    hide Surroundings, Capacity, Stages, Content, Complete, Clean;
    var s := w.s;
    TopIsKnown(s, top, spare);
    QueueIsAbove(chain, s.cfg.executed, Frontier(s), s.maxRequest, s.buffer, s.blocks, w.replies);
  }

  /** As long as a requested block is not executed, no new batch starts. */
  lemma OpenBatch(chain: Chain, w: World, top: int, spare: nat)
    requires IsChain(chain) && Flow(chain, w, top, spare) && w.s.cfg.executed < w.s.maxRequest
    ensures !StartsBatch(w.s)
  {
    hide Flow, StartsBatch;
    if StartsBatch(w.s) {
      BatchStarts(chain, w, top, spare);
    }
  }

  /** The four stations of a round. */
  lemma RoundStations(chain: Chain, r: Round, top: int, spare: nat)
    requires IsChain(chain) && IsRound(chain, r) && Flow(chain, r.start, top, spare) && FewStale(r.start, spare)
    ensures |r.during| > 0 && |r.after| > 0
    ensures var q, m, a, z := r.during[0], Last(r.during), r.after[0], Last(r.after);
      && m.s.p.maxRequestBlocks > 0 && a == AfterRequest(chain, m) && End(r) == z
      && Advanced(chain, r.start, q, top, spare)
      && Flow(chain, m, top, spare) && Slim(m, spare) && Arrival(q, m) && Left(chain, m, top) <= Left(chain, q, top)
      && Flow(chain, a, top, spare) && Left(chain, a, top) <= Left(chain, m, top)
      && a.s.cfg == m.s.cfg && a.s.executing == m.s.executing
      && Pending(z.s) <= Pending(a.s) == Pending(m.s) <= Pending(q.s)
      && Flow(chain, z, top, spare) && Arrival(a, z) && Left(chain, z, top) <= Left(chain, a, top)
      && (CallbackArrives(r.during) ==> Left(chain, m, top) < Left(chain, q, top))
      && (CallbackArrives(r.after) ==> Left(chain, z, top) < Left(chain, a, top))
  {
    hide Flow, FewStale, Left, Advanced, AfterRequest, Enabled, RunMaintainBuffer, RunMaintainQueue, EnvStep, Callback;
    hide Arrival, Slim, Pending;
    var q, m := r.during[0], Last(r.during);
    WorkerFlow(chain, r.start, top, spare, r.pick, r.next, q);
    AdvancedIs(chain, r.start, q, top, spare);
    ArrivalsFlow(chain, r.during, top, spare, |r.during| - 1);
    ArrivalSlim(q, m, spare);
    RequestFlow(chain, m, top, spare);
    ArrivalsFlow(chain, r.after, top, spare, |r.after| - 1);
  }

  lemma AdvancedIs(chain: Chain, w: World, v: World, top: int, spare: nat)
    requires IsChain(chain) && Advanced(chain, w, v, top, spare)
    ensures Flow(chain, v, top, spare) && Slim(v, spare)
  {
    hide Flow, Slim;
  }

  lemma ArrivalSlim(w: World, v: World, spare: nat)
    requires Arrival(w, v) && Slim(w, spare)
    ensures Slim(v, spare)
  {
  }

  /** Every round keeps the pipeline in order and adds nothing to what is left; the block number never
      falls. */
  lemma RoundFlow(chain: Chain, r: Round, top: int, spare: nat)
    requires IsChain(chain) && IsRound(chain, r) && Flow(chain, r.start, top, spare) && FewStale(r.start, spare)
    ensures Flow(chain, End(r), top, spare)
    ensures r.start.s.cfg.blockNumber <= End(r).s.cfg.blockNumber <= top
    ensures Left(chain, End(r), top) <= Left(chain, r.start, top)
  {
    hide IsRound, Flow, Left, FewStale, AfterRequest, CallbackArrives, Slim;
    RoundStations(chain, r, top, spare);
    NothingPending(chain, End(r), top, spare);
  }

  /** A live round takes something away, until the node is at the top. */
  lemma RoundProgress(chain: Chain, r: Round, top: int, spare: nat)
    requires IsChain(chain) && IsRound(chain, r) && Flow(chain, r.start, top, spare) && FewStale(r.start, spare)
    requires Live(chain, r) && r.start.s.cfg.blockNumber < top
    ensures Left(chain, End(r), top) < Left(chain, r.start, top)
  {
    hide IsRound, Flow, Left, FewStale, AfterRequest, CallbackArrives, Slim, Asked, Phase, Pending;
    RoundStations(chain, r, top, spare);
    NothingPending(chain, r.start, top, spare);
    if !CallbackPending(r.start.s) && Left(chain, r.during[0], top) == Left(chain, r.start, top) {
      QuietRound(chain, r, top, spare);
    }
  }

  /** A live round with no callback pending that executes nothing: the next block is requested if it was
      not, and has arrived if it was. */
  lemma QuietRound(chain: Chain, r: Round, top: int, spare: nat)
    requires IsChain(chain) && IsRound(chain, r) && Flow(chain, r.start, top, spare) && FewStale(r.start, spare)
    requires RepliesArrive(chain, r) && r.start.s.cfg.blockNumber < top && !CallbackPending(r.start.s)
    requires |r.during| > 0 && Left(chain, r.during[0], top) == Left(chain, r.start, top)
    ensures Left(chain, End(r), top) < Left(chain, r.start, top)
  {
    hide IsRound, Flow, Left, FewStale, AfterRequest, CallbackArrives, Slim, Asked, Phase, Pending;
    RoundStations(chain, r, top, spare);
    NothingPending(chain, r.start, top, spare);
    var q, m := r.during[0], Last(r.during);
    NothingPending(chain, m, top, spare);
    assert m.s.cfg.executed == m.s.cfg.blockNumber == r.start.s.cfg.executed;
    if m.s.maxRequest <= m.s.cfg.executed {
      IdleRequests(chain, m, top, spare);
    } else {
      OpenBatch(chain, m, top, spare);
      NoBatchShape(chain, m);
      assert Asked(chain, m.s) == multiset{} by { NothingAsked(chain, m.s); }
      AllHere(chain, r.start, End(r), top);
    }
  }

  lemma NothingAsked(chain: Chain, s: State)
    requires IsChain(chain) && s.p.maxRequestBlocks > 0 && !StartsBatch(s)
    ensures Asked(chain, s) == multiset{}
  {
  }

  /** The next block was on its way and is not any more. */
  lemma AllHere(chain: Chain, w: World, v: World, top: int)
    requires 1 <= Phase(chain, w) && v.replies == multiset{} && Frontier(v.s) == Frontier(w.s) < top
    requires v.s.maxRequest == w.s.maxRequest > Frontier(w.s) && Pending(v.s) <= Pending(w.s)
    ensures Left(chain, v, top) < Left(chain, w, top)
  {
    hide Pending;
  }

  // ---- all rounds ----

  ghost predicate AreRounds(chain: Chain, rs: seq<Round>) {
    && (forall i :: 0 <= i < |rs| ==> IsRound(chain, rs[i]))
    && (forall i :: 0 < i < |rs| ==> rs[i].start == End(rs[i - 1]))
  }

  /** How many of the rounds are live. */
  ghost function Lives(chain: Chain, rs: seq<Round>): nat {
    if rs == [] then 0
    else Lives(chain, rs[..|rs| - 1]) + if Live(chain, rs[|rs| - 1]) then 1 else 0
  }

  ghost predicate FewStaleThroughout(rs: seq<Round>, spare: nat) {
    forall i :: 0 <= i < |rs| ==> FewStale(rs[i].start, spare)
  }

  lemma {:induction false} RoundsProgress(chain: Chain, rs: seq<Round>, top: int, spare: nat, i: nat)
    requires IsChain(chain) && AreRounds(chain, rs) && i < |rs|
    requires Flow(chain, rs[0].start, top, spare) && FewStaleThroughout(rs, spare)
    ensures Flow(chain, End(rs[i]), top, spare) && End(rs[i]).s.cfg.blockNumber <= top
    ensures End(rs[i]).s.cfg.blockNumber < top ==>
              Left(chain, End(rs[i]), top) + Lives(chain, rs[..i + 1]) <= Left(chain, rs[0].start, top)
  {
    hide IsRound, Flow, FewStale, End, Left, Live;
    assert rs[..i + 1][..i] == rs[..i];
    if i > 0 {
      RoundsProgress(chain, rs, top, spare, i - 1);
    }
    RoundFlow(chain, rs[i], top, spare);
    if Live(chain, rs[i]) && rs[i].start.s.cfg.blockNumber < top {
      RoundProgress(chain, rs[i], top, spare);
    }
  }

  lemma EnoughLiveRounds(chain: Chain, rs: seq<Round>, top: int, spare: nat)
    requires IsChain(chain) && AreRounds(chain, rs) && |rs| > 0
    requires Flow(chain, rs[0].start, top, spare) && FewStaleThroughout(rs, spare)
    requires Lives(chain, rs) >= Left(chain, rs[0].start, top)
    ensures End(rs[|rs| - 1]).s.cfg.blockNumber == top
  {
    hide AreRounds, Flow, FewStaleThroughout, End, Left, Lives;
    RoundsProgress(chain, rs, top, spare, |rs| - 1);
    assert rs[..|rs|] == rs;
    LeftIsPositive(chain, End(rs[|rs| - 1]), top, spare);
  }

  // ---- live rounds now and then ----

  /** Among `d` rounds in a row there is always a live one. */
  ghost predicate LiveWithin(chain: Chain, rs: seq<Round>, d: nat) {
    forall i :: 0 <= i <= |rs| - d ==> LiveFrom(chain, rs, i, d)
  }

  ghost predicate LiveFrom(chain: Chain, rs: seq<Round>, i: int, d: nat)
    requires 0 <= i <= |rs| - d
  {
    exists k :: i <= k < i + d && Live(chain, rs[k])
  }

  lemma {:induction false} LivesGrow(chain: Chain, rs: seq<Round>, i: nat, k: nat)
    requires i <= |rs|
    ensures Lives(chain, rs[..i]) <= Lives(chain, rs)
    ensures i <= k < |rs| && Live(chain, rs[k]) ==> Lives(chain, rs[..i]) < Lives(chain, rs)
    decreases |rs|
  {
    hide Live;
    if i == |rs| {
      assert rs[..i] == rs;
    } else {
      var front := rs[..|rs| - 1];
      assert front[..i] == rs[..i];
      LivesGrow(chain, front, i, k);
    }
  }

  lemma {:induction false} LivesInWindows(chain: Chain, rs: seq<Round>, d: nat, m: nat)
    requires d > 0 && LiveWithin(chain, rs, d) && |rs| >= m * d
    ensures Lives(chain, rs) >= m
    decreases m
  {
    hide Live;
    if m > 0 {
      MulMono(m - 1, m, d);
      var i := |rs| - d;
      var front := rs[..i];
      assert LiveWithin(chain, front, d) by { WindowsOfPrefix(chain, rs, d, i); }
      LivesInWindows(chain, front, d, m - 1);
      assert LiveFrom(chain, rs, i, d);
      var k :| i <= k < i + d && Live(chain, rs[k]);
      LivesGrow(chain, rs, i, k);
    }
  }

  lemma WindowsOfPrefix(chain: Chain, rs: seq<Round>, d: nat, n: nat)
    requires LiveWithin(chain, rs, d) && n <= |rs|
    ensures LiveWithin(chain, rs[..n], d)
  {
    hide Live;
    var front := rs[..n];
    forall i | 0 <= i <= n - d
      ensures LiveFrom(chain, front, i, d)
    {
      assert LiveFrom(chain, rs, i, d);
      var k :| i <= k < i + d && Live(chain, rs[k]);
      assert front[k] == rs[k];
    }
  }

  // ---- stale replies ----

  /** A round that takes in the replies outstanding at its start leaves at most one stale one. */
  lemma PromptReplies(chain: Chain, r: Round, top: int, spare: nat)
    requires IsChain(chain) && IsRound(chain, r) && Flow(chain, r.start, top, spare) && FewStale(r.start, spare)
    requires RepliesArrive(chain, r)
    ensures FewStale(End(r), 1)
  {
    hide IsRound, Flow, Left, AfterRequest, CallbackArrives, Slim, Pending, StartsBatch, BatchEnd, Above, Span;
    RoundStations(chain, r, top, spare);
    var m, z := Last(r.during), End(r);
    if StartsBatch(m.s) {
      BatchStarts(chain, m, top, spare);
      StaleBound(chain, z.replies, m.s.cfg.blockNumber, BatchEnd(m.s), z.s.cfg.executed);
    }
  }

  lemma StaleBound(chain: Chain, q: multiset<Block>, lo: int, hi: int, e: int)
    requires IsChain(chain) && q <= Span(chain, lo, hi) && e <= lo + 1
    ensures |q| <= |Above(q, e)| + 1
  {
    var above := Above(q, e);
    var rest, one := q - above, Span(chain, lo, lo + 1);
    assert q == above + rest;
    forall b: Block
      ensures rest[b] <= one[b]
    {
      assert q[b] <= Span(chain, lo, hi)[b];
      assert rest[b] == if b.number <= e then q[b] else 0;
    }
    hide Above, Span;
    CardOfSum(above, rest);
    SubsetSize(rest, one);
  }

  /** What arrives leaves no more stale replies than there were: a block that is executed meanwhile is not
      on its way. */
  lemma ArrivalStale(chain: Chain, w: World, v: World, k: nat)
    requires IsChain(chain) && Supply(chain, w) && Arrival(w, v) && FewStale(w, k)
    ensures FewStale(v, k)
  {
    hide Complete, Content, Clean;
    var e, e' := w.s.cfg.executed, v.s.cfg.executed;
    assert e <= e' <= Frontier(w.s);
    RepliesAhead(chain, w, e');
    hide Above, NumbersAbove;
    StaleShrinks(v.replies, w.replies, e');
  }

  /** A reply for a block that is not executed is for one beyond the last handed to execution. */
  lemma RepliesAhead(chain: Chain, w: World, e: int)
    requires IsChain(chain) && Supply(chain, w) && w.s.cfg.executed <= e <= Frontier(w.s)
    ensures Above(w.replies, e) == Above(w.replies, w.s.cfg.executed)
  {
    ReadySpan(chain, w);
    hide Supply, Flushed;
    var above := Above(w.replies, w.s.cfg.executed);
    forall b: Block | b in above
      ensures b.number > e
    {
      assert b in Flushed(w).s.blocks + above;
    }
    AboveKeepsAll(above, e);
    AboveTwice(w.replies, w.s.cfg.executed, e);
  }

  lemma StaleShrinks(q: multiset<Block>, r: multiset<Block>, e: int)
    requires q <= r
    ensures |q| - |Above(q, e)| <= |r| - |Above(r, e)|
  {
    var rest := r - q;
    assert r == q + rest;
    AboveOfSum(q, rest, e);
    AboveIsPart(rest, e);
    hide Above;
    SubsetSize(Above(rest, e), rest);
    CardOfSum(q, rest);
    CardOfSum(Above(q, e), Above(rest, e));
  }

  /** A request adds at most one stale reply: of the block that is executed and not yet committed. */
  lemma RequestStale(chain: Chain, w: World, top: int, spare: nat, k: nat)
    requires IsChain(chain) && Flow(chain, w, top, spare) && w.s.p.maxRequestBlocks > 0 && FewStale(w, k)
    ensures AfterRequest(chain, w).s.cfg == w.s.cfg ==> FewStale(AfterRequest(chain, w), k + 1)
  {
    hide Flow, StartsBatch, BatchEnd, RunTryRequest, Above, Span;
    if StartsBatch(w.s) {
      BatchStarts(chain, w, top, spare);
      var e, batch := w.s.cfg.executed, Span(chain, w.s.cfg.blockNumber, BatchEnd(w.s));
      StaleBound(chain, batch, w.s.cfg.blockNumber, BatchEnd(w.s), e);
      AboveOfSum(w.replies, batch, e);
      CardOfSum(w.replies, batch);
      CardOfSum(Above(w.replies, e), Above(batch, e));
    } else {
      assert w.replies + multiset{} == w.replies;
    }
  }

  /** So a round adds at most one. */
  lemma RoundStale(chain: Chain, r: Round, top: int, spare: nat, k: nat)
    requires IsChain(chain) && IsRound(chain, r) && Flow(chain, r.start, top, spare)
    requires FewStale(r.start, k) && k <= spare
    ensures FewStale(End(r), k + 1)
  {
    assert FewStale(r.start, spare);
    hide IsRound, Left, AfterRequest, CallbackArrives, Slim, Pending, Surroundings, Counters, Stages, Supply;
    RoundStations(chain, r, top, spare);
    var q, m, a := r.during[0], Last(r.during), r.after[0];
    assert FewStale(q, k);
    hide FewStale;
    ArrivalStale(chain, q, m, k);
    RequestStale(chain, m, top, spare, k);
    ArrivalStale(chain, a, End(r), k + 1);
  }

  /** A bound on the stale replies at the start of round `i`: one more with every round since the last live
      one, or since the beginning, where there were `k`. */
  ghost function Late(chain: Chain, rs: seq<Round>, k: nat, i: nat): nat
    requires i <= |rs|
  {
    if i == 0 then k else if Live(chain, rs[i - 1]) then 1 else Late(chain, rs, k, i - 1) + 1
  }

  /** The last live round before round `i`, or -1. */
  lemma {:induction false} LateSince(chain: Chain, rs: seq<Round>, k: nat, i: nat) returns (l: int)
    requires i <= |rs|
    ensures -1 <= l < i
    ensures forall j :: l < j < i ==> !Live(chain, rs[j])
    ensures Late(chain, rs, k, i) == if l >= 0 then i - l else k + i
  {
    hide Live;
    if i == 0 {
      l := -1;
    } else if Live(chain, rs[i - 1]) {
      l := i - 1;
    } else {
      l := LateSince(chain, rs, k, i - 1);
    }
  }

  lemma LateIsBounded(chain: Chain, rs: seq<Round>, k: nat, d: nat, i: nat)
    requires d > 0 && LiveWithin(chain, rs, d) && i <= |rs|
    ensures Late(chain, rs, k, i) <= k + d
  {
    hide Live, Late;
    var l := LateSince(chain, rs, k, i);
    if l + 1 + d <= i {
      WindowHasLive(chain, rs, d, l + 1);
    }
  }

  lemma WindowHasLive(chain: Chain, rs: seq<Round>, d: nat, i: nat)
    requires LiveWithin(chain, rs, d) && i + d <= |rs|
    ensures exists k :: i <= k < i + d && Live(chain, rs[k])
  {
    hide Live;
    assert LiveFrom(chain, rs, i, d);
  }

  lemma {:induction false} StaleRounds(chain: Chain, rs: seq<Round>, top: int, spare: nat, k: nat, d: nat, i: nat)
    requires IsChain(chain) && AreRounds(chain, rs) && d > 0 && LiveWithin(chain, rs, d) && k + d <= spare && i < |rs|
    requires Flow(chain, rs[0].start, top, spare) && FewStale(rs[0].start, k)
    ensures Flow(chain, rs[i].start, top, spare) && FewStale(rs[i].start, Late(chain, rs, k, i))
    ensures FewStale(rs[i].start, spare)
  {
    hide IsRound, Flow, FewStale, End, LiveWithin, Live;
    LateIsBounded(chain, rs, k, d, i);
    if i > 0 {
      StaleRounds(chain, rs, top, spare, k, d, i - 1);
      RoundFlow(chain, rs[i - 1], top, spare);
      LateIsBounded(chain, rs, k, d, i - 1);
      if Live(chain, rs[i - 1]) {
        LiveReplies(chain, rs[i - 1]);
        PromptReplies(chain, rs[i - 1], top, spare);
      } else {
        RoundStale(chain, rs[i - 1], top, spare, Late(chain, rs, k, i - 1));
      }
    }
    FewerStale(rs[i].start, Late(chain, rs, k, i), spare);
  }

  lemma FewerStale(w: World, k: nat, spare: nat)
    requires FewStale(w, k) && k <= spare
    ensures FewStale(w, spare)
  {
  }

  lemma LiveReplies(chain: Chain, r: Round)
    requires Live(chain, r)
    ensures RepliesArrive(chain, r)
  {
    hide IsRound, CallbackArrives, RepliesArrive;
  }

  // ---- convergence ----

  /** Convergence. From a pipeline in any stage with at most `k` stale replies on their way, with a live round
      among any `d` in a row and room for a batch and `k + d` blocks more, as many rounds as `d` times the
      measure end with the block number at the known highest block. */
  lemma CatchesUp(chain: Chain, rs: seq<Round>, top: int, k: nat, d: nat)
    requires IsChain(chain) && AreRounds(chain, rs) && |rs| > 0 && d > 0 && LiveWithin(chain, rs, d)
    requires Flow(chain, rs[0].start, top, k + d) && FewStale(rs[0].start, k)
    requires |rs| >= Left(chain, rs[0].start, top) * d
    ensures End(rs[|rs| - 1]).s.cfg.blockNumber == top
  {
    hide AreRounds, Flow, FewStale, End, Left, Lives, LiveWithin;
    forall i | 0 <= i < |rs|
      ensures FewStale(rs[i].start, k + d)
    {
      StaleRounds(chain, rs, top, k + d, k, d, i);
    }
    LeftIsPositive(chain, rs[0].start, top, k + d);
    LivesInWindows(chain, rs, d, Left(chain, rs[0].start, top));
    EnoughLiveRounds(chain, rs, top, k + d);
  }

  /** Idle with empty queues, and nothing requested beyond the block number. */
  ghost predicate IdleBehind(w: World, top: int, spare: nat) {
    var s := w.s;
    && Quiet(w) && Surroundings(s, top, spare)
    && s.buffer == [] && s.blocks == s.commitQueue == multiset{}
    && 0 <= s.cfg.blockNumber == s.cfg.executed <= top && s.cfg.nextBlock == s.cfg.blockNumber + 1
    && s.maxRequest <= s.cfg.blockNumber
  }

  lemma IdleFlows(chain: Chain, w: World, top: int, spare: nat)
    requires IsChain(chain) && IdleBehind(w, top, spare) && spare > 0
    ensures Flow(chain, w, top, spare) && FewStale(w, 0)
    ensures Left(chain, w, top) == 9 * (top - w.s.cfg.blockNumber)
  {
    var s, n := w.s, w.s.cfg.blockNumber;
    TopIsKnown(s, top, spare);
    EmptySupply(chain, w);
    EmptySpan(chain, n + 1, n);
    hide Surroundings, Capacity, Supply, Above, Span;
  }

  /** An idle node behind a fixed known height, with replies and callbacks that may take `d` rounds, and room
      for a batch and `d` blocks more: any 9 * d rounds per missing block end at that height. */
  lemma IdleCatchesUp(chain: Chain, rs: seq<Round>, top: int, d: nat)
    requires IsChain(chain) && AreRounds(chain, rs) && |rs| > 0 && d > 0
    requires IdleBehind(rs[0].start, top, d) && LiveWithin(chain, rs, d)
    requires |rs| >= 9 * (top - rs[0].start.s.cfg.blockNumber) * d
    ensures End(rs[|rs| - 1]).s.cfg.blockNumber == top
  {
    hide AreRounds, Flow, FewStale, End, Left, IdleBehind, LiveWithin;
    IdleFlows(chain, rs[0].start, top, d);
    CatchesUp(chain, rs, top, 0, d);
  }

  /** If every round is live, nine rounds per missing block are enough, and room for one block more. */
  lemma PromptCatchesUp(chain: Chain, rs: seq<Round>, top: int)
    requires IsChain(chain) && AreRounds(chain, rs) && |rs| > 0 && IdleBehind(rs[0].start, top, 1)
    requires forall i :: 0 <= i < |rs| ==> Live(chain, rs[i])
    requires |rs| >= 9 * (top - rs[0].start.s.cfg.blockNumber)
    ensures End(rs[|rs| - 1]).s.cfg.blockNumber == top
  {
    hide AreRounds, End, IdleBehind, Live;
    forall i | 0 <= i <= |rs| - 1
      ensures LiveFrom(chain, rs, i, 1)
    {
      assert Live(chain, rs[i]);
    }
    IdleCatchesUp(chain, rs, top, 1);
  }

  // ---- there are such nodes and such rounds ----

  /** From every world there are sequences of live rounds of any length. */
  lemma {:induction false} RoundsExist(chain: Chain, w: World, k: nat) returns (rs: seq<Round>)
    requires IsChain(chain) && w.s.p.maxRequestBlocks > 0
    ensures |rs| == k + 1 && AreRounds(chain, rs) && rs[0].start == w && End(rs[k]).s.p == w.s.p
    ensures forall i :: 0 <= i < |rs| ==> Live(chain, rs[i])
  {
    hide IsRound, End, Live, Quiet;
    if k == 0 {
      var r := RoundExists(chain, w);
      rs := [r];
    } else {
      var front := RoundsExist(chain, w, k - 1);
      var r := RoundExists(chain, End(front[k - 1]));
      rs := front + [r];
    }
  }

  /** A concrete idle node, five blocks behind one peer, with the limits the source starts with. */
  lemma SomeNodeIsBehind() returns (w: World)
    ensures IdleBehind(w, 5, 1) && w.s.cfg.blockNumber == 0
  {
    var peer := NodeId(1);
    var peers: Peers := map[peer := Status(5, 15, 7)];
    var cfg := Config(0, 1, 0, 5, 0, 7, 15, 7);
    w := World(State(Params(256, 8, 2, 10), NodeId(0), cfg, peers, [], multiset{}, multiset{}, multiset{}, multiset{},
                     multiset{}, multiset{}, Idle, 0), multiset{});
    assert Eligible(peers, 5) == {peer};
  }

  /** And one in the middle of it: ten blocks executed and none committed, so that the water mark stops the
      execution and the commit queue the requests. */
  lemma SomePipelineIsFull(chain: Chain) returns (w: World)
    requires IsChain(chain)
    ensures Flow(chain, w, 20, 1) && WaitsForCommit(w.s) && w.s.cfg.executed == w.s.cfg.blockNumber + w.s.p.waterMark
  {
    hide Span, InCommit, NumbersIn;
    var peer := NodeId(1);
    var peers: Peers := map[peer := Status(20, 15, 7)];
    var cfg := Config(0, 1, 10, 20, 0, 7, 15, 7);
    w := World(State(Params(256, 8, 2, 10), NodeId(0), cfg, peers, [], multiset{}, Span(chain, 1, 10), multiset{},
                     multiset{chain(1)}, multiset{}, multiset{}, Downloading, 10), multiset{});
    assert Surroundings(w.s, 20, 1) by { assert Eligible(peers, 20) == {peer}; }
    hide Surroundings;
    assert Stages(chain, w.s) by { FirstIsChecked(chain, w.s); }
    hide Stages;
    assert Supply(chain, w) by { EmptySupply(chain, w); }
    hide Supply;
    assert Capacity(w.s) == 16 by { assert Eligible(peers, 20) == {peer}; }
  }

  lemma EmptySupply(chain: Chain, w: World)
    requires IsChain(chain) && w.s.buffer == [] && w.s.blocks == w.replies == w.s.executing == multiset{}
    requires w.s.maxRequest <= w.s.cfg.executed
    ensures Supply(chain, w)
  {
    AboveKeepsAll(multiset{}, w.s.cfg.executed);
    EmptySpan(chain, w.s.cfg.executed, w.s.maxRequest);
    assert Content([], multiset{}, multiset{}) == multiset{};
    hide Above, Span, Content;
  }

  lemma FirstIsChecked(chain: Chain, s: State)
    requires IsChain(chain) && s.commitQueue == Span(chain, s.cfg.blockNumber + 1, s.cfg.executed)
    requires s.checking == multiset{chain(s.cfg.blockNumber + 1)} && s.storing == s.committing == multiset{}
    requires s.cfg.blockNumber < s.cfg.executed
    ensures Stages(chain, s)
  {
    hide Span;
  }
}
