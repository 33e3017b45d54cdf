/** Splitting the missing range into shards and spreading them over the peers that have it all. */
module RequestPlanner {
  import opened SyncTypes
  import opened PeerTracking
  import opened Words

  /** One request message. */
  datatype Request = Request(peer: NodeId, from: int, size: int)

  /** The integer plan: shard `i` of the range (from, to] in steps of `b` blocks. */
  function ShardTotal(from: int, to: int, b: int): int
    requires b > 0
  {
    (to - from + b - 1) / b
  }

  function ShardFrom(from: int, b: int, i: int): int {
    from + 1 + i * b
  }

  function ShardTo(from: int, to: int, b: int, i: int): int {
    Min(ShardFrom(from, b, i) + b - 1, to)
  }

  /** The same three quantities as the code computes them, in 64 bits. */
  function ShardTotal64(from: int, to: int, b: int): int
    requires b > 0
  {
    U64(to - from + b - 1) / b
  }

  function ShardFrom64(from: int, b: int, i: int): int {
    I64(from + 1 + i * b)
  }

  function ShardTo64(from: int, to: int, b: int, i: int): int {
    Min(I64(ShardFrom64(from, b, i) + b - 1), to)
  }

  function ShardSize64(from: int, to: int, b: int, i: int): int {
    U64(ShardTo64(from, to, b, i) - ShardFrom64(from, b, i) + 1)
  }

  ghost function Eligible(peers: Peers, known: int): set<NodeId> {
    set p | p in peers && peers[p].number >= known
  }

  /** The number of shards one batch sends. */
  ghost function PlanCount(from: int, to: int, b: int, perPeer: nat, eligible: nat): int
    requires b > 0
  {
    Min(ShardTotal(from, to, b), eligible * perPeer)
  }

  // ---- arithmetic of the integer plan ----

  lemma MulMono(x: int, y: int, b: int)
    requires b >= 0
    ensures x <= y ==> x * b <= y * b
    ensures (x + 1) * b == x * b + b
  {
  }

  lemma ShardTotalBounds(from: int, to: int, b: int)
    requires from < to && b > 0
    ensures ShardTotal(from, to, b) > 0
    ensures from + (ShardTotal(from, to, b) - 1) * b < to <= from + ShardTotal(from, to, b) * b < to + b
  {
    var n := to - from + b - 1;
    assert n == (n / b) * b + n % b;
    MulMono(n / b - 1, 0, b);
    MulMono(n / b, 0, b);
  }

  lemma ShardBelow(from: int, to: int, b: int, i: int)
    requires from < to && b > 0 && 0 <= i < ShardTotal(from, to, b)
    ensures from < ShardFrom(from, b, i) <= ShardTo(from, to, b, i) <= to
    ensures ShardTo(from, to, b, i) == Min(from + (i + 1) * b, to)
  {
    ShardTotalBounds(from, to, b);
    MulMono(i, ShardTotal(from, to, b) - 1, b);
    MulMono(0, i, b);
  }

  predicate InShard(from: int, to: int, b: int, i: int, n: int) {
    ShardFrom(from, b, i) <= n <= ShardTo(from, to, b, i)
  }

  /** The shards tile the range: each starts right after the one before and none is empty or too long. */
  lemma ShardsAdjacent(from: int, to: int, b: int, i: int)
    requires from < to && b > 0 && 0 <= i < ShardTotal(from, to, b)
    ensures 1 <= ShardTo(from, to, b, i) - ShardFrom(from, b, i) + 1 <= b
    ensures ShardFrom(from, b, 0) == from + 1
    ensures i > 0 ==> ShardFrom(from, b, i) == ShardTo(from, to, b, i - 1) + 1
  {
    ShardBelow(from, to, b, i);
    if i > 0 {
      ShardBelow(from, to, b, i - 1);
    }
  }

  /** The first `k` shards are together exactly (from, min(to, from + k * b)], each number in one shard. */
  lemma ShardsPartition(from: int, to: int, b: int, k: int, n: int)
    requires from < to && b > 0 && 0 <= k <= ShardTotal(from, to, b)
    ensures (exists i :: 0 <= i < k && InShard(from, to, b, i, n)) <==> from < n <= Min(to, from + k * b)
    ensures forall i, j ::
      (0 <= i < k && 0 <= j < k && InShard(from, to, b, i, n) && InShard(from, to, b, j, n)) ==> i == j
  {
    forall i | 0 <= i < k && InShard(from, to, b, i, n)
      ensures from < n <= Min(to, from + k * b)
    {
      ShardBelow(from, to, b, i);
      MulMono(i + 1, k, b);
    }
    if from < n <= Min(to, from + k * b) {
      var i := ShardIndex(from, b, n, k);
      ShardBelow(from, to, b, i);
      assert InShard(from, to, b, i, n);
    }
    forall i, j | 0 <= i < k && 0 <= j < k && InShard(from, to, b, i, n) && InShard(from, to, b, j, n)
      ensures i == j
    {
      MulMono(i + 1, j, b);
      MulMono(j + 1, i, b);
      MulMono(i, j, b);
      MulMono(j, i, b);
    }
  }

  lemma ShardIndex(from: int, b: int, n: int, k: int) returns (i: int)
    requires b > 0 && from < n <= from + k * b
    ensures 0 <= i < k && ShardFrom(from, b, i) <= n <= from + (i + 1) * b
  {
    var m := n - from - 1;
    i := m / b;
    assert m == i * b + m % b;
    MulMono(k, i, b);
    MulMono(i, -1, b);
  }

  /** The first `k` shards of the 64-bit plan are those of the integer plan exactly when the rounded-up end
      of the last of them fits a block number; the number of shards is always right. */
  lemma PlanFitsWords(from: int, to: int, b: int, k: int)
    requires 0 <= from < to < TWO63 && 0 < b < TWO63 && 0 <= k <= ShardTotal(from, to, b)
    ensures ShardTotal64(from, to, b) == ShardTotal(from, to, b)
    ensures (forall i :: 0 <= i < k ==>
               && ShardFrom64(from, b, i) == ShardFrom(from, b, i)
               && ShardTo64(from, to, b, i) == ShardTo(from, to, b, i)
               && ShardSize64(from, to, b, i) == ShardTo(from, to, b, i) - ShardFrom(from, b, i) + 1)
            <==> from + k * b < TWO63
    ensures to <= TWO63 - b ==> from + k * b < TWO63
  {
    hide ShardFrom64, ShardTo64, ShardSize64, ShardFrom, ShardTo;
    ShardTotalBounds(from, to, b);
    MulMono(k, ShardTotal(from, to, b), b);
    hide ShardTotal;
    if from + k * b < TWO63 {
      forall i | 0 <= i < k
        ensures ShardFrom64(from, b, i) == ShardFrom(from, b, i)
        ensures ShardTo64(from, to, b, i) == ShardTo(from, to, b, i)
        ensures ShardSize64(from, to, b, i) == ShardTo(from, to, b, i) - ShardFrom(from, b, i) + 1
      {
        MulMono(i + 1, k, b);
        ShardFits(from, to, b, i);
      }
    } else {
      ShardWraps(from, to, b, k - 1);
    }
  }

  lemma ShardFits(from: int, to: int, b: int, i: int)
    requires 0 <= from < to < TWO63 && 0 < b < TWO63 && 0 <= i < ShardTotal(from, to, b)
    requires from + (i + 1) * b < TWO63
    ensures ShardFrom64(from, b, i) == ShardFrom(from, b, i)
    ensures ShardTo64(from, to, b, i) == ShardTo(from, to, b, i)
    ensures ShardSize64(from, to, b, i) == ShardTo(from, to, b, i) - ShardFrom(from, b, i) + 1
  {
    ShardBelow(from, to, b, i);
    MulMono(i, 0, b);
  }

  lemma ShardWraps(from: int, to: int, b: int, i: int)
    requires 0 <= from < to < TWO63 && 0 < b < TWO63 && 0 <= i < ShardTotal(from, to, b)
    requires from + (i + 1) * b >= TWO63
    ensures ShardTo64(from, to, b, i) != ShardTo(from, to, b, i)
  {
    ShardBelow(from, to, b, i);
    MulMono(0, i, b);
    assert ShardFrom64(from, b, i) == ShardFrom(from, b, i);
  }

  /** A range ending one below the largest block number already breaks the last shard. */
  lemma PlanCanWrap()
    ensures ShardTo64(TWO63 - 3, TWO63 - 1, 8, 0) < 0
    ensures ShardTo(TWO63 - 3, TWO63 - 1, 8, 0) == TWO63 - 1
  {
  }

  // ---- the traversal ----

  function Kept(order: seq<NodeId>, peers: Peers, known: int): seq<NodeId> {
    if order == [] then []
    else
      var kept := Kept(order[..|order| - 1], peers, known);
      var p := order[|order| - 1];
      if p in peers && peers[p].number >= known then kept + [p] else kept
  }

  lemma {:induction false} KeptElements(order: seq<NodeId>, peers: Peers, known: int, p: NodeId)
    ensures p in Kept(order, peers, known) <==> p in order && p in peers && peers[p].number >= known
  {
    if order != [] {
      var front := order[..|order| - 1];
      assert order == front + [order[|order| - 1]];
      KeptElements(front, peers, known, p);
    }
  }

  lemma {:induction false} KeptSize(order: seq<NodeId>, peers: Peers, known: int)
    requires forall i, j :: 0 <= i < j < |order| ==> order[i] != order[j]
    ensures |Kept(order, peers, known)| == |set p | p in Kept(order, peers, known)|
  {
    if order != [] {
      var front, p := order[..|order| - 1], order[|order| - 1];
      KeptSize(front, peers, known);
      var kept := Kept(front, peers, known);
      KeptElements(front, peers, known, p);
      assert (set q | q in kept + [p]) == (set q | q in kept) + {p};
    }
  }

  /** In every order of the peers, the ones that qualify are as many. */
  lemma KeptCount(order: seq<NodeId>, peers: Peers, known: int)
    requires multiset(order) == multiset(peers.Keys)
    ensures |Kept(order, peers, known)| == |Eligible(peers, known)|
    ensures forall i, j :: 0 <= i < j < |order| ==> order[i] != order[j]
  {
    PermutationIsDuplicateFree(order, peers.Keys);
    KeptSize(order, peers, known);
    forall p
      ensures p in Kept(order, peers, known) <==> p in Eligible(peers, known)
    {
      KeptElements(order, peers, known, p);
    }
    assert (set p | p in Kept(order, peers, known)) == Eligible(peers, known);
  }

  lemma {:induction false} KeptPrefix(order: seq<NodeId>, peers: Peers, known: int, i: nat)
    requires i <= |order|
    ensures |Kept(order[..i], peers, known)| <= |Kept(order, peers, known)|
    decreases |order|
  {
    if i < |order| {
      assert order[..|order| - 1][..i] == order[..i];
      KeptPrefix(order[..|order| - 1], peers, known, i);
    } else {
      assert order[..i] == order;
    }
  }

  ghost function CountFor(sent: seq<Request>, p: NodeId): nat {
    if sent == [] then 0
    else CountFor(sent[..|sent| - 1], p) + (if sent[|sent| - 1].peer == p then 1 else 0)
  }

  /** Asking distinct peers adds at most one request per peer. */
  lemma {:induction false} CountDistinct(before: seq<Request>, sent: seq<Request>, p: NodeId)
    requires before <= sent
    requires forall i, j :: |before| <= i < j < |sent| ==> sent[i].peer != sent[j].peer
    ensures CountFor(sent, p) <= CountFor(before, p) + 1
    ensures (forall i :: |before| <= i < |sent| ==> sent[i].peer != p) ==> CountFor(sent, p) == CountFor(before, p)
    decreases |sent|
  {
    if |sent| == |before| {
      assert sent == before;
    } else {
      CountDistinct(before, sent[..|sent| - 1], p);
    }
  }

  lemma {:induction false} CountForPrefix(sent: seq<Request>, p: NodeId, i: nat)
    requires i <= |sent|
    ensures CountFor(sent[..i], p) <= CountFor(sent, p)
    decreases |sent|
  {
    if i == |sent| {
      assert sent[..i] == sent;
    } else {
      assert sent[..|sent| - 1][..i] == sent[..i];
      CountForPrefix(sent[..|sent| - 1], p, i);
    }
  }

  /** The first and last block of a shard. */
  datatype Range = Range(first: int, last: int)

  function Cut64(from: int, to: int, b: int): (r: seq<Range>)
    requires b > 0
    ensures |r| == ShardTotal64(from, to, b)
  {
    seq(ShardTotal64(from, to, b), i => Range(ShardFrom64(from, b, i), ShardTo64(from, to, b, i)))
  }

  /** Every message carries the shard of its position and goes to a peer that holds the known highest block. */
  ghost predicate IsPlan(sent: seq<Request>, cut: seq<Range>, peers: Peers, known: int) {
    && |sent| <= |cut|
    && forall i :: 0 <= i < |sent| ==>
         && sent[i].from == cut[i].first
         && sent[i].size == U64(cut[i].last - cut[i].first + 1)
         && sent[i].peer in peers && peers[sent[i].peer].number >= known
  }

  /** `m` is the largest end among the first `n` shards and an earlier maximum. */
  ghost predicate IsHighest(cut: seq<Range>, start: int, n: nat, m: int) {
    && n <= |cut|
    && m >= start && (forall i :: 0 <= i < n ==> cut[i].last <= m)
    && (m == start || exists i :: 0 <= i < n && cut[i].last == m)
  }

  lemma PlanExtends(sent: seq<Request>, r: Request, cut: seq<Range>, peers: Peers, known: int, start: int, m: int)
    requires IsPlan(sent, cut, peers, known) && IsHighest(cut, start, |sent|, m)
    requires |sent| < |cut| && r.peer in peers && peers[r.peer].number >= known
    requires r.from == cut[|sent|].first && r.size == U64(cut[|sent|].last - cut[|sent|].first + 1)
    ensures IsPlan(sent + [r], cut, peers, known)
    ensures IsHighest(cut, start, |sent| + 1, Max(m, cut[|sent|].last))
  {
  }

  /** From the `m`-th message on, each goes to another peer, and all to peers seen. */
  ghost predicate AskedOnce(sent: seq<Request>, m: nat, seen: seq<NodeId>) {
    && (forall i :: m <= i < |sent| ==> sent[i].peer in seen)
    && (forall i, j :: m <= i < j < |sent| ==> sent[i].peer != sent[j].peer)
  }

  lemma AskedMore(sent: seq<Request>, m: nat, seen: seq<NodeId>, r: Request)
    requires AskedOnce(sent, m, seen) && r.peer !in seen
    ensures AskedOnce(sent, m, seen + [r.peer]) && AskedOnce(sent + [r], m, seen + [r.peer])
  {
  }

  lemma KeptNext(order: seq<NodeId>, peers: Peers, known: int, k: nat)
    requires k < |order| && order[k] in peers
    ensures |Kept(order[..k + 1], peers, known)| ==
            |Kept(order[..k], peers, known)| + (if peers[order[k]].number >= known then 1 else 0)
    ensures |Kept(order[..k + 1], peers, known)| <= |Kept(order, peers, known)|
  {
    assert order[..k + 1][..k] == order[..k];
    KeptPrefix(order, peers, known, k + 1);
  }

  /** One traversal of the peers in a random order, handing the next shard to each peer that qualifies.
      No shard ends above the known highest block, so the second look at a peer's height never refuses. */
  method AskPeers(order: seq<NodeId>, peers: Peers, known: int, cut: seq<Range>,
                  before: seq<Request>, maxBefore: int, ghost start: int)
    returns (sent: seq<Request>, maxRequest: int, findPeer: bool)
    requires forall i, j :: 0 <= i < j < |order| ==> order[i] != order[j]
    requires forall i :: 0 <= i < |order| ==> order[i] in peers
    requires forall i :: 0 <= i < |cut| ==> cut[i].last <= known
    requires |before| < |cut|
    requires IsPlan(before, cut, peers, known) && IsHighest(cut, start, |before|, maxBefore)
    ensures before <= sent && IsPlan(sent, cut, peers, known) && IsHighest(cut, start, |sent|, maxRequest)
    ensures |sent| == Min(|cut|, |before| + |Kept(order, peers, known)|)
    ensures findPeer <==> |Kept(order, peers, known)| > 0
    ensures AskedOnce(sent, |before|, order)
  {
    hide IsPlan, IsHighest, AskedOnce, Kept, U64;
    sent, maxRequest, findPeer := before, maxBefore, false;
    NothingAsked(order, before, peers, known);
    for k := 0 to |order|
      invariant before <= sent && IsPlan(sent, cut, peers, known) && IsHighest(cut, start, |sent|, maxRequest)
      invariant |sent| == |before| + |Kept(order[..k], peers, known)| < |cut|
      invariant findPeer <==> |sent| > |before|
      invariant AskedOnce(sent, |before|, order[..k])
    {
      var p := order[k];
      assert order[..k + 1] == order[..k] + [p];
      KeptNext(order, peers, known, k);
      var shard := cut[|sent|];
      var request := Request(p, shard.first, U64(shard.last - shard.first + 1));
      AskedMore(sent, |before|, order[..k], request);
      if peers[p].number < known {
        continue;
      }
      if peers[p].number < shard.last {
        continue;
      }
      findPeer := true;
      PlanExtends(sent, request, cut, peers, known, start, maxRequest);
      sent := sent + [request];
      maxRequest := Max(maxRequest, shard.last);
      if |sent| >= |cut| {
        SeenByAll(sent, |before|, order, k + 1);
        return;
      }
    }
    assert order[..|order|] == order;
  }

  lemma NothingAsked(order: seq<NodeId>, before: seq<Request>, peers: Peers, known: int)
    ensures Kept(order[..0], peers, known) == [] && AskedOnce(before, |before|, order[..0])
  {
  }

  lemma SeenByAll(sent: seq<Request>, m: nat, order: seq<NodeId>, k: nat)
    requires k <= |order| && AskedOnce(sent, m, order[..k])
    ensures AskedOnce(sent, m, order)
  {
  }

  /** `n` shards are out after `loops` full traversals. */
  ghost predicate Handed(n: nat, total: nat, eligible: nat, loops: nat) {
    n == Min(total, eligible * loops)
  }

  lemma HandedNext(n: nat, total: nat, eligible: nat, loops: nat)
    requires Handed(n, total, eligible, loops)
    ensures Handed(Min(total, n + eligible), total, eligible, loops + 1)
  {
    assert eligible * (loops + 1) == eligible * loops + eligible;
  }

  lemma HandedAll(n: nat, total: nat, eligible: nat, loops: nat, perPeer: nat)
    requires Handed(n, total, eligible, loops) && loops <= perPeer
    requires n == total || eligible == 0 || loops == perPeer
    ensures Handed(n, total, eligible, perPeer)
  {
    MulMono(loops, perPeer, eligible);
  }

  method AskInOrder(order: seq<NodeId>, peers: Peers, known: int, cut: seq<Range>,
                    before: seq<Request>, maxBefore: int, ghost start: int)
    returns (sent: seq<Request>, maxRequest: int, findPeer: bool)
    requires multiset(order) == multiset(peers.Keys)
    requires forall i :: 0 <= i < |cut| ==> cut[i].last <= known
    requires |before| < |cut|
    requires IsPlan(before, cut, peers, known) && IsHighest(cut, start, |before|, maxBefore)
    ensures IsPlan(sent, cut, peers, known) && IsHighest(cut, start, |sent|, maxRequest)
    ensures |sent| == Min(|cut|, |before| + |Eligible(peers, known)|)
    ensures findPeer <==> |Eligible(peers, known)| > 0
    ensures forall p :: CountFor(sent, p) <= CountFor(before, p) + 1
  {
    KeptCount(order, peers, known);
    PermutationIsDuplicateFree(order, peers.Keys);
    sent, maxRequest, findPeer := AskPeers(order, peers, known, cut, before, maxBefore, start);
    forall p
      ensures CountFor(sent, p) <= CountFor(before, p) + 1
    {
      CountDistinct(before, sent, p);
    }
  }

  /** One traversal over the peers as they are now. */
  method Traverse(status: SyncPeerStatus, known: int, cut: seq<Range>,
                  before: seq<Request>, maxBefore: int, ghost start: int)
    returns (sent: seq<Request>, maxRequest: int, findPeer: bool)
    requires status.Valid()
    requires forall i :: 0 <= i < |cut| ==> cut[i].last <= known
    requires |before| < |cut|
    requires IsPlan(before, cut, status.View(), known) && IsHighest(cut, start, |before|, maxBefore)
    ensures IsPlan(sent, cut, status.View(), known) && IsHighest(cut, start, |sent|, maxRequest)
    ensures |sent| == Min(|cut|, |before| + |Eligible(status.View(), known)|)
    ensures findPeer <==> |Eligible(status.View(), known)| > 0
    ensures forall p :: CountFor(sent, p) <= CountFor(before, p) + 1
  {
    hide IsPlan, IsHighest, Eligible, CountFor;
    var peers := status.View();
    var order := status.RandomOrder();
    sent, maxRequest, findPeer := AskInOrder(order, peers, known, cut, before, maxBefore, start);
  }

  /** Up to `perPeer` traversals, until every shard is handed out or no peer qualifies. */
  method AskAll(status: SyncPeerStatus, known: int, cut: seq<Range>, perPeer: nat, start: int)
    returns (sent: seq<Request>, maxRequest: int)
    requires status.Valid()
    requires forall i :: 0 <= i < |cut| ==> cut[i].last <= known
    ensures IsPlan(sent, cut, status.View(), known) && IsHighest(cut, start, |sent|, maxRequest)
    ensures |sent| == Min(|cut|, |Eligible(status.View(), known)| * perPeer)
    ensures forall p :: CountFor(sent, p) <= perPeer
  {
    hide Eligible;
    ghost var eligible := |Eligible(status.View(), known)|;
    sent, maxRequest := [], start;
    var loop := 0;
    while loop < perPeer && |sent| < |cut|
      invariant loop <= perPeer
      invariant IsPlan(sent, cut, status.View(), known) && IsHighest(cut, start, |sent|, maxRequest)
      invariant Handed(|sent|, |cut|, eligible, loop)
      invariant forall p :: CountFor(sent, p) <= loop
    {
      HandedNext(|sent|, |cut|, eligible, loop);
      var findPeer;
      sent, maxRequest, findPeer := Traverse(status, known, cut, sent, maxRequest, start);
      if !findPeer {
        break;
      }
      loop := loop + 1;
    }
    HandedAll(|sent|, |cut|, eligible, loop, perPeer);
  }

  /** The batch for (from, to]. The count is exact whatever the random orders were. */
  method RequestShards(status: SyncPeerStatus, known: int, from: int, to: int, b: int, perPeer: nat, start: int)
    returns (sent: seq<Request>, maxRequest: int)
    requires status.Valid() && b > 0 && to <= known
    ensures IsPlan(sent, Cut64(from, to, b), status.View(), known)
    ensures |sent| == Min(ShardTotal64(from, to, b), |Eligible(status.View(), known)| * perPeer)
    ensures IsHighest(Cut64(from, to, b), start, |sent|, maxRequest)
    ensures forall p :: CountFor(sent, p) <= perPeer
  {
    var cut := Cut64(from, to, b);
    forall i | 0 <= i < |cut|
      ensures cut[i].last <= known
    {
      assert ShardTo64(from, to, b, i) <= to;
    }
    sent, maxRequest := AskAll(status, known, cut, perPeer, start);
  }

  /** Where the 64-bit plan fits, the largest end of a batch of `k` shards is the end of its range. */
  lemma HighestIsEnd(from: int, to: int, b: int, start: int, k: nat, m: int)
    requires 0 <= from < to < TWO63 && 0 < b < TWO63 && k <= ShardTotal(from, to, b) && from + k * b < TWO63
    requires ShardTotal64(from, to, b) == ShardTotal(from, to, b)
    requires IsHighest(Cut64(from, to, b), start, k, m)
    ensures m == if k == 0 then start else Max(start, Min(to, from + k * b))
  {
    PlanFitsWords(from, to, b, k);
    if k > 0 {
      var cut := Cut64(from, to, b);
      forall i | 0 <= i < k
        ensures cut[i].last == Min(to, from + (i + 1) * b) <= Min(to, from + k * b)
      {
        ShardBelow(from, to, b, i);
        MulMono(i + 1, k, b);
      }
      assert cut[k - 1].last == Min(to, from + k * b);
    }
  }

  /** Where the shards it sends fit, the batch ends where the unbounded plan ends. */
  method RequestExactly(status: SyncPeerStatus, known: int, from: int, to: int, b: int, perPeer: nat, start: int)
    returns (sent: seq<Request>, maxRequest: int)
    requires status.Valid() && 0 <= from < to <= known && to < TWO63 && 0 < b < TWO63
    requires from + PlanCount(from, to, b, perPeer, |Eligible(status.View(), known)|) * b < TWO63
    ensures IsPlan(sent, Cut64(from, to, b), status.View(), known)
    ensures |sent| == PlanCount(from, to, b, perPeer, |Eligible(status.View(), known)|)
    ensures maxRequest == if |sent| == 0 then start else Max(start, Min(to, from + |sent| * b))
    ensures forall p :: CountFor(sent, p) <= perPeer
  {
    hide IsPlan, Cut64, ShardTotal64, Eligible, CountFor;
    ShardTotalBounds(from, to, b);
    PlanFitsWords(from, to, b, 0);
    sent, maxRequest := RequestShards(status, known, from, to, b, perPeer, start);
    HighestIsEnd(from, to, b, start, |sent|, maxRequest);
  }
}
