/** One batch from the requests to the answers: what the peers serve is exactly what was missing. */
module EndToEnd {
  import opened SyncTypes
  import opened Words
  import opened PeerTracking
  import opened RequestPlanner
  import DR = DownloadRequests
  import opened BlockServer

  /** The messages of a batch carry block ranges that fit the requester's arithmetic. */
  ghost predicate Sendable(sent: seq<Request>) {
    forall i :: 0 <= i < |sent| ==> sent[i].size >= 0 && DR.Fits(DR.DownloadRequest(sent[i].from, sent[i].size))
  }

  function Asked(r: Request): DR.DownloadRequest
    requires r.size >= 0
  {
    DR.DownloadRequest(r.from, r.size)
  }

  /** Number `n` is asked for by a message to one of the first `k` peers. */
  ghost predicate AskedOf(sent: seq<Request>, ids: seq<NodeId>, k: nat, n: int)
    requires Sendable(sent) && k <= |ids|
  {
    exists i :: 0 <= i < |sent| && sent[i].peer in ids[..k] && DR.Covers(Asked(sent[i]), n)
  }

  /** What arrives in the queue of peer `p`. */
  ghost function Inbox(sent: seq<Request>, p: NodeId): DR.RequestQueue
    requires Sendable(sent)
  {
    if sent == [] then multiset{}
    else
      var before := Inbox(sent[..|sent| - 1], p);
      var last := sent[|sent| - 1];
      if last.peer == p then before + multiset{Asked(last)} else before
  }

  lemma {:induction false} InboxContents(sent: seq<Request>, p: NodeId)
    requires Sendable(sent)
    ensures DR.AllFit(Inbox(sent, p)) && |Inbox(sent, p)| == CountFor(sent, p)
    ensures forall r: DR.DownloadRequest ::
      r in Inbox(sent, p) <==> exists i :: 0 <= i < |sent| && sent[i].peer == p && Asked(sent[i]) == r
  {
    if sent != [] {
      var front, last := sent[..|sent| - 1], sent[|sent| - 1];
      InboxContents(front, p);
      forall r: DR.DownloadRequest
        ensures r in Inbox(sent, p) <==> exists i :: 0 <= i < |sent| && sent[i].peer == p && Asked(sent[i]) == r
      {
        if i :| 0 <= i < |sent| && sent[i].peer == p && Asked(sent[i]) == r {
          if i < |front| {
            assert front[i].peer == p && Asked(front[i]) == r;
          }
        }
        if r in Inbox(front, p) {
          var i :| 0 <= i < |front| && front[i].peer == p && Asked(front[i]) == r;
          assert sent[i].peer == p;
        } else if last.peer == p && r == Asked(last) {
          assert sent[|sent| - 1].peer == p;
        }
      }
    }
  }

  /** No two messages of the batch ask for the same number. */
  ghost predicate Disjoint(sent: seq<Request>)
    requires Sendable(sent)
  {
    forall i, j, n ::
      (0 <= i < |sent| && 0 <= j < |sent| && DR.Covers(Asked(sent[i]), n) && DR.Covers(Asked(sent[j]), n)) ==> i == j
  }

  ghost predicate AskedFor(sent: seq<Request>, n: int)
    requires Sendable(sent)
  {
    exists i :: 0 <= i < |sent| && DR.Covers(Asked(sent[i]), n)
  }

  lemma InboxCovers(sent: seq<Request>, p: NodeId, n: int)
    requires Sendable(sent)
    ensures DR.QueueCovers(Inbox(sent, p), n) <==>
            exists i :: 0 <= i < |sent| && sent[i].peer == p && DR.Covers(Asked(sent[i]), n)
  {
    InboxContents(sent, p);
    if DR.QueueCovers(Inbox(sent, p), n) {
      var r: DR.DownloadRequest :| r in Inbox(sent, p) && DR.Covers(r, n);
      var i :| 0 <= i < |sent| && sent[i].peer == p && Asked(sent[i]) == r;
      assert sent[i].peer == p && DR.Covers(Asked(sent[i]), n);
    }
    if i :| 0 <= i < |sent| && sent[i].peer == p && DR.Covers(Asked(sent[i]), n) {
      assert Asked(sent[i]) in Inbox(sent, p);
    }
  }

  /** One more peer adds exactly its own numbers. */
  lemma OneMorePeer(sent: seq<Request>, ids: seq<NodeId>, k: nat, n: int)
    requires Sendable(sent) && Disjoint(sent) && k < |ids| && ids[k] !in ids[..k]
    ensures (if AskedOf(sent, ids, k + 1, n) then 1 else 0)
            == (if AskedOf(sent, ids, k, n) then 1 else 0) + Queued(Inbox(sent, ids[k]), n)
  {
    var p := ids[k];
    InboxCovers(sent, p, n);
    assert ids[..k + 1] == ids[..k] + [p];
    if DR.QueueCovers(Inbox(sent, p), n) {
      var i :| 0 <= i < |sent| && sent[i].peer == p && DR.Covers(Asked(sent[i]), n);
      assert AskedOf(sent, ids, k + 1, n);
      forall j | 0 <= j < |sent| && sent[j].peer in ids[..k]
        ensures !DR.Covers(Asked(sent[j]), n)
      {
        assert DR.Covers(Asked(sent[j]), n) ==> i == j;
      }
    } else {
      assert AskedOf(sent, ids, k, n) ==> AskedOf(sent, ids, k + 1, n);
    }
  }

  /** A peer receives its messages one by one. */
  method Receive(sent: seq<Request>, p: NodeId, limit: nat) returns (q: DR.DownloadRequestQueue)
    requires Sendable(sent) && CountFor(sent, p) <= limit
    ensures fresh(q) && q.limit == limit && q.reqQueue == Inbox(sent, p)
  {
    q := new DR.DownloadRequestQueue(limit);
    for i := 0 to |sent|
      invariant q.reqQueue == Inbox(sent[..i], p) && q.limit == limit && fresh(q)
    {
      assert sent[..i + 1][..i] == sent[..i];
      InboxContents(sent[..i], p);
      CountForPrefix(sent, p, i + 1);
      if sent[i].peer == p {
        q.Push(sent[i].from, sent[i].size);
      }
    }
    assert sent[..|sent|] == sent;
  }

  /** All peers answer a batch; each may see failed fetches, but no queue is ever full. */
  method ServeBatch(sent: seq<Request>, ids: seq<NodeId>, limit: nat, failures: nat) returns (served: multiset<int>)
    requires Sendable(sent) && Disjoint(sent) && forall p :: CountFor(sent, p) + failures <= limit
    requires forall i, j :: 0 <= i < j < |ids| ==> ids[i] != ids[j]
    ensures forall n :: served[n] == if AskedOf(sent, ids, |ids|, n) then 1 else 0
  {
    served := multiset{};
    for k := 0 to |ids|
      invariant forall n :: served[n] == if AskedOf(sent, ids, k, n) then 1 else 0
    {
      var q := Receive(sent, ids[k], limit);
      InboxContents(sent, ids[k]);
      var answered, lost := ServePeer(q, failures, false);
      forall n
        ensures served[n] + answered[n] == if AskedOf(sent, ids, k + 1, n) then 1 else 0
      {
        OneMorePeer(sent, ids, k, n);
      }
      served := served + answered;
    }
  }

  /** The messages of a plan are the integer shards of the range. */
  lemma PlanIsSendable(sent: seq<Request>, from: int, to: int, b: int, peers: Peers, known: int)
    requires 0 <= from < to < TWO63 && 0 < b < TWO63 && IsPlan(sent, Cut64(from, to, b), peers, known)
    requires from + |sent| * b < TWO63 && Min(to, from + |sent| * b) < TWO63 - 1
    ensures |sent| <= ShardTotal(from, to, b)
    ensures forall i :: 0 <= i < |sent| ==>
      sent[i].from == ShardFrom(from, b, i) && sent[i].from + sent[i].size == ShardTo(from, to, b, i) + 1
    ensures Sendable(sent)
  {
    ShardTotalBounds(from, to, b);
    PlanFitsWords(from, to, b, 0);
    PlanFitsWords(from, to, b, |sent|);
    forall i | 0 <= i < |sent|
      ensures sent[i].from == ShardFrom(from, b, i) && sent[i].from + sent[i].size == ShardTo(from, to, b, i) + 1
      ensures sent[i].size >= 0 && DR.Fits(DR.DownloadRequest(sent[i].from, sent[i].size))
    {
      ShardBelow(from, to, b, i);
      MulMono(i + 1, |sent|, b);
    }
  }

  lemma PlanIsDisjoint(sent: seq<Request>, from: int, to: int, b: int)
    requires from < to && b > 0 && Sendable(sent) && |sent| <= ShardTotal(from, to, b)
    requires forall i :: 0 <= i < |sent| ==>
      sent[i].from == ShardFrom(from, b, i) && sent[i].from + sent[i].size == ShardTo(from, to, b, i) + 1
    ensures Disjoint(sent)
    ensures forall n :: AskedFor(sent, n) <==> from < n <= Min(to, from + |sent| * b)
  {
    forall n, i | 0 <= i < |sent|
      ensures DR.Covers(Asked(sent[i]), n) <==> InShard(from, to, b, i, n)
    {
    }
    forall i, j, n | 0 <= i < |sent| && 0 <= j < |sent| && DR.Covers(Asked(sent[i]), n) && DR.Covers(Asked(sent[j]), n)
      ensures i == j
    {
      ShardsPartition(from, to, b, |sent|, n);
    }
    forall n
      ensures AskedFor(sent, n) <==> from < n <= Min(to, from + |sent| * b)
    {
      ShardsPartition(from, to, b, |sent|, n);
      if from < n <= Min(to, from + |sent| * b) {
        var i :| 0 <= i < |sent| && InShard(from, to, b, i, n);
        assert DR.Covers(Asked(sent[i]), n);
      }
    }
  }

  /** The whole way: plan a batch for (from, to], hand it to the peers, and let all of them answer. Whatever
      the random orders and the failed fetches, every block of the planned range is served exactly once and
      nothing else is. */
  method RequestAndServe(status: SyncPeerStatus, known: int, from: int, to: int, b: int, perPeer: nat,
                         limit: nat, failures: nat)
    returns (sent: seq<Request>, served: multiset<int>)
    requires status.Valid() && 0 <= from < to <= known && to < TWO63 && 0 < b < TWO63
    requires var end := from + PlanCount(from, to, b, perPeer, |Eligible(status.View(), known)|) * b;
      end < TWO63 && Min(to, end) < TWO63 - 1
    requires perPeer + failures <= limit
    ensures |sent| == PlanCount(from, to, b, perPeer, |Eligible(status.View(), known)|)
    ensures forall n :: served[n] == if from < n <= Min(to, from + |sent| * b) then 1 else 0
  {
    hide Cut64, IsPlan, Eligible, CountFor, PlanCount;
    var maxRequest;
    sent, maxRequest := RequestExactly(status, known, from, to, b, perPeer, 0);
    var ids := status.RandomOrder();
    served := ServePlan(sent, from, to, b, status.View(), known, ids, limit, failures);
  }

  method ServePlan(sent: seq<Request>, from: int, to: int, b: int, peers: Peers, known: int, ids: seq<NodeId>,
                   limit: nat, failures: nat)
    returns (served: multiset<int>)
    requires 0 <= from < to <= known && to < TWO63 && 0 < b < TWO63
    requires from + |sent| * b < TWO63 && Min(to, from + |sent| * b) < TWO63 - 1
    requires IsPlan(sent, Cut64(from, to, b), peers, known) && multiset(ids) == multiset(peers.Keys)
    requires forall p :: CountFor(sent, p) + failures <= limit
    ensures forall n :: served[n] == if from < n <= Min(to, from + |sent| * b) then 1 else 0
  {
    PlanIsSendable(sent, from, to, b, peers, known);
    PlanIsDisjoint(sent, from, to, b);
    PermutationIsDuplicateFree(ids, peers.Keys);
    served := ServeBatch(sent, ids, limit, failures);
    assert ids[..|ids|] == ids;
    hide ShardTotal, ShardFrom, ShardTo, Cut64;
    forall n
      ensures AskedOf(sent, ids, |ids|, n) <==> AskedFor(sent, n)
    {
      if AskedFor(sent, n) {
        var i :| 0 <= i < |sent| && DR.Covers(Asked(sent[i]), n);
        assert sent[i].peer in ids[..|ids|];
      }
    }
  }
}
