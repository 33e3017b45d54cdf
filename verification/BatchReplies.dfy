/** The replies that a catching-up node waits for are those its peers send. */
module BatchReplies {
  import opened SyncTypes
  import opened Words
  import opened PeerTracking
  import opened RequestPlanner
  import opened SyncProtocol
  import opened Convergence
  import EndToEnd
  import BlockSync

  /** The batch of state `s`, planned, sent and served: the numbers served are those of the blocks that
      `Asked` puts on their way, each exactly once, and those blocks are the chain's. */
  method ServeAsked(status: SyncPeerStatus, known: int, from: int, to: int, b: int, perPeer: nat, limit: nat,
                    failures: nat, ghost chain: Chain, ghost s: State)
    returns (sent: seq<Request>, served: multiset<int>)
    requires status.Valid() && IsChain(chain) && StartsBatch(s) && perPeer + failures <= limit
    requires status.View() == s.peers && known == s.cfg.knownHighest && from == s.cfg.blockNumber && to == RequestTo(s)
    requires b == s.p.maxRequestBlocks && perPeer == s.p.maxShardPerPeer
    requires 0 <= from && known < TWO63 && 0 < b < TWO63
    requires from + BatchShards(s) * b < TWO63 && BatchEnd(s) < TWO63 - 1
    ensures |sent| == BatchShards(s)
    ensures forall n :: served[n] == Asked(chain, s)[chain(n)]
    ensures forall c: Block :: c in Asked(chain, s) ==> c == chain(c.number)
  {
    BlockSync.BatchCount(s);
    TargetIsKnown(s);
    hide PlanCount, Eligible, RequestTo, StartsBatch;
    sent, served := EndToEnd.RequestAndServe(status, known, from, to, b, perPeer, limit, failures);
    forall n
      ensures served[n] == Asked(chain, s)[chain(n)]
    {
      assert chain(n).number == n;
    }
    hide Span;
  }

  lemma TargetIsKnown(s: State)
    requires StartsBatch(s)
    ensures s.cfg.blockNumber < RequestTo(s) <= s.cfg.knownHighest
  {
  }
}
