/** The synchronisation module as an object: every entry point takes exactly the step of the protocol that
    carries its name. */
module BlockSync {
  import opened SyncTypes
  import opened Words
  import opened SyncConfig
  import opened BlockQueues
  import opened BlockBuffer
  import opened PeerTracking
  import opened RequestPlanner
  import opened SyncProtocol
  import opened Downloads

  /** What a batch of `n` shards makes of the state. */
  lemma BatchOutcome(s: State, n: nat)
    requires s.p.maxRequestBlocks > 0 && StartsBatch(s)
    requires n == PlanCount(s.cfg.blockNumber, RequestTo(s), s.p.maxRequestBlocks, s.p.maxShardPerPeer,
                            |Eligible(s.peers, s.cfg.knownHighest)|)
    ensures n == BatchShards(s)
    ensures RunTryRequest(s) ==
            s.(mode := Downloading, maxRequest := if n == 0 then s.maxRequest
               else Max(s.maxRequest, Min(RequestTo(s), s.cfg.blockNumber + n * s.p.maxRequestBlocks)))
  {
    hide RequestTo;
  }

  lemma BatchCount(s: State)
    requires s.p.maxRequestBlocks > 0 && s.cfg.blockNumber < RequestTo(s)
    ensures BatchShards(s) == PlanCount(s.cfg.blockNumber, RequestTo(s), s.p.maxRequestBlocks, s.p.maxShardPerPeer,
                                        |Eligible(s.peers, s.cfg.knownHighest)|)
  {
    hide RequestTo;
    ShardTotalBounds(s.cfg.blockNumber, RequestTo(s), s.p.maxRequestBlocks);
    MulMono(0, |Eligible(s.peers, s.cfg.knownHighest)|, s.p.maxShardPerPeer);
  }

  lemma StartsIfReady(s: State)
    requires !WaitsForCommit(s) && ShouldSync(s.cfg) && Released(s).mode == Idle && s.cfg.blockNumber < RequestTo(s)
    ensures StartsBatch(s)
  {
    hide RequestTo;
  }

  lemma SameTarget(s: State, t: State)
    requires s.blocks == t.blocks && s.cfg == t.cfg
    ensures RequestTo(s) == RequestTo(t)
  {
  }

  lemma NoBatchOutcome(s: State)
    requires s.p.maxRequestBlocks > 0 && !StartsBatch(s)
    ensures RunTryRequest(s) == if WaitsForCommit(s) then s else Released(s)
  {
    hide RequestTo;
  }

  function Members(group: seq<NodeId>): (members: set<NodeId>)
    ensures forall n :: n in members <==> n in group
  {
    set n | n in group
  }

  /** The status messages one round of peer maintenance sends, in the order of the group. */
  function Announcements(group: seq<NodeId>, self: NodeId, connected: set<NodeId>, own: Status): seq<(NodeId, Status)> {
    if group == [] then []
    else
      var front, n := Announcements(group[..|group| - 1], self, connected, own), group[|group| - 1];
      if n != self && n in connected then front + [(n, own)] else front
  }

  lemma StayingConfig(s: State, view: GroupView)
    ensures WithStaying(s, view).cfg == s.cfg
  {
  }

  lemma AnnouncedTwice(s: State)
    ensures Announced(Announced(s)) == Announced(s) && OwnStatus(Announced(s).cfg) == OwnStatus(s.cfg)
  {
    StatusTwice(s.cfg, s.peers, s.self, OwnStatus(s.cfg));
  }

  class Node {
    const self: NodeId
    const config: BlockSyncConfig
    const status: SyncPeerStatus
    const queue: DownloadingQueue
    var mode: Mode
    var maxRequest: int

    ghost predicate Valid()
      reads this, status, status.peers.Values
    {
      && status.Valid() && status.config == config && queue.config == config
      && queue.p.maxRequestBlocks > 0
    }

    /** What lies outside the queues. */
    ghost function Shell(): State
      reads this, config, status, status.peers.Values
    {
      State(queue.p, self, config.View(), status.View(), [], multiset{}, multiset{}, multiset{}, multiset{}, multiset{},
            multiset{}, mode, maxRequest)
    }

    ghost function View(): State
      reads this, config, status, status.peers.Values, queue, queue.config
    {
      queue.In(Shell())
    }

    lemma ViewFields()
      requires queue.config == config
      ensures View().cfg == config.View() && View().peers == status.View() && View().p == queue.p
      ensures View().mode == mode && View().maxRequest == maxRequest
    {
    }

    /** Only the part outside the queues matters for placing them. */
    lemma InShell(s: State)
      requires queue.config == config
      requires s.self == self && s.peers == status.View() && s.mode == mode && s.maxRequest == maxRequest
      ensures queue.In(s) == View()
    {
    }

    /** A node on a ledger at height `n` with head `h`. */
    constructor (self: NodeId, p: Params, genesis: Hash, n: nat, h: Hash)
      requires p.maxRequestBlocks > 0
      ensures Valid() && Initial(View()) && View().p == p && View().self == self
      ensures View().cfg == ResetConfig(SetGenesis(FRESH, genesis), n, h)
    {
      this.self := self;
      var c := new BlockSyncConfig();
      c.SetGenesisHash(genesis);
      c.Reset(n, h);
      config := c;
      status := new SyncPeerStatus(c);
      queue := new DownloadingQueue(c, p);
      mode, maxRequest := Idle, 0;
    }

    method ShouldSyncing() returns (should: bool)
      ensures should == ShouldSync(config.View())
    {
      if config.blockNumber >= config.knownHighest {
        return false;
      }
      if config.proposal >= config.knownHighest {
        return false;
      }
      return config.executed < config.knownHighest;
    }

    method OnDownloadTimeout()
      requires Valid()
      modifies this`mode
      ensures Valid() && View() == After(old(View()), Timeout)
    {
      mode := Idle;
    }

    method OnPeerBlocks(shard: Shard)
      requires Valid()
      modifies queue
      ensures Valid() && View() == After(old(View()), ReceiveBlocks(shard))
    {
      queue.Push(shard, Shell());
    }

    method AsyncNotifyCommittedIndex(n: int)
      requires Valid()
      modifies config
      ensures Valid() && View() == After(old(View()), CommittedIndex(n))
    {
      config.SetCommittedProposalNumber(n);
    }

    method AsyncNotifyNewBlock(n: int, h: Hash) returns (ghost pick: Option<Block>)
      requires Valid()
      modifies queue, config
      ensures Valid() && Enabled(old(View()), NewBlock(n, h, pick))
      ensures View() == After(old(View()), NewBlock(n, h, pick))
    {
      hide TryCommit, CommitPick, OnNewBlock;
      pick := None;
      if n > config.blockNumber {
        pick := queue.FinalizeBlock(n, h, Shell());
      }
    }

    method MaintainDownloadingBuffer()
      requires Valid()
      modifies queue
      ensures Valid() && View() == RunMaintainBuffer(old(View()))
    {
      hide TopNumber, BufferAfter, BlocksAfter;
      ghost var shell := Shell();
      InShell(shell);
      assert |queue.blockBuffer| == |View().buffer| && |queue.blocks| == |View().blocks|;
      assert config.View() == View().cfg;
      if |queue.blockBuffer| + |queue.blocks| == 0 {
        return;
      }
      var should := ShouldSyncing();
      if !should {
        queue.Clear(shell);
      } else {
        queue.ClearFullQueueIfNotHas(config.nextBlock, shell);
        queue.FlushBufferToQueue(shell);
      }
      InShell(shell);
      hide View, Shell;
    }

    method MaintainDownloadingQueue() returns (ghost pick: Option<Block>, ghost next: Option<Block>)
      requires Valid()
      modifies this`mode, queue, config
      ensures Valid() && Enabled(old(View()), MaintainQueue(pick, next))
      ensures View() == RunMaintainQueue(old(View()), pick, next)
    {
      hide TryCommit, CommitPick, ExecuteNext, ExecutePick;
      ghost var shell := Shell();
      InShell(shell);
      assert config.View() == View().cfg && View().p == queue.p;
      pick, next := None, None;
      var should := ShouldSyncing();
      if !should {
        queue.Clear(shell);
        mode := Idle;
        InShell(shell.(mode := Idle));
      } else {
        pick := queue.TryToCommitBlockToLedger(shell);
        InShell(shell);
        next := ExecuteTop();
      }
      hide View, Shell;
    }

    method ExecuteTop() returns (ghost next: Option<Block>)
      requires Valid()
      modifies this`mode, queue, config
      ensures Valid() && ExecutePick(old(View()), next)
      ensures View() == ExecuteNext(old(View()), next)
    {
      hide ExecutePick, Above;
      ghost var shell := Shell();
      InShell(shell);
      var top := queue.TakeNext(shell);
      next := top;
      InShell(shell);
      if top.Some? {
        Execute(top.value);
      }
      hide View, Shell;
    }

    method Execute(b: Block)
      requires Valid()
      modifies this`mode, queue, config
      ensures Valid() && View() == ApplyBlock(old(View()).(mode := Downloading), b)
    {
      ghost var shell := Shell().(mode := Downloading);
      mode := Downloading;
      InShell(shell);
      queue.ApplyDownloaded(b, shell);
      InShell(shell);
      hide View, Shell;
    }

    /** Requests are handed to the peers in 64-bit arithmetic, which is exact for the shards sent if the
        rounded-up end of the last one is a block number. */
    ghost predicate Addressable(from: int, shards: int)
      reads config
    {
      config.knownHighest < TWO63 && queue.p.maxRequestBlocks < TWO63 && from + shards * queue.p.maxRequestBlocks < TWO63
    }

    method DownloadFinish()
      modifies this`mode
      ensures mode == Idle
    {
      mode := Idle;
    }

    method RequestBlocks(from: int, to: int) returns (sent: seq<Request>)
      requires Valid() && 0 <= from < to <= config.knownHighest
      requires Addressable(from, PlanCount(from, to, queue.p.maxRequestBlocks, queue.p.maxShardPerPeer,
                                           |Eligible(status.View(), config.knownHighest)|))
      modifies this`mode, this`maxRequest
      ensures Valid() && View() == old(View()).(mode := Downloading, maxRequest := maxRequest)
      ensures IsPlan(sent, Cut64(from, to, queue.p.maxRequestBlocks), status.View(), config.knownHighest)
      ensures |sent| == PlanCount(from, to, queue.p.maxRequestBlocks, queue.p.maxShardPerPeer,
                                  |Eligible(status.View(), config.knownHighest)|)
      ensures forall id :: CountFor(sent, id) <= queue.p.maxShardPerPeer
      ensures maxRequest == if |sent| == 0 then old(maxRequest)
                            else Max(old(maxRequest), Min(to, from + |sent| * queue.p.maxRequestBlocks))
    {
      hide Cut64, IsPlan, PlanCount, CountFor, Eligible;
      mode := Downloading;
      sent, maxRequest := RequestExactly(status, config.knownHighest, from, to, queue.p.maxRequestBlocks,
                                         queue.p.maxShardPerPeer, maxRequest);
    }

    /** The last block worth asking for: below what the download queue already holds beyond the next one. */
    method RequestTarget() returns (to: int)
      requires Valid()
      ensures to == RequestTo(View()) && to <= config.knownHighest
    {
      to := config.knownHighest;
      if |queue.blocks| > 0 {
        var top := Top(queue.blocks);
        if top.number > config.nextBlock {
          to := Min(config.knownHighest, top.number - 1);
        }
      }
    }

    method ReadyToRequest() returns (ready: bool)
      requires Valid()
      modifies this`mode
      ensures Valid()
      ensures View() == if WaitsForCommit(old(View())) then old(View()) else Released(old(View()))
      ensures ready == (!WaitsForCommit(old(View())) && ShouldSync(old(View()).cfg) && Released(old(View())).mode == Idle)
    {
      if config.blockNumber < config.executed && |queue.commitQueue| > 0 {
        return false;
      }
      if maxRequest <= config.blockNumber || maxRequest <= config.executed {
        DownloadFinish();
      }
      var should := ShouldSyncing();
      return should && mode != Downloading;
    }

    method TryToRequestBlocks() returns (sent: seq<Request>)
      requires Valid() && 0 <= config.blockNumber
      requires StartsBatch(View()) ==> Addressable(config.blockNumber, BatchShards(View()))
      modifies this`mode, this`maxRequest
      ensures Valid() && View() == RunTryRequest(old(View()))
      ensures |sent| == if StartsBatch(old(View())) then BatchShards(old(View())) else 0
      ensures StartsBatch(old(View())) ==>
        IsPlan(sent, Cut64(config.blockNumber, RequestTo(old(View())), queue.p.maxRequestBlocks), status.View(),
               config.knownHighest)
    {
      hide Cut64, IsPlan, TopNumber, RequestTo, View, Shell, RunTryRequest, BatchShards, PlanCount, Eligible;
      ghost var before := View();
      ViewFields();
      sent := [];
      var ready := ReadyToRequest();
      if !ready {
        NoBatchOutcome(before);
        return;
      }
      var to := RequestTarget();
      SameTarget(before, View());
      if config.blockNumber >= to {
        NoBatchOutcome(before);
        return;
      }
      StartsIfReady(before);
      BatchCount(before);
      hide StartsBatch;
      sent := RequestBlocks(config.blockNumber, to);
      BatchOutcome(before, |sent|);
    }

    method OnPeerStatus(id: NodeId, st: Status, inGroup: bool)
      requires Valid()
      modifies status`peers, status.peers.Values, config
      ensures Valid() && fresh(status.peers.Values - old(status.peers.Values))
      ensures View() == After(old(View()), ReceiveStatus(id, st, inGroup))
    {
      if !inGroup && st.number <= config.blockNumber {
        return;
      }
      var _ := status.UpdatePeerStatus(id, st);
    }

    method StalePeers(group: seq<NodeId>, connected: set<NodeId>) returns (stale: seq<NodeId>)
      requires Valid()
      ensures forall id :: id in stale <==>
        id in View().peers && !StaysPeer(View(), GroupView(true, Members(group), connected), id)
    {
      var keys := KeySequence(status.peers.Keys);
      PermutationIsDuplicateFree(keys, status.peers.Keys);
      stale := [];
      for i := 0 to |keys|
        invariant forall id :: id in stale <==>
          id in keys[..i] && !StaysPeer(View(), GroupView(true, Members(group), connected), id)
      {
        var peer := keys[i];
        if peer != self {
          if peer !in connected {
            stale := stale + [peer];
          } else if peer !in group && config.blockNumber >= status.peers[peer].number {
            stale := stale + [peer];
          }
        }
      }
    }

    /** The node's own status, recorded as if a peer had sent it. */
    method AnnounceOnce() returns (own: Status)
      requires Valid()
      modifies status`peers, status.peers.Values, config
      ensures Valid() && fresh(status.peers.Values - old(status.peers.Values))
      ensures View() == Announced(old(View())) && own == OwnStatus(old(View()).cfg)
    {
      own := Status(config.blockNumber, config.hash, config.genesis);
      var _ := status.UpdatePeerStatus(self, own);
    }

    /** Each connected group member is told the node's status, which makes the node record it once more. */
    method AnnounceToGroup(group: seq<NodeId>, connected: set<NodeId>) returns (told: seq<(NodeId, Status)>)
      requires Valid()
      modifies status`peers, status.peers.Values, config
      ensures Valid() && fresh(status.peers.Values - old(status.peers.Values))
      ensures View() == if exists n :: n in group && n != self && n in connected
                        then Announced(old(View())) else old(View())
      ensures told == Announcements(group, self, connected, OwnStatus(old(View()).cfg))
    {
      hide View, Announced, OwnStatus;
      ghost var before := View();
      AnnouncedTwice(before);
      told := [];
      for i := 0 to |group|
        invariant Valid() && fresh(status.peers.Values - old(status.peers.Values))
        invariant View() == if exists n :: n in group[..i] && n != self && n in connected
                            then Announced(before) else before
        invariant told == Announcements(group[..i], self, connected, OwnStatus(before.cfg))
      {
        assert forall n :: n in group[..i + 1] <==> n in group[..i] || n == group[i];
        assert group[..i + 1][..i] == group[..i];
        if group[i] != self && group[i] in connected {
          var own := AnnounceOnce();
          told := told + [(group[i], own)];
        }
      }
      assert group[..|group|] == group;
    }

    method DropStalePeers(group: seq<NodeId>, connected: set<NodeId>)
      requires Valid()
      modifies status`peers
      ensures Valid() && status.peers.Values <= old(status.peers.Values)
      ensures View() == WithStaying(old(View()), GroupView(true, Members(group), connected))
    {
      var stale := StalePeers(group, connected);
      status.DeletePeers(stale);
      assert status.View() == WithStaying(old(View()), GroupView(true, Members(group), connected)).peers;
    }

    method MaintainPeersConnection(member: bool, group: seq<NodeId>, connected: set<NodeId>)
      returns (told: seq<(NodeId, Status)>)
      requires Valid()
      modifies status`peers, status.peers.Values, config
      ensures Valid() && fresh(status.peers.Values - old(status.peers.Values))
      ensures View() == RunMaintainPeers(old(View()), GroupView(member, Members(group), connected))
      ensures told == if member then Announcements(group, self, connected, OwnStatus(old(View()).cfg)) else []
    {
      hide WithStaying, Announced, Announcements;
      told := [];
      if !member {
        return;
      }
      DropStalePeers(group, connected);
      StayingConfig(old(View()), GroupView(true, Members(group), connected));
      told := AnnounceToGroup(group, connected);
    }

    method OnPeerBlocksRequest(id: NodeId, inGroup: bool)
      requires Valid()
      modifies status`peers
      ensures Valid() && fresh(status.peers.Values - old(status.peers.Values))
      ensures View() == After(old(View()), ReceiveRequest(id, inGroup))
    {
      if id !in status.peers && inGroup {
        var _ := status.InsertEmptyPeer(id);
      }
    }
  }
}
