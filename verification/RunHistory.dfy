/** What the known height, the batches and the queue sizes are, over the history of a run. */
module RunHistory {
  import opened BlockQueues
  import opened BlockBuffer
  import opened PeerTracking
  import opened RequestPlanner
  import opened SyncProtocol
  import opened SyncInvariants
  import opened StepEffects
  import opened SyncRuns

  // ---- the known highest block ----

  /** No accepted status and no block number of the run so far is above the known highest number. */
  ghost predicate KnownCovers(r: Run, i: nat)
    requires IsRun(r) && i <= |r.steps|
  {
    && (forall j :: 0 <= j < i && AcceptsStatus(r.states[j], r.steps[j]) ==>
          r.steps[j].status.number <= r.states[i].cfg.knownHighest)
    && (forall j :: 0 <= j <= i ==> r.states[j].cfg.blockNumber <= r.states[i].cfg.knownHighest)
  }

  /** The known number and hash came together: from genesis, one accepted status, or one adopted block. */
  ghost predicate KnownAttained(r: Run, i: nat)
    requires IsRun(r) && i <= |r.steps|
  {
    var c := r.states[i].cfg;
    || KnownPair(c, 0, c.genesis)
    || (exists j :: 0 <= j < i && AcceptsStatus(r.states[j], r.steps[j]) &&
                    KnownPair(c, r.steps[j].status.number, r.steps[j].status.hash))
    || (exists j :: 0 <= j <= i && KnownPair(c, r.states[j].cfg.blockNumber, r.states[j].cfg.hash))
  }

  /** The known highest block is the running maximum of its history, hash included. */
  lemma {:induction false} KnownIsRunningMaximum(r: Run, i: nat)
    requires IsRun(r) && i <= |r.steps|
    ensures KnownCovers(r, i) && KnownAttained(r, i)
    ensures GoodPeers(r.states[i].cfg, r.states[i].peers)
  {
    hide Enabled, After, Effect, Inv, GoodPeers, KnownCovers, KnownAttained, IsStep, Initial;
    RunInv(r, i);
    RecordsAreGood(r.states[i]);
    if i == 0 {
      KnownInitially(r);
    } else {
      KnownIsRunningMaximum(r, i - 1);
      RunStep(r, i - 1);
      KnownStep(r, i - 1);
    }
  }

  lemma RecordsAreGood(s: State)
    requires Inv(s)
    ensures GoodPeers(s.cfg, s.peers)
  {
  }

  lemma KnownInitially(r: Run)
    requires IsRun(r)
    ensures KnownCovers(r, 0) && KnownAttained(r, 0)
  {
    var c := r.states[0].cfg;
    assert KnownPair(c, 0, c.genesis) || KnownPair(c, c.blockNumber, c.hash);
  }

  lemma KnownStep(r: Run, i: nat)
    requires IsRun(r) && i < |r.steps| && KnownCovers(r, i) && KnownAttained(r, i)
    requires Effect(r.states[i], r.steps[i], r.states[i + 1])
    ensures KnownCovers(r, i + 1) && KnownAttained(r, i + 1)
  {
    hide IsStep, Initial, Frames, Sourced, Executes, Releases;
    var c, d := r.states[i].cfg, r.states[i + 1].cfg;
    if KnownPair(c, d.knownHighest, d.knownHash) {
      if j :| 0 <= j < i && AcceptsStatus(r.states[j], r.steps[j]) &&
              KnownPair(c, r.steps[j].status.number, r.steps[j].status.hash) {
        assert 0 <= j < i + 1;
      } else if j :| 0 <= j <= i && KnownPair(c, r.states[j].cfg.blockNumber, r.states[j].cfg.hash) {
        assert 0 <= j <= i + 1;
      }
    }
  }

  // ---- batches ----

  ghost predicate IsBatch(r: Run, i: nat)
    requires IsRun(r) && i < |r.steps|
  {
    r.steps[i] == TryRequest && StartsBatch(r.states[i])
  }

  lemma BatchDownloads(s: State, t: State)
    requires IsStep(s, TryRequest, t) && StartsBatch(s)
    ensures t.mode == Downloading
  {
  }

  lemma {:induction false} StillDownloading(r: Run, i: nat, k: nat)
    requires IsRun(r) && i < k <= |r.steps| && IsBatch(r, i)
    requires forall l :: i < l < k ==> !r.steps[l].Timeout? && !Reached(r.states[l])
    ensures r.states[k].mode == Downloading
  {
    hide IsStep, Initial, StartsBatch, Frames, Sourced, Executes, Advances, Learns, Inv, Reached;
    RunStep(r, k - 1);
    if k == i + 1 {
      BatchDownloads(r.states[i], r.states[k]);
    } else {
      StillDownloading(r, i, k - 1);
    }
  }

  /** Between two batches something ended the first: a timeout, or a state where the consensus reached the
      known height or the block number or the execution point reached the end of everything requested. */
  lemma BatchesDoNotOverlap(r: Run, i: nat, j: nat)
    requires IsRun(r) && i < j < |r.steps| && IsBatch(r, i) && IsBatch(r, j)
    ensures r.states[j].maxRequest <= r.states[j].cfg.knownHighest
    ensures exists k :: i < k <= j && (Reached(r.states[k]) || (k < j && r.steps[k].Timeout?))
  {
    RunInv(r, j);
    hide IsStep, Initial, Inv;
    if forall k :: i < k < j ==> !r.steps[k].Timeout? && !Reached(r.states[k]) {
      StillDownloading(r, i, j);
      assert Reached(r.states[j]);
    }
  }

  // ---- the node does not ask itself ----

  predicate OwnRecord(s: State) {
    s.self in s.peers ==> s.peers[s.self].number <= s.cfg.blockNumber
  }

  lemma MaintainPeersOwnRecord(s: State, view: GroupView)
    requires OwnRecord(s) && s.cfg.blockNumber <= s.cfg.knownHighest
    ensures OwnRecord(RunMaintainPeers(s, view))
  {
    if view.member {
      var kept := map id | id in s.peers && StaysPeer(s, view, id) :: s.peers[id];
      assert s.self in kept ==> kept[s.self] == s.peers[s.self];
      assert UpdateConfig(s.cfg, kept, s.self, OwnStatus(s.cfg)) == s.cfg;
    }
  }

  lemma MessageOwnRecord(s: State, step: Step)
    requires OwnRecord(s) && Enabled(s, step) && 0 <= s.cfg.blockNumber
    requires (step.ReceiveStatus? && step.peer != s.self) || step.ReceiveRequest?
    ensures OwnRecord(After(s, step))
  {
  }

  lemma OwnRecordStep(s: State, step: Step, t: State)
    requires Inv(s) && OwnRecord(s) && IsStep(s, step, t) && Effect(s, step, t)
    requires step.ReceiveStatus? ==> step.peer != s.self
    ensures OwnRecord(t)
  {
    assert Window(s);
    hide Inv, Enabled, Sourced, Executes, Learns, Releases, RunMaintainPeers;
    if step.MaintainPeers? {
      MaintainPeersOwnRecord(s, step.view);
    } else {
      hide After;
      if step.ReceiveStatus? || step.ReceiveRequest? {
        MessageOwnRecord(s, step);
      }
    }
  }

  /** The node's own record never reaches beyond its block number, so no batch asks the node itself,
      provided no status message from the network carries its own id. */
  lemma {:induction false} NeverAsksItself(r: Run, i: nat)
    requires IsRun(r) && i <= |r.steps|
    requires forall j :: 0 <= j < i && r.steps[j].ReceiveStatus? ==> r.steps[j].peer != r.states[j].self
    ensures OwnRecord(r.states[i])
    ensures StartsBatch(r.states[i]) ==> r.states[i].self !in Eligible(r.states[i].peers, r.states[i].cfg.knownHighest)
  {
    hide Enabled, After, Effect, Inv, RequestTo, Initial;
    if i == 0 {
      InitialRecord(r.states[0]);
    } else {
      NeverAsksItself(r, i - 1);
      RunStep(r, i - 1);
      OwnRecordStep(r.states[i - 1], r.steps[i - 1], r.states[i]);
    }
  }

  lemma InitialRecord(s: State)
    requires Initial(s)
    ensures OwnRecord(s)
  {
  }

  // ---- sizes ----

  ghost predicate WithinCapacity(s: State, largest: nat) {
    && |s.buffer| <= s.p.maxQueue
    && (forall i :: 0 <= i < |s.buffer| ==> |s.buffer[i]| <= largest)
    && |s.blocks| <= s.p.maxQueue + largest - 1
  }

  lemma FlushWithinCapacity(s: State, largest: nat)
    requires WithinCapacity(s, largest) && largest >= 1
    ensures WithinCapacity(RunMaintainBuffer(s), largest)
  {
    if |s.buffer| + |s.blocks| != 0 && ShouldSync(s.cfg) {
      var blocks := if |s.blocks| == s.p.maxQueue && |s.blocks| > 0 && TopNumber(s.blocks) > s.cfg.nextBlock
                    then multiset{} else s.blocks;
      FlushCapacity(s.buffer, blocks, s.cfg.blockNumber, s.p.maxQueue, largest);
    }
  }

  lemma CapacityStep(s: State, step: Step, t: State, largest: nat)
    requires Inv(t) && WithinCapacity(s, largest) && IsStep(s, step, t) && Effect(s, step, t) && largest >= 1
    requires step.ReceiveBlocks? ==> |step.shard| <= largest
    ensures WithinCapacity(t, largest)
  {
    hide Enabled, After, Inv, RunMaintainBuffer;
    if step.MaintainBuffer? {
      FlushIs(s, step, t);
      FlushWithinCapacity(s, largest);
    } else {
      BufferIsBounded(t);
      hide Sourced, Executes, Advances, Learns, Releases;
      SubsetSize(t.blocks, s.blocks);
    }
  }

  lemma FlushIs(s: State, step: Step, t: State)
    requires IsStep(s, step, t) && step.MaintainBuffer?
    ensures t == RunMaintainBuffer(s)
  {
    hide RunMaintainBuffer;
  }

  lemma BufferIsBounded(s: State)
    requires Inv(s)
    ensures |s.buffer| <= s.p.maxQueue
  {
  }

  /** If no message carries more than `largest` blocks, the buffer stays within its limit and the download
      queue exceeds the same limit by less than one message. */
  lemma {:induction false} QueuesStayBounded(r: Run, i: nat, largest: nat)
    requires IsRun(r) && i <= |r.steps| && largest >= 1
    requires forall j :: 0 <= j < i && r.steps[j].ReceiveBlocks? ==> |r.steps[j].shard| <= largest
    ensures WithinCapacity(r.states[i], largest)
  {
    hide Enabled, After, Effect, Inv;
    if i > 0 {
      QueuesStayBounded(r, i - 1, largest);
      RunStep(r, i - 1);
      CapacityStep(r.states[i - 1], r.steps[i - 1], r.states[i], largest);
    }
  }
}
