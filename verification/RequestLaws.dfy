/** When a request round asks, and for which blocks, in terms of the node's fields alone. */
module RequestLaws {
  import opened SyncTypes
  import opened Words
  import opened SyncConfig
  import opened BlockQueues
  import opened BlockBuffer
  import opened RequestPlanner
  import opened SyncProtocol
  import opened SyncInvariants
  import opened StepEffects
  import opened SyncRuns
  import EndToEnd

  /** Neither the ledger nor the execution nor the consensus has reached the known highest block. */
  predicate Behind(c: Config) {
    Max(c.proposal, Max(c.blockNumber, c.executed)) < c.knownHighest
  }

  /** Executed blocks wait for an earlier one to be committed. */
  predicate Waiting(s: State) {
    s.commitQueue != multiset{} && s.cfg.executed != s.cfg.blockNumber
  }

  /** Not everything that was requested has been executed, and no timeout has ended the batch. */
  predicate Open(s: State) {
    s.mode == Downloading && s.cfg.executed < s.maxRequest
  }

  predicate Opens(s: State) {
    !Waiting(s) && Behind(s.cfg) && !Open(s)
  }

  /** A block worth asking for and within reach: above the block number, known to exist, not queued, and no
      further than the shards that the peers at the known height take together. */
  ghost predicate Askable(s: State, m: int) {
    && s.cfg.blockNumber < m <= s.cfg.knownHighest
    && m - s.cfg.blockNumber <= |Eligible(s.peers, s.cfg.knownHighest)| * s.p.maxShardPerPeer * s.p.maxRequestBlocks
    && ((exists c: Block :: c in s.blocks && c.number == s.cfg.blockNumber + 1) ||
        (forall c: Block :: c in s.blocks ==> m < c.number))
  }

  lemma TargetIsGap(s: State, m: int)
    requires Inv(s) && s.cfg.blockNumber < s.cfg.knownHighest
    ensures s.cfg.blockNumber < RequestTo(s) <= s.cfg.knownHighest
    ensures s.cfg.blockNumber < m <= RequestTo(s) <==>
      && s.cfg.blockNumber < m <= s.cfg.knownHighest
      && ((exists c: Block :: c in s.blocks && c.number == s.cfg.blockNumber + 1) ||
          (forall c: Block :: c in s.blocks ==> m < c.number))
  {
    hide Records, CommitStages;
    if |s.blocks| > 0 {
      var n := TopNumber(s.blocks);
      var b: Block :| IsTop(s.blocks, b) && b.number == n;
      hide TopNumber;
      assert b in s.blocks;
      assert n > s.cfg.blockNumber;
    } else {
      assert s.blocks == multiset{};
    }
  }

  lemma OpensIsStart(s: State)
    requires Inv(s)
    ensures Opens(s) <==> StartsBatch(s)
  {
    assert |s.commitQueue| == 0 <==> s.commitQueue == multiset{};
    if Behind(s.cfg) {
      TargetIsGap(s, s.cfg.blockNumber + 1);
    }
    hide RequestTo, Queues, Records, CommitStages;
  }

  /** The plan reaches exactly as far as the target and the peers' shards allow. */
  lemma PlanReaches(from: int, to: int, b: int, perPeer: nat, e: nat, m: int)
    requires from < to && b > 0
    ensures var k := PlanCount(from, to, b, perPeer, e);
      && k >= 0
      && (from < m <= Min(to, from + k * b) <==> from < m <= to && m - from <= e * perPeer * b)
  {
    var total, k := ShardTotal(from, to, b), PlanCount(from, to, b, perPeer, e);
    ShardTotalBounds(from, to, b);
    MulMono(0, e, perPeer);
    MulMono(k, e * perPeer, b);
    MulMono(total, e * perPeer, b);
  }

  /** A batch asks for exactly the blocks worth asking for. */
  lemma AsksExactly(s: State, m: int)
    requires Inv(s) && Opens(s)
    ensures s.cfg.blockNumber < m <= BatchEnd(s) <==> Askable(s, m)
  {
    TargetIsGap(s, m);
    hide Inv, RequestTo;
    PlanReaches(s.cfg.blockNumber, RequestTo(s), s.p.maxRequestBlocks, s.p.maxShardPerPeer,
                |Eligible(s.peers, s.cfg.knownHighest)|, m);
    hide PlanCount;
  }

  /** The whole request step. It waits, or ends a finished batch, or opens one; the end of what was requested
      is then the largest block asked for, unless more was requested before. */
  lemma RequestLaw(s: State)
    requires Inv(s) && Enabled(s, TryRequest)
    ensures var t := After(s, TryRequest);
      && t == s.(mode := t.mode, maxRequest := t.maxRequest)
      && (Opens(s) ==>
            && t.mode == Downloading && t.maxRequest >= s.maxRequest
            && (forall m :: Askable(s, m) ==> m <= t.maxRequest)
            && (t.maxRequest == s.maxRequest || Askable(s, t.maxRequest)))
      && (!Opens(s) ==>
            && t.maxRequest == s.maxRequest
            && t.mode == if !Waiting(s) && s.maxRequest <= s.cfg.executed then Idle else s.mode)
  {
    assert |s.commitQueue| == 0 <==> s.commitQueue == multiset{};
    assert s.cfg.blockNumber <= s.cfg.executed;
    OpensIsStart(s);
    if Opens(s) {
      forall m
        ensures s.cfg.blockNumber < m <= BatchEnd(s) <==> Askable(s, m)
      {
        AsksExactly(s, m);
      }
      BatchIsGapOnly(s);
      NoShards(s);
    }
    hide Inv, StartsBatch, BatchEnd, BatchShards, Askable;
  }

  lemma NoShards(s: State)
    requires Inv(s) && Opens(s)
    ensures BatchShards(s) == 0 ==> BatchEnd(s) <= s.cfg.blockNumber
  {
    hide RequestTo, PlanCount;
  }

  /** The messages of a batch ask for exactly those blocks. */
  lemma MessagesAsk(s: State, sent: seq<Request>, m: int)
    requires Inv(s) && Opens(s) && s.cfg.knownHighest < TWO63 && s.p.maxRequestBlocks < TWO63
    requires |sent| == BatchShards(s) && s.cfg.blockNumber + |sent| * s.p.maxRequestBlocks < TWO63
    requires BatchEnd(s) < TWO63 - 1
    requires IsPlan(sent, Cut64(s.cfg.blockNumber, RequestTo(s), s.p.maxRequestBlocks), s.peers, s.cfg.knownHighest)
    ensures EndToEnd.Sendable(sent) && (EndToEnd.AskedFor(sent, m) <==> Askable(s, m))
  {
    var from, to, b := s.cfg.blockNumber, RequestTo(s), s.p.maxRequestBlocks;
    AsksExactly(s, m);
    TargetIsGap(s, m);
    assert 0 <= from;
    hide Inv, RequestTo, Askable, Cut64, IsPlan;
    EndToEnd.PlanIsSendable(sent, from, to, b, s.peers, s.cfg.knownHighest);
    EndToEnd.PlanIsDisjoint(sent, from, to, b);
  }

  // ---- a failed block is asked for again ----

  /** A check, store or commit that failed for the next block. */
  predicate FailsNext(s: State, step: Step) {
    && IsCompletion(step) && Failed(step) && step.block.number == s.cfg.blockNumber + 1
  }

  /** After a failure of the next block the execution point is back at the block number. */
  lemma FailureResets(s: State, step: Step)
    requires Inv(s) && Enabled(s, step) && FailsNext(s, step)
    ensures var t := After(s, step);
      t.cfg == s.cfg.(executed := s.cfg.blockNumber) && t.mode == s.mode && t.maxRequest == s.maxRequest
  {
    hide CommitPick, TryCommit, OnNewBlock, CommitBlock;
  }

  /** What happens meanwhile: messages, flushes, peer maintenance, a timeout. */
  predicate Meanwhile(step: Step) {
    IsQuiet(step) && !step.TryRequest?
  }

  lemma MeanwhileKeeps(s: State, step: Step)
    requires Inv(s) && Enabled(s, step) && Meanwhile(step)
    ensures var t := After(s, step);
      && t.cfg.blockNumber == s.cfg.blockNumber && t.cfg.executed == s.cfg.executed
      && t.mode == (if step.Timeout? then Idle else s.mode)
  {
    QuietFrame(s, step);
    ModeMeanwhile(s, step);
    hide After, Enabled, Inv;
  }

  lemma ModeMeanwhile(s: State, step: Step)
    requires Enabled(s, step) && Meanwhile(step)
    ensures After(s, step).mode == (if step.Timeout? then Idle else s.mode)
  {
    hide BufferAfter, BlocksAfter, TopNumber;
  }

  lemma {:induction false} MeanwhileRun(r: Run, i: nat, k: nat, j: nat)
    requires IsRun(r) && i <= k <= |r.steps|
    requires forall l :: i <= l < k ==> Meanwhile(r.steps[l])
    ensures r.states[k].cfg.blockNumber == r.states[i].cfg.blockNumber
    ensures r.states[k].cfg.executed == r.states[i].cfg.executed
    ensures i <= j < k && r.steps[j].Timeout? ==> r.states[k].mode == Idle
    decreases k
  {
    hide Enabled, After, Inv, Effect, Initial, Meanwhile;
    if i < k {
      MeanwhileRun(r, i, k - 1, j);
      RunStep(r, k - 1);
      MeanwhileKeeps(r.states[k - 1], r.steps[k - 1]);
      if j == k - 1 {
        MeanwhileRun(r, i, k - 1, i);
      }
    }
  }

  /** In every run: if the check, the store or the commit of the next block fails at step `i`, a timeout
      follows, and nothing but messages, flushes and peer maintenance happens until the request round at step
      `k`, then that round asks for the block again, provided the node is still behind and has a peer to ask. */
  lemma FailedBlockIsAskedAgain(r: Run, i: nat, j: nat, k: nat)
    requires IsRun(r) && i < j < k < |r.steps| && r.steps[k] == TryRequest
    requires FailsNext(r.states[i], r.steps[i]) && r.steps[j].Timeout?
    requires forall l :: i < l < k ==> Meanwhile(r.steps[l])
    requires var s := r.states[k];
      && Max(s.cfg.blockNumber, s.cfg.proposal) < s.cfg.knownHighest
      && |Eligible(s.peers, s.cfg.knownHighest)| > 0 && s.p.maxShardPerPeer > 0
    ensures var s, t := r.states[k], r.states[k + 1];
      && r.steps[i].block.number <= BatchEnd(s) && s.cfg.blockNumber == r.steps[i].block.number - 1
      && t.mode == Downloading && t.maxRequest >= r.steps[i].block.number
  {
    hide Enabled, After, Inv, Effect, Initial, BatchEnd, Askable;
    RunStep(r, i);
    FailureResets(r.states[i], r.steps[i]);
    MeanwhileRun(r, i + 1, k, j);
    RunStep(r, k);
    var s := r.states[k];
    NextIsAskable(s);
    AsksExactly(s, s.cfg.blockNumber + 1);
    RequestLaw(s);
  }

  lemma NextIsAskable(s: State)
    requires Inv(s) && s.cfg.blockNumber < s.cfg.knownHighest
    requires |Eligible(s.peers, s.cfg.knownHighest)| > 0 && s.p.maxShardPerPeer > 0
    ensures Askable(s, s.cfg.blockNumber + 1)
  {
    var e, k := |Eligible(s.peers, s.cfg.knownHighest)|, s.p.maxShardPerPeer;
    MulMono(1, e, k);
    MulMono(1, e * k, s.p.maxRequestBlocks);
    hide Records, CommitStages;
    if !(exists c: Block :: c in s.blocks && c.number == s.cfg.blockNumber + 1) {
      assert forall c: Block :: c in s.blocks ==> c.number != s.cfg.blockNumber + 1;
    }
  }

  // ---- the consensus goes first ----

  /** A node that is not behind, be it only because the consensus has committed a proposal at the known height,
      asks for nothing, and its worker hands nothing to execution and empties buffer and download queue. */
  lemma NotBehindRests(s: State, step: Step)
    requires Enabled(s, step) && !Behind(s.cfg)
    ensures var t := After(s, step);
      && (step.TryRequest? ==> t.maxRequest == s.maxRequest)
      && (step.MaintainQueue? ==> t == s.(buffer := [], blocks := multiset{}, mode := Idle))
      && (step.MaintainBuffer? ==> t == s.(buffer := [], blocks := multiset{}))
  {
    hide BufferAfter, BlocksAfter, TopNumber, BatchShards, BatchEnd;
    assert |s.buffer| == 0 ==> s.buffer == [];
    assert |s.blocks| == 0 ==> s.blocks == multiset{};
  }

  lemma ExecutesNothingNew(s: State, step: Step, t: State)
    requires Inv(s) && IsStep(s, step, t) && Effect(s, step, t) && s.cfg.proposal >= s.cfg.knownHighest
    ensures t.maxRequest == s.maxRequest && forall b: Block :: b in t.executing ==> b in s.executing
  {
    NotBehindRests(s, step);
    DuplicateIsInFlight(s, step);
    hide After, Enabled, Inv, Sourced, Advances, Learns, Releases;
  }

  lemma DuplicateIsInFlight(s: State, step: Step)
    requires Enabled(s, step)
    ensures step.Duplicate? && step.stage == Executing ==> step.block in s.executing
  {
    hide CommitPick, ExecutePick, TryCommit, OnNewBlock;
  }

  /** In every run: from a notice of the consensus on, as long as no other notice comes and the known height
      does not exceed it, nothing is requested and nothing new is handed to execution. */
  lemma {:induction false} QuietFromNotice(r: Run, i: nat, k: nat)
    requires IsRun(r) && i < k <= |r.steps| && r.steps[i].CommittedIndex?
    requires forall l :: i < l < k ==> !r.steps[l].CommittedIndex?
    requires forall l :: i < l < k ==> r.states[l].cfg.knownHighest <= r.steps[i].proposal
    ensures r.states[k].cfg.proposal == r.steps[i].proposal && r.states[k].maxRequest == r.states[i].maxRequest
    ensures forall b: Block :: b in r.states[k].executing ==> b in r.states[i].executing
    decreases k
  {
    hide Enabled, After, Inv, Initial, Frames, Sourced, Advances, Releases;
    RunStep(r, k - 1);
    if k == i + 1 {
      NoticeOnly(r.states[i], r.steps[i]);
    } else {
      QuietFromNotice(r, i, k - 1);
      ExecutesNothingNew(r.states[k - 1], r.steps[k - 1], r.states[k]);
    }
  }

  lemma NoticeOnly(s: State, step: Step)
    requires Enabled(s, step) && step.CommittedIndex?
    ensures After(s, step) == s.(cfg := s.cfg.(proposal := step.proposal))
  {
  }
}
