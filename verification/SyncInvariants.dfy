/** What every step keeps. */
module SyncInvariants {
  import opened SyncTypes
  import opened BlockQueues
  import opened BlockBuffer
  import opened PeerTracking
  import opened RequestPlanner
  import opened SyncProtocol

  ghost predicate NumbersIn(q: multiset<Block>, lo: int, hi: int) {
    forall b: Block :: b in q ==> lo < b.number <= hi
  }

  ghost predicate NumbersAbove(q: multiset<Block>, lo: int) {
    forall b: Block :: b in q ==> lo < b.number
  }

  /** The counters, and the execution window: the execution point is at most the water mark ahead. */
  predicate Window(s: State) {
    && s.p.maxRequestBlocks > 0
    && 0 <= s.cfg.blockNumber <= s.cfg.executed <= s.cfg.blockNumber + s.p.waterMark
    && s.cfg.nextBlock == s.cfg.blockNumber + 1
    && s.cfg.blockNumber <= s.cfg.knownHighest
  }

  /** Everything being checked, stored or committed is at most the next block. */
  ghost predicate CommitStages(s: State) {
    && NumbersIn(s.checking, 0, s.cfg.blockNumber + 1)
    && NumbersIn(s.storing, 0, s.cfg.blockNumber + 1)
    && NumbersIn(s.committing, 0, s.cfg.blockNumber + 1)
  }

  /** Nothing queued has expired, and no execution or executed block is beyond the water mark. */
  ghost predicate Queues(s: State) {
    && NumbersAbove(s.blocks, s.cfg.blockNumber)
    && NumbersIn(s.commitQueue, s.cfg.blockNumber, s.cfg.blockNumber + s.p.waterMark)
    && NumbersIn(s.executing, 0, s.cfg.blockNumber + s.p.waterMark)
  }

  ghost predicate Records(s: State) {
    && GoodPeers(s.cfg, s.peers)
    && s.maxRequest <= s.cfg.knownHighest
    && |s.buffer| <= s.p.maxQueue
  }

  ghost predicate Inv(s: State) {
    Window(s) && CommitStages(s) && Queues(s) && Records(s)
  }

  /** The invariant while a step is under way: the commit queue may hold expired blocks. */
  ghost predicate Midway(s: State) {
    && Window(s) && CommitStages(s) && Records(s)
    && NumbersAbove(s.blocks, s.cfg.blockNumber)
    && NumbersIn(s.commitQueue, 0, s.cfg.blockNumber + s.p.waterMark)
    && NumbersIn(s.executing, 0, s.cfg.blockNumber + s.p.waterMark)
  }

  lemma InitialInv(s: State)
    requires Initial(s)
    ensures Inv(s) && s.cfg.executed == s.cfg.blockNumber
  {
  }

  /** The two callbacks that end in a pass over the commit queue. */
  lemma ExecuteIsPass(s: State, b: Block, header: Option<Hash>, pick: Option<Block>)
    requires Enabled(s, ExecuteDone(b, header, pick)) && ExecutedWell(b, header)
    ensures b in s.executing && CommitPick(Executed(s, b), pick)
    ensures After(s, ExecuteDone(b, header, pick)) == TryCommit(Executed(s, b), pick)
  {
    hide TryCommit, CommitPick, Executed;
  }

  lemma CommitIsPass(s: State, b: Block, h: Hash, pick: Option<Block>)
    requires Enabled(s, CommitDone(b, Some(h), pick))
    ensures var u := OnNewBlock(s.(committing := s.committing - multiset{b}), b.number, h);
      b in s.committing && CommitPick(u, pick) && After(s, CommitDone(b, Some(h), pick)) == TryCommit(u, pick)
  {
    hide TryCommit, CommitPick, OnNewBlock;
  }

  /** A pass over the commit queue: it moves at most one block, the next one, into the check. */
  lemma TryCommitKeeps(s: State, pick: Option<Block>)
    requires Midway(s) && CommitPick(s, pick)
    ensures Inv(TryCommit(s, pick))
    ensures TryCommit(s, pick).cfg == s.cfg
  {
    var t := TryCommit(s, pick);
    TryCommitMoves(s, pick);
    assert NumbersIn(t.commitQueue, s.cfg.blockNumber, s.cfg.blockNumber + s.p.waterMark);
  }

  lemma TryCommitMoves(s: State, pick: Option<Block>)
    requires CommitPick(s, pick)
    ensures var t := TryCommit(s, pick);
      && t == s.(commitQueue := t.commitQueue, checking := t.checking)
      && t.commitQueue + t.checking == Above(s.commitQueue, s.cfg.blockNumber) + s.checking
      && s.checking <= t.checking
      && (forall b: Block :: b in t.checking ==> b in s.checking || b.number == s.cfg.nextBlock)
  {
  }

  /** A new block of the ledger, from outside or from a commit of this module. */
  lemma OnNewBlockKeeps(s: State, n: int, h: Hash)
    requires Inv(s) && n >= 0
    ensures var t := OnNewBlock(s, n, h);
      && Midway(t)
      && t.cfg.blockNumber == Max(s.cfg.blockNumber, n)
      && t.cfg.executed == Max(s.cfg.executed, t.cfg.blockNumber)
      && (n <= s.cfg.blockNumber && s.cfg.blockNumber > 0 ==> t == s)
  {
    var t := OnNewBlock(s, n, h);
    if n <= s.cfg.blockNumber && s.cfg.blockNumber > 0 {
      AboveKeepsAll(s.blocks, s.cfg.blockNumber);
      AboveKeepsAll(s.commitQueue, s.cfg.blockNumber);
    }
    assert forall id :: id in s.peers ==> GoodPeer(s.cfg, s.peers[id]);
  }

  lemma MaintainBufferKeeps(s: State)
    requires Inv(s)
    ensures Inv(RunMaintainBuffer(s))
  {
    FlushedAreAbove(s);
    hide RunMaintainBuffer, BlocksAfter, BufferAfter;
  }

  lemma FlushedAreAbove(s: State)
    requires NumbersAbove(s.blocks, s.cfg.blockNumber)
    ensures var t := RunMaintainBuffer(s);
      t == s.(buffer := t.buffer, blocks := t.blocks) && NumbersAbove(t.blocks, s.cfg.blockNumber)
  {
    hide TopNumber, BufferAfter;
    var n := s.cfg.blockNumber;
    NewerAllAbove(s.buffer[..Accepted(s.buffer, s.blocks, n, s.p.maxQueue)], n);
    NewerAllAbove(s.buffer[..Accepted(s.buffer, multiset{}, n, s.p.maxQueue)], n);
  }

  lemma MaintainQueueKeeps(s: State, pick: Option<Block>, next: Option<Block>)
    requires Inv(s) && Enabled(s, MaintainQueue(pick, next))
    ensures Inv(RunMaintainQueue(s, pick, next))
  {
    if ShouldSync(s.cfg) {
      TryCommitKeeps(s, pick);
      ExecuteNextKeeps(TryCommit(s, pick), next);
    } else {
      DropBlocksKeeps(s, multiset{}, Idle);
    }
  }

  lemma ExecuteNextKeeps(s: State, next: Option<Block>)
    requires Inv(s) && ExecutePick(s, next)
    ensures Inv(ExecuteNext(s, next))
  {
    hide Inv, Above;
    var live := Above(s.blocks, s.cfg.executed);
    AboveIsPart(s.blocks, s.cfg.executed);
    match next
    case None => DropBlocksKeeps(s, live, s.mode);
    case Some(b) =>
      DropBlocksKeeps(s, live - multiset{b}, Downloading);
      ApplyKeeps(s.(blocks := live - multiset{b}, mode := Downloading), b);
  }

  lemma AboveIsPart(q: BlockQueue, n: int)
    ensures Above(q, n) <= q
  {
  }

  lemma DropBlocksKeeps(s: State, blocks: BlockQueue, mode: Mode)
    requires Inv(s) && blocks <= s.blocks
    ensures Inv(s.(blocks := blocks, mode := mode))
  {
    assert forall b: Block :: b in blocks ==> b in s.blocks;
  }

  lemma ApplyKeeps(s: State, b: Block)
    requires Inv(s) && b.number == s.cfg.executed + 1 && s.cfg.executed < s.cfg.blockNumber + s.p.waterMark
    ensures Inv(ApplyBlock(s, b))
  {
  }

  /** A batch covers a non-empty range from the next block that ends at or below the known highest block
      and below whatever the download queue holds beyond the next block. */
  lemma BatchIsGapOnly(s: State)
    requires Inv(s) && StartsBatch(s)
    ensures s.cfg.blockNumber < RequestTo(s) <= s.cfg.knownHighest
    ensures forall b: Block ::
      b in s.blocks && TopNumber(s.blocks) > s.cfg.nextBlock ==> RequestTo(s) < b.number
    ensures BatchShards(s) == PlanCount(s.cfg.blockNumber, RequestTo(s), s.p.maxRequestBlocks,
                                        s.p.maxShardPerPeer, |Eligible(s.peers, s.cfg.knownHighest)|)
    ensures BatchShards(s) <= ShardTotal(s.cfg.blockNumber, RequestTo(s), s.p.maxRequestBlocks)
    ensures BatchShards(s) > 0 ==> s.cfg.blockNumber < BatchEnd(s) <= RequestTo(s)
  {
    var from, to, b := s.cfg.blockNumber, RequestTo(s), s.p.maxRequestBlocks;
    var e, k := |Eligible(s.peers, s.cfg.knownHighest)|, BatchShards(s);
    ShardTotalBounds(from, to, b);
    assert e * s.p.maxShardPerPeer >= 0 by { MulMono(0, e, s.p.maxShardPerPeer); }
    MulMono(1, k, b);
  }

  lemma TryRequestKeeps(s: State)
    requires Inv(s)
    ensures Inv(RunTryRequest(s))
  {
    if StartsBatch(s) {
      BatchIsGapOnly(s);
    }
  }

  lemma MaintainPeersKeeps(s: State, view: GroupView)
    requires Inv(s)
    ensures Inv(RunMaintainPeers(s, view))
    ensures RunMaintainPeers(s, view).cfg == s.cfg
  {
    if view.member {
      var kept := map id | id in s.peers && StaysPeer(s, view, id) :: s.peers[id];
      assert GoodPeers(s.cfg, kept);
      StatusKeepsGood(s.cfg, kept, s.self, OwnStatus(s.cfg));
    }
  }

  /** Rolling the execution point back to below an in-flight block moves it to the block number or not at all. */
  lemma RollbackKeeps(s: State, n: int)
    requires Inv(s) && n <= s.cfg.blockNumber + 1
    ensures Inv(WithExecuted(s, n - 1))
    ensures WithExecuted(s, n - 1).cfg ==
            if n == s.cfg.blockNumber + 1 then s.cfg.(executed := s.cfg.blockNumber) else s.cfg
  {
  }

  lemma CheckDoneKeeps(s: State, b: Block, result: CheckResult)
    requires Inv(s) && Enabled(s, CheckDone(b, result))
    ensures Inv(After(s, CheckDone(b, result)))
  {
    var t := s.(checking := s.checking - multiset{b});
    TakeChecking(s, b);
    if result == CheckPassed {
      CommitBlockKeeps(t, b);
    } else {
      RollbackKeeps(t, b.number);
    }
  }

  lemma TakeChecking(s: State, b: Block)
    requires Inv(s)
    ensures Inv(s.(checking := s.checking - multiset{b}))
  {
  }

  lemma TakeStoring(s: State, b: Block)
    requires Inv(s)
    ensures Inv(s.(storing := s.storing - multiset{b}))
  {
  }

  lemma TakeCommitting(s: State, b: Block)
    requires Inv(s)
    ensures Inv(s.(committing := s.committing - multiset{b}))
  {
  }

  lemma CommitBlockKeeps(s: State, b: Block)
    requires Inv(s) && 0 < b.number <= s.cfg.blockNumber + 1
    ensures Inv(CommitBlock(s, b))
  {
  }

  lemma StoreDoneKeeps(s: State, b: Block, stored: bool)
    requires Inv(s) && Enabled(s, StoreDone(b, stored))
    ensures Inv(After(s, StoreDone(b, stored)))
  {
    var t := s.(storing := s.storing - multiset{b});
    TakeStoring(s, b);
    if !stored {
      RollbackKeeps(t, b.number);
    }
  }

  lemma CommitDoneKeeps(s: State, b: Block, ledger: Option<Hash>, pick: Option<Block>)
    requires Inv(s) && Enabled(s, CommitDone(b, ledger, pick))
    ensures Inv(After(s, CommitDone(b, ledger, pick)))
  {
    var t := s.(committing := s.committing - multiset{b});
    TakeCommitting(s, b);
    if ledger.Some? {
      OnNewBlockKeeps(t, b.number, ledger.value);
      TryCommitKeeps(OnNewBlock(t, b.number, ledger.value), pick);
    } else {
      RollbackKeeps(t, b.number);
    }
  }

  lemma ExecuteDoneKeeps(s: State, b: Block, header: Option<Hash>, pick: Option<Block>)
    requires Inv(s) && Enabled(s, ExecuteDone(b, header, pick))
    ensures Inv(After(s, ExecuteDone(b, header, pick)))
  {
    if ExecutedWell(b, header) {
      hide After, Enabled, TryCommit, CommitPick, Inv, Midway, Executed;
      ExecuteIsPass(s, b, header, pick);
      ExecutedMidway(s, b);
      TryCommitKeeps(Executed(s, b), pick);
    } else {
      hide After, Enabled, Inv;
      ExecuteFails(s, b, header, pick);
      TakeExecuting(s, b);
      RollbackKeeps(s.(executing := s.executing - multiset{b}), s.cfg.blockNumber + 1);
    }
  }

  lemma ExecuteFails(s: State, b: Block, header: Option<Hash>, pick: Option<Block>)
    requires Enabled(s, ExecuteDone(b, header, pick)) && !ExecutedWell(b, header)
    ensures After(s, ExecuteDone(b, header, pick)) ==
            WithExecuted(s.(executing := s.executing - multiset{b}), s.cfg.blockNumber)
  {
    hide CommitPick, TryCommit;
  }

  lemma TakeExecuting(s: State, b: Block)
    requires Inv(s)
    ensures Inv(s.(executing := s.executing - multiset{b}))
  {
  }

  lemma ExecutedMidway(s: State, b: Block)
    requires Inv(s) && b in s.executing
    ensures Midway(Executed(s, b))
  {
    assert forall id :: id in s.peers ==> GoodPeer(s.cfg, s.peers[id]);
  }

  lemma NewBlockKeeps(s: State, n: int, h: Hash, pick: Option<Block>)
    requires Inv(s) && Enabled(s, NewBlock(n, h, pick)) && n >= 0
    ensures Inv(After(s, NewBlock(n, h, pick)))
  {
    if n > s.cfg.blockNumber {
      OnNewBlockKeeps(s, n, h);
      TryCommitKeeps(OnNewBlock(s, n, h), pick);
    }
  }

  /** A block number the environment may announce: the ledger never goes negative. */
  predicate Plausible(step: Step) {
    step.NewBlock? ==> step.number >= 0
  }

  predicate IsMessage(step: Step) {
    || step.ReceiveBlocks? || step.ReceiveStatus? || step.ReceiveRequest? || step.CommittedIndex?
    || step.Timeout? || step.Duplicate?
  }

  lemma MessageKeeps(s: State, step: Step)
    requires Inv(s) && Enabled(s, step) && IsMessage(step)
    ensures Inv(After(s, step))
  {
    match step
    case ReceiveStatus(id, st, inGroup) => ReceiveStatusKeeps(s, id, st, inGroup);
    case Duplicate(stage, b) => DuplicateKeeps(s, stage, b);
    case _ =>
  }

  lemma ReceiveStatusKeeps(s: State, id: NodeId, st: Status, inGroup: bool)
    requires Inv(s) && Enabled(s, ReceiveStatus(id, st, inGroup))
    ensures Inv(After(s, ReceiveStatus(id, st, inGroup)))
  {
    StatusKeepsGood(s.cfg, s.peers, id, st);
  }

  lemma DuplicateKeeps(s: State, stage: Stage, b: Block)
    requires Inv(s) && Enabled(s, Duplicate(stage, b))
    ensures Inv(After(s, Duplicate(stage, b)))
  {
    hide After, Enabled;
    DuplicateShape(s, stage, b);
    hide Window, Records, NumbersAbove;
  }

  lemma DuplicateShape(s: State, stage: Stage, b: Block)
    requires Enabled(s, Duplicate(stage, b))
    ensures var t := After(s, Duplicate(stage, b));
      && t == s.(executing := t.executing, checking := t.checking, storing := t.storing, committing := t.committing)
      && SameWork(s, t)
  {
  }

  /** The step invariant: the window, the bound on the commit stages, fresh queues and good records. */
  lemma StepKeepsInv(s: State, step: Step)
    requires Inv(s) && Enabled(s, step) && Plausible(step)
    ensures Inv(After(s, step))
  {
    match step
    case NewBlock(n, h, pick) => NewBlockKeeps(s, n, h, pick);
    case MaintainPeers(view) => MaintainPeersKeeps(s, view);
    case MaintainBuffer => MaintainBufferKeeps(s);
    case MaintainQueue(pick, next) => MaintainQueueKeeps(s, pick, next);
    case TryRequest => TryRequestKeeps(s);
    case ExecuteDone(b, header, pick) => ExecuteDoneKeeps(s, b, header, pick);
    case CheckDone(b, result) => CheckDoneKeeps(s, b, result);
    case StoreDone(b, stored) => StoreDoneKeeps(s, b, stored);
    case CommitDone(b, ledger, pick) => CommitDoneKeeps(s, b, ledger, pick);
    case _ => MessageKeeps(s, step);
  }

  /** Steps that move no counter but the known height, and put nothing new in flight. */
  predicate IsQuiet(step: Step) {
    IsMessage(step) || step.MaintainBuffer? || step.TryRequest? || step.MaintainPeers?
  }

  ghost predicate SameWork(s: State, t: State) {
    && t.commitQueue == s.commitQueue
    && (forall b: Block :: b in t.executing <==> b in s.executing)
    && (forall b: Block :: b in t.checking <==> b in s.checking)
    && (forall b: Block :: b in t.storing <==> b in s.storing)
    && (forall b: Block :: b in t.committing <==> b in s.committing)
  }

  lemma QuietFrame(s: State, step: Step)
    requires Window(s) && Enabled(s, step) && IsQuiet(step)
    ensures var t := After(s, step);
      && t.cfg.blockNumber == s.cfg.blockNumber && t.cfg.executed == s.cfg.executed
      && t.cfg.nextBlock == s.cfg.nextBlock && t.cfg.hash == s.cfg.hash
      && SameWork(s, t)
  {
    hide After, Enabled;
    match step
    case Duplicate(stage, b) => DuplicateFrame(s, stage, b);
    case MaintainPeers(_) => WorkerFrame(s, step);
    case MaintainBuffer => WorkerFrame(s, step);
    case TryRequest => WorkerFrame(s, step);
    case _ => MessageFrame(s, step);
  }

  lemma MessageFrame(s: State, step: Step)
    requires Window(s) && Enabled(s, step) && IsMessage(step) && !step.Duplicate?
    ensures var t := After(s, step);
      && t == s.(cfg := t.cfg, buffer := t.buffer, peers := t.peers, mode := t.mode)
      && t.cfg == s.cfg.(knownHighest := t.cfg.knownHighest, knownHash := t.cfg.knownHash, proposal := t.cfg.proposal)
  {
  }

  lemma WorkerFrame(s: State, step: Step)
    requires Window(s) && Enabled(s, step) && (step.MaintainPeers? || step.MaintainBuffer? || step.TryRequest?)
    ensures var t := After(s, step);
      t == s.(buffer := t.buffer, blocks := t.blocks, peers := t.peers, mode := t.mode, maxRequest := t.maxRequest)
  {
  }

  lemma DuplicateFrame(s: State, stage: Stage, b: Block)
    requires Enabled(s, Duplicate(stage, b))
    ensures var t := After(s, Duplicate(stage, b)); SameWork(s, t) && t.cfg == s.cfg
  {
  }

  predicate IsCompletion(step: Step) {
    step.CheckDone? || step.StoreDone? || step.CommitDone?
  }

  predicate Failed(step: Step)
    requires IsCompletion(step)
  {
    match step
    case CheckDone(_, result) => result != CheckPassed
    case StoreDone(_, stored) => !stored
    case CommitDone(_, ledger, _) => ledger.None?
  }

  /** A failed check, store or commit leaves the counters alone or moves the execution point back to the
      block number; and once the block number has reached the block, no completion of any kind moves a
      counter. The second commit of a block without transactions is such a completion. */
  lemma CompletionIsHarmless(s: State, step: Step)
    requires Inv(s) && Enabled(s, step) && IsCompletion(step)
    ensures Failed(step) ==> After(s, step).cfg == s.cfg ||
                             After(s, step).cfg == s.cfg.(executed := s.cfg.blockNumber)
    ensures step.block.number <= s.cfg.blockNumber ==> After(s, step).cfg == s.cfg
  {
    match step
    case CheckDone(b, result) =>
      CheckDoneCounters(s, b, result);
      hide After, Enabled, Inv;
    case StoreDone(b, stored) =>
      StoreDoneCounters(s, b, stored);
      hide After, Enabled, Inv;
    case CommitDone(b, ledger, pick) =>
      CommitDoneCounters(s, b, ledger, pick);
      hide After, Enabled, Inv;
  }

  lemma CheckDoneCounters(s: State, b: Block, result: CheckResult)
    requires Inv(s) && Enabled(s, CheckDone(b, result))
    ensures var c := After(s, CheckDone(b, result)).cfg;
      && (c == s.cfg || (b.number == s.cfg.blockNumber + 1 && c == s.cfg.(executed := s.cfg.blockNumber)))
  {
  }

  lemma StoreDoneCounters(s: State, b: Block, stored: bool)
    requires Inv(s) && Enabled(s, StoreDone(b, stored))
    ensures var c := After(s, StoreDone(b, stored)).cfg;
      && (c == s.cfg || (b.number == s.cfg.blockNumber + 1 && c == s.cfg.(executed := s.cfg.blockNumber)))
  {
  }

  lemma CommitDoneCounters(s: State, b: Block, ledger: Option<Hash>, pick: Option<Block>)
    requires Inv(s) && Enabled(s, CommitDone(b, ledger, pick))
    ensures var c := After(s, CommitDone(b, ledger, pick)).cfg;
      && (b.number <= s.cfg.blockNumber ==> c == s.cfg)
      && (ledger.None? ==> c == s.cfg || c == s.cfg.(executed := s.cfg.blockNumber))
  {
    if ledger.Some? {
      hide After, Enabled, TryCommit, CommitPick, OnNewBlock;
      CommitIsPass(s, b, ledger.value, pick);
      var t := s.(committing := s.committing - multiset{b});
      TakeCommitting(s, b);
      assert 0 < b.number;
      hide Inv;
      OnNewBlockKeeps(t, b.number, ledger.value);
      hide Midway;
      TryCommitMoves(OnNewBlock(t, b.number, ledger.value), pick);
    }
  }
}
