/** What one step can do, step by step, in the terms the statements over runs need. */
module StepEffects {
  import opened SyncTypes
  import opened SyncConfig
  import opened BlockQueues
  import opened PeerTracking
  import opened SyncProtocol
  import opened SyncInvariants

  predicate IsExecuteOf(step: Step, b: Block) {
    step.ExecuteDone? && step.block == b && ExecutedWell(b, step.header)
  }

  /** Where the blocks of each stage come from. */
  ghost predicate Sourced(s: State, step: Step, t: State) {
    && (forall b: Block :: b in t.commitQueue || b in t.checking ==>
          b in s.commitQueue || b in s.checking || IsExecuteOf(step, b))
    && (forall b: Block :: b in t.storing ==>
          b in s.storing || (step == CheckDone(b, CheckPassed) && b in s.checking))
    && (forall b: Block :: b in t.committing ==>
          || b in s.committing
          || (step == CheckDone(b, CheckPassed) && b in s.checking && b.txs == 0)
          || (step == StoreDone(b, true) && b in s.storing))
  }

  /** Execution starts only with the block after the execution point, and leaves with its callback. */
  ghost predicate Executes(s: State, step: Step, t: State) {
    match step
    case ExecuteDone(b, _, _) => t.executing == s.executing - multiset{b}
    case Duplicate(Executing, b) => t.executing == s.executing + multiset{b}
    case MaintainQueue(_, Some(b)) => t.executing == s.executing + multiset{b} && b.number == t.cfg.executed + 1
    case _ => t.executing == s.executing
  }

  /** The head only moves with an outside notice or a commit of the next block, number and hash together. */
  predicate Advances(s: State, step: Step, t: State) {
    || (t.cfg.blockNumber == s.cfg.blockNumber && t.cfg.hash == s.cfg.hash)
    || (step.NewBlock? && t.cfg.blockNumber == step.number > s.cfg.blockNumber && t.cfg.hash == step.hash)
    || (&& step.CommitDone? && step.ledger.Some? && t.cfg.hash == step.ledger.value
        && t.cfg.blockNumber == step.block.number == s.cfg.blockNumber + 1)
  }

  /** A status message of the node's own chain that the node lets in. */
  predicate AcceptsStatus(s: State, step: Step) {
    && step.ReceiveStatus?
    && (step.inGroup || step.status.number > s.cfg.blockNumber)
    && step.status.genesis == s.cfg.genesis
  }

  predicate KnownPair(c: Config, n: int, h: Hash) {
    c.knownHighest == n && c.knownHash == h
  }

  /** The known highest block is the maximum of what it was, an accepted status and the block number. */
  predicate Learns(s: State, step: Step, t: State) {
    && t.cfg.genesis == s.cfg.genesis
    && t.cfg.proposal == (if step.CommittedIndex? then step.proposal else s.cfg.proposal)
    && (if AcceptsStatus(s, step)
        then t.cfg.knownHighest == Max(s.cfg.knownHighest, step.status.number)
        else t.cfg.knownHighest == Max(s.cfg.knownHighest, t.cfg.blockNumber))
    && (|| KnownPair(s.cfg, t.cfg.knownHighest, t.cfg.knownHash)
        || (AcceptsStatus(s, step) && KnownPair(t.cfg, step.status.number, step.status.hash))
        || KnownPair(t.cfg, t.cfg.blockNumber, t.cfg.hash))
  }

  /** What ends a batch. */
  predicate Reached(s: State) {
    s.cfg.blockNumber >= s.maxRequest || s.cfg.executed >= s.maxRequest || s.cfg.proposal >= s.cfg.knownHighest
  }

  predicate Releases(s: State, step: Step, t: State) {
    s.mode == Downloading && t.mode == Idle ==> step.Timeout? || Reached(s)
  }

  /** Only a request moves the end of what was requested; only messages and the peer maintenance touch the
      peer records; only a flush adds to the download queue, and only a received message to the buffer. */
  predicate Frames(s: State, step: Step, t: State) {
    && t.p == s.p && t.self == s.self && (t.maxRequest == s.maxRequest || step.TryRequest?)
    && (t.peers == s.peers || step.ReceiveStatus? || step.ReceiveRequest? || step.MaintainPeers?)
    && (t.blocks <= s.blocks || step.MaintainBuffer?)
    && (t.buffer == s.buffer || t.buffer == [] || step.MaintainBuffer? ||
        (step.ReceiveBlocks? && t.buffer == s.buffer + [step.shard]))
  }

  ghost predicate Effect(s: State, step: Step, t: State) {
    && Frames(s, step, t)
    && Sourced(s, step, t) && Executes(s, step, t) && Advances(s, step, t) && Learns(s, step, t) && Releases(s, step, t)
  }

  lemma TryCommitSourced(s: State, pick: Option<Block>)
    requires CommitPick(s, pick)
    ensures var t := TryCommit(s, pick);
      && t == s.(commitQueue := t.commitQueue, checking := t.checking)
      && forall b: Block :: b in t.commitQueue || b in t.checking ==> b in s.commitQueue || b in s.checking
  {
    var live, t := Above(s.commitQueue, s.cfg.blockNumber), TryCommit(s, pick);
    TryCommitMoves(s, pick);
    forall b: Block | b in t.commitQueue || b in t.checking
      ensures b in s.commitQueue || b in s.checking
    {
      assert (t.commitQueue + t.checking)[b] == (live + s.checking)[b];
    }
  }

  lemma NewBlockEffect(s: State, n: int, h: Hash, pick: Option<Block>)
    requires Window(s) && Enabled(s, NewBlock(n, h, pick))
    ensures Effect(s, NewBlock(n, h, pick), After(s, NewBlock(n, h, pick)))
  {
    OnNewBlockShape(s, n, h);
    hide OnNewBlock, TryCommit, CommitPick;
    if n > s.cfg.blockNumber {
      TryCommitSourced(OnNewBlock(s, n, h), pick);
    }
  }

  lemma MaintainQueueShape(s: State, pick: Option<Block>, next: Option<Block>)
    requires Window(s) && ShouldSync(s.cfg) && Enabled(s, MaintainQueue(pick, next))
    ensures var t := RunMaintainQueue(s, pick, next);
      && (next.Some? ==> next.value.number == s.cfg.executed + 1)
      && t.blocks <= s.blocks
      && t == s.(blocks := t.blocks, commitQueue := t.commitQueue, checking := t.checking,
                 executing := s.executing + (if next.Some? then multiset{next.value} else multiset{}),
                 mode := if next.Some? then Downloading else s.mode)
      && forall b: Block :: b in t.commitQueue || b in t.checking ==> b in s.commitQueue || b in s.checking
  {
    TryCommitSourced(s, pick);
    ExecuteNextShape(TryCommit(s, pick), next);
    hide TryCommit, CommitPick, ExecuteNext, ExecutePick;
  }

  lemma ExecuteNextShape(s: State, next: Option<Block>)
    requires Window(s) && ExecutePick(s, next)
    ensures var t := ExecuteNext(s, next);
      && (next.Some? ==> next.value.number == s.cfg.executed + 1)
      && t.blocks <= s.blocks
      && t == s.(blocks := t.blocks,
                 executing := s.executing + (if next.Some? then multiset{next.value} else multiset{}),
                 mode := if next.Some? then Downloading else s.mode)
  {
  }

  lemma MaintainQueueEffect(s: State, pick: Option<Block>, next: Option<Block>)
    requires Window(s) && s.maxRequest <= s.cfg.knownHighest && Enabled(s, MaintainQueue(pick, next))
    ensures Effect(s, MaintainQueue(pick, next), After(s, MaintainQueue(pick, next)))
  {
    hide TryCommit, ExecuteNext, CommitPick, ExecutePick;
    if ShouldSync(s.cfg) {
      MaintainQueueShape(s, pick, next);
    }
  }

  lemma ExecuteDoneEffect(s: State, b: Block, header: Option<Hash>, pick: Option<Block>)
    requires Window(s) && Enabled(s, ExecuteDone(b, header, pick))
    ensures Effect(s, ExecuteDone(b, header, pick), After(s, ExecuteDone(b, header, pick)))
  {
    if ExecutedWell(b, header) {
      ExecutedEffect(s, b, pick);
    } else {
      var t := WithExecuted(s.(executing := s.executing - multiset{b}), s.cfg.blockNumber);
      assert After(s, ExecuteDone(b, header, pick)) == t;
    }
  }

  lemma ExecutedShape(s: State, b: Block)
    ensures var u := Executed(s, b);
      && u == s.(cfg := SetExecuted(s.cfg, b.number), executing := s.executing - multiset{b},
                 commitQueue := u.commitQueue)
      && forall c: Block :: c in u.commitQueue ==> c in s.commitQueue || c == b
  {
  }

  lemma ExecutedEffect(s: State, b: Block, pick: Option<Block>)
    requires Window(s) && CommitPick(Executed(s, b), pick)
    ensures Effect(s, ExecuteDone(b, Some(b.hash), pick), TryCommit(Executed(s, b), pick))
  {
    ExecutedShape(s, b);
    hide TryCommit, CommitPick, Executed;
    TryCommitSourced(Executed(s, b), pick);
  }

  lemma CheckDoneEffect(s: State, b: Block, result: CheckResult)
    requires Window(s) && Enabled(s, CheckDone(b, result))
    ensures Effect(s, CheckDone(b, result), After(s, CheckDone(b, result)))
  {
    hide After, Enabled;
    CheckDoneShape(s, b, result);
  }

  lemma CheckDoneShape(s: State, b: Block, result: CheckResult)
    requires Enabled(s, CheckDone(b, result))
    ensures b in s.checking
    ensures var t := After(s, CheckDone(b, result));
      && t == s.(cfg := s.cfg.(executed := t.cfg.executed), checking := s.checking - multiset{b},
                 storing := t.storing, committing := t.committing)
      && (forall c: Block :: c in t.storing ==> c in s.storing || (c == b && result == CheckPassed))
      && (forall c: Block :: c in t.committing ==>
            c in s.committing || (c == b && result == CheckPassed && b.txs == 0))
  {
  }

  lemma StoreDoneEffect(s: State, b: Block, stored: bool)
    requires Window(s) && Enabled(s, StoreDone(b, stored))
    ensures Effect(s, StoreDone(b, stored), After(s, StoreDone(b, stored)))
  {
  }

  lemma CommitDoneEffect(s: State, b: Block, ledger: Option<Hash>, pick: Option<Block>)
    requires Window(s) && 0 < b.number <= s.cfg.blockNumber + 1 && Enabled(s, CommitDone(b, ledger, pick))
    ensures Effect(s, CommitDone(b, ledger, pick), After(s, CommitDone(b, ledger, pick)))
  {
    if ledger.Some? {
      CommittedEffect(s, b, ledger.value, pick);
    }
  }

  lemma CommittedEffect(s: State, b: Block, h: Hash, pick: Option<Block>)
    requires Window(s) && 0 < b.number <= s.cfg.blockNumber + 1
    requires CommitPick(OnNewBlock(s.(committing := s.committing - multiset{b}), b.number, h), pick)
    ensures Effect(s, CommitDone(b, Some(h), pick),
                   TryCommit(OnNewBlock(s.(committing := s.committing - multiset{b}), b.number, h), pick))
  {
    var u := OnNewBlock(s.(committing := s.committing - multiset{b}), b.number, h);
    OnNewBlockShape(s.(committing := s.committing - multiset{b}), b.number, h);
    hide OnNewBlock, TryCommit, CommitPick;
    TryCommitSourced(u, pick);
  }

  lemma OnNewBlockShape(s: State, n: int, h: Hash)
    ensures var u := OnNewBlock(s, n, h);
      && u.blocks <= s.blocks
      && u == s.(cfg := ResetConfig(s.cfg, n, h), blocks := u.blocks, commitQueue := u.commitQueue)
      && forall b: Block :: b in u.commitQueue ==> b in s.commitQueue
  {
  }

  lemma WorkerEffect(s: State, step: Step)
    requires Window(s) && Enabled(s, step) && (step.MaintainPeers? || step.MaintainBuffer? || step.TryRequest?)
    ensures Effect(s, step, After(s, step))
  {
    WorkerFrame(s, step);
  }

  lemma MessageEffect(s: State, step: Step)
    requires Window(s) && Enabled(s, step) && IsMessage(step) && !step.Duplicate? && !step.ReceiveStatus?
    ensures Effect(s, step, After(s, step))
  {
    hide After, Enabled;
    MessageShape(s, step);
  }

  lemma MessageShape(s: State, step: Step)
    requires Enabled(s, step) && IsMessage(step) && !step.Duplicate? && !step.ReceiveStatus?
    ensures var t := After(s, step);
      && t == s.(cfg := s.cfg.(proposal := t.cfg.proposal), buffer := t.buffer, peers := t.peers, mode := t.mode)
      && t.cfg.proposal == (if step.CommittedIndex? then step.proposal else s.cfg.proposal)
      && (t.buffer == s.buffer || (step.ReceiveBlocks? && t.buffer == s.buffer + [step.shard]))
      && (t.peers == s.peers || step.ReceiveRequest?) && (t.mode == s.mode || step.Timeout?)
  {
  }

  lemma StatusEffect(s: State, id: NodeId, st: Status, inGroup: bool)
    requires Window(s) && GoodPeers(s.cfg, s.peers) && Enabled(s, ReceiveStatus(id, st, inGroup))
    ensures Effect(s, ReceiveStatus(id, st, inGroup), After(s, ReceiveStatus(id, st, inGroup)))
  {
    hide After, Enabled, GoodPeers;
    StatusShape(s, id, st, inGroup);
  }

  lemma StatusShape(s: State, id: NodeId, st: Status, inGroup: bool)
    requires GoodPeers(s.cfg, s.peers) && Enabled(s, ReceiveStatus(id, st, inGroup))
    ensures var step := ReceiveStatus(id, st, inGroup);
      var t := After(s, step);
      && t == s.(peers := t.peers, cfg := t.cfg)
      && t.cfg == if AcceptsStatus(s, step) then RaiseKnown(s.cfg, st.number, st.hash) else s.cfg
  {
    assert id in s.peers ==> GoodPeer(s.cfg, s.peers[id]);
  }

  lemma DuplicateEffect(s: State, stage: Stage, b: Block)
    requires Window(s) && Enabled(s, Duplicate(stage, b))
    ensures Effect(s, Duplicate(stage, b), After(s, Duplicate(stage, b)))
  {
    DuplicateFrame(s, stage, b);
  }

  lemma StepEffect(s: State, step: Step)
    requires Inv(s) && Enabled(s, step)
    ensures Effect(s, step, After(s, step))
  {
    assert Window(s) && s.maxRequest <= s.cfg.knownHighest && GoodPeers(s.cfg, s.peers);
    assert step.CommitDone? ==> 0 < step.block.number <= s.cfg.blockNumber + 1;
    hide Inv, Enabled, Effect, Window, After;
    match step
    case NewBlock(n, h, pick) => NewBlockEffect(s, n, h, pick);
    case MaintainQueue(pick, next) => MaintainQueueEffect(s, pick, next);
    case ExecuteDone(b, header, pick) => ExecuteDoneEffect(s, b, header, pick);
    case CheckDone(b, result) => CheckDoneEffect(s, b, result);
    case StoreDone(b, stored) => StoreDoneEffect(s, b, stored);
    case CommitDone(b, ledger, pick) => CommitDoneEffect(s, b, ledger, pick);
    case ReceiveStatus(id, st, inGroup) => StatusEffect(s, id, st, inGroup);
    case Duplicate(stage, b) => DuplicateEffect(s, stage, b);
    case MaintainPeers(_) => WorkerEffect(s, step);
    case MaintainBuffer => WorkerEffect(s, step);
    case TryRequest => WorkerEffect(s, step);
    case _ => MessageEffect(s, step);
  }
}
