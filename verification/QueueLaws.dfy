/** What the worker and the callbacks do to the queues and the stages, in terms of the node's fields alone. */
module QueueLaws {
  import opened SyncTypes
  import opened SyncConfig
  import opened BlockQueues
  import opened SyncProtocol
  import opened SyncInvariants
  import opened RequestLaws

  ghost predicate Holds(q: BlockQueue, n: int) {
    exists b: Block :: b in q && b.number == n
  }

  /** `r` is what `q` holds above `n`, without one copy of `b`. */
  ghost predicate AboveWithout(q: BlockQueue, n: int, b: Block, r: BlockQueue) {
    forall c: Block :: r[c] + (if c == b then 1 else 0) == if c.number <= n then 0 else q[c]
  }

  ghost predicate IsAbove(q: BlockQueue, n: int, r: BlockQueue) {
    forall c: Block :: r[c] == if c.number <= n then 0 else q[c]
  }

  /** A pass over the commit queue `q` at block number `n`: if it holds the next block, one such block moves on
      to the check; what has expired goes, and everything else stays. */
  ghost predicate Passed(q: BlockQueue, n: int, checking: multiset<Block>, q': BlockQueue, checking': multiset<Block>) {
    if Holds(q, n + 1)
    then exists b: Block :: b in q && b.number == n + 1 && checking' == checking + multiset{b} && AboveWithout(q, n, b, q')
    else checking' == checking && IsAbove(q, n, q')
  }

  lemma TopIsHeld(q: BlockQueue, n: int)
    requires |q| > 0 && forall c: Block :: c in q ==> c.number > n
    ensures TopNumber(q) == n + 1 <==> Holds(q, n + 1)
  {
  }

  /** Looking at the top of what lies above `n` finds the block after `n` exactly when it is there. */
  lemma TopDecides(q: BlockQueue, n: int, pick: Option<Block>)
    requires pick.Some? ==> IsTop(Above(q, n), pick.value) && pick.value.number == n + 1
    requires pick.None? ==> (|Above(q, n)| > 0 ==> TopNumber(Above(q, n)) != n + 1)
    ensures pick.Some? <==> Holds(q, n + 1)
    ensures IsAbove(q, n, Above(q, n))
    ensures pick.Some? ==> pick.value in q && AboveWithout(q, n, pick.value, Above(q, n) - multiset{pick.value})
  {
    var live := Above(q, n);
    SameHeld(q, n);
    if |live| > 0 {
      TopIsHeld(live, n);
    } else {
      assert live == multiset{};
    }
  }

  lemma PassLaw(s: State, pick: Option<Block>)
    requires CommitPick(s, pick) && s.cfg.nextBlock == s.cfg.blockNumber + 1
    ensures var t := TryCommit(s, pick);
      && t == s.(commitQueue := t.commitQueue, checking := t.checking)
      && Passed(s.commitQueue, s.cfg.blockNumber, s.checking, t.commitQueue, t.checking)
  {
    hide Above, TopNumber, IsTop, Holds, IsAbove, AboveWithout;
    TopDecides(s.commitQueue, s.cfg.blockNumber, pick);
  }

  lemma SameHeld(q: BlockQueue, n: int)
    ensures Holds(q, n + 1) <==> Holds(Above(q, n), n + 1)
  {
    if b: Block :| b in q && b.number == n + 1 {
      assert b in Above(q, n);
    }
  }

  /** The worker's pass over the queues, for a node that is behind: one commit pass, and the block after the
      execution point is handed to execution if and only if it is queued and the water mark leaves room. */
  lemma QueueLaw(s: State, pick: Option<Block>, next: Option<Block>)
    requires Inv(s) && Behind(s.cfg) && Enabled(s, MaintainQueue(pick, next))
    ensures var t, e := After(s, MaintainQueue(pick, next)), s.cfg.executed;
      && t == s.(blocks := t.blocks, commitQueue := t.commitQueue, checking := t.checking, executing := t.executing,
                 mode := t.mode)
      && Passed(s.commitQueue, s.cfg.blockNumber, s.checking, t.commitQueue, t.checking)
      && if Holds(s.blocks, e + 1) && e < s.cfg.blockNumber + s.p.waterMark
         then t.mode == Downloading && exists b: Block ::
           b in s.blocks && b.number == e + 1 && t.executing == s.executing + multiset{b} && AboveWithout(s.blocks, e, b, t.blocks)
         else t.mode == s.mode && t.executing == s.executing && IsAbove(s.blocks, e, t.blocks)
  {
    hide TryCommit, CommitPick, ExecuteNext, ExecutePick, Holds, IsAbove, AboveWithout, Passed, After, Enabled;
    QueueIs(s, pick, next);
    PassLaw(s, pick);
    NextLaw(TryCommit(s, pick), next);
    hide Inv;
  }

  lemma QueueIs(s: State, pick: Option<Block>, next: Option<Block>)
    requires Behind(s.cfg) && Enabled(s, MaintainQueue(pick, next))
    ensures CommitPick(s, pick) && ExecutePick(TryCommit(s, pick), next)
    ensures After(s, MaintainQueue(pick, next)) == ExecuteNext(TryCommit(s, pick), next)
  {
    hide TryCommit, CommitPick, ExecuteNext, ExecutePick;
  }

  lemma NextLaw(s: State, next: Option<Block>)
    requires ExecutePick(s, next) && s.cfg.blockNumber <= s.cfg.executed
    ensures var t, e := ExecuteNext(s, next), s.cfg.executed;
      && t == s.(blocks := t.blocks, executing := t.executing, mode := t.mode)
      && if Holds(s.blocks, e + 1) && e < s.cfg.blockNumber + s.p.waterMark
         then t.mode == Downloading && exists b: Block ::
           b in s.blocks && b.number == e + 1 && t.executing == s.executing + multiset{b} && AboveWithout(s.blocks, e, b, t.blocks)
         else t.mode == s.mode && t.executing == s.executing && IsAbove(s.blocks, e, t.blocks)
  {
    hide Above, TopNumber, IsTop, Holds, IsAbove, AboveWithout;
    var e := s.cfg.executed;
    if e < s.cfg.blockNumber + s.p.waterMark {
      TopDecides(s.blocks, e, next);
    } else {
      AboveIsAbove(s.blocks, e);
    }
  }

  lemma AboveIsAbove(q: BlockQueue, n: int)
    ensures IsAbove(q, n, Above(q, n))
  {
  }

  // ---- callbacks ----

  /** Handing a block to execution or to the check: one that is not new, or not the next, is turned away and
      takes the execution point back to the block number. */
  lemma HandOverLaw(s: State, b: Block)
    requires Window(s)
    ensures var t := ApplyBlock(s, b);
      if b.number > s.cfg.blockNumber then t == s.(executing := s.executing + multiset{b})
      else t == s.(cfg := s.cfg.(executed := s.cfg.blockNumber))
    ensures var t := CheckAndCommit(s, b);
      if b.number == s.cfg.blockNumber + 1 then t == s.(checking := s.checking + multiset{b})
      else t == s.(cfg := s.cfg.(executed := s.cfg.blockNumber))
  {
  }

  /** A failed check, store or commit of `b`: only the next block, which it then is, resets the execution point. */
  predicate RolledBack(c: Config, b: Block, c': Config) {
    c' == if b.number == c.blockNumber + 1 then c.(executed := c.blockNumber) else c
  }

  lemma ExecuteLaw(s: State, b: Block, header: Option<Hash>, pick: Option<Block>)
    requires Inv(s) && Enabled(s, ExecuteDone(b, header, pick))
    ensures var t := After(s, ExecuteDone(b, header, pick));
      && t == s.(cfg := t.cfg, executing := s.executing - multiset{b}, commitQueue := t.commitQueue, checking := t.checking)
      && if header == Some(b.hash)
         then t.cfg == (if b.number >= s.cfg.blockNumber then s.cfg.(executed := b.number) else s.cfg)
              && Passed(s.commitQueue + multiset{b}, s.cfg.blockNumber, s.checking, t.commitQueue, t.checking)
         else t.cfg == s.cfg.(executed := s.cfg.blockNumber) && t.commitQueue == s.commitQueue && t.checking == s.checking
  {
    hide TryCommit, CommitPick, Passed;
    if header == Some(b.hash) {
      PassLaw(Executed(s, b), pick);
    }
    hide Queues, Records, CommitStages;
  }

  lemma CheckLaw(s: State, b: Block, result: CheckResult)
    requires Inv(s) && Enabled(s, CheckDone(b, result))
    ensures var t := After(s, CheckDone(b, result));
      && t == s.(cfg := t.cfg, checking := s.checking - multiset{b}, storing := t.storing, committing := t.committing)
      && if result == CheckPassed
         then t.cfg == s.cfg && t.storing == s.storing + multiset{b}
              && t.committing == s.committing + (if b.txs > 0 then multiset{} else multiset{b})
         else RolledBack(s.cfg, b, t.cfg) && t.storing == s.storing && t.committing == s.committing
  {
    assert s.committing + multiset{} == s.committing;
  }

  lemma StoreLaw(s: State, b: Block, stored: bool)
    requires Inv(s) && Enabled(s, StoreDone(b, stored))
    ensures var t := After(s, StoreDone(b, stored));
      && t == s.(cfg := t.cfg, storing := s.storing - multiset{b}, committing := t.committing)
      && if stored then t.cfg == s.cfg && t.committing == s.committing + multiset{b}
         else RolledBack(s.cfg, b, t.cfg) && t.committing == s.committing
  {
  }

  /** A block without transactions is committed twice: right after its check, and again after its store. */
  lemma EmptyBlockCommitsTwice(s: State, b: Block)
    requires Inv(s) && Enabled(s, CheckDone(b, CheckPassed))
    ensures var t := After(s, CheckDone(b, CheckPassed));
      && t.committing[b] == s.committing[b] + (if b.txs == 0 then 1 else 0)
      && Enabled(t, StoreDone(b, true))
      && After(t, StoreDone(b, true)).committing[b] == s.committing[b] + (if b.txs == 0 then 2 else 1)
  {
  }

  /** The new head: number, hash and everything that follows from them. */
  predicate NewHead(c: Config, n: int, h: Hash, c': Config) {
    && c'.blockNumber == n && c'.nextBlock == n + 1 && c'.hash == h
    && c'.executed == Max(c.executed, n) && c'.knownHighest == Max(c.knownHighest, n)
    && c'.knownHash == (if n <= c.knownHighest then c.knownHash else h)
    && c'.proposal == c.proposal && c'.genesis == c.genesis
  }

  lemma HeadLaw(s: State, n: int, h: Hash, pick: Option<Block>)
    requires n > s.cfg.blockNumber && CommitPick(OnNewBlock(s, n, h), pick)
    ensures var t := TryCommit(OnNewBlock(s, n, h), pick);
      && t == s.(cfg := t.cfg, blocks := t.blocks, commitQueue := t.commitQueue, checking := t.checking)
      && NewHead(s.cfg, n, h, t.cfg) && IsAbove(s.blocks, n, t.blocks)
      && Passed(s.commitQueue, n, s.checking, t.commitQueue, t.checking)
  {
    var u := OnNewBlock(s, n, h);
    assert u.cfg.blockNumber == n && u.cfg.nextBlock == n + 1 && NewHead(s.cfg, n, h, u.cfg);
    PassLaw(u, pick);
    PassedTwice(s.commitQueue, n, s.checking, u.commitQueue, TryCommit(u, pick).commitQueue, TryCommit(u, pick).checking);
    hide TryCommit, CommitPick, Passed, ResetConfig;
  }

  /** Expired blocks may as well have gone before. */
  lemma PassedTwice(q: BlockQueue, n: int, checking: multiset<Block>, live: BlockQueue, q': BlockQueue, checking': multiset<Block>)
    requires IsAbove(q, n, live) && Passed(live, n, checking, q', checking')
    ensures Passed(q, n, checking, q', checking')
  {
    if b: Block :| b in q && b.number == n + 1 {
      assert live[b] == q[b];
    }
    if Holds(live, n + 1) {
      var b: Block :| b in live && b.number == n + 1 && checking' == checking + multiset{b} && AboveWithout(live, n, b, q');
      assert live[b] == q[b];
      assert AboveWithout(q, n, b, q');
    }
  }

  /** The commit callback: a failure rolls back, a new head is adopted, and a repeated one is not. */
  lemma CommitLaw(s: State, b: Block, ledger: Option<Hash>, pick: Option<Block>)
    requires Inv(s) && Enabled(s, CommitDone(b, ledger, pick))
    ensures var t := After(s, CommitDone(b, ledger, pick));
      && t == s.(cfg := t.cfg, committing := s.committing - multiset{b}, blocks := t.blocks,
                 commitQueue := t.commitQueue, checking := t.checking)
      && match ledger
         case None =>
           RolledBack(s.cfg, b, t.cfg) && t.blocks == s.blocks && t.commitQueue == s.commitQueue && t.checking == s.checking
         case Some(h) =>
           && (if b.number == s.cfg.blockNumber + 1 then NewHead(s.cfg, b.number, h, t.cfg) else t.cfg == s.cfg)
           && IsAbove(s.blocks, t.cfg.blockNumber, t.blocks)
           && Passed(s.commitQueue, t.cfg.blockNumber, s.checking, t.commitQueue, t.checking)
  {
    if ledger.Some? {
      hide After, Enabled, Passed, OnNewBlock, TryCommit, CommitPick, NewHead;
      var u := s.(committing := s.committing - multiset{b});
      CommitIsPass(s, b, ledger.value, pick);
      CommitRange(s, b);
      if b.number == s.cfg.blockNumber + 1 {
        HeadLaw(u, b.number, ledger.value, pick);
        assert NewHead(s.cfg, b.number, ledger.value, TryCommit(OnNewBlock(u, b.number, ledger.value), pick).cfg);
        HeadNumber(s.cfg, b.number, ledger.value, TryCommit(OnNewBlock(u, b.number, ledger.value), pick).cfg);
      } else {
        StaleHead(u, b.number, ledger.value);
        PassLaw(u, pick);
      }
      hide Inv;
    } else {
      hide OnNewBlock, TryCommit, CommitPick;
    }
  }

  lemma CommitRange(s: State, b: Block)
    requires Inv(s) && b in s.committing
    ensures 0 < b.number <= s.cfg.blockNumber + 1 && s.cfg.nextBlock == s.cfg.blockNumber + 1
    ensures var u := s.(committing := s.committing - multiset{b}); Window(u) && Queues(u)
  {
  }

  lemma HeadNumber(c: Config, n: int, h: Hash, c': Config)
    requires NewHead(c, n, h, c')
    ensures c'.blockNumber == n
  {
  }

  lemma StaleHead(s: State, n: int, h: Hash)
    requires Window(s) && Queues(s) && 0 < n <= s.cfg.blockNumber
    ensures OnNewBlock(s, n, h) == s && IsAbove(s.blocks, s.cfg.blockNumber, s.blocks)
  {
    AboveKeepsAll(s.blocks, s.cfg.blockNumber);
    AboveKeepsAll(s.commitQueue, s.cfg.blockNumber);
  }

  lemma NewBlockLaw(s: State, n: int, h: Hash, pick: Option<Block>)
    requires Inv(s) && Enabled(s, NewBlock(n, h, pick))
    ensures var t := After(s, NewBlock(n, h, pick));
      && t == s.(cfg := t.cfg, blocks := t.blocks, commitQueue := t.commitQueue, checking := t.checking)
      && if n <= s.cfg.blockNumber then t == s
         else NewHead(s.cfg, n, h, t.cfg) && IsAbove(s.blocks, n, t.blocks)
              && Passed(s.commitQueue, n, s.checking, t.commitQueue, t.checking)
  {
    if n > s.cfg.blockNumber {
      HeadLaw(s, n, h, pick);
    }
    hide Passed, OnNewBlock, TryCommit, CommitPick, NewHead;
  }

  /** A received message waits in the buffer unless the buffer is full. */
  lemma ReceiveBlocksLaw(s: State, shard: Shard)
    requires Enabled(s, ReceiveBlocks(shard))
    ensures var t := After(s, ReceiveBlocks(shard));
      && t == s.(buffer := t.buffer) && s.buffer <= t.buffer
      && |t.buffer| == (if |s.buffer| < s.p.maxQueue then |s.buffer| + 1 else |s.buffer|)
      && (|t.buffer| > |s.buffer| ==> t.buffer[|s.buffer|] == shard)
  {
  }

  /** The node after initialisation knows the ledger's head, and nothing else. */
  lemma InitialLaw(g: Hash, n: nat, h: Hash)
    ensures var c := ResetConfig(SetGenesis(FRESH, g), n, h);
      && c.blockNumber == c.executed == c.knownHighest == n && c.nextBlock == n + 1 && c.proposal == 0
      && c.hash == h && c.genesis == g && c.knownHash == if n > 0 then h else g
  {
  }
}
