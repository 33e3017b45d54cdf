/** The download and commit queues as the object they are. The calls it has handed to the scheduler, the
    consensus and the ledger are fields too; a callback is the method that takes its block out again. */
module Downloads {
  import opened SyncTypes
  import opened SyncConfig
  import opened BlockQueues
  import opened BlockBuffer
  import opened SyncProtocol

  lemma Checked(s: State, b: Block, result: CheckResult)
    requires s.p.maxRequestBlocks > 0 && b in s.checking
    ensures var t := s.(checking := s.checking - multiset{b});
      After(s, CheckDone(b, result)) ==
      if result == CheckPassed then CommitBlock(t, b) else WithExecuted(t, b.number - 1)
  {
  }

  lemma Stored(s: State, b: Block, stored: bool)
    requires s.p.maxRequestBlocks > 0 && b in s.storing
    ensures var t := s.(storing := s.storing - multiset{b});
      After(s, StoreDone(b, stored)) ==
      if stored then t.(committing := t.committing + multiset{b}) else WithExecuted(t, b.number - 1)
  {
  }

  lemma ExecuteFailed(s: State, b: Block, header: Option<Hash>)
    requires b in s.executing && s.p.maxRequestBlocks > 0 && !ExecutedWell(b, header)
    ensures Enabled(s, ExecuteDone(b, header, None))
    ensures After(s, ExecuteDone(b, header, None)) ==
            WithExecuted(s.(executing := s.executing - multiset{b}), s.cfg.blockNumber)
  {
  }

  lemma ExecuteSucceeded(s: State, b: Block, pick: Option<Block>)
    requires b in s.executing && s.p.maxRequestBlocks > 0 && CommitPick(Executed(s, b), pick)
    ensures Enabled(s, ExecuteDone(b, Some(b.hash), pick))
    ensures After(s, ExecuteDone(b, Some(b.hash), pick)) == TryCommit(Executed(s, b), pick)
  {
  }

  lemma CommitFailed(s: State, b: Block)
    requires b in s.committing && s.p.maxRequestBlocks > 0
    ensures Enabled(s, CommitDone(b, None, None))
    ensures After(s, CommitDone(b, None, None)) ==
            WithExecuted(s.(committing := s.committing - multiset{b}), b.number - 1)
  {
  }

  lemma CommitSucceeded(s: State, b: Block, h: Hash, pick: Option<Block>)
    requires b in s.committing && s.p.maxRequestBlocks > 0
    requires CommitPick(OnNewBlock(s.(committing := s.committing - multiset{b}), b.number, h), pick)
    ensures Enabled(s, CommitDone(b, Some(h), pick))
    ensures After(s, CommitDone(b, Some(h), pick)) ==
            TryCommit(OnNewBlock(s.(committing := s.committing - multiset{b}), b.number, h), pick)
  {
  }

  class DownloadingQueue {
    const config: BlockSyncConfig
    const p: Params
    var blockBuffer: seq<Shard>
    var blocks: BlockQueue
    var commitQueue: BlockQueue
    var executing: multiset<Block>
    var checking: multiset<Block>
    var storing: multiset<Block>
    var committing: multiset<Block>

    constructor (config: BlockSyncConfig, p: Params)
      ensures this.config == config && this.p == p && blockBuffer == []
      ensures blocks == commitQueue == executing == checking == storing == committing == multiset{}
    {
      this.config, this.p, blockBuffer := config, p, [];
      blocks, commitQueue := multiset{}, multiset{};
      executing, checking, storing, committing := multiset{}, multiset{}, multiset{}, multiset{};
    }

    /** The state `s` with this object's part in it. */
    ghost function In(s: State): State
      reads this, config
    {
      s.(p := p, cfg := config.View(), buffer := blockBuffer, blocks := blocks, commitQueue := commitQueue,
         executing := executing, checking := checking, storing := storing, committing := committing)
    }

    method Push(shard: Shard, ghost s: State)
      requires p.maxRequestBlocks > 0
      modifies this`blockBuffer
      ensures In(s) == After(old(In(s)), ReceiveBlocks(shard))
    {
      if |blockBuffer| >= p.maxQueue {
        return;
      }
      blockBuffer := blockBuffer + [shard];
    }

    method Clear(ghost s: State)
      modifies this`blockBuffer, this`blocks
      ensures In(s) == ClearQueues(old(In(s)))
    {
      blockBuffer := [];
      blocks := multiset{};
    }

    method FlushBufferToQueue(ghost s: State)
      modifies this`blockBuffer, this`blocks
      ensures var t := old(In(s));
        In(s) == t.(buffer := BufferAfter(t.buffer, t.blocks, t.cfg.blockNumber, p.maxQueue),
                    blocks := BlocksAfter(t.buffer, t.blocks, t.cfg.blockNumber, p.maxQueue))
    {
      blockBuffer, blocks := FlushBuffer(blockBuffer, blocks, config.blockNumber, p.maxQueue);
    }

    method ClearFullQueueIfNotHas(n: int, ghost s: State)
      modifies this`blocks
      ensures var q := old(In(s)).blocks;
        In(s) == old(In(s)).(blocks := if |q| == p.maxQueue && |q| > 0 && TopNumber(q) > n then multiset{} else q)
    {
      if |blocks| == p.maxQueue && |blocks| > 0 {
        var top := Top(blocks);
        if top.number > n {
          blocks := multiset{};
        }
      }
    }

    /** Popping what has been executed already, and taking the next block if it is on top. */
    method TakeNext(ghost s: State) returns (next: Option<Block>)
      modifies this`blocks
      ensures ExecutePick(old(In(s)), next)
      ensures var live := Above(old(In(s)).blocks, old(In(s)).cfg.executed);
        In(s) == old(In(s)).(blocks := if next.Some? then live - multiset{next.value} else live)
    {
      blocks := ClearExpired(blocks, config.executed);
      if |blocks| == 0 || config.executed >= config.blockNumber + p.waterMark {
        return None;
      }
      var top := Top(blocks);
      if top.number == config.executed + 1 {
        blocks := blocks - multiset{top};
        return Some(top);
      }
      return None;
    }

    method ClearExpiredQueueCache()
      modifies this`blocks, this`commitQueue
      ensures blocks == Above(old(blocks), config.blockNumber)
      ensures commitQueue == Above(old(commitQueue), config.blockNumber)
    {
      blocks := ClearExpired(blocks, config.blockNumber);
      commitQueue := ClearExpired(commitQueue, config.blockNumber);
    }

    method CheckAndCommitBlock(b: Block, ghost s: State) returns (ok: bool)
      modifies this`checking, config
      ensures ok == (b.number == old(config.nextBlock))
      ensures In(s) == CheckAndCommit(old(In(s)), b)
    {
      if b.number != config.nextBlock {
        config.SetExecutedBlock(config.blockNumber);
        return false;
      }
      checking := checking + multiset{b};
      return true;
    }

    method TryToCommitBlockToLedger(ghost s: State) returns (ghost pick: Option<Block>)
      modifies this`commitQueue, this`checking, config
      ensures CommitPick(old(In(s)), pick)
      ensures In(s) == TryCommit(old(In(s)), pick)
    {
      commitQueue := ClearExpired(commitQueue, config.blockNumber);
      pick := None;
      if |commitQueue| > 0 {
        var top := Top(commitQueue);
        if top.number == config.nextBlock {
          pick := Some(top);
          commitQueue := commitQueue - multiset{top};
          var _ := CheckAndCommitBlock(top, s);
        }
      }
    }

    method ApplyDownloaded(b: Block, ghost s: State)
      modifies this`executing, config
      ensures In(s) == ApplyBlock(old(In(s)), b)
    {
      if b.number <= config.blockNumber {
        config.SetExecutedBlock(config.blockNumber);
        return;
      }
      executing := executing + multiset{b};
    }

    /** The scheduler's answer to an execution. */
    method OnExecuted(b: Block, header: Option<Hash>, ghost s: State) returns (ghost pick: Option<Block>)
      requires b in executing && p.maxRequestBlocks > 0
      modifies this`executing, this`commitQueue, this`checking, config
      ensures Enabled(old(In(s)), ExecuteDone(b, header, pick))
      ensures In(s) == After(old(In(s)), ExecuteDone(b, header, pick))
    {
      hide TryCommit, CommitPick, Enabled, After;
      ghost var before := In(s);
      ghost var t := before.(executing := executing - multiset{b});
      executing := executing - multiset{b};
      assert In(s) == t && config.blockNumber == t.cfg.blockNumber && b in before.executing;
      hide In;
      if header.None? || b.hash != header.value {
        ExecuteFailed(before, b, header);
        SetExecutedBlock(config.blockNumber, s);
        return None;
      }
      SetExecutedBlock(b.number, s);
      pick := UpdateCommitQueue(b, s);
      ExecuteSucceeded(before, b, pick);
    }

    method UpdateCommitQueue(b: Block, ghost s: State) returns (ghost pick: Option<Block>)
      modifies this`commitQueue, this`checking, config
      ensures var t := old(In(s)).(commitQueue := old(In(s)).commitQueue + multiset{b});
        CommitPick(t, pick) && In(s) == TryCommit(t, pick)
    {
      hide TryCommit, CommitPick;
      commitQueue := commitQueue + multiset{b};
      pick := TryToCommitBlockToLedger(s);
    }

    /** The consensus' answer to a check. */
    method OnChecked(b: Block, result: CheckResult, ghost s: State)
      requires b in checking && p.maxRequestBlocks > 0
      modifies this`checking, this`storing, this`committing, config
      ensures In(s) == After(old(In(s)), CheckDone(b, result))
    {
      ghost var before := In(s);
      checking := checking - multiset{b};
      assert In(s) == before.(checking := before.checking - multiset{b}) && b in before.checking;
      hide In, After;
      Checked(before, b, result);
      if result == CheckPassed {
        CommitDownloaded(b, s);
      } else {
        SetExecutedBlock(b.number - 1, s);
      }
    }

    /** There is no return after the branch for a block without transactions. */
    method CommitDownloaded(b: Block, ghost s: State)
      modifies this`storing, this`committing
      ensures In(s) == CommitBlock(old(In(s)), b)
    {
      if b.txs == 0 {
        CommitBlockState(b, s);
      }
      storing := storing + multiset{b};
    }

    /** The ledger's answer to storing the transactions. */
    method OnStored(b: Block, stored: bool, ghost s: State)
      requires b in storing && p.maxRequestBlocks > 0
      modifies this`storing, this`committing, config
      ensures In(s) == After(old(In(s)), StoreDone(b, stored))
    {
      ghost var before := In(s);
      storing := storing - multiset{b};
      assert In(s) == before.(storing := before.storing - multiset{b}) && b in before.storing;
      hide In, After;
      Stored(before, b, stored);
      if stored {
        CommitBlockState(b, s);
      } else {
        SetExecutedBlock(b.number - 1, s);
      }
    }

    method CommitBlockState(b: Block, ghost s: State)
      modifies this`committing
      ensures In(s) == old(In(s)).(committing := old(In(s)).committing + multiset{b})
    {
      committing := committing + multiset{b};
    }

    /** Adopting a new head of the ledger. */
    method OnNewHead(n: int, h: Hash, ghost s: State)
      modifies this`blocks, this`commitQueue, config
      ensures In(s) == OnNewBlock(old(In(s)), n, h)
    {
      config.Reset(n, h);
      ClearExpiredQueueCache();
    }

    /** The scheduler's answer to a commit. */
    method OnCommitted(b: Block, ledger: Option<Hash>, ghost s: State) returns (ghost pick: Option<Block>)
      requires b in committing && p.maxRequestBlocks > 0
      modifies this`committing, this`blocks, this`commitQueue, this`checking, config
      ensures Enabled(old(In(s)), CommitDone(b, ledger, pick))
      ensures In(s) == After(old(In(s)), CommitDone(b, ledger, pick))
    {
      hide TryCommit, CommitPick, OnNewBlock, Enabled, After;
      ghost var before := In(s);
      ghost var t := before.(committing := committing - multiset{b});
      committing := committing - multiset{b};
      assert In(s) == t && b in before.committing;
      hide In;
      if ledger.None? {
        CommitFailed(before, b);
        SetExecutedBlock(b.number - 1, s);
        return None;
      }
      pick := FinalizeBlock(b.number, ledger.value, s);
      CommitSucceeded(before, b, ledger.value, pick);
    }

    method SetExecutedBlock(n: int, ghost s: State)
      modifies config
      ensures In(s) == WithExecuted(old(In(s)), n)
    {
      config.SetExecutedBlock(n);
    }

    method FinalizeBlock(n: int, h: Hash, ghost s: State) returns (ghost pick: Option<Block>)
      modifies this`blocks, this`commitQueue, this`checking, config
      ensures var t := OnNewBlock(old(In(s)), n, h);
        CommitPick(t, pick) && In(s) == TryCommit(t, pick)
    {
      hide TryCommit, CommitPick, OnNewBlock;
      OnNewHead(n, h, s);
      pick := TryToCommitBlockToLedger(s);
    }
  }
}
