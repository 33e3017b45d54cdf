/** Whether every block between the block number and the execution point is still on its way to commit. */
module NoHoles {
  import opened SyncTypes
  import opened SyncConfig
  import opened BlockQueues
  import opened SyncProtocol
  import opened SyncInvariants

  /** Executed and neither dropped nor committed: queued for commit, or in flight to it. */
  ghost predicate OnItsWay(s: State, b: Block) {
    b in s.commitQueue || b in s.checking || b in s.storing || b in s.committing
  }

  ghost predicate Held(s: State, n: int) {
    exists b: Block :: b.number == n && OnItsWay(s, b)
  }

  ghost predicate NoHole(s: State) {
    forall n :: s.cfg.blockNumber < n <= s.cfg.executed ==> Held(s, n)
  }

  /** Everything on its way in `s` that `t` still has to commit is on its way in `t`. */
  ghost predicate Carried(s: State, t: State) {
    forall b: Block :: OnItsWay(s, b) && b.number > t.cfg.blockNumber ==> OnItsWay(t, b)
  }

  lemma CarriedHeld(s: State, t: State, n: int)
    requires Carried(s, t) && Held(s, n) && n > t.cfg.blockNumber
    ensures Held(t, n)
  {
    var b: Block :| b.number == n && OnItsWay(s, b);
    assert OnItsWay(t, b);
  }

  lemma CarriedNoHole(s: State, t: State)
    requires NoHole(s) && Carried(s, t)
    requires s.cfg.blockNumber <= t.cfg.blockNumber && t.cfg.executed <= Max(s.cfg.executed, t.cfg.blockNumber)
    ensures NoHole(t)
  {
    forall n | t.cfg.blockNumber < n <= t.cfg.executed
      ensures Held(t, n)
    {
      assert Held(s, n);
      CarriedHeld(s, t, n);
    }
  }

  lemma TryCommitCarries(s: State, pick: Option<Block>)
    requires CommitPick(s, pick)
    ensures Carried(s, TryCommit(s, pick)) && Carried(TryCommit(s, pick), s)
    ensures TryCommit(s, pick).cfg == s.cfg
  {
    var live, t := Above(s.commitQueue, s.cfg.blockNumber), TryCommit(s, pick);
    TryCommitMoves(s, pick);
    forall b: Block | b.number > s.cfg.blockNumber
      ensures OnItsWay(s, b) <==> OnItsWay(t, b)
    {
      assert (t.commitQueue + t.checking)[b] == (live + s.checking)[b];
    }
  }

  lemma OnNewBlockCarries(s: State, n: int, h: Hash)
    ensures Carried(s, OnNewBlock(s, n, h))
  {
  }

  /** A pass over the commit queue after the ledger moved on. */
  lemma SettleNoHole(s: State, t: State, pick: Option<Block>)
    requires NoHole(s) && Carried(s, t) && CommitPick(t, pick)
    requires s.cfg.blockNumber <= t.cfg.blockNumber && t.cfg.executed <= Max(s.cfg.executed, t.cfg.blockNumber)
    ensures NoHole(TryCommit(t, pick))
  {
    CarriedNoHole(s, t);
    TryCommitCarries(t, pick);
    CarriedNoHole(t, TryCommit(t, pick));
  }

  lemma NewBlockNoHole(s: State, n: int, h: Hash, pick: Option<Block>)
    requires Inv(s) && NoHole(s) && n >= 0 && Enabled(s, NewBlock(n, h, pick))
    ensures NoHole(After(s, NewBlock(n, h, pick)))
  {
    if n > s.cfg.blockNumber {
      hide Inv, NoHole, Carried, TryCommit, CommitPick, OnNewBlock;
      OnNewBlockKeeps(s, n, h);
      OnNewBlockCarries(s, n, h);
      SettleNoHole(s, OnNewBlock(s, n, h), pick);
      hide Midway;
    }
  }

  /** A failed check, store or commit of `b`, where `t` is `s` without that piece of work: either the
      execution point falls back to the block number, or `b` had been overtaken. */
  lemma FailureNoHole(s: State, t: State, b: Block)
    requires Inv(s) && Inv(t) && NoHole(s) && s.cfg == t.cfg && b.number <= s.cfg.blockNumber + 1
    requires forall c: Block :: c != b && OnItsWay(s, c) ==> OnItsWay(t, c)
    ensures NoHole(WithExecuted(t, b.number - 1))
  {
    RollbackKeeps(t, b.number);
    if b.number <= s.cfg.blockNumber {
      assert Carried(s, t);
      CarriedNoHole(s, WithExecuted(t, b.number - 1));
    }
  }

  lemma CommitDoneNoHole(s: State, b: Block, ledger: Option<Hash>, pick: Option<Block>)
    requires Inv(s) && NoHole(s) && Enabled(s, CommitDone(b, ledger, pick))
    ensures NoHole(After(s, CommitDone(b, ledger, pick)))
  {
    var t := s.(committing := s.committing - multiset{b});
    TakeCommitting(s, b);
    if ledger.Some? {
      var u := OnNewBlock(t, b.number, ledger.value);
      OnNewBlockKeeps(t, b.number, ledger.value);
      CommittedCarries(s, b, ledger.value);
      SettleNoHole(s, u, pick);
    } else {
      FailureNoHole(s, t, b);
    }
  }

  lemma CommittedCarries(s: State, b: Block, h: Hash)
    requires Inv(s) && b in s.committing
    ensures Carried(s, OnNewBlock(s.(committing := s.committing - multiset{b}), b.number, h))
  {
    var t := s.(committing := s.committing - multiset{b});
    OnNewBlockCarries(t, b.number, h);
    assert OnNewBlock(t, b.number, h).cfg.blockNumber >= b.number;
    assert forall c: Block :: c != b && OnItsWay(s, c) ==> OnItsWay(t, c);
  }

  lemma StoreDoneNoHole(s: State, b: Block, stored: bool)
    requires Inv(s) && NoHole(s) && Enabled(s, StoreDone(b, stored))
    ensures NoHole(After(s, StoreDone(b, stored)))
  {
    var t := s.(storing := s.storing - multiset{b});
    TakeStoring(s, b);
    if stored {
      CarriedNoHole(s, t.(committing := t.committing + multiset{b}));
    } else {
      FailureNoHole(s, t, b);
    }
  }

  lemma CheckDoneNoHole(s: State, b: Block, result: CheckResult)
    requires Inv(s) && NoHole(s) && Enabled(s, CheckDone(b, result))
    ensures NoHole(After(s, CheckDone(b, result)))
  {
    var t := s.(checking := s.checking - multiset{b});
    TakeChecking(s, b);
    if result == CheckPassed {
      CarriedNoHole(s, CommitBlock(t, b));
    } else {
      FailureNoHole(s, t, b);
    }
  }

  lemma MaintainQueueNoHole(s: State, pick: Option<Block>, next: Option<Block>)
    requires Inv(s) && NoHole(s) && Enabled(s, MaintainQueue(pick, next))
    ensures NoHole(RunMaintainQueue(s, pick, next))
  {
    hide Inv, NoHole, Carried, TryCommit, CommitPick, ExecuteNext, ExecutePick;
    if ShouldSync(s.cfg) {
      var t := TryCommit(s, pick);
      TryCommitCarries(s, pick);
      InvWindow(s);
      CarriedNoHole(s, t);
      NextCarries(t, next);
      CarriedNoHole(t, ExecuteNext(t, next));
    } else {
      ClearedCarries(s);
      InvWindow(s);
      CarriedNoHole(s, ClearQueues(s).(mode := Idle));
    }
  }

  lemma InvWindow(s: State)
    requires Inv(s)
    ensures s.cfg.blockNumber <= s.cfg.executed
  {
  }

  lemma ClearedCarries(s: State)
    ensures Carried(s, ClearQueues(s).(mode := Idle))
  {
  }

  lemma NextCarries(s: State, next: Option<Block>)
    requires ExecutePick(s, next) && s.cfg.blockNumber <= s.cfg.executed
    ensures Carried(s, ExecuteNext(s, next)) && ExecuteNext(s, next).cfg == s.cfg
  {
    hide Above;
  }

  /** Every number the execution would jump over is already on its way. */
  ghost predicate GapCovered(s: State, b: Block) {
    forall n :: s.cfg.executed < n < b.number ==> Held(s, n)
  }

  predicate IsExecuteSuccess(step: Step) {
    step.ExecuteDone? && ExecutedWell(step.block, step.header)
  }

  /** A successful execution leaves no hole exactly when nothing it jumps over is missing. */
  lemma ExecuteSuccessNoHole(s: State, b: Block, header: Option<Hash>, pick: Option<Block>)
    requires Inv(s) && NoHole(s) && Enabled(s, ExecuteDone(b, header, pick)) && ExecutedWell(b, header)
    ensures NoHole(After(s, ExecuteDone(b, header, pick))) <==> GapCovered(s, b)
  {
    AfterExecuted(s, b, header, pick);
    var u := After(s, ExecuteDone(b, header, pick));
    hide After, Enabled, Held, Queues, Records, CommitStages;
    if NoHole(u) {
      forall n | s.cfg.executed < n < b.number
        ensures Held(s, n)
      {
        assert Held(u, n);
      }
    }
  }

  /** The execution point is at the executed block, and that block is all that joins what is on its way. */
  lemma AfterExecuted(s: State, b: Block, header: Option<Hash>, pick: Option<Block>)
    requires Inv(s) && Enabled(s, ExecuteDone(b, header, pick)) && ExecutedWell(b, header)
    ensures var u := After(s, ExecuteDone(b, header, pick));
      && u.cfg == SetExecuted(s.cfg, b.number)
      && forall n :: n > s.cfg.blockNumber ==> (Held(u, n) <==> Held(s, n) || n == b.number)
  {
    hide TryCommit, CommitPick, Held;
    assert After(s, ExecuteDone(b, header, pick)) == TryCommit(Executed(s, b), pick);
    PassHolds(Executed(s, b), pick);
    ExecutedHeld(s, b);
    hide After, Enabled, Inv;
  }

  lemma PassHolds(s: State, pick: Option<Block>)
    requires CommitPick(s, pick)
    ensures var t := TryCommit(s, pick);
      && t.cfg == s.cfg
      && forall n :: n > s.cfg.blockNumber ==> (Held(t, n) <==> Held(s, n))
  {
    var t := TryCommit(s, pick);
    TryCommitCarries(s, pick);
    hide TryCommit, CommitPick, Carried;
    forall n | n > s.cfg.blockNumber
      ensures Held(t, n) <==> Held(s, n)
    {
      if Held(s, n) {
        CarriedHeld(s, t, n);
      }
      if Held(t, n) {
        CarriedHeld(t, s, n);
      }
    }
  }

  /** The executed block joins what is on its way, and nothing else changes. */
  lemma ExecutedHeld(s: State, b: Block)
    ensures forall n :: Held(Executed(s, b), n) <==> Held(s, n) || n == b.number
  {
    var t := Executed(s, b);
    assert forall c: Block :: OnItsWay(t, c) <==> OnItsWay(s, c) || c == b;
    assert OnItsWay(t, b);
    forall n
      ensures Held(t, n) <==> Held(s, n) || n == b.number
    {
      if Held(s, n) {
        var c: Block :| c.number == n && OnItsWay(s, c);
        assert OnItsWay(t, c);
      }
    }
  }

  /** Every other step, with any outcome, in any order, leaves no hole if there was none. */
  lemma StepNoHole(s: State, step: Step)
    requires Inv(s) && NoHole(s) && Enabled(s, step) && Plausible(step) && !IsExecuteSuccess(step)
    ensures NoHole(After(s, step))
  {
    match step
    case NewBlock(n, h, pick) => NewBlockNoHole(s, n, h, pick);
    case MaintainQueue(pick, next) => MaintainQueueNoHole(s, pick, next);
    case ExecuteDone(_, _, _) =>
    case CheckDone(b, result) => CheckDoneNoHole(s, b, result);
    case StoreDone(b, stored) => StoreDoneNoHole(s, b, stored);
    case CommitDone(b, ledger, pick) => CommitDoneNoHole(s, b, ledger, pick);
    case _ => QuietNoHole(s, step);
  }

  lemma QuietNoHole(s: State, step: Step)
    requires Inv(s) && NoHole(s) && Enabled(s, step) && IsQuiet(step)
    ensures NoHole(After(s, step))
  {
    QuietFrame(s, step);
    CarriedNoHole(s, After(s, step));
  }
}
