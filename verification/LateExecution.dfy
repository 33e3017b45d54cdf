/** What a success callback of the scheduler can do when it arrives after a rollback. */
module LateExecution {
  import opened SyncTypes
  import opened SyncConfig
  import opened BlockQueues
  import opened BlockBuffer
  import opened PeerTracking
  import opened SyncProtocol
  import opened SyncInvariants
  import opened StepEffects
  import opened NoHoles
  import opened SyncRuns

  /** The next block is neither queued, nor executing, nor in flight, and later ones wait for it. */
  ghost predicate Stranded(s: State) {
    && s.cfg.blockNumber < s.cfg.executed
    && |s.commitQueue| > 0 && NumbersAbove(s.commitQueue, s.cfg.blockNumber + 1)
    && NumbersAbove(s.executing, s.cfg.blockNumber + 1)
    && NumbersIn(s.checking, 0, s.cfg.blockNumber)
    && NumbersIn(s.storing, 0, s.cfg.blockNumber)
    && NumbersIn(s.committing, 0, s.cfg.blockNumber)
  }

  /** The two kinds of step that can free a stranded node. */
  predicate Frees(s: State, step: Step) {
    || (step.NewBlock? && step.number > s.cfg.blockNumber)
    || (step.ExecuteDone? && !ExecutedWell(step.block, step.header))
  }

  lemma StrandedTryCommit(s: State, pick: Option<Block>)
    requires s.cfg.nextBlock == s.cfg.blockNumber + 1 && CommitPick(s, pick)
    requires forall b: Block :: b in s.commitQueue ==> b.number <= s.cfg.blockNumber || b.number > s.cfg.blockNumber + 1
    ensures TryCommit(s, pick) == s.(commitQueue := Above(s.commitQueue, s.cfg.blockNumber))
  {
  }

  lemma StrandedCheck(s: State, b: Block, result: CheckResult)
    requires Stranded(s) && Enabled(s, CheckDone(b, result))
    ensures var t := After(s, CheckDone(b, result));
      Stranded(t) && t.cfg == s.cfg
  {
    CheckDoneShape(s, b, result);
    var t := After(s, CheckDone(b, result));
    assert t.cfg == s.cfg;
    hide After, Enabled;
    assert NumbersIn(t.checking, 0, s.cfg.blockNumber);
    assert NumbersIn(t.storing, 0, s.cfg.blockNumber);
    assert NumbersIn(t.committing, 0, s.cfg.blockNumber);
  }

  lemma StrandedStore(s: State, b: Block, stored: bool)
    requires Stranded(s) && Enabled(s, StoreDone(b, stored))
    ensures var t := After(s, StoreDone(b, stored));
      Stranded(t) && t.cfg == s.cfg
  {
    var t := After(s, StoreDone(b, stored));
    assert NumbersIn(t.storing, 0, s.cfg.blockNumber);
    assert NumbersIn(t.committing, 0, s.cfg.blockNumber);
  }

  lemma StrandedCommit(s: State, b: Block, ledger: Option<Hash>, pick: Option<Block>)
    requires Window(s) && Queues(s) && Stranded(s) && Enabled(s, CommitDone(b, ledger, pick))
    ensures var t := After(s, CommitDone(b, ledger, pick));
      Stranded(t) && t.cfg == s.cfg
  {
    if ledger.Some? {
      hide After, Enabled, Stranded, Queues, Window, OnNewBlock, TryCommit, CommitPick;
      CommitIsPass(s, b, ledger.value, pick);
      var t := s.(committing := s.committing - multiset{b});
      StrandedTake(s, b);
      StaleBlockIsIgnored(t, b.number, ledger.value);
      NextOfWindow(t);
      StrandedPass(t, pick);
    } else {
      StrandedRollback(s, b, pick);
    }
  }

  lemma NextOfWindow(s: State)
    requires Window(s)
    ensures s.cfg.nextBlock == s.cfg.blockNumber + 1
  {
  }

  lemma StrandedRollback(s: State, b: Block, pick: Option<Block>)
    requires Window(s) && Queues(s) && Stranded(s) && Enabled(s, CommitDone(b, None, pick))
    ensures var t := After(s, CommitDone(b, None, pick));
      Stranded(t) && t.cfg == s.cfg
  {
    assert b in s.committing;
    StrandedTake(s, b);
    hide Stranded, Queues, CommitPick, OnNewBlock, TryCommit;
  }

  lemma StrandedTake(s: State, b: Block)
    requires Window(s) && Queues(s) && Stranded(s) && b in s.committing
    ensures var t := s.(committing := s.committing - multiset{b});
      Window(t) && Queues(t) && Stranded(t)
    ensures 0 < b.number <= s.cfg.blockNumber
  {
  }

  lemma StrandedPass(s: State, pick: Option<Block>)
    requires s.cfg.nextBlock == s.cfg.blockNumber + 1 && Stranded(s) && CommitPick(s, pick)
    ensures TryCommit(s, pick) == s
  {
    AboveKeepsAll(s.commitQueue, s.cfg.blockNumber);
    StrandedTryCommit(s, pick);
  }

  lemma StaleBlockIsIgnored(s: State, n: int, h: Hash)
    requires Queues(s) && 0 < n <= s.cfg.blockNumber
    ensures OnNewBlock(s, n, h) == s
  {
    AboveKeepsAll(s.blocks, s.cfg.blockNumber);
    AboveKeepsAll(s.commitQueue, s.cfg.blockNumber);
  }

  lemma StrandedExecute(s: State, b: Block, header: Option<Hash>, pick: Option<Block>)
    requires Window(s) && Stranded(s) && Enabled(s, ExecuteDone(b, header, pick)) && ExecutedWell(b, header)
    ensures var t := After(s, ExecuteDone(b, header, pick));
      Stranded(t) && t.cfg.blockNumber == s.cfg.blockNumber
  {
    hide After, Enabled, Stranded, Executed, TryCommit, CommitPick, Window;
    ExecuteIsPass(s, b, header, pick);
    ExecutedIsStranded(s, b);
    NextOfWindow(s);
    StrandedPass(Executed(s, b), pick);
  }

  lemma ExecutedIsStranded(s: State, b: Block)
    requires Window(s) && Stranded(s) && b in s.executing
    ensures var u := Executed(s, b);
      Stranded(u) && u.cfg.blockNumber == s.cfg.blockNumber && u.cfg.nextBlock == s.cfg.nextBlock
  {
    var u := Executed(s, b);
    ExecutedShape(s, b);
    assert |u.commitQueue| > 0 && u.cfg.executed == b.number;
    hide Executed;
  }

  lemma StrandedQueue(s: State, pick: Option<Block>, next: Option<Block>)
    requires Window(s) && Stranded(s) && Enabled(s, MaintainQueue(pick, next))
    ensures var t := RunMaintainQueue(s, pick, next);
      Stranded(t) && t.cfg.blockNumber == s.cfg.blockNumber
  {
    hide TryCommit, CommitPick, ExecuteNext, ExecutePick;
    if ShouldSync(s.cfg) {
      hide Stranded;
      StrandedPass(s, pick);
      StrandedNext(s, next);
    }
  }

  lemma StrandedNext(s: State, next: Option<Block>)
    requires Window(s) && Stranded(s) && ExecutePick(s, next)
    ensures var t := ExecuteNext(s, next);
      Stranded(t) && t.cfg.blockNumber == s.cfg.blockNumber
  {
    ExecuteNextShape(s, next);
    hide ExecuteNext, ExecutePick;
  }

  /** Nothing but an outside block or a failed execution frees a stranded node: not a timeout, not a
      message, not a worker round, not a completion; and meanwhile it asks for nothing. */
  lemma StrandedStep(s: State, step: Step)
    requires Inv(s) && Stranded(s) && Enabled(s, step) && !Frees(s, step)
    ensures Stranded(After(s, step)) && After(s, step).cfg.blockNumber == s.cfg.blockNumber
    ensures !StartsBatch(s)
  {
    assert Window(s) && Queues(s);
    hide Inv, Window, Queues, RunMaintainQueue, TryCommit, OnNewBlock;
    match step
    case NewBlock(_, _, _) =>
    case MaintainQueue(pick, next) => StrandedQueue(s, pick, next);
    case ExecuteDone(b, header, pick) => StrandedExecute(s, b, header, pick);
    case CheckDone(b, result) => StrandedCheck(s, b, result);
    case StoreDone(b, stored) => StrandedStore(s, b, stored);
    case CommitDone(b, ledger, pick) => StrandedCommit(s, b, ledger, pick);
    case _ => StrandedQuiet(s, step);
  }

  lemma StrandedQuiet(s: State, step: Step)
    requires Window(s) && Stranded(s) && Enabled(s, step) && IsQuiet(step)
    ensures Stranded(After(s, step)) && After(s, step).cfg.blockNumber == s.cfg.blockNumber
  {
    QuietFrame(s, step);
    hide After, Enabled, Window;
  }

  /** A node stranded in a run stays so, at the same block number and without a single request, until one
      of those two things happens. */
  lemma {:induction false} StrandedUntilFreed(r: Run, i: nat, j: nat)
    requires IsRun(r) && i <= j <= |r.steps| && Stranded(r.states[i])
    requires forall k :: i <= k < j ==> !Frees(r.states[k], r.steps[k])
    ensures Stranded(r.states[j]) && r.states[j].cfg.blockNumber == r.states[i].cfg.blockNumber
    ensures !StartsBatch(r.states[j])
    decreases j
  {
    hide Enabled, After, Inv, Frees, Effect;
    if i < j {
      StrandedUntilFreed(r, i, j - 1);
      RunStep(r, j - 1);
      StrandedStep(r.states[j - 1], r.steps[j - 1]);
    }
  }

  // ---- a run that strands the node ----

  const P := Params(256, 8, 2, 10)
  const B1 := Block(1, 11, 0)
  const B2 := Block(2, 12, 0)
  const PEER := NodeId(1)
  const NEWS := Status(5, 15, 7)

  /** Block number 0, with the given pieces of work around. */
  function At(known: int, executed: int, buffer: seq<Shard>, blocks: BlockQueue, commitQueue: BlockQueue,
              executing: multiset<Block>, checking: multiset<Block>, mode: Mode): State {
    State(P, NodeId(0), Config(0, 1, executed, known, 0, 7, if known == 0 then 7 else 15, 7),
          if known == 0 then map[] else map[PEER := NEWS],
          buffer, blocks, commitQueue, executing, checking, multiset{}, multiset{}, mode, 0)
  }

  function S0(): State { At(0, 0, [], multiset{}, multiset{}, multiset{}, multiset{}, Idle) }
  function S1(): State { At(5, 0, [], multiset{}, multiset{}, multiset{}, multiset{}, Idle) }
  function S2(): State { At(5, 0, [[Some(B1), Some(B2)]], multiset{}, multiset{}, multiset{}, multiset{}, Idle) }
  function S3(): State { At(5, 0, [], multiset{B1, B2}, multiset{}, multiset{}, multiset{}, Idle) }
  function S4(): State { At(5, 0, [], multiset{B2}, multiset{}, multiset{B1}, multiset{}, Downloading) }
  function S5(): State { At(5, 1, [], multiset{B2}, multiset{}, multiset{}, multiset{B1}, Downloading) }
  function S6(): State { At(5, 1, [], multiset{}, multiset{}, multiset{B2}, multiset{B1}, Downloading) }
  function S7(): State { At(5, 0, [], multiset{}, multiset{}, multiset{B2}, multiset{}, Downloading) }
  function S8(): State { At(5, 2, [], multiset{}, multiset{B2}, multiset{}, multiset{}, Downloading) }

  lemma Starts()
    ensures Initial(S0())
    ensures IsStep(S0(), ReceiveStatus(PEER, NEWS, true), S1())
    ensures IsStep(S1(), ReceiveBlocks([Some(B1), Some(B2)]), S2())
  {
    assert S0().cfg == ResetConfig(SetGenesis(FRESH, 7), 0, 7);
  }

  lemma ShardHolds(shard: Shard)
    requires shard == [Some(B1), Some(B2)]
    ensures Newer(shard, 0) == multiset{B1, B2}
  {
    var front := [Some(B1)];
    assert shard[..1] == front && front[..0] == [];
    assert Newer(front, 0) == Newer([], 0) + multiset{B1};
    assert Newer(shard, 0) == Newer(front, 0) + multiset{B2};
  }

  lemma Flushes()
    ensures IsStep(S2(), MaintainBuffer, S3())
  {
    var shard: Shard := [Some(B1), Some(B2)];
    var buffer := [shard];
    ShardHolds(shard);
    hide Newer;
    assert Accepted(buffer, multiset{}, 0, 256) == 1 + Accepted(buffer[1..], Newer(shard, 0), 0, 256);
    assert buffer[..1] == buffer && buffer[..0] == [];
    assert NewerAll(buffer, 0) == NewerAll([], 0) + Newer(shard, 0);
  }

  lemma FirstPass()
    ensures CommitPick(S3(), None) && TryCommit(S3(), None) == S3()
  {
    AboveKeepsAll(multiset{}, 0);
  }

  lemma FirstPick()
    ensures ExecutePick(S3(), Some(B1)) && ExecuteNext(S3(), Some(B1)) == S4()
  {
    var blocks := multiset{B1, B2};
    AboveKeepsAll(blocks, 0);
    assert IsTop(blocks, B1) && blocks - multiset{B1} == multiset{B2};
    hide Above, IsTop;
    PickTop(S3(), B1);
    hide ExecutePick, ExecuteNext;
    assert multiset{} + multiset{B1} == multiset{B1};
  }

  lemma PickTop(s: State, b: Block)
    requires Above(s.blocks, s.cfg.executed) == s.blocks && IsTop(s.blocks, b)
    requires s.cfg.blockNumber <= s.cfg.executed < s.cfg.blockNumber + s.p.waterMark && b.number == s.cfg.executed + 1
    ensures ExecutePick(s, Some(b))
    ensures ExecuteNext(s, Some(b)) ==
            s.(blocks := s.blocks - multiset{b}, executing := s.executing + multiset{b}, mode := Downloading)
  {
    hide Above, IsTop;
  }

  lemma ExecutesFirst()
    ensures IsStep(S3(), MaintainQueue(None, Some(B1)), S4())
  {
    FirstPass();
    FirstPick();
    hide CommitPick, TryCommit, ExecutePick, ExecuteNext;
  }

  lemma QueuesFirst()
    ensures IsStep(S4(), ExecuteDone(B1, Some(11), Some(B1)), S5())
  {
    assert Above(multiset{B1}, 0) == multiset{B1};
    assert IsTop(multiset{B1}, B1);
    assert S4().commitQueue + multiset{B1} == multiset{B1};
  }

  lemma ExecutesSecond()
    ensures IsStep(S5(), MaintainQueue(None, Some(B2)), S6())
    ensures IsStep(S6(), CheckDone(B1, CheckError), S7())
    ensures IsStep(S7(), ExecuteDone(B2, Some(12), None), S8())
  {
    assert Above(S5().blocks, 1) == multiset{B2};
    assert IsTop(multiset{B2}, B2);
    assert Above(S5().commitQueue, 0) == multiset{};
    assert Above(multiset{B2}, 0) == multiset{B2};
    assert S7().commitQueue + multiset{B2} == multiset{B2};
    assert TopNumber(multiset{B2}) == 2;
  }

  /** So "no hole" is not an invariant of all runs: here the check of block 1 fails while block 2 is still
      executing, and the late success lifts the execution point over the missing block 1. */
  lemma LateSuccessStrands() returns (r: Run)
    ensures IsRun(r) && Stranded(r.states[|r.steps|]) && !NoHole(r.states[|r.steps|])
  {
    r := Run([S0(), S1(), S2(), S3(), S4(), S5(), S6(), S7(), S8()],
             [ReceiveStatus(PEER, NEWS, true), ReceiveBlocks([Some(B1), Some(B2)]), MaintainBuffer,
              MaintainQueue(None, Some(B1)), ExecuteDone(B1, Some(11), Some(B1)), MaintainQueue(None, Some(B2)),
              CheckDone(B1, CheckError), ExecuteDone(B2, Some(12), None)]);
    EndsStranded();
    hide IsStep, Initial, S0, S1, S2, S3, S4, S5, S6, S7, S8, Stranded, NoHole;
    Starts();
    Flushes();
    ExecutesFirst();
    QueuesFirst();
    ExecutesSecond();
  }

  lemma EndsStranded()
    ensures Stranded(S8()) && !NoHole(S8())
  {
    assert !Held(S8(), 1);
  }
}
