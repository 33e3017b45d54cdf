/** Rounds exist: from any state the environment can deliver everything, and always comes to an end. */
module Delivery {
  import opened SyncTypes
  import opened SyncConfig
  import opened BlockQueues
  import opened BlockBuffer
  import opened SyncProtocol
  import opened SyncInvariants
  import opened Convergence

  /** An upper bound on the callbacks still to come for the blocks handed to execution so far. */
  function Pending(s: State): nat {
    6 * |s.executing| + 5 * |s.commitQueue| + 4 * |s.checking| + 2 * |s.storing| + |s.committing|
  }

  /** And on the callbacks and replies together. */
  function Work(w: World): nat {
    Pending(w.s) + |w.replies|
  }

  lemma TakeOne(q: multiset<Block>, b: Block)
    requires b in q
    ensures |q - multiset{b}| == |q| - 1
  {
    assert q == (q - multiset{b}) + multiset{b};
  }

  lemma AboveIsSmaller(q: BlockQueue, n: int)
    ensures |Above(q, n)| <= |q|
  {
    SubsetSize(Above(q, n), q);
  }

  lemma TryCommitWork(s: State, pick: Option<Block>)
    requires CommitPick(s, pick)
    ensures var t := TryCommit(s, pick);
      && t == s.(commitQueue := t.commitQueue, checking := t.checking)
      && Pending(t) <= Pending(s)
  {
    AboveIsSmaller(s.commitQueue, s.cfg.blockNumber);
    if pick.Some? {
      TakeOne(Above(s.commitQueue, s.cfg.blockNumber), pick.value);
      assert |s.checking + multiset{pick.value}| == |s.checking| + 1;
    }
  }

  lemma ExecuteWork(s: State, b: Block, header: Option<Hash>, pick: Option<Block>)
    requires Enabled(s, ExecuteDone(b, header, pick)) && ExecutedWell(b, header)
    ensures Pending(After(s, ExecuteDone(b, header, pick))) < Pending(s)
  {
    hide After, Enabled, TryCommit, CommitPick;
    ExecuteIsPass(s, b, header, pick);
    TakeOne(s.executing, b);
    TryCommitWork(Executed(s, b), pick);
    assert |s.commitQueue + multiset{b}| == |s.commitQueue| + 1;
  }

  lemma CheckWork(s: State, b: Block)
    requires Enabled(s, CheckDone(b, CheckPassed))
    ensures Pending(After(s, CheckDone(b, CheckPassed))) < Pending(s)
  {
    TakeOne(s.checking, b);
    assert |s.storing + multiset{b}| == |s.storing| + 1;
    assert |s.committing + multiset{b}| == |s.committing| + 1;
  }

  lemma StoreWork(s: State, b: Block)
    requires Enabled(s, StoreDone(b, true))
    ensures Pending(After(s, StoreDone(b, true))) < Pending(s)
  {
    TakeOne(s.storing, b);
    assert |s.committing + multiset{b}| == |s.committing| + 1;
  }

  lemma CommitWork(s: State, b: Block, ledger: Option<Hash>, pick: Option<Block>)
    requires Enabled(s, CommitDone(b, ledger, pick)) && ledger.Some?
    ensures Pending(After(s, CommitDone(b, ledger, pick))) < Pending(s)
  {
    hide After, Enabled, OnNewBlock, TryCommit, CommitPick;
    CommitIsPass(s, b, ledger.value, pick);
    var t := s.(committing := s.committing - multiset{b});
    HeadWork(t, b.number, ledger.value);
    TryCommitWork(OnNewBlock(t, b.number, ledger.value), pick);
    TakeOne(s.committing, b);
  }

  lemma HeadWork(s: State, n: int, h: Hash)
    ensures Pending(OnNewBlock(s, n, h)) <= Pending(s)
  {
    AboveIsSmaller(s.commitQueue, ResetConfig(s.cfg, n, h).blockNumber);
    hide Above, ResetConfig;
  }

  lemma ReplyWork(w: World, b: Block, v: World)
    requires Replies(w, b, v)
    ensures Work(v) < Work(w)
  {
    TakeOne(w.replies, b);
  }

  /** Every callback brings the end nearer, in any state. */
  lemma CallbackWork(w: World, step: Step, v: World)
    requires Delivers(w, step, v)
    ensures Pending(v.s) < Pending(w.s) && v.replies == w.replies
  {
    hide Pending, Enabled, After;
    match step
    case ExecuteDone(b, header, pick) => ExecuteWork(w.s, b, header, pick);
    case CheckDone(b, _) => CheckWork(w.s, b);
    case StoreDone(b, _) => StoreWork(w.s, b);
    case CommitDone(b, ledger, pick) => CommitWork(w.s, b, ledger, pick);
  }

  /** And so does every reply. */
  lemma EnvStepWork(w: World, v: World)
    requires EnvStep(w, v)
    ensures Work(v) < Work(w)
  {
    hide Pending, Delivers, Replies;
    if Reply(w, v) {
      var b :| Replies(w, b, v);
      ReplyWork(w, b, v);
    } else {
      var step :| Delivers(w, step, v);
      CallbackWork(w, step, v);
    }
  }

  lemma {:induction false} EnvRunIsShort(ws: seq<World>, i: nat)
    requires EnvRun(ws) && i < |ws|
    ensures i + Work(ws[i]) <= Work(ws[0])
  {
    hide Work, EnvStep;
    if i > 0 {
      EnvRunIsShort(ws, i - 1);
      EnvStepWork(ws[i - 1], ws[i]);
    }
  }

  /** There is always a legal pick. */
  lemma CommitPickExists(s: State) returns (pick: Option<Block>)
    ensures CommitPick(s, pick)
  {
    var live := Above(s.commitQueue, s.cfg.blockNumber);
    pick := None;
    if |live| > 0 && TopNumber(live) == s.cfg.nextBlock {
      var b :| IsTop(live, b) && b.number == TopNumber(live);
      pick := Some(b);
    }
  }

  lemma ExecutePickExists(s: State) returns (next: Option<Block>)
    ensures ExecutePick(s, next)
  {
    var live := Above(s.blocks, s.cfg.executed);
    next := None;
    if |live| > 0 && TopNumber(live) == s.cfg.executed + 1 && s.cfg.executed < s.cfg.blockNumber + s.p.waterMark {
      var b :| IsTop(live, b) && b.number == TopNumber(live);
      next := Some(b);
    }
  }

  lemma SuccessExists(w: World) returns (step: Step)
    requires w.s.p.maxRequestBlocks > 0 && !Quiet(w) && w.replies == multiset{}
    ensures IsSuccess(step) && Enabled(w.s, step)
  {
    var s := w.s;
    if s.executing != multiset{} {
      var b :| b in s.executing;
      var pick := CommitPickExists(Executed(s, b));
      step := ExecuteDone(b, Some(b.hash), pick);
    } else if s.checking != multiset{} {
      var b :| b in s.checking;
      step := CheckDone(b, CheckPassed);
    } else if s.storing != multiset{} {
      var b :| b in s.storing;
      step := StoreDone(b, true);
    } else {
      var b :| b in s.committing;
      var pick := CommitPickExists(OnNewBlock(s.(committing := s.committing - multiset{b}), b.number, NO_HASH));
      step := CommitDone(b, Some(NO_HASH), pick);
    }
  }

  lemma ParamsKept(s: State, step: Step)
    requires Enabled(s, step) && (IsSuccess(step) || step.ReceiveBlocks?)
    ensures After(s, step).p == s.p
  {
  }

  /** As long as something is under way, something can arrive. */
  lemma EnvCanStep(w: World) returns (v: World)
    requires w.s.p.maxRequestBlocks > 0 && !Quiet(w)
    ensures EnvStep(w, v) && v.s.p == w.s.p
  {
    hide After, Quiet;
    if w.replies != multiset{} {
      var b :| b in w.replies;
      var step := ReceiveBlocks([Some(b)]);
      assert Enabled(w.s, step);
      ParamsKept(w.s, step);
      v := World(After(w.s, step), w.replies - multiset{b});
      assert Replies(w, b, v);
    } else {
      var step := SuccessExists(w);
      ParamsKept(w.s, step);
      v := World(After(w.s, step), w.replies);
      assert Delivers(w, step, v);
    }
  }

  /** So everything under way can be delivered, within as many arrivals as the bound says. */
  lemma Settles(w: World) returns (ws: seq<World>)
    requires w.s.p.maxRequestBlocks > 0
    ensures EnvRun(ws) && ws[0] == w && Quiet(Last(ws)) && Last(ws).s.p == w.s.p
    decreases Work(w)
  {
    hide EnvStep, Work, Quiet;
    if Quiet(w) {
      ws := [w];
    } else {
      var v := EnvCanStep(w);
      EnvStepWork(w, v);
      var rest := Settles(v);
      ws := [w] + rest;
    }
  }

  lemma QueuePicksExist(s: State) returns (pick: Option<Block>, next: Option<Block>)
    requires s.p.maxRequestBlocks > 0
    ensures Enabled(s, MaintainQueue(pick, next))
    ensures RunMaintainQueue(s, pick, next).p == s.p
  {
    pick, next := None, None;
    if ShouldSync(s.cfg) {
      pick := CommitPickExists(s);
      next := ExecutePickExists(TryCommit(s, pick));
    }
  }

  /** Between two arrivals, as long as no callback comes in, the pending ones stay pending. */
  lemma {:induction false} StillPending(ws: seq<World>, i: nat)
    requires EnvRun(ws) && i < |ws| && CallbackPending(ws[0].s) && !CallbackPending(ws[i].s)
    ensures CallbackArrives(ws)
  {
    hide Callback, Reply, CallbackPending;
    if i > 0 {
      if CallbackPending(ws[i - 1].s) {
        assert EnvStep(ws[i - 1], ws[i]);
        ReplyKeepsPending(ws[i - 1], ws[i]);
        assert Callback(ws[i - 1], ws[i - 1 + 1]);
      } else {
        StillPending(ws, i - 1);
      }
    }
  }

  lemma ReplyKeepsPending(w: World, v: World)
    ensures Reply(w, v) ==> (CallbackPending(v.s) <==> CallbackPending(w.s))
  {
  }

  lemma WorkerKeepsPending(s: State, pick: Option<Block>, next: Option<Block>)
    requires Enabled(RunMaintainBuffer(s), MaintainQueue(pick, next)) && CallbackPending(s)
    ensures CallbackPending(RunMaintainQueue(RunMaintainBuffer(s), pick, next))
  {
    hide RunMaintainBuffer, TryCommit, CommitPick, ExecuteNext, ExecutePick;
    FlushKeepsPending(s);
    var f := RunMaintainBuffer(s);
    if ShouldSync(f.cfg) {
      PassKeepsPending(f, pick);
      NextKeepsPending(TryCommit(f, pick), next);
    }
  }

  lemma FlushKeepsPending(s: State)
    requires CallbackPending(s)
    ensures CallbackPending(RunMaintainBuffer(s))
  {
    hide BufferAfter, BlocksAfter, TopNumber;
  }

  lemma NextKeepsPending(s: State, next: Option<Block>)
    requires CallbackPending(s)
    ensures CallbackPending(ExecuteNext(s, next))
  {
    hide Above;
  }

  lemma PassKeepsPending(s: State, pick: Option<Block>)
    requires CommitPick(s, pick) && CallbackPending(s)
    ensures CallbackPending(TryCommit(s, pick))
  {
  }

  /** From every state there is a worker round, and even one in which everything comes in. */
  lemma RoundExists(chain: Chain, w: World) returns (r: Round)
    requires IsChain(chain) && w.s.p.maxRequestBlocks > 0
    ensures IsRound(chain, r) && r.start == w && Live(chain, r) && Quiet(End(r)) && End(r).s.p == w.s.p
  {
    var flushed := RunMaintainBuffer(w.s);
    assert flushed.p == w.s.p;
    hide RunMaintainBuffer;
    var pick, next := QueuePicksExist(flushed);
    hide RunMaintainQueue, EnvStep, Enabled;
    var during := Settles(World(RunMaintainQueue(flushed, pick, next), w.replies));
    var requested := AfterRequest(chain, Last(during));
    assert requested.s.p == w.s.p;
    hide AfterRequest;
    var after := Settles(requested);
    r := Round(w, pick, next, during, after);
    hide Asked, CallbackArrives;
    if CallbackPending(w.s) {
      WorkerKeepsPending(w.s, pick, next);
      StillPending(during, |during| - 1);
    }
  }
}
