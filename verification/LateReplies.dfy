/** Why the room has to grow with the delay: with one block less, replies that are late once fill the buffer,
    the block that is needed is dropped, and without a timeout the node never asks for it again. */
module LateReplies {
  import opened SyncTypes
  import opened SyncConfig
  import opened BlockQueues
  import opened BlockBuffer
  import opened PeerTracking
  import opened RequestPlanner
  import opened SyncProtocol
  import opened Convergence
  import opened Delivery
  import opened Pipeline
  import opened WorkerRound
  import opened CatchUp

  // ---- a node that is lost ----

  /** A block was requested that is neither here nor on its way, and the batch is still open. */
  ghost predicate Lost(w: World) {
    var s := w.s;
    && Quiet(w) && s.blocks == s.commitQueue == multiset{} && s.mode == Downloading
    && 0 <= s.cfg.blockNumber == s.cfg.executed < s.maxRequest && s.cfg.nextBlock == s.cfg.blockNumber + 1
    && ShouldSync(s.cfg) && s.p.maxRequestBlocks > 0
    && Clean(s.buffer) && NewerAll(s.buffer, s.cfg.blockNumber) == multiset{} && |s.buffer| <= s.p.maxQueue
    && 0 < s.p.maxQueue
  }

  /** All a round does to a lost node is to empty its buffer. */
  lemma LostRound(chain: Chain, r: Round)
    requires IsChain(chain) && IsRound(chain, r) && Lost(r.start)
    ensures Lost(End(r)) && End(r).s.cfg == r.start.s.cfg
  {
    hide Lost, IsRound, RunMaintainBuffer, RunMaintainQueue, Enabled, AfterRequest, EnvStep;
    RoundParts(chain, r);
    LostIsQuiet(r.start);
    LostWorker(r.start.s, r.pick, r.next);
    QuietStaysPut(r.during);
    LostRequest(chain, Last(r.during));
    QuietStaysPut(r.after);
  }

  lemma RoundParts(chain: Chain, r: Round)
    requires IsRound(chain, r)
    ensures Enabled(RunMaintainBuffer(r.start.s), MaintainQueue(r.pick, r.next))
    ensures EnvRun(r.during) && EnvRun(r.after) && End(r) == Last(r.after)
    ensures r.during[0] == World(RunMaintainQueue(RunMaintainBuffer(r.start.s), r.pick, r.next), r.start.replies)
    ensures Last(r.during).s.p.maxRequestBlocks > 0 && r.after[0] == AfterRequest(chain, Last(r.during))
  {
    hide RunMaintainBuffer, RunMaintainQueue, Enabled, AfterRequest, EnvStep;
  }

  lemma LostIsQuiet(w: World)
    requires Lost(w)
    ensures Quiet(w) && w == World(w.s, multiset{})
    ensures var v := World(w.s.(buffer := []), multiset{}); Lost(v) && Quiet(v)
  {
    assert NewerAll([], w.s.cfg.blockNumber) == multiset{};
    hide NewerAll;
  }

  lemma LostWorker(s: State, pick: Option<Block>, next: Option<Block>)
    requires Lost(World(s, multiset{})) && Enabled(RunMaintainBuffer(s), MaintainQueue(pick, next))
    ensures RunMaintainQueue(RunMaintainBuffer(s), pick, next) == s.(buffer := [])
  {
    hide Enabled, RunMaintainBuffer, RunMaintainQueue, ShouldSync, NewerAll, Clean;
    FlushShape(s);
    var f := s.(buffer := []);
    assert RunMaintainBuffer(s) == f;
    hide ExecutePick, ExecuteNext;
    QueueShape(f, pick, next);
    AboveKeepsAll(multiset{}, f.cfg.executed);
    hide Above;
    NextShape(f, next);
  }

  lemma LostRequest(chain: Chain, w: World)
    requires IsChain(chain) && Lost(w)
    ensures AfterRequest(chain, w) == w
  {
    hide NewerAll, RequestTo;
    assert multiset{} + multiset{} == w.replies;
  }

  lemma QuietStaysPut(ws: seq<World>)
    requires EnvRun(ws) && Quiet(ws[0])
    ensures |ws| == 1
  {
    hide EnvStep;
    if |ws| > 1 {
      NothingArrives(ws[0], ws[1]);
    }
  }

  lemma NothingArrives(w: World, v: World)
    requires Quiet(w)
    ensures !EnvStep(w, v)
  {
    hide After;
  }

  /** So a lost node stays where it is, round after round. */
  lemma {:induction false} LostForGood(chain: Chain, rs: seq<Round>, i: nat)
    requires IsChain(chain) && AreRounds(chain, rs) && i < |rs| && Lost(rs[0].start)
    ensures Lost(End(rs[i])) && End(rs[i]).s.cfg.blockNumber == rs[0].start.s.cfg.blockNumber
  {
    hide IsRound, Lost, End;
    if i > 0 {
      LostForGood(chain, rs, i - 1);
    }
    LostRound(chain, rs[i]);
  }

  // ---- a run that loses a node, for every delay ----

  const PEER := NodeId(1)
  const PEERS: Peers := map[PEER := Status(3, 15, 7)]

  function B(n: int): Block {
    Block(n, n, 1)
  }

  const CHAIN: Chain := n => B(n)

  /** A node with one peer at block 3, one block to a request, and a queue limit of `d`. */
  function Node(d: nat, n: int, e: int, m: int, mode: Mode, buffer: seq<Shard>, executing: multiset<Block>,
                checking: multiset<Block>, storing: multiset<Block>, committing: multiset<Block>): State {
    State(Params(d, 1, 1, 10), NodeId(0), Config(n, n + 1, e, 3, 0, 7, 15, 7), PEERS, buffer, multiset{}, multiset{},
          executing, checking, storing, committing, mode, m)
  }

  lemma OneBlockFits(s: State, d: nat)
    requires d > 0 && s.p == Params(d, 1, 1, 10) && s.peers == PEERS && s.cfg.knownHighest == 3 && s.cfg.proposal == 0
    ensures Surroundings(s, 3, d - 1) && Capacity(s) == 1
  {
    assert Eligible(PEERS, 3) == {PEER};
  }

  /** A request by such a node asks for the one block after the block number. */
  lemma AsksForOne(w: World, d: nat)
    requires d > 0 && w.s == Node(d, w.s.cfg.blockNumber, w.s.cfg.executed, w.s.maxRequest, w.s.mode, w.s.buffer,
                                  multiset{}, w.s.checking, w.s.storing, w.s.committing)
    requires w.s.maxRequest <= w.s.cfg.executed < 3 && w.s.cfg.blockNumber < 3 && IsChain(CHAIN)
    ensures StartsBatch(w.s) && Asked(CHAIN, w.s) == multiset{B(w.s.cfg.blockNumber + 1)}
    ensures AfterRequest(CHAIN, w) ==
            World(w.s.(mode := Downloading, maxRequest := Max(w.s.maxRequest, w.s.cfg.blockNumber + 1)),
                  w.replies + multiset{B(w.s.cfg.blockNumber + 1)})
  {
    var n := w.s.cfg.blockNumber;
    OneBlockFits(w.s, d);
    hide Surroundings, Capacity;
    assert StartsBatch(w.s);
    BatchOnEmpty(w.s, 3, d - 1);
    hide StartsBatch, BatchEnd, RunTryRequest;
    SpanNext(CHAIN, n, n);
    EmptySpan(CHAIN, n, n);
    assert multiset{} + multiset{B(n + 1)} == multiset{B(n + 1)};
    hide Span;
  }

  lemma ChainIsChain()
    ensures IsChain(CHAIN)
  {
  }

  /** The worker has nothing to do before its request. */
  lemma WorkerIdles(s: State)
    requires s.buffer == [] && s.blocks == s.commitQueue == multiset{} && ShouldSync(s.cfg) && s.p.maxRequestBlocks > 0
    ensures Enabled(RunMaintainBuffer(s), MaintainQueue(None, None))
    ensures RunMaintainQueue(RunMaintainBuffer(s), None, None) == s
  {
    assert RunMaintainBuffer(s) == s;
    hide RunMaintainBuffer;
    AboveKeepsAll(multiset{}, s.cfg.blockNumber);
    AboveKeepsAll(multiset{}, s.cfg.executed);
    hide Above, TopNumber;
  }

  // ---- the first block is requested, executed and checked ----

  function Idling(d: nat): World {
    World(Node(d, 0, 0, 0, Idle, [], multiset{}, multiset{}, multiset{}, multiset{}), multiset{})
  }

  function FirstHere(d: nat): World {
    World(Node(d, 0, 0, 1, Downloading, [[Some(B(1))]], multiset{}, multiset{}, multiset{}, multiset{}), multiset{})
  }

  function FirstRound(d: nat): Round {
    var a := World(Node(d, 0, 0, 1, Downloading, [], multiset{}, multiset{}, multiset{}, multiset{}), multiset{B(1)});
    Round(Idling(d), None, None, [Idling(d)], [a, FirstHere(d)])
  }

  lemma ReplyStep(w: World, b: Block, v: World)
    requires b in w.replies && w.s.p.maxRequestBlocks > 0
    requires v == World(if |w.s.buffer| >= w.s.p.maxQueue then w.s else w.s.(buffer := w.s.buffer + [[Some(b)]]),
                        w.replies - multiset{b})
    ensures EnvStep(w, v)
  {
    assert Replies(w, b, v);
  }

  lemma IsRoundOf(chain: Chain, r: Round)
    requires IsChain(chain) && r.start.s.p.maxRequestBlocks > 0
    requires Enabled(RunMaintainBuffer(r.start.s), MaintainQueue(r.pick, r.next))
    requires EnvRun(r.during) && EnvRun(r.after) && Last(r.during).s.p.maxRequestBlocks > 0
    requires r.during[0] == World(RunMaintainQueue(RunMaintainBuffer(r.start.s), r.pick, r.next), r.start.replies)
    requires r.after[0] == AfterRequest(chain, Last(r.during))
    ensures IsRound(chain, r) && End(r) == Last(r.after)
    ensures Live(chain, r) <==>
            && Last(r.after).replies <= Asked(chain, Last(r.during).s)
            && (CallbackPending(r.start.s) ==> CallbackArrives(r.during) || CallbackArrives(r.after))
  {
    hide RunMaintainBuffer, RunMaintainQueue, Enabled, AfterRequest, EnvStep, Asked, CallbackArrives, IsChain;
  }

  lemma FirstIsRound(d: nat)
    requires d > 0
    ensures IsRound(CHAIN, FirstRound(d)) && Live(CHAIN, FirstRound(d)) && End(FirstRound(d)) == FirstHere(d)
  {
    hide RunMaintainBuffer, RunMaintainQueue, Enabled, AfterRequest, EnvStep, Asked, IsChain, CallbackArrives, IsRound;
    hide Live, StartsBatch;
    ChainIsChain();
    var r := FirstRound(d);
    WorkerIdles(Idling(d).s);
    AsksForOne(Idling(d), d);
    assert multiset{} + multiset{B(1)} == multiset{B(1)};
    assert multiset{B(1)} - multiset{B(1)} == multiset{};
    ReplyStep(r.after[0], B(1), FirstHere(d));
    IsRoundOf(CHAIN, r);
  }

  /** The first block executed and being checked, with `j` more replies for it on their way. */
  ghost function Checking(d: nat, j: nat): World {
    World(Node(d, 0, 1, 1, Downloading, [], multiset{}, multiset{B(1)}, multiset{}, multiset{}), Copies(j))
  }

  ghost function Copies(j: nat): multiset<Block> {
    if j == 0 then multiset{} else Copies(j - 1) + multiset{B(1)}
  }

  /** As long as the check takes, every round asks for the first block once more. */
  ghost function WaitRound(d: nat, j: nat): Round {
    Round(Checking(d, j), None, None, [Checking(d, j)], [Checking(d, j + 1)])
  }

  lemma WaitIsRound(d: nat, j: nat)
    requires d > 0
    ensures IsRound(CHAIN, WaitRound(d, j)) && End(WaitRound(d, j)) == Checking(d, j + 1)
  {
    hide RunMaintainBuffer, RunMaintainQueue, Enabled, AfterRequest, EnvStep, Asked, IsChain, CallbackArrives, IsRound;
    hide Live, StartsBatch;
    ChainIsChain();
    WorkerIdles(Checking(d, j).s);
    AsksForOne(Checking(d, j), d);
    IsRoundOf(CHAIN, WaitRound(d, j));
  }

  // ---- the round that executes the first block ----

  function Executing(d: nat): World {
    World(Node(d, 0, 0, 1, Downloading, [], multiset{B(1)}, multiset{}, multiset{}, multiset{}), multiset{})
  }

  ghost function SecondRound(d: nat): Round {
    Round(FirstHere(d), None, Some(B(1)), [Executing(d), Checking(d, 0)], [Checking(d, 1)])
  }

  lemma WorkerExecutes(d: nat)
    requires d > 0
    ensures Enabled(RunMaintainBuffer(FirstHere(d).s), MaintainQueue(None, Some(B(1))))
    ensures RunMaintainQueue(RunMaintainBuffer(FirstHere(d).s), None, Some(B(1))) == Executing(d).s
  {
    var s := FirstHere(d).s;
    assert NewerAll(s.buffer, 0) == multiset{B(1)} by {
      AppendOne([], B(1));
      assert [] + [[Some(B(1))]] == s.buffer && NewerAll([], 0) + multiset{B(1)} == multiset{B(1)};
    }
    assert multiset{} + multiset{B(1)} == multiset{B(1)};
    FlushShape(s);
    var f := s.(buffer := [], blocks := multiset{B(1)});
    assert RunMaintainBuffer(s) == f;
    hide RunMaintainBuffer, NewerAll;
    FirstIsTaken(f);
    hide ExecutePick, ExecuteNext, TryCommit, CommitPick;
  }

  lemma FirstIsTaken(s: State)
    requires s.blocks == multiset{B(1)} && s.commitQueue == s.executing == multiset{}
    requires s.cfg.blockNumber == s.cfg.executed == 0 < s.p.waterMark
    ensures CommitPick(s, None) && TryCommit(s, None) == s
    ensures ExecutePick(s, Some(B(1)))
    ensures ExecuteNext(s, Some(B(1))) == s.(blocks := multiset{}, executing := multiset{B(1)}, mode := Downloading)
  {
    AboveKeepsAll(multiset{}, 0);
    AboveKeepsAll(s.blocks, 0);
    hide Above;
    assert IsTop(s.blocks, B(1));
    assert multiset{B(1)} - multiset{B(1)} == multiset{} && multiset{} + multiset{B(1)} == multiset{B(1)};
  }

  lemma ExecutionArrives(d: nat)
    ensures Callback(Executing(d), Checking(d, 0))
  {
    ChainIsChain();
    var s := Executing(d).s;
    var pick := CommitPickExists(Executed(s, B(1)));
    hide CommitPick, TryCommit;
    var step := ExecuteDone(B(1), Some(1), pick);
    assert Enabled(s, step);
    EmptySpan(CHAIN, 1, 0);
    EmptySpan(CHAIN, 1, 1);
    ExecuteShape(CHAIN, s, B(1), Some(1), pick);
    hide After, Enabled, Span;
    assert Delivers(Executing(d), step, Checking(d, 0));
  }

  lemma SecondIsRound(d: nat)
    requires d > 0
    ensures IsRound(CHAIN, SecondRound(d)) && Live(CHAIN, SecondRound(d)) && End(SecondRound(d)) == Checking(d, 1)
  {
    hide RunMaintainBuffer, RunMaintainQueue, Enabled, AfterRequest, Callback, Reply, Asked, IsChain, CallbackArrives;
    hide IsRound, Live, StartsBatch;
    ChainIsChain();
    WorkerExecutes(d);
    ExecutionArrives(d);
    AsksForOne(Checking(d, 0), d);
    assert Copies(1) == Copies(0) + multiset{B(1)} == multiset{B(1)};
    IsRoundOf(CHAIN, SecondRound(d));
  }

  // ---- the round that loses the second block ----

  ghost function Storing(d: nat, j: nat): World {
    World(Node(d, 0, 1, 1, Downloading, [], multiset{}, multiset{}, multiset{B(1)}, multiset{}), Copies(j))
  }

  ghost function Committing(d: nat, j: nat): World {
    World(Node(d, 0, 1, 1, Downloading, [], multiset{}, multiset{}, multiset{}, multiset{B(1)}), Copies(j))
  }

  ghost function Committed(d: nat, j: nat): World {
    World(Node(d, 1, 1, 1, Downloading, [], multiset{}, multiset{}, multiset{}, multiset{}), Copies(j))
  }

  function Fill(i: nat): seq<Shard> {
    seq(i, _ => [Some(B(1))])
  }

  /** The second block is on its way, `i` of `d` stale replies are in the buffer. */
  ghost function Filling(d: nat, i: nat): World
    requires i <= d
  {
    World(Node(d, 1, 1, 2, Downloading, Fill(i), multiset{}, multiset{}, multiset{}, multiset{}),
          Copies(d - i) + multiset{B(2)})
  }

  ghost function Full(d: nat): World {
    World(Node(d, 1, 1, 2, Downloading, Fill(d), multiset{}, multiset{}, multiset{}, multiset{}), multiset{})
  }

  ghost function LastRound(d: nat): Round {
    Round(Checking(d, d), None, None, [Checking(d, d), Storing(d, d), Committing(d, d), Committed(d, d)],
          seq(d + 1, i requires 0 <= i <= d => Filling(d, i)) + [Full(d)])
  }

  lemma CommitArrives(d: nat, j: nat)
    ensures Callback(Checking(d, j), Storing(d, j))
    ensures Callback(Storing(d, j), Committing(d, j))
    ensures Callback(Committing(d, j), Committed(d, j))
  {
    CheckArrives(d, j);
    StoreArrives(d, j);
    ChainIsChain();
    var s := Committing(d, j).s;
    var pick := CommitPickExists(OnNewBlock(s.(committing := s.committing - multiset{B(1)}), 1, 7));
    hide CommitPick, TryCommit, OnNewBlock;
    var step := CommitDone(B(1), Some(7), pick);
    assert Enabled(s, step);
    EmptySpan(CHAIN, 1, 1);
    EmptySpan(CHAIN, 2, 1);
    NextCommitShape(CHAIN, s, B(1), 7, pick);
    assert multiset{B(1)} - multiset{B(1)} == multiset{};
    hide After, Enabled, Span;
    assert Delivers(Committing(d, j), step, Committed(d, j));
  }

  lemma CheckArrives(d: nat, j: nat)
    ensures Callback(Checking(d, j), Storing(d, j))
  {
    var step := CheckDone(B(1), CheckPassed);
    assert multiset{B(1)} - multiset{B(1)} == multiset{} && multiset{} + multiset{B(1)} == multiset{B(1)};
    assert Delivers(Checking(d, j), step, Storing(d, j));
  }

  lemma StoreArrives(d: nat, j: nat)
    ensures Callback(Storing(d, j), Committing(d, j))
  {
    var step := StoreDone(B(1), true);
    assert multiset{B(1)} - multiset{B(1)} == multiset{} && multiset{} + multiset{B(1)} == multiset{B(1)};
    assert Delivers(Storing(d, j), step, Committing(d, j));
  }

  lemma StaleArrives(d: nat, i: nat)
    requires i < d
    ensures EnvStep(Filling(d, i), Filling(d, i + 1))
  {
    var w := Filling(d, i);
    assert Copies(d - i) == Copies(d - i - 1) + multiset{B(1)};
    assert w.replies - multiset{B(1)} == Copies(d - i - 1) + multiset{B(2)};
    assert Fill(i) + [[Some(B(1))]] == Fill(i + 1);
    ReplyStep(w, B(1), Filling(d, i + 1));
  }

  lemma SecondIsDropped(d: nat)
    ensures EnvStep(Filling(d, d), Full(d))
  {
    var w := Filling(d, d);
    assert w.replies == multiset{B(2)} && multiset{B(2)} - multiset{B(2)} == multiset{};
    ReplyStep(w, B(2), Full(d));
  }

  lemma LastIsRound(d: nat)
    requires d > 0
    ensures IsRound(CHAIN, LastRound(d)) && Live(CHAIN, LastRound(d)) && End(LastRound(d)) == Full(d)
  {
    hide RunMaintainBuffer, RunMaintainQueue, Enabled, AfterRequest, Callback, Reply, Asked, IsChain;
    hide IsRound, Live, StartsBatch;
    ChainIsChain();
    var r := LastRound(d);
    WorkerIdles(Checking(d, d).s);
    CommitArrives(d, d);
    AsksForOne(Committed(d, d), d);
    assert r.after[0] == Filling(d, 0);
    forall i | 0 <= i < |r.after| - 1
      ensures EnvStep(r.after[i], r.after[i + 1])
    {
      if i < d {
        StaleArrives(d, i);
      } else {
        SecondIsDropped(d);
      }
    }
    assert EnvRun(r.during);
    assert Callback(r.during[0], r.during[1]);
    hide EnvStep;
    IsRoundOf(CHAIN, r);
  }

  lemma {:induction false} OldAreDropped(i: nat)
    ensures NewerAll(Fill(i), 1) == multiset{}
  {
    if i > 0 {
      var shard: Shard := [Some(B(1))];
      OldAreDropped(i - 1);
      assert Fill(i)[..i - 1] == Fill(i - 1);
      assert shard[..0] == [] && Newer(shard, 1) == Newer([], 1);
    }
  }

  lemma FullIsLost(d: nat)
    requires d > 0
    ensures Lost(Full(d))
  {
    OldAreDropped(d);
    hide NewerAll;
  }

  /** Where round `i` of the run starts, and the round. */
  ghost function Station(d: nat, i: nat): World {
    if i == 0 then Idling(d) else if i == 1 then FirstHere(d) else if i <= d + 1 then Checking(d, i - 1) else Full(d)
  }

  ghost function RoundAt(d: nat, i: nat): Round {
    if i == 0 then FirstRound(d) else if i == 1 then SecondRound(d) else if i <= d then WaitRound(d, i - 1)
    else LastRound(d)
  }

  lemma RoundAtIs(d: nat, i: nat)
    requires 0 < d && i <= d + 1
    ensures var r := RoundAt(d, i);
      && IsRound(CHAIN, r) && r.start == Station(d, i) && End(r) == Station(d, i + 1)
      && (i < 2 || i == d + 1 ==> Live(CHAIN, r))
  {
    hide IsRound, End, Live;
    if i == 0 {
      FirstIsRound(d);
    } else if i == 1 {
      SecondIsRound(d);
    } else if i <= d {
      WaitIsRound(d, i - 1);
    } else {
      LastIsRound(d);
    }
    hide Idling, FirstHere, Checking, Full;
  }

  ghost function LosingRounds(d: nat): seq<Round> {
    seq(d + 2, i requires 0 <= i => RoundAt(d, i))
  }

  lemma LosingAreRounds(d: nat)
    requires d > 0
    ensures AreRounds(CHAIN, LosingRounds(d)) && LiveWithin(CHAIN, LosingRounds(d), d)
  {
    hide IsRound, End, Live, RoundAt, Station;
    var rs := LosingRounds(d);
    forall i | 0 <= i < |rs|
      ensures IsRound(CHAIN, rs[i])
    {
      RoundAtIs(d, i);
    }
    forall i | 0 < i < |rs|
      ensures rs[i].start == End(rs[i - 1])
    {
      RoundAtIs(d, i);
      RoundAtIs(d, i - 1);
    }
    forall i | 0 <= i <= |rs| - d
      ensures LiveFrom(CHAIN, rs, i, d)
    {
      var k := if i < 2 then i else d + 1;
      RoundAtIs(d, k);
      assert Live(CHAIN, rs[k]);
    }
  }

  lemma IdlingIsBehind(d: nat)
    requires d > 0
    ensures IdleBehind(Idling(d), 3, d - 1)
  {
    OneBlockFits(Idling(d).s, d);
    hide Surroundings;
  }

  /** For every delay `d` there is a run from an idle node, with a live round among any `d` in a row and room
      for a batch and `d - 1` blocks more, after which the node is lost: no sequence of rounds takes it any
      further. So the room for `d` blocks in the convergence statement cannot be less. */
  lemma RoomIsNeeded(d: nat) returns (rs: seq<Round>)
    requires d > 0
    ensures IsChain(CHAIN) && AreRounds(CHAIN, rs) && LiveWithin(CHAIN, rs, d) && |rs| == d + 2
    ensures IdleBehind(rs[0].start, 3, d - 1)
    ensures Lost(End(rs[d + 1])) && End(rs[d + 1]).s.cfg.blockNumber == 1
  {
    hide IsChain, IsRound, End, Live, RoundAt, AreRounds, LiveWithin, Lost, IdleBehind;
    ChainIsChain();
    IdlingIsBehind(d);
    FullIsLost(d);
    rs := LosingRounds(d);
    LosingAreRounds(d);
    RoundAtIs(d, 0);
    RoundAtIs(d, d + 1);
  }
}
