/** The whole node as a step system. Every call that leaves the module (execute, check, store, commit)
    puts the block in flight; its callback is a later step with an outcome the environment chooses. */
module SyncProtocol {
  import opened SyncTypes
  import opened SyncConfig
  import opened BlockQueues
  import opened BlockBuffer
  import opened PeerTracking
  import opened RequestPlanner

  datatype Params = Params(maxQueue: nat, maxRequestBlocks: nat, maxShardPerPeer: nat, waterMark: nat)

  datatype Mode = Idle | Downloading

  datatype State = State(
    p: Params,
    self: NodeId,
    cfg: Config,
    peers: Peers,
    buffer: seq<Shard>,
    blocks: BlockQueue,
    commitQueue: BlockQueue,
    executing: multiset<Block>,
    checking: multiset<Block>,
    storing: multiset<Block>,
    committing: multiset<Block>,
    mode: Mode,
    maxRequest: int)

  /** The stages whose callback may arrive more than once. */
  datatype Stage = Executing | Checking | Storing | Committing

  datatype CheckResult = CheckError | CheckRejected | CheckPassed

  /** What the group configuration and the front service say when the peers are maintained. */
  datatype GroupView = GroupView(member: bool, group: set<NodeId>, connected: set<NodeId>)

  datatype Step =
    | ReceiveBlocks(shard: Shard)
    | ReceiveStatus(peer: NodeId, status: Status, inGroup: bool)
    | ReceiveRequest(peer: NodeId, inGroup: bool)
    | CommittedIndex(proposal: int)
    | NewBlock(number: int, hash: Hash, pick: Option<Block>)
    | Timeout
    | MaintainPeers(view: GroupView)
    | MaintainBuffer
    | MaintainQueue(pick: Option<Block>, next: Option<Block>)
    | TryRequest
    | ExecuteDone(block: Block, header: Option<Hash>, pick: Option<Block>)
    | CheckDone(block: Block, result: CheckResult)
    | StoreDone(block: Block, stored: bool)
    | CommitDone(block: Block, ledger: Option<Hash>, pick: Option<Block>)
    | Duplicate(stage: Stage, block: Block)

  // ---- guards ----

  predicate ShouldSync(c: Config) {
    c.blockNumber < c.knownHighest && c.proposal < c.knownHighest && c.executed < c.knownHighest
  }

  /** The block a pass over the commit queue takes: the top of what has not expired, if it is next. */
  ghost predicate CommitPick(s: State, pick: Option<Block>) {
    var live := Above(s.commitQueue, s.cfg.blockNumber);
    match pick
    case Some(b) => IsTop(live, b) && b.number == s.cfg.nextBlock
    case None => |live| > 0 ==> TopNumber(live) != s.cfg.nextBlock
  }

  /** The block the worker executes next: the top of what lies above the execution point, if it is the
      very next number and the water mark leaves room. */
  ghost predicate ExecutePick(s: State, next: Option<Block>) {
    var live := Above(s.blocks, s.cfg.executed);
    var room := s.cfg.executed < s.cfg.blockNumber + s.p.waterMark;
    match next
    case Some(b) => room && IsTop(live, b) && b.number == s.cfg.executed + 1
    case None => room && |live| > 0 ==> TopNumber(live) != s.cfg.executed + 1
  }

  predicate ExecutedWell(b: Block, header: Option<Hash>) {
    header == Some(b.hash)
  }

  // ---- the parts of a step ----

  function WithExecuted(s: State, n: int): State {
    s.(cfg := SetExecuted(s.cfg, n))
  }

  function CheckAndCommit(s: State, b: Block): State {
    if b.number != s.cfg.nextBlock then WithExecuted(s, s.cfg.blockNumber)
    else s.(checking := s.checking + multiset{b})
  }

  ghost function TryCommit(s: State, pick: Option<Block>): State {
    var live := Above(s.commitQueue, s.cfg.blockNumber);
    match pick
    case None => s.(commitQueue := live)
    case Some(b) => CheckAndCommit(s.(commitQueue := live - multiset{b}), b)
  }

  ghost function OnNewBlock(s: State, n: int, h: Hash): State {
    var c := ResetConfig(s.cfg, n, h);
    s.(cfg := c, blocks := Above(s.blocks, c.blockNumber), commitQueue := Above(s.commitQueue, c.blockNumber))
  }

  /** The execute callback up to the pass over the commit queue. */
  function Executed(s: State, b: Block): State {
    var t := WithExecuted(s, b.number);
    t.(executing := s.executing - multiset{b}, commitQueue := s.commitQueue + multiset{b})
  }

  /** Storing always follows; a block without transactions is committed right away as well. */
  function CommitBlock(s: State, b: Block): State {
    var t := s.(storing := s.storing + multiset{b});
    if b.txs == 0 then t.(committing := t.committing + multiset{b}) else t
  }

  function ApplyBlock(s: State, b: Block): State {
    if b.number <= s.cfg.blockNumber then WithExecuted(s, s.cfg.blockNumber)
    else s.(executing := s.executing + multiset{b})
  }

  function ClearQueues(s: State): State {
    s.(buffer := [], blocks := multiset{})
  }

  ghost function RunMaintainBuffer(s: State): State {
    if |s.buffer| + |s.blocks| == 0 then s
    else if !ShouldSync(s.cfg) then ClearQueues(s)
    else
      var t := if |s.blocks| == s.p.maxQueue && |s.blocks| > 0 && TopNumber(s.blocks) > s.cfg.nextBlock
               then s.(blocks := multiset{}) else s;
      t.(buffer := BufferAfter(t.buffer, t.blocks, t.cfg.blockNumber, t.p.maxQueue),
         blocks := BlocksAfter(t.buffer, t.blocks, t.cfg.blockNumber, t.p.maxQueue))
  }

  ghost function RunMaintainQueue(s: State, pick: Option<Block>, next: Option<Block>): State {
    if !ShouldSync(s.cfg) then ClearQueues(s).(mode := Idle) else ExecuteNext(TryCommit(s, pick), next)
  }

  ghost function ExecuteNext(s: State, next: Option<Block>): State {
    var live := Above(s.blocks, s.cfg.executed);
    match next
    case None => s.(blocks := live)
    case Some(b) => ApplyBlock(s.(blocks := live - multiset{b}, mode := Downloading), b)
  }

  ghost function RequestTo(s: State): int {
    if |s.blocks| > 0 && TopNumber(s.blocks) > s.cfg.nextBlock
    then Min(s.cfg.knownHighest, TopNumber(s.blocks) - 1) else s.cfg.knownHighest
  }

  /** A request round releases a finished batch first. */
  function Released(s: State): State {
    if s.maxRequest <= s.cfg.blockNumber || s.maxRequest <= s.cfg.executed then s.(mode := Idle) else s
  }

  predicate WaitsForCommit(s: State) {
    s.cfg.blockNumber < s.cfg.executed && |s.commitQueue| > 0
  }

  ghost predicate StartsBatch(s: State) {
    && !WaitsForCommit(s)
    && ShouldSync(s.cfg) && Released(s).mode == Idle
    && s.cfg.blockNumber < RequestTo(s)
  }

  ghost function BatchShards(s: State): nat
    requires s.p.maxRequestBlocks > 0
  {
    var k := PlanCount(s.cfg.blockNumber, RequestTo(s), s.p.maxRequestBlocks, s.p.maxShardPerPeer,
                       |Eligible(s.peers, s.cfg.knownHighest)|);
    if k < 0 then 0 else k
  }

  /** The last block a batch asks for; its first is the one after the block number. */
  ghost function BatchEnd(s: State): int
    requires s.p.maxRequestBlocks > 0
  {
    Min(RequestTo(s), s.cfg.blockNumber + BatchShards(s) * s.p.maxRequestBlocks)
  }

  ghost function RunTryRequest(s: State): State
    requires s.p.maxRequestBlocks > 0
  {
    if WaitsForCommit(s) then s
    else if !StartsBatch(s) then Released(s)
    else s.(mode := Downloading,
            maxRequest := if BatchShards(s) == 0 then s.maxRequest else Max(s.maxRequest, BatchEnd(s)))
  }

  predicate StaysPeer(s: State, view: GroupView, id: NodeId)
    requires id in s.peers
  {
    id == s.self || (id in view.connected && (id in view.group || s.cfg.blockNumber < s.peers[id].number))
  }

  function OwnStatus(c: Config): Status {
    Status(c.blockNumber, c.hash, c.genesis)
  }

  /** The node records its own status among the peers'. */
  function Announced(s: State): State {
    s.(peers := UpdatePeers(s.cfg, s.peers, s.self, OwnStatus(s.cfg)),
       cfg := UpdateConfig(s.cfg, s.peers, s.self, OwnStatus(s.cfg)))
  }

  function WithStaying(s: State, view: GroupView): State {
    s.(peers := map id | id in s.peers && StaysPeer(s, view, id) :: s.peers[id])
  }

  ghost function RunMaintainPeers(s: State, view: GroupView): State {
    if !view.member then s
    else
      var kept := WithStaying(s, view);
      if exists id :: id in view.group && id != s.self && id in view.connected then Announced(kept) else kept
  }

  function InFlight(s: State, stage: Stage): multiset<Block> {
    match stage
    case Executing => s.executing
    case Checking => s.checking
    case Storing => s.storing
    case Committing => s.committing
  }

  // ---- steps ----

  ghost predicate Enabled(s: State, step: Step) {
    && s.p.maxRequestBlocks > 0
    && match step
       case NewBlock(n, h, pick) =>
         if n > s.cfg.blockNumber then CommitPick(OnNewBlock(s, n, h), pick) else pick == None
       case MaintainQueue(pick, next) =>
         if ShouldSync(s.cfg) then CommitPick(s, pick) && ExecutePick(TryCommit(s, pick), next)
         else pick == None && next == None
       case ExecuteDone(b, header, pick) =>
         b in s.executing && if ExecutedWell(b, header) then CommitPick(Executed(s, b), pick) else pick == None
       case CheckDone(b, result) => b in s.checking
       case StoreDone(b, stored) => b in s.storing
       case CommitDone(b, ledger, pick) =>
         b in s.committing &&
         if ledger.Some?
         then CommitPick(OnNewBlock(s.(committing := s.committing - multiset{b}), b.number, ledger.value), pick)
         else pick == None
       case Duplicate(stage, b) => b in InFlight(s, stage)
       case _ => true
  }

  ghost function After(s: State, step: Step): State
    requires Enabled(s, step)
  {
    match step
    case ReceiveBlocks(shard) => if |s.buffer| >= s.p.maxQueue then s else s.(buffer := s.buffer + [shard])
    case ReceiveStatus(id, st, inGroup) =>
      if !inGroup && st.number <= s.cfg.blockNumber then s
      else s.(peers := UpdatePeers(s.cfg, s.peers, id, st), cfg := UpdateConfig(s.cfg, s.peers, id, st))
    case ReceiveRequest(id, inGroup) => if inGroup then s.(peers := InsertEmpty(s.peers, id)) else s
    case CommittedIndex(n) => s.(cfg := s.cfg.(proposal := n))
    case NewBlock(n, h, pick) =>
      if n > s.cfg.blockNumber then TryCommit(OnNewBlock(s, n, h), pick) else s
    case Timeout => s.(mode := Idle)
    case MaintainPeers(view) => RunMaintainPeers(s, view)
    case MaintainBuffer => RunMaintainBuffer(s)
    case MaintainQueue(pick, next) => RunMaintainQueue(s, pick, next)
    case TryRequest => RunTryRequest(s)
    case ExecuteDone(b, header, pick) =>
      if ExecutedWell(b, header) then TryCommit(Executed(s, b), pick)
      else WithExecuted(s.(executing := s.executing - multiset{b}), s.cfg.blockNumber)
    case CheckDone(b, result) =>
      var t := s.(checking := s.checking - multiset{b});
      if result == CheckPassed then CommitBlock(t, b) else WithExecuted(t, b.number - 1)
    case StoreDone(b, stored) =>
      var t := s.(storing := s.storing - multiset{b});
      if stored then t.(committing := t.committing + multiset{b}) else WithExecuted(t, b.number - 1)
    case CommitDone(b, ledger, pick) =>
      var t := s.(committing := s.committing - multiset{b});
      if ledger.Some? then TryCommit(OnNewBlock(t, b.number, ledger.value), pick)
      else WithExecuted(t, b.number - 1)
    case Duplicate(stage, b) =>
      match stage
      case Executing => s.(executing := s.executing + multiset{b})
      case Checking => s.(checking := s.checking + multiset{b})
      case Storing => s.(storing := s.storing + multiset{b})
      case Committing => s.(committing := s.committing + multiset{b})
  }

  /** The node right after initialisation from a ledger at height `n` with head hash `h`. */
  ghost predicate Initial(s: State) {
    && s.p.maxRequestBlocks > 0
    && (exists n: nat, h: Hash, g: Hash :: s.cfg == ResetConfig(SetGenesis(FRESH, g), n, h))
    && s.peers == map[] && s.buffer == []
    && s.blocks == s.commitQueue == s.executing == s.checking == s.storing == s.committing == multiset{}
    && s.mode == Idle && s.maxRequest == 0
  }
}
