/** The node in its surroundings: worker rounds that never wait, and callbacks and replies that arrive in
    between, in any order. */
module Convergence {
  import opened SyncTypes
  import opened BlockQueues
  import opened SyncProtocol

  /** The node and the block messages on their way to it. */
  datatype World = World(s: State, replies: multiset<Block>)

  /** The blocks of the chain, by number. */
  type Chain = int -> Block

  ghost predicate IsChain(chain: Chain) {
    forall n :: chain(n).number == n
  }

  /** The chain's blocks numbered in (lo, hi]. */
  ghost function Span(chain: Chain, lo: int, hi: int): (r: multiset<Block>)
    requires IsChain(chain)
    ensures forall b: Block :: r[b] == if lo < b.number <= hi && b == chain(b.number) then 1 else 0
    ensures |r| == Max(0, hi - lo)
    decreases hi - lo
  {
    if hi <= lo then multiset{} else Span(chain, lo, hi - 1) + multiset{chain(hi)}
  }

  lemma SpanAbove(chain: Chain, lo: int, hi: int, n: int)
    requires IsChain(chain) && lo <= n
    ensures Above(Span(chain, lo, hi), n) == Span(chain, n, hi)
  {
    var a, b := Above(Span(chain, lo, hi), n), Span(chain, n, hi);
    assert forall c: Block :: a[c] == b[c];
  }

  lemma SpanTop(chain: Chain, lo: int, hi: int)
    requires IsChain(chain) && lo < hi
    ensures IsTop(Span(chain, lo, hi), chain(lo + 1))
    ensures forall b: Block :: IsTop(Span(chain, lo, hi), b) ==> b == chain(lo + 1)
    ensures TopNumber(Span(chain, lo, hi)) == lo + 1
    ensures Span(chain, lo, hi) - multiset{chain(lo + 1)} == Span(chain, lo + 1, hi)
  {
    var q := Span(chain, lo, hi);
    assert chain(lo + 1) in q;
    var rest, tail := q - multiset{chain(lo + 1)}, Span(chain, lo + 1, hi);
    assert forall b: Block :: rest[b] == tail[b];
  }

  // ---- the environment ----

  /** A callback of the scheduler, the consensus or the ledger that reports success. */
  predicate IsSuccess(step: Step) {
    match step
    case ExecuteDone(b, header, _) => ExecutedWell(b, header)
    case CheckDone(_, result) => result == CheckPassed
    case StoreDone(_, stored) => stored
    case CommitDone(_, ledger, _) => ledger.Some?
    case _ => false
  }

  ghost predicate Delivers(w: World, step: Step, v: World) {
    IsSuccess(step) && Enabled(w.s, step) && v == World(After(w.s, step), w.replies)
  }

  ghost predicate Replies(w: World, b: Block, v: World) {
    && b in w.replies && Enabled(w.s, ReceiveBlocks([Some(b)]))
    && v == World(After(w.s, ReceiveBlocks([Some(b)])), w.replies - multiset{b})
  }

  ghost predicate Callback(w: World, v: World) {
    exists step :: Delivers(w, step, v)
  }

  ghost predicate Reply(w: World, v: World) {
    exists b :: Replies(w, b, v)
  }

  /** One callback or one reply arrives. */
  ghost predicate EnvStep(w: World, v: World) {
    Callback(w, v) || Reply(w, v)
  }

  ghost predicate EnvRun(ws: seq<World>) {
    |ws| > 0 && forall i :: 0 <= i < |ws| - 1 ==> EnvStep(ws[i], ws[i + 1])
  }

  function Last(ws: seq<World>): World
    requires |ws| > 0
  {
    ws[|ws| - 1]
  }

  /** The scheduler, the consensus or the ledger still owes an answer. */
  predicate CallbackPending(s: State) {
    s.executing != multiset{} || s.checking != multiset{} || s.storing != multiset{} || s.committing != multiset{}
  }

  /** Nothing is in flight and no reply is outstanding. */
  predicate Quiet(w: World) {
    !CallbackPending(w.s) && w.replies == multiset{}
  }

  /** What a request round asks for; the peers send every block of it exactly once. */
  ghost function Asked(chain: Chain, s: State): multiset<Block>
    requires IsChain(chain) && s.p.maxRequestBlocks > 0
  {
    if StartsBatch(s) then Span(chain, s.cfg.blockNumber, BatchEnd(s)) else multiset{}
  }

  ghost function AfterRequest(chain: Chain, w: World): World
    requires IsChain(chain) && w.s.p.maxRequestBlocks > 0
  {
    World(RunTryRequest(w.s), w.replies + Asked(chain, w.s))
  }

  // ---- worker rounds ----

  /** One worker round: flush, execute at most one block, request; any callbacks and replies, or none, may
      arrive before the request and after it. The round waits for nothing. */
  datatype Round = Round(start: World, pick: Option<Block>, next: Option<Block>, during: seq<World>, after: seq<World>)

  /** Where a round leaves the world. */
  function End(r: Round): World {
    if r.after == [] then r.start else Last(r.after)
  }

  ghost predicate IsRound(chain: Chain, r: Round) {
    && IsChain(chain)
    && r.start.s.p.maxRequestBlocks > 0
    && var flushed := RunMaintainBuffer(r.start.s);
    && Enabled(flushed, MaintainQueue(r.pick, r.next))
    && EnvRun(r.during) && r.during[0] == World(RunMaintainQueue(flushed, r.pick, r.next), r.start.replies)
    && Last(r.during).s.p.maxRequestBlocks > 0
    && EnvRun(r.after) && r.after[0] == AfterRequest(chain, Last(r.during))
  }

  /** A callback comes in somewhere along `ws`. */
  ghost predicate CallbackArrives(ws: seq<World>) {
    exists i :: 0 <= i < |ws| - 1 && Callback(ws[i], ws[i + 1])
  }

  /** Every reply that was outstanding when the round began came in before it ended: what is outstanding
      then was asked for in this round. */
  ghost predicate RepliesArrive(chain: Chain, r: Round) {
    IsRound(chain, r) && End(r).replies <= Asked(chain, Last(r.during).s)
  }

  /** The surroundings moved on: the replies came in, and if callbacks were pending when the round
      began, at least one callback did. */
  ghost predicate Live(chain: Chain, r: Round) {
    && RepliesArrive(chain, r)
    && (CallbackPending(r.start.s) ==> CallbackArrives(r.during) || CallbackArrives(r.after))
  }
}
