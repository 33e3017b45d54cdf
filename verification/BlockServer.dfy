/** Answering the requests of one peer. */
module BlockServer {
  import opened SyncTypes
  import opened Words
  import opened DownloadRequests

  /** The peer's queue, the fetches handed to the ledger, and what became of the numbers. */
  datatype Server = Server(
    queue: RequestQueue,
    limit: nat,
    fetching: multiset<int>,
    sent: multiset<int>,
    lost: multiset<int>)

  datatype Step =
    | Pop(range: DownloadRequest, rest: RequestQueue)
    | Fetched(number: int)
    | FetchFailed(number: int)
    | Threw(number: int)

  ghost function Numbers(r: DownloadRequest): (q: multiset<int>)
    ensures forall n :: q[n] == if Covers(r, n) then 1 else 0
    decreases r.size
  {
    if r.size == 0 then multiset{}
    else Numbers(DownloadRequest(r.from, r.size - 1)) + multiset{End(r) - 1}
  }

  /** A failed fetch goes back into the queue as a request of its own, unless the queue is full. */
  function PutBack(s: Server, n: int): Server {
    if |s.queue| >= s.limit then s.(lost := s.lost + multiset{n})
    else s.(queue := s.queue + multiset{DownloadRequest(n, 1)})
  }

  ghost predicate Enabled(s: Server, step: Step) {
    match step
    case Pop(range, rest) => IsMerge(s.queue, range, rest)
    case Fetched(n) => n in s.fetching
    case FetchFailed(n) => n in s.fetching
    case Threw(n) => n in s.fetching
  }

  ghost function After(s: Server, step: Step): Server {
    match step
    case Pop(range, rest) => s.(queue := rest, fetching := s.fetching + Numbers(range))
    case Fetched(n) => s.(fetching := s.fetching - multiset{n}, sent := s.sent + multiset{n})
    case FetchFailed(n) => PutBack(s.(fetching := s.fetching - multiset{n}), n)
    case Threw(n) => s.(fetching := s.fetching - multiset{n}, lost := s.lost + multiset{n})
  }

  ghost function Queued(q: RequestQueue, n: int): nat {
    if QueueCovers(q, n) then 1 else 0
  }

  /** Every requested number is in exactly one place exactly once: queued, being fetched, sent or lost. */
  ghost predicate Conserved(s: Server, requested: RequestQueue) {
    forall n :: Queued(s.queue, n) + s.fetching[n] + s.sent[n] + s.lost[n] == Queued(requested, n)
  }

  ghost predicate Inv(s: Server, requested: RequestQueue) {
    AllFit(requested) && AllFit(s.queue) && Conserved(s, requested)
  }

  lemma CoveredFits(q: RequestQueue, n: int)
    requires AllFit(q) && QueueCovers(q, n)
    ensures Fits(DownloadRequest(n, 1))
  {
    var r: DownloadRequest :| r in q && Covers(r, n);
    assert Fits(r);
  }

  lemma PushCovers(q: RequestQueue, m: int, n: int)
    ensures QueueCovers(q + multiset{DownloadRequest(m, 1)}, n) <==> QueueCovers(q, n) || n == m
  {
    var more := q + multiset{DownloadRequest(m, 1)};
    if QueueCovers(q, n) {
      var r: DownloadRequest :| r in q && Covers(r, n);
      assert r in more;
    }
    assert DownloadRequest(m, 1) in more;
    if n == m {
      assert Covers(DownloadRequest(m, 1), n);
    }
  }

  /** A number not yet placed goes back to the queue, or is lost to a full one. */
  lemma PutBackConserves(s: Server, requested: RequestQueue, m: int)
    requires AllFit(requested) && AllFit(s.queue)
    requires forall n :: Queued(s.queue, n) + s.fetching[n] + s.sent[n] + s.lost[n] + (if n == m then 1 else 0)
                         == Queued(requested, n)
    ensures Inv(PutBack(s, m), requested)
  {
    assert Queued(requested, m) == 1 && Queued(s.queue, m) == 0;
    CoveredFits(requested, m);
    var t := PutBack(s, m);
    forall n
      ensures Queued(t.queue, n) + t.fetching[n] + t.sent[n] + t.lost[n] == Queued(requested, n)
    {
      PushCovers(s.queue, m, n);
    }
  }

  /** Numbers merged out of the queue are being fetched. */
  lemma PopConserves(s: Server, range: DownloadRequest, rest: RequestQueue, requested: RequestQueue)
    requires Inv(s, requested) && IsMerge(s.queue, range, rest)
    ensures Inv(s.(queue := rest, fetching := s.fetching + Numbers(range)), requested)
  {
    var t := s.(queue := rest, fetching := s.fetching + Numbers(range));
    assert AllFit(rest);
    hide AllFit, QueueCovers;
    forall n
      ensures Queued(t.queue, n) + t.fetching[n] + t.sent[n] + t.lost[n] == Queued(requested, n)
    {
      MergeSplits(s.queue, range, rest, n);
      assert t.fetching[n] == s.fetching[n] + Numbers(range)[n];
    }
  }

  /** No step creates, duplicates or forgets a number. */
  lemma StepConserves(s: Server, step: Step, requested: RequestQueue)
    requires Inv(s, requested) && Enabled(s, step)
    ensures Inv(After(s, step), requested)
  {
    hide QueueCovers, AllFit, IsMerge;
    match step
    case Pop(range, rest) => PopConserves(s, range, rest, requested);
    case FetchFailed(m) => PutBackConserves(s.(fetching := s.fetching - multiset{m}), requested, m);
    case _ =>
  }

  ghost predicate IsRun(states: seq<Server>, steps: seq<Step>, requested: RequestQueue, limit: nat) {
    && |states| == |steps| + 1
    && states[0] == Server(requested, limit, multiset{}, multiset{}, multiset{})
    && forall i :: 0 <= i < |steps| ==> Enabled(states[i], steps[i]) && states[i + 1] == After(states[i], steps[i])
  }

  /** Over every run, with fetches that fail, throw, or finish in any order: nothing is sent twice, nothing
      is sent that was not requested, and a finished run has sent or lost every requested number. */
  lemma {:induction false} ServingConserves(states: seq<Server>, steps: seq<Step>, requested: RequestQueue, limit: nat, i: nat)
    requires IsRun(states, steps, requested, limit) && AllFit(requested) && i <= |steps|
    ensures Inv(states[i], requested)
    ensures forall n :: states[i].sent[n] <= Queued(requested, n)
    ensures |states[i].queue| == 0 && |states[i].fetching| == 0 ==>
              forall n :: states[i].sent[n] + states[i].lost[n] == Queued(requested, n)
  {
    hide Enabled, After, AllFit;
    if i > 0 {
      hide QueueCovers;
      ServingConserves(states, steps, requested, limit, i - 1);
      StepConserves(states[i - 1], steps[i - 1], requested);
    }
    EmptyCovers(states[i].queue);
    hide QueueCovers;
  }

  lemma EmptyCovers(q: RequestQueue)
    ensures |q| == 0 ==> forall n :: Queued(q, n) == 0
  {
  }

  function Failures(steps: seq<Step>): nat {
    if steps == [] then 0
    else Failures(steps[..|steps| - 1]) + (if steps[|steps| - 1].FetchFailed? then 1 else 0)
  }

  /** A step takes a request off the queue, settles a number, or is a failure. */
  lemma StepSpends(s: Server, step: Step)
    requires Enabled(s, step)
    ensures var t, f := After(s, step), if step.FetchFailed? then 1 else 0;
      && |t.queue| <= |s.queue| + f
      && |t.queue| + |s.sent| + |s.lost| + 1 <= |s.queue| + 2 * f + |t.sent| + |t.lost|
  {
  }

  lemma {:induction false} Spent(states: seq<Server>, steps: seq<Step>, requested: RequestQueue, limit: nat, i: nat)
    requires IsRun(states, steps, requested, limit) && i <= |steps|
    ensures var s, f := states[i], Failures(steps[..i]);
      |s.queue| <= |requested| + f && i + |s.queue| <= |requested| + 2 * f + |s.sent| + |s.lost|
  {
    if i > 0 {
      Spent(states, steps, requested, limit, i - 1);
      assert steps[..i][..i - 1] == steps[..i - 1];
      StepSpends(states[i - 1], steps[i - 1]);
    }
  }

  /** So a run cannot go on for ever on finitely many failures: whatever the order in which fetches come
      back, its length is bounded by the requests, the failures and the numbers asked for. */
  lemma ServingEnds(states: seq<Server>, steps: seq<Step>, requested: RequestQueue, limit: nat, numbers: set<int>)
    requires IsRun(states, steps, requested, limit) && AllFit(requested)
    requires forall n :: QueueCovers(requested, n) ==> n in numbers
    ensures |steps| <= |requested| + 2 * Failures(steps) + |numbers|
  {
    hide Enabled, After, QueueCovers, AllFit;
    var i := |steps|;
    assert steps[..i] == steps;
    Spent(states, steps, requested, limit, i);
    ServingConserves(states, steps, requested, limit, i);
    PlacedBound(states[i].sent, states[i].lost, requested, numbers);
  }

  lemma PlacedBound(sent: multiset<int>, lost: multiset<int>, requested: RequestQueue, numbers: set<int>)
    requires forall n :: sent[n] + lost[n] <= Queued(requested, n)
    requires forall n :: QueueCovers(requested, n) ==> n in numbers
    ensures |sent| + |lost| <= |numbers|
  {
    hide QueueCovers;
    var placed, all := sent + lost, multiset(numbers);
    forall n
      ensures placed[n] <= all[n]
    {
      assert placed[n] == sent[n] + lost[n] <= Queued(requested, n);
    }
    assert placed <= all;
    assert all == placed + (all - placed);
    assert |placed| + |all - placed| == |all|;
    assert |all| == |numbers|;
  }

  lemma {:induction false} NothingLost(states: seq<Server>, steps: seq<Step>, requested: RequestQueue, limit: nat, i: nat)
    requires IsRun(states, steps, requested, limit) && i <= |steps|
    requires |requested| + Failures(steps[..i]) <= limit && forall j :: 0 <= j < i ==> !steps[j].Threw?
    ensures states[i].lost == multiset{}
  {
    if i > 0 {
      hide Enabled, After;
      assert steps[..i][..i - 1] == steps[..i - 1];
      NothingLost(states, steps, requested, limit, i - 1);
      Spent(states, steps, requested, limit, i - 1);
      LimitIsFixed(states, steps, requested, limit, i - 1);
      StepLosesNothing(states[i - 1], steps[i - 1]);
    }
  }

  lemma StepLosesNothing(s: Server, step: Step)
    requires Enabled(s, step) && !step.Threw? && (step.FetchFailed? ==> |s.queue| < s.limit)
    ensures After(s, step).lost == s.lost
  {
  }

  lemma {:induction false} LimitIsFixed(states: seq<Server>, steps: seq<Step>, requested: RequestQueue, limit: nat, i: nat)
    requires IsRun(states, steps, requested, limit) && i <= |steps|
    ensures states[i].limit == limit
  {
    if i > 0 {
      LimitIsFixed(states, steps, requested, limit, i - 1);
    }
  }

  /** And where it has come to its end without an exception and with room for the failures, every requested
      number was sent exactly once. */
  lemma ServingCompletes(states: seq<Server>, steps: seq<Step>, requested: RequestQueue, limit: nat)
    requires IsRun(states, steps, requested, limit) && AllFit(requested)
    requires |requested| + Failures(steps) <= limit && forall j :: 0 <= j < |steps| ==> !steps[j].Threw?
    requires |states[|steps|].queue| == 0 && |states[|steps|].fetching| == 0
    ensures forall n :: states[|steps|].sent[n] == Queued(requested, n)
  {
    var i := |steps|;
    assert steps[..i] == steps;
    NothingLost(states, steps, requested, limit, i);
    ServingConserves(states, steps, requested, limit, i);
  }

  /** A failed fetch is put back as a request of its own if and only if the queue has room, and lost otherwise. */
  lemma FailureLaw(s: Server, n: int)
    requires Enabled(s, FetchFailed(n))
    ensures var t := After(s, FetchFailed(n));
      && t == s.(fetching := s.fetching - multiset{n}, queue := t.queue, lost := t.lost)
      && t.queue == s.queue + (if |s.queue| < s.limit then multiset{DownloadRequest(n, 1)} else multiset{})
      && t.lost == s.lost + (if |s.queue| < s.limit then multiset{} else multiset{n})
  {
    assert s.queue + multiset{} == s.queue && s.lost + multiset{} == s.lost;
  }

  /** A number is sent exactly by a fetch that comes back with its block. */
  lemma SentLaw(s: Server, step: Step)
    requires Enabled(s, step)
    ensures After(s, step).sent == s.sent + (if step.Fetched? then multiset{step.number} else multiset{})
  {
    assert s.sent + multiset{} == s.sent;
  }

  /** So failures never push the queue beyond its limit. */
  lemma {:induction false} QueueStaysBounded(states: seq<Server>, steps: seq<Step>, requested: RequestQueue, limit: nat, i: nat)
    requires IsRun(states, steps, requested, limit) && i <= |steps|
    ensures |states[i].queue| <= Max(|requested|, limit)
  {
    if i > 0 {
      QueueStaysBounded(states, steps, requested, limit, i - 1);
      LimitIsFixed(states, steps, requested, limit, i - 1);
    }
  }

  /** As long as a run is not finished it can go on, and without another failure: a request can be merged and
      popped, or a fetch can come back. */
  lemma ServingGoesOn(s: Server, requested: RequestQueue) returns (step: Step)
    requires Inv(s, requested) && (|s.queue| > 0 || |s.fetching| > 0)
    ensures Enabled(s, step) && !step.FetchFailed? && !step.Threw?
  {
    if |s.fetching| > 0 {
      assert (forall n :: n !in s.fetching) ==> s.fetching == multiset{};
      var n :| n in s.fetching;
      step := Fetched(n);
    } else {
      FittingAreMergeable(s.queue);
      var range, rest := MergeExists(s.queue);
      step := Pop(range, rest);
    }
  }

  // ---- the loops ----

  /** The server as the loops see it: `q` is the peer's queue, `range` is still to be fetched. */
  ghost predicate Serving(q: DownloadRequestQueue, range: DownloadRequest, sent: multiset<int>, lost: multiset<int>,
                          requested: RequestQueue)
    reads q
  {
    Inv(Server(q.reqQueue, q.limit, Numbers(range), sent, lost), requested)
  }

  lemma FirstNumber(range: DownloadRequest)
    requires range.size > 0
    ensures range.from in Numbers(range)
    ensures Numbers(range) - multiset{range.from} == Numbers(DownloadRequest(range.from + 1, range.size - 1))
  {
    hide Numbers;
    var rest, tail := Numbers(range) - multiset{range.from}, Numbers(DownloadRequest(range.from + 1, range.size - 1));
    assert forall n :: rest[n] == tail[n];
  }

  lemma PopServes(queue: RequestQueue, limit: nat, sent: multiset<int>, lost: multiset<int>, requested: RequestQueue,
                  range: DownloadRequest, rest: RequestQueue)
    requires Inv(Server(queue, limit, multiset{}, sent, lost), requested) && IsMerge(queue, range, rest)
    ensures Inv(Server(rest, limit, Numbers(range), sent, lost), requested)
  {
    var s := Server(queue, limit, multiset{}, sent, lost);
    StepConserves(s, Pop(range, rest), requested);
    assert multiset{} + Numbers(range) == Numbers(range);
  }

  lemma NothingLeft(range: DownloadRequest)
    requires range.size == 0
    ensures Numbers(range) == multiset{}
  {
  }

  /** The loop over a range runs to a limit computed in 64 bits. A range that ends below 2^63 is fetched to
      its end, and no other is fetched at all. */
  lemma FetchedWholeOrNotAtAll(range: DownloadRequest)
    requires 0 <= range.from < TWO63 && range.size < TWO64
    ensures I64(U64(End(range))) == End(range) <==> Fits(range)
    ensures !Fits(range) ==> I64(U64(End(range))) <= range.from
  {
    if !Fits(range) && End(range) >= TWO64 {
      assert U64(End(range)) == End(range) - TWO64;
    }
  }

  /** Fetching a merged range block by block; the ledger may refuse a fetch while it has failures left, and
      the answering code may throw. Of a range that does not end below 2^63 nothing is fetched. */
  method FetchRange(q: DownloadRequestQueue, range: DownloadRequest, failures: nat, mayThrow: bool,
                    sentBefore: multiset<int>, lostBefore: multiset<int>, ghost requested: RequestQueue)
    returns (left: nat, sent: multiset<int>, lost: multiset<int>)
    requires 0 <= range.from < TWO63 && range.size < TWO64
    requires Fits(range) ==> Serving(q, range, sentBefore, lostBefore, requested)
    modifies q
    ensures Fits(range) ==> Inv(Server(q.reqQueue, q.limit, multiset{}, sent, lost), requested)
    ensures !Fits(range) ==> q.reqQueue == old(q.reqQueue) && left == failures && sent == sentBefore && lost == lostBefore
    ensures left <= failures && (left == failures ==> q.reqQueue == old(q.reqQueue))
    ensures |q.reqQueue| + left <= |old(q.reqQueue)| + failures
    ensures !mayThrow && |old(q.reqQueue)| + failures <= q.limit ==> lost == lostBefore
  {
    hide Inv, Numbers, U64, I64;
    left, sent, lost := failures, sentBefore, lostBefore;
    var number, numberLimit := range.from, I64(U64(range.from + range.size));
    FetchedWholeOrNotAtAll(range);
    assert Fits(range) ==> numberLimit >= number && DownloadRequest(number, numberLimit - number) == range;
    while number < numberLimit
      invariant Fits(range) ==> number <= numberLimit
                                && Serving(q, DownloadRequest(number, numberLimit - number), sent, lost, requested)
      invariant !Fits(range) ==> numberLimit <= number && q.reqQueue == old(q.reqQueue) && left == failures
                                 && sent == sentBefore && lost == lostBefore
      invariant left <= failures && (left == failures ==> q.reqQueue == old(q.reqQueue))
      invariant |q.reqQueue| + left <= |old(q.reqQueue)| + failures
      invariant !mayThrow && |old(q.reqQueue)| + failures <= q.limit ==> lost == lostBefore
    {
      ghost var s := Server(q.reqQueue, q.limit, Numbers(DownloadRequest(number, numberLimit - number)), sent, lost);
      FirstNumber(DownloadRequest(number, numberLimit - number));
      var refused, threw := *, *;
      if refused && left > 0 {
        StepConserves(s, FetchFailed(number), requested);
        left := left - 1;
        if |q.reqQueue| >= q.limit {
          lost := lost + multiset{number};
        } else {
          q.Push(number, 1);
        }
      } else if threw && mayThrow {
        StepConserves(s, Threw(number), requested);
        lost := lost + multiset{number};
      } else {
        StepConserves(s, Fetched(number), requested);
        sent := sent + multiset{number};
      }
      number := number + 1;
    }
    if Fits(range) {
      NothingLeft(DownloadRequest(number, numberLimit - number));
    }
  }

  /** Answering one peer until its queue is empty. With finitely many failures this ends: every pass over
      the loop either uses up a failure or shortens the queue. */
  method ServePeer(q: DownloadRequestQueue, failures: nat, mayThrow: bool)
    returns (sent: multiset<int>, lost: multiset<int>)
    requires AllFit(q.reqQueue)
    modifies q
    ensures q.reqQueue == multiset{}
    ensures forall n :: sent[n] + lost[n] == Queued(old(q.reqQueue), n)
    ensures !mayThrow && |old(q.reqQueue)| + failures <= q.limit ==> lost == multiset{}
  {
    ghost var requested := q.reqQueue;
    sent, lost := multiset{}, multiset{};
    var left := failures;
    assert Inv(Server(q.reqQueue, q.limit, multiset{}, sent, lost), requested);
    while |q.reqQueue| > 0
      invariant Inv(Server(q.reqQueue, q.limit, multiset{}, sent, lost), requested)
      invariant !mayThrow && |requested| + failures <= q.limit ==> lost == multiset{} && |q.reqQueue| + left <= q.limit
      decreases left, |q.reqQueue|
    {
      ghost var queue := q.reqQueue;
      FittingAreMergeable(queue);
      var range := q.TopAndPop();
      MergeFits(queue, range.value, q.reqQueue);
      assert forall c: DownloadRequest :: c in queue - q.reqQueue ==> c in queue;
      PopServes(queue, q.limit, sent, lost, requested, range.value, q.reqQueue);
      left, sent, lost := FetchRange(q, range.value, left, mayThrow, sent, lost, requested);
    }
    assert q.reqQueue == multiset{};
    assert forall n :: Queued(multiset{}, n) == 0;
  }
}
