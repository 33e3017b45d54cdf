/** The queue of block requests of one peer, and the merging of requests when they are answered. */
module DownloadRequests {
  import opened SyncTypes
  import opened Words

  datatype DownloadRequest = DownloadRequest(from: int, size: nat)

  type RequestQueue = multiset<DownloadRequest>

  function End(r: DownloadRequest): int {
    r.from + r.size
  }

  predicate Covers(r: DownloadRequest, n: int) {
    r.from <= n < End(r)
  }

  ghost predicate QueueCovers(q: RequestQueue, n: int) {
    exists r: DownloadRequest :: r in q && Covers(r, n)
  }

  /** The queue's order: the smallest first number, and among those the largest size. */
  ghost predicate IsFirst(q: RequestQueue, r: DownloadRequest) {
    r in q && forall c: DownloadRequest :: c in q ==> r.from < c.from || (r.from == c.from && c.size <= r.size)
  }

  /** Requests whose numbers are block numbers, so that no 64-bit sum wraps. */
  predicate Fits(r: DownloadRequest) {
    0 <= r.from && End(r) < TWO63
  }

  ghost predicate AllFit(q: RequestQueue) {
    forall r: DownloadRequest :: r in q ==> Fits(r)
  }

  /** Requests that start at a block number and end within an unsigned word: all that merging needs. */
  predicate Mergeable(r: DownloadRequest) {
    0 <= r.from < TWO63 && End(r) < TWO64
  }

  ghost predicate AllMergeable(q: RequestQueue) {
    forall r: DownloadRequest :: r in q ==> Mergeable(r)
  }

  /** `r` is the union of the requests removed from `q`, it is not empty-handed, starts where the queue
      starts, and is maximal: whatever starts strictly after its end is left, and nothing else. */
  ghost predicate IsMerge(q: RequestQueue, r: DownloadRequest, rest: RequestQueue) {
    && rest <= q && |rest| < |q|
    && (exists c: DownloadRequest :: c in q && c.from == r.from)
    && (forall c: DownloadRequest :: c in q ==> r.from <= c.from)
    && (forall n :: Covers(r, n) <==> QueueCovers(q - rest, n))
    && (forall c: DownloadRequest :: c in rest ==> End(r) < c.from)
    && (forall c: DownloadRequest :: c in q - rest ==> c.from <= End(r))
  }

  method First(q: RequestQueue) returns (r: DownloadRequest)
    requires |q| > 0
    ensures r in q && IsFirst(q, r)
  {
    r :| r in q;
    var rest := q - multiset{r};
    while |rest| > 0
      invariant r in q && rest <= q
      invariant forall c: DownloadRequest :: c in q ==> c in rest || r.from < c.from || (r.from == c.from && c.size <= r.size)
      decreases |rest|
    {
      var c :| c in rest;
      if c.from < r.from || (c.from == r.from && r.size < c.size) {
        r := c;
      }
      rest := rest - multiset{c};
    }
  }

  /** The requests popped so far tile [from, from + size). */
  ghost predicate Tiles(popped: RequestQueue, from: int, size: nat) {
    && (forall c: DownloadRequest :: c in popped ==> from <= c.from && End(c) <= from + size)
    && (forall n :: from <= n < from + size ==> QueueCovers(popped, n))
  }

  lemma TilesNext(popped: RequestQueue, from: int, size: nat, r: DownloadRequest)
    requires Tiles(popped, from, size) && from <= r.from <= from + size
    ensures Tiles(popped + multiset{r}, from, Max(size, End(r) - from))
  {
    var more := popped + multiset{r};
    forall n | from <= n < from + Max(size, End(r) - from)
      ensures QueueCovers(more, n)
    {
      if n < from + size {
        assert QueueCovers(popped, n);
        var c: DownloadRequest :| c in popped && Covers(c, n);
        assert c in more;
      } else {
        assert r in more && Covers(r, n);
      }
    }
  }

  /** Where the merging loop stands on a queue whose requests all fit. */
  ghost predicate Merging(q: RequestQueue, top: DownloadRequest, rest: RequestQueue, size: nat) {
    AllMergeable(q) ==> Tiles(q - rest, top.from, size) && top.from + size < TWO64
  }

  lemma MergeStarts(q: RequestQueue, top: DownloadRequest)
    requires top in q
    ensures Merging(q, top, q, 0)
  {
    assert q - q == multiset{};
  }

  function Without(q: RequestQueue, r: DownloadRequest): (rest: RequestQueue)
    ensures rest <= q && (r in q ==> |rest| < |q|)
  {
    q - multiset{r}
  }

  /** The loop never stops at the request it started from. */
  lemma FirstIsMerged(q: RequestQueue, top: DownloadRequest, next: DownloadRequest)
    requires IsFirst(q, top)
    ensures IsFirst(q, next) ==> U64(U64(top.from) + 0) == U64(next.from)
  {
  }

  /** One more request merged, in 64 bits. */
  lemma MergeNext(q: RequestQueue, top: DownloadRequest, rest: RequestQueue, size: nat, next: DownloadRequest)
    requires rest <= q && IsFirst(q, top) && next in rest && Merging(q, top, rest, size)
    requires U64(U64(top.from) + size) >= U64(next.from)
    ensures Merging(q, top, Without(rest, next), Max(size, U64(next.from + next.size - U64(top.from))))
  {
    if AllMergeable(q) {
      assert next in q && Mergeable(next) && Mergeable(top);
      assert q - (rest - multiset{next}) == q - rest + multiset{next};
      TilesNext(q - rest, top.from, size, next);
    }
  }

  /** The loop stopped before a request beyond the range, or at the end of the queue. */
  lemma MergeDone(q: RequestQueue, top: DownloadRequest, rest: RequestQueue, size: nat)
    requires rest <= q && |rest| < |q| && IsFirst(q, top) && Merging(q, top, rest, size)
    requires |rest| > 0 ==> exists next :: IsFirst(rest, next) && U64(U64(top.from) + size) < U64(next.from)
    ensures AllMergeable(q) ==> IsMerge(q, DownloadRequest(I64(U64(top.from)), size), rest)
  {
    if AllMergeable(q) {
      assert Mergeable(top);
      if |rest| > 0 {
        var next :| IsFirst(rest, next) && U64(U64(top.from) + size) < U64(next.from);
        assert next in q && Mergeable(next);
      }
    }
  }

  /** Popping and merging as the code does it, in 64 bits. Any queue makes progress; a queue of requests
      that end within an unsigned word is merged exactly. */
  method MergeTop(q: RequestQueue) returns (r: DownloadRequest, rest: RequestQueue)
    requires |q| > 0
    ensures rest <= q && |rest| < |q|
    ensures AllMergeable(q) ==> IsMerge(q, r, rest)
  {
    hide U64, I64, Merging, IsMerge, AllMergeable, IsFirst;
    var top := First(q);
    var from := U64(top.from);
    var size := 0;
    rest := q;
    MergeStarts(q, top);
    while |rest| > 0
      invariant rest <= q && 0 <= size < TWO64
      invariant Merging(q, top, rest, size)
      invariant |rest| < |q| || (rest == q && size == 0)
      decreases |rest|
    {
      var next := First(rest);
      FirstIsMerged(q, top, next);
      if U64(from + size) < U64(next.from) {
        break;
      }
      MergeNext(q, top, rest, size, next);
      size := Max(size, U64(next.from + next.size - from));
      rest := Without(rest, next);
    }
    r := DownloadRequest(I64(from), size);
    MergeDone(q, top, rest, size);
  }

  /** What is merged fits exactly when every request merged into it does: one that reaches beyond 2^63 takes
      the ones it touches with it. */
  lemma MergeFits(q: RequestQueue, r: DownloadRequest, rest: RequestQueue)
    requires AllMergeable(q) && IsMerge(q, r, rest)
    ensures Fits(r) <==> AllFit(q - rest)
  {
    var removed := q - rest;
    MergeEnds(q, r, rest);
    if Fits(r) {
      forall c: DownloadRequest | c in removed
        ensures Fits(c)
      {
        assert c in q && Mergeable(c);
      }
    }
    if AllFit(removed) {
      var last: DownloadRequest :| last in removed && End(r) == End(last);
      assert Fits(last);
      var c: DownloadRequest :| c in q && c.from == r.from;
      assert Mergeable(c);
    }
  }

  /** Three blocks asked for, and merged into a range that ends beyond 2^63. */
  lemma MergedAway()
    ensures var small, large := DownloadRequest(5, 3), DownloadRequest(6, TWO63);
      var r := DownloadRequest(5, TWO63 + 1);
      Fits(small) && !Fits(r) && IsMerge(multiset{small, large}, r, multiset{})
  {
    var small, large := DownloadRequest(5, 3), DownloadRequest(6, TWO63);
    var q, r := multiset{small, large}, DownloadRequest(5, TWO63 + 1);
    assert q - multiset{} == q && small in q;
    forall n
      ensures Covers(r, n) <==> QueueCovers(q, n)
    {
      assert Covers(small, n) ==> QueueCovers(q, n);
      assert large in q && (Covers(large, n) ==> QueueCovers(q, n));
    }
  }

  /** The merged range ends where the last of the requests merged into it ends. */
  lemma MergeEnds(q: RequestQueue, r: DownloadRequest, rest: RequestQueue)
    requires IsMerge(q, r, rest)
    ensures forall c: DownloadRequest :: c in q - rest ==> End(c) <= End(r)
    ensures exists c: DownloadRequest :: c in q - rest && End(r) == End(c)
  {
    var removed := q - rest;
    forall c: DownloadRequest | c in removed
      ensures End(c) <= End(r)
    {
      if c.size > 0 {
        assert Covers(c, End(c) - 1);
        assert QueueCovers(removed, End(c) - 1);
      }
    }
    if r.size > 0 {
      assert Covers(r, End(r) - 1);
      var c: DownloadRequest :| c in removed && Covers(c, End(r) - 1);
    } else {
      var c: DownloadRequest :| c in q && c.from == r.from;
      assert c in removed;
    }
  }

  /** A queue that is not empty can be merged. */
  lemma MergeExists(q: RequestQueue) returns (r: DownloadRequest, rest: RequestQueue)
    requires |q| > 0 && AllMergeable(q)
    ensures IsMerge(q, r, rest)
  {
    hide AllMergeable, IsMerge, Merging, IsFirst;
    var top := FirstExists(q);
    MergeStarts(q, top);
    r, rest := MergeGoesOn(q, top, q, 0);
  }

  lemma FirstExists(q: RequestQueue) returns (r: DownloadRequest)
    requires |q| > 0
    ensures r in q && IsFirst(q, r)
    decreases |q|
  {
    var c :| c in q;
    var rest := q - multiset{c};
    assert q == rest + multiset{c};
    if |rest| == 0 {
      assert rest == multiset{};
      r := c;
    } else {
      var first := FirstExists(rest);
      r := if first.from < c.from || (first.from == c.from && c.size <= first.size) then first else c;
    }
  }

  lemma {:induction false} MergeGoesOn(q: RequestQueue, top: DownloadRequest, rest: RequestQueue, size: nat)
    returns (r: DownloadRequest, left: RequestQueue)
    requires AllMergeable(q) && IsFirst(q, top) && |q| > 0
    requires rest <= q && Merging(q, top, rest, size) && (|rest| < |q| || (rest == q && size == 0))
    ensures IsMerge(q, r, left)
    decreases |rest|
  {
    hide U64, I64, Merging, IsMerge, AllMergeable, IsFirst;
    left := rest;
    r := DownloadRequest(I64(U64(top.from)), size);
    if |rest| > 0 {
      var next := FirstExists(rest);
      FirstIsMerged(q, top, next);
      if U64(U64(top.from) + size) >= U64(next.from) {
        MergeNext(q, top, rest, size, next);
        r, left := MergeGoesOn(q, top, Without(rest, next), Max(size, U64(next.from + next.size - U64(top.from))));
      } else {
        MergeDone(q, top, rest, size);
      }
    } else {
      MergeDone(q, top, rest, size);
    }
  }

  lemma FittingAreMergeable(q: RequestQueue)
    ensures AllFit(q) ==> AllMergeable(q)
  {
  }

  /** A merge takes its numbers out of the queue: none stays behind, none is lost. */
  lemma MergeSplits(q: RequestQueue, r: DownloadRequest, rest: RequestQueue, n: int)
    requires IsMerge(q, r, rest)
    ensures QueueCovers(q, n) <==> Covers(r, n) || QueueCovers(rest, n)
    ensures !(Covers(r, n) && QueueCovers(rest, n))
  {
    var removed := q - rest;
    assert q == removed + rest;
    if QueueCovers(q, n) {
      var c: DownloadRequest :| c in q && Covers(c, n);
      assert c in removed || c in rest;
      if c in removed {
        assert QueueCovers(removed, n);
      }
    }
    if QueueCovers(removed, n) {
      var c: DownloadRequest :| c in removed && Covers(c, n);
      assert c in q;
    }
    if QueueCovers(rest, n) {
      var c: DownloadRequest :| c in rest && Covers(c, n);
      assert c in q;
    }
  }

  /** What covers `n` was removed wherever everything left starts after `n`. */
  lemma RemovedCovers(q: RequestQueue, rest: RequestQueue, rest': RequestQueue, n: int)
    requires forall c: DownloadRequest :: c in rest ==> n < c.from
    ensures QueueCovers(q - rest', n) ==> QueueCovers(q - rest, n)
  {
    if QueueCovers(q - rest', n) {
      var c: DownloadRequest :| c in q - rest' && Covers(c, n);
      assert c in q - rest;
    }
  }

  lemma MergeReaches(q: RequestQueue, r: DownloadRequest, rest: RequestQueue, r': DownloadRequest, rest': RequestQueue)
    requires IsMerge(q, r, rest) && IsMerge(q, r', rest')
    ensures r.from == r'.from && End(r') <= End(r)
  {
    RemovedCovers(q, rest, rest', End(r));
    assert Covers(r', End(r)) <==> End(r) < End(r');
  }

  /** The queue alone decides what is merged and what is left, whatever the order among equals. */
  lemma MergeIsUnique(q: RequestQueue, r: DownloadRequest, rest: RequestQueue, r': DownloadRequest, rest': RequestQueue)
    requires IsMerge(q, r, rest) && IsMerge(q, r', rest')
    ensures r == r' && rest == rest'
  {
    MergeReaches(q, r, rest, r', rest');
    MergeReaches(q, r', rest', r, rest);
    assert r == r';
    forall c: DownloadRequest
      ensures rest[c] == rest'[c]
    {
      LeftOver(q, r, rest, c);
      LeftOver(q, r, rest', c);
    }
  }

  lemma LeftOver(q: RequestQueue, r: DownloadRequest, rest: RequestQueue, c: DownloadRequest)
    requires IsMerge(q, r, rest)
    ensures rest[c] == if End(r) < c.from then q[c] else 0
  {
    assert (q - rest)[c] == q[c] - rest[c];
    assert (q - rest)[c] > 0 ==> c in q - rest;
    assert rest[c] > 0 ==> c in rest;
  }

  /** Increasing ranges that neither overlap nor touch. */
  ghost predicate Separated(ranges: seq<DownloadRequest>) {
    forall i, j :: 0 <= i < j < |ranges| ==> End(ranges[i]) < ranges[j].from
  }

  ghost predicate RangesCover(ranges: seq<DownloadRequest>, n: int) {
    exists i :: 0 <= i < |ranges| && Covers(ranges[i], n)
  }

  /** One merge after the other until nothing is left. */
  ghost predicate IsDrain(q: RequestQueue, ranges: seq<DownloadRequest>) {
    if ranges == [] then q == multiset{}
    else exists rest :: IsMerge(q, ranges[0], rest) && IsDrain(rest, ranges[1..])
  }

  lemma {:induction false} DrainIsUnique(q: RequestQueue, a: seq<DownloadRequest>, b: seq<DownloadRequest>)
    requires IsDrain(q, a) && IsDrain(q, b)
    ensures a == b
    decreases |a|
  {
    hide IsMerge;
    if a != [] && b != [] {
      var rest :| IsMerge(q, a[0], rest) && IsDrain(rest, a[1..]);
      var rest' :| IsMerge(q, b[0], rest') && IsDrain(rest', b[1..]);
      MergeIsUnique(q, a[0], rest, b[0], rest');
      DrainIsUnique(rest, a[1..], b[1..]);
    } else {
      NothingToMerge();
    }
  }

  lemma NothingToMerge()
    ensures forall r, rest :: !IsMerge(multiset{}, r, rest)
  {
  }

  lemma DrainOneMore(q: RequestQueue, ranges: seq<DownloadRequest>, rest: RequestQueue, r: DownloadRequest,
                     rest': RequestQueue)
    requires IsMerge(rest, r, rest') && forall tail :: IsDrain(rest, tail) ==> IsDrain(q, ranges + tail)
    ensures forall tail :: IsDrain(rest', tail) ==> IsDrain(q, ranges + [r] + tail)
  {
    hide IsMerge;
    forall tail | IsDrain(rest', tail)
      ensures IsDrain(q, ranges + [r] + tail)
    {
      assert ([r] + tail)[1..] == tail;
      assert IsDrain(rest, [r] + tail);
      assert ranges + ([r] + tail) == ranges + [r] + tail;
    }
  }

  lemma HeadCovers(ranges: seq<DownloadRequest>, n: int)
    requires ranges != []
    ensures RangesCover(ranges, n) <==> Covers(ranges[0], n) || RangesCover(ranges[1..], n)
  {
    assert ranges == [ranges[0]] + ranges[1..];
    if RangesCover(ranges[1..], n) {
      var i :| 0 <= i < |ranges| - 1 && Covers(ranges[1..][i], n);
      assert Covers(ranges[i + 1], n);
    }
    if RangesCover(ranges, n) && !Covers(ranges[0], n) {
      var i :| 0 <= i < |ranges| && Covers(ranges[i], n);
      assert Covers(ranges[1..][i - 1], n);
    }
  }

  ghost predicate StartsIn(q: RequestQueue, n: int) {
    exists c: DownloadRequest :: c in q && c.from == n
  }

  /** A drain consists of increasing ranges that do not touch and cover exactly what was queued. */
  lemma {:induction false} DrainIsExact(q: RequestQueue, ranges: seq<DownloadRequest>)
    requires IsDrain(q, ranges)
    ensures Separated(ranges) && (forall n :: RangesCover(ranges, n) <==> QueueCovers(q, n))
    ensures forall i :: 0 <= i < |ranges| ==> StartsIn(q, ranges[i].from)
    decreases |ranges|
  {
    if ranges != [] {
      var rest :| IsMerge(q, ranges[0], rest) && IsDrain(rest, ranges[1..]);
      DrainIsExact(rest, ranges[1..]);
      forall n
        ensures RangesCover(ranges, n) <==> QueueCovers(q, n)
      {
        HeadCovers(ranges, n);
        MergeSplits(q, ranges[0], rest, n);
      }
      hide QueueCovers;
      forall i | 0 < i < |ranges|
        ensures End(ranges[0]) < ranges[i].from && StartsIn(q, ranges[i].from)
      {
        assert ranges[i] == ranges[1..][i - 1];
        var c: DownloadRequest :| c in rest && c.from == ranges[i].from;
        assert c in q;
      }
      forall i, j | 0 < i < j < |ranges|
        ensures End(ranges[i]) < ranges[j].from
      {
        assert ranges[i] == ranges[1..][i - 1] && ranges[j] == ranges[1..][j - 1];
      }
    }
  }

  /** Draining a queue with nothing coming in: the ranges answered are separated and cover the queue. */
  method DrainRanges(q: RequestQueue) returns (ranges: seq<DownloadRequest>)
    requires AllMergeable(q)
    ensures IsDrain(q, ranges)
    ensures Separated(ranges)
    ensures forall n :: RangesCover(ranges, n) <==> QueueCovers(q, n)
  {
    hide IsMerge, Separated, RangesCover, QueueCovers;
    ranges := [];
    var rest := q;
    assert forall tail: seq<DownloadRequest> :: [] + tail == tail;
    while |rest| > 0
      invariant rest <= q
      invariant forall tail :: IsDrain(rest, tail) ==> IsDrain(q, ranges + tail)
      decreases |rest|
    {
      var r, rest' := MergeTop(rest);
      DrainOneMore(q, ranges, rest, r, rest');
      ranges, rest := ranges + [r], rest';
    }
    assert IsDrain(rest, []) && ranges + [] == ranges;
    DrainIsExact(q, ranges);
  }

  /** Separated, non-empty ranges are determined by the numbers they cover, so neither the order of
      arrival nor the order of ties can show in what a drained queue answers. */
  lemma {:induction false} SeparatedAreUnique(a: seq<DownloadRequest>, b: seq<DownloadRequest>)
    requires Separated(a) && Separated(b)
    requires forall i :: 0 <= i < |a| ==> a[i].size > 0
    requires forall i :: 0 <= i < |b| ==> b[i].size > 0
    requires forall n :: RangesCover(a, n) <==> RangesCover(b, n)
    ensures a == b
    decreases |a|
  {
    CoversItsStart(b);
    if a != [] {
      assert Covers(a[0], a[0].from);
      assert RangesCover(a, a[0].from);
      FirstsAgree(a, b);
      FirstsAgree(b, a);
      var a', b' := a[1..], b[1..];
      forall n
        ensures RangesCover(a', n) <==> RangesCover(b', n)
      {
        TailCovers(a, n);
        TailCovers(b, n);
      }
      SeparatedAreUnique(a', b');
    }
  }

  lemma CoversItsStart(ranges: seq<DownloadRequest>)
    requires forall i :: 0 <= i < |ranges| ==> ranges[i].size > 0
    ensures ranges != [] ==> RangesCover(ranges, ranges[0].from)
  {
    assert ranges != [] ==> Covers(ranges[0], ranges[0].from);
  }

  lemma TailCovers(a: seq<DownloadRequest>, n: int)
    requires Separated(a) && a != []
    ensures RangesCover(a[1..], n) <==> RangesCover(a, n) && !Covers(a[0], n)
  {
    var t := a[1..];
    if RangesCover(t, n) {
      var i :| 0 <= i < |t| && Covers(t[i], n);
      assert Covers(a[i + 1], n);
    }
    if RangesCover(a, n) && !Covers(a[0], n) {
      var i :| 0 <= i < |a| && Covers(a[i], n);
      assert Covers(t[i - 1], n);
    }
  }

  /** The first range of `b` starts no later than that of `a`, and reaches as far where it starts there. */
  lemma FirstsAgree(a: seq<DownloadRequest>, b: seq<DownloadRequest>)
    requires Separated(a) && Separated(b) && a != [] && b != []
    requires forall i :: 0 <= i < |a| ==> a[i].size > 0
    requires forall n :: RangesCover(a, n) <==> RangesCover(b, n)
    ensures b[0].from <= a[0].from
    ensures b[0].from == a[0].from ==> b[0].size <= a[0].size
  {
    assert Covers(a[0], a[0].from) && RangesCover(a, a[0].from);
    var i :| 0 <= i < |b| && Covers(b[i], a[0].from);
    var end := End(a[0]);
    assert !RangesCover(a, end);
    assert Covers(b[0], end) ==> RangesCover(b, end);
  }

  class DownloadRequestQueue {
    var reqQueue: RequestQueue
    const limit: nat

    constructor (limit: nat)
      ensures reqQueue == multiset{} && this.limit == limit
    {
      reqQueue := multiset{};
      this.limit := limit;
    }

    /** A full queue drops the request. */
    method Push(from: int, size: nat)
      modifies this
      ensures reqQueue == if |old(reqQueue)| >= limit then old(reqQueue)
                          else old(reqQueue) + multiset{DownloadRequest(from, size)}
    {
      if |reqQueue| >= limit {
        return;
      }
      reqQueue := reqQueue + multiset{DownloadRequest(from, size)};
    }

    method TopAndPop() returns (r: Option<DownloadRequest>)
      modifies this
      ensures |old(reqQueue)| == 0 ==> r == None && reqQueue == old(reqQueue)
      ensures |old(reqQueue)| > 0 ==> r.Some? && reqQueue <= old(reqQueue) && |reqQueue| < |old(reqQueue)|
      ensures |old(reqQueue)| > 0 && AllMergeable(old(reqQueue)) ==> IsMerge(old(reqQueue), r.value, reqQueue)
    {
      if |reqQueue| == 0 {
        return None;
      }
      var merged, rest := MergeTop(reqQueue);
      reqQueue := rest;
      return Some(merged);
    }
  }
}
