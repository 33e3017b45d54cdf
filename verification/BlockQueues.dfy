/** The two min-number priority queues of blocks. A queue is the multiset it holds, and its top is
    any block of least number, so nothing below depends on how equal numbers are ordered. */
module BlockQueues {
  import opened SyncTypes

  type BlockQueue = multiset<Block>

  ghost predicate IsTop(q: BlockQueue, b: Block) {
    b in q && forall c: Block :: c in q ==> b.number <= c.number
  }

  /** Reading the top of a queue that is not empty. */
  method Top(q: BlockQueue) returns (b: Block)
    requires |q| > 0
    ensures IsTop(q, b)
  {
    b :| b in q;
    var rest := q - multiset{b};
    while |rest| > 0
      invariant b in q && rest <= q
      invariant forall c: Block :: c in q ==> c in rest || b.number <= c.number
      decreases |rest|
    {
      var c :| c in rest;
      if c.number < b.number {
        b := c;
      }
      rest := rest - multiset{c};
    }
  }

  lemma TopExists(q: BlockQueue)
    requires |q| > 0
    ensures exists b :: IsTop(q, b)
    decreases |q|
  {
    var b :| b in q;
    var rest := q - multiset{b};
    assert q == rest + multiset{b};
    if |rest| == 0 {
      assert rest == multiset{};
      assert IsTop(q, b);
    } else {
      TopExists(rest);
      var c :| IsTop(rest, c);
      assert IsTop(q, if c.number < b.number then c else b);
    }
  }

  ghost function TopNumber(q: BlockQueue): (n: int)
    requires |q| > 0
    ensures forall c: Block :: c in q ==> n <= c.number
    ensures exists b: Block :: IsTop(q, b) && b.number == n
  {
    TopExists(q);
    var b :| IsTop(q, b);
    b.number
  }

  /** The blocks numbered above `n`. */
  ghost function Above(q: BlockQueue, n: int): (r: BlockQueue)
    ensures forall b: Block :: r[b] == if b.number <= n then 0 else q[b]
    decreases |q|
  {
    if |q| == 0 then multiset{}
    else
      var b :| b in q;
      var rest := Above(q - multiset{b}, n);
      if b.number <= n then rest else rest + multiset{b}
  }

  /** Popping the top while it is expired leaves exactly the blocks above `n`, although only the top is
      ever looked at: the order makes the first live top a proof that everything below it is live. */
  method ClearExpired(q: BlockQueue, n: int) returns (r: BlockQueue)
    ensures r == Above(q, n)
  {
    r := q;
    while |r| > 0
      invariant r <= q
      invariant forall b: Block :: b.number > n ==> r[b] == q[b]
      decreases |r|
    {
      var b := Top(r);
      if b.number > n {
        break;
      }
      r := r - multiset{b};
    }
    assert r == Above(q, n);
  }

  lemma {:induction false} AboveKeepsAll(q: BlockQueue, n: int)
    requires forall b: Block :: b in q ==> b.number > n
    ensures Above(q, n) == q
  {
  }

  lemma {:induction false} AboveOfSum(q: BlockQueue, r: BlockQueue, n: int)
    ensures Above(q + r, n) == Above(q, n) + Above(r, n)
  {
    var sum, parts := Above(q + r, n), Above(q, n) + Above(r, n);
    assert forall b: Block :: sum[b] == parts[b];
  }

  lemma SubsetSize(q: BlockQueue, r: BlockQueue)
    requires q <= r
    ensures |q| <= |r|
  {
    assert r == q + (r - q);
  }
}
