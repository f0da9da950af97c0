/** Shapes shared by every component of the model. */
module Common {
  datatype Option<+T> = None | Some(value: T)

  /** One unit of work: either it commits a new database together with its answer,
      or it raises, in which case the whole transaction is rolled back. */
  datatype Tx<+S, +R, +E> = Commit(db: S, answer: R) | Raise(error: E)

  datatype Result<+T, +E> = Ok(value: T) | Err(error: E)

  function Pow2(n: nat): nat { if n == 0 then 1 else 2 * Pow2(n - 1) }

  function Min(a: int, b: int): int { if a <= b then a else b }

  ghost function Least(s: set<nat>): (m: nat)
    requires s != {}
    ensures m in s && forall x | x in s :: m <= x
    decreases s
  {
    var x :| x in s;
    var rest := s - {x};
    assert forall y | y in s :: y == x || y in rest;
    if rest == {} then x
    else if Least(rest) < x then Least(rest) else x
  }

  lemma MulAtLeast(d: int, w: int)
    requires d >= 1 && w >= 1
    ensures d * w >= w
  {
    assert d * w == (d - 1) * w + w;
  }

  lemma DivisionIsUnique(w: int, q: int, r: int, q': int, r': int)
    requires 0 <= r < w && 0 <= r' < w && q * w + r == q' * w + r'
    ensures q == q' && r == r'
  {
    assert (q - q') * w == r' - r;
    if q > q' { MulAtLeast(q - q', w); }
    if q < q' {
      assert (q' - q) * w == r - r';
      MulAtLeast(q' - q, w);
    }
  }

  /** A set within `k` consecutive numbers has at most `k` members, and `k` only if it has them all. */
  lemma {:induction false} RangeCard(s: set<nat>, lo: nat, k: nat)
    requires forall i | i in s :: lo <= i < lo + k
    ensures |s| <= k && (|s| == k <==> forall i: nat | lo <= i < lo + k :: i in s)
    decreases k
  {
    if k == 0 {
      assert s == {};
    } else {
      var last := lo + k - 1;
      RangeCard(s - {last}, lo, k - 1);
      assert forall i: nat | lo <= i < last :: i in s - {last} <==> i in s;
    }
  }

  lemma SubsetCard<T>(a: set<T>, b: set<T>)
    requires a <= b
    ensures |a| <= |b|
    ensures a != b ==> |a| < |b| && b - a != {}
  {
    assert b == a + (b - a);
  }
}
