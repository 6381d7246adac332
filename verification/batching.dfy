/** The batch-boundary rule both tools use to decide when to acknowledge or
    commit: a running count is finalised when it is a multiple of the batch size. */
module Batching {
  import opened JavaLang

  /** `count % batchSize == 0`, with Java's remainder. The tools evaluate it
      only when a batch size of zero would not be reached. */
  predicate AtBoundary(count: int, batchSize: int)
    requires batchSize != 0
  {
    Rem(count, batchSize) == 0
  }

  /** For the counts the tools test (never negative) the rule is divisibility by
      the batch size's magnitude, so a negative batch size acts as its absolute
      value and the default batch size 1 finalises every count. */
  lemma AtBoundaryIsDivisibility(count: nat, batchSize: int)
    requires batchSize != 0
    ensures AtBoundary(count, batchSize) <==> count % Abs(batchSize) == 0
    ensures AtBoundary(count, batchSize) <==> AtBoundary(count, -batchSize)
    ensures batchSize == 1 ==> AtBoundary(count, batchSize)
  {
    RemProperties(count, batchSize);
    RemProperties(count, -batchSize);
  }

  /** The counts in [lo, hi) that fall on a batch boundary, in increasing order. */
  function Boundaries(lo: int, hi: int, batchSize: int): seq<int>
    requires batchSize != 0
    decreases hi - lo
  {
    if lo >= hi then []
    else (if AtBoundary(lo, batchSize) then [lo] else []) + Boundaries(lo + 1, hi, batchSize)
  }

  /** `Boundaries` lists exactly the boundary counts of the range. */
  lemma {:induction false} BoundariesMembers(lo: int, hi: int, batchSize: int)
    requires batchSize != 0
    ensures forall k :: k in Boundaries(lo, hi, batchSize) <==> lo <= k < hi && AtBoundary(k, batchSize)
    decreases hi - lo
  {
    if lo < hi {
      BoundariesMembers(lo + 1, hi, batchSize);
    }
  }

  /** `Boundaries` lists the boundary counts in increasing order. */
  lemma {:induction false} BoundariesIncreasing(lo: int, hi: int, batchSize: int)
    requires batchSize != 0
    ensures forall i :: 0 <= i < |Boundaries(lo, hi, batchSize)| ==> lo <= Boundaries(lo, hi, batchSize)[i] < hi
    ensures forall i, j :: 0 <= i < j < |Boundaries(lo, hi, batchSize)| ==>
      Boundaries(lo, hi, batchSize)[i] < Boundaries(lo, hi, batchSize)[j]
    decreases hi - lo
  {
    if lo < hi {
      BoundariesIncreasing(lo + 1, hi, batchSize);
      var rest := Boundaries(lo + 1, hi, batchSize);
      var r := Boundaries(lo, hi, batchSize);
      if AtBoundary(lo, batchSize) {
        assert r == [lo] + rest;
        assert r[0] == lo;
        assert forall i :: 1 <= i < |r| ==> r[i] == rest[i - 1];
      } else {
        assert r == rest;
      }
    }
  }

  lemma {:induction false} BoundariesSplit(lo: int, mid: int, hi: int, batchSize: int)
    requires batchSize != 0 && lo <= mid <= hi
    ensures Boundaries(lo, hi, batchSize) == Boundaries(lo, mid, batchSize) + Boundaries(mid, hi, batchSize)
    decreases mid - lo
  {
    if lo < mid {
      BoundariesSplit(lo + 1, mid, hi, batchSize);
    }
  }

  /** Of the counts 1..n, exactly n / batchSize fall on a boundary. */
  lemma {:induction false} BoundaryCount(n: nat, batchSize: int)
    requires batchSize >= 1
    ensures |Boundaries(1, n + 1, batchSize)| == n / batchSize
  {
    if n > 0 {
      BoundaryCount(n - 1, batchSize);
      BoundariesSplit(1, n, n + 1, batchSize);
      assert Boundaries(n, n + 1, batchSize) == if n % batchSize == 0 then [n] else [];
      DivStep(n - 1, batchSize);
    }
  }

  lemma DivStep(m: nat, b: int)
    requires b >= 1
    ensures (m + 1) / b == m / b + (if (m + 1) % b == 0 then 1 else 0)
  {
    var q, r := m / b, m % b;
    assert m == q * b + r && 0 <= r < b;
    if r + 1 < b {
      assert m + 1 == q * b + (r + 1);
      DivModUnique(m + 1, b, q, r + 1);
    } else {
      assert m + 1 == (q + 1) * b;
      DivModUnique(m + 1, b, q + 1, 0);
    }
  }

  lemma DivModUnique(n: int, b: int, q: int, r: int)
    requires b >= 1 && n == q * b + r && 0 <= r < b
    ensures n / b == q && n % b == r
  {
    var q', r' := n / b, n % b;
    assert n == q' * b + r' && 0 <= r' < b;
    assert (q - q') * b == r' - r;
    if q > q' {
      MulAtLeast(q - q', b);
    } else if q < q' {
      MulAtLeast(q' - q, b);
    }
  }

  lemma {:induction false} MulAtLeast(k: int, b: int)
    requires k >= 1 && b >= 1
    ensures k * b >= b
    decreases k
  {
    if k > 1 {
      MulAtLeast(k - 1, b);
      assert k * b == (k - 1) * b + b;
    }
  }
}
