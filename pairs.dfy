/** Unordered pairs of positions `(i, j)` with `i < j`, in the order two nested loops
    meet them: the outer index ascending, and for each, the inner index from `i + 1` up.
    Every pair search of the engine walks them in this order. */
module Pairs {
  /** The pairs `(i, k)` with `i < k < j`, in the order the inner loop meets them. */
  function RowUpTo(i: nat, j: nat): seq<(nat, nat)> {
    if j == 0 then [] else RowUpTo(i, j - 1) + (if i < j - 1 then [(i, j - 1)] else [])
  }

  /** The pairs the loops meet before the outer index reaches `i`. */
  function PairsUpTo(i: nat, n: nat): seq<(nat, nat)> {
    if i == 0 then [] else PairsUpTo(i - 1, n) + RowUpTo(i - 1, n)
  }

  /** Every unordered pair of `n` cards, in loop order. */
  function AllPairs(n: nat): seq<(nat, nat)> {
    PairsUpTo(n, n)
  }

  /** The inner loop's pairs up to `j` start its whole row. */
  lemma {:induction false} RowUpToPrefix(i: nat, j: nat, n: nat) returns (rest: seq<(nat, nat)>)
    requires j <= n
    ensures RowUpTo(i, n) == RowUpTo(i, j) + rest
    decreases n - j
  {
    if j == n {
      rest := [];
    } else {
      var r := RowUpToPrefix(i, j, n - 1);
      rest := r + (if i < n - 1 then [(i, n - 1)] else []);
    }
  }

  /** The pairs met before outer index `i` start the whole enumeration. */
  lemma {:induction false} PairsUpToPrefix(i: nat, n: nat) returns (rest: seq<(nat, nat)>)
    requires i <= n
    ensures AllPairs(n) == PairsUpTo(i, n) + rest
    decreases n - i
  {
    if i == n {
      rest := [];
    } else {
      var r := PairsUpToPrefix(i + 1, n);
      rest := RowUpTo(i, n) + r;
    }
  }

  /** The pairs met up to `(i, j)` start the whole enumeration. */
  lemma AllPairsFrom(n: nat, i: nat, j: nat) returns (rest: seq<(nat, nat)>)
    requires i < n && j <= n
    ensures AllPairs(n) == (PairsUpTo(i, n) + RowUpTo(i, j)) + rest
  {
    var r1 := RowUpToPrefix(i, j, n);
    var r2 := PairsUpToPrefix(i + 1, n);
    rest := r1 + r2;
    var done, row := PairsUpTo(i, n), RowUpTo(i, j);
    assert PairsUpTo(i + 1, n) == done + (row + r1);
    Regroup(done, row, r1, r2);
  }

  lemma Regroup<T>(a: seq<T>, b: seq<T>, c: seq<T>, d: seq<T>)
    ensures (a + (b + c)) + d == (a + b) + (c + d)
  {
  }

  /** The inner loop meets `(i, k)` for each `k` from `i + 1` up to `j`, in order. */
  lemma {:induction false} RowUpToFacts(i: nat, j: nat)
    ensures |RowUpTo(i, j)| == if i < j then j - i - 1 else 0
    ensures forall m :: 0 <= m < |RowUpTo(i, j)| ==> RowUpTo(i, j)[m] == (i, i + 1 + m)
  {
    if j > 0 {
      RowUpToFacts(i, j - 1);
    }
  }

  /** Pairs in strictly increasing order: first by the first card, then by the second. */
  ghost predicate Increasing(ps: seq<(nat, nat)>) {
    forall a, b :: 0 <= a < b < |ps| ==> ps[a].0 < ps[b].0 || (ps[a].0 == ps[b].0 && ps[a].1 < ps[b].1)
  }

  /** Every pair the loops meet below the outer index `i` has its first card below
      `i` and before its second, and both among the `n` cards. */
  lemma {:induction false} PairsUpToBounded(i: nat, n: nat)
    ensures forall m :: 0 <= m < |PairsUpTo(i, n)| ==>
              PairsUpTo(i, n)[m].0 < PairsUpTo(i, n)[m].1 < n && PairsUpTo(i, n)[m].0 < i
  {
    if i > 0 {
      PairsUpToBounded(i - 1, n);
      RowUpToFacts(i - 1, n);
      var ps := PairsUpTo(i - 1, n);
      var row := RowUpTo(i - 1, n);
      var qs: seq<(nat, nat)> := ps + row;
      assert PairsUpTo(i, n) == qs;
      forall m | 0 <= m < |qs| ensures qs[m].0 < qs[m].1 < n && qs[m].0 < i {
        if m < |ps| {
          assert qs[m] == ps[m];
        } else {
          assert qs[m] == row[m - |ps|];
        }
      }
    }
  }

  /** The loops meet every pair `(a, b)` with `a < b` and `a` below the outer index. */
  lemma {:induction false} PairsUpToComplete(i: nat, n: nat)
    ensures forall a: nat, b: nat :: a < i && a < b < n ==> (a, b) in PairsUpTo(i, n)
  {
    if i > 0 {
      var r := i - 1;
      PairsUpToComplete(r, n);
      RowComplete(r, n);
      CompleteStep(PairsUpTo(r, n), RowUpTo(r, n), PairsUpTo(i, n), r, n);
    }
  }

  /** The pairs below `r` and the row of `r` make the pairs up to `r`. */
  lemma CompleteStep(ps: seq<(nat, nat)>, row: seq<(nat, nat)>, qs: seq<(nat, nat)>, r: nat, n: nat)
    requires qs == ps + row
    requires forall a: nat, b: nat :: a < r && a < b < n ==> (a, b) in ps
    requires forall b: nat :: r < b < n ==> (r, b) in row
    ensures forall a: nat, b: nat :: a <= r && a < b < n ==> (a, b) in qs
  {
    forall a: nat, b: nat | a <= r && a < b < n ensures (a, b) in qs {
      if a == r {
        assert (a, b) in row;
      } else {
        assert (a, b) in ps;
      }
    }
  }

  /** The row of `i` holds every pair `(i, b)` with `b` above `i`. */
  lemma RowComplete(i: nat, n: nat)
    ensures forall b: nat :: i < b < n ==> (i, b) in RowUpTo(i, n)
  {
    RowUpToFacts(i, n);
    forall b: nat | i < b < n ensures (i, b) in RowUpTo(i, n) {
      assert RowUpTo(i, n)[b - i - 1] == (i, b);
    }
  }

  /** Increasing runs whose first cards are all below the next run's join up. */
  lemma IncreasingAppend(ps: seq<(nat, nat)>, qs: seq<(nat, nat)>)
    requires Increasing(ps) && Increasing(qs)
    requires forall x, y :: 0 <= x < |ps| && 0 <= y < |qs| ==> ps[x].0 < qs[y].0
    ensures Increasing(ps + qs)
  {
    var rs := ps + qs;
    forall x, y | 0 <= x < y < |rs|
      ensures rs[x].0 < rs[y].0 || (rs[x].0 == rs[y].0 && rs[x].1 < rs[y].1)
    {
      if y < |ps| {
        assert rs[x] == ps[x] && rs[y] == ps[y];
      } else if x < |ps| {
        assert rs[x] == ps[x] && rs[y] == qs[y - |ps|];
      } else {
        assert rs[x] == qs[x - |ps|] && rs[y] == qs[y - |ps|];
      }
    }
  }

  /** A row is increasing in its second card. */
  lemma RowIncreasing(i: nat, n: nat)
    ensures Increasing(RowUpTo(i, n))
    ensures forall m :: 0 <= m < |RowUpTo(i, n)| ==> RowUpTo(i, n)[m].0 == i
  {
    RowUpToFacts(i, n);
  }

  /** The loops meet the pairs in strictly increasing order. */
  lemma {:induction false} PairsUpToIncreasing(i: nat, n: nat)
    ensures Increasing(PairsUpTo(i, n))
  {
    if i > 0 {
      PairsUpToIncreasing(i - 1, n);
      PairsUpToBounded(i - 1, n);
      RowIncreasing(i - 1, n);
      var ps := PairsUpTo(i - 1, n);
      var row := RowUpTo(i - 1, n);
      assert PairsUpTo(i, n) == ps + row;
      IncreasingAppend(ps, row);
    }
  }

  /** Every unordered pair of distinct cards is scored exactly once. */
  lemma AllPairsFacts(n: nat)
    ensures var ps := AllPairs(n);
            && (forall m :: 0 <= m < |ps| ==> ps[m].0 < ps[m].1 < n)
            && (forall a: nat, b: nat :: a < b < n ==> (a, b) in ps)
            && (forall x, y :: 0 <= x < y < |ps| ==> ps[x] != ps[y])
  {
    PairsUpToBounded(n, n);
    PairsUpToComplete(n, n);
    PairsUpToIncreasing(n, n);
  }

  /** Twice the number of pairs met below the outer index `i`: each row `a` holds
      `n - a - 1` pairs. */
  lemma {:induction false} PairsUpToLength(i: nat, n: nat)
    requires i <= n
    ensures 2 * |PairsUpTo(i, n)| == i * (2 * n - i - 1)
  {
    if i > 0 {
      PairsUpToLength(i - 1, n);
      RowUpToFacts(i - 1, n);
      assert |PairsUpTo(i, n)| == |PairsUpTo(i - 1, n)| + (n - i);
      assert i * (2 * n - i - 1) == (i - 1) * (2 * n - (i - 1) - 1) + 2 * (n - i);
    }
  }

  /** `n` cards make `n * (n - 1) / 2` pairs; five make ten. */
  lemma AllPairsLength(n: nat)
    ensures 2 * |AllPairs(n)| == n * (n - 1)
    ensures n <= 5 ==> |AllPairs(n)| <= 10
  {
    PairsUpToLength(n, n);
    if n <= 5 {
      assert n * (n - 1) <= 20 by {
        assert n - 1 <= 4;
      }
    }
  }
}
