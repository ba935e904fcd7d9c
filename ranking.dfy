/** Python's `sorted(xs, key=k, reverse=True)`: a stable sort into descending key
    order. Several generations of the engine rank cards, pairs and groups with it. */
module Ranking {

  ghost predicate SortedDesc<T>(s: seq<T>, key: T -> real) {
    forall i, j :: 0 <= i < j < |s| ==> key(s[i]) >= key(s[j])
  }

  /** The elements of `s` whose key is `v`, in their order in `s`. */
  function WithKey<T>(s: seq<T>, key: T -> real, v: real): seq<T> {
    if s == [] then []
    else (if key(s[0]) == v then [s[0]] else []) + WithKey(s[1..], key, v)
  }

  /** Where `x` goes in the descending list `s`: before the first element whose key
      is not greater than its own, so that it precedes the elements it ties with. */
  function InsertPos<T>(x: T, s: seq<T>, key: T -> real): (p: nat)
    ensures p <= |s|
    ensures forall i :: 0 <= i < p ==> key(s[i]) > key(x)
    ensures p < |s| ==> key(s[p]) <= key(x)
  {
    if s == [] || key(s[0]) <= key(x) then 0 else 1 + InsertPos(x, s[1..], key)
  }

  function Insert<T>(x: T, s: seq<T>, key: T -> real): (r: seq<T>)
    ensures |r| == |s| + 1
  {
    var p := InsertPos(x, s, key);
    s[..p] + [x] + s[p..]
  }

  function SortDesc<T>(s: seq<T>, key: T -> real): (r: seq<T>)
    ensures |r| == |s|
  {
    if s == [] then [] else Insert(s[0], SortDesc(s[1..], key), key)
  }

  lemma InsertSorted<T>(x: T, s: seq<T>, key: T -> real)
    requires SortedDesc(s, key)
    ensures SortedDesc(Insert(x, s, key), key)
  {
    var p := InsertPos(x, s, key);
    var r := Insert(x, s, key);
    forall i, j | 0 <= i < j < |r|
      ensures key(r[i]) >= key(r[j])
    {
      if j == p && i < p {
        assert r[i] == s[i];
      } else if i == p && j > p {
        assert r[j] == s[j - 1];
        assert key(s[p]) >= key(s[j - 1]);
      } else if i < p && j > p {
        assert r[i] == s[i] && r[j] == s[j - 1];
      } else if i > p {
        assert r[i] == s[i - 1] && r[j] == s[j - 1];
      }
    }
  }

  lemma {:induction false} SortDescSorted<T>(s: seq<T>, key: T -> real)
    ensures SortedDesc(SortDesc(s, key), key)
  {
    if s != [] {
      SortDescSorted(s[1..], key);
      InsertSorted(s[0], SortDesc(s[1..], key), key);
    }
  }

  lemma InsertPermutation<T>(x: T, t: seq<T>, key: T -> real)
    ensures multiset(Insert(x, t, key)) == multiset(t) + multiset{x}
  {
    var p := InsertPos(x, t, key);
    assert t == t[..p] + t[p..];
  }

  lemma {:induction false} SortDescPermutation<T>(s: seq<T>, key: T -> real)
    ensures multiset(SortDesc(s, key)) == multiset(s)
  {
    if s != [] {
      SortDescPermutation(s[1..], key);
      InsertPermutation(s[0], SortDesc(s[1..], key), key);
      assert s == [s[0]] + s[1..];
    }
  }

  /** Inserting behind a greater head keeps the head in front. */
  lemma InsertBehind<T>(x: T, t: seq<T>, key: T -> real)
    requires t != [] && key(t[0]) > key(x)
    ensures Insert(x, t, key) == [t[0]] + Insert(x, t[1..], key)
  {
    var p := InsertPos(x, t[1..], key);
    assert t[..1 + p] == [t[0]] + t[1..][..p];
    assert t[1 + p..] == t[1..][p..];
  }

  lemma WithKeyCons<T>(y: T, u: seq<T>, key: T -> real, v: real)
    ensures WithKey([y] + u, key, v) == (if key(y) == v then [y] else []) + WithKey(u, key, v)
  {
    assert ([y] + u)[1..] == u;
  }

  lemma {:induction false} WithKeyInsert<T>(x: T, t: seq<T>, key: T -> real, v: real)
    ensures WithKey(Insert(x, t, key), key, v)
         == (if key(x) == v then [x] else []) + WithKey(t, key, v)
  {
    if t == [] || key(t[0]) <= key(x) {
      assert Insert(x, t, key) == [x] + t;
      WithKeyCons(x, t, key, v);
    } else {
      InsertBehind(x, t, key);
      WithKeyCons(t[0], Insert(x, t[1..], key), key, v);
      WithKeyInsert(x, t[1..], key, v);
      WithKeyCons(t[0], t[1..], key, v);
      assert [t[0]] + t[1..] == t;
    }
  }

  /** Stability: for every key value, the elements carrying it keep their order. */
  lemma {:induction false} SortDescStable<T>(s: seq<T>, key: T -> real, v: real)
    ensures WithKey(SortDesc(s, key), key, v) == WithKey(s, key, v)
  {
    if s != [] {
      SortDescStable(s[1..], key, v);
      WithKeyInsert(s[0], SortDesc(s[1..], key), key, v);
    }
  }

  /** The elements of `s` with key `v` are drawn from `s`. */
  lemma {:induction false} WithKeyIn<T>(s: seq<T>, key: T -> real, v: real)
    ensures forall x :: x in WithKey(s, key, v) ==> x in s && key(x) == v
  {
    if s != [] {
      WithKeyIn(s[1..], key, v);
    }
  }

  /** `xs[:n]`. */
  function Take<T>(s: seq<T>, n: nat): (r: seq<T>)
    ensures |r| <= n && |r| <= |s|
    ensures |r| == if n < |s| then n else |s|
    ensures r == s[..|r|]
  {
    if n < |s| then s[..n] else s
  }

  /** `xs[:n]` for any integer `n`: a negative `n` drops that many elements from the end. */
  function Head<T>(s: seq<T>, n: int): (r: seq<T>)
    ensures |r| <= |s| && r == s[..|r|]
    ensures n >= 0 ==> |r| == if n < |s| then n else |s|
    ensures n < 0 ==> |r| == if |s| + n > 0 then |s| + n else 0
  {
    if n >= 0 then Take(s, n) else if |s| + n > 0 then s[..|s| + n] else []
  }

  /** The first `n` of a descending sort: still descending, drawn from `s`, and no
      element left out has a greater key than any element kept. */
  lemma HeadOfSorted<T>(s: seq<T>, key: T -> real, n: int)
    ensures var h := Head(SortDesc(s, key), n);
            && SortedDesc(h, key)
            && multiset(h) <= multiset(s)
            && forall x, i :: x in multiset(s) - multiset(h) && 0 <= i < |h| ==> key(h[i]) >= key(x)
  {
    var sorted := SortDesc(s, key);
    SortDescSorted(s, key);
    SortDescPermutation(s, key);
    PrefixOfSorted(sorted, key, |Head(sorted, n)|, s);
  }

  /** Every element of the first `n` of a descending sort is an element of `s`. */
  lemma HeadOfSortedFrom<T>(s: seq<T>, key: T -> real, n: int, k: nat) returns (j: nat)
    requires k < |Head(SortDesc(s, key), n)|
    ensures j < |s| && s[j] == Head(SortDesc(s, key), n)[k]
  {
    var h := Head(SortDesc(s, key), n);
    HeadOfSorted(s, key, n);
    assert h[k] in multiset(h);
    assert h[k] in multiset(s);
    j :| 0 <= j < |s| && s[j] == h[k];
  }

  lemma PrefixOfSorted<T>(sorted: seq<T>, key: T -> real, m: nat, s: seq<T>)
    requires SortedDesc(sorted, key) && multiset(sorted) == multiset(s) && m <= |sorted|
    ensures SortedDesc(sorted[..m], key)
    ensures multiset(sorted[..m]) <= multiset(s)
    ensures forall x, i :: x in multiset(s) - multiset(sorted[..m]) && 0 <= i < m ==> key(sorted[..m][i]) >= key(x)
  {
    var h, rest := sorted[..m], sorted[m..];
    assert sorted == h + rest;
    assert multiset(s) == multiset(h) + multiset(rest);
    forall x, i | x in multiset(s) - multiset(h) && 0 <= i < m
      ensures key(h[i]) >= key(x)
    {
      assert x in multiset(rest);
      var j :| 0 <= j < |rest| && rest[j] == x;
      assert sorted[m + j] == x;
    }
  }

  /** An element of `s` is among the first `n` of the sort, or `n` elements no smaller
      than it are. */
  lemma HeadOfSortedHas<T>(s: seq<T>, key: T -> real, n: nat, x: T)
    requires x in s
    ensures var h := Head(SortDesc(s, key), n);
            x in h || (|h| == n && forall i :: 0 <= i < n ==> key(h[i]) >= key(x))
  {
    var h := Head(SortDesc(s, key), n);
    HeadOfSorted(s, key, n);
    SortDescPermutation(s, key);
    if |s| <= n {
      assert h == SortDesc(s, key);
      assert x in multiset(h);
    } else if x !in h {
      assert x in multiset(s) - multiset(h);
    }
  }
}
