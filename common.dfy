/** Shared vocabulary: optional values, ordered dictionaries of amounts,
    sums over them, and the few string operations the engine relies on. */
module Common {

  datatype Option<+T> = None | Some(value: T)

  /** A value, or the exception the source raises instead of returning one. */
  datatype Result<+T> = Ok(value: T) | Err(error: string)

  /** A numeric cell of a table with a default for NaN/None. */
  function OrElse(o: Option<real>, d: real): (r: real)
    ensures o.Some? ==> r == o.value
    ensures o.None? ==> r == d
  {
    if o.Some? then o.value else d
  }

  /** Python's `x or default` on an optional number: None and 0 are falsy. */
  function Truthy(o: Option<real>, d: real): (r: real)
    ensures (o.None? || o.value == 0.0) ==> r == d
    ensures (o.Some? && o.value != 0.0) ==> r == o.value
  {
    if o.Some? && o.value != 0.0 then o.value else d
  }

  function Min(a: real, b: real): (r: real)
    ensures r <= a && r <= b && (r == a || r == b)
  {
    if a <= b then a else b
  }

  function Max(a: real, b: real): (r: real)
    ensures r >= a && r >= b && (r == a || r == b)
  {
    if a >= b then a else b
  }

  /** One key of a Python dict of amounts, in insertion order. */
  datatype Entry = Entry(key: string, amount: real)

  /** A Python dict `str -> float`: insertion-ordered, keys distinct. */
  type SpendDict = seq<Entry>

  ghost predicate DistinctKeys(d: SpendDict) {
    forall i, j :: 0 <= i < j < |d| ==> d[i].key != d[j].key
  }

  function KeySet(d: SpendDict): (ks: set<string>)
    ensures forall i :: 0 <= i < |d| ==> d[i].key in ks
    ensures forall k :: k in ks ==> exists i :: 0 <= i < |d| && d[i].key == k
  {
    if d == [] then {} else {d[0].key} + KeySet(d[1..])
  }

  predicate HasKey(d: SpendDict, k: string) {
    exists i :: 0 <= i < |d| && d[i].key == k
  }

  /** `d.get(k, 0)`. */
  function Get(d: SpendDict, k: string): (r: real)
    ensures (forall i :: 0 <= i < |d| ==> d[i].key != k) ==> r == 0.0
  {
    if d == [] then 0.0 else if d[0].key == k then d[0].amount else Get(d[1..], k)
  }

  lemma {:induction false} GetAt(d: SpendDict, i: nat)
    requires DistinctKeys(d) && i < |d|
    ensures Get(d, d[i].key) == d[i].amount
  {
    if i > 0 {
      GetAt(d[1..], i - 1);
    }
  }

  /** `d[k] = v`: an existing key keeps its place, a new key is appended. */
  function Put(d: SpendDict, k: string, v: real): (r: SpendDict)
    ensures |r| == |d| || |r| == |d| + 1
    ensures forall i :: 0 <= i < |d| ==> r[i].key == d[i].key
    ensures |r| == |d| + 1 ==> r[|d|] == Entry(k, v)
    ensures |r| == |d| + 1 <==> forall i :: 0 <= i < |d| ==> d[i].key != k
  {
    if d == [] then [Entry(k, v)]
    else if d[0].key == k then [Entry(k, v)] + d[1..]
    else [d[0]] + Put(d[1..], k, v)
  }

  lemma {:induction false} PutGet(d: SpendDict, k: string, v: real, k': string)
    ensures Get(Put(d, k, v), k') == if k' == k then v else Get(d, k')
  {
    if d != [] && d[0].key != k {
      PutGet(d[1..], k, v, k');
    }
  }

  lemma {:induction false} PutKeys(d: SpendDict, k: string, v: real)
    ensures KeySet(Put(d, k, v)) == KeySet(d) + {k}
  {
    if d != [] && d[0].key != k {
      PutKeys(d[1..], k, v);
    }
  }

  lemma PutDistinct(d: SpendDict, k: string, v: real)
    requires DistinctKeys(d)
    ensures DistinctKeys(Put(d, k, v))
  {
  }

  /** A new key goes to the end. */
  lemma {:induction false} PutNew(d: SpendDict, k: string, v: real)
    requires forall i :: 0 <= i < |d| ==> d[i].key != k
    ensures Put(d, k, v) == d + [Entry(k, v)]
  {
    if d != [] {
      PutNew(d[1..], k, v);
      assert d == [d[0]] + d[1..];
    }
  }

  /** Every amount of a dict multiplied by `k`, keys and order kept. */
  function ScaleDict(d: SpendDict, k: real): (r: SpendDict)
    ensures |r| == |d|
    ensures forall i :: 0 <= i < |d| ==> r[i] == Entry(d[i].key, d[i].amount * k)
  {
    if d == [] then [] else [Entry(d[0].key, d[0].amount * k)] + ScaleDict(d[1..], k)
  }

  lemma {:induction false} SumScaleDict(d: SpendDict, k: real)
    ensures SumValues(ScaleDict(d, k)) == SumValues(d) * k
  {
    if d != [] {
      SumScaleDict(d[1..], k);
    }
  }

  /** `sum(d.values())`. */
  function SumValues(d: SpendDict): real {
    if d == [] then 0.0 else d[0].amount + SumValues(d[1..])
  }

  lemma {:induction false} SumValuesAppend(a: SpendDict, b: SpendDict)
    ensures SumValues(a + b) == SumValues(a) + SumValues(b)
  {
    if a != [] {
      assert (a + b)[0] == a[0];
      assert (a + b)[1..] == a[1..] + b;
      SumValuesAppend(a[1..], b);
    } else {
      assert a + b == b;
    }
  }

  /** Sum of a list of amounts. */
  function Sum(xs: seq<real>): real {
    if xs == [] then 0.0 else xs[0] + Sum(xs[1..])
  }

  lemma {:induction false} SumAppend(a: seq<real>, b: seq<real>)
    ensures Sum(a + b) == Sum(a) + Sum(b)
  {
    if a != [] {
      assert (a + b)[0] == a[0];
      assert (a + b)[1..] == a[1..] + b;
      SumAppend(a[1..], b);
    } else {
      assert a + b == b;
    }
  }

  lemma {:induction false} SumNonNegative(xs: seq<real>)
    requires forall i :: 0 <= i < |xs| ==> xs[i] >= 0.0
    ensures Sum(xs) >= 0.0
  {
    if xs != [] {
      SumNonNegative(xs[1..]);
    }
  }

  /** Every element multiplied by `k`. */
  function Scale(xs: seq<real>, k: real): (r: seq<real>)
    ensures |r| == |xs|
    ensures forall i :: 0 <= i < |xs| ==> r[i] == xs[i] * k
  {
    if xs == [] then [] else [xs[0] * k] + Scale(xs[1..], k)
  }

  lemma {:induction false} SumScale(xs: seq<real>, k: real)
    ensures Sum(Scale(xs, k)) == Sum(xs) * k
  {
    if xs != [] {
      SumScale(xs[1..], k);
    }
  }

  // ---------------------------------------------------------------------
  // Strings (ASCII view of Python's str methods used by the engine)

  /** Python's `str.isspace()` for the ASCII whitespace characters. */
  predicate IsSpace(c: char) {
    c == ' ' || ('\t' <= c <= '\r') || ('\U{001C}' <= c <= '\U{001F}')
  }

  function StripLeft(s: string): (r: string)
    ensures |r| <= |s| && r == s[|s| - |r|..]
    ensures r == [] || !IsSpace(r[0])
    ensures forall i :: 0 <= i < |s| - |r| ==> IsSpace(s[i])
  {
    if s != [] && IsSpace(s[0]) then StripLeft(s[1..]) else s
  }

  function StripRight(s: string): (r: string)
    ensures |r| <= |s| && r == s[..|r|]
    ensures r == [] || !IsSpace(r[|r| - 1])
    ensures forall i :: |r| <= i < |s| ==> IsSpace(s[i])
  {
    if s != [] && IsSpace(s[|s| - 1]) then StripRight(s[..|s| - 1]) else s
  }

  /** `str.strip()`. */
  function Strip(s: string): (r: string)
    ensures r == [] || (!IsSpace(r[0]) && !IsSpace(r[|r| - 1]))
    ensures |r| <= |s|
  {
    StripRight(StripLeft(s))
  }

  /** Where `Strip(s)` sits in `s`: everything around it is whitespace. */
  lemma StripSlice(s: string) returns (a: nat)
    ensures a + |Strip(s)| <= |s| && Strip(s) == s[a..a + |Strip(s)|]
    ensures forall k :: 0 <= k < a ==> IsSpace(s[k])
    ensures forall k :: a + |Strip(s)| <= k < |s| ==> IsSpace(s[k])
  {
    var l := StripLeft(s);
    a := |s| - |l|;
    var r := StripRight(l);
    assert Strip(s) == r;
    assert l == s[a..] && r == l[..|r|];
    assert r == s[a..a + |r|];
    forall k | a + |r| <= k < |s|
      ensures IsSpace(s[k])
    {
      assert s[k] == l[k - a];
    }
  }

  lemma StripUnchanged(s: string)
    requires s == [] || (!IsSpace(s[0]) && !IsSpace(s[|s| - 1]))
    ensures Strip(s) == s
  {
  }

  predicate IsUpper(c: char) { 'A' <= c <= 'Z' }
  predicate IsLower(c: char) { 'a' <= c <= 'z' }
  predicate IsAlpha(c: char) { IsUpper(c) || IsLower(c) }
  predicate IsDigit(c: char) { '0' <= c <= '9' }

  function LowerChar(c: char): char {
    if IsUpper(c) then (c as int + 32) as char else c
  }

  function UpperChar(c: char): char {
    if IsLower(c) then (c as int - 32) as char else c
  }

  /** Python's `<` on strings: the first differing character decides, and a proper
      prefix comes first. */
  predicate StrBefore(a: string, b: string) {
    if a == [] then b != []
    else if b == [] then false
    else a[0] < b[0] || (a[0] == b[0] && StrBefore(a[1..], b[1..]))
  }

  /** `StrBefore` is a strict total order: no string comes before itself, it is
      transitive, and of two different strings one comes first. */
  lemma {:induction false} StrBeforeIrreflexive(a: string)
    ensures !StrBefore(a, a)
  {
    if a != [] {
      StrBeforeIrreflexive(a[1..]);
    }
  }

  lemma {:induction false} StrBeforeTransitive(a: string, b: string, c: string)
    requires StrBefore(a, b) && StrBefore(b, c)
    ensures StrBefore(a, c)
  {
    if a != [] && a[0] == b[0] && b[0] == c[0] {
      StrBeforeTransitive(a[1..], b[1..], c[1..]);
    }
  }

  lemma {:induction false} StrBeforeTotal(a: string, b: string)
    requires a != b
    ensures StrBefore(a, b) || StrBefore(b, a)
  {
    if a != [] && b != [] && a[0] == b[0] {
      assert a == [a[0]] + a[1..] && b == [b[0]] + b[1..];
      StrBeforeTotal(a[1..], b[1..]);
    }
  }

  /** `str.lower()`. */
  function Lower(s: string): (r: string)
    ensures |r| == |s|
    ensures forall i :: 0 <= i < |s| ==> r[i] == LowerChar(s[i])
  {
    if s == [] then [] else [LowerChar(s[0])] + Lower(s[1..])
  }

  /** `str.title()`: a letter after a non-letter is upper-cased, every other letter lower-cased. */
  function Title(s: string): (r: string)
    ensures |r| == |s|
    ensures forall i :: 0 <= i < |s| ==> r[i] == if i > 0 && IsAlpha(s[i - 1]) then LowerChar(s[i]) else UpperChar(s[i])
  {
    TitleFrom(s, false)
  }

  /** `Title` of a suffix, knowing whether the character before it was a letter. */
  function TitleFrom(s: string, afterLetter: bool): (r: string)
    ensures |r| == |s|
    ensures forall i :: 0 <= i < |s| ==>
              r[i] == if (if i == 0 then afterLetter else IsAlpha(s[i - 1])) then LowerChar(s[i]) else UpperChar(s[i])
  {
    if s == [] then []
    else
      var c := if afterLetter then LowerChar(s[0]) else UpperChar(s[0]);
      var rest := TitleFrom(s[1..], IsAlpha(s[0]));
      assert forall i :: 1 <= i < |s| ==> s[i] == s[1..][i - 1];
      [c] + rest
  }

  /** `needle` occurs in `haystack` starting at index `i`. */
  predicate OccursAt(haystack: string, needle: string, i: nat) {
    i + |needle| <= |haystack| && haystack[i..i + |needle|] == needle
  }

  /** `needle in haystack` for strings. */
  ghost predicate Contains(haystack: string, needle: string) {
    exists i: nat :: OccursAt(haystack, needle, i)
  }

  function ContainsFrom(haystack: string, needle: string, i: nat): (b: bool)
    decreases |haystack| - i
    ensures b <==> exists j: nat :: i <= j && OccursAt(haystack, needle, j)
  {
    if i + |needle| > |haystack| then false
    else if OccursAt(haystack, needle, i) then true
    else
      var b := ContainsFrom(haystack, needle, i + 1);
      assert forall j: nat :: OccursAt(haystack, needle, j) && i <= j ==> i + 1 <= j;
      b
  }

  /** Executable form of `Contains`. */
  function ContainsStr(haystack: string, needle: string): (b: bool)
    ensures b <==> Contains(haystack, needle)
  {
    ContainsFrom(haystack, needle, 0)
  }
}
