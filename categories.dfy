/** `get_card_categories` of the original single-file application: the categories a
    card lists in its comma-separated 'Categories' cell. */
module CardCategories {
  import opened Common

  /** How many times `c` occurs in `s`. */
  function Count(s: string, c: char): nat {
    if s == [] then 0 else (if s[0] == c then 1 else 0) + Count(s[1..], c)
  }

  /** `s.split(sep)` for a one-character separator: the pieces between separators,
      empty pieces included. */
  function Split(s: string, sep: char): (r: seq<string>)
    ensures |r| >= 1
  {
    if s == [] then [[]]
    else
      var rest := Split(s[1..], sep);
      if s[0] == sep then [[]] + rest else [[s[0]] + rest[0]] + rest[1..]
  }

  /** `sep.join(parts)`. */
  function Join(parts: seq<string>, sep: char): string
    requires |parts| >= 1
  {
    if |parts| == 1 then parts[0] else parts[0] + [sep] + Join(parts[1..], sep)
  }

  /** Splitting yields one more piece than there are separators. */
  lemma {:induction false} SplitCount(s: string, sep: char)
    ensures |Split(s, sep)| == Count(s, sep) + 1
  {
    if s != [] {
      SplitCount(s[1..], sep);
    }
  }

  /** No piece contains the separator. */
  lemma {:induction false} SplitPieces(s: string, sep: char)
    ensures forall k, i :: 0 <= k < |Split(s, sep)| && 0 <= i < |Split(s, sep)[k]| ==>
              Split(s, sep)[k][i] != sep
  {
    if s != [] {
      SplitPieces(s[1..], sep);
      var rest := Split(s[1..], sep);
      if s[0] != sep {
        var r := Split(s, sep);
        assert r[0] == [s[0]] + rest[0];
        assert forall k :: 1 <= k < |r| ==> r[k] == rest[k];
      }
    }
  }

  /** Joining the pieces with the separator gives the text back. */
  lemma {:induction false} SplitJoin(s: string, sep: char)
    ensures Join(Split(s, sep), sep) == s
  {
    if s != [] {
      SplitJoin(s[1..], sep);
      var rest := Split(s[1..], sep);
      if s[0] == sep {
        assert Split(s, sep)[1..] == rest;
      } else {
        var r := Split(s, sep);
        assert r[1..] == rest[1..];
        if |rest| == 1 {
          assert s == [s[0]] + s[1..];
        } else {
          assert Join(rest, sep) == rest[0] + [sep] + Join(rest[1..], sep);
          assert Join(r, sep) == ([s[0]] + rest[0]) + [sep] + Join(rest[1..], sep);
          assert s == [s[0]] + s[1..];
        }
      }
    }
  }

  /** `[cat.strip() for cat in pieces]`. */
  function StripAll(pieces: seq<string>): (r: seq<string>)
    ensures |r| == |pieces|
    ensures forall k :: 0 <= k < |r| ==> r[k] == Strip(pieces[k])
  {
    if pieces == [] then [] else [Strip(pieces[0])] + StripAll(pieces[1..])
  }

  /** `get_card_categories`: a missing, NaN or empty cell lists 'General'; otherwise
      every comma-separated piece, stripped, empty pieces included. */
  function GetCardCategories(cell: Option<string>): (r: seq<string>)
    ensures cell.None? || cell.value == "" ==> r == ["General"]
    ensures cell.Some? && cell.value != "" ==>
              |r| == |Split(cell.value, ',')| && forall k :: 0 <= k < |r| ==> r[k] == Strip(Split(cell.value, ',')[k])
    ensures forall k :: 0 <= k < |r| ==> r[k] == [] || (!IsSpace(r[k][0]) && !IsSpace(r[k][|r[k]| - 1]))
  {
    if cell.None? || cell.value == "" then ["General"]
    else StripAll(Split(cell.value, ','))
  }

  /** A non-empty cell lists one category per comma, plus one. */
  lemma CategoryCount(text: string)
    requires text != ""
    ensures |GetCardCategories(Some(text))| == Count(text, ',') + 1
  {
    SplitCount(text, ',');
  }

  /** Text without a separator in front of `t` is glued onto the first piece of `t`. */
  lemma {:induction false} SplitPrefix(x: string, t: string, sep: char)
    requires forall i :: 0 <= i < |x| ==> x[i] != sep
    ensures Split(x + t, sep) == [x + Split(t, sep)[0]] + Split(t, sep)[1..]
  {
    if x != [] {
      var u := Split(t, sep);
      assert (x + t)[0] == x[0];
      assert (x + t)[1..] == x[1..] + t;
      SplitPrefix(x[1..], t, sep);
      var rest := Split(x[1..] + t, sep);
      assert rest[0] == x[1..] + u[0] && rest[1..] == u[1..];
      assert Split(x + t, sep) == [[x[0]] + rest[0]] + rest[1..];
      assert [x[0]] + (x[1..] + u[0]) == x + u[0];
    } else {
      var u := Split(t, sep);
      assert x + t == t;
      assert u == [u[0]] + u[1..];
      assert x + u[0] == u[0];
    }
  }

  /** A separator at the front starts with an empty piece. */
  lemma SplitSepFront(t: string, sep: char)
    ensures Split([sep] + t, sep) == [[]] + Split(t, sep)
  {
    assert ([sep] + t)[1..] == t;
  }

  /** Two commas in a row after the first category leave an empty second category. */
  lemma EmptyPieceKept(first: string, rest: string, text: string)
    requires forall i :: 0 <= i < |first| ==> first[i] != ','
    requires text == first + [',', ','] + rest
    ensures |GetCardCategories(Some(text))| >= 3
    ensures GetCardCategories(Some(text))[0] == Strip(first)
    ensures GetCardCategories(Some(text))[1] == ""
  {
    var t := [','] + ([','] + rest);
    assert text == first + t;
    SplitSepFront([','] + rest, ',');
    SplitSepFront(rest, ',');
    var u := Split(t, ',');
    assert u[0] == [] && u[1] == [] && |u| >= 2;
    SplitPrefix(first, t, ',');
    var pieces := Split(text, ',');
    assert pieces == [first + u[0]] + u[1..];
    assert pieces[0] == first && pieces[1] == [];
    assert text != "";
    var r := GetCardCategories(Some(text));
    assert r[0] == Strip(pieces[0]) && r[1] == Strip(pieces[1]);
  }
}
