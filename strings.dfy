/**
 * The string operations the label helpers rely on: Python's `str.split()`
 * with no argument, `' '.join(...)`, and `sorted(...)` of a set of strings
 * under Python's code-point order.
 */
module Strings {

  /** The characters Python's `str.isspace()` accepts, i.e. those `str.split()` splits on. */
  predicate IsSpace(c: char) {
    || ('\t' <= c <= '\r')
    || ('\U{1C}' <= c <= '\U{1F}')
    || c == ' '
    || c == '\U{85}'
    || c == '\U{A0}'
    || c == '\U{1680}'
    || ('\U{2000}' <= c <= '\U{200A}')
    || c == '\U{2028}'
    || c == '\U{2029}'
    || c == '\U{202F}'
    || c == '\U{205F}'
    || c == '\U{3000}'
  }

  /** No character of `s` is whitespace. */
  predicate NoSpace(s: string) {
    forall i :: 0 <= i < |s| ==> !IsSpace(s[i])
  }

  /** What `str.split()` can produce: a non-empty run of non-whitespace. */
  predicate IsToken(t: string) {
    |t| > 0 && NoSpace(t)
  }

  /** Length of the longest whitespace-free prefix of `s`. */
  function WordLen(s: string): (n: nat)
    ensures n <= |s|
    ensures NoSpace(s[..n])
    ensures n == |s| || IsSpace(s[n])
  {
    if s == [] || IsSpace(s[0]) then 0 else 1 + WordLen(s[1..])
  }

  /** `s.split()`: the maximal whitespace-free runs of `s`, in order. */
  function Split(s: string): (r: seq<string>)
    ensures forall i :: 0 <= i < |r| ==> IsToken(r[i])
    decreases |s|
  {
    if s == [] then []
    else if IsSpace(s[0]) then Split(s[1..])
    else
      var n := WordLen(s);
      [s[..n]] + Split(s[n..])
  }

  /** `' '.join(ts)`. */
  function Join(ts: seq<string>): string {
    if ts == [] then ""
    else if |ts| == 1 then ts[0]
    else ts[0] + " " + Join(ts[1..])
  }

  /** `s` with every whitespace character removed. */
  function RemoveSpace(s: string): string {
    if s == [] then ""
    else (if IsSpace(s[0]) then "" else [s[0]]) + RemoveSpace(s[1..])
  }

  /** `''.join(ts)`. */
  function Concat(ts: seq<string>): string {
    if ts == [] then "" else ts[0] + Concat(ts[1..])
  }

  lemma {:induction false} WordLenOfToken(t: string, rest: string)
    requires NoSpace(t)
    requires rest == [] || IsSpace(rest[0])
    ensures WordLen(t + rest) == |t|
  {
    if t != [] {
      assert (t + rest)[1..] == t[1..] + rest;
      WordLenOfToken(t[1..], rest);
    }
  }

  /** A token split on its own is itself. */
  lemma SplitToken(t: string)
    requires IsToken(t)
    ensures Split(t) == [t]
  {
    WordLenOfToken(t, "");
    assert t + "" == t;
    assert t[..|t|] == t;
  }

  /** Joining well-formed tokens with single spaces and splitting again gives the tokens back. */
  lemma {:induction false} SplitJoin(ts: seq<string>)
    requires forall i :: 0 <= i < |ts| ==> IsToken(ts[i])
    ensures Split(Join(ts)) == ts
  {
    if |ts| == 1 {
      SplitToken(ts[0]);
    } else if |ts| > 1 {
      var t, rest := ts[0], Join(ts[1..]);
      var s := t + " " + rest;
      WordLenOfToken(t, " " + rest);
      assert s == t + (" " + rest);
      assert s[..|t|] == t;
      assert s[|t|..] == " " + rest;
      assert (" " + rest)[1..] == rest;
      SplitJoin(ts[1..]);
      assert ts == [t] + ts[1..];
    }
  }

  lemma {:induction false} RemoveSpaceAppend(a: string, b: string)
    ensures RemoveSpace(a + b) == RemoveSpace(a) + RemoveSpace(b)
  {
    if a == [] {
      assert a + b == b;
    } else {
      assert (a + b)[1..] == a[1..] + b;
      RemoveSpaceAppend(a[1..], b);
    }
  }

  lemma {:induction false} RemoveSpaceNoSpace(s: string)
    requires NoSpace(s)
    ensures RemoveSpace(s) == s
  {
    if s != [] {
      RemoveSpaceNoSpace(s[1..]);
    }
  }

  /** `str.split()` drops exactly the whitespace: the tokens, concatenated, are `s` without it. */
  lemma {:induction false} SplitDropsOnlySpace(s: string)
    ensures Concat(Split(s)) == RemoveSpace(s)
    decreases |s|
  {
    if s == [] {
    } else if IsSpace(s[0]) {
      SplitDropsOnlySpace(s[1..]);
    } else {
      var n := WordLen(s);
      assert s == s[..n] + s[n..];
      RemoveSpaceAppend(s[..n], s[n..]);
      RemoveSpaceNoSpace(s[..n]);
      SplitDropsOnlySpace(s[n..]);
      var r := Split(s);
      assert r == [s[..n]] + Split(s[n..]);
      assert r[1..] == Split(s[n..]);
    }
  }

  /** Leading whitespace, however much, is skipped. */
  lemma {:induction false} SplitSkipsSpace(w: string, s: string)
    requires forall i :: 0 <= i < |w| ==> IsSpace(w[i])
    ensures Split(w + s) == Split(s)
  {
    if w == [] {
      assert w + s == s;
    } else {
      assert (w + s)[1..] == w[1..] + s;
      SplitSkipsSpace(w[1..], s);
    }
  }

  /** A token followed by a run of whitespace of any length is the first token, and splitting carries on after the run. */
  lemma SplitFirstToken(t: string, w: string, rest: string)
    requires IsToken(t)
    requires |w| > 0 && forall i :: 0 <= i < |w| ==> IsSpace(w[i])
    ensures Split(t + w + rest) == [t] + Split(rest)
  {
    var s := t + w + rest;
    assert s == t + (w + rest);
    WordLenOfToken(t, w + rest);
    assert s[..|t|] == t;
    assert s[|t|..] == w + rest;
    SplitSkipsSpace(w, rest);
  }

  /** Whitespace-only (or empty) strings split to nothing. */
  lemma {:induction false} SplitBlank(s: string)
    requires forall i :: 0 <= i < |s| ==> IsSpace(s[i])
    ensures Split(s) == []
  {
    if s != [] {
      SplitBlank(s[1..]);
    }
  }

  /** Python's `<` on `str`: code-point lexicographic order, a proper prefix first. */
  predicate Less(a: string, b: string) {
    if a == [] then b != []
    else b != [] && (a[0] < b[0] || (a[0] == b[0] && Less(a[1..], b[1..])))
  }

  lemma {:induction false} LessIrreflexive(a: string)
    ensures !Less(a, a)
  {
    if a != [] {
      LessIrreflexive(a[1..]);
    }
  }

  lemma {:induction false} LessTransitive(a: string, b: string, c: string)
    requires Less(a, b) && Less(b, c)
    ensures Less(a, c)
  {
    if a != [] && a[0] == b[0] && b[0] == c[0] {
      LessTransitive(a[1..], b[1..], c[1..]);
    }
  }

  /** Any two distinct strings are ordered one way, and not the other. */
  lemma {:induction false} LessTotal(a: string, b: string)
    ensures a == b || Less(a, b) || Less(b, a)
    ensures !(Less(a, b) && Less(b, a))
  {
    if a != [] && b != [] && a[0] == b[0] {
      LessTotal(a[1..], b[1..]);
      assert a == [a[0]] + a[1..];
      assert b == [b[0]] + b[1..];
    }
  }

  /** `m` comes before every other member of `s`. */
  predicate IsLeast(m: string, s: set<string>) {
    m in s && forall y :: y in s ==> m == y || Less(m, y)
  }

  /** Every finite non-empty set of strings has a least member. */
  lemma {:induction false} LeastExists(s: set<string>)
    requires s != {}
    ensures exists m :: IsLeast(m, s)
    decreases |s|
  {
    var x :| x in s;
    var s' := s - {x};
    if s' == {} {
      assert s == {x};
      assert IsLeast(x, s);
    } else {
      LeastExists(s');
      var m' :| IsLeast(m', s');
      LessTotal(x, m');
      if Less(x, m') {
        forall y | y in s ensures x == y || Less(x, y) {
          if y != x && y != m' { LessTransitive(x, m', y); }
        }
        assert IsLeast(x, s);
      } else {
        assert IsLeast(m', s);
      }
    }
  }

  lemma LeastUnique(s: set<string>)
    ensures forall m, m' :: IsLeast(m, s) && IsLeast(m', s) ==> m == m'
  {
    forall m, m' | IsLeast(m, s) && IsLeast(m', s) ensures m == m' {
      LessTotal(m, m');
    }
  }

  /** Each element strictly before the next: sorted, and no element twice. */
  predicate StrictlySorted(r: seq<string>) {
    forall i, j :: 0 <= i < j < |r| ==> Less(r[i], r[j])
  }

  /** `sorted(s)` for a set `s` of strings: its members in increasing order, each once. */
  function SortedSet(s: set<string>): (r: seq<string>)
    ensures |r| == |s|
    ensures forall x :: x in r <==> x in s
    ensures StrictlySorted(r)
    decreases |s|
  {
    if s == {} then []
    else
      LeastExists(s);
      LeastUnique(s);
      var m :| IsLeast(m, s);
      var rest := SortedSet(s - {m});
      assert forall j :: 0 <= j < |rest| ==> Less(m, rest[j]) by {
        forall j | 0 <= j < |rest| ensures Less(m, rest[j]) {
          assert rest[j] in s - {m};
        }
      }
      [m] + rest
  }
}
