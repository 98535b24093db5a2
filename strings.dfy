/**
 * The few Python `str` operations the modelled code relies on, written out over `seq<char>`:
 * `split`, `join`, `lstrip`, `strip`, `lower`, `in` and `sorted`.
 */
module Strings {
  import opened Wrappers

  /** `a` is a suffix of `b` (`b.endswith(a)`); prefixes are Dafny's own `a <= b`. */
  predicate IsSuffix(a: string, b: string) {
    |a| <= |b| && b[|b| - |a|..] == a
  }

  lemma SuffixTransitive(a: string, b: string, c: string)
    requires IsSuffix(a, b) && IsSuffix(b, c)
    ensures IsSuffix(a, c)
  {
    assert c[|c| - |a|..] == c[|c| - |b|..][|b| - |a|..];
  }

  /** The position of the first `c` in `s` (`s.index(c)`). */
  function IndexOf(s: string, c: char): (i: nat)
    requires c in s
    ensures i < |s| && s[i] == c && c !in s[..i]
  {
    if s[0] == c then 0
    else
      var j := IndexOf(s[1..], c);
      assert s[..j + 1] == [s[0]] + s[1..][..j];
      1 + j
  }

  lemma {:induction false} IndexOfAfter(a: string, c: char, b: string)
    requires c !in a
    ensures c in a + [c] + b && IndexOf(a + [c] + b, c) == |a|
    decreases |a|
  {
    assert (a + [c] + b)[|a|] == c;
    if a != [] {
      assert (a + [c] + b)[1..] == a[1..] + [c] + b;
      IndexOfAfter(a[1..], c, b);
    }
  }

  /** `s.split(c)` for a one-character separator: every occurrence cuts and empty pieces are kept. */
  function Split(s: string, c: char): (parts: seq<string>)
    ensures |parts| > 0
    decreases |s|
  {
    if c in s then
      var i := IndexOf(s, c);
      [s[..i]] + Split(s[i + 1..], c)
    else [s]
  }

  /** No piece of `s.split(c)` holds `c`. */
  lemma {:induction false} SplitPieces(s: string, c: char)
    ensures forall k :: 0 <= k < |Split(s, c)| ==> c !in Split(s, c)[k]
    decreases |s|
  {
    if c in s {
      var i := IndexOf(s, c);
      SplitAt(s, c);
      SplitPieces(s[i + 1..], c);
      assert forall k :: 0 < k < |Split(s, c)| ==> Split(s, c)[k] == Split(s[i + 1..], c)[k - 1];
    }
  }

  /** `sep.join(parts)`. */
  function Join(parts: seq<string>, sep: string): string
  {
    if |parts| == 0 then ""
    else if |parts| == 1 then parts[0]
    else parts[0] + sep + Join(parts[1..], sep)
  }

  lemma JoinCons(first: string, rest: seq<string>, sep: string)
    requires rest != []
    ensures Join([first] + rest, sep) == first + sep + Join(rest, sep)
  {
    assert ([first] + rest)[1..] == rest;
  }

  /** `s.split(c)[0]`: the text before the first `c`, or all of `s` when there is none. */
  function Before(s: string, c: char): (r: string)
    ensures r <= s && c !in r
    ensures r == s || (|r| < |s| && s[|r|] == c)
  {
    Split(s, c)[0]
  }

  /**
   * `s.split(c, maxsplit=1)` when that yields two parts: the text before the first `c` and everything
   * after it. None when `c` does not occur, so that the list has one element only.
   */
  function SplitOnce(s: string, c: char): (r: Option<(string, string)>)
    ensures r.None? <==> c !in s
    ensures r.Some? ==> s == r.value.0 + [c] + r.value.1 && c !in r.value.0
  {
    if c in s then
      var i := IndexOf(s, c);
      assert s == s[..i] + [c] + s[i + 1..];
      Some((s[..i], s[i + 1..]))
    else None
  }

  /** Splitting on `c` and joining with `c` gives the string back. */
  lemma {:induction false} JoinSplit(s: string, c: char)
    ensures Join(Split(s, c), [c]) == s
    decreases |s|
  {
    if c in s {
      var i := IndexOf(s, c);
      var head, tail := s[..i], s[i + 1..];
      var rest := Split(tail, c);
      JoinSplit(tail, c);
      SplitAt(s, c);
      JoinCons(head, rest, [c]);
      assert s == head + [c] + tail;
    }
  }

  /** The first cut `split` makes. */
  lemma SplitAt(s: string, c: char)
    requires c in s
    ensures Split(s, c) == [s[..IndexOf(s, c)]] + Split(s[IndexOf(s, c) + 1..], c)
  {
  }

  /** Joining pieces free of `c` with `c` and splitting on `c` gives the pieces back. */
  lemma {:induction false} SplitJoin(parts: seq<string>, c: char)
    requires |parts| > 0
    requires forall k :: 0 <= k < |parts| ==> c !in parts[k]
    ensures Split(Join(parts, [c]), c) == parts
    decreases |parts|
  {
    if |parts| > 1 {
      var head, tail := parts[0], parts[1..];
      var rest := Join(tail, [c]);
      var s := head + [c] + rest;
      assert Join(parts, [c]) == s;
      assert c !in head;
      IndexOfAfter(head, c, rest);
      assert s[..|head|] == head;
      assert s[|head| + 1..] == rest;
      assert Split(s, c) == [head] + Split(rest, c);
      assert forall k :: 0 <= k < |tail| ==> c !in tail[k] by {
        forall k | 0 <= k < |tail| ensures c !in tail[k] {
          assert tail[k] == parts[k + 1];
        }
      }
      SplitJoin(tail, c);
      assert parts == [head] + tail;
    }
  }

  /** Joining a tail of the pieces gives a suffix of joining all of them. */
  lemma {:induction false} JoinTailIsSuffix(parts: seq<string>, k: nat, sep: string)
    requires k < |parts|
    ensures IsSuffix(Join(parts[k..], sep), Join(parts, sep))
    decreases k
  {
    if k > 0 {
      JoinTailIsSuffix(parts[1..], k - 1, sep);
      assert parts[1..][k - 1..] == parts[k..];
      var whole := Join(parts, sep);
      assert whole == parts[0] + sep + Join(parts[1..], sep);
      assert IsSuffix(Join(parts[1..], sep), whole);
      SuffixTransitive(Join(parts[k..], sep), Join(parts[1..], sep), whole);
    }
  }

  /** The last `n` pieces of a split, joined again, end the split string and split back into those pieces. */
  lemma SplitTail(s: string, c: char, n: nat)
    requires 0 < n <= |Split(s, c)|
    ensures var parts := Split(s, c);
      var tail := parts[|parts| - n..];
      IsSuffix(Join(tail, [c]), s) && Split(Join(tail, [c]), c) == tail
  {
    var parts := Split(s, c);
    JoinSplit(s, c);
    JoinTailIsSuffix(parts, |parts| - n, [c]);
    SplitPieces(s, c);
    TailRejoined(parts, |parts| - n, c);
  }

  /** A non-empty tail of pieces without the separator splits back into itself once joined. */
  lemma TailRejoined(parts: seq<string>, k: nat, c: char)
    requires k < |parts|
    requires forall i :: 0 <= i < |parts| ==> c !in parts[i]
    ensures Split(Join(parts[k..], [c]), c) == parts[k..]
  {
    var tail := parts[k..];
    assert forall i :: 0 <= i < |tail| ==> tail[i] == parts[k + i];
    SplitJoin(tail, c);
  }

  /** `s.lstrip(c)`: drops every leading `c`. */
  function LStrip(s: string, c: char): (r: string)
    ensures IsSuffix(r, s)
    ensures r == [] || r[0] != c
    ensures forall k :: 0 <= k < |s| - |r| ==> s[k] == c
  {
    if s != [] && s[0] == c then LStrip(s[1..], c) else s
  }

  /** The characters Python's `str.isspace` accepts, the ones `str.strip()` removes. */
  const Whitespace: set<char> := {
    '\t', '\n', '\U{B}', '\U{C}', '\r', '\U{1C}', '\U{1D}', '\U{1E}', '\U{1F}', ' ', '\U{85}', '\U{A0}',
    '\U{1680}', '\U{2000}', '\U{2001}', '\U{2002}', '\U{2003}', '\U{2004}', '\U{2005}', '\U{2006}',
    '\U{2007}', '\U{2008}', '\U{2009}', '\U{200A}', '\U{2028}', '\U{2029}', '\U{202F}', '\U{205F}',
    '\U{3000}'
  }

  function StripStart(s: string): (r: string)
    ensures IsSuffix(r, s)
    ensures r == [] || r[0] !in Whitespace
    ensures forall k :: 0 <= k < |s| - |r| ==> s[k] in Whitespace
  {
    if s != [] && s[0] in Whitespace then StripStart(s[1..]) else s
  }

  function StripEnd(s: string): (r: string)
    ensures r <= s
    ensures r == [] || r[|r| - 1] !in Whitespace
    ensures forall k :: |r| <= k < |s| ==> s[k] in Whitespace
  {
    if s != [] && s[|s| - 1] in Whitespace then StripEnd(s[..|s| - 1]) else s
  }

  /** `s.strip()`: drops leading and trailing whitespace. */
  function Strip(s: string): (r: string)
    ensures r == [] || (r[0] !in Whitespace && r[|r| - 1] !in Whitespace)
    ensures (forall k :: 0 <= k < |s| ==> s[k] !in Whitespace) ==> r == s
  {
    StripStart(StripEnd(s))
  }

  function LowerChar(ch: char): char {
    if 'A' <= ch <= 'Z' then (ch as int + 32) as char else ch
  }

  /** `s.lower()` on the ASCII letters. */
  function Lower(s: string): (r: string)
    ensures |r| == |s|
    ensures forall k :: 0 <= k < |s| ==> r[k] == LowerChar(s[k])
  {
    if s == [] then [] else [LowerChar(s[0])] + Lower(s[1..])
  }

  /** `t in s` on strings: `t` occurs in `s` as a substring. */
  predicate Contains(s: string, t: string)
    decreases |s|
  {
    t <= s || (s != [] && Contains(s[1..], t))
  }

  /** `t` occurs in `s` starting at position `i`. */
  predicate OccursAt(s: string, t: string, i: nat) {
    i + |t| <= |s| && s[i..i + |t|] == t
  }

  /** `Contains` holds exactly when `t` occurs at some position of `s`. */
  lemma {:induction false} ContainsIff(s: string, t: string)
    ensures Contains(s, t) <==> exists i: nat :: OccursAt(s, t, i)
    decreases |s|
  {
    if s == [] {
      if Contains(s, t) {
        assert OccursAt(s, t, 0);
      }
    } else {
      ContainsIff(s[1..], t);
      if t <= s {
        assert OccursAt(s, t, 0);
      } else if Contains(s[1..], t) {
        var i: nat :| OccursAt(s[1..], t, i);
        assert s[i + 1..i + 1 + |t|] == s[1..][i..i + |t|];
        assert OccursAt(s, t, i + 1);
      }
      if exists i: nat :: OccursAt(s, t, i) {
        var i: nat :| OccursAt(s, t, i);
        if i > 0 {
          assert s[1..][i - 1..i - 1 + |t|] == s[i..i + |t|];
          assert OccursAt(s[1..], t, i - 1);
        } else {
          assert t <= s;
        }
      }
    }
  }

  /** Python's `<=` on str: code-point order, a string before its extensions. */
  predicate StrLe(a: string, b: string)
    decreases |a|
  {
    a == [] || (b != [] && (a[0] < b[0] || (a[0] == b[0] && StrLe(a[1..], b[1..]))))
  }

  lemma {:induction false} StrLeTotal(a: string, b: string)
    ensures StrLe(a, b) || StrLe(b, a)
    decreases |a|
  {
    if a != [] && b != [] && a[0] == b[0] {
      StrLeTotal(a[1..], b[1..]);
    }
  }

  predicate Sorted(s: seq<string>) {
    forall k :: 0 < k < |s| ==> StrLe(s[k - 1], s[k])
  }

  lemma SortedCons(h: string, rest: seq<string>)
    requires Sorted(rest) && (rest == [] || StrLe(h, rest[0]))
    ensures Sorted([h] + rest)
  {
    var r := [h] + rest;
    forall k | 0 < k < |r| ensures StrLe(r[k - 1], r[k]) {
      if k > 1 {
        assert r[k - 1] == rest[k - 2] && r[k] == rest[k - 1];
      }
    }
  }

  lemma SortedTail(s: seq<string>)
    requires Sorted(s) && s != []
    ensures Sorted(s[1..])
  {
    forall k | 0 < k < |s| - 1 ensures StrLe(s[1..][k - 1], s[1..][k]) {
      assert s[1..][k - 1] == s[k] && s[1..][k] == s[k + 1];
    }
  }

  function Insert(x: string, s: seq<string>): (r: seq<string>)
    requires Sorted(s)
    ensures Sorted(r) && multiset(r) == multiset(s) + multiset{x}
    ensures |r| > 0 && (r[0] == x || (s != [] && r[0] == s[0]))
  {
    if s == [] || StrLe(x, s[0]) then
      SortedCons(x, s);
      [x] + s
    else
      StrLeTotal(x, s[0]);
      assert s == [s[0]] + s[1..];
      SortedTail(s);
      var rest := Insert(x, s[1..]);
      assert |s| > 1 ==> StrLe(s[0], s[1]);
      SortedCons(s[0], rest);
      [s[0]] + rest
  }

  /** Python's `sorted` on a list of str. */
  function SortStrings(s: seq<string>): (r: seq<string>)
    ensures Sorted(r) && multiset(r) == multiset(s)
  {
    if s == [] then []
    else
      assert s == [s[0]] + s[1..];
      Insert(s[0], SortStrings(s[1..]))
  }
}
