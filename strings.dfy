/** The string operations the dashboard uses: `startsWith`, `includes` on
    strings, the ASCII part of `toLowerCase`/`toUpperCase`, and `length`
    as JavaScript counts it. */
module Strings {
  import Seqs

  /** `s.startsWith(prefix)`. */
  predicate StartsWith(s: string, prefix: string) {
    |prefix| <= |s| && s[..|prefix|] == prefix
  }

  /** `t` occurs in `s` starting at index `i`. */
  predicate OccursAt(s: string, t: string, i: int) {
    0 <= i <= |s| - |t| && s[i..i + |t|] == t
  }

  /** `s.includes(t)`: some position of `s` starts an occurrence of `t`. */
  predicate Contains(s: string, t: string) {
    exists i | 0 <= i <= |s| - |t| :: OccursAt(s, t, i)
  }

  /** Every string contains the empty string. */
  lemma ContainsEmpty(s: string)
    ensures Contains(s, "")
  {
    assert OccursAt(s, "", 0);
  }

  /** Every string contains itself. */
  lemma ContainsSelf(s: string)
    ensures Contains(s, s)
  {
    assert OccursAt(s, s, 0);
  }

  /** A query that mentions a character the string lacks cannot occur in it. */
  lemma NotContainsMissingChar(s: string, t: string, c: char)
    requires c in t && c !in s
    ensures !Contains(s, t)
  {
  }

  /** A query longer than the string cannot occur in it. */
  lemma NotContainsLonger(s: string, t: string)
    requires |s| < |t|
    ensures !Contains(s, t)
  {
  }

  /** If `q + x` occurs in `s`, so does its prefix `q`. */
  lemma ContainsPrefixOfQuery(s: string, q: string, x: string)
    requires Contains(s, q + x)
    ensures Contains(s, q)
  {
    var i :| 0 <= i <= |s| - |q + x| && OccursAt(s, q + x, i);
    assert s[i..i + |q|] == (q + x)[..|q|] == q;
    assert OccursAt(s, q, i);
  }

  predicate IsAsciiUpper(c: char) {
    'A' <= c <= 'Z'
  }

  predicate IsAsciiLower(c: char) {
    'a' <= c <= 'z'
  }

  /** `toLowerCase` on one character, ASCII letters only. */
  function LowerChar(c: char): (r: char)
    ensures IsAsciiUpper(c) ==> IsAsciiLower(r)
    ensures !IsAsciiUpper(c) ==> r == c
  {
    if IsAsciiUpper(c) then (c as int - 'A' as int + 'a' as int) as char else c
  }

  /** `toUpperCase` on one character, ASCII letters only. */
  function UpperChar(c: char): (r: char)
    ensures IsAsciiLower(c) ==> IsAsciiUpper(r)
    ensures !IsAsciiLower(c) ==> r == c
  {
    if IsAsciiLower(c) then (c as int - 'a' as int + 'A' as int) as char else c
  }

  /** `s.toLowerCase()`, ASCII letters only. */
  function Lower(s: string): (r: string)
    ensures |r| == |s|
    ensures forall i :: 0 <= i < |s| ==> r[i] == LowerChar(s[i])
  {
    Seqs.Map(s, LowerChar)
  }

  /** Lower-casing twice is lower-casing once. */
  lemma {:induction false} LowerIdempotent(s: string)
    ensures Lower(Lower(s)) == Lower(s)
  {
    forall i | 0 <= i < |s| ensures Lower(Lower(s))[i] == Lower(s)[i] {
      var c := s[i];
      if IsAsciiUpper(c) {
        assert !IsAsciiUpper(LowerChar(c));
      }
    }
  }

  /** `s.toUpperCase()`, ASCII letters only. */
  function Upper(s: string): (r: string)
    ensures |r| == |s|
    ensures forall i :: 0 <= i < |s| ==> r[i] == UpperChar(s[i])
  {
    Seqs.Map(s, UpperChar)
  }

  /** Upper-casing first does not change the lower-case form. */
  lemma {:induction false} LowerOfUpper(s: string)
    ensures Lower(Upper(s)) == Lower(s)
  {
    forall i | 0 <= i < |s| ensures Lower(Upper(s))[i] == Lower(s)[i] {
      CaseRoundTrip(s[i]);
    }
  }

  /** Upper-casing undoes lower-casing on an ASCII lower-case letter and
      the reverse. */
  lemma CaseRoundTrip(c: char)
    ensures IsAsciiUpper(c) ==> UpperChar(LowerChar(c)) == c
    ensures IsAsciiLower(c) ==> LowerChar(UpperChar(c)) == c
  {
  }

  /** `charAt(0).toUpperCase() + slice(1)`: the first character upper-cased,
      the rest kept; the empty string stays empty. */
  function Capitalize(w: string): (r: string)
    ensures |r| == |w|
    ensures |w| > 0 ==> r[0] == UpperChar(w[0]) && r[1..] == w[1..]
  {
    if w == "" then "" else [UpperChar(w[0])] + w[1..]
  }

  /** Capitalising changes a word only in case. */
  lemma CapitalizeKeepsLower(w: string)
    ensures Lower(Capitalize(w)) == Lower(w)
  {
    if |w| > 0 {
      CaseRoundTrip(w[0]);
      assert Lower(Capitalize(w))[0] == Lower(w)[0];
    }
  }

  /** The index of the first `c` in `s`, or |s| when there is none. */
  function IndexOf(s: string, c: char): (i: nat)
    ensures i <= |s|
    ensures forall j :: 0 <= j < i ==> s[j] != c
    ensures i < |s| ==> s[i] == c
  {
    Seqs.FindIndex(s, (x: char) => x == c)
  }

  /** `s.split(c)`: the pieces between the occurrences of `c`, always at
      least one (the empty string splits into one empty piece). */
  function Split(s: string, c: char): (r: seq<string>)
    ensures |r| >= 1
    ensures forall k :: 0 <= k < |r| ==> c !in r[k]
    decreases |s|
  {
    var i := IndexOf(s, c);
    if i == |s| then [s] else [s[..i]] + Split(s[i + 1..], c)
  }

  /** `ws.join(sep)`. */
  function Join(ws: seq<string>, sep: string): string
  {
    if |ws| == 0 then "" else if |ws| == 1 then ws[0] else ws[0] + sep + Join(ws[1..], sep)
  }

  /** Joining the pieces of a split with the separator gives the string back. */
  lemma {:induction false} SplitJoin(s: string, c: char)
    ensures Join(Split(s, c), [c]) == s
    decreases |s|
  {
    var i := IndexOf(s, c);
    if i < |s| {
      SplitJoin(s[i + 1..], c);
      var rest := Split(s[i + 1..], c);
      assert Split(s, c) == [s[..i]] + rest;
      assert ([s[..i]] + rest)[1..] == rest;
      assert s == s[..i] + [c] + s[i + 1..];
    }
  }

  /** Splitting words that do not contain the separator, once joined, gives
      the words back. */
  lemma {:induction false} JoinSplit(ws: seq<string>, c: char)
    requires |ws| >= 1
    requires forall k :: 0 <= k < |ws| ==> c !in ws[k]
    ensures Split(Join(ws, [c]), c) == ws
    decreases |ws|
  {
    var s := Join(ws, [c]);
    if |ws| == 1 {
      assert IndexOf(s, c) == |s|;
    } else {
      var rest := Join(ws[1..], [c]);
      assert s == ws[0] + [c] + rest;
      assert s[|ws[0]|] == c;
      assert IndexOf(s, c) == |ws[0]|;
      assert s[..|ws[0]|] == ws[0];
      assert s[|ws[0]| + 1..] == rest;
      JoinSplit(ws[1..], c);
      assert ws == [ws[0]] + ws[1..];
    }
  }

  // ---------------------------------------------------------------------
  // Lengths as JavaScript counts them
  // ---------------------------------------------------------------------

  /** Whether `c` lies outside the Basic Multilingual Plane, where UTF-16
      spends two code units on it. */
  predicate IsAstral(c: char) {
    c as int >= 0x10000
  }

  /** `s.length`: the number of UTF-16 code units, one per character of the
      Basic Multilingual Plane and two for every other character. */
  function JsLength(s: string): (n: nat)
    ensures |s| <= n <= 2 * |s|
    ensures n == |s| <==> forall i :: 0 <= i < |s| ==> !IsAstral(s[i])
  {
    if s == [] then 0
    else
      assert forall i :: 1 <= i < |s| ==> s[i] == s[1..][i - 1];
      (if IsAstral(s[0]) then 2 else 1) + JsLength(s[1..])
  }

  /** One emoji is one character here and two code units in JavaScript. */
  lemma AstralLength()
    ensures |"\U{1F600}"| == 1 && JsLength("\U{1F600}") == 2
  {
    assert IsAstral("\U{1F600}"[0]);
  }
}
