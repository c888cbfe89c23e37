/** The array methods the dashboard leans on (`includes`, `some`, `every`,
    `filter`, `map`, `find`, `flatMap`), written as recursive functions whose
    contracts give their meaning, plus the facts about them that the page
    models reuse. */
module Seqs {
  import opened Options

  /** `xs.includes(x)`: a linear scan for `x`. */
  function Includes<T(==)>(xs: seq<T>, x: T): (r: bool)
    ensures r <==> x in xs
  {
    if xs == [] then false else xs[0] == x || Includes(xs[1..], x)
  }

  /** `xs.some(f)`. */
  function Any<T>(xs: seq<T>, f: T -> bool): (r: bool)
    ensures r <==> exists i :: 0 <= i < |xs| && f(xs[i])
  {
    if xs == [] then false
    else
      var rest := Any(xs[1..], f);
      assert forall i :: 0 < i < |xs| ==> xs[i] == xs[1..][i - 1];
      f(xs[0]) || rest
  }

  /** `xs.every(f)`. */
  function All<T>(xs: seq<T>, f: T -> bool): (r: bool)
    ensures r <==> forall i :: 0 <= i < |xs| ==> f(xs[i])
  {
    if xs == [] then true
    else
      var rest := All(xs[1..], f);
      assert forall i :: 0 < i < |xs| ==> xs[i] == xs[1..][i - 1];
      f(xs[0]) && rest
  }

  /** `xs.filter(f)`: keeps exactly the elements satisfying `f`. */
  function Filter<T(!new)>(xs: seq<T>, f: T -> bool): (r: seq<T>)
    ensures |r| <= |xs|
    ensures forall x :: x in r <==> x in xs && f(x)
  {
    if xs == [] then []
    else if f(xs[0]) then [xs[0]] + Filter(xs[1..], f)
    else Filter(xs[1..], f)
  }

  /** `xs.map(f)`. */
  function Map<T, U>(xs: seq<T>, f: T -> U): (r: seq<U>)
    ensures |r| == |xs|
    ensures forall i :: 0 <= i < |xs| ==> r[i] == f(xs[i])
  {
    if xs == [] then [] else [f(xs[0])] + Map(xs[1..], f)
  }

  /** The index of the first element satisfying `f`, or |xs| when none does. */
  function FindIndex<T>(xs: seq<T>, f: T -> bool): (i: nat)
    ensures i <= |xs|
    ensures forall j :: 0 <= j < i ==> !f(xs[j])
    ensures i < |xs| ==> f(xs[i])
  {
    if xs == [] then 0
    else if f(xs[0]) then 0
    else
      var k := FindIndex(xs[1..], f);
      assert forall j :: 0 < j < |xs| ==> xs[j] == xs[1..][j - 1];
      k + 1
  }

  /** `xs.find(f)`: the first element satisfying `f`, if any. */
  function Find<T>(xs: seq<T>, f: T -> bool): (r: Option<T>)
    ensures r.None? <==> forall i :: 0 <= i < |xs| ==> !f(xs[i])
    ensures r.Some? ==> exists i :: 0 <= i < |xs| && xs[i] == r.value && f(xs[i]) &&
                                    forall j :: 0 <= j < i ==> !f(xs[j])
  {
    var i := FindIndex(xs, f);
    if i < |xs| then Some(xs[i]) else None
  }

  /** How many of `xs[i..]` equal `x`, counted by index so that it can be
      worked out on a literal list. */
  function CountFrom<T(==)>(xs: seq<T>, x: T, i: nat): nat
    requires i <= |xs|
    decreases |xs| - i
  {
    if i == |xs| then 0 else (if xs[i] == x then 1 else 0) + CountFrom(xs, x, i + 1)
  }

  /** Concatenation of a sequence of sequences (the flattening half of `flatMap`). */
  function Flatten<T>(xss: seq<seq<T>>): seq<T> {
    if xss == [] then [] else xss[0] + Flatten(xss[1..])
  }

  /** No element occurs twice. */
  predicate Distinct<T(==)>(xs: seq<T>) {
    forall i, j :: 0 <= i < j < |xs| ==> xs[i] != xs[j]
  }

  /** `a` can be obtained from `b` by deleting elements: `a` keeps the
      order of `b`. */
  predicate IsSubsequence<T(==)>(a: seq<T>, b: seq<T>)
    decreases |b|
  {
    a == [] ||
    (b != [] && ((a[0] == b[0] && IsSubsequence(a[1..], b[1..])) || IsSubsequence(a, b[1..])))
  }

  lemma {:induction false} IsSubsequenceReflexive<T>(a: seq<T>)
    ensures IsSubsequence(a, a)
    decreases |a|
  {
    if a != [] {
      IsSubsequenceReflexive(a[1..]);
    }
  }

  lemma {:induction false} SubsequenceContained<T>(a: seq<T>, b: seq<T>)
    requires IsSubsequence(a, b)
    ensures |a| <= |b|
    ensures forall x :: x in a ==> x in b
    decreases |b|
  {
    if a == [] {
    } else if a[0] == b[0] && IsSubsequence(a[1..], b[1..]) {
      SubsequenceContained(a[1..], b[1..]);
      assert a == [a[0]] + a[1..] && b == [b[0]] + b[1..];
    } else {
      SubsequenceContained(a, b[1..]);
      assert b == [b[0]] + b[1..];
    }
  }

  lemma {:induction false} SubsequenceDistinct<T>(a: seq<T>, b: seq<T>)
    requires IsSubsequence(a, b) && Distinct(b)
    ensures Distinct(a)
    decreases |b|
  {
    if a == [] {
    } else if a[0] == b[0] && IsSubsequence(a[1..], b[1..]) {
      SubsequenceDistinct(a[1..], b[1..]);
      SubsequenceContained(a[1..], b[1..]);
      assert b[0] !in b[1..];
      forall i, j | 0 <= i < j < |a| ensures a[i] != a[j] {
        if i == 0 {
          assert a[j] == a[1..][j - 1];
        } else {
          assert a[i] == a[1..][i - 1] && a[j] == a[1..][j - 1];
        }
      }
    } else {
      SubsequenceDistinct(a, b[1..]);
    }
  }

  lemma {:induction false} FilterIsSubsequence<T(!new)>(xs: seq<T>, f: T -> bool)
    ensures IsSubsequence(Filter(xs, f), xs)
  {
    if xs != [] {
      FilterIsSubsequence(xs[1..], f);
    }
  }

  lemma {:induction false} FilterAppend<T(!new)>(xs: seq<T>, ys: seq<T>, f: T -> bool)
    ensures Filter(xs + ys, f) == Filter(xs, f) + Filter(ys, f)
  {
    if xs == [] {
      assert xs + ys == ys;
    } else {
      assert (xs + ys)[1..] == xs[1..] + ys;
      FilterAppend(xs[1..], ys, f);
    }
  }

  lemma {:induction false} MapAppend<T, U>(xs: seq<T>, ys: seq<T>, f: T -> U)
    ensures Map(xs + ys, f) == Map(xs, f) + Map(ys, f)
  {
  }

  /** Regrouping a concatenation of seven parts into its first four and last three. */
  lemma AppendRegroup<T>(a: seq<T>, b: seq<T>, c: seq<T>, d: seq<T>, e: seq<T>, f: seq<T>, g: seq<T>)
    ensures a + b + c + d + e + f + g == (a + b + c + d) + (e + f + g)
  {
  }

  /** A filter that rejects nothing is the identity. */
  lemma {:induction false} FilterKeepsAll<T(!new)>(xs: seq<T>, f: T -> bool)
    requires forall i :: 0 <= i < |xs| ==> f(xs[i])
    ensures Filter(xs, f) == xs
  {
    if xs != [] {
      FilterKeepsAll(xs[1..], f);
      assert f(xs[0]) && xs == [xs[0]] + xs[1..];
    }
  }

  /** Two tests that agree on every element keep the same elements. */
  lemma {:induction false} FilterSameTest<T(!new)>(xs: seq<T>, f: T -> bool, g: T -> bool)
    requires forall x :: x in xs ==> (f(x) <==> g(x))
    ensures Filter(xs, f) == Filter(xs, g)
  {
    if xs != [] {
      assert forall x :: x in xs[1..] ==> x in xs;
      FilterSameTest(xs[1..], f, g);
    }
  }

  /** Two filters can be applied in either order. */
  lemma {:induction false} FilterCommute<T(!new)>(xs: seq<T>, f: T -> bool, g: T -> bool)
    ensures Filter(Filter(xs, f), g) == Filter(Filter(xs, g), f)
  {
    if xs != [] {
      FilterCommute(xs[1..], f, g);
      var x, rest := xs[0], xs[1..];
      if f(x) {
        assert ([x] + Filter(rest, f))[1..] == Filter(rest, f);
      }
      if g(x) {
        assert ([x] + Filter(rest, g))[1..] == Filter(rest, g);
      }
    }
  }

  /** A filter that rejects everything gives the empty sequence. */
  lemma {:induction false} FilterRejectsAll<T(!new)>(xs: seq<T>, f: T -> bool)
    requires forall i :: 0 <= i < |xs| ==> !f(xs[i])
    ensures Filter(xs, f) == []
  {
    if xs != [] {
      FilterRejectsAll(xs[1..], f);
    }
  }

  /** A filter that keeps every element but the last drops exactly the last. */
  lemma {:induction false} FilterDropsLast<T(!new)>(xs: seq<T>, f: T -> bool)
    requires xs != []
    requires forall i :: 0 <= i < |xs| - 1 ==> f(xs[i])
    requires !f(xs[|xs| - 1])
    ensures Filter(xs, f) == xs[..|xs| - 1]
  {
    if |xs| > 1 {
      FilterDropsLast(xs[1..], f);
      assert xs[..|xs| - 1] == [xs[0]] + xs[1..][..|xs| - 2];
    }
  }

  /** A filter that keeps the first element and no other gives that element alone. */
  lemma FilterKeepsFirst<T(!new)>(xs: seq<T>, f: T -> bool)
    requires xs != [] && f(xs[0])
    requires forall i :: 1 <= i < |xs| ==> !f(xs[i])
    ensures Filter(xs, f) == xs[..1]
  {
    FilterRejectsAll(xs[1..], f);
  }

  /** A stronger test keeps a subsequence of what a weaker one keeps. */
  lemma {:induction false} FilterStronger<T(!new)>(xs: seq<T>, g: T -> bool, f: T -> bool)
    requires forall x :: x in xs && g(x) ==> f(x)
    ensures IsSubsequence(Filter(xs, g), Filter(xs, f))
  {
    if xs != [] {
      FilterStronger(xs[1..], g, f);
      var a, b := Filter(xs[1..], g), Filter(xs[1..], f);
      if g(xs[0]) {
        assert Filter(xs, g) == [xs[0]] + a && Filter(xs, f) == [xs[0]] + b;
      } else if f(xs[0]) {
        assert Filter(xs, f)[1..] == b;
      }
    }
  }

  /** Two tests that never both hold keep at most |xs| elements together. */
  lemma {:induction false} FilterDisjointLength<T(!new)>(xs: seq<T>, f: T -> bool, g: T -> bool)
    requires forall x :: x in xs ==> !(f(x) && g(x))
    ensures |Filter(xs, f)| + |Filter(xs, g)| <= |xs|
  {
    if xs != [] {
      FilterDisjointLength(xs[1..], f, g);
    }
  }

  /** Two tests of which exactly one holds split xs between them. */
  lemma {:induction false} FilterPartitionLength<T(!new)>(xs: seq<T>, f: T -> bool, g: T -> bool)
    requires forall x :: x in xs ==> f(x) != g(x)
    ensures |Filter(xs, f)| + |Filter(xs, g)| == |xs|
  {
    if xs != [] {
      FilterPartitionLength(xs[1..], f, g);
    }
  }

  /** Filtering keeps the subsequence relation. */
  lemma {:induction false} FilterOfSubsequence<T(!new)>(a: seq<T>, b: seq<T>, f: T -> bool)
    requires IsSubsequence(a, b)
    ensures IsSubsequence(Filter(a, f), Filter(b, f))
    decreases |b|
  {
    if a == [] {
    } else if a[0] == b[0] && IsSubsequence(a[1..], b[1..]) {
      FilterOfSubsequence(a[1..], b[1..], f);
      if f(a[0]) {
        assert Filter(a, f) == [a[0]] + Filter(a[1..], f);
        assert Filter(b, f) == [b[0]] + Filter(b[1..], f);
      } else {
        assert Filter(a, f) == Filter(a[1..], f);
      }
    } else {
      FilterOfSubsequence(a, b[1..], f);
      if f(b[0]) {
        assert Filter(b, f)[1..] == Filter(b[1..], f);
      }
    }
  }
}
