/** Sequence operations behind the source's list comprehensions, `filter` calls and slices. */
module Seqs {

  /** Python's s[:n] / JavaScript's slice(0, n). */
  function Take<T>(s: seq<T>, n: nat): (r: seq<T>)
    ensures |r| == if |s| <= n then |s| else n
    ensures r == s[..|r|]
  {
    if |s| <= n then s else s[..n]
  }

  /** `[x for x in s if p(x)]`, defined from the back so that a loop that appends
      can keep it as its invariant. */
  function Filter<T>(s: seq<T>, p: T -> bool): (r: seq<T>)
    ensures |r| <= |s|
    ensures forall x :: x in r ==> x in s && p(x)
  {
    if s == [] then []
    else Filter(s[..|s| - 1], p) + (if p(s[|s| - 1]) then [s[|s| - 1]] else [])
  }

  /** [f(x) for x in s], defined from the back like Filter. */
  function Map<T, U>(s: seq<T>, f: T -> U): (r: seq<U>)
    ensures |r| == |s|
  {
    if s == [] then [] else Map(s[..|s| - 1], f) + [f(s[|s| - 1])]
  }

  lemma {:induction false} MapIndex<T, U>(s: seq<T>, f: T -> U, i: nat)
    requires i < |s|
    ensures Map(s, f)[i] == f(s[i])
    decreases |s|
  {
    if i < |s| - 1 {
      assert s[..|s| - 1][i] == s[i];
      MapIndex(s[..|s| - 1], f, i);
    }
  }

  lemma MapMember<T, U>(s: seq<T>, f: T -> U, i: nat)
    requires i < |s|
    ensures f(s[i]) in Map(s, f)
  {
    MapIndex(s, f, i);
  }

  lemma MapWitness<T, U>(s: seq<T>, f: T -> U, y: U) returns (i: nat)
    requires y in Map(s, f)
    ensures i < |s| && y == f(s[i])
  {
    var m := Map(s, f);
    var j :| 0 <= j < |m| && m[j] == y;
    MapIndex(s, f, j);
    i := j;
  }

  lemma {:induction false} SubsetSize<T>(a: set<T>, b: set<T>)
    requires a <= b
    ensures |a| <= |b|
    decreases |a|
  {
    if a != {} {
      var x :| x in a;
      SubsetSize(a - {x}, b - {x});
    }
  }

  lemma MapElements<T, U>(s: seq<T>, f: T -> U)
    ensures forall i :: 0 <= i < |s| ==> Map(s, f)[i] == f(s[i])
  {
    forall i | 0 <= i < |s|
      ensures Map(s, f)[i] == f(s[i])
    {
      MapIndex(s, f, i);
    }
  }

  /** Number of elements satisfying p: `len([x for x in s if p(x)])`. */
  function Count<T>(s: seq<T>, p: T -> bool): nat {
    |Filter(s, p)|
  }

  /** `a` is `b` with some elements left out, the rest in their order. */
  predicate IsSubsequence<T(==)>(a: seq<T>, b: seq<T>) {
    if a == [] then true
    else if b == [] then false
    else if a[|a| - 1] == b[|b| - 1] then IsSubsequence(a[..|a| - 1], b[..|b| - 1])
    else IsSubsequence(a, b[..|b| - 1])
  }

  lemma MapAppend<T, U>(a: seq<T>, x: T, f: T -> U)
    ensures Map(a + [x], f) == Map(a, f) + [f(x)]
  {
    assert (a + [x])[..|a|] == a;
  }

  lemma AppendAssoc<T>(a: seq<T>, b: seq<T>, c: seq<T>)
    ensures (a + b) + c == a + (b + c)
  {
  }

  /** One more element of s mapped. */
  lemma MapStep<T, U>(s: seq<T>, i: nat, f: T -> U)
    requires i < |s|
    ensures Map(s[..i + 1], f) == Map(s[..i], f) + [f(s[i])]
  {
    assert s[..i + 1][..i] == s[..i];
  }

  lemma {:induction false} MapPrefix<T, U>(s: seq<T>, n: nat, f: T -> U)
    requires n <= |s|
    ensures Map(s[..n], f) == Map(s, f)[..n]
    decreases |s|
  {
    if n == |s| {
      assert s[..n] == s;
    } else {
      MapPrefix(s[..|s| - 1], n, f);
      assert s[..|s| - 1][..n] == s[..n];
    }
  }

  /** One more element of s filtered. */
  lemma FilterStep<T>(s: seq<T>, i: nat, p: T -> bool)
    requires i < |s|
    ensures p(s[i]) ==> Filter(s[..i + 1], p) == Filter(s[..i], p) + [s[i]]
    ensures !p(s[i]) ==> Filter(s[..i + 1], p) == Filter(s[..i], p)
  {
    assert s[..i + 1][..i] == s[..i];
  }

  /** The size of the filter grows by one exactly at each element that satisfies p. */
  lemma FilterSizeStep<T>(s: seq<T>, i: nat, p: T -> bool)
    requires i < |s|
    ensures |Filter(s[..i + 1], p)| == |Filter(s[..i], p)| + (if p(s[i]) then 1 else 0)
  {
    FilterStep(s, i, p);
  }

  /** Filters by predicates that agree on the elements give the same result. */
  lemma {:induction false} FilterCongruent<T>(s: seq<T>, p: T -> bool, q: T -> bool)
    requires forall i :: 0 <= i < |s| ==> p(s[i]) == q(s[i])
    ensures Filter(s, p) == Filter(s, q)
  {
    if s != [] {
      FilterCongruent(s[..|s| - 1], p, q);
    }
  }

  /** Two filters may be applied in either order. */
  lemma {:induction false} FilterCommute<T>(s: seq<T>, p: T -> bool, q: T -> bool)
    ensures Filter(Filter(s, p), q) == Filter(Filter(s, q), p)
  {
    if s != [] {
      var s', x := s[..|s| - 1], s[|s| - 1];
      FilterCommute(s', p, q);
      FilterAppend(Filter(s', p), if p(x) then [x] else [], q);
      FilterAppend(Filter(s', q), if q(x) then [x] else [], p);
    }
  }

  lemma {:induction false} FilterAppend<T>(a: seq<T>, b: seq<T>, p: T -> bool)
    ensures Filter(a + b, p) == Filter(a, p) + Filter(b, p)
    decreases |b|
  {
    if b != [] {
      var b' := b[..|b| - 1];
      assert (a + b)[..|a + b| - 1] == a + b';
      FilterAppend(a, b', p);
    } else {
      assert a + b == a;
    }
  }

  /** The loop `for x in s: if p(x): r.append(f(x))`. */
  method FilterThenMap<T, U>(s: seq<T>, p: T -> bool, f: T -> U) returns (r: seq<U>)
    ensures r == Map(Filter(s, p), f)
  {
    r := [];
    var i := 0;
    while i < |s|
      invariant 0 <= i <= |s|
      invariant r == Map(Filter(s[..i], p), f)
    {
      FilterStep(s, i, p);
      if p(s[i]) {
        MapAppend(Filter(s[..i], p), s[i], f);
        r := r + [f(s[i])];
      }
      i := i + 1;
    }
    assert s[..i] == s;
  }

  /** The loop `for x in s: y = f(x); if p(y): r.append(y)`. */
  method MapThenFilter<T, U>(s: seq<T>, f: T -> U, p: U -> bool) returns (r: seq<U>)
    ensures r == Filter(Map(s, f), p)
  {
    r := [];
    var i := 0;
    while i < |s|
      invariant 0 <= i <= |s|
      invariant r == Filter(Map(s[..i], f), p)
    {
      var y := f(s[i]);
      MapStep(s, i, f);
      FilterAppend(Map(s[..i], f), [y], p);
      if p(y) {
        r := r + [y];
      } else {
        assert r + [] == r;
      }
      i := i + 1;
    }
    assert s[..i] == s;
  }

  /** Every element that satisfies p is kept. */
  lemma {:induction false} FilterKeeps<T>(s: seq<T>, p: T -> bool, x: T)
    requires x in s && p(x)
    ensures x in Filter(s, p)
  {
    if x != s[|s| - 1] {
      assert x in s[..|s| - 1] by {
        var i :| 0 <= i < |s| && s[i] == x;
        assert s[..|s| - 1][i] == x;
      }
      FilterKeeps(s[..|s| - 1], p, x);
    }
  }

  /** Every element kept satisfies p and every element satisfying p is kept. */
  lemma FilterMembership<T>(s: seq<T>, p: T -> bool, x: T)
    ensures x in Filter(s, p) <==> x in s && p(x)
  {
    if x in s && p(x) {
      FilterKeeps(s, p, x);
    }
  }

  lemma {:induction false} FilterAll<T>(s: seq<T>, p: T -> bool)
    requires forall i :: 0 <= i < |s| ==> p(s[i])
    ensures Filter(s, p) == s
  {
    if s != [] {
      var s' := s[..|s| - 1];
      assert forall i :: 0 <= i < |s'| ==> p(s'[i]) by {
        forall i | 0 <= i < |s'| ensures p(s'[i]) {
          assert s'[i] == s[i];
        }
      }
      FilterAll(s', p);
      assert s' + [s[|s| - 1]] == s;
    }
  }

  lemma {:induction false} FilterNone<T>(s: seq<T>, p: T -> bool)
    requires forall i :: 0 <= i < |s| ==> !p(s[i])
    ensures Filter(s, p) == []
  {
    if s != [] {
      var s' := s[..|s| - 1];
      assert forall i :: 0 <= i < |s'| ==> !p(s'[i]) by {
        forall i | 0 <= i < |s'| ensures !p(s'[i]) {
          assert s'[i] == s[i];
        }
      }
      FilterNone(s', p);
    }
  }

  /** Filtering keeps the survivors in their original order. */
  lemma {:induction false} FilterIsSubsequence<T>(s: seq<T>, p: T -> bool)
    ensures IsSubsequence(Filter(s, p), s)
  {
    if s != [] {
      var s' := s[..|s| - 1];
      var x := s[|s| - 1];
      FilterIsSubsequence(s', p);
      if p(x) {
        assert (Filter(s', p) + [x])[..|Filter(s', p)|] == Filter(s', p);
      } else {
        var f := Filter(s', p);
        assert Filter(s, p) == f;
        if f != [] {
          assert f[|f| - 1] in f;
        }
      }
    }
  }

  lemma {:induction false} SubsequenceEmpty<T>(b: seq<T>)
    ensures IsSubsequence([], b)
  {
  }

  /** Mapping a function over both sides keeps the relation. */
  lemma {:induction false} MapSubsequence<T, U>(a: seq<T>, b: seq<T>, f: T -> U)
    requires IsSubsequence(a, b)
    ensures IsSubsequence(Map(a, f), Map(b, f))
    decreases |a| + |b|
  {
    if a != [] {
      var ma, mb := Map(a, f), Map(b, f);
      assert Map(b[..|b| - 1], f) == mb[..|mb| - 1];
      if a[|a| - 1] == b[|b| - 1] {
        assert Map(a[..|a| - 1], f) == ma[..|ma| - 1];
        MapSubsequence(a[..|a| - 1], b[..|b| - 1], f);
      } else {
        MapSubsequence(a, b[..|b| - 1], f);
        if ma[|ma| - 1] == mb[|mb| - 1] {
          SubsequenceDropLast(ma, mb[..|mb| - 1]);
        }
      }
    }
  }

  /** Dropping the last element of the smaller side keeps the relation. */
  lemma {:induction false} SubsequenceDropLast<T>(a: seq<T>, b: seq<T>)
    requires a != [] && IsSubsequence(a, b)
    ensures IsSubsequence(a[..|a| - 1], b)
    decreases |a| + |b|, 0
  {
    assert b != [];
    if a[|a| - 1] == b[|b| - 1] {
      SubsequenceWeaken(a[..|a| - 1], b[..|b| - 1], b[|b| - 1]);
      assert b[..|b| - 1] + [b[|b| - 1]] == b;
    } else {
      SubsequenceDropLast(a, b[..|b| - 1]);
      SubsequenceWeaken(a[..|a| - 1], b[..|b| - 1], b[|b| - 1]);
      assert b[..|b| - 1] + [b[|b| - 1]] == b;
    }
  }

  /** Appending to the larger side keeps the relation. */
  lemma {:induction false} SubsequenceWeaken<T>(a: seq<T>, b: seq<T>, x: T)
    requires IsSubsequence(a, b)
    ensures IsSubsequence(a, b + [x])
    decreases |a| + |b|, 1
  {
    var bx := b + [x];
    assert bx[..|bx| - 1] == b;
    if a != [] && a[|a| - 1] == x {
      SubsequenceDropLast(a, b);
    }
  }

  /** A prefix is a subsequence. */
  lemma {:induction false} PrefixIsSubsequence<T>(s: seq<T>, n: nat)
    requires n <= |s|
    ensures IsSubsequence(s[..n], s)
    decreases |s|
  {
    if n == |s| {
      assert s[..n] == s;
      SubsequenceRefl(s);
    } else {
      PrefixIsSubsequence(s[..|s| - 1], n);
      assert s[..|s| - 1][..n] == s[..n];
      SubsequenceWeaken(s[..n], s[..|s| - 1], s[|s| - 1]);
      assert s[..|s| - 1] + [s[|s| - 1]] == s;
    }
  }

  lemma {:induction false} SubsequenceRefl<T>(s: seq<T>)
    ensures IsSubsequence(s, s)
  {
    if s != [] {
      SubsequenceRefl(s[..|s| - 1]);
    }
  }

  lemma {:induction false} SubsequenceTransitive<T>(a: seq<T>, b: seq<T>, c: seq<T>)
    requires IsSubsequence(a, b) && IsSubsequence(b, c)
    ensures IsSubsequence(a, c)
    decreases |c|
  {
    if a != [] {
      assert b != [] && c != [];
      var c' := c[..|c| - 1];
      if b[|b| - 1] == c[|c| - 1] {
        if a[|a| - 1] == b[|b| - 1] {
          SubsequenceTransitive(a[..|a| - 1], b[..|b| - 1], c');
        } else {
          SubsequenceTransitive(a, b[..|b| - 1], c');
        }
      } else {
        SubsequenceTransitive(a, b, c');
        SubsequenceWeaken(a, c', c[|c| - 1]);
        assert c' + [c[|c| - 1]] == c;
      }
    }
  }

  /** The survivors of a prefix never outnumber those of a longer prefix. */
  lemma {:induction false} PrefixFilterGrows<T>(s: seq<T>, p: T -> bool, m: nat, n: nat)
    requires m <= n <= |s|
    ensures |Filter(s[..m], p)| <= |Filter(s[..n], p)|
    decreases n - m
  {
    if m < n {
      PrefixFilterGrows(s, p, m, n - 1);
      FilterStep(s, n - 1, p);
    }
  }

  /** A position j at or after m that satisfies p adds a survivor. */
  lemma FilterGrowsAt<T>(s: seq<T>, p: T -> bool, m: nat, j: nat)
    requires m <= j < |s| && p(s[j])
    ensures |Filter(s[..m], p)| + 1 <= |Filter(s[..j + 1], p)|
  {
    PrefixFilterGrows(s, p, m, j);
    FilterStep(s, j, p);
  }

  /** Three positions i < j < k that satisfy p leave at least three survivors. */
  lemma IndicesInFilter<T>(s: seq<T>, p: T -> bool, i: nat, j: nat, k: nat)
    requires i < j < k < |s| && p(s[i]) && p(s[j]) && p(s[k])
    ensures |Filter(s, p)| >= 3
  {
    ThreeIndicesInPrefix(s, p, i, j, k);
    PrefixFilterBounded(s, p, k + 1);
  }

  lemma ThreeIndicesInPrefix<T>(s: seq<T>, p: T -> bool, i: nat, j: nat, k: nat)
    requires i < j < k < |s| && p(s[i]) && p(s[j]) && p(s[k])
    ensures |Filter(s[..k + 1], p)| >= 3
  {
    TwoIndicesInPrefix(s, p, i, j);
    FilterGrowsAt(s, p, j + 1, k);
  }

  /** A prefix has no more survivors than the whole sequence. */
  lemma PrefixFilterBounded<T>(s: seq<T>, p: T -> bool, m: nat)
    requires m <= |s|
    ensures |Filter(s[..m], p)| <= |Filter(s, p)|
  {
    PrefixFilterGrows(s, p, m, |s|);
    assert s[..|s|] == s;
  }

  lemma TwoIndicesInPrefix<T>(s: seq<T>, p: T -> bool, i: nat, j: nat)
    requires i < j < |s| && p(s[i]) && p(s[j])
    ensures |Filter(s[..j + 1], p)| >= 2
  {
    FilterGrowsAt(s, p, 0, i);
    FilterGrowsAt(s, p, i + 1, j);
  }

  lemma OneSurvivor<T>(s: seq<T>, p: T -> bool) returns (a: nat)
    requires |Filter(s, p)| >= 1
    ensures a < |s| && p(s[a])
  {
    var x := Filter(s, p)[0];
    assert x in Filter(s, p);
    a :| 0 <= a < |s| && s[a] == x;
  }

  lemma {:induction false} TwoSurvivors<T>(s: seq<T>, p: T -> bool) returns (a: nat, b: nat)
    requires |Filter(s, p)| >= 2
    ensures a < b < |s| && p(s[a]) && p(s[b])
  {
    var n := |s| - 1;
    var s' := s[..n];
    if p(s[n]) && |Filter(s', p)| == 1 {
      a := OneSurvivor(s', p);
      b := n;
    } else {
      a, b := TwoSurvivors(s', p);
    }
  }

  /** Three survivors of a filter come from three increasing positions. */
  lemma {:induction false} ThreeSurvivors<T>(s: seq<T>, p: T -> bool) returns (a: nat, b: nat, c: nat)
    requires |Filter(s, p)| >= 3
    ensures a < b < c < |s| && p(s[a]) && p(s[b]) && p(s[c])
  {
    var n := |s| - 1;
    var s' := s[..n];
    if p(s[n]) && |Filter(s', p)| == 2 {
      a, b := TwoSurvivors(s', p);
      c := n;
    } else {
      a, b, c := ThreeSurvivors(s', p);
    }
  }

  /** When every element satisfies exactly one of p, q and r, the sizes of the three
      filters add up to the length. */
  lemma {:induction false} FilterPartition3<T>(s: seq<T>, p: T -> bool, q: T -> bool, r: T -> bool)
    requires forall i :: 0 <= i < |s| ==>
      (if p(s[i]) then 1 else 0) + (if q(s[i]) then 1 else 0) + (if r(s[i]) then 1 else 0) == 1
    ensures |Filter(s, p)| + |Filter(s, q)| + |Filter(s, r)| == |s|
  {
    if s != [] {
      var s' := s[..|s| - 1];
      assert forall i :: 0 <= i < |s'| ==> s'[i] == s[i];
      FilterPartition3(s', p, q, r);
    }
  }

  /** Sizes of filters by two predicates no element satisfies both of add up to the size
      of the filter by their disjunction. */
  lemma {:induction false} FilterDisjoint<T>(s: seq<T>, p: T -> bool, q: T -> bool, pq: T -> bool)
    requires forall i :: 0 <= i < |s| ==> !(p(s[i]) && q(s[i])) && (pq(s[i]) <==> p(s[i]) || q(s[i]))
    ensures |Filter(s, p)| + |Filter(s, q)| == |Filter(s, pq)|
  {
    if s != [] {
      var s' := s[..|s| - 1];
      assert forall i :: 0 <= i < |s'| ==> s'[i] == s[i];
      FilterDisjoint(s', p, q, pq);
    }
  }

  /** A kept element with fewer than n kept elements before it is among the first n kept. */
  lemma TakeFilterKeepsEarly<T>(s: seq<T>, p: T -> bool, n: nat, i: nat)
    requires i < |s| && p(s[i]) && Count(s[..i], p) < n
    ensures s[i] in Take(Filter(s, p), n)
  {
    FilterStep(s, i, p);
    assert s == s[..i + 1] + s[i + 1..];
    FilterAppend(s[..i + 1], s[i + 1..], p);
    var k := |Filter(s[..i], p)|;
    assert Filter(s, p)[k] == s[i];
    assert Take(Filter(s, p), n)[k] == s[i];
  }

  /** The same through a map: a mapped element that is kept, with fewer than n kept
      before it, is among the first n kept. */
  lemma TakeFilterMapKeepsEarly<T, U>(s: seq<T>, f: T -> U, p: U -> bool, n: nat, i: nat)
    requires i < |s| && p(f(s[i])) && Count(Map(s[..i], f), p) < n
    ensures f(s[i]) in Take(Filter(Map(s, f), p), n)
  {
    MapPrefix(s, i, f);
    MapIndex(s, f, i);
    TakeFilterKeepsEarly(Map(s, f), p, n, i);
  }

  /** When the cap is not reached, every mapped element that is kept is in the result. */
  lemma TakeFilterMapComplete<T, U>(s: seq<T>, f: T -> U, p: U -> bool, n: nat, x: T)
    requires x in s && p(f(x)) && |Take(Filter(Map(s, f), p), n)| < n
    ensures f(x) in Take(Filter(Map(s, f), p), n)
  {
    var i :| 0 <= i < |s| && s[i] == x;
    MapMember(s, f, i);
    FilterKeeps(Map(s, f), p, f(x));
  }
}
