/** Sequence and multiset facts shared by the models. */
module Collections {

  datatype Option<+T> = None | Some(value: T)

  /** The sequential meaning of a processing stage: keep the defined results, in order. */
  function FilterMap<I, O>(keep: I -> Option<O>, s: seq<I>): (r: seq<O>)
    ensures |r| <= |s|
  {
    if s == [] then []
    else
      var last := s[|s| - 1];
      FilterMap(keep, s[..|s| - 1]) + (if keep(last).Some? then [keep(last).value] else [])
  }

  lemma FilterMapAppend<I, O>(keep: I -> Option<O>, s: seq<I>, x: I)
    ensures FilterMap(keep, s + [x]) == FilterMap(keep, s) + (if keep(x).Some? then [keep(x).value] else [])
  {
    assert (s + [x])[..|s|] == s;
  }

  lemma {:induction false} FilterMapConcat<I, O>(keep: I -> Option<O>, a: seq<I>, b: seq<I>)
    ensures FilterMap(keep, a + b) == FilterMap(keep, a) + FilterMap(keep, b)
    decreases |b|
  {
    if b == [] {
      assert a + b == a;
    } else {
      var n := |b| - 1;
      assert a + b == (a + b[..n]) + [b[n]];
      assert b == b[..n] + [b[n]];
      FilterMapConcat(keep, a, b[..n]);
      FilterMapAppend(keep, a + b[..n], b[n]);
    }
  }

  lemma {:induction false} FilterMapAll<I, O>(keep: I -> Option<O>, s: seq<I>)
    requires forall x <- s :: keep(x).Some?
    ensures |FilterMap(keep, s)| == |s|
    decreases |s|
  {
    if s == [] {
    } else {
      FilterMapAll(keep, s[..|s| - 1]);
    }
  }

  /** Filtering a prefix gives a prefix. */
  lemma FilterMapPrefix<I, O>(keep: I -> Option<O>, a: seq<I>, b: seq<I>)
    requires a <= b
    ensures FilterMap(keep, a) <= FilterMap(keep, b)
  {
    assert b == a + b[|a|..];
    FilterMapConcat(keep, a, b[|a|..]);
  }

  lemma CancelOne<T>(a: multiset<T>, b: multiset<T>, x: T)
    requires a + multiset{x} <= b + multiset{x}
    ensures a <= b
  {
    forall e | e in a
      ensures a[e] <= b[e]
    {
      assert (a + multiset{x})[e] <= (b + multiset{x})[e];
    }
  }

  /** Filtering commutes with forgetting order and dropping elements. */
  lemma {:induction false} FilterMapSubMultiset<I, O>(keep: I -> Option<O>, a: seq<I>, b: seq<I>)
    requires multiset(a) <= multiset(b)
    ensures multiset(FilterMap(keep, a)) <= multiset(FilterMap(keep, b))
    decreases |a|
  {
    if a == [] {
    } else {
      var n := |a| - 1;
      var x := a[n];
      assert a == a[..n] + [x];
      assert x in multiset(a);
      assert x in b;
      var j :| 0 <= j < |b| && b[j] == x;
      var l, r := b[..j], b[j + 1..];
      assert b == l + [x] + r;
      assert multiset(b) == multiset(l + r) + multiset{x};
      assert multiset(a) == multiset(a[..n]) + multiset{x};
      CancelOne(multiset(a[..n]), multiset(l + r), x);
      FilterMapSubMultiset(keep, a[..n], l + r);
      FilterMapAppend(keep, a[..n], x);
      FilterMapAppend(keep, l, x);
      FilterMapConcat(keep, l + [x], r);
      FilterMapConcat(keep, l, r);
    }
  }

  /** The processing order of a permutation does not change what is produced. */
  lemma FilterMapPermutation<I, O>(keep: I -> Option<O>, a: seq<I>, b: seq<I>)
    requires multiset(a) == multiset(b)
    ensures multiset(FilterMap(keep, a)) == multiset(FilterMap(keep, b))
  {
    FilterMapSubMultiset(keep, a, b);
    FilterMapSubMultiset(keep, b, a);
  }

  function Flatten<T>(s: seq<seq<T>>): (r: seq<T>) {
    if s == [] then [] else Flatten(s[..|s| - 1]) + s[|s| - 1]
  }

  lemma FlattenAppend<T>(s: seq<seq<T>>, x: seq<T>)
    ensures Flatten(s + [x]) == Flatten(s) + x
  {
    assert (s + [x])[..|s|] == s;
  }

  /** Sum of a natural-valued measure over a sequence. */
  function Total<T>(f: T -> nat, s: seq<T>): (n: nat) {
    if s == [] then 0 else f(s[0]) + Total(f, s[1..])
  }

  lemma {:induction false} TotalUpdate<T>(f: T -> nat, s: seq<T>, i: nat, x: T)
    requires i < |s|
    ensures Total(f, s[i := x]) + f(s[i]) == Total(f, s) + f(x)
    decreases |s|
  {
    var t := s[i := x];
    if i == 0 {
      assert t[1..] == s[1..];
    } else {
      assert t[1..] == s[1..][i - 1 := x];
      TotalUpdate(f, s[1..], i - 1, x);
    }
  }

  /** A measure that is k everywhere totals k times the length. */
  lemma {:induction false} TotalUniform<T>(f: T -> nat, s: seq<T>, k: nat)
    requires forall i :: 0 <= i < |s| ==> f(s[i]) == k
    ensures Total(f, s) == k * |s|
    decreases |s|
  {
    if s == [] {
    } else {
      TotalUniform(f, s[1..], k);
    }
  }

  lemma {:induction false} TotalAtLeast<T>(f: T -> nat, s: seq<T>, i: nat)
    requires i < |s|
    ensures f(s[i]) <= Total(f, s)
    decreases |s|
  {
    if i == 0 {
    } else {
      TotalAtLeast(f, s[1..], i - 1);
    }
  }

  /** Occurrences of x in s. */
  ghost function Occ<T>(x: T, s: seq<T>): (n: nat) {
    if s == [] then 0 else Occ(x, s[..|s| - 1]) + (if s[|s| - 1] == x then 1 else 0)
  }

  lemma OccAppend<T>(x: T, s: seq<T>, y: T)
    ensures Occ(x, s + [y]) == Occ(x, s) + Occ(x, [y])
  {
    assert (s + [y])[..|s|] == s;
  }

  lemma {:induction false} OccConcat<T>(x: T, s: seq<T>, t: seq<T>)
    ensures Occ(x, s + t) == Occ(x, s) + Occ(x, t)
    decreases |t|
  {
    if t == [] {
      assert s + t == s;
    } else {
      var n := |t| - 1;
      assert s + t == (s + t[..n]) + [t[n]];
      OccConcat(x, s, t[..n]);
      OccAppend(x, s + t[..n], t[n]);
    }
  }

  lemma OccHead<T>(x: T, s: seq<T>)
    requires s != []
    ensures Occ(x, s) == Occ(x, [s[0]]) + Occ(x, s[1..])
  {
    assert s == [s[0]] + s[1..];
    OccConcat(x, [s[0]], s[1..]);
  }

  lemma {:induction false} OccMultiset<T>(x: T, s: seq<T>)
    ensures Occ(x, s) == multiset(s)[x]
    decreases |s|
  {
    if s == [] {
    } else {
      assert s == s[..|s| - 1] + [s[|s| - 1]];
      OccMultiset(x, s[..|s| - 1]);
    }
  }
}
