/** Strings, their byte order, and sorting: the parts of Go's standard library
    that the repository's own rules lean on. */
module Text {

  datatype Option<+T> = None | Some(value: T)

  /** Go's `<` on strings, as a non-strict order. */
  predicate AtMost(a: string, b: string) {
    a == [] || (b != [] && (a[0] < b[0] || (a[0] == b[0] && AtMost(a[1..], b[1..]))))
  }

  lemma {:induction false} AtMostTotal(a: string, b: string)
    ensures AtMost(a, b) || AtMost(b, a)
    ensures AtMost(a, a)
  {
    if a != [] {
      AtMostTotal(a[1..], if b == [] then [] else b[1..]);
    }
  }

  lemma {:induction false} AtMostAntisymmetric(a: string, b: string)
    requires AtMost(a, b) && AtMost(b, a)
    ensures a == b
  {
    if a != [] {
      AtMostAntisymmetric(a[1..], b[1..]);
      assert a == [a[0]] + a[1..] && b == [b[0]] + b[1..];
    }
  }

  lemma {:induction false} AtMostTransitive(a: string, b: string, c: string)
    requires AtMost(a, b) && AtMost(b, c)
    ensures AtMost(a, c)
  {
    if a != [] && a[0] == b[0] && b[0] == c[0] {
      AtMostTransitive(a[1..], b[1..], c[1..]);
    }
  }

  /** The first difference decides. */
  lemma {:induction false} AtMostFrom(a: string, b: string, k: nat)
    requires k < |a| && k < |b| && a[k] < b[k]
    requires forall i :: 0 <= i < k ==> a[i] == b[i]
    ensures AtMost(a, b)
  {
    if k > 0 {
      AtMostFrom(a[1..], b[1..], k - 1);
    }
  }

  ghost predicate TotalPreorder<T(!new)>(leq: (T, T) -> bool) {
    && (forall x, y :: leq(x, y) || leq(y, x))
    && (forall x, y, z :: leq(x, y) && leq(y, z) ==> leq(x, z))
  }

  ghost predicate SortedBy<T(!new)>(xs: seq<T>, leq: (T, T) -> bool) {
    forall i, j :: 0 <= i < j < |xs| ==> leq(xs[i], xs[j])
  }

  lemma AtMostIsTotalPreorder()
    ensures TotalPreorder(AtMost)
  {
    forall x, y ensures AtMost(x, y) || AtMost(y, x) { AtMostTotal(x, y); }
    forall x, y, z | AtMost(x, y) && AtMost(y, z) ensures AtMost(x, z) { AtMostTransitive(x, y, z); }
  }

  function Insert<T(!new)>(x: T, ys: seq<T>, leq: (T, T) -> bool): (zs: seq<T>)
    ensures multiset(zs) == multiset(ys) + multiset{x}
  {
    if ys == [] || leq(x, ys[0]) then [x] + ys
    else
      assert ys == [ys[0]] + ys[1..];
      [ys[0]] + Insert(x, ys[1..], leq)
  }

  lemma {:induction false} InsertSorts<T(!new)>(x: T, ys: seq<T>, leq: (T, T) -> bool)
    requires TotalPreorder(leq) && SortedBy(ys, leq)
    ensures SortedBy(Insert(x, ys, leq), leq)
  {
    if ys != [] && !leq(x, ys[0]) {
      InsertSorts(x, ys[1..], leq);
      var zs := Insert(x, ys[1..], leq);
      forall k | 0 <= k < |zs| ensures leq(ys[0], zs[k]) {
        assert zs[k] in multiset(ys[1..]) + multiset{x};
        assert zs[k] == x || zs[k] in ys[1..];
      }
    } else if ys != [] {
      forall k | 0 <= k < |ys| ensures leq(x, ys[k]) {
        assert leq(x, ys[0]) && (k == 0 || leq(ys[0], ys[k]));
      }
    }
  }

  /** `sort.Slice`: some sorted rearrangement. Callers may rely on no order
      among ties. */
  method SortSlice<T(!new)>(xs: seq<T>, leq: (T, T) -> bool) returns (ys: seq<T>)
    requires TotalPreorder(leq)
    ensures multiset(ys) == multiset(xs)
    ensures SortedBy(ys, leq)
  {
    ys := [];
    for i := 0 to |xs|
      invariant multiset(ys) == multiset(xs[..i])
      invariant SortedBy(ys, leq)
    {
      InsertSorts(xs[i], ys, leq);
      assert xs[..i + 1] == xs[..i] + [xs[i]];
      ys := Insert(xs[i], ys, leq);
    }
    assert xs[..|xs|] == xs;
  }

  lemma HeadIsIn<T>(ys: seq<T>)
    requires ys != []
    ensures ys[0] in ys
  {
  }

  ghost predicate Distinct<T(!new)>(xs: seq<T>) {
    forall i, j :: 0 <= i < j < |xs| ==> xs[i] != xs[j]
  }

  /** Sorted without repetition. */
  ghost predicate Ascending(xs: seq<string>) {
    forall i, j :: 0 <= i < j < |xs| ==> AtMost(xs[i], xs[j]) && xs[i] != xs[j]
  }

  /** A set of strings has only one ascending listing, so whatever order a Go
      map is ranged over, sorting its keys gives the same sequence. */
  lemma {:induction false} AscendingUnique(xs: seq<string>, ys: seq<string>)
    requires Ascending(xs) && Ascending(ys)
    requires forall x :: x in xs <==> x in ys
    ensures xs == ys
  {
    if xs == [] {
      if ys != [] { HeadIsIn(ys); }
    } else {
      assert xs[0] in ys;
      assert ys[0] in xs;
      var i :| 0 <= i < |ys| && ys[i] == xs[0];
      var j :| 0 <= j < |xs| && xs[j] == ys[0];
      if i > 0 && j > 0 {
        AtMostAntisymmetric(xs[0], ys[0]);
      }
      assert xs[0] == ys[0];
      forall x ensures x in xs[1..] <==> x in ys[1..] {
        assert x in xs <==> x == xs[0] || x in xs[1..];
        assert x in ys <==> x == ys[0] || x in ys[1..];
      }
      AscendingUnique(xs[1..], ys[1..]);
    }
  }

  lemma PermutationKeepsMembers<T(!new)>(xs: seq<T>, ys: seq<T>)
    requires multiset(xs) == multiset(ys)
    ensures forall x :: x in xs <==> x in ys
  {
    forall x ensures x in xs <==> x in ys {
      assert x in xs <==> x in multiset(xs);
      assert x in ys <==> x in multiset(ys);
    }
  }

  lemma PermutationKeepsDistinct<T(!new)>(xs: seq<T>, ys: seq<T>)
    requires Distinct(xs) && multiset(xs) == multiset(ys)
    ensures Distinct(ys)
    ensures forall x :: x in xs <==> x in ys
  {
    PermutationKeepsMembers(xs, ys);
    forall i, j | 0 <= i < j < |ys| ensures ys[i] != ys[j] {
      if ys[i] == ys[j] {
        assert ys == ys[..j] + [ys[j]] + ys[j + 1..];
        assert ys[..j] == ys[..i] + [ys[i]] + ys[i + 1..j];
        assert multiset(ys)[ys[i]] >= 2;
        DistinctCountsOnce(xs, ys[i]);
        assert false;
      }
    }
  }

  lemma {:induction false} DistinctCountsOnce<T(!new)>(xs: seq<T>, x: T)
    requires Distinct(xs)
    ensures multiset(xs)[x] <= 1
  {
    if xs != [] {
      assert xs == [xs[0]] + xs[1..];
      DistinctCountsOnce(xs[1..], x);
      if xs[0] == x {
        assert x !in xs[1..];
      }
    }
  }
}
