/** Stable sorting, and what pins its result down. */
module Sorting {

  /** A strict weak order: what sort.SliceStable asks of its less function. */
  ghost predicate StrictWeak<T(!new)>(less: (T, T) -> bool) {
    && (forall x :: !less(x, x))
    && (forall x, y, z :: less(x, y) && less(y, z) ==> less(x, z))
    && (forall x, y, z :: !less(x, y) && !less(y, z) ==> !less(x, z))
  }

  function Filter<T>(s: seq<T>, p: T -> bool): seq<T> {
    if s == [] then []
    else Filter(s[..|s| - 1], p) + (if p(s[|s| - 1]) then [s[|s| - 1]] else [])
  }

  predicate Tied<T>(less: (T, T) -> bool, x: T, y: T) { !less(x, y) && !less(y, x) }

  /** The elements of s that tie with z, in order. */
  function Class<T>(s: seq<T>, less: (T, T) -> bool, z: T): seq<T> {
    Filter(s, (y: T) => Tied(less, y, z))
  }

  /** Put x after everything it does not sort before. */
  function Insert<T>(s: seq<T>, x: T, less: (T, T) -> bool): seq<T> {
    if s == [] || !less(x, s[|s| - 1]) then s + [x]
    else Insert(s[..|s| - 1], x, less) + [s[|s| - 1]]
  }

  function StableSort<T>(s: seq<T>, less: (T, T) -> bool): seq<T> {
    if s == [] then [] else Insert(StableSort(s[..|s| - 1], less), s[|s| - 1], less)
  }

  ghost predicate Sorted<T>(s: seq<T>, less: (T, T) -> bool) {
    forall i, j | 0 <= i < j < |s| :: !less(s[j], s[i])
  }

  /** r is s, sorted, with ties kept in order. */
  ghost predicate StablySorts<T(!new)>(r: seq<T>, s: seq<T>, less: (T, T) -> bool) {
    Sorted(r, less) && forall z :: Class(r, less, z) == Class(s, less, z)
  }

  lemma {:induction false} FilterMember<T>(s: seq<T>, p: T -> bool, x: T)
    ensures x in Filter(s, p) <==> x in s && p(x)
  {
    if s != [] {
      FilterMember(s[..|s| - 1], p, x);
      assert s == s[..|s| - 1] + [s[|s| - 1]];
    }
  }

  lemma {:induction false} FilterConcat<T>(a: seq<T>, b: seq<T>, p: T -> bool)
    ensures Filter(a + b, p) == Filter(a, p) + Filter(b, p)
  {
    if b == [] {
      assert a + b == a;
    } else {
      assert (a + b)[..|a + b| - 1] == a + b[..|b| - 1];
      FilterConcat(a, b[..|b| - 1], p);
    }
  }

  lemma {:induction false} FiltersCommute<T>(s: seq<T>, p: T -> bool, q: T -> bool)
    ensures Filter(Filter(s, p), q) == Filter(Filter(s, q), p)
  {
    if s != [] {
      var n := |s| - 1;
      FiltersCommute(s[..n], p, q);
      OneMoreFiltered(s[..n], s[n], p, q);
      OneMoreFiltered(s[..n], s[n], q, p);
    }
  }

  lemma OneMoreFiltered<T>(s: seq<T>, x: T, p: T -> bool, q: T -> bool)
    ensures Filter(Filter(s + [x], p), q) == Filter(Filter(s, p), q) + (if p(x) && q(x) then [x] else [])
  {
    assert (s + [x])[..|s|] == s;
    var f := Filter(s, p);
    if p(x) {
      assert (f + [x])[..|f|] == f;
    } else {
      assert Filter(s + [x], p) == f;
    }
  }

  lemma {:induction false} FilterSorted<T>(s: seq<T>, p: T -> bool, less: (T, T) -> bool)
    requires Sorted(s, less)
    ensures Sorted(Filter(s, p), less)
  {
    if s != [] {
      var n := |s| - 1;
      FilterSorted(s[..n], p, less);
      forall x | x in Filter(s[..n], p) ensures !less(s[n], x) {
        FilterMember(s[..n], p, x);
      }
    }
  }

  lemma {:induction false} InsertBag<T>(s: seq<T>, x: T, less: (T, T) -> bool)
    ensures multiset(Insert(s, x, less)) == multiset(s) + multiset{x}
  {
    if s != [] && less(x, s[|s| - 1]) {
      InsertBag(s[..|s| - 1], x, less);
      assert s == s[..|s| - 1] + [s[|s| - 1]];
    }
  }

  lemma {:induction false} InsertSorted<T(!new)>(s: seq<T>, x: T, less: (T, T) -> bool)
    requires StrictWeak(less) && Sorted(s, less)
    ensures Sorted(Insert(s, x, less), less)
  {
    if s != [] {
      var n := |s| - 1;
      if less(x, s[n]) {
        InsertSorted(s[..n], x, less);
        InsertBag(s[..n], x, less);
        forall y | y in Insert(s[..n], x, less) ensures !less(s[n], y) {
          assert y in multiset(s[..n]) + multiset{x};
        }
      } else {
        forall i | 0 <= i < |s| ensures !less(x, s[i]) {
          assert i < n ==> !less(s[n], s[i]);
        }
      }
    }
  }

  /** Inserting x puts it last among its ties. */
  lemma {:induction false} InsertClass<T(!new)>(s: seq<T>, x: T, less: (T, T) -> bool, z: T)
    requires StrictWeak(less)
    ensures Class(Insert(s, x, less), less, z) == Class(s, less, z) + (if Tied(less, x, z) then [x] else [])
  {
    if s == [] || !less(x, s[|s| - 1]) {
      assert (s + [x])[..|s|] == s;
    } else {
      var n := |s| - 1;
      var r := Insert(s[..n], x, less);
      InsertClass(s[..n], x, less, z);
      assert (r + [s[n]])[..|r|] == r;
      assert !(Tied(less, x, z) && Tied(less, s[n], z)) by {
        if Tied(less, x, z) && !less(s[n], z) { assert less(x, s[n]); }
      }
    }
  }

  /** The sort sorts, permutes, and keeps ties in order. */
  lemma {:induction false} StableSortSorts<T(!new)>(s: seq<T>, less: (T, T) -> bool)
    requires StrictWeak(less)
    ensures StablySorts(StableSort(s, less), s, less)
    ensures multiset(StableSort(s, less)) == multiset(s)
  {
    if s != [] {
      var n := |s| - 1;
      StableSortSorts(s[..n], less);
      InsertSorted(StableSort(s[..n], less), s[n], less);
      InsertBag(StableSort(s[..n], less), s[n], less);
      assert s == s[..n] + [s[n]];
      forall z ensures Class(StableSort(s, less), less, z) == Class(s, less, z) {
        InsertClass(StableSort(s[..n], less), s[n], less, z);
      }
    }
  }

  /** A sorted sequence ends with the last of its greatest class. */
  lemma LastOfClass<T>(s: seq<T>, less: (T, T) -> bool, z: T)
    requires s != [] && Tied(less, s[|s| - 1], z)
    ensures Class(s, less, z) == Class(s[..|s| - 1], less, z) + [s[|s| - 1]]
  {}

  lemma NotOfClass<T>(s: seq<T>, less: (T, T) -> bool, z: T)
    requires s != [] && !Tied(less, s[|s| - 1], z)
    ensures Class(s, less, z) == Class(s[..|s| - 1], less, z)
  {}

  lemma SameElements<T(!new)>(a: seq<T>, b: seq<T>, less: (T, T) -> bool, x: T)
    requires StrictWeak(less) && (forall z :: Class(a, less, z) == Class(b, less, z)) && x in a
    ensures x in b
  {
    var p := (y: T) => Tied(less, y, x);
    FilterMember(a, p, x);
    assert Class(a, less, x) == Class(b, less, x);
    FilterMember(b, p, x);
  }

  /** The classes determine the sorted sequence. */
  lemma {:induction false} SortedByClasses<T(!new)>(a: seq<T>, b: seq<T>, less: (T, T) -> bool)
    requires StrictWeak(less) && Sorted(a, less) && Sorted(b, less)
    requires forall z :: Class(a, less, z) == Class(b, less, z)
    ensures a == b
    decreases |a|
  {
    if a == [] {
      if b != [] {
        SameElements(b, a, less, b[0]);
      }
    } else {
      var x := a[|a| - 1];
      SameElements(a, b, less, x);
      var y := b[|b| - 1];
      SameElements(b, a, less, y);
      assert !less(y, x) && !less(x, y);
      LastOfClass(a, less, x);
      LastOfClass(b, less, x);
      assert Class(a, less, x) == Class(b, less, x);
      assert x == Class(a, less, x)[|Class(a, less, x)| - 1] == y;
      var a', b' := a[..|a| - 1], b[..|b| - 1];
      forall z ensures Class(a', less, z) == Class(b', less, z) {
        DropLastClass(a, b, less, z);
      }
      SortedByClasses(a', b', less);
      assert a == a' + [x] && b == b' + [y];
    }
  }

  lemma DropLastClass<T(!new)>(a: seq<T>, b: seq<T>, less: (T, T) -> bool, z: T)
    requires a != [] && b != [] && a[|a| - 1] == b[|b| - 1] && Class(a, less, z) == Class(b, less, z)
    ensures Class(a[..|a| - 1], less, z) == Class(b[..|b| - 1], less, z)
  {
    var ca, cb := Class(a[..|a| - 1], less, z), Class(b[..|b| - 1], less, z);
    if Tied(less, a[|a| - 1], z) {
      LastOfClass(a, less, z);
      LastOfClass(b, less, z);
      assert ca == (ca + [a[|a| - 1]])[..|ca|] && cb == (cb + [b[|b| - 1]])[..|cb|];
      assert |ca| == |cb|;
    } else {
      NotOfClass(a, less, z);
      NotOfClass(b, less, z);
    }
  }

  /** There is exactly one stable sort of s, whatever algorithm finds it. */
  lemma StableSortUnique<T(!new)>(r: seq<T>, s: seq<T>, less: (T, T) -> bool)
    requires StrictWeak(less)
    ensures StablySorts(r, s, less) <==> r == StableSort(s, less)
  {
    StableSortSorts(s, less);
    if StablySorts(r, s, less) {
      SortedByClasses(r, StableSort(s, less), less);
    }
  }

  /** Inputs that agree class by class sort alike. */
  lemma SortsAlike<T(!new)>(a: seq<T>, b: seq<T>, less: (T, T) -> bool)
    requires StrictWeak(less) && forall z :: Class(a, less, z) == Class(b, less, z)
    ensures StableSort(a, less) == StableSort(b, less)
  {
    StableSortSorts(a, less);
    StableSortUnique(StableSort(a, less), b, less);
  }

  /** Sorting and filtering commute. */
  lemma SortThenFilter<T(!new)>(s: seq<T>, p: T -> bool, less: (T, T) -> bool)
    requires StrictWeak(less)
    ensures Filter(StableSort(s, less), p) == StableSort(Filter(s, p), less)
  {
    var r := StableSort(s, less);
    StableSortSorts(s, less);
    FilterSorted(r, p, less);
    forall z ensures Class(Filter(r, p), less, z) == Class(Filter(s, p), less, z) {
      var q := (y: T) => Tied(less, y, z);
      FiltersCommute(r, p, q);
      FiltersCommute(s, p, q);
      assert Class(r, less, z) == Class(s, less, z);
    }
    StableSortUnique(Filter(r, p), Filter(s, p), less);
  }

  /** When ties are equal, the sorted sequence depends on the multiset alone. */
  lemma {:induction false} ClassOfTotal<T(!new)>(a: seq<T>, b: seq<T>, less: (T, T) -> bool, z: T)
    requires (forall x, y :: Tied(less, x, y) ==> x == y) && StrictWeak(less) && multiset(a) == multiset(b)
    ensures Class(a, less, z) == Class(b, less, z)
  {
    Copies(a, less, z);
    Copies(b, less, z);
  }

  lemma {:induction false} Copies<T(!new)>(s: seq<T>, less: (T, T) -> bool, z: T)
    requires (forall x, y :: Tied(less, x, y) ==> x == y) && StrictWeak(less)
    ensures Class(s, less, z) == seq(multiset(s)[z], _ => z)
  {
    if s != [] {
      var n := |s| - 1;
      Copies(s[..n], less, z);
      assert s == s[..n] + [s[n]];
      assert Tied(less, s[n], z) <==> s[n] == z;
    }
  }

  lemma TotalSortsAlike<T(!new)>(a: seq<T>, b: seq<T>, less: (T, T) -> bool)
    requires (forall x, y :: Tied(less, x, y) ==> x == y) && StrictWeak(less) && multiset(a) == multiset(b)
    ensures StableSort(a, less) == StableSort(b, less)
  {
    forall z ensures Class(a, less, z) == Class(b, less, z) {
      ClassOfTotal(a, b, less, z);
    }
    SortsAlike(a, b, less);
  }
}
