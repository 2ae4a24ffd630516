/** Sequence helpers shared by the model: duplicate-freedom, filtering and the stable sort
    that `Array.prototype.sort` guarantees. */
module Sequences {
  datatype Option<+T> = None | Some(value: T)

  predicate NoDup<T(==)>(s: seq<T>) {
    forall i, j :: 0 <= i < j < |s| ==> s[i] != s[j]
  }

  function Filter<T>(s: seq<T>, p: T -> bool): seq<T> {
    if s == [] then []
    else if p(s[0]) then [s[0]] + Filter(s[1..], p)
    else Filter(s[1..], p)
  }

  /** `items.filter((id) => id !== x)` */
  function Without<T(==)>(s: seq<T>, x: T): seq<T> {
    Filter(s, OtherThan(x))
  }

  function OtherThan<T(==)>(x: T): T -> bool { y => y != x }

  lemma WithoutMembers<T>(s: seq<T>, x: T)
    ensures forall y :: y in Without(s, x) <==> y in s && y != x
  {
    FilterMembers(s, OtherThan(x));
  }

  lemma {:induction false} FilterMembers<T>(s: seq<T>, p: T -> bool)
    ensures forall x :: x in Filter(s, p) <==> x in s && p(x)
  {
    if s != [] {
      FilterMembers(s[1..], p);
      assert s == [s[0]] + s[1..];
    }
  }

  lemma FilterMember<T>(s: seq<T>, p: T -> bool, x: T)
    ensures x in Filter(s, p) <==> x in s && p(x)
  {
    FilterMembers(s, p);
  }

  lemma {:induction false} FilterKeepsNoDup<T>(s: seq<T>, p: T -> bool)
    requires NoDup(s)
    ensures NoDup(Filter(s, p))
  {
    if s != [] {
      FilterKeepsNoDup(s[1..], p);
      FilterMembers(s[1..], p);
      assert s[0] !in s[1..];
    }
  }

  // ---------- stable sort ----------

  ghost predicate TotalPreorder<T(!new)>(le: (T, T) -> bool) {
    && (forall x, y :: le(x, y) || le(y, x))
    && (forall x, y, z :: le(x, y) && le(y, z) ==> le(x, z))
  }

  ghost predicate Sorted<T>(s: seq<T>, le: (T, T) -> bool) {
    forall i, j :: 0 <= i < j < |s| ==> le(s[i], s[j])
  }

  function Insert<T>(x: T, s: seq<T>, le: (T, T) -> bool): seq<T> {
    if s == [] || le(x, s[0]) then [x] + s else [s[0]] + Insert(x, s[1..], le)
  }

  function Sort<T>(s: seq<T>, le: (T, T) -> bool): seq<T> {
    if s == [] then [] else Insert(s[0], Sort(s[1..], le), le)
  }

  lemma {:induction false} InsertPermutes<T>(x: T, s: seq<T>, le: (T, T) -> bool)
    ensures multiset(Insert(x, s, le)) == multiset([x] + s)
  {
    if s != [] && !le(x, s[0]) {
      InsertPermutes(x, s[1..], le);
      assert s == [s[0]] + s[1..];
    }
  }

  lemma {:induction false} SortPermutes<T>(s: seq<T>, le: (T, T) -> bool)
    ensures multiset(Sort(s, le)) == multiset(s)
    ensures |Sort(s, le)| == |s|
    ensures forall x :: x in Sort(s, le) <==> x in s
  {
    if s != [] {
      SortPermutes(s[1..], le);
      InsertPermutes(s[0], Sort(s[1..], le), le);
      assert s == [s[0]] + s[1..];
    }
    assert |multiset(Sort(s, le))| == |multiset(s)|;
    forall x ensures x in Sort(s, le) <==> x in s {
      assert x in Sort(s, le) <==> x in multiset(Sort(s, le));
      assert x in s <==> x in multiset(s);
    }
  }

  lemma {:induction false} InsertKeepsSorted<T(!new)>(x: T, s: seq<T>, le: (T, T) -> bool)
    requires TotalPreorder(le) && Sorted(s, le)
    ensures Sorted(Insert(x, s, le), le)
  {
    if s != [] && !le(x, s[0]) {
      InsertKeepsSorted(x, s[1..], le);
      InsertPermutes(x, s[1..], le);
      var t := Insert(x, s[1..], le);
      forall j | 0 <= j < |t| ensures le(s[0], t[j]) {
        assert t[j] in multiset(t);
        assert t[j] in [x] + s[1..];
      }
    }
  }

  lemma {:induction false} SortSorts<T(!new)>(s: seq<T>, le: (T, T) -> bool)
    requires TotalPreorder(le)
    ensures Sorted(Sort(s, le), le)
  {
    if s != [] {
      SortSorts(s[1..], le);
      InsertKeepsSorted(s[0], Sort(s[1..], le), le);
    }
  }

  lemma {:induction false} InsertIsStable<T>(x: T, s: seq<T>, le: (T, T) -> bool, tied: T -> bool)
    requires forall a, b :: tied(a) && tied(b) ==> le(a, b)
    ensures Filter(Insert(x, s, le), tied) == Filter([x] + s, tied)
  {
    assert ([x] + s)[1..] == s;
    if s != [] && !le(x, s[0]) {
      InsertIsStable(x, s[1..], le, tied);
      assert ([x] + s[1..])[1..] == s[1..];
      var t := Insert(x, s[1..], le);
      assert ([s[0]] + t)[1..] == t;
    }
  }

  /** A stable sort keeps the relative order of any class of mutually tied elements. */
  lemma {:induction false} SortIsStable<T(!new)>(s: seq<T>, le: (T, T) -> bool, tied: T -> bool)
    requires forall a, b :: tied(a) && tied(b) ==> le(a, b)
    ensures Filter(Sort(s, le), tied) == Filter(s, tied)
  {
    if s != [] {
      SortIsStable(s[1..], le, tied);
      var t := Sort(s[1..], le);
      InsertIsStable(s[0], t, le, tied);
      assert ([s[0]] + t)[1..] == t;
    }
  }

  lemma MultisetNoDup<T>(s: seq<T>, t: seq<T>)
    requires multiset(s) == multiset(t) && NoDup(s)
    ensures NoDup(t)
  {
    if i, j :| 0 <= i < j < |t| && t[i] == t[j] {
      assert t == t[..j] + [t[j]] + t[j + 1..];
      assert multiset(t)[t[j]] >= 2 by {
        assert t[i] in multiset(t[..j]);
      }
      AtMostOnce(s, t[j]);
    }
  }

  lemma {:induction false} AtMostOnce<T>(s: seq<T>, x: T)
    requires NoDup(s)
    ensures multiset(s)[x] <= 1
  {
    if s != [] {
      AtMostOnce(s[1..], x);
      assert s == [s[0]] + s[1..];
      assert s[0] !in s[1..];
      if s[0] == x { assert x !in multiset(s[1..]); }
    }
  }

  lemma SortKeepsNoDup<T>(s: seq<T>, le: (T, T) -> bool)
    requires NoDup(s)
    ensures NoDup(Sort(s, le))
  {
    SortPermutes(s, le);
    MultisetNoDup(s, Sort(s, le));
  }

  // ---------- an order on strings ----------

  /** The sign of `a.localeCompare(b)` on upper-case ASCII letters and digits. */
  function Compare(a: string, b: string): int {
    if a == [] then (if b == [] then 0 else -1)
    else if b == [] then 1
    else if a[0] < b[0] then -1
    else if b[0] < a[0] then 1
    else Compare(a[1..], b[1..])
  }

  lemma {:induction false} CompareZero(a: string, b: string)
    ensures Compare(a, b) == 0 <==> a == b
  {
    if a != [] && b != [] {
      CompareZero(a[1..], b[1..]);
      assert a == [a[0]] + a[1..] && b == [b[0]] + b[1..];
    }
  }

  lemma {:induction false} CompareAntisymmetric(a: string, b: string)
    ensures Compare(b, a) == -Compare(a, b)
  {
    if a != [] && b != [] { CompareAntisymmetric(a[1..], b[1..]); }
  }

  lemma {:induction false} CompareTransitive(a: string, b: string, c: string)
    requires Compare(a, b) <= 0 && Compare(b, c) <= 0
    ensures Compare(a, c) <= 0
  {
    if a != [] && b != [] && c != [] && a[0] == b[0] == c[0] { CompareTransitive(a[1..], b[1..], c[1..]); }
  }

  /** The first string ends, or has the smaller character, where the two first differ. */
  predicate Precedes(a: string, b: string) {
    exists k :: 0 <= k <= |a| && k < |b| && a[..k] == b[..k] && (k == |a| || a[k] < b[k])
  }

  lemma {:induction false} CompareMeaning(a: string, b: string)
    ensures Compare(a, b) < 0 <==> Precedes(a, b)
  {
    if a == [] || b == [] {
      if b != [] { assert a[..0] == b[..0]; }
    } else {
      CompareMeaning(a[1..], b[1..]);
      if a[0] < b[0] { assert a[..0] == b[..0]; }
      if a[0] == b[0] && Precedes(a[1..], b[1..]) {
        var k :| 0 <= k <= |a| - 1 && k < |b| - 1 && a[1..][..k] == b[1..][..k]
                 && (k == |a| - 1 || a[1..][k] < b[1..][k]);
        assert a[..k + 1] == [a[0]] + a[1..][..k] && b[..k + 1] == [b[0]] + b[1..][..k];
      }
      if k :| 0 <= k <= |a| && k < |b| && a[..k] == b[..k] && (k == |a| || a[k] < b[k]) {
        if k > 0 {
          assert a[0] == a[..k][0] == b[..k][0] == b[0];
          assert a[1..][..k - 1] == a[..k][1..] == b[..k][1..] == b[1..][..k - 1];
        }
      }
    }
  }
}
