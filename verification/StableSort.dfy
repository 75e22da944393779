/** Python's `sorted` with a key: ascending and stable.  Keys are pairs compared
    lexicographically, as Python compares tuples. */
module StableSort {
  import opened Seqs

  type Key = (int, int)

  predicate Le(a: Key, b: Key) {
    a.0 < b.0 || (a.0 == b.0 && a.1 <= b.1)
  }

  predicate Lt(a: Key, b: Key) {
    Le(a, b) && a != b
  }

  function HasKey<T(!new)>(key: T -> Key, k: Key): T -> bool {
    x => key(x) == k
  }

  predicate Sorted<T(!new)>(key: T -> Key, s: seq<T>) {
    forall i, j :: 0 <= i < j < |s| ==> Le(key(s[i]), key(s[j]))
  }

  /** a and b list the elements of every key in the same order. */
  ghost predicate SameGroups<T(!new)>(key: T -> Key, a: seq<T>, b: seq<T>) {
    forall k :: Filter(HasKey(key, k), a) == Filter(HasKey(key, k), b)
  }

  function Insert<T(!new)>(key: T -> Key, x: T, s: seq<T>): seq<T> {
    if s == [] || Le(key(x), key(s[0])) then [x] + s
    else [s[0]] + Insert(key, x, s[1..])
  }

  function Sort<T(!new)>(key: T -> Key, s: seq<T>): seq<T> {
    if s == [] then [] else Insert(key, s[0], Sort(key, s[1..]))
  }

  lemma {:induction false} InsertPerm<T(!new)>(key: T -> Key, x: T, s: seq<T>)
    ensures multiset(Insert(key, x, s)) == multiset([x] + s)
    ensures forall y :: y in Insert(key, x, s) <==> y == x || y in s
  {
    if s == [] || Le(key(x), key(s[0])) {
    } else {
      InsertPerm(key, x, s[1..]);
      assert s == [s[0]] + s[1..];
    }
  }

  lemma {:induction false} InsertSorted<T(!new)>(key: T -> Key, x: T, s: seq<T>)
    requires Sorted(key, s)
    ensures Sorted(key, Insert(key, x, s))
  {
    if s == [] || Le(key(x), key(s[0])) {
    } else {
      InsertSorted(key, x, s[1..]);
      InsertPerm(key, x, s[1..]);
      var r := Insert(key, x, s[1..]);
      forall j | 0 <= j < |r| ensures Le(key(s[0]), key(r[j])) {
        assert r[j] in r;
        if r[j] != x {
          var i :| 0 < i < |s| && s[i] == r[j];
        }
      }
    }
  }

  lemma {:induction false} InsertGroups<T(!new)>(key: T -> Key, x: T, s: seq<T>, k: Key)
    requires Sorted(key, s)
    ensures Filter(HasKey(key, k), Insert(key, x, s)) == Filter(HasKey(key, k), [x] + s)
  {
    if s == [] || Le(key(x), key(s[0])) {
    } else {
      InsertGroups(key, x, s[1..], k);
      var r := [s[0]] + Insert(key, x, s[1..]);
      assert r[1..] == Insert(key, x, s[1..]);
      assert ([x] + s)[1..] == s && ([x] + s[1..])[1..] == s[1..];
    }
  }

  lemma {:induction false} SortPerm<T(!new)>(key: T -> Key, s: seq<T>)
    ensures multiset(Sort(key, s)) == multiset(s)
    ensures |Sort(key, s)| == |s|
    ensures forall x :: x in Sort(key, s) <==> x in s
  {
    if s == [] {
    } else {
      SortPerm(key, s[1..]);
      InsertPerm(key, s[0], Sort(key, s[1..]));
      assert s == [s[0]] + s[1..];
    }
    assert |multiset(Sort(key, s))| == |Sort(key, s)|;
  }

  lemma {:induction false} SortIsStable<T(!new)>(key: T -> Key, s: seq<T>)
    ensures Sorted(key, Sort(key, s))
    ensures SameGroups(key, Sort(key, s), s)
  {
    if s == [] {
    } else {
      SortIsStable(key, s[1..]);
      InsertSorted(key, s[0], Sort(key, s[1..]));
      forall k ensures Filter(HasKey(key, k), Sort(key, s)) == Filter(HasKey(key, k), s) {
        InsertGroups(key, s[0], Sort(key, s[1..]), k);
        var r := [s[0]] + Sort(key, s[1..]);
        assert r[1..] == Sort(key, s[1..]);
      }
    }
  }

  /** A sorted list is determined by its groups. */
  lemma {:induction false} SortedUnique<T(!new)>(key: T -> Key, a: seq<T>, b: seq<T>)
    requires Sorted(key, a) && Sorted(key, b) && SameGroups(key, a, b)
    ensures a == b
  {
    if a == [] || b == [] {
      if a != [] { SharedMember(key, a, b, a[0]); }
      if b != [] { SharedMember(key, b, a, b[0]); }
    } else {
      SmallerHead(key, a, b);
      SmallerHead(key, b, a);
      var h := HasKey(key, key(a[0]));
      assert Filter(h, a) == [a[0]] + Filter(h, a[1..]);
      assert Filter(h, b) == [b[0]] + Filter(h, b[1..]);
      forall k ensures Filter(HasKey(key, k), a[1..]) == Filter(HasKey(key, k), b[1..]) {
        var g := HasKey(key, k);
        assert Filter(g, a) == Filter(g, b);
        if k == key(a[0]) {
          assert Filter(g, a)[1..] == Filter(g, a[1..]);
          assert Filter(g, b)[1..] == Filter(g, b[1..]);
        }
      }
      SortedUnique(key, a[1..], b[1..]);
      assert a == [a[0]] + a[1..] && b == [b[0]] + b[1..];
      assert Filter(h, a)[0] == Filter(h, b)[0];
    }
  }

  lemma SharedMember<T(!new)>(key: T -> Key, a: seq<T>, b: seq<T>, x: T)
    requires SameGroups(key, a, b) && x in a
    ensures x in b
  {
    assert x in Filter(HasKey(key, key(x)), a);
    assert Filter(HasKey(key, key(x)), a) == Filter(HasKey(key, key(x)), b);
  }

  lemma SmallerHead<T(!new)>(key: T -> Key, a: seq<T>, b: seq<T>)
    requires a != [] && b != [] && Sorted(key, b) && SameGroups(key, a, b)
    ensures Le(key(b[0]), key(a[0]))
  {
    SharedMember(key, a, b, a[0]);
    var j :| 0 <= j < |b| && b[j] == a[0];
    if j > 0 { assert Le(key(b[0]), key(b[j])); }
  }

  /** `sorted` is pinned down: the one list that is in key order and keeps the
      input order within each key. */
  lemma SortIsTheStableSort<T(!new)>(key: T -> Key, s: seq<T>, r: seq<T>)
    ensures r == Sort(key, s) <==> Sorted(key, r) && SameGroups(key, r, s)
  {
    SortIsStable(key, s);
    if Sorted(key, r) && SameGroups(key, r, s) {
      forall k ensures Filter(HasKey(key, k), r) == Filter(HasKey(key, k), Sort(key, s)) {
        assert Filter(HasKey(key, k), r) == Filter(HasKey(key, k), s);
      }
      SortedUnique(key, r, Sort(key, s));
    }
  }

  /** With pairwise different keys the input order does not matter. */
  lemma SortIgnoresOrder<T(!new)>(key: T -> Key, a: seq<T>, b: seq<T>)
    requires multiset(a) == multiset(b)
    requires forall i, j :: 0 <= i < j < |a| ==> key(a[i]) != key(a[j])
    ensures Sort(key, a) == Sort(key, b)
  {
    SortIsStable(key, a);
    SortIsStable(key, b);
    forall k ensures Filter(HasKey(key, k), Sort(key, a)) == Filter(HasKey(key, k), Sort(key, b)) {
      FilterSingle(key, a, k);
      var f, g := Filter(HasKey(key, k), a), Filter(HasKey(key, k), b);
      FilterMultiset(HasKey(key, k), a, b);
      assert |multiset(f)| == |multiset(g)|;
      if f != [] {
        assert f == [f[0]] && g == [g[0]];
        assert f[0] in multiset(g);
      }
      assert f == g;
    }
    SortedUnique(key, Sort(key, a), Sort(key, b));
  }

  lemma {:induction false} FilterSingle<T(!new)>(key: T -> Key, a: seq<T>, k: Key)
    requires forall i, j :: 0 <= i < j < |a| ==> key(a[i]) != key(a[j])
    ensures |Filter(HasKey(key, k), a)| <= 1
  {
    if a == [] {
    } else {
      FilterSingle(key, a[1..], k);
      if key(a[0]) == k {
        FilterNone(HasKey(key, k), a[1..]);
      }
    }
  }

  lemma FilterMultiset<T(!new)>(p: T -> bool, a: seq<T>, b: seq<T>)
    requires multiset(a) == multiset(b)
    ensures multiset(Filter(p, a)) == multiset(Filter(p, b))
  {
    forall x ensures multiset(Filter(p, a))[x] == multiset(Filter(p, b))[x] {
      FilterCount(p, a, x);
      FilterCount(p, b, x);
    }
  }

  lemma {:induction false} FilterCount<T(!new)>(p: T -> bool, a: seq<T>, x: T)
    ensures multiset(Filter(p, a))[x] == if p(x) then multiset(a)[x] else 0
  {
    if a == [] {
    } else {
      FilterCount(p, a[1..], x);
      assert a == [a[0]] + a[1..];
    }
  }
}
