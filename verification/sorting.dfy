/** Python's sorted(): a stable sort by a key, and sorted() of a set.

    Every key the program sorts by is a string, a number or a tuple of those. A key is given here as
    a sequence of integers compared lexicographically, which is how Python compares strings (by code
    point) and tuples. */
module Sorting {

  predicate LexLe(a: seq<int>, b: seq<int>) {
    a == [] || (b != [] && (a[0] < b[0] || (a[0] == b[0] && LexLe(a[1..], b[1..]))))
  }

  predicate LexLt(a: seq<int>, b: seq<int>) {
    a != b && LexLe(a, b)
  }

  lemma LexRefl(a: seq<int>)
    ensures LexLe(a, a)
  {
  }

  lemma {:induction false} LexTotal(a: seq<int>, b: seq<int>)
    ensures LexLe(a, b) || LexLe(b, a)
  {
    if a != [] && b != [] {
      LexTotal(a[1..], b[1..]);
    }
  }

  lemma {:induction false} LexTrans(a: seq<int>, b: seq<int>, c: seq<int>)
    requires LexLe(a, b) && LexLe(b, c)
    ensures LexLe(a, c)
  {
    if a != [] && a[0] == b[0] && b[0] == c[0] {
      LexTrans(a[1..], b[1..], c[1..]);
    }
  }

  lemma {:induction false} LexAntisym(a: seq<int>, b: seq<int>)
    requires LexLe(a, b) && LexLe(b, a)
    ensures a == b
  {
    if a != [] {
      LexAntisym(a[1..], b[1..]);
      assert a == [a[0]] + a[1..] && b == [b[0]] + b[1..];
    }
  }

  /** A common prefix does not affect the order. */
  lemma {:induction false} LexPrefix(p: seq<int>, a: seq<int>, b: seq<int>)
    ensures LexLe(p + a, p + b) <==> LexLe(a, b)
  {
    if p == [] {
      assert p + a == a && p + b == b;
    } else {
      assert (p + a)[1..] == p[1..] + a && (p + b)[1..] == p[1..] + b;
      LexPrefix(p[1..], a, b);
    }
  }

  predicate Ascending<T>(xs: seq<T>, key: T -> seq<int>) {
    forall i, j :: 0 <= i < j < |xs| ==> LexLe(key(xs[i]), key(xs[j]))
  }

  predicate StrictlyAscending<T>(xs: seq<T>, key: T -> seq<int>) {
    forall i, j :: 0 <= i < j < |xs| ==> LexLt(key(xs[i]), key(xs[j]))
  }

  function Insert<T>(x: T, ys: seq<T>, key: T -> seq<int>): seq<T> {
    if ys == [] then [x]
    else if LexLe(key(x), key(ys[0])) then [x] + ys
    else [ys[0]] + Insert(x, ys[1..], key)
  }

  /** Python's sorted(xs, key=key). */
  function SortBy<T>(xs: seq<T>, key: T -> seq<int>): seq<T> {
    if xs == [] then [] else Insert(xs[0], SortBy(xs[1..], key), key)
  }

  lemma {:induction false} InsertPermutes<T>(x: T, ys: seq<T>, key: T -> seq<int>)
    ensures multiset(Insert(x, ys, key)) == multiset([x] + ys)
  {
    if ys != [] && !LexLe(key(x), key(ys[0])) {
      InsertPermutes(x, ys[1..], key);
      assert ys == [ys[0]] + ys[1..];
    }
  }

  lemma {:induction false} SortPermutes<T>(xs: seq<T>, key: T -> seq<int>)
    ensures multiset(SortBy(xs, key)) == multiset(xs)
  {
    if xs != [] {
      SortPermutes(xs[1..], key);
      InsertPermutes(xs[0], SortBy(xs[1..], key), key);
      assert xs == [xs[0]] + xs[1..];
    }
  }

  lemma SortSameElements<T>(xs: seq<T>, key: T -> seq<int>)
    ensures |SortBy(xs, key)| == |xs|
    ensures forall x :: x in SortBy(xs, key) <==> x in xs
  {
    SortPermutes(xs, key);
    var ys := SortBy(xs, key);
    assert |multiset(ys)| == |multiset(xs)|;
    forall x ensures x in ys <==> x in xs {
      assert x in ys <==> x in multiset(ys);
      assert x in xs <==> x in multiset(xs);
    }
  }

  lemma {:induction false} InsertMembers<T>(x: T, ys: seq<T>, key: T -> seq<int>, y: T)
    ensures y in Insert(x, ys, key) <==> y == x || y in ys
  {
    if ys != [] && !LexLe(key(x), key(ys[0])) {
      InsertMembers(x, ys[1..], key, y);
      assert y in ys <==> y == ys[0] || y in ys[1..];
    }
  }

  lemma {:induction false} InsertAscends<T>(x: T, ys: seq<T>, key: T -> seq<int>)
    requires Ascending(ys, key)
    ensures Ascending(Insert(x, ys, key), key)
  {
    if ys == [] {
    } else if LexLe(key(x), key(ys[0])) {
      var zs := [x] + ys;
      forall i, j | 0 <= i < j < |zs| ensures LexLe(key(zs[i]), key(zs[j])) {
        if i == 0 && j > 1 {
          LexTrans(key(x), key(ys[0]), key(ys[j - 1]));
        }
      }
    } else {
      var rest := Insert(x, ys[1..], key);
      InsertAscends(x, ys[1..], key);
      LexTotal(key(x), key(ys[0]));
      var zs := [ys[0]] + rest;
      forall i, j | 0 <= i < j < |zs| ensures LexLe(key(zs[i]), key(zs[j])) {
        if i == 0 {
          InsertMembers(x, ys[1..], key, rest[j - 1]);
        }
      }
    }
  }

  lemma {:induction false} SortAscends<T>(xs: seq<T>, key: T -> seq<int>)
    ensures Ascending(SortBy(xs, key), key)
  {
    if xs != [] {
      SortAscends(xs[1..], key);
      InsertAscends(xs[0], SortBy(xs[1..], key), key);
    }
  }

  /** The elements of xs whose key is k, in order. */
  function WithKey<T>(xs: seq<T>, key: T -> seq<int>, k: seq<int>): seq<T> {
    if xs == [] then []
    else (if key(xs[0]) == k then [xs[0]] else []) + WithKey(xs[1..], key, k)
  }

  lemma WithKeyCons<T>(x: T, ys: seq<T>, key: T -> seq<int>, k: seq<int>)
    ensures WithKey([x] + ys, key, k) == (if key(x) == k then [x] else []) + WithKey(ys, key, k)
  {
    assert ([x] + ys)[1..] == ys;
  }

  lemma {:induction false} InsertStable<T>(x: T, ys: seq<T>, key: T -> seq<int>, k: seq<int>)
    ensures WithKey(Insert(x, ys, key), key, k) == WithKey([x] + ys, key, k)
  {
    WithKeyCons(x, ys, key, k);
    if ys != [] && !LexLe(key(x), key(ys[0])) {
      LexRefl(key(x));
      InsertStable(x, ys[1..], key, k);
      WithKeyCons(x, ys[1..], key, k);
      WithKeyCons(ys[0], Insert(x, ys[1..], key), key, k);
    }
  }

  /** Sorting keeps the elements of each key in their original order. */
  lemma {:induction false} SortStable<T>(xs: seq<T>, key: T -> seq<int>, k: seq<int>)
    ensures WithKey(SortBy(xs, key), key, k) == WithKey(xs, key, k)
  {
    if xs != [] {
      SortStable(xs[1..], key, k);
      InsertStable(xs[0], SortBy(xs[1..], key), key, k);
      assert ([xs[0]] + SortBy(xs[1..], key))[1..] == SortBy(xs[1..], key);
    }
  }

  /** Sorting a list that is already in order changes nothing. */
  lemma {:induction false} SortFixpoint<T>(xs: seq<T>, key: T -> seq<int>)
    requires Ascending(xs, key)
    ensures SortBy(xs, key) == xs
  {
    if xs != [] {
      SortFixpoint(xs[1..], key);
      assert xs == [xs[0]] + xs[1..];
    }
  }

  lemma HasMember<T>(s: seq<T>)
    ensures s != [] ==> exists x :: x in s
  {
    assert s != [] ==> s[0] in s;
  }

  /** A strictly ascending list is determined by its set of elements. */
  lemma {:induction false} AscendingUnique<T>(a: seq<T>, b: seq<T>, key: T -> seq<int>)
    requires StrictlyAscending(a, key) && StrictlyAscending(b, key)
    requires forall x :: x in a <==> x in b
    ensures a == b
  {
    if a == [] {
      HasMember(b);
    } else {
      assert a[0] in a && a[0] in b;
      assert b[0] in b && b[0] in a;
      if a[0] != b[0] {
        var i :| 0 <= i < |a| && a[i] == b[0];
        var j :| 0 <= j < |b| && b[j] == a[0];
        LexAntisym(key(a[0]), key(b[0]));
        assert false;
      }
      forall x ensures x in a[1..] <==> x in b[1..] {
        if x in a[1..] {
          var i :| 1 <= i < |a| && a[i] == x;
          assert x in b && x != a[0];
          assert b == [b[0]] + b[1..];
        }
        if x in b[1..] {
          var i :| 1 <= i < |b| && b[i] == x;
          assert x in a && x != b[0];
          assert a == [a[0]] + a[1..];
        }
      }
      AscendingUnique(a[1..], b[1..], key);
      assert a == [a[0]] + a[1..] && b == [b[0]] + b[1..];
    }
  }

  ghost predicate InjectiveOn<T(!new)>(s: set<T>, key: T -> seq<int>) {
    forall x, y :: x in s && y in s && key(x) == key(y) ==> x == y
  }

  predicate IsLeast<T(==)>(m: T, s: set<T>, key: T -> seq<int>) {
    m in s && forall y :: y in s ==> LexLe(key(m), key(y))
  }

  lemma {:induction false} LeastExists<T>(s: set<T>, key: T -> seq<int>)
    requires s != {}
    ensures exists m :: IsLeast(m, s, key)
    decreases s
  {
    var x :| x in s;
    LexRefl(key(x));
    if s - {x} == {} {
      assert s == {x};
      assert IsLeast(x, s, key);
    } else {
      LeastExists(s - {x}, key);
      var m :| IsLeast(m, s - {x}, key);
      LexTotal(key(x), key(m));
      var least := if LexLe(key(x), key(m)) then x else m;
      forall y | y in s ensures LexLe(key(least), key(y)) {
        if least == x && y != x {
          LexTrans(key(x), key(m), key(y));
        }
      }
      assert IsLeast(least, s, key);
    }
  }

  lemma LeastUnique<T(!new)>(s: set<T>, key: T -> seq<int>)
    requires InjectiveOn(s, key)
    ensures forall m, n :: IsLeast(m, s, key) && IsLeast(n, s, key) ==> m == n
  {
    forall m, n | IsLeast(m, s, key) && IsLeast(n, s, key) ensures m == n {
      LexAntisym(key(m), key(n));
    }
  }

  /** Python's sorted(s) of a set. */
  function SortedSet<T(==, !new)>(s: set<T>, key: T -> seq<int>): (r: seq<T>)
    requires InjectiveOn(s, key)
    ensures forall x :: x in r <==> x in s
    ensures StrictlyAscending(r, key)
    decreases |s|
  {
    if s == {} then []
    else
      LeastExists(s, key);
      LeastUnique(s, key);
      var m :| m in s && IsLeast(m, s, key);
      var rest := SortedSet(s - {m}, key);
      assert forall y :: y in rest ==> y in s && y != m;
      [m] + rest
  }

  /** sorted() keeps the number of elements of a set. */
  lemma {:induction false} SortedSetSize<T(!new)>(s: set<T>, r: seq<T>, key: T -> seq<int>)
    requires StrictlyAscending(r, key)
    requires forall x :: x in r <==> x in s
    ensures |r| == |s|
  {
    if r == [] {
      assert s == {};
    } else {
      assert r[0] in r;
      forall x ensures x in r[1..] <==> x in s - {r[0]} {
        if x in r[1..] {
          var i :| 1 <= i < |r| && r[i] == x;
          assert x in r;
        }
        if x in s - {r[0]} {
          assert x in r;
          assert r == [r[0]] + r[1..];
        }
      }
      SortedSetSize(s - {r[0]}, r[1..], key);
    }
  }
}
