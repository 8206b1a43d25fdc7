/** Python's `sorted(rows, key=...)` with string keys. */
module Sorting {

  /** The order of Python strings: by code points. */
  predicate Le(s: string, t: string) {
    s == "" || (t != "" && (s[0] < t[0] || (s[0] == t[0] && Le(s[1..], t[1..]))))
  }

  lemma {:induction false} LeTotal(s: string, t: string)
    ensures Le(s, t) || Le(t, s)
  {
    if s != "" && t != "" { LeTotal(s[1..], t[1..]); }
  }

  lemma {:induction false} LeAntisymmetric(s: string, t: string)
    requires Le(s, t) && Le(t, s)
    ensures s == t
  {
    if s != "" {
      LeAntisymmetric(s[1..], t[1..]);
      assert s == [s[0]] + s[1..] && t == [t[0]] + t[1..];
    }
  }

  lemma {:induction false} LeTransitive(s: string, t: string, u: string)
    requires Le(s, t) && Le(t, u)
    ensures Le(s, u)
  {
    if s != "" && s[0] == t[0] == u[0] { LeTransitive(s[1..], t[1..], u[1..]); }
  }

  predicate Least(m: string, names: set<string>) { m in names && forall n | n in names :: Le(m, n) }

  lemma {:induction false} LeastExists(names: set<string>)
    requires names != {}
    ensures exists m :: Least(m, names)
  {
    var x :| x in names;
    var rest := names - {x};
    if rest == {} {
      LeTotal(x, x);
      assert names == {x};
      assert Least(x, names);
    } else {
      LeastExists(rest);
      var m :| Least(m, rest);
      LeTotal(x, m);
      LeTotal(x, x);
      if Le(x, m) {
        forall n | n in names ensures Le(x, n) { if n != x { LeTransitive(x, m, n); } }
        assert Least(x, names);
      } else {
        assert Least(m, names);
      }
    }
  }

  // -------------------------------------------------------------------- sorting

  function Insert<T>(x: T, s: seq<T>, key: T -> string): (r: seq<T>)
    ensures multiset(r) == multiset{x} + multiset(s)
  {
    if s == [] || Le(key(x), key(s[0])) then [x] + s
    else
      assert s == [s[0]] + s[1..];
      [s[0]] + Insert(x, s[1..], key)
  }

  /** A stable sort: equal keys keep their order. */
  function Sort<T>(s: seq<T>, key: T -> string): (r: seq<T>)
    ensures multiset(r) == multiset(s)
  {
    if s == [] then []
    else
      assert s == [s[0]] + s[1..];
      Insert(s[0], Sort(s[1..], key), key)
  }

  predicate Sorted<T>(s: seq<T>, key: T -> string) {
    forall i, j | 0 <= i < j < |s| :: Le(key(s[i]), key(s[j]))
  }

  lemma {:induction false} InsertSorted<T>(x: T, s: seq<T>, key: T -> string)
    requires Sorted(s, key)
    ensures Sorted(Insert(x, s, key), key)
  {
    if s == [] {
    } else if Le(key(x), key(s[0])) {
      forall j | 0 <= j < |s| ensures Le(key(x), key(s[j])) {
        if j > 0 { LeTransitive(key(x), key(s[0]), key(s[j])); }
      }
    } else {
      var rest := Insert(x, s[1..], key);
      InsertSorted(x, s[1..], key);
      LeTotal(key(x), key(s[0]));
      forall j | 0 <= j < |rest| ensures Le(key(s[0]), key(rest[j])) {
        assert rest[j] in multiset(rest);
        assert rest[j] == x || rest[j] in s[1..];
      }
    }
  }

  lemma {:induction false} SortSorted<T>(s: seq<T>, key: T -> string)
    ensures Sorted(Sort(s, key), key)
  {
    if s != [] {
      SortSorted(s[1..], key);
      InsertSorted(s[0], Sort(s[1..], key), key);
    }
  }

  /** Among `s` no two different values have the same key. */
  ghost predicate KeyedApart<T(!new)>(s: seq<T>, key: T -> string) {
    forall x, y | x in s && y in s && key(x) == key(y) :: x == y
  }

  lemma FirstIsLeast<T>(a: seq<T>, x: T, key: T -> string)
    requires Sorted(a, key) && x in a
    ensures Le(key(a[0]), key(x))
  {
    LeTotal(key(x), key(x));
  }

  lemma TailOf<T>(a: seq<T>)
    requires a != []
    ensures multiset(a[1..]) == multiset(a) - multiset{a[0]}
    ensures forall x | x in a[1..] :: x in a
  {
    assert a == [a[0]] + a[1..];
  }

  lemma {:induction false} SortedUnique<T(!new)>(a: seq<T>, b: seq<T>, key: T -> string)
    requires Sorted(a, key) && Sorted(b, key) && multiset(a) == multiset(b) && KeyedApart(a, key)
    ensures a == b
  {
    if a == [] {
      assert |multiset(b)| == 0;
    } else {
      assert |multiset(a)| == |multiset(b)|;
      assert a[0] in multiset(b) && b[0] in multiset(a);
      FirstIsLeast(b, a[0], key);
      FirstIsLeast(a, b[0], key);
      LeAntisymmetric(key(a[0]), key(b[0]));
      TailOf(a);
      TailOf(b);
      SortedUnique(a[1..], b[1..], key);
      assert a == [a[0]] + a[1..] && b == [b[0]] + b[1..];
    }
  }

  /** Sorting forgets the order, when the keys tell the rows apart. */
  lemma SortForgetsOrder<T(!new)>(a: seq<T>, b: seq<T>, key: T -> string)
    requires multiset(a) == multiset(b) && KeyedApart(a, key)
    ensures Sort(a, key) == Sort(b, key)
  {
    SortSorted(a, key);
    SortSorted(b, key);
    forall x | x in Sort(a, key) ensures x in a { assert x in multiset(Sort(a, key)); }
    SortedUnique(Sort(a, key), Sort(b, key), key);
  }

  lemma SortIdempotent<T(!new)>(a: seq<T>, key: T -> string)
    ensures Sort(Sort(a, key), key) == Sort(a, key)
  {
    SortSorted(a, key);
    SortOfSorted(Sort(a, key), key);
  }

  lemma {:induction false} SortOfSorted<T>(a: seq<T>, key: T -> string)
    requires Sorted(a, key)
    ensures Sort(a, key) == a
  {
    if a != [] {
      SortOfSorted(a[1..], key);
      assert |a| > 1 ==> Le(key(a[0]), key(a[1]));
    }
  }

  // ---------------------------------------------------- sequences as multisets

  function Drop<T>(s: seq<T>, i: nat): (r: seq<T>)
    requires i < |s|
    ensures |r| == |s| - 1
  {
    s[..i] + s[i + 1..]
  }

  lemma DropMultiset<T>(s: seq<T>, i: nat)
    requires i < |s|
    ensures multiset(s) == multiset(Drop(s, i)) + multiset{s[i]}
  {
    assert s == s[..i] + [s[i]] + s[i + 1..];
  }

  lemma PositionOf<T>(s: seq<T>, x: T) returns (k: nat)
    requires x in multiset(s)
    ensures k < |s| && s[k] == x
  {
    k :| 0 <= k < |s| && s[k] == x;
  }

  lemma TailsEqual<T>(a: seq<T>, b: seq<T>, i: nat)
    requires a != [] && i < |b| && a[0] == b[i] && multiset(a) == multiset(b)
    ensures multiset(a[1..]) == multiset(Drop(b, i))
  {
    DropMultiset(b, i);
    assert a == [a[0]] + a[1..];
    assert multiset(a[1..]) == multiset(a) - multiset{a[0]};
    assert multiset(Drop(b, i)) == multiset(b) - multiset{b[i]};
  }

  lemma Twice<T>(s: seq<T>, i: nat, j: nat)
    requires i < j < |s|
    ensures multiset(s) >= multiset{s[i], s[j]}
  {
    assert s == s[..i] + [s[i]] + s[i + 1..j] + [s[j]] + s[j + 1..];
  }

  lemma Around<T>(s: seq<T>, k: nat)
    requires k < |s|
    ensures multiset(s) == multiset(s[..k]) + multiset(s[k + 1..]) + multiset{s[k]}
  {
    assert s == s[..k] + [s[k]] + s[k + 1..];
  }

  /** Two occurrences in a multiset are two positions of any sequence with that multiset. */
  lemma TwoPositions<T>(s: seq<T>, x: T, y: T) returns (i: nat, j: nat)
    requires multiset(s) >= multiset{x, y}
    ensures i < j < |s| && ((s[i] == x && s[j] == y) || (s[i] == y && s[j] == x))
  {
    assert x in multiset{x, y};
    var k := PositionOf(s, x);
    Around(s, k);
    assert multiset(s[..k]) + multiset(s[k + 1..]) >= multiset{y};
    assert y in multiset(s[..k]) + multiset(s[k + 1..]);
    if y in multiset(s[..k]) {
      var m := PositionOf(s[..k], y);
      i, j := m, k;
    } else {
      var m := PositionOf(s[k + 1..], y);
      i, j := k, k + 1 + m;
    }
  }
}
