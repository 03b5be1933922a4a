/** strings.Compare and the sorts that use it (internal/controlplaneapi/handler.go, lines 252-254 and 412-414). */
module Ordering {
  /** strings.Compare(a, b) <= 0 */
  predicate AtMost(a: string, b: string) {
    if a == "" then true
    else if b == "" then false
    else if a[0] != b[0] then a[0] < b[0]
    else AtMost(a[1..], b[1..])
  }

  lemma {:induction false} AtMostTotal(a: string, b: string)
    ensures AtMost(a, b) || AtMost(b, a)
    ensures AtMost(a, b) && AtMost(b, a) ==> a == b
  {
    if a != "" && b != "" && a[0] == b[0] {
      AtMostTotal(a[1..], b[1..]);
      assert a == [a[0]] + a[1..] && b == [b[0]] + b[1..];
    }
  }

  lemma {:induction false} AtMostTransitive(a: string, b: string, c: string)
    requires AtMost(a, b) && AtMost(b, c)
    ensures AtMost(a, c)
  {
    if a != "" && b != "" && c != "" && a[0] == b[0] == c[0] {
      AtMostTransitive(a[1..], b[1..], c[1..]);
    }
  }

  /** The strings agree up to `i`, and there the first has the smaller character. */
  predicate SmallerAt(a: string, b: string, i: nat) { i < |a| && i < |b| && a[..i] == b[..i] && a[i] < b[i] }

  /** Lexicographic order: a prefix comes first, and otherwise the first difference decides. */
  lemma {:induction false} Lexicographic(a: string, b: string)
    ensures AtMost(a, b) <==> a <= b || exists i: nat :: SmallerAt(a, b, i)
  {
    if a != "" && b != "" {
      if a[0] == b[0] {
        Lexicographic(a[1..], b[1..]);
        assert a == [a[0]] + a[1..] && b == [b[0]] + b[1..];
        if exists i: nat :: SmallerAt(a[1..], b[1..], i) {
          var i: nat :| SmallerAt(a[1..], b[1..], i);
          assert a[..i + 1] == [a[0]] + a[1..][..i] && b[..i + 1] == [b[0]] + b[1..][..i];
          assert SmallerAt(a, b, i + 1);
        }
        if exists i: nat :: SmallerAt(a, b, i) {
          var i: nat :| SmallerAt(a, b, i);
          assert i > 0;
          assert a[1..][..i - 1] == a[..i][1..] && b[1..][..i - 1] == b[..i][1..];
          assert SmallerAt(a[1..], b[1..], i - 1);
        }
        assert a[1..] <= b[1..] <==> a <= b;
      } else if a[0] < b[0] {
        assert SmallerAt(a, b, 0);
      } else {
        forall i: nat ensures !SmallerAt(a, b, i) {
          if i > 0 && i < |a| && i < |b| { assert a[..i][0] == a[0] && b[..i][0] == b[0]; }
        }
      }
    }
  }

  predicate Sorted<T(==)>(xs: seq<T>, key: T -> string) {
    xs != [] ==> (forall y | y in xs[1..] :: AtMost(key(xs[0]), key(y))) && Sorted(xs[1..], key)
  }

  predicate DistinctKeys<T(==)>(xs: seq<T>, key: T -> string) {
    xs != [] ==> (forall y | y in xs[1..] :: key(y) != key(xs[0])) && DistinctKeys(xs[1..], key)
  }

  function Insert<T>(x: T, xs: seq<T>, key: T -> string): seq<T> {
    if xs == [] then [x]
    else if AtMost(key(x), key(xs[0])) then [x] + xs
    else [xs[0]] + Insert(x, xs[1..], key)
  }

  function Sort<T>(xs: seq<T>, key: T -> string): seq<T> {
    if xs == [] then [] else Insert(xs[0], Sort(xs[1..], key), key)
  }

  lemma {:induction false} InsertMembers<T>(x: T, xs: seq<T>, key: T -> string)
    ensures multiset(Insert(x, xs, key)) == multiset(xs) + multiset{x}
    ensures forall y :: y in Insert(x, xs, key) <==> y == x || y in xs
  {
    if xs != [] {
      InsertMembers(x, xs[1..], key);
      assert xs == [xs[0]] + xs[1..];
    }
  }

  lemma {:induction false} InsertSorts<T(!new)>(x: T, xs: seq<T>, key: T -> string)
    requires Sorted(xs, key)
    ensures Sorted(Insert(x, xs, key), key)
  {
    if xs == [] {
    } else if AtMost(key(x), key(xs[0])) {
      assert ([x] + xs)[1..] == xs;
      forall y | y in xs ensures AtMost(key(x), key(y)) {
        assert xs == [xs[0]] + xs[1..];
        if y != xs[0] { AtMostTransitive(key(x), key(xs[0]), key(y)); }
      }
    } else {
      var rest := Insert(x, xs[1..], key);
      InsertSorts(x, xs[1..], key);
      InsertMembers(x, xs[1..], key);
      AtMostTotal(key(x), key(xs[0]));
      assert ([xs[0]] + rest)[1..] == rest;
    }
  }

  lemma {:induction false} SortSorts<T(!new)>(xs: seq<T>, key: T -> string)
    ensures Sorted(Sort(xs, key), key) && multiset(Sort(xs, key)) == multiset(xs)
  {
    if xs != [] {
      SortSorts(xs[1..], key);
      InsertSorts(xs[0], Sort(xs[1..], key), key);
      InsertMembers(xs[0], Sort(xs[1..], key), key);
      assert xs == [xs[0]] + xs[1..];
    }
  }

  /** Two sorted arrangements of the same elements start alike. */
  lemma SameHead<T(!new)>(xs: seq<T>, ys: seq<T>, key: T -> string)
    requires Sorted(xs, key) && Sorted(ys, key) && DistinctKeys(xs, key)
    requires xs != [] && ys != [] && ys[0] in xs && xs[0] in ys
    ensures xs[0] == ys[0]
  {
    assert xs == [xs[0]] + xs[1..] && ys == [ys[0]] + ys[1..];
    AtMostTotal(key(xs[0]), key(ys[0]));
  }

  lemma SameMembers<T>(xs: seq<T>, ys: seq<T>)
    requires multiset(xs) == multiset(ys)
    ensures |xs| == |ys| && (xs != [] ==> xs[0] in ys && ys[0] in xs)
  {
    assert |xs| == |multiset(xs)| == |multiset(ys)| == |ys|;
    if xs != [] { assert xs[0] in multiset(ys) && ys[0] in multiset(xs); }
  }

  lemma SameTails<T>(xs: seq<T>, ys: seq<T>)
    requires multiset(xs) == multiset(ys) && xs != [] && ys != [] && xs[0] == ys[0]
    ensures multiset(xs[1..]) == multiset(ys[1..])
  {
    assert xs == [xs[0]] + xs[1..] && ys == [ys[0]] + ys[1..];
    assert multiset(xs[1..]) == multiset(xs) - multiset{xs[0]};
    assert multiset(ys[1..]) == multiset(ys) - multiset{ys[0]};
  }

  /** Keys that differ leave one sorted arrangement: whatever sorts, and whatever order it is given. */
  lemma {:induction false} SortedUnique<T(!new)>(xs: seq<T>, ys: seq<T>, key: T -> string)
    requires Sorted(xs, key) && Sorted(ys, key) && DistinctKeys(xs, key)
    requires multiset(xs) == multiset(ys)
    ensures xs == ys
  {
    SameMembers(xs, ys);
    if xs != [] {
      SameHead(xs, ys, key);
      SameTails(xs, ys);
      SortedUnique(xs[1..], ys[1..], key);
      assert xs == [xs[0]] + xs[1..];
    }
  }

  lemma {:induction false} DistinctByIndex<T(!new)>(xs: seq<T>, key: T -> string)
    requires forall i, j | 0 <= i < j < |xs| :: key(xs[i]) != key(xs[j])
    ensures DistinctKeys(xs, key)
  {
    if xs != [] { DistinctByIndex(xs[1..], key); }
  }

  /** Distinct keys leave no duplicates. */
  lemma {:induction false} DistinctOnce<T(!new)>(xs: seq<T>, key: T -> string, x: T)
    requires DistinctKeys(xs, key)
    ensures multiset(xs)[x] == if x in xs then 1 else 0
  {
    if xs != [] {
      DistinctOnce(xs[1..], key, x);
      assert xs == [xs[0]] + xs[1..];
    }
  }

  lemma DistinctMultisets<T(!new)>(xs: seq<T>, ys: seq<T>, key: T -> string)
    requires DistinctKeys(xs, key) && DistinctKeys(ys, key)
    requires forall x :: x in xs <==> x in ys
    ensures multiset(xs) == multiset(ys)
  {
    forall x: T ensures multiset(xs)[x] == multiset(ys)[x] {
      DistinctOnce(xs, key, x);
      DistinctOnce(ys, key, x);
    }
  }

  /** Rearranging keeps the keys distinct. */
  lemma {:induction false} DistinctSame<T(!new)>(xs: seq<T>, ys: seq<T>, key: T -> string)
    requires DistinctKeys(xs, key) && multiset(xs) == multiset(ys)
    ensures DistinctKeys(ys, key)
  {
    forall i, j | 0 <= i < j < |ys| ensures key(ys[i]) != key(ys[j]) {
      if key(ys[i]) == key(ys[j]) {
        assert ys[i] in multiset(xs) && ys[j] in multiset(xs);
        SameKeySame(xs, key, ys[i], ys[j]);
        DistinctOnce(xs, key, ys[i]);
        Twice(ys, i, j);
      }
    }
    DistinctByIndex(ys, key);
  }

  lemma {:induction false} SameKeySame<T(!new)>(xs: seq<T>, key: T -> string, x: T, y: T)
    requires DistinctKeys(xs, key) && x in xs && y in xs && key(x) == key(y)
    ensures x == y
  {
    assert xs == [xs[0]] + xs[1..];
    if x != xs[0] && y != xs[0] { SameKeySame(xs[1..], key, x, y); }
  }

  lemma Twice<T>(ys: seq<T>, i: nat, j: nat)
    requires i < j < |ys| && ys[i] == ys[j]
    ensures multiset(ys)[ys[i]] >= 2
  {
    assert ys == ys[..j] + [ys[j]] + ys[j + 1..];
    assert ys[i] in ys[..j];
    assert multiset(ys) == multiset(ys[..j]) + multiset{ys[j]} + multiset(ys[j + 1..]);
  }

  lemma {:induction false} SortedAt<T(!new)>(xs: seq<T>, key: T -> string, i: nat, j: nat)
    requires Sorted(xs, key) && DistinctKeys(xs, key) && i < j < |xs|
    ensures AtMost(key(xs[i]), key(xs[j])) && key(xs[i]) != key(xs[j])
  {
    if i == 0 {
      assert xs[j] == xs[1..][j - 1];
    } else {
      SortedAt(xs[1..], key, i - 1, j - 1);
    }
  }
}
