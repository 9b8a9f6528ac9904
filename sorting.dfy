/** A stable sort by an integer key, ascending or descending: the behaviour of
    Python's `sorted(results, key=..., reverse=...)`, which keeps records with equal
    keys in their input order in both directions. `SortBy` is an insertion sort used
    as the reference definition; `StableSortIsUnique` shows that every stable sort
    produces exactly its output. */
module Sorting {

  /** `a` may stand before `b`: ascending order, or descending when `reverse`. */
  predicate Precedes(a: int, b: int, reverse: bool)
  {
    if reverse then a >= b else a <= b
  }

  predicate SortedBy<T>(s: seq<T>, key: T -> int, reverse: bool)
  {
    forall i, j :: 0 <= i < j < |s| ==> Precedes(key(s[i]), key(s[j]), reverse)
  }

  /** The records of `s` whose key is `k`, in their order in `s`. */
  function KeyFilter<T>(s: seq<T>, key: T -> int, k: int): seq<T>
  {
    if s == [] then []
    else (if key(s[0]) == k then [s[0]] else []) + KeyFilter(s[1..], key, k)
  }

  /** Two orders agree on every key class: records with equal keys keep their relative order. */
  ghost predicate SameKeyClasses<T>(s: seq<T>, t: seq<T>, key: T -> int)
  {
    forall k :: KeyFilter(s, key, k) == KeyFilter(t, key, k)
  }

  /** Inserts `x` before the first record it may precede, so after every record of
      `s` with the same key it could not precede. */
  function Insert<T>(x: T, s: seq<T>, key: T -> int, reverse: bool): (r: seq<T>)
    ensures multiset(r) == multiset(s) + multiset{x}
    ensures |r| == |s| + 1
  {
    if s == [] || Precedes(key(x), key(s[0]), reverse) then
      [x] + s
    else
      assert s == [s[0]] + s[1..];
      [s[0]] + Insert(x, s[1..], key, reverse)
  }

  lemma {:induction false} InsertSorted<T>(x: T, s: seq<T>, key: T -> int, reverse: bool)
    requires SortedBy(s, key, reverse)
    ensures SortedBy(Insert(x, s, key, reverse), key, reverse)
    decreases |s|
  {
    var r := Insert(x, s, key, reverse);
    if s == [] {
    } else if Precedes(key(x), key(s[0]), reverse) {
      assert r == [x] + s;
      forall i, j | 0 <= i < j < |r| ensures Precedes(key(r[i]), key(r[j]), reverse) {
        if i == 0 && j > 1 {
          assert Precedes(key(s[0]), key(s[j - 1]), reverse);
        }
      }
    } else {
      var tail := Insert(x, s[1..], key, reverse);
      InsertSorted(x, s[1..], key, reverse);
      assert r == [s[0]] + tail;
      assert s == [s[0]] + s[1..];
      forall j | 0 <= j < |tail| ensures Precedes(key(s[0]), key(tail[j]), reverse) {
        assert tail[j] in multiset(tail);
        assert tail[j] == x || tail[j] in multiset(s[1..]);
        if tail[j] != x {
          var m :| 0 <= m < |s[1..]| && s[1..][m] == tail[j];
          assert Precedes(key(s[0]), key(s[m + 1]), reverse);
        }
      }
      forall i, j | 0 <= i < j < |r| ensures Precedes(key(r[i]), key(r[j]), reverse) {
        if i == 0 {
          assert r[j] == tail[j - 1];
        } else {
          assert r[i] == tail[i - 1] && r[j] == tail[j - 1];
        }
      }
    }
  }

  function SortBy<T>(s: seq<T>, key: T -> int, reverse: bool): (r: seq<T>)
    ensures SortedBy(r, key, reverse)
    ensures multiset(r) == multiset(s)
    ensures |r| == |s|
  {
    if s == [] then []
    else
      assert s == [s[0]] + s[1..];
      var sortedTail := SortBy(s[1..], key, reverse);
      InsertSorted(s[0], sortedTail, key, reverse);
      Insert(s[0], sortedTail, key, reverse)
  }

  lemma {:induction false} KeyFilterAppend<T>(a: seq<T>, b: seq<T>, key: T -> int, k: int)
    ensures KeyFilter(a + b, key, k) == KeyFilter(a, key, k) + KeyFilter(b, key, k)
    decreases |a|
  {
    if a == [] {
      assert a + b == b;
    } else {
      assert (a + b)[0] == a[0];
      assert (a + b)[1..] == a[1..] + b;
      KeyFilterAppend(a[1..], b, key, k);
    }
  }

  /** Inserting `x` adds it to its own key class at the front and leaves the other
      classes alone. */
  lemma {:induction false} InsertKeyFilter<T>(x: T, s: seq<T>, key: T -> int, reverse: bool, k: int)
    ensures KeyFilter(Insert(x, s, key, reverse), key, k)
         == (if key(x) == k then [x] else []) + KeyFilter(s, key, k)
    decreases |s|
  {
    if s == [] || Precedes(key(x), key(s[0]), reverse) {
      KeyFilterAppend([x], s, key, k);
    } else {
      var tail := Insert(x, s[1..], key, reverse);
      KeyFilterAppend([s[0]], tail, key, k);
      InsertKeyFilter(x, s[1..], key, reverse, k);
      assert s == [s[0]] + s[1..];
      KeyFilterAppend([s[0]], s[1..], key, k);
    }
  }

  /** Stability: within every key class the sorted output keeps the input order. */
  lemma {:induction false} SortStable<T>(s: seq<T>, key: T -> int, reverse: bool, k: int)
    ensures KeyFilter(SortBy(s, key, reverse), key, k) == KeyFilter(s, key, k)
    decreases |s|
  {
    if s != [] {
      InsertKeyFilter(s[0], SortBy(s[1..], key, reverse), key, reverse, k);
      SortStable(s[1..], key, reverse, k);
    }
  }

  lemma SortKeepsKeyClasses<T>(s: seq<T>, key: T -> int, reverse: bool)
    ensures SameKeyClasses(SortBy(s, key, reverse), s, key)
  {
    forall k ensures KeyFilter(SortBy(s, key, reverse), key, k) == KeyFilter(s, key, k) {
      SortStable(s, key, reverse, k);
    }
  }

  lemma {:induction false} KeyFilterHas<T>(s: seq<T>, key: T -> int, i: int)
    requires 0 <= i < |s|
    ensures s[i] in KeyFilter(s, key, key(s[i]))
    decreases |s|
  {
    if i > 0 {
      KeyFilterHas(s[1..], key, i - 1);
    }
  }

  lemma {:induction false} KeyFilterFrom<T>(s: seq<T>, key: T -> int, k: int, y: T)
    requires y in KeyFilter(s, key, k)
    ensures y in s && key(y) == k
    decreases |s|
  {
    if s != [] && !(key(s[0]) == k && y == s[0]) {
      KeyFilterFrom(s[1..], key, k, y);
    }
  }

  /** A sorted sequence starts with a record of every key class that comes first. */
  lemma FirstPrecedesAll<T>(s: seq<T>, key: T -> int, reverse: bool, y: T)
    requires SortedBy(s, key, reverse) && y in s
    ensures Precedes(key(s[0]), key(y), reverse)
  {
  }

  lemma SameClassesBothEmpty<T>(r: seq<T>, t: seq<T>, key: T -> int)
    requires SameKeyClasses(r, t, key)
    ensures r == [] <==> t == []
  {
    if t != [] {
      KeyFilterHas(t, key, 0);
      assert KeyFilter(r, key, key(t[0])) != [];
    }
    if r != [] {
      KeyFilterHas(r, key, 0);
      assert KeyFilter(t, key, key(r[0])) != [];
    }
  }

  /** Any two sorted orders with the same key classes are equal: the output of a stable
      sort is determined by its input. */
  lemma {:induction false} SortedWithSameClassesEqual<T>(r: seq<T>, t: seq<T>, key: T -> int, reverse: bool)
    requires SortedBy(r, key, reverse) && SortedBy(t, key, reverse)
    requires SameKeyClasses(r, t, key)
    ensures r == t
    decreases |r| + |t|
  {
    SameClassesBothEmpty(r, t, key);
    if r != [] {
      var kr, kt := key(r[0]), key(t[0]);
      KeyFilterHas(t, key, 0);
      assert t[0] in KeyFilter(r, key, kt);
      KeyFilterFrom(r, key, kt, t[0]);
      FirstPrecedesAll(r, key, reverse, t[0]);
      KeyFilterHas(r, key, 0);
      assert r[0] in KeyFilter(t, key, kr);
      KeyFilterFrom(t, key, kr, r[0]);
      FirstPrecedesAll(t, key, reverse, r[0]);
      assert kr == kt;
      assert r[0] == KeyFilter(r, key, kr)[0] == KeyFilter(t, key, kr)[0] == t[0];
      forall k ensures KeyFilter(r[1..], key, k) == KeyFilter(t[1..], key, k) {
        var head := if kr == k then [r[0]] else [];
        assert KeyFilter(r, key, k) == head + KeyFilter(r[1..], key, k);
        assert KeyFilter(t, key, k) == head + KeyFilter(t[1..], key, k);
        assert KeyFilter(r, key, k) == KeyFilter(t, key, k);
        assert KeyFilter(r[1..], key, k) == KeyFilter(r, key, k)[|head|..];
        assert KeyFilter(t[1..], key, k) == KeyFilter(t, key, k)[|head|..];
      }
      SortedWithSameClassesEqual(r[1..], t[1..], key, reverse);
      assert r == [r[0]] + r[1..] && t == [t[0]] + t[1..];
    }
  }

  /** Whatever stable sort produced `r` (Python's is Timsort), it equals `SortBy`. */
  lemma StableSortIsUnique<T>(s: seq<T>, r: seq<T>, key: T -> int, reverse: bool)
    requires SortedBy(r, key, reverse)
    requires SameKeyClasses(r, s, key)
    ensures r == SortBy(s, key, reverse)
  {
    SortKeepsKeyClasses(s, key, reverse);
    SortedWithSameClassesEqual(r, SortBy(s, key, reverse), key, reverse);
  }
}
