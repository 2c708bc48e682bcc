/**
 * Python's built-in `sorted(xs, key=f)` and `xs.sort(key=f)` for keys that are pairs of
 * integers compared like tuples: the result is ordered by key, is a permutation of the
 * input, and keeps the input order among elements with equal keys (the sort is stable).
 */
module StableSort {

  /** A sort key `(major, minor)`, compared lexicographically like a Python tuple. */
  datatype Key = Key(major: int, minor: int)

  predicate KeyLe(a: Key, b: Key) {
    a.major < b.major || (a.major == b.major && a.minor <= b.minor)
  }

  /** Places `x` before the first element of `s` whose key is not smaller than its own. */
  function Insert<T>(x: T, s: seq<T>, key: T -> Key): seq<T>
    decreases |s|
  {
    if s == [] || KeyLe(key(x), key(s[0])) then [x] + s
    else [s[0]] + Insert(x, s[1..], key)
  }

  /** `sorted(s, key=key)`, as an insertion sort that inserts earlier elements last. */
  function SortBy<T>(s: seq<T>, key: T -> Key): seq<T>
    decreases |s|
  {
    if s == [] then [] else Insert(s[0], SortBy(s[1..], key), key)
  }

  predicate Sorted<T>(s: seq<T>, key: T -> Key) {
    forall i, j :: 0 <= i < j < |s| ==> KeyLe(key(s[i]), key(s[j]))
  }

  /** The elements of `s` whose key is `k`, in their order in `s`. */
  function WithKey<T>(s: seq<T>, key: T -> Key, k: Key): seq<T>
    decreases |s|
  {
    if s == [] then [] else (if key(s[0]) == k then [s[0]] else []) + WithKey(s[1..], key, k)
  }

  lemma {:induction false} InsertPermutes<T>(x: T, s: seq<T>, key: T -> Key)
    ensures multiset(Insert(x, s, key)) == multiset(s) + multiset{x}
    decreases |s|
  {
    if s != [] && !KeyLe(key(x), key(s[0])) {
      InsertPermutes(x, s[1..], key);
      assert s == [s[0]] + s[1..];
    }
  }

  lemma {:induction false} InsertSorted<T>(x: T, s: seq<T>, key: T -> Key)
    requires Sorted(s, key)
    ensures Sorted(Insert(x, s, key), key)
    decreases |s|
  {
    var r := Insert(x, s, key);
    if s == [] || KeyLe(key(x), key(s[0])) {
      forall i, j | 0 <= i < j < |r| ensures KeyLe(key(r[i]), key(r[j])) {
        if i > 0 {
          assert r[i] == s[i - 1] && r[j] == s[j - 1];
        } else if j > 1 {
          assert r[j] == s[j - 1];
          assert KeyLe(key(s[0]), key(s[j - 1]));
        }
      }
    } else {
      var t := s[1..];
      InsertSorted(x, t, key);
      InsertPermutes(x, t, key);
      assert r[1..] == Insert(x, t, key);
      forall i, j | 0 <= i < j < |r| ensures KeyLe(key(r[i]), key(r[j])) {
        if i == 0 {
          var e := r[j];
          assert e == Insert(x, t, key)[j - 1];
          assert e in multiset(Insert(x, t, key));
          if e != x {
            assert e in multiset(t);
            var m :| 0 <= m < |t| && t[m] == e;
            assert s[m + 1] == e;
          }
        } else {
          assert r[i] == Insert(x, t, key)[i - 1] && r[j] == Insert(x, t, key)[j - 1];
        }
      }
    }
  }

  lemma {:induction false} InsertWithKey<T>(x: T, s: seq<T>, key: T -> Key, k: Key)
    ensures WithKey(Insert(x, s, key), key, k) == (if key(x) == k then [x] else []) + WithKey(s, key, k)
    decreases |s|
  {
    var r := Insert(x, s, key);
    if s == [] || KeyLe(key(x), key(s[0])) {
      assert r[1..] == s;
    } else {
      var t := s[1..];
      InsertWithKey(x, t, key, k);
      assert r[1..] == Insert(x, t, key);
      if key(x) == k {
        assert key(s[0]) != k;
      }
    }
  }

  /** `sorted` orders by key, permutes its input, and is stable. */
  lemma {:induction false} SortByFacts<T>(s: seq<T>, key: T -> Key)
    ensures Sorted(SortBy(s, key), key)
    ensures multiset(SortBy(s, key)) == multiset(s)
    ensures |SortBy(s, key)| == |s|
    ensures forall k :: WithKey(SortBy(s, key), key, k) == WithKey(s, key, k)
    decreases |s|
  {
    if s != [] {
      SortByFacts(s[1..], key);
      InsertPermutes(s[0], SortBy(s[1..], key), key);
      InsertSorted(s[0], SortBy(s[1..], key), key);
      forall k ensures WithKey(SortBy(s, key), key, k) == WithKey(s, key, k) {
        InsertWithKey(s[0], SortBy(s[1..], key), key, k);
      }
      assert s == [s[0]] + s[1..];
      assert multiset(s) == multiset{s[0]} + multiset(s[1..]);
      assert |SortBy(s, key)| == |multiset(SortBy(s, key))|;
    }
  }
}
