/**
 * `Array.prototype.sort` with a numeric comparator `(a, b) => key(a) - key(b)`.
 * The ECMAScript specification requires the sort to be stable, so the result is the
 * unique arrangement that is ordered by key, has the same elements, and keeps elements
 * with equal keys in their input order; `SortBy` is that arrangement, built by insertion.
 */
module StableSort {

  predicate SortedBy<T>(s: seq<T>, key: T -> real)
  {
    forall i, j :: 0 <= i < j < |s| ==> key(s[i]) <= key(s[j])
  }

  /** Places `x` after every element of `t` whose key is not above its own. */
  function Insert<T>(t: seq<T>, x: T, key: T -> real): (r: seq<T>)
    ensures |r| == |t| + 1
    ensures multiset(r) == multiset(t) + multiset{x}
  {
    if t == [] || key(t[|t| - 1]) <= key(x) then t + [x]
    else
      var init := t[..|t| - 1];
      assert t == init + [t[|t| - 1]];
      Insert(init, x, key) + [t[|t| - 1]]
  }

  /** The stable sort of `s` by `key`: each element inserted in turn, front to back. */
  function SortBy<T>(s: seq<T>, key: T -> real): (r: seq<T>)
    ensures multiset(r) == multiset(s)
    ensures |r| == |s|
    ensures SortedBy(r, key)
  {
    if s == [] then []
    else
      var init := s[..|s| - 1];
      assert s == init + [s[|s| - 1]];
      var sorted := SortBy(init, key);
      InsertSorted(sorted, s[|s| - 1], key);
      Insert(sorted, s[|s| - 1], key)
  }

  lemma {:induction false} InsertSorted<T>(t: seq<T>, x: T, key: T -> real)
    requires SortedBy(t, key)
    ensures SortedBy(Insert(t, x, key), key)
  {
    if t != [] && key(x) < key(t[|t| - 1]) {
      var init := t[..|t| - 1];
      var last := t[|t| - 1];
      assert SortedBy(init, key);
      InsertSorted(init, x, key);
      var r := Insert(init, x, key);
      forall e | e in r ensures key(e) <= key(last) {
        assert e in multiset(r);
        if e != x {
          assert e in multiset(init);
          var k :| 0 <= k < |init| && init[k] == e;
          assert t[k] == e;
        }
      }
      forall i, j | 0 <= i < j < |r + [last]| ensures key((r + [last])[i]) <= key((r + [last])[j]) {
        if j == |r| {
          assert (r + [last])[i] == r[i] && r[i] in r;
        } else {
          assert (r + [last])[i] == r[i] && (r + [last])[j] == r[j];
        }
      }
    }
  }

  // ------------------------------------------------------------ stability

  /** The elements of `s` whose key is `k`, in their order in `s`. */
  function FilterKey<T>(s: seq<T>, key: T -> real, k: real): seq<T>
  {
    if s == [] then []
    else FilterKey(s[..|s| - 1], key, k) + (if key(s[|s| - 1]) == k then [s[|s| - 1]] else [])
  }

  lemma {:induction false} FilterKeyAppend<T>(a: seq<T>, b: seq<T>, key: T -> real, k: real)
    ensures FilterKey(a + b, key, k) == FilterKey(a, key, k) + FilterKey(b, key, k)
    decreases |b|
  {
    if b == [] {
      assert a + b == a;
    } else {
      var init := b[..|b| - 1];
      FilterKeyAppend(a, init, key, k);
      assert (a + b)[..|a + b| - 1] == a + init;
    }
  }

  /** Inserting `x` adds it at the end of its own key's elements and changes no other key's elements. */
  lemma {:induction false} InsertFilterKey<T>(t: seq<T>, x: T, key: T -> real, k: real)
    ensures FilterKey(Insert(t, x, key), key, k) == FilterKey(t, key, k) + (if key(x) == k then [x] else [])
  {
    if t == [] || key(t[|t| - 1]) <= key(x) {
      assert Insert(t, x, key) == t + [x];
      FilterKeyAppend(t, [x], key, k);
      FilterKeySingle(x, key, k);
    } else {
      var init := t[..|t| - 1];
      var last := t[|t| - 1];
      InsertFilterKey(init, x, key, k);
      InsertFilterKeyBefore(init, last, x, key, k);
      assert init + [last] == t;
    }
  }

  /** The step of `InsertFilterKey` where `x` goes before the last element `last`, whose key is larger. */
  lemma InsertFilterKeyBefore<T>(init: seq<T>, last: T, x: T, key: T -> real, k: real)
    requires key(x) < key(last)
    requires FilterKey(Insert(init, x, key), key, k) == FilterKey(init, key, k) + (if key(x) == k then [x] else [])
    ensures FilterKey(Insert(init, x, key) + [last], key, k)
            == FilterKey(init + [last], key, k) + (if key(x) == k then [x] else [])
  {
    var xs := if key(x) == k then [x] else [];
    var ls := if key(last) == k then [last] else [];
    FilterKeyAppend(Insert(init, x, key), [last], key, k);
    FilterKeyAppend(init, [last], key, k);
    FilterKeySingle(last, key, k);
    assert xs + ls == ls + xs;
  }

  lemma FilterKeySingle<T>(x: T, key: T -> real, k: real)
    ensures FilterKey([x], key, k) == if key(x) == k then [x] else []
  {
    assert [x][..0] == [];
  }

  /** The sort is stable: for every key, the elements with that key keep their input order. */
  lemma {:induction false} SortByStable<T>(s: seq<T>, key: T -> real, k: real)
    ensures FilterKey(SortBy(s, key), key, k) == FilterKey(s, key, k)
  {
    if s != [] {
      var init := s[..|s| - 1];
      SortByStable(init, key, k);
      InsertFilterKey(SortBy(init, key), s[|s| - 1], key, k);
    }
  }

  /** Sorting a sequence that is already ordered leaves it as it is. */
  lemma {:induction false} SortBySortedIdentity<T>(s: seq<T>, key: T -> real)
    requires SortedBy(s, key)
    ensures SortBy(s, key) == s
  {
    if s != [] {
      var init := s[..|s| - 1];
      assert SortedBy(init, key);
      SortBySortedIdentity(init, key);
    }
  }
}
