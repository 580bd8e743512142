/**
 * Generic list operations used by both task stores and the priority menu:
 * the single-element move that drag-and-drop reordering performs
 * (`arrayMove` of the sortable drag-and-drop library: splice the element
 * out at `from`, splice it back in at `to`), the stable sort that
 * `Array.prototype.sort` performs with a numeric-key comparator, and
 * `slice(0, n)`.
 */
module Lists {

  function RemoveAt<T>(s: seq<T>, i: nat): seq<T>
    requires i < |s|
  {
    s[..i] + s[i + 1..]
  }

  function InsertAt<T>(s: seq<T>, i: nat, x: T): seq<T>
    requires i <= |s|
  {
    s[..i] + [x] + s[i..]
  }

  /** Putting back the element just removed, where it was, restores the list. */
  lemma InsertRemoved<T>(s: seq<T>, i: nat)
    requires i < |s|
    ensures InsertAt(RemoveAt(s, i), i, s[i]) == s
  {
    var t := RemoveAt(s, i);
    assert t[..i] == s[..i];
    assert t[i..] == s[i + 1..];
  }

  /** Removing the element just inserted gives back the list it was inserted into. */
  lemma RemoveInserted<T>(s: seq<T>, i: nat, x: T)
    requires i <= |s|
    ensures RemoveAt(InsertAt(s, i, x), i) == s
  {
    var t := InsertAt(s, i, x);
    assert t[..i] == s[..i];
    assert t[i + 1..] == s[i..];
  }

  /**
   * `arrayMove(s, from, to)`: the element at `from` ends up at `to`; the
   * others keep their relative order; nothing is lost or duplicated.
   */
  function ArrayMove<T>(s: seq<T>, from: nat, to: nat): (r: seq<T>)
    requires from < |s| && to < |s|
    ensures |r| == |s|
    ensures r[to] == s[from]
    ensures RemoveAt(r, to) == RemoveAt(s, from)
    ensures multiset(r) == multiset(s)
  {
    var rest := RemoveAt(s, from);
    var r := InsertAt(rest, to, s[from]);
    RemoveInserted(rest, to, s[from]);
    assert s == s[..from] + [s[from]] + s[from + 1..];
    assert multiset(s) == multiset(rest) + multiset{s[from]};
    assert r == rest[..to] + [s[from]] + rest[to..];
    assert rest == rest[..to] + rest[to..];
    r
  }

  /** Where every element of `s` lands under `ArrayMove(s, from, to)`. */
  lemma ArrayMoveAt<T>(s: seq<T>, from: nat, to: nat, k: nat)
    requires from < |s| && to < |s| && k < |s|
    ensures ArrayMove(s, from, to)[k] ==
      if k == to then s[from]
      else if from < to && from <= k < to then s[k + 1]
      else if to < from && to < k <= from then s[k - 1]
      else s[k]
  {
  }

  /**
   * The dragged element lands next to the element it was dropped on: just
   * after it when moved down the list, just before it when moved up.
   */
  lemma ArrayMoveAdjacent<T>(s: seq<T>, from: nat, to: nat)
    requires from < |s| && to < |s| && from != to
    ensures from < to ==> ArrayMove(s, from, to)[to - 1] == s[to]
    ensures to < from ==> ArrayMove(s, from, to)[to + 1] == s[to]
  {
    if from < to {
      ArrayMoveAt(s, from, to, to - 1);
    } else {
      ArrayMoveAt(s, from, to, to + 1);
    }
  }

  /** Dragging back from `to` to `from` undoes a move. */
  lemma ArrayMoveUndo<T>(s: seq<T>, from: nat, to: nat)
    requires from < |s| && to < |s|
    ensures ArrayMove(ArrayMove(s, from, to), to, from) == s
  {
    var r := ArrayMove(s, from, to);
    InsertRemoved(s, from);
    assert ArrayMove(r, to, from) == InsertAt(RemoveAt(r, to), from, r[to]);
  }

  /** Moving an element onto its own index changes nothing. */
  lemma ArrayMoveSame<T>(s: seq<T>, i: nat)
    requires i < |s|
    ensures ArrayMove(s, i, i) == s
  {
    InsertRemoved(s, i);
  }

  /** `sub` is `s` with some elements dropped and the rest in their original order. */
  predicate IsSubsequence<T(==)>(sub: seq<T>, s: seq<T>)
    decreases |s|
  {
    if sub == [] then true
    else if s == [] then false
    else if sub[0] == s[0] then IsSubsequence(sub[1..], s[1..])
    else IsSubsequence(sub, s[1..])
  }

  /** `s.slice(0, n)`. */
  function Take<T>(s: seq<T>, n: nat): (r: seq<T>)
    ensures |r| <= n && |r| <= |s|
    ensures r == s[..|r|]
    ensures |s| >= n ==> |r| == n
  {
    if |s| <= n then s else s[..n]
  }

  // ---------------------------------------------------------------------
  // Stable sorting by an integer key. `Array.prototype.sort` is stable, so
  // with the comparator `(a, b) => key(a) - key(b)` its result is the one
  // sequence that is ordered by key, is a permutation of its input, and
  // keeps elements of equal key in their input order (SortByUnique).
  // ---------------------------------------------------------------------

  predicate SortedBy<T>(s: seq<T>, key: T -> int) {
    forall i, j :: 0 <= i < j < |s| ==> key(s[i]) <= key(s[j])
  }

  /** The elements of `s` whose key is `k`, in their order in `s`. */
  function WithKey<T>(s: seq<T>, key: T -> int, k: int): (r: seq<T>)
    ensures forall i :: 0 <= i < |r| ==> key(r[i]) == k
  {
    if s == [] then []
    else if key(s[0]) == k then [s[0]] + WithKey(s[1..], key, k)
    else WithKey(s[1..], key, k)
  }

  /** The elements of `s` with key `k` keep their relative order in `r`. */
  ghost predicate Stable<T>(r: seq<T>, s: seq<T>, key: T -> int) {
    forall k :: WithKey(r, key, k) == WithKey(s, key, k)
  }

  /** Inserts `x` in front of the first element whose key is at least `key(x)`. */
  function InsertByKey<T>(x: T, s: seq<T>, key: T -> int): (r: seq<T>)
    requires SortedBy(s, key)
    ensures SortedBy(r, key)
    ensures multiset(r) == multiset(s) + multiset{x}
    ensures |r| == |s| + 1
  {
    if s == [] || key(x) <= key(s[0]) then [x] + s
    else
      var t := InsertByKey(x, s[1..], key);
      assert s == [s[0]] + s[1..];
      HeadBelowInserted(x, s, t, key);
      SortedCons(s[0], t, key);
      assert multiset([s[0]] + t) == multiset{s[0]} + multiset(t);
      [s[0]] + t
  }

  /** The head of a sorted list is no greater than anything in the insertion into its tail. */
  lemma HeadBelowInserted<T>(x: T, s: seq<T>, t: seq<T>, key: T -> int)
    requires SortedBy(s, key) && s != [] && key(s[0]) < key(x)
    requires multiset(t) == multiset(s[1..]) + multiset{x}
    ensures forall i :: 0 <= i < |t| ==> key(s[0]) <= key(t[i])
  {
    forall i | 0 <= i < |t| ensures key(s[0]) <= key(t[i]) {
      assert t[i] in multiset(t);
      if t[i] != x {
        assert t[i] in multiset(s[1..]);
        var j :| 0 <= j < |s[1..]| && s[1..][j] == t[i];
        assert s[j + 1] == t[i];
      }
    }
  }

  /** A sorted list stays sorted under a new head no greater than any element. */
  lemma SortedCons<T>(h: T, t: seq<T>, key: T -> int)
    requires SortedBy(t, key) && forall i :: 0 <= i < |t| ==> key(h) <= key(t[i])
    ensures SortedBy([h] + t, key)
  {
    forall i, j | 0 <= i < j < |t| + 1 ensures key(([h] + t)[i]) <= key(([h] + t)[j]) {
      assert ([h] + t)[j] == t[j - 1];
      if i > 0 {
        assert ([h] + t)[i] == t[i - 1];
      }
    }
  }

  /** Everything in a prefix of a sorted list has a key no greater than any element left out. */
  lemma TakeSortedBelow<T>(s: seq<T>, key: T -> int, n: nat, x: T)
    requires SortedBy(s, key) && x in s && x !in Take(s, n)
    ensures forall u :: u in Take(s, n) ==> key(u) <= key(x)
  {
    var r := Take(s, n);
    var j :| 0 <= j < |s| && s[j] == x;
    assert forall k :: 0 <= k < |r| ==> s[k] != x;
    forall u | u in r ensures key(u) <= key(x) {
      var i :| 0 <= i < |r| && r[i] == u;
      assert s[i] == u;
    }
  }

  /** `p` is a prefix of `s`. */
  ghost predicate IsPrefixOf<T>(p: seq<T>, s: seq<T>) {
    |p| <= |s| && s[..|p|] == p
  }

  /** A prefix holds no element more often than the whole sequence. */
  lemma PrefixMultiset<T>(s: seq<T>, m: nat)
    requires m <= |s|
    ensures multiset(s[..m]) <= multiset(s)
  {
    assert s == s[..m] + s[m..];
  }

  /** The elements of one key in a prefix are a prefix of that key's elements. */
  lemma {:induction false} WithKeyPrefix<T>(s: seq<T>, key: T -> int, m: nat, k: int)
    requires m <= |s|
    ensures IsPrefixOf(WithKey(s[..m], key, k), WithKey(s, key, k))
    decreases m
  {
    if m > 0 {
      WithKeyPrefix(s[1..], key, m - 1, k);
      assert s[..m][1..] == s[1..][..m - 1];
    }
  }

  /**
   * The first `n` elements of the sorted sequence hold no element more often
   * than `s` does, and the elements of each key among them are the first of
   * that key in `s`.
   */
  lemma TakeSorted<T>(s: seq<T>, key: T -> int, n: nat)
    ensures multiset(Take(SortBy(s, key), n)) <= multiset(s)
    ensures forall k :: IsPrefixOf(WithKey(Take(SortBy(s, key), n), key, k), WithKey(s, key, k))
  {
    var sorted := SortBy(s, key);
    var r := Take(sorted, n);
    PrefixMultiset(sorted, |r|);
    SortByStable(s, key);
    forall k ensures IsPrefixOf(WithKey(r, key, k), WithKey(s, key, k)) {
      WithKeyPrefix(sorted, key, |r|, k);
    }
  }

  /** The stable insertion sort: ordered by key and a permutation of `s`. */
  function SortBy<T>(s: seq<T>, key: T -> int): (r: seq<T>)
    ensures SortedBy(r, key)
    ensures multiset(r) == multiset(s)
    ensures |r| == |s|
  {
    if s == [] then []
    else
      assert s == [s[0]] + s[1..];
      InsertByKey(s[0], SortBy(s[1..], key), key)
  }

  lemma {:induction false} WithKeyInsert<T>(x: T, s: seq<T>, key: T -> int, k: int)
    requires SortedBy(s, key)
    ensures WithKey(InsertByKey(x, s, key), key, k) ==
      if key(x) == k then [x] + WithKey(s, key, k) else WithKey(s, key, k)
  {
    if s == [] || key(x) <= key(s[0]) {
      assert ([x] + s)[1..] == s;
      if key(x) == k && s != [] && key(s[0]) < k {
        assert false;
      }
    } else {
      var t := InsertByKey(x, s[1..], key);
      WithKeyInsert(x, s[1..], key, k);
      assert ([s[0]] + t)[1..] == t;
      if key(x) == k && key(s[0]) == k {
        assert false;
      }
    }
  }

  /** Sorting keeps the elements of each key in their input order. */
  lemma {:induction false} SortByStable<T>(s: seq<T>, key: T -> int)
    ensures Stable(SortBy(s, key), s, key)
  {
    if s != [] {
      SortByStable(s[1..], key);
      forall k ensures WithKey(SortBy(s, key), key, k) == WithKey(s, key, k) {
        WithKeyInsert(s[0], SortBy(s[1..], key), key, k);
      }
    }
  }

  lemma {:induction false} WithKeyMultiset<T>(s: seq<T>, key: T -> int, x: T)
    ensures multiset(WithKey(s, key, key(x)))[x] == multiset(s)[x]
  {
    if s != [] {
      WithKeyMultiset(s[1..], key, x);
      assert s == [s[0]] + s[1..];
    }
  }

  /** The first element of a sequence sorted by key has the smallest key of the sequence. */
  lemma SortedHeadIsLeast<T>(s: seq<T>, key: T -> int, y: T)
    requires SortedBy(s, key) && s != [] && y in multiset(s)
    ensures key(s[0]) <= key(y)
  {
    var j :| 0 <= j < |s| && s[j] == y;
  }

  lemma {:induction false} WithKeyHead<T>(s: seq<T>, key: T -> int)
    requires SortedBy(s, key) && s != []
    ensures WithKey(s, key, key(s[0])) == [s[0]] + WithKey(s[1..], key, key(s[0]))
    ensures forall k :: k != key(s[0]) ==> WithKey(s, key, k) == WithKey(s[1..], key, k)
  {
  }

  /**
   * Two sequences ordered by key that agree on the order of every key class
   * are equal: a stable sort by key has exactly one possible result.
   */
  lemma {:induction false} SortedStableUnique<T>(a: seq<T>, b: seq<T>, key: T -> int)
    requires SortedBy(a, key) && SortedBy(b, key)
    requires multiset(a) == multiset(b)
    requires forall k :: WithKey(a, key, k) == WithKey(b, key, k)
    ensures a == b
  {
    if a != [] {
      assert |b| == |a| by { assert |multiset(a)| == |multiset(b)|; }
      assert a[0] in multiset(b);
      assert b[0] in multiset(a);
      SortedHeadIsLeast(b, key, a[0]);
      SortedHeadIsLeast(a, key, b[0]);
      var m := key(a[0]);
      WithKeyHead(a, key);
      WithKeyHead(b, key);
      assert a[0] == b[0] by {
        assert WithKey(a, key, m)[0] == WithKey(b, key, m)[0];
      }
      forall k ensures WithKey(a[1..], key, k) == WithKey(b[1..], key, k) {
        if k == m {
          assert WithKey(a[1..], key, k) == WithKey(a, key, k)[1..];
        }
      }
      MultisetTail(a, b);
      SortedStableUnique(a[1..], b[1..], key);
    }
  }

  lemma MultisetTail<T>(a: seq<T>, b: seq<T>)
    requires a != [] && b != [] && a[0] == b[0] && multiset(a) == multiset(b)
    ensures multiset(a[1..]) == multiset(b[1..])
  {
    assert a == [a[0]] + a[1..];
    assert b == [b[0]] + b[1..];
    assert multiset(a[1..]) == multiset(a) - multiset{a[0]};
    assert multiset(b[1..]) == multiset(b) - multiset{b[0]};
  }

  /** Any stable sort by key returns exactly what SortBy returns. */
  lemma SortByUnique<T>(s: seq<T>, r: seq<T>, key: T -> int)
    requires SortedBy(r, key) && multiset(r) == multiset(s) && Stable(r, s, key)
    ensures r == SortBy(s, key)
  {
    SortByStable(s, key);
    SortedStableUnique(r, SortBy(s, key), key);
  }
}
