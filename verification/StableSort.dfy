/** The stable sort by an integer key that the correlator (`sort.SliceStable`) and the
    store's ORDER BY clauses rely on, given by insertion, and the property that makes it
    the only possible answer. */
module StableSort {

  predicate SortedBy<T>(s: seq<T>, key: T -> int) {
    forall i, j :: 0 <= i < j < |s| ==> key(s[i]) <= key(s[j])
  }

  /** The elements of s whose key is k, in their order of appearance. */
  function WithKey<T>(s: seq<T>, key: T -> int, k: int): seq<T> {
    if s == [] then []
    else
      var init, last := s[..|s| - 1], s[|s| - 1];
      WithKey(init, key, k) + if key(last) == k then [last] else []
  }

  /** x goes behind every element whose key is not larger. */
  function Insert<T>(s: seq<T>, key: T -> int, x: T): (r: seq<T>)
    ensures |r| == |s| + 1
    ensures multiset(r) == multiset(s) + multiset{x}
  {
    if s == [] || key(s[|s| - 1]) <= key(x) then s + [x]
    else
      var init, last := s[..|s| - 1], s[|s| - 1];
      assert s == init + [last];
      Insert(init, key, x) + [last]
  }

  function SortBy<T>(s: seq<T>, key: T -> int): (r: seq<T>)
    ensures |r| == |s|
    ensures multiset(r) == multiset(s)
  {
    if s == [] then []
    else
      var init, last := s[..|s| - 1], s[|s| - 1];
      assert s == init + [last];
      Insert(SortBy(init, key), key, last)
  }

  lemma SortBySnoc<T>(s: seq<T>, key: T -> int, x: T)
    ensures SortBy(s + [x], key) == Insert(SortBy(s, key), key, x)
  {
    assert (s + [x])[..|s|] == s;
  }

  lemma WithKeySnoc<T>(s: seq<T>, key: T -> int, x: T, k: int)
    ensures WithKey(s + [x], key, k) == WithKey(s, key, k) + if key(x) == k then [x] else []
  {
    assert (s + [x])[..|s|] == s;
  }

  lemma {:induction false} WithKeyMembers<T>(s: seq<T>, key: T -> int, k: int)
    ensures forall x :: x in WithKey(s, key, k) <==> x in s && key(x) == k
  {
    if s == [] {
    } else {
      var init, last := s[..|s| - 1], s[|s| - 1];
      assert s == init + [last];
      WithKeyMembers(init, key, k);
    }
  }

  lemma {:induction false} WithKeyConcat<T>(a: seq<T>, b: seq<T>, key: T -> int, k: int)
    ensures WithKey(a + b, key, k) == WithKey(a, key, k) + WithKey(b, key, k)
    decreases |b|
  {
    if b == [] {
      assert a + b == a;
    } else {
      var init, last := b[..|b| - 1], b[|b| - 1];
      assert a + b == (a + init) + [last];
      WithKeyConcat(a, init, key, k);
      WithKeySnoc(a + init, key, last, k);
    }
  }

  lemma {:induction false} AllWithKey<T>(s: seq<T>, key: T -> int, k: int)
    requires forall i :: 0 <= i < |s| ==> key(s[i]) == k
    ensures WithKey(s, key, k) == s
  {
    if s == [] {
    } else {
      AllWithKey(s[..|s| - 1], key, k);
    }
  }

  /** In a sorted sequence the elements with the smallest key come first. */
  lemma {:induction false} SmallestComeFirst<T>(s: seq<T>, key: T -> int, k: int)
    requires SortedBy(s, key) && forall i :: 0 <= i < |s| ==> key(s[i]) >= k
    ensures |WithKey(s, key, k)| <= |s| && s[..|WithKey(s, key, k)|] == WithKey(s, key, k)
  {
    if s == [] {
    } else {
      var init, last := s[..|s| - 1], s[|s| - 1];
      SmallestComeFirst(init, key, k);
      if key(last) == k {
        AllWithKey(s, key, k);
      } else {
        assert WithKey(s, key, k) == WithKey(init, key, k) + [] == WithKey(init, key, k);
      }
    }
  }

  lemma InsertHolds<T>(s: seq<T>, key: T -> int, x: T, i: nat)
    requires i < |Insert(s, key, x)|
    ensures Insert(s, key, x)[i] == x || Insert(s, key, x)[i] in s
  {
    assert Insert(s, key, x)[i] in multiset(Insert(s, key, x));
  }

  lemma SortedSnoc<T>(s: seq<T>, key: T -> int, x: T)
    requires SortedBy(s, key) && forall i :: 0 <= i < |s| ==> key(s[i]) <= key(x)
    ensures SortedBy(s + [x], key)
  {
  }

  lemma {:induction false} InsertSorted<T>(s: seq<T>, key: T -> int, x: T)
    requires SortedBy(s, key)
    ensures SortedBy(Insert(s, key, x), key)
  {
    if s == [] || key(s[|s| - 1]) <= key(x) {
      SortedSnoc(s, key, x);
    } else {
      var init, last := s[..|s| - 1], s[|s| - 1];
      InsertSorted(init, key, x);
      forall i: nat | i < |Insert(init, key, x)| ensures key(Insert(init, key, x)[i]) <= key(last) {
        InsertHolds(init, key, x, i);
      }
      SortedSnoc(Insert(init, key, x), key, last);
    }
  }

  lemma {:induction false} InsertStable<T>(s: seq<T>, key: T -> int, x: T, k: int)
    requires SortedBy(s, key)
    ensures WithKey(Insert(s, key, x), key, k) == WithKey(s, key, k) + if key(x) == k then [x] else []
  {
    if s == [] || key(s[|s| - 1]) <= key(x) {
      WithKeySnoc(s, key, x, k);
    } else {
      var init, last := s[..|s| - 1], s[|s| - 1];
      InsertStable(init, key, x, k);
      WithKeySnoc(Insert(init, key, x), key, last, k);
    }
  }

  /** SortBy orders by key and keeps equal keys in their original order. */
  lemma {:induction false} SortByStable<T>(s: seq<T>, key: T -> int)
    ensures SortedBy(SortBy(s, key), key)
    ensures forall k :: WithKey(SortBy(s, key), key, k) == WithKey(s, key, k)
  {
    if s == [] {
    } else {
      var init, last := s[..|s| - 1], s[|s| - 1];
      SortByStable(init, key);
      InsertSorted(SortBy(init, key), key, last);
      forall k ensures WithKey(SortBy(s, key), key, k) == WithKey(s, key, k) {
        InsertStable(SortBy(init, key), key, last, k);
      }
    }
  }

  lemma SnocInjective<T>(a: seq<T>, x: T, b: seq<T>, y: T)
    requires a + [x] == b + [y]
    ensures a == b && x == y
  {
    assert |a + [x]| == |a| + 1 && |b + [y]| == |b| + 1;
    assert (a + [x])[|a|] == x && (b + [y])[|b|] == y;
    assert (a + [x])[..|a|] == a && (b + [y])[..|b|] == b;
  }

  /** The last element of a sorted sequence carries the largest key present. */
  lemma LastKeyAgrees<T>(a: seq<T>, b: seq<T>, key: T -> int)
    requires a != [] && SortedBy(b, key)
    requires forall k :: WithKey(a, key, k) == WithKey(b, key, k)
    ensures b != [] && key(a[|a| - 1]) <= key(b[|b| - 1])
  {
    var x := a[|a| - 1];
    WithKeyMembers(a, key, key(x));
    WithKeyMembers(b, key, key(x));
    assert x in WithKey(b, key, key(x));
    assert x in b;
  }

  /** Sortedness and stability leave one possible result. */
  lemma {:induction false} StableSortUnique<T>(a: seq<T>, b: seq<T>, key: T -> int)
    requires SortedBy(a, key) && SortedBy(b, key)
    requires forall k :: WithKey(a, key, k) == WithKey(b, key, k)
    ensures a == b
  {
    if a == [] {
      if b != [] { LastKeyAgrees(b, a, key); }
    } else {
      LastKeyAgrees(a, b, key);
      LastKeyAgrees(b, a, key);
      var x, y := a[|a| - 1], b[|b| - 1];
      var a', b' := a[..|a| - 1], b[..|b| - 1];
      assert a == a' + [x] && b == b' + [y];
      assert WithKey(a, key, key(x)) == WithKey(b, key, key(x));
      SnocInjective(WithKey(a', key, key(x)), x, WithKey(b', key, key(x)), y);
      forall k ensures WithKey(a', key, k) == WithKey(b', key, k) {
        var va, vb := WithKey(a', key, k), WithKey(b', key, k);
        assert WithKey(a, key, k) == WithKey(b, key, k);
        if k != key(x) {
          assert WithKey(a, key, k) == va + [] && WithKey(b, key, k) == vb + [];
          assert va + [] == va && vb + [] == vb;
        }
      }
      assert forall i :: 0 <= i < |a'| ==> a'[i] == a[i];
      assert forall i :: 0 <= i < |b'| ==> b'[i] == b[i];
      StableSortUnique(a', b', key);
    }
  }

  lemma {:induction false} PlacesWithKey<T>(s: seq<T>, key: T -> int, i: nat, j: nat) returns (a: nat, b: nat)
    requires i < j < |s| && key(s[i]) == key(s[j])
    ensures a < b < |WithKey(s, key, key(s[j]))|
    ensures WithKey(s, key, key(s[j]))[a] == s[i] && WithKey(s, key, key(s[j]))[b] == s[j]
  {
    var init, last := s[..|s| - 1], s[|s| - 1];
    var k := key(s[j]);
    if j < |s| - 1 {
      a, b := PlacesWithKey(init, key, i, j);
    } else {
      WithKeyMembers(init, key, k);
      assert init[i] == s[i];
      a :| 0 <= a < |WithKey(init, key, k)| && WithKey(init, key, k)[a] == s[i];
      b := |WithKey(init, key, k)|;
    }
  }

  lemma {:induction false} PlaceOf<T>(s: seq<T>, key: T -> int, k: int, a: nat) returns (i: nat)
    requires a < |WithKey(s, key, k)|
    ensures i < |s| && s[i] == WithKey(s, key, k)[a]
  {
    var init := s[..|s| - 1];
    if a < |WithKey(init, key, k)| {
      i := PlaceOf(init, key, k, a);
    } else {
      i := |s| - 1;
    }
  }

  lemma {:induction false} PlacesBehindKey<T>(s: seq<T>, key: T -> int, k: int, a: nat, b: nat) returns (i: nat, j: nat)
    requires a < b < |WithKey(s, key, k)|
    ensures i < j < |s| && s[i] == WithKey(s, key, k)[a] && s[j] == WithKey(s, key, k)[b]
  {
    var init := s[..|s| - 1];
    if b < |WithKey(init, key, k)| {
      i, j := PlacesBehindKey(init, key, k, a, b);
    } else {
      i := PlaceOf(init, key, k, a);
      j := |s| - 1;
    }
  }

  /** Of two elements with one key, the one that comes out first came in first. */
  lemma TiesKeepOrder<T>(s: seq<T>, key: T -> int, a: nat, b: nat) returns (i: nat, j: nat)
    requires a < b < |s| && key(SortBy(s, key)[a]) == key(SortBy(s, key)[b])
    ensures i < j < |s| && s[i] == SortBy(s, key)[a] && s[j] == SortBy(s, key)[b]
  {
    var sorted := SortBy(s, key);
    SortByStable(s, key);
    var c, d := PlacesWithKey(sorted, key, a, b);
    assert WithKey(sorted, key, key(sorted[b])) == WithKey(s, key, key(sorted[b]));
    i, j := PlacesBehindKey(s, key, key(sorted[b]), c, d);
  }
}
