/** Whether the dependents of a group come in the order the buffer observed them. */
module BufferOrder {
  import opened Alerts
  import opened StableSort
  import opened Clustering
  import opened Grouping

  /** Splitting leaves the order of the cluster alone exactly when there is nothing to split or the
      cluster is chronological as it is. */
  lemma SplitKeepsOrderIff(cluster: seq<Alert>, max: int)
    ensures Concat(Capped(cluster, max)) == cluster <==> max <= 0 || |cluster| <= max || SortedBy(cluster, StartsAt)
  {
    if max <= 0 || |cluster| <= max {
      ConcatOne(cluster);
    } else {
      CappedOversize(cluster, max);
      if SortedBy(cluster, StartsAt) {
        StableSortUnique(Concat(Capped(cluster, max)), cluster, StartsAt);
      }
    }
  }

  predicate NoRepeats(s: seq<Alert>) {
    forall i, j :: 0 <= i < j < |s| ==> s[i] != s[j]
  }

  /** The members of part in the order the cluster observed them. */
  function Observed(cluster: seq<Alert>, part: seq<Alert>): seq<Alert> {
    if cluster == [] then []
    else
      var before, last := Observed(cluster[..|cluster| - 1], part), cluster[|cluster| - 1];
      if last in part then before + [last] else before
  }

  lemma ObservedSnoc(s: seq<Alert>, x: Alert, part: seq<Alert>)
    ensures Observed(s + [x], part) == if x in part then Observed(s, part) + [x] else Observed(s, part)
  {
    assert (s + [x])[..|s|] == s;
  }

  lemma {:induction false} ObservedConcat(a: seq<Alert>, b: seq<Alert>, part: seq<Alert>)
    ensures Observed(a + b, part) == Observed(a, part) + Observed(b, part)
    decreases |b|
  {
    if b == [] {
      assert a + b == a;
    } else {
      var init, last := b[..|b| - 1], b[|b| - 1];
      assert a + b == (a + init) + [last];
      ObservedConcat(a, init, part);
      ObservedSnoc(a + init, last, part);
    }
  }

  lemma {:induction false} ObservedNone(s: seq<Alert>, part: seq<Alert>)
    requires forall x :: x in s ==> x !in part
    ensures Observed(s, part) == []
  {
    if s == [] {
    } else {
      ObservedNone(s[..|s| - 1], part);
    }
  }

  lemma {:induction false} ObservedAll(s: seq<Alert>, part: seq<Alert>)
    requires forall x :: x in s ==> x in part
    ensures Observed(s, part) == s
  {
    if s == [] {
    } else {
      ObservedAll(s[..|s| - 1], part);
    }
  }

  /** Picking by key and picking by membership commute. */
  lemma {:induction false} ObservedWithKey(s: seq<Alert>, part: seq<Alert>, t: int)
    ensures WithKey(Observed(s, part), StartsAt, t) == Observed(WithKey(s, StartsAt, t), part)
  {
    if s == [] {
    } else {
      var init, last := s[..|s| - 1], s[|s| - 1];
      ObservedWithKey(init, part, t);
      WithKeySnoc(Observed(init, part), StartsAt, last, t);
      ObservedSnoc(WithKey(init, StartsAt, t), last, part);
      assert WithKey(Observed(init, part), StartsAt, t) + [] == WithKey(Observed(init, part), StartsAt, t);
      assert WithKey(init, StartsAt, t) + [] == WithKey(init, StartsAt, t);
    }
  }

  lemma Apart(a: seq<Alert>, b: seq<Alert>)
    requires NoRepeats(a + b)
    ensures NoRepeats(a) && NoRepeats(b)
    ensures forall x :: x in a ==> x !in b
  {
    forall i, j | 0 <= i < |a| && 0 <= j < |b| ensures a[i] != b[j] {
      assert (a + b)[i] == a[i] && (a + b)[|a| + j] == b[j];
    }
    forall i, j | 0 <= i < j < |a| ensures a[i] != a[j] {
      assert (a + b)[i] == a[i] && (a + b)[j] == a[j];
    }
    forall i, j | 0 <= i < j < |b| ensures b[i] != b[j] {
      assert (a + b)[|a| + i] == b[i] && (a + b)[|a| + j] == b[j];
    }
  }

  lemma ObservedParts(a: seq<Alert>, x: seq<Alert>, b: seq<Alert>, part: seq<Alert>)
    ensures Observed(a + (x + b), part) == Observed(a, part) + (Observed(x, part) + Observed(b, part))
  {
    ObservedConcat(a, x + b, part);
    ObservedConcat(x, b, part);
  }

  lemma ObservedOther(x: Alert, part: seq<Alert>)
    requires x !in part
    ensures Observed([x], part) == []
  {
    ObservedNone([x], part);
  }

  lemma NotInEither(a: seq<Alert>, x: Alert, b: seq<Alert>)
    requires x !in a && x !in b
    ensures x !in a + b
  {
  }

  lemma DropEmpty(a: seq<Alert>, b: seq<Alert>)
    ensures a + ([] + b) == a + b
  {
    assert [] + b == b;
  }

  lemma ObservedWithout(a: seq<Alert>, x: Alert, b: seq<Alert>)
    requires x !in a && x !in b
    ensures Observed(a + ([x] + b), a + b) == a + b
  {
    var part := a + b;
    NotInEither(a, x, b);
    ObservedParts(a, [x], b, part);
    ObservedAll(a, part);
    ObservedOther(x, part);
    ObservedAll(b, part);
    DropEmpty(a, b);
  }

  lemma MiddleApart(a: seq<Alert>, x: Alert, b: seq<Alert>)
    requires NoRepeats(a + ([x] + b))
    ensures x !in a && x !in b
  {
    Apart(a, [x] + b);
    Apart([x], b);
    assert x in [x] && x in [x] + b;
  }

  lemma ObservedInside(pre: seq<Alert>, mid: seq<Alert>, post: seq<Alert>, part: seq<Alert>)
    requires NoRepeats(pre + (mid + post)) && forall x :: x in part ==> x in mid
    ensures Observed(pre + (mid + post), part) == Observed(mid, part)
  {
    Apart(pre, mid + post);
    Apart(mid, post);
    ObservedParts(pre, mid, post, part);
    ObservedNone(pre, part);
    ObservedNone(post, part);
    assert [] + (Observed(mid, part) + []) == Observed(mid, part);
  }

  /** Every chunk is a stretch of what is cut. */
  lemma {:induction false} ChunkIsStretch<T>(s: seq<T>, max: int, k: nat)
    requires max > 0 && k < |Chunks(s, max)|
    ensures exists pre, post :: s == pre + (Chunks(s, max)[k] + post)
    decreases k
  {
    if |s| <= max {
      assert s == [] + (Chunks(s, max)[k] + []);
    } else if k == 0 {
      assert s == [] + (Chunks(s, max)[k] + s[max..]);
    } else {
      ChunkIsStretch(s[max..], max, k - 1);
      var pre, post :| s[max..] == pre + (Chunks(s[max..], max)[k - 1] + post);
      assert s == (s[..max] + pre) + (Chunks(s, max)[k] + post);
    }
  }

  /** A group's dependents are what the cluster's own order and what the cut's order observe. */
  lemma DependentsObserved(topo: Topology, s: seq<Alert>, pre: seq<Alert>, chunk: seq<Alert>, post: seq<Alert>)
    requires NoRepeats(s) && s == pre + (chunk + post) && chunk != []
    ensures Observed(s, GroupOf(topo, chunk).dependents) == GroupOf(topo, chunk).dependents
  {
    var p := PrimaryBelow(topo, chunk, |chunk|);
    var a, b := chunk[..p], chunk[p + 1..];
    Apart(pre, chunk + post);
    Apart(chunk, post);
    assert chunk == a + ([chunk[p]] + b);
    MiddleApart(a, chunk[p], b);
    ObservedWithout(a, chunk[p], b);
    forall x | x in a + b ensures x in chunk {
      assert x in a || x in b;
    }
    ObservedInside(pre, chunk, post, a + b);
  }

  lemma {:induction false} OnceEach(s: seq<Alert>, x: Alert)
    requires NoRepeats(s)
    ensures multiset(s)[x] <= 1
  {
    if s == [] {
    } else {
      var init, last := s[..|s| - 1], s[|s| - 1];
      assert s == init + [last];
      OnceEach(init, x);
      assert last !in init;
    }
  }

  lemma CountsTwice(s: seq<Alert>, i: nat, j: nat)
    requires i < j < |s| && s[i] == s[j]
    ensures multiset(s)[s[i]] >= 2
  {
    assert s == s[..j] + s[j..];
    assert multiset(s)[s[i]] == multiset(s[..j])[s[i]] + multiset(s[j..])[s[i]];
    assert s[i] == s[..j][i] && s[j] == s[j..][0];
    assert s[i] in multiset(s[..j]) && s[i] in multiset(s[j..]);
  }

  lemma TwiceInSorted(cluster: seq<Alert>, i: nat, j: nat)
    requires NoRepeats(cluster) && i < j < |cluster|
    ensures SortBy(cluster, StartsAt)[i] != SortBy(cluster, StartsAt)[j]
  {
    var sorted := SortBy(cluster, StartsAt);
    OnceEach(cluster, sorted[i]);
    if sorted[i] == sorted[j] { CountsTwice(sorted, i, j); }
  }

  lemma SortedNoRepeats(cluster: seq<Alert>)
    requires NoRepeats(cluster)
    ensures NoRepeats(SortBy(cluster, StartsAt))
  {
    var sorted := SortBy(cluster, StartsAt);
    forall i, j | 0 <= i < j < |sorted| ensures sorted[i] != sorted[j] {
      if sorted[i] == sorted[j] { TwiceInSorted(cluster, i, j); }
    }
  }

  lemma StretchSorted(pre: seq<Alert>, mid: seq<Alert>, post: seq<Alert>, p: nat)
    requires SortedBy(pre + (mid + post), StartsAt) && p < |mid|
    ensures SortedBy(mid[..p] + mid[p + 1..], StartsAt)
  {
    var s, r := pre + (mid + post), mid[..p] + mid[p + 1..];
    forall i, j | 0 <= i < j < |r| ensures StartsAt(r[i]) <= StartsAt(r[j]) {
      var a, b := if i < p then i else i + 1, if j < p then j else j + 1;
      assert s[|pre| + a] == mid[a] == r[i] && s[|pre| + b] == mid[b] == r[j];
    }
  }

  lemma SortedObserves(cluster: seq<Alert>, part: seq<Alert>, t: int)
    ensures WithKey(Observed(SortBy(cluster, StartsAt), part), StartsAt, t)
         == WithKey(Observed(cluster, part), StartsAt, t)
  {
    SortByStable(cluster, StartsAt);
    assert WithKey(SortBy(cluster, StartsAt), StartsAt, t) == WithKey(cluster, StartsAt, t);
    ObservedWithKey(SortBy(cluster, StartsAt), part, t);
    ObservedWithKey(cluster, part, t);
  }

  /** What stands in order of the starts stands in buffer order exactly when that is the same. */
  lemma OrdersAgreeIff(cluster: seq<Alert>, part: seq<Alert>)
    requires SortedBy(part, StartsAt) && Observed(SortBy(cluster, StartsAt), part) == part
    ensures part == Observed(cluster, part) <==> SortedBy(Observed(cluster, part), StartsAt)
  {
    if SortedBy(Observed(cluster, part), StartsAt) {
      forall t ensures WithKey(part, StartsAt, t) == WithKey(Observed(cluster, part), StartsAt, t) {
        SortedObserves(cluster, part, t);
      }
      StableSortUnique(part, Observed(cluster, part), StartsAt);
    }
  }

  lemma DependentsSorted(topo: Topology, pre: seq<Alert>, chunk: seq<Alert>, post: seq<Alert>)
    requires SortedBy(pre + (chunk + post), StartsAt) && chunk != []
    ensures SortedBy(GroupOf(topo, chunk).dependents, StartsAt)
  {
    StretchSorted(pre, chunk, post, PrimaryBelow(topo, chunk, |chunk|));
  }

  lemma StretchDependents(topo: Topology, sorted: seq<Alert>, pre: seq<Alert>, chunk: seq<Alert>, post: seq<Alert>)
    requires SortedBy(sorted, StartsAt) && NoRepeats(sorted) && sorted == pre + (chunk + post) && chunk != []
    ensures SortedBy(GroupOf(topo, chunk).dependents, StartsAt)
    ensures Observed(sorted, GroupOf(topo, chunk).dependents) == GroupOf(topo, chunk).dependents
  {
    DependentsObserved(topo, sorted, pre, chunk, post);
    DependentsSorted(topo, pre, chunk, post);
  }

  lemma ChunkDependents(topo: Topology, sorted: seq<Alert>, max: int, k: nat)
    requires SortedBy(sorted, StartsAt) && NoRepeats(sorted)
    requires max > 0 && k < |Chunks(sorted, max)| && Chunks(sorted, max)[k] != []
    ensures SortedBy(GroupOf(topo, Chunks(sorted, max)[k]).dependents, StartsAt)
    ensures Observed(sorted, GroupOf(topo, Chunks(sorted, max)[k]).dependents)
         == GroupOf(topo, Chunks(sorted, max)[k]).dependents
  {
    ChunkIsStretch(sorted, max, k);
    var pre, post :| sorted == pre + (Chunks(sorted, max)[k] + post);
    StretchDependents(topo, sorted, pre, Chunks(sorted, max)[k], post);
  }

  lemma SplitDependentsOrder(topo: Topology, cluster: seq<Alert>, max: int, k: nat)
    requires NoRepeats(cluster) && 0 < max < |cluster| && k < |Capped(cluster, max)| && Capped(cluster, max)[k] != []
    ensures var dependents := GroupOf(topo, Capped(cluster, max)[k]).dependents;
      dependents == Observed(cluster, dependents) <==> SortedBy(Observed(cluster, dependents), StartsAt)
  {
    SortByStable(cluster, StartsAt);
    SortedNoRepeats(cluster);
    ChunkDependents(topo, SortBy(cluster, StartsAt), max, k);
    OrdersAgreeIff(cluster, GroupOf(topo, Capped(cluster, max)[k]).dependents);
  }

  /** The dependents of a group keep the order the buffer observed them in exactly when the cluster
      was not split or that order is chronological. No alert stands twice in a buffer. */
  lemma DependentsKeepOrderIff(topo: Topology, cluster: seq<Alert>, max: int, k: nat)
    requires NoRepeats(cluster) && cluster != [] && k < |Capped(cluster, max)| && Capped(cluster, max)[k] != []
    ensures var dependents := GroupOf(topo, Capped(cluster, max)[k]).dependents;
      dependents == Observed(cluster, dependents)
      <==> max <= 0 || |cluster| <= max || SortedBy(Observed(cluster, dependents), StartsAt)
  {
    var chunk := Capped(cluster, max)[k];
    var dependents := GroupOf(topo, chunk).dependents;
    if max <= 0 || |cluster| <= max {
      assert cluster == [] + (chunk + []);
      DependentsObserved(topo, cluster, [], chunk, []);
    } else {
      SplitDependentsOrder(topo, cluster, max, k);
    }
  }

  lemma {:induction false} InsertInFront(s: seq<Alert>, x: Alert)
    requires forall y :: y in s ==> x.startsAt < y.startsAt
    ensures Insert(s, StartsAt, x) == [x] + s
  {
    if s == [] {
    } else {
      var init, last := s[..|s| - 1], s[|s| - 1];
      assert s == init + [last] && last in s;
      InsertInFront(init, x);
      assert Insert(s, StartsAt, x) == Insert(init, StartsAt, x) + [last];
      assert ([x] + init) + [last] == [x] + s;
    }
  }

  lemma SortByEarlier(s: seq<Alert>, x: Alert)
    requires forall y :: y in s ==> x.startsAt < y.startsAt
    ensures SortBy(s + [x], StartsAt) == [x] + SortBy(s, StartsAt)
  {
    SortBySnoc(s, StartsAt, x);
    forall y | y in SortBy(s, StartsAt) ensures x.startsAt < y.startsAt {
      SortedMembers(s, y);
    }
    InsertInFront(SortBy(s, StartsAt), x);
  }

  lemma SortByLater(s: seq<Alert>, x: Alert)
    requires forall y :: y in s ==> y.startsAt <= x.startsAt
    ensures SortBy(s + [x], StartsAt) == SortBy(s, StartsAt) + [x]
  {
    SortBySnoc(s, StartsAt, x);
    var sorted := SortBy(s, StartsAt);
    if sorted != [] { SortedMembers(s, sorted[|sorted| - 1]); }
  }

  lemma SortByOne(c: Alert)
    ensures SortBy([c], StartsAt) == [c]
  {
    SortByLater([], c);
    assert [] + [c] == [c];
  }

  lemma TwoReversed(b: Alert, c: Alert)
    requires b.startsAt < c.startsAt
    ensures SortBy([c] + [b], StartsAt) == [b] + [c]
  {
    SortByOne(c);
    SortByEarlier([c], b);
  }

  lemma ThreeReversed(a: Alert, b: Alert, c: Alert)
    requires a.startsAt < b.startsAt < c.startsAt
    ensures SortBy([c] + [b] + [a], StartsAt) == [a] + ([b] + [c])
  {
    TwoReversed(b, c);
    SortByEarlier([c] + [b], a);
  }

  lemma FourReversed(a: Alert, b: Alert, c: Alert, d: Alert)
    requires a.startsAt < b.startsAt < c.startsAt < d.startsAt
    ensures SortBy([c] + [b] + [a] + [d], StartsAt) == [a] + ([b] + [c]) + [d]
  {
    ThreeReversed(a, b, c);
    SortByLater([c] + [b] + [a], d);
  }

  lemma Spelled(a: Alert, b: Alert, c: Alert, d: Alert)
    ensures [c] + [b] + [a] + [d] == [c, b, a, d] && ([a] + ([b] + [c]) + [d])[..3] == [a, b, c]
  {
  }

  lemma FirstOfCapped(cluster: seq<Alert>, max: int)
    requires 0 < max < |cluster|
    ensures Capped(cluster, max)[0] == SortBy(cluster, StartsAt)[..max]
  {
  }

  lemma FirstChunkReversed(a: Alert, b: Alert, c: Alert, d: Alert)
    requires a.startsAt < b.startsAt < c.startsAt < d.startsAt
    ensures Capped([c, b, a, d], 3)[0] == [a, b, c]
  {
    FourReversed(a, b, c, d);
    Spelled(a, b, c, d);
    FirstOfCapped([c, b, a, d], 3);
  }

  lemma ObservedReversed(a: Alert, b: Alert, c: Alert, d: Alert)
    requires a.startsAt < b.startsAt < c.startsAt && d != b && d != c
    ensures Observed([c, b, a, d], [b, c]) == [c, b]
  {
    ObservedParts([c, b], [a], [d], [b, c]);
    ObservedAll([c, b], [b, c]);
    ObservedNone([a], [b, c]);
    ObservedNone([d], [b, c]);
    assert [c, b] + ([a] + [d]) == [c, b, a, d] && [c, b] + ([] + []) == [c, b];
  }

  lemma FirstOfThree(a: Alert, b: Alert, c: Alert)
    requires a.startsAt < b.startsAt < c.startsAt
    ensures GroupOf(NoTopology, [a, b, c]) == Group(a, [b, c])
  {
    assert PrimaryBelow(NoTopology, [a, b, c], 2) == 0;
    assert [a, b, c][..0] + [a, b, c][1..] == [b, c];
  }

  /** Four alerts of one service, the first three buffered latest first, in groups of three: the
      dependents of the first group come in the reverse of their buffer order. */
  lemma SplitReversesDependents(a: Alert, b: Alert, c: Alert, d: Alert)
    requires a.startsAt < b.startsAt < c.startsAt < d.startsAt
    requires "" != a.service == b.service == c.service == d.service
    ensures Clusters([c, b, a, d]) == [[c, b, a, d]] && Capped([c, b, a, d], 3)[0] == [a, b, c]
    ensures GroupOf(NoTopology, [a, b, c]).dependents == [b, c] && Observed([c, b, a, d], [b, c]) == [c, b]
  {
    SharedLabelIsOneCluster([c, b, a, d], Service, a.service);
    FirstChunkReversed(a, b, c, d);
    FirstOfThree(a, b, c);
    ObservedReversed(a, b, c, d);
  }
}
