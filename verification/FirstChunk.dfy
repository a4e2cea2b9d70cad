/** Whether splitting a cluster keeps its primary: the primary of the first chunk against the primary
    of the whole cluster. */
module FirstChunk {
  import opened Alerts
  import opened StableSort
  import opened Clustering
  import opened Grouping

  /** The two alerts are equal candidates. */
  predicate Alike(topo: Topology, a: Alert, b: Alert) {
    a.startsAt == b.startsAt && a.alertName == b.alertName && InDegree(topo, a.service) == InDegree(topo, b.service)
  }

  lemma AlikeIffNeitherBeats(topo: Topology, a: Alert, b: Alert)
    ensures Alike(topo, a, b) <==> !Beats(topo, a, b) && !Beats(topo, b, a)
  {
    LessTotal(a.alertName, b.alertName);
    LessTotal(b.alertName, a.alertName);
  }

  lemma TiesAround(cluster: seq<Alert>, p: nat, t: int)
    requires p < |cluster| && cluster[p].startsAt == t
    ensures WithKey(cluster, StartsAt, t)
         == WithKey(cluster[..p], StartsAt, t) + ([cluster[p]] + WithKey(cluster[p + 1..], StartsAt, t))
  {
    var front := cluster[..p] + [cluster[p]];
    assert cluster == front + cluster[p + 1..];
    WithKeyConcat(front, cluster[p + 1..], StartsAt, t);
    WithKeySnoc(cluster[..p], StartsAt, cluster[p], t);
  }

  lemma PlaceInPrefix(sorted: seq<Alert>, before: seq<Alert>, a: Alert, behind: seq<Alert>)
    requires |before| + 1 + |behind| <= |sorted|
    requires sorted[..|before| + 1 + |behind|] == before + ([a] + behind)
    ensures sorted[|before|] == a && sorted[..|before|] == before
  {
    var ties := before + ([a] + behind);
    assert ties[|before|] == a && ties[..|before|] == before;
    assert sorted[..|ties|][..|before|] == sorted[..|before|];
  }

  lemma SortedTies(cluster: seq<Alert>, t: int)
    requires forall b :: b in cluster ==> t <= b.startsAt
    ensures var ties := WithKey(cluster, StartsAt, t);
      |ties| <= |cluster| && SortBy(cluster, StartsAt)[..|ties|] == ties
  {
    var sorted := SortBy(cluster, StartsAt);
    SortByStable(cluster, StartsAt);
    forall i | 0 <= i < |sorted| ensures StartsAt(sorted[i]) >= t {
      SortedMembers(cluster, sorted[i]);
    }
    SmallestComeFirst(sorted, StartsAt, t);
    assert WithKey(sorted, StartsAt, t) == WithKey(cluster, StartsAt, t);
  }

  /** In the chronological order an earliest alert stands behind the ties in front of it alone. */
  lemma PlaceOfEarliest(cluster: seq<Alert>, p: nat)
    requires p < |cluster| && forall b :: b in cluster ==> cluster[p].startsAt <= b.startsAt
    ensures var before := WithKey(cluster[..p], StartsAt, cluster[p].startsAt);
      |before| < |cluster| && SortBy(cluster, StartsAt)[|before|] == cluster[p]
      && SortBy(cluster, StartsAt)[..|before|] == before
  {
    var t := cluster[p].startsAt;
    SortedTies(cluster, t);
    TiesAround(cluster, p, t);
    PlaceInPrefix(SortBy(cluster, StartsAt), WithKey(cluster[..p], StartsAt, t), cluster[p],
                  WithKey(cluster[p + 1..], StartsAt, t));
  }

  lemma PrimaryIsEarliest(topo: Topology, cluster: seq<Alert>, p: nat)
    requires IsPrimary(topo, cluster, p)
    ensures forall b :: b in cluster ==> cluster[p].startsAt <= b.startsAt && !Beats(topo, b, cluster[p])
  {
    forall b | b in cluster ensures cluster[p].startsAt <= b.startsAt && !Beats(topo, b, cluster[p]) {
      var i :| 0 <= i < |cluster| && cluster[i] == b;
      assert !Beats(topo, cluster[i], cluster[p]);
    }
  }

  lemma PrimaryInFirstChunk(topo: Topology, cluster: seq<Alert>, max: int, p: nat, q: nat)
    requires 0 < max < |cluster| && IsPrimary(topo, cluster, p) && IsPrimary(topo, Capped(cluster, max)[0], q)
    requires |WithKey(cluster[..p], StartsAt, cluster[p].startsAt)| < max
    ensures Alike(topo, cluster[p], Capped(cluster, max)[0][q])
  {
    var first, n := Capped(cluster, max)[0], |WithKey(cluster[..p], StartsAt, cluster[p].startsAt)|;
    PrimaryIsEarliest(topo, cluster, p);
    PlaceOfEarliest(cluster, p);
    assert first == SortBy(cluster, StartsAt)[..max];
    assert first[n] == cluster[p] && !Beats(topo, first[n], first[q]);
    SortedMembers(cluster, first[q]);
    AlikeIffNeitherBeats(topo, cluster[p], first[q]);
  }

  lemma {:induction false} WithKeySubset(s: seq<Alert>, t: int, x: Alert)
    ensures x in WithKey(s, StartsAt, t) ==> x in s
  {
    WithKeyMembers(s, StartsAt, t);
  }

  lemma PrimaryBeyondFirstChunk(topo: Topology, cluster: seq<Alert>, max: int, p: nat, q: nat)
    requires 0 < max < |cluster| && IsPrimary(topo, cluster, p) && IsPrimary(topo, Capped(cluster, max)[0], q)
    requires |WithKey(cluster[..p], StartsAt, cluster[p].startsAt)| >= max
    ensures !Alike(topo, cluster[p], Capped(cluster, max)[0][q])
  {
    var first, before := Capped(cluster, max)[0], WithKey(cluster[..p], StartsAt, cluster[p].startsAt);
    PrimaryIsEarliest(topo, cluster, p);
    PlaceOfEarliest(cluster, p);
    assert first == SortBy(cluster, StartsAt)[..max] == SortBy(cluster, StartsAt)[..|before|][..max];
    assert first[q] == before[q];
    WithKeySubset(cluster[..p], cluster[p].startsAt, first[q]);
    var i :| 0 <= i < p && cluster[..p][i] == first[q];
    assert Beats(topo, cluster[p], cluster[i]);
    AlikeIffNeitherBeats(topo, cluster[p], first[q]);
  }

  /** Splitting keeps the cluster's primary, up to equal candidates, as the primary of the first
      chunk exactly when fewer alerts than fit a chunk both share its start and stand before it. */
  lemma FirstChunkKeepsPrimaryIff(topo: Topology, cluster: seq<Alert>, max: int, p: nat, q: nat)
    requires 0 < max < |cluster| && IsPrimary(topo, cluster, p) && IsPrimary(topo, Capped(cluster, max)[0], q)
    ensures Alike(topo, cluster[p], Capped(cluster, max)[0][q])
       <==> |WithKey(cluster[..p], StartsAt, cluster[p].startsAt)| < max
  {
    if |WithKey(cluster[..p], StartsAt, cluster[p].startsAt)| < max {
      PrimaryInFirstChunk(topo, cluster, max, p, q);
    } else {
      PrimaryBeyondFirstChunk(topo, cluster, max, p, q);
    }
  }

  /** In particular when no more alerts than fit a chunk share the earliest start. */
  lemma FirstChunkKeepsPrimary(topo: Topology, cluster: seq<Alert>, max: int, p: nat, q: nat)
    requires 0 < max < |cluster| && IsPrimary(topo, cluster, p) && IsPrimary(topo, Capped(cluster, max)[0], q)
    requires |WithKey(cluster, StartsAt, cluster[p].startsAt)| <= max
    ensures Alike(topo, cluster[p], Capped(cluster, max)[0][q])
  {
    var t := cluster[p].startsAt;
    TiesAround(cluster, p, t);
    FirstChunkKeepsPrimaryIff(topo, cluster, max, p, q);
  }

  lemma PairInOrder(a: Alert, b: Alert)
    requires a.startsAt == b.startsAt
    ensures SortBy([a, b], StartsAt) == [a, b]
  {
    SortByStable([a, b], StartsAt);
    StableSortUnique(SortBy([a, b], StartsAt), [a, b], StartsAt);
  }

  lemma SingletonPrimary(topo: Topology, a: Alert)
    ensures IsPrimary(topo, [a], 0)
  {
    LessTotal(a.alertName, a.alertName);
  }

  lemma SecondIsPrimary(a: Alert, b: Alert)
    requires a.startsAt == b.startsAt && Less(b.alertName, a.alertName)
    ensures IsPrimary(NoTopology, [a, b], 1) && !Alike(NoTopology, b, a)
  {
    LessTotal(a.alertName, b.alertName);
    LessTotal(b.alertName, b.alertName);
    AlikeIffNeitherBeats(NoTopology, b, a);
  }

  /** Two alerts of one service that start together, in groups of one: the better name comes second,
      so the first group's primary is not the cluster's. */
  lemma TiesCanHidePrimary(a: Alert, b: Alert)
    requires a.startsAt == b.startsAt && "" != a.service == b.service && Less(b.alertName, a.alertName)
    ensures Clusters([a, b]) == [[a, b]] && Capped([a, b], 1)[0] == [a]
    ensures IsPrimary(NoTopology, [a, b], 1) && IsPrimary(NoTopology, [a], 0) && !Alike(NoTopology, b, a)
  {
    SharedLabelIsOneCluster([a, b], Service, a.service);
    PairInOrder(a, b);
    assert [a, b][..1] == [a];
    SecondIsPrimary(a, b);
    SingletonPrimary(NoTopology, a);
  }
}
