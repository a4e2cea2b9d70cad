/** From a cluster to emitted groups: `splitForCap`, `pickPrimary` and `buildGroup`. */
module Grouping {
  import opened Alerts
  import opened StableSort

  datatype Group = Group(primary: Alert, dependents: seq<Alert>)

  function GroupAlerts(g: Group): seq<Alert> {
    [g.primary] + g.dependents
  }

  // ---------------------------------------------------------------------------------------
  // splitForCap
  // ---------------------------------------------------------------------------------------

  function StartsAt(a: Alert): int { a.startsAt }

  function Chunks<T>(s: seq<T>, max: int): seq<seq<T>>
    requires max > 0
  {
    if |s| <= max then [s] else [s[..max]] + Chunks(s[max..], max)
  }

  function Capped(cluster: seq<Alert>, max: int): seq<seq<Alert>> {
    if max <= 0 || |cluster| <= max then [cluster] else Chunks(SortBy(cluster, StartsAt), max)
  }

  lemma {:induction false} ChunksContents<T>(s: seq<T>, max: int)
    requires max > 0 && s != []
    ensures Contents(Chunks(s, max)) == multiset(s)
  {
    if |s| > max {
      var rest := Chunks(s[max..], max);
      ChunksContents(s[max..], max);
      ContentsAppend([s[..max]], rest);
      assert Contents([s[..max]]) == multiset(s[..max]) by { assert [s[..max]][..0] == []; }
      assert s == s[..max] + s[max..];
    } else {
      assert Contents([s]) == multiset(s) by { assert [s][..0] == []; }
    }
  }

  /** All chunks are full except possibly the last, so there are ceil(|s| / max) of them. */
  lemma {:induction false} ChunkSizes<T>(s: seq<T>, max: int)
    requires max > 0 && s != []
    ensures forall k :: 0 <= k < |Chunks(s, max)| ==> 0 < |Chunks(s, max)[k]| <= max
    ensures forall k :: 0 <= k < |Chunks(s, max)| - 1 ==> |Chunks(s, max)[k]| == max
    ensures (|Chunks(s, max)| - 1) * max < |s| <= |Chunks(s, max)| * max
  {
    if |s| > max {
      var rest := Chunks(s[max..], max);
      ChunkSizes(s[max..], max);
      assert |rest| * max == (|rest| - 1) * max + max;
    }
  }

  lemma ConcatOne<T>(s: seq<T>)
    ensures Concat([s]) == s
  {
    assert [s][..0] == [] && [] + s == s;
  }

  lemma {:induction false} ConcatCons<T>(s: seq<T>, ss: seq<seq<T>>)
    ensures Concat([s] + ss) == s + Concat(ss)
  {
    if ss == [] {
      assert [s] + ss == [s] && [s][..0] == [] && Concat([s]) == [] + s;
    } else {
      var init, last := ss[..|ss| - 1], ss[|ss| - 1];
      ConcatCons(s, init);
      assert ([s] + ss)[..|ss|] == [s] + init && ([s] + ss)[|ss|] == last;
      assert (s + Concat(init)) + last == s + (Concat(init) + last);
    }
  }

  lemma {:induction false} ChunksConcat<T>(s: seq<T>, max: int)
    requires max > 0
    ensures Concat(Chunks(s, max)) == s
    decreases |s|
  {
    if |s| <= max {
      ConcatOne(s);
    } else {
      ChunksConcat(s[max..], max);
      ConcatCons(s[..max], Chunks(s[max..], max));
      assert Chunks(s, max) == [s[..max]] + Chunks(s[max..], max);
      assert s == s[..max] + s[max..];
    }
  }

  /** An oversize cluster leaves as its stable chronological order cut into full chunks. */
  lemma CappedOversize(cluster: seq<Alert>, max: int)
    requires 0 < max < |cluster|
    ensures Concat(Capped(cluster, max)) == SortBy(cluster, StartsAt)
    ensures SortedBy(Concat(Capped(cluster, max)), StartsAt)
    ensures forall t :: WithKey(Concat(Capped(cluster, max)), StartsAt, t) == WithKey(cluster, StartsAt, t)
    ensures forall k :: 0 <= k < |Capped(cluster, max)| ==> 0 < |Capped(cluster, max)[k]| <= max
    ensures forall k :: 0 <= k < |Capped(cluster, max)| - 1 ==> |Capped(cluster, max)[k]| == max
    ensures (|Capped(cluster, max)| - 1) * max < |cluster| <= |Capped(cluster, max)| * max
  {
    ChunksConcat(SortBy(cluster, StartsAt), max);
    ChunkSizes(SortBy(cluster, StartsAt), max);
    SortByStable(cluster, StartsAt);
  }

  lemma CappedConserves(cluster: seq<Alert>, max: int)
    requires cluster != []
    ensures Contents(Capped(cluster, max)) == multiset(cluster)
    ensures forall k :: 0 <= k < |Capped(cluster, max)| ==> Capped(cluster, max)[k] != []
    ensures max > 0 ==> forall k :: 0 <= k < |Capped(cluster, max)| ==> |Capped(cluster, max)[k]| <= max
  {
    if max <= 0 || |cluster| <= max {
      assert [cluster][..0] == [];
    } else {
      ChunkSizes(SortBy(cluster, StartsAt), max);
      ChunksContents(SortBy(cluster, StartsAt), max);
    }
  }

  lemma CappedNonEmpty(cluster: seq<Alert>, max: int)
    requires cluster != []
    ensures forall k :: 0 <= k < |Capped(cluster, max)| ==> Capped(cluster, max)[k] != []
  {
    CappedConserves(cluster, max);
  }

  function AllChunks(clusters: seq<seq<Alert>>, max: int): seq<seq<Alert>> {
    if clusters == [] then []
    else AllChunks(clusters[..|clusters| - 1], max) + Capped(clusters[|clusters| - 1], max)
  }

  method SplitForCap(cluster: seq<Alert>, max: int) returns (out: seq<seq<Alert>>)
    ensures out == Capped(cluster, max)
  {
    if max <= 0 || |cluster| <= max {
      return [cluster];
    }
    var sorted := SortBy(cluster, StartsAt);
    out := [];
    var i := 0;
    while i < |sorted|
      invariant 0 <= i
      invariant if i < |sorted| then out + Chunks(sorted[i..], max) == Chunks(sorted, max)
        else out == Chunks(sorted, max)
    {
      var end := i + max;
      if end > |sorted| {
        end := |sorted|;
      }
      assert sorted[i..][..end - i] == sorted[i..end];
      if end < |sorted| {
        assert sorted[i..][max..] == sorted[end..];
        assert out + ([sorted[i..end]] + Chunks(sorted[end..], max))
          == (out + [sorted[i..end]]) + Chunks(sorted[end..], max);
      } else {
        assert sorted[i..end] == sorted[i..];
      }
      out := out + [sorted[i..end]];
      i := i + max;
    }
  }

  lemma SortedMembers(cluster: seq<Alert>, x: Alert)
    ensures x in SortBy(cluster, StartsAt) <==> x in cluster
  {
    assert x in multiset(SortBy(cluster, StartsAt)) <==> x in multiset(cluster);
  }

  // ---------------------------------------------------------------------------------------
  // pickPrimary
  // ---------------------------------------------------------------------------------------

  /** The number of downstream services listed for each known service; None for a nil provider. */
  datatype Topology = NoTopology | Topology(downstream: map<string, nat>)

  function InDegree(topo: Topology, service: string): int {
    if topo.NoTopology? || service == "" || service !in topo.downstream then -1
    else topo.downstream[service]
  }

  predicate Less(a: string, b: string) {
    b != [] && (a == [] || a[0] < b[0] || (a[0] == b[0] && Less(a[1..], b[1..])))
  }

  lemma {:induction false} LessTotal(a: string, b: string)
    ensures a == b || Less(a, b) || Less(b, a)
    ensures !(Less(a, b) && Less(b, a)) && !Less(a, a)
  {
    if a == [] {
    } else {
      LessTotal(a[1..], a[1..]);
      if b != [] {
        LessTotal(a[1..], b[1..]);
        assert a == [a[0]] + a[1..] && b == [b[0]] + b[1..];
      }
    }
  }

  lemma {:induction false} LessTrans(a: string, b: string, c: string)
    requires Less(a, b) && Less(b, c)
    ensures Less(a, c)
  {
    if a != [] && a[0] == b[0] && b[0] == c[0] {
      LessTrans(a[1..], b[1..], c[1..]);
    }
  }

  /** a is the better root-cause candidate: earlier start, then more downstream services, then
      smaller name. */
  predicate Beats(topo: Topology, a: Alert, b: Alert) {
    var da, db := InDegree(topo, a.service), InDegree(topo, b.service);
    a.startsAt < b.startsAt || (a.startsAt == b.startsAt &&
      (da > db || (da == db && Less(a.alertName, b.alertName))))
  }

  /** a and b agree below n, and there a ends or has the smaller character. */
  predicate LessAt(a: string, b: string, n: nat) {
    n <= |a| && n < |b| && a[..n] == b[..n] && (n == |a| || a[n] < b[n])
  }

  lemma {:induction false} LessHasPlace(a: string, b: string) returns (n: nat)
    requires Less(a, b)
    ensures LessAt(a, b, n)
  {
    if a == [] || a[0] < b[0] {
      n := 0;
    } else {
      n := LessHasPlace(a[1..], b[1..]);
      n := n + 1;
      assert a[..n] == [a[0]] + a[1..][..n - 1] && b[..n] == [b[0]] + b[1..][..n - 1];
    }
  }

  lemma {:induction false} PlaceMakesLess(a: string, b: string, n: nat)
    requires LessAt(a, b, n)
    ensures Less(a, b)
  {
    if n > 0 {
      assert a[0] == a[..n][0] == b[0];
      assert a[1..][..n - 1] == a[..n][1..] && b[1..][..n - 1] == b[..n][1..];
      PlaceMakesLess(a[1..], b[1..], n - 1);
    }
  }

  /** The topology has an entry for the service. */
  predicate Known(topo: Topology, service: string) {
    topo.Topology? && service != "" && service in topo.downstream
  }

  /** r lists more downstream services than s; an unknown service counts as fewer than none. */
  predicate Busier(topo: Topology, r: string, s: string) {
    Known(topo, r) && (!Known(topo, s) || topo.downstream[r] > topo.downstream[s])
  }

  predicate AsBusy(topo: Topology, r: string, s: string) {
    (Known(topo, r) <==> Known(topo, s)) && (Known(topo, r) ==> topo.downstream[r] == topo.downstream[s])
  }

  /** What makes the better candidate, in terms of the topology's lists and the names themselves. */
  lemma BeatsIff(topo: Topology, a: Alert, b: Alert)
    ensures Beats(topo, a, b) <==>
      a.startsAt < b.startsAt
      || (a.startsAt == b.startsAt && Busier(topo, a.service, b.service))
      || (a.startsAt == b.startsAt && AsBusy(topo, a.service, b.service)
        && exists n: nat :: LessAt(a.alertName, b.alertName, n))
  {
    if Less(a.alertName, b.alertName) { var n := LessHasPlace(a.alertName, b.alertName); }
    if n: nat :| LessAt(a.alertName, b.alertName, n) { PlaceMakesLess(a.alertName, b.alertName, n); }
  }

  lemma BeatsOrder(topo: Topology, a: Alert, b: Alert, c: Alert)
    ensures !(Beats(topo, a, b) && Beats(topo, b, a))
    ensures Beats(topo, a, b) && !Beats(topo, c, b) ==> Beats(topo, a, c)
    ensures !Beats(topo, b, a) && !Beats(topo, c, b) ==> !Beats(topo, c, a)
  {
    LessTotal(a.alertName, b.alertName);
    LessTotal(b.alertName, c.alertName);
    LessTotal(a.alertName, c.alertName);
    if Less(a.alertName, b.alertName) && Less(b.alertName, c.alertName) {
      LessTrans(a.alertName, b.alertName, c.alertName);
    }
    if Less(c.alertName, a.alertName) && Less(a.alertName, b.alertName) {
      LessTrans(c.alertName, a.alertName, b.alertName);
    }
  }

  /** Nothing in the cluster beats position p, and everything before p is beaten by it. */
  ghost predicate IsPrimary(topo: Topology, cluster: seq<Alert>, p: nat) {
    && p < |cluster|
    && (forall i :: 0 <= i < |cluster| ==> !Beats(topo, cluster[i], cluster[p]))
    && (forall i :: 0 <= i < p ==> Beats(topo, cluster[p], cluster[i]))
  }

  lemma PrimaryUnique(topo: Topology, cluster: seq<Alert>, p: nat, q: nat)
    requires IsPrimary(topo, cluster, p) && IsPrimary(topo, cluster, q)
    ensures p == q
  {
    assert !Beats(topo, cluster[p], cluster[q]) && !Beats(topo, cluster[q], cluster[p]);
  }

  /** Reordering a cluster does not change what its primary looks like. */
  lemma PrimaryOfPermutation(topo: Topology, c: seq<Alert>, d: seq<Alert>, p: nat, q: nat)
    requires multiset(c) == multiset(d)
    requires IsPrimary(topo, c, p) && IsPrimary(topo, d, q)
    ensures c[p].startsAt == d[q].startsAt && c[p].alertName == d[q].alertName
    ensures InDegree(topo, c[p].service) == InDegree(topo, d[q].service)
  {
    assert c[p] in multiset(d) && d[q] in multiset(c);
    assert !Beats(topo, c[p], d[q]) && !Beats(topo, d[q], c[p]);
    LessTotal(c[p].alertName, d[q].alertName);
  }

  /** The best of the earliest alerts is the best of all. */
  lemma TiesDecide(topo: Topology, cluster: seq<Alert>, ties: seq<nat>, b: nat)
    requires b < |ties| && forall a :: 0 <= a < |ties| ==> ties[a] < |cluster|
    requires forall j :: 0 <= j < |cluster| ==> cluster[ties[b]].startsAt <= cluster[j].startsAt
    requires forall i, j :: 0 <= i < j < |ties| ==> ties[i] < ties[j]
    requires forall t: nat :: t < |cluster| && cluster[t].startsAt == cluster[ties[b]].startsAt ==> t in ties
    requires IsPrimary(topo, At(cluster, ties), b)
    ensures IsPrimary(topo, cluster, ties[b])
  {
    var p := ties[b];
    forall i: nat | i < |cluster|
      ensures !Beats(topo, cluster[i], cluster[p])
      ensures i < p ==> Beats(topo, cluster[p], cluster[i])
    {
      if cluster[i].startsAt == cluster[p].startsAt {
        var k :| 0 <= k < |ties| && ties[k] == i;
        assert At(cluster, ties)[k] == cluster[i];
      }
    }
  }

  /** The first alert with the earliest start and the ascending positions sharing that start. */
  method EarliestTies(cluster: seq<Alert>) returns (e: nat, ties: seq<nat>)
    requires cluster != []
    ensures e < |cluster| && forall j :: 0 <= j < |cluster| ==> cluster[e].startsAt <= cluster[j].startsAt
    ensures e in ties && forall a :: 0 <= a < |ties| ==>
      ties[a] < |cluster| && cluster[ties[a]].startsAt == cluster[e].startsAt
    ensures forall a, b :: 0 <= a < b < |ties| ==> ties[a] < ties[b]
    ensures forall t: nat :: t < |cluster| && cluster[t].startsAt == cluster[e].startsAt ==> t in ties
  {
    e := 0;
    for i := 1 to |cluster|
      invariant e < i
      invariant forall j :: 0 <= j < i ==> cluster[e].startsAt <= cluster[j].startsAt
    {
      if cluster[i].startsAt < cluster[e].startsAt {
        e := i;
      }
    }
    ties := [];
    for i := 0 to |cluster|
      invariant forall a :: 0 <= a < |ties| ==> ties[a] < i && cluster[ties[a]].startsAt == cluster[e].startsAt
      invariant forall t: nat :: t < i && cluster[t].startsAt == cluster[e].startsAt ==> t in ties
      invariant forall a, b :: 0 <= a < b < |ties| ==> ties[a] < ties[b]
    {
      if cluster[i].startsAt == cluster[e].startsAt {
        ties := ties + [i];
      }
    }
  }

  lemma PrimarySnoc(topo: Topology, s: seq<Alert>, k: nat, b: nat)
    requires k < |s| && IsPrimary(topo, s[..k], b)
    ensures IsPrimary(topo, s[..k + 1], if Beats(topo, s[k], s[b]) then k else b)
  {
    var p := if Beats(topo, s[k], s[b]) then k else b;
    var before, now := s[..k], s[..k + 1];
    forall i: nat | i < |now|
      ensures !Beats(topo, now[i], now[p])
      ensures i < p ==> Beats(topo, now[p], now[i])
    {
      if i < k {
        assert now[i] == before[i] && before[b] == s[b];
        BeatsOrder(topo, now[p], now[b], now[i]);
      }
      BeatsOrder(topo, now[p], now[i], now[i]);
    }
  }

  /** Chooses among the positions in ties as if they were the whole cluster. */
  method BreakTies(topo: Topology, cluster: seq<Alert>, ties: seq<nat>) returns (p: nat)
    requires ties != [] && forall k :: 0 <= k < |ties| ==> ties[k] < |cluster|
    requires forall k :: 0 <= k < |ties| ==> cluster[ties[k]].startsAt == cluster[ties[0]].startsAt
    ensures exists b: nat :: b < |ties| && p == ties[b] && IsPrimary(topo, At(cluster, ties), b)
  {
    ghost var tied := At(cluster, ties);
    p := ties[0];
    ghost var b: nat := 0;
    var bestScore := InDegree(topo, cluster[p].service);
    BeatsOrder(topo, cluster[p], cluster[p], cluster[p]);
    for k := 1 to |ties|
      invariant b < k && p == ties[b] && bestScore == InDegree(topo, cluster[p].service)
      invariant IsPrimary(topo, tied[..k], b)
    {
      PrimarySnoc(topo, tied, k, b);
      var i := ties[k];
      var score := InDegree(topo, cluster[i].service);
      if score > bestScore {
        p, bestScore := i, score;
        b := k;
      } else if score == bestScore {
        if Less(cluster[i].alertName, cluster[p].alertName) {
          p := i;
          b := k;
        }
      }
    }
    assert tied[..|ties|] == tied;
  }

  /** a starts no later than b; on equal starts it has no shorter downstream list, and on equal lists
      no larger name. */
  ghost predicate NoWorse(topo: Topology, a: Alert, b: Alert) {
    && a.startsAt <= b.startsAt
    && (a.startsAt == b.startsAt ==> !Busier(topo, b.service, a.service))
    && (a.startsAt == b.startsAt && AsBusy(topo, b.service, a.service) ==>
          forall n: nat :: !LessAt(b.alertName, a.alertName, n))
  }

  ghost predicate Leads(topo: Topology, cluster: seq<Alert>, p: nat) {
    p < |cluster| && forall i :: 0 <= i < |cluster| ==> NoWorse(topo, cluster[p], cluster[i])
  }

  lemma PrimaryLeads(topo: Topology, cluster: seq<Alert>, p: nat)
    requires IsPrimary(topo, cluster, p)
    ensures Leads(topo, cluster, p)
  {
    forall i: nat | i < |cluster| ensures NoWorse(topo, cluster[p], cluster[i]) {
      assert !Beats(topo, cluster[i], cluster[p]);
      BeatsIff(topo, cluster[i], cluster[p]);
    }
  }

  method PickPrimary(topo: Topology, cluster: seq<Alert>) returns (p: nat)
    requires cluster != []
    ensures IsPrimary(topo, cluster, p) && Leads(topo, cluster, p)
  {
    if |cluster| == 1 {
      BeatsOrder(topo, cluster[0], cluster[0], cluster[0]);
      PrimaryLeads(topo, cluster, 0);
      return 0;
    }
    var e, ties := EarliestTies(cluster);
    if |ties| == 1 {
      BeatsOrder(topo, cluster[e], cluster[e], cluster[e]);
      assert forall i :: 0 <= i < |cluster| && cluster[i].startsAt == cluster[e].startsAt ==> i == e;
      PrimaryLeads(topo, cluster, e);
      return e;
    }
    p := BreakTies(topo, cluster, ties);
    ghost var b: nat :| b < |ties| && p == ties[b] && IsPrimary(topo, At(cluster, ties), b);
    TiesDecide(topo, cluster, ties, b);
    PrimaryLeads(topo, cluster, p);
  }

  // ---------------------------------------------------------------------------------------
  // buildGroup
  // ---------------------------------------------------------------------------------------

  /** The position `pickPrimary` settles on: the best alert, the first of them on a full tie. */
  function PrimaryBelow(topo: Topology, cluster: seq<Alert>, n: nat): (p: nat)
    requires 1 <= n <= |cluster|
    ensures p < n
  {
    if n == 1 then 0
    else
      var b := PrimaryBelow(topo, cluster, n - 1);
      if Beats(topo, cluster[n - 1], cluster[b]) then n - 1 else b
  }

  lemma {:induction false} PrimaryBelowIsPrimary(topo: Topology, cluster: seq<Alert>, n: nat)
    requires 1 <= n <= |cluster|
    ensures IsPrimary(topo, cluster[..n], PrimaryBelow(topo, cluster, n))
  {
    if n == 1 {
      BeatsOrder(topo, cluster[0], cluster[0], cluster[0]);
    } else {
      PrimaryBelowIsPrimary(topo, cluster, n - 1);
      PrimarySnoc(topo, cluster, n - 1, PrimaryBelow(topo, cluster, n - 1));
    }
  }

  function GroupOf(topo: Topology, cluster: seq<Alert>): Group
    requires cluster != []
  {
    var p := PrimaryBelow(topo, cluster, |cluster|);
    Group(cluster[p], cluster[..p] + cluster[p + 1..])
  }

  lemma GroupConserves(topo: Topology, cluster: seq<Alert>)
    requires cluster != []
    ensures multiset(GroupAlerts(GroupOf(topo, cluster))) == multiset(cluster)
    ensures |GroupAlerts(GroupOf(topo, cluster))| == |cluster|
  {
    var p := PrimaryBelow(topo, cluster, |cluster|);
    assert cluster == (cluster[..p] + [cluster[p]]) + cluster[p + 1..];
    assert multiset(cluster) == multiset(cluster[..p]) + multiset{cluster[p]} + multiset(cluster[p + 1..]);
  }

  lemma GroupOfPrimary(topo: Topology, cluster: seq<Alert>, p: nat)
    requires IsPrimary(topo, cluster, p)
    ensures GroupOf(topo, cluster) == Group(cluster[p], cluster[..p] + cluster[p + 1..])
  {
    PrimaryBelowIsPrimary(topo, cluster, |cluster|);
    assert cluster[..|cluster|] == cluster;
    PrimaryUnique(topo, cluster, p, PrimaryBelow(topo, cluster, |cluster|));
  }

  method BuildGroup(topo: Topology, cluster: seq<Alert>) returns (g: Group)
    requires cluster != []
    ensures g == GroupOf(topo, cluster)
    ensures exists p: nat :: IsPrimary(topo, cluster, p) && g == Group(cluster[p], cluster[..p] + cluster[p + 1..])
  {
    var p := PickPrimary(topo, cluster);
    var dependents: seq<Alert> := [];
    for i := 0 to |cluster|
      invariant dependents == if i <= p then cluster[..i] else cluster[..p] + cluster[p + 1..i]
    {
      if i != p {
        dependents := dependents + [cluster[i]];
      }
    }
    assert cluster[p + 1..|cluster|] == cluster[p + 1..];
    g := Group(cluster[p], dependents);
    GroupOfPrimary(topo, cluster, p);
  }

  function OneGroup(topo: Topology, chunk: seq<Alert>): seq<Group> {
    if chunk == [] then [] else [GroupOf(topo, chunk)]
  }

  /** One group per chunk, in order. */
  function GroupsFor(topo: Topology, chunks: seq<seq<Alert>>): seq<Group> {
    if chunks == [] then []
    else GroupsFor(topo, chunks[..|chunks| - 1]) + OneGroup(topo, chunks[|chunks| - 1])
  }

  lemma GroupsForStep(topo: Topology, chunks: seq<seq<Alert>>, j: nat)
    requires j < |chunks| && chunks[j] != []
    ensures GroupsFor(topo, chunks[..j + 1]) == GroupsFor(topo, chunks[..j]) + [GroupOf(topo, chunks[j])]
  {
    assert chunks[..j + 1][..j] == chunks[..j];
  }

  lemma GroupsForSnoc(topo: Topology, c: seq<seq<Alert>>, chunk: seq<Alert>)
    ensures GroupsFor(topo, c + [chunk]) == GroupsFor(topo, c) + OneGroup(topo, chunk)
  {
    assert (c + [chunk])[..|c|] == c;
  }

  lemma Reassociate<T>(a: seq<T>, b: seq<T>, c: seq<T>)
    ensures (a + b) + c == a + (b + c)
  {
  }

  lemma {:induction false} GroupsForAppend(topo: Topology, c: seq<seq<Alert>>, d: seq<seq<Alert>>)
    ensures GroupsFor(topo, c + d) == GroupsFor(topo, c) + GroupsFor(topo, d)
    decreases |d|
  {
    if d == [] {
      assert c + d == c;
    } else {
      var init, last := d[..|d| - 1], d[|d| - 1];
      assert d == init + [last];
      Reassociate(c, init, [last]);
      GroupsForSnoc(topo, c + init, last);
      GroupsForSnoc(topo, init, last);
      GroupsForAppend(topo, c, init);
      Reassociate(GroupsFor(topo, c), GroupsFor(topo, init), OneGroup(topo, last));
    }
  }

  function GroupLists(gs: seq<Group>): seq<seq<Alert>> {
    seq(|gs|, k requires 0 <= k < |gs| => GroupAlerts(gs[k]))
  }

  /** All alerts of the groups, primaries and dependents, with multiplicities. */
  function GroupContents(gs: seq<Group>): multiset<Alert> {
    Contents(GroupLists(gs))
  }

  lemma GroupContentsAppend(a: seq<Group>, b: seq<Group>)
    ensures GroupContents(a + b) == GroupContents(a) + GroupContents(b)
  {
    assert GroupLists(a + b) == GroupLists(a) + GroupLists(b);
    ContentsAppend(GroupLists(a), GroupLists(b));
  }

  lemma {:induction false} GroupsForSizes(topo: Topology, chunks: seq<seq<Alert>>)
    requires forall k :: 0 <= k < |chunks| ==> chunks[k] != []
    ensures |GroupsFor(topo, chunks)| == |chunks|
    ensures forall k :: 0 <= k < |chunks| ==> |GroupAlerts(GroupsFor(topo, chunks)[k])| == |chunks[k]|
  {
    if chunks == [] {
    } else {
      var init, last := chunks[..|chunks| - 1], chunks[|chunks| - 1];
      GroupsForSizes(topo, init);
      GroupConserves(topo, last);
      var gs, hs := GroupsFor(topo, chunks), GroupsFor(topo, init);
      forall k | 0 <= k < |chunks| ensures |GroupAlerts(gs[k])| == |chunks[k]| {
        if k < |init| { assert gs[k] == hs[k] && chunks[k] == init[k]; }
      }
    }
  }

  lemma SingleGroup(g: Group)
    ensures GroupContents([g]) == multiset(GroupAlerts(g))
  {
    assert GroupLists([g]) == [] + [GroupAlerts(g)];
    ContentsSnoc([], GroupAlerts(g));
  }

  lemma {:induction false} GroupsForConserve(topo: Topology, chunks: seq<seq<Alert>>)
    requires forall k :: 0 <= k < |chunks| ==> chunks[k] != []
    ensures GroupContents(GroupsFor(topo, chunks)) == Contents(chunks)
  {
    if chunks == [] {
    } else {
      var init, last := chunks[..|chunks| - 1], chunks[|chunks| - 1];
      GroupsForConserve(topo, init);
      GroupConserves(topo, last);
      GroupContentsAppend(GroupsFor(topo, init), [GroupOf(topo, last)]);
      SingleGroup(GroupOf(topo, last));
    }
  }

  lemma AllChunksSnoc(topo: Topology, clusters: seq<seq<Alert>>, i: nat, max: int)
    requires i < |clusters|
    ensures GroupsFor(topo, AllChunks(clusters[..i + 1], max)) ==
            GroupsFor(topo, AllChunks(clusters[..i], max)) + GroupsFor(topo, Capped(clusters[i], max))
  {
    assert clusters[..i + 1][..i] == clusters[..i];
    GroupsForAppend(topo, AllChunks(clusters[..i], max), Capped(clusters[i], max));
  }
}
