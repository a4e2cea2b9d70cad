/** Where in its batch the alerts of each emitted group stand. Alerts are told apart by their place
    in the batch, so a batch may hold equal ones. */
module GroupPlaces {
  import opened Alerts
  import opened StableSort
  import opened Clustering
  import opened Grouping

  // ---------------------------------------------------------------------------------------
  // What a dispatch has to do
  // ---------------------------------------------------------------------------------------

  /** The group is one of the best alerts at these places and the others, in the order of the places. */
  ghost predicate MadeOf(topo: Topology, batch: seq<Alert>, g: Group, places: seq<nat>) {
    && Within(places, |batch|)
    && exists p: nat ::
      && p < |places| && IsPrimary(topo, At(batch, places), p)
      && g == Group(batch[places[p]], At(batch, places)[..p] + At(batch, places)[p + 1..])
  }

  /** Every place of the batch is taken once. */
  ghost predicate TakenOnce(n: nat, places: seq<seq<nat>>) {
    forall i: nat :: Contents(places)[i] == if i < n then 1 else 0
  }

  /** A chain links any two alerts of one group. */
  ghost predicate Kindred(batch: seq<Alert>, places: seq<seq<nat>>) {
    forall k, i, j :: 0 <= k < |places| && i in places[k] && j in places[k] ==> Connected(batch, i, j)
  }

  /** Alerts linked by a chain are in one group, in the order of the batch. */
  ghost predicate Undivided(batch: seq<Alert>, places: seq<seq<nat>>) {
    && (forall a, b, i, j ::
          0 <= a < b < |places| && i in places[a] && j in places[b] ==> !Connected(batch, i, j))
    && forall k :: 0 <= k < |places| ==> Ascending(places[k])
  }

  /** Group a is full and over before group b begins. */
  predicate FullBefore(batch: seq<Alert>, a: seq<nat>, b: seq<nat>, cap: int) {
    && |a| == cap
    && forall i, j :: i in a && j in b && i < |batch| && j < |batch| ==> batch[i].startsAt <= batch[j].startsAt
  }

  /** No group exceeds the cap, and alerts linked by a chain are cut in order of their start, into
      groups that are full but for the last. */
  ghost predicate Divided(batch: seq<Alert>, places: seq<seq<nat>>, cap: int) {
    && (forall k :: 0 <= k < |places| ==> |places[k]| <= cap)
    && forall a, b, i, j :: 0 <= a < b < |places| && i in places[a] && j in places[b] && Connected(batch, i, j) ==>
      FullBefore(batch, places[a], places[b], cap)
  }

  /** Group a's component reaches at least as far to the front of the batch as group b's. */
  ghost predicate NoLater(batch: seq<Alert>, a: seq<nat>, b: seq<nat>) {
    forall i, j :: i in a && j in b ==> exists m: nat :: m <= j && Connected(batch, m, i)
  }

  /** The groups a batch leaves in, for these places of their alerts. */
  ghost predicate PlacedAs(topo: Topology, cap: int, batch: seq<Alert>, groups: seq<Group>, places: seq<seq<nat>>) {
    && |places| == |groups|
    && (forall k :: 0 <= k < |groups| ==> MadeOf(topo, batch, groups[k], places[k]))
    && TakenOnce(|batch|, places) && Kindred(batch, places)
    && (if cap <= 0 then Undivided(batch, places) else Divided(batch, places, cap))
    && forall a, b :: 0 <= a < b < |places| ==> NoLater(batch, places[a], places[b])
  }

  // ---------------------------------------------------------------------------------------
  // Sorting and cutting places
  // ---------------------------------------------------------------------------------------

  function StartKey(batch: seq<Alert>): nat -> int {
    (i: nat) => if i < |batch| then batch[i].startsAt else 0
  }

  lemma AtSnoc(batch: seq<Alert>, places: seq<nat>, i: nat)
    requires Within(places, |batch|) && i < |batch|
    ensures Within(places + [i], |batch|) && At(batch, places + [i]) == At(batch, places) + [batch[i]]
  {
  }

  lemma {:induction false} InsertAt(batch: seq<Alert>, places: seq<nat>, i: nat)
    requires Within(places, |batch|) && i < |batch|
    ensures Within(Insert(places, StartKey(batch), i), |batch|)
    ensures At(batch, Insert(places, StartKey(batch), i)) == Insert(At(batch, places), StartsAt, batch[i])
  {
    if places == [] || StartKey(batch)(places[|places| - 1]) <= StartKey(batch)(i) {
      AtSnoc(batch, places, i);
    } else {
      var init, last := places[..|places| - 1], places[|places| - 1];
      InsertAt(batch, init, i);
      AtSnoc(batch, Insert(init, StartKey(batch), i), last);
      assert At(batch, places)[..|places| - 1] == At(batch, init);
    }
  }

  /** Sorting the places sorts the alerts at them. */
  predicate SortsAlike(batch: seq<Alert>, places: seq<nat>) {
    && Within(places, |batch|) && Within(SortBy(places, StartKey(batch)), |batch|)
    && At(batch, SortBy(places, StartKey(batch))) == SortBy(At(batch, places), StartsAt)
  }

  lemma SortsAlikeSnoc(batch: seq<Alert>, places: seq<nat>, i: nat)
    requires SortsAlike(batch, places) && i < |batch|
    ensures SortsAlike(batch, places + [i])
  {
    InsertAt(batch, SortBy(places, StartKey(batch)), i);
    AtSnoc(batch, places, i);
    SortBySnoc(places, StartKey(batch), i);
    SortBySnoc(At(batch, places), StartsAt, batch[i]);
  }

  lemma {:induction false} SortAt(batch: seq<Alert>, places: seq<nat>)
    requires Within(places, |batch|)
    ensures SortsAlike(batch, places)
  {
    if places == [] {
    } else {
      var init, last := places[..|places| - 1], places[|places| - 1];
      SortAt(batch, init);
      SortsAlikeSnoc(batch, init, last);
      assert places == init + [last];
    }
  }

  lemma {:induction false} ChunksAt(batch: seq<Alert>, places: seq<nat>, max: int, k: nat)
    requires max > 0 && Within(places, |batch|) && k < |Chunks(places, max)|
    ensures |Chunks(At(batch, places), max)| == |Chunks(places, max)|
    ensures Within(Chunks(places, max)[k], |batch|)
    ensures Chunks(At(batch, places), max)[k] == At(batch, Chunks(places, max)[k])
    decreases |places|
  {
    if |places| <= max {
    } else {
      var rest := places[max..];
      assert At(batch, places)[max..] == At(batch, rest);
      assert At(batch, places)[..max] == At(batch, places[..max]);
      ChunksAt(batch, rest, max, if k == 0 then 0 else k - 1);
    }
  }

  function CappedPlaces(batch: seq<Alert>, places: seq<nat>, max: int): seq<seq<nat>> {
    if max <= 0 || |places| <= max then [places] else Chunks(SortBy(places, StartKey(batch)), max)
  }

  lemma CappedAt(batch: seq<Alert>, places: seq<nat>, max: int, k: nat)
    requires Within(places, |batch|) && k < |CappedPlaces(batch, places, max)|
    ensures |Capped(At(batch, places), max)| == |CappedPlaces(batch, places, max)|
    ensures Within(CappedPlaces(batch, places, max)[k], |batch|)
    ensures Capped(At(batch, places), max)[k] == At(batch, CappedPlaces(batch, places, max)[k])
  {
    if max > 0 && |places| > max {
      SortAt(batch, places);
      ChunksAt(batch, SortBy(places, StartKey(batch)), max, k);
    }
  }

  lemma {:induction false} ChunkMembers<T>(s: seq<T>, max: int, k: nat, x: T)
    requires max > 0 && k < |Chunks(s, max)| && x in Chunks(s, max)[k]
    ensures x in s
    decreases |s|
  {
    if |s| > max && k > 0 {
      ChunkMembers(s[max..], max, k - 1, x);
    }
  }

  /** What is sorted by a key is cut in order of that key. */
  lemma {:induction false} ChunksInOrder<T>(s: seq<T>, key: T -> int, max: int, a: nat, b: nat, x: T, y: T)
    requires max > 0 && SortedBy(s, key) && a < b < |Chunks(s, max)|
    requires x in Chunks(s, max)[a] && y in Chunks(s, max)[b]
    ensures key(x) <= key(y)
    decreases |s|
  {
    if a == 0 {
      ChunkMembers(s[max..], max, b - 1, y);
    } else {
      ChunksInOrder(s[max..], key, max, a - 1, b - 1, x, y);
    }
  }

  lemma CutInOrder(batch: seq<Alert>, sorted: seq<nat>, max: int, a: nat, b: nat, i: nat, j: nat)
    requires max > 0 && SortedBy(sorted, StartKey(batch)) && a < b < |Chunks(sorted, max)|
    requires i in Chunks(sorted, max)[a] && j in Chunks(sorted, max)[b] && i < |batch| && j < |batch|
    ensures batch[i].startsAt <= batch[j].startsAt
  {
    ChunksInOrder(sorted, StartKey(batch), max, a, b, i, j);
  }

  lemma CutsAreFullBefore(batch: seq<Alert>, sorted: seq<nat>, max: int, a: nat, b: nat)
    requires max > 0 && sorted != [] && SortedBy(sorted, StartKey(batch)) && a < b < |Chunks(sorted, max)|
    ensures FullBefore(batch, Chunks(sorted, max)[a], Chunks(sorted, max)[b], max)
  {
    ChunkSizes(sorted, max);
    forall i: nat, j: nat | i in Chunks(sorted, max)[a] && j in Chunks(sorted, max)[b] && i < |batch| && j < |batch|
      ensures batch[i].startsAt <= batch[j].startsAt
    {
      CutInOrder(batch, sorted, max, a, b, i, j);
    }
  }

  lemma CappedFullBefore(batch: seq<Alert>, places: seq<nat>, max: int, a: nat, b: nat)
    requires places != [] && a < b < |CappedPlaces(batch, places, max)|
    ensures max > 0 && FullBefore(batch, CappedPlaces(batch, places, max)[a], CappedPlaces(batch, places, max)[b], max)
  {
    SortByStable(places, StartKey(batch));
    CutsAreFullBefore(batch, SortBy(places, StartKey(batch)), max, a, b);
  }

  lemma CappedPlacesFacts(batch: seq<Alert>, places: seq<nat>, max: int)
    requires places != []
    ensures Contents(CappedPlaces(batch, places, max)) == multiset(places)
    ensures forall k :: 0 <= k < |CappedPlaces(batch, places, max)| ==> CappedPlaces(batch, places, max)[k] != []
    ensures max > 0 ==>
      forall k :: 0 <= k < |CappedPlaces(batch, places, max)| ==> |CappedPlaces(batch, places, max)[k]| <= max
  {
    if max <= 0 || |places| <= max {
      assert [places][..0] == [];
    } else {
      ChunkSizes(SortBy(places, StartKey(batch)), max);
      ChunksContents(SortBy(places, StartKey(batch)), max);
    }
  }

  lemma CappedFromPlaces(batch: seq<Alert>, places: seq<nat>, max: int, k: nat, i: nat)
    requires k < |CappedPlaces(batch, places, max)| && i in CappedPlaces(batch, places, max)[k]
    ensures i in places
  {
    if max > 0 && |places| > max {
      ChunkMembers(SortBy(places, StartKey(batch)), max, k, i);
      assert i in multiset(places);
    }
  }

  // ---------------------------------------------------------------------------------------
  // The places of all groups, component by component
  // ---------------------------------------------------------------------------------------

  /** The places of the components, by smallest place. */
  ghost function Components(batch: seq<Alert>): seq<seq<nat>> {
    var ls := Leaders(batch, |batch|);
    seq(|ls|, c requires 0 <= c < |ls| => Members(batch, ls[c], |batch|))
  }

  /** The places of the groups each component leaves in. */
  ghost function Pieces(batch: seq<Alert>, max: int): seq<seq<seq<nat>>> {
    var cs := Components(batch);
    seq(|cs|, c requires 0 <= c < |cs| => CappedPlaces(batch, cs[c], max))
  }

  ghost function Places(batch: seq<Alert>, max: int): seq<seq<nat>> {
    Concat(Pieces(batch, max))
  }

  lemma ComponentFacts(batch: seq<Alert>, c: nat)
    requires c < |Components(batch)|
    ensures Components(batch)[c] != [] && Within(Components(batch)[c], |batch|) && Ascending(Components(batch)[c])
    ensures Clusters(batch)[c] == At(batch, Components(batch)[c])
  {
    var n := |batch|;
    var l := Leaders(batch, n)[c];
    MembersAscend(batch, l, n);
    LeadersAscend(batch, n);
    ConnectedRefl(batch, l);
    MembersIff(batch, l, n, l);
    assert l in Members(batch, l, n);
    MemberAlertsAre(batch, l, n, 0);
    forall a | 0 <= a < |Members(batch, l, n)| ensures MemberAlerts(batch, l, n)[a] == batch[Members(batch, l, n)[a]] {
      MemberAlertsAre(batch, l, n, a);
    }
  }

  lemma ComponentIff(batch: seq<Alert>, c: nat, i: nat)
    requires c < |Components(batch)|
    ensures i in Components(batch)[c] <==> InCluster(batch, c, i)
    ensures i in Components(batch)[c] ==> i < |batch| && Connected(batch, Leaders(batch, |batch|)[c], i)
  {
    MembersIff(batch, Leaders(batch, |batch|)[c], |batch|, i);
  }

  lemma ComponentLinked(batch: seq<Alert>, c: nat, i: nat, j: nat)
    requires c < |Components(batch)| && i in Components(batch)[c] && j in Components(batch)[c]
    ensures i < |batch| && j < |batch| && Connected(batch, i, j)
  {
    ComponentIff(batch, c, i);
    ComponentIff(batch, c, j);
    SameClusterIffConnected(batch, i, j);
  }

  lemma ComponentsApart(batch: seq<Alert>, c: nat, d: nat, i: nat, j: nat)
    requires c < |Components(batch)| && d < |Components(batch)| && c != d
    requires i in Components(batch)[c] && j in Components(batch)[d]
    ensures !Connected(batch, i, j)
  {
    ComponentIff(batch, c, i);
    ComponentIff(batch, d, j);
    if Connected(batch, i, j) {
      SameClusterIffConnected(batch, i, j);
      var k: nat :| InCluster(batch, k, i) && InCluster(batch, k, j);
      ClustersPartition(batch, i);
      ClustersPartition(batch, j);
    }
  }

  /** A component's smallest place is in front of every place of a later component. */
  lemma ComponentsInOrder(batch: seq<Alert>, c: nat, d: nat, i: nat, j: nat)
    requires c <= d < |Components(batch)| && i in Components(batch)[c] && j in Components(batch)[d]
    ensures exists m: nat :: m <= j && Connected(batch, m, i)
  {
    var ls := Leaders(batch, |batch|);
    LeadersAscend(batch, |batch|);
    ComponentIff(batch, c, i);
    ComponentIff(batch, d, j);
    if j < ls[d] {
      ConnectedSymm(batch, ls[d], j);
      LeaderFollowsNone(batch, |batch|, d);
    }
    assert ls[c] <= j;
  }

  /** The component group k comes from, and which of its pieces the group is. */
  lemma PieceOf(batch: seq<Alert>, max: int, k: nat) returns (c: nat, piece: nat)
    requires k < |Places(batch, max)|
    ensures c == Owner(Pieces(batch, max), k) < |Components(batch)|
    ensures k == |Concat(Pieces(batch, max)[..c])| + piece
    ensures piece < |CappedPlaces(batch, Components(batch)[c], max)|
    ensures Places(batch, max)[k] == CappedPlaces(batch, Components(batch)[c], max)[piece]
  {
    OwnerHolds(Pieces(batch, max), k);
    c := Owner(Pieces(batch, max), k);
    piece := k - |Concat(Pieces(batch, max)[..c])|;
  }

  lemma FromSource(batch: seq<Alert>, max: int, k: nat, i: nat)
    requires k < |Places(batch, max)| && i in Places(batch, max)[k]
    ensures i in Components(batch)[Owner(Pieces(batch, max), k)]
  {
    var c, piece := PieceOf(batch, max, k);
    CappedFromPlaces(batch, Components(batch)[c], max, piece, i);
  }

  // ---------------------------------------------------------------------------------------
  // The groups are placed as they should be
  // ---------------------------------------------------------------------------------------

  lemma {:induction false} AscendingOnce(places: seq<nat>, i: nat)
    requires Ascending(places)
    ensures multiset(places)[i] == if i in places then 1 else 0
  {
    if places == [] {
    } else {
      var init, last := places[..|places| - 1], places[|places| - 1];
      assert places == init + [last];
      AscendingOnce(init, i);
    }
  }

  lemma ComponentOnce(batch: seq<Alert>, c: nat, i: nat)
    requires c < |Components(batch)|
    ensures multiset(Components(batch)[c])[i] == if InCluster(batch, c, i) then 1 else 0
  {
    ComponentFacts(batch, c);
    AscendingOnce(Components(batch)[c], i);
    ComponentIff(batch, c, i);
  }

  lemma ComponentCounts(batch: seq<Alert>, c: nat, i: nat)
    requires c < |Components(batch)|
    ensures Contents(Components(batch)[..c + 1])[i] ==
      Contents(Components(batch)[..c])[i] + if InCluster(batch, c, i) then 1 else 0
  {
    var cs := Components(batch);
    ContentsSnoc(cs[..c], cs[c]);
    ComponentOnce(batch, c, i);
    assert cs[..c + 1] == cs[..c] + [cs[c]];
  }

  lemma {:induction false} ComponentsWithout(batch: seq<Alert>, n: nat, i: nat)
    requires n <= |Components(batch)| && forall c: nat :: c < n ==> !InCluster(batch, c, i)
    ensures Contents(Components(batch)[..n])[i] == 0
  {
    if n == 0 {
    } else {
      ComponentsWithout(batch, n - 1, i);
      ComponentCounts(batch, n - 1, i);
    }
  }

  lemma {:induction false} ComponentsWith(batch: seq<Alert>, c: nat, n: nat, i: nat)
    requires c < n <= |Components(batch)| && InCluster(batch, c, i)
    requires forall d: nat :: InCluster(batch, d, i) ==> d == c
    ensures Contents(Components(batch)[..n])[i] == 1
  {
    ComponentCounts(batch, n - 1, i);
    if c == n - 1 {
      ComponentsWithout(batch, c, i);
    } else {
      ComponentsWith(batch, c, n - 1, i);
    }
  }

  lemma ComponentsTakeOnce(batch: seq<Alert>)
    ensures TakenOnce(|batch|, Components(batch))
  {
    var cs := Components(batch);
    assert cs[..|cs|] == cs;
    forall i: nat ensures Contents(cs)[i] == if i < |batch| then 1 else 0 {
      if i < |batch| {
        ClustersPartition(batch, i);
        var c: nat :| InCluster(batch, c, i);
        ComponentsWith(batch, c, |cs|, i);
      } else {
        forall c: nat | c < |cs| ensures !InCluster(batch, c, i) {
          ComponentIff(batch, c, i);
        }
        ComponentsWithout(batch, |cs|, i);
      }
    }
  }

  lemma PlacesTakeOnce(batch: seq<Alert>, max: int)
    ensures TakenOnce(|batch|, Places(batch, max))
  {
    var cs := Components(batch);
    forall c | 0 <= c < |cs| ensures Contents(Pieces(batch, max)[c]) == multiset(cs[c]) {
      ComponentFacts(batch, c);
      CappedPlacesFacts(batch, cs[c], max);
    }
    ContentsOfPieces(Pieces(batch, max), cs);
    ComponentsTakeOnce(batch);
  }

  lemma PlacesKindred(batch: seq<Alert>, max: int)
    ensures Kindred(batch, Places(batch, max))
  {
    var ps := Places(batch, max);
    forall k, i: nat, j: nat | 0 <= k < |ps| && i in ps[k] && j in ps[k] ensures Connected(batch, i, j) {
      FromSource(batch, max, k, i);
      FromSource(batch, max, k, j);
      ComponentLinked(batch, Owner(Pieces(batch, max), k), i, j);
    }
  }

  lemma LinkedPiecesFullBefore(batch: seq<Alert>, max: int, a: nat, b: nat, i: nat, j: nat)
    requires a < b < |Places(batch, max)| && i in Places(batch, max)[a] && j in Places(batch, max)[b]
    requires Connected(batch, i, j)
    ensures max > 0 && FullBefore(batch, Places(batch, max)[a], Places(batch, max)[b], max)
  {
    FromSource(batch, max, a, i);
    FromSource(batch, max, b, j);
    var c, p := PieceOf(batch, max, a);
    var d, q := PieceOf(batch, max, b);
    if c != d { ComponentsApart(batch, c, d, i, j); }
    ComponentFacts(batch, c);
    CappedFullBefore(batch, Components(batch)[c], max, p, q);
  }

  lemma PlacesUndivided(batch: seq<Alert>, max: int)
    requires max <= 0
    ensures Undivided(batch, Places(batch, max))
  {
    var ps := Places(batch, max);
    forall a, b, i: nat, j: nat | 0 <= a < b < |ps| && i in ps[a] && j in ps[b] ensures !Connected(batch, i, j) {
      if Connected(batch, i, j) { LinkedPiecesFullBefore(batch, max, a, b, i, j); }
    }
    forall k | 0 <= k < |ps| ensures Ascending(ps[k]) {
      var c, p := PieceOf(batch, max, k);
      ComponentFacts(batch, c);
    }
  }

  lemma PlacesDivided(batch: seq<Alert>, max: int)
    requires max > 0
    ensures Divided(batch, Places(batch, max), max)
  {
    var ps := Places(batch, max);
    forall k | 0 <= k < |ps| ensures |ps[k]| <= max {
      var c, p := PieceOf(batch, max, k);
      ComponentFacts(batch, c);
      CappedPlacesFacts(batch, Components(batch)[c], max);
    }
    forall a, b, i: nat, j: nat | 0 <= a < b < |ps| && i in ps[a] && j in ps[b] && Connected(batch, i, j)
      ensures FullBefore(batch, ps[a], ps[b], max)
    {
      LinkedPiecesFullBefore(batch, max, a, b, i, j);
    }
  }

  lemma PlacesInOrder(batch: seq<Alert>, max: int, a: nat, b: nat)
    requires a < b < |Places(batch, max)|
    ensures NoLater(batch, Places(batch, max)[a], Places(batch, max)[b])
  {
    var ps, pieces := Places(batch, max), Pieces(batch, max);
    OwnersAscend(pieces, a, b);
    forall i: nat, j: nat | i in ps[a] && j in ps[b] ensures exists m: nat :: m <= j && Connected(batch, m, i) {
      FromSource(batch, max, a, i);
      FromSource(batch, max, b, j);
      ComponentsInOrder(batch, Owner(pieces, a), Owner(pieces, b), i, j);
    }
  }

  // ---------------------------------------------------------------------------------------
  // The groups themselves
  // ---------------------------------------------------------------------------------------

  /** Group k has its alerts at the k-th places. */
  predicate StandsAt(topo: Topology, batch: seq<Alert>, g: Group, places: seq<nat>) {
    places != [] && Within(places, |batch|) && g == GroupOf(topo, At(batch, places))
  }

  lemma StandingIsMade(topo: Topology, batch: seq<Alert>, g: Group, places: seq<nat>)
    requires StandsAt(topo, batch, g, places)
    ensures MadeOf(topo, batch, g, places)
  {
    var alerts := At(batch, places);
    var p := PrimaryBelow(topo, alerts, |alerts|);
    PrimaryBelowIsPrimary(topo, alerts, |alerts|);
    assert alerts[..|alerts|] == alerts;
  }

  lemma {:induction false} GroupsForAt(topo: Topology, chunks: seq<seq<Alert>>, k: nat)
    requires k < |chunks| && forall m :: 0 <= m < |chunks| ==> chunks[m] != []
    ensures |GroupsFor(topo, chunks)| == |chunks| && GroupsFor(topo, chunks)[k] == GroupOf(topo, chunks[k])
  {
    var init := chunks[..|chunks| - 1];
    if init != [] {
      GroupsForAt(topo, init, if k < |init| then k else 0);
    }
  }

  lemma PieceStands(topo: Topology, batch: seq<Alert>, max: int, c: nat, k: nat)
    requires c < |Components(batch)| && k < |CappedPlaces(batch, Components(batch)[c], max)|
    ensures var gs := GroupsFor(topo, Capped(Clusters(batch)[c], max));
      var ps := CappedPlaces(batch, Components(batch)[c], max);
      |gs| == |ps| && StandsAt(topo, batch, gs[k], ps[k])
  {
    ComponentFacts(batch, c);
    CappedPlacesFacts(batch, Components(batch)[c], max);
    CappedAt(batch, Components(batch)[c], max, k);
    CappedNonEmpty(Clusters(batch)[c], max);
    GroupsForAt(topo, Capped(Clusters(batch)[c], max), k);
  }

  lemma CappedPlacesNonEmpty(batch: seq<Alert>, places: seq<nat>, max: int)
    ensures CappedPlaces(batch, places, max) != []
  {
  }

  predicate AllStand(topo: Topology, batch: seq<Alert>, gs: seq<Group>, ps: seq<seq<nat>>) {
    |gs| == |ps| && forall k :: 0 <= k < |gs| ==> StandsAt(topo, batch, gs[k], ps[k])
  }

  lemma AllStandConcat(topo: Topology, batch: seq<Alert>, gs: seq<Group>, ps: seq<seq<nat>>, hs: seq<Group>,
          qs: seq<seq<nat>>)
    requires AllStand(topo, batch, gs, ps) && AllStand(topo, batch, hs, qs)
    ensures AllStand(topo, batch, gs + hs, ps + qs)
  {
  }

  lemma PiecesStand(topo: Topology, batch: seq<Alert>, max: int, c: nat)
    requires c < |Components(batch)|
    ensures AllStand(topo, batch, GroupsFor(topo, Capped(Clusters(batch)[c], max)),
                     CappedPlaces(batch, Components(batch)[c], max))
  {
    var gs, ps := GroupsFor(topo, Capped(Clusters(batch)[c], max)), CappedPlaces(batch, Components(batch)[c], max);
    CappedPlacesNonEmpty(batch, Components(batch)[c], max);
    PieceStands(topo, batch, max, c, 0);
    forall k | 0 <= k < |gs| ensures StandsAt(topo, batch, gs[k], ps[k]) {
      PieceStands(topo, batch, max, c, k);
    }
  }

  /** The groups each cluster leaves in. */
  ghost function GroupPieces(topo: Topology, clusters: seq<seq<Alert>>, max: int): seq<seq<Group>> {
    seq(|clusters|, c requires 0 <= c < |clusters| => GroupsFor(topo, Capped(clusters[c], max)))
  }

  lemma GroupPiecesSnoc(topo: Topology, clusters: seq<seq<Alert>>, cluster: seq<Alert>, max: int)
    ensures GroupPieces(topo, clusters + [cluster], max)
         == GroupPieces(topo, clusters, max) + [GroupsFor(topo, Capped(cluster, max))]
  {
  }

  lemma ConcatSnoc<T>(ss: seq<seq<T>>, s: seq<T>)
    ensures Concat(ss + [s]) == Concat(ss) + s
  {
    assert (ss + [s])[..|ss|] == ss;
  }

  lemma ChunksSnoc(topo: Topology, clusters: seq<seq<Alert>>, cluster: seq<Alert>, max: int)
    ensures GroupsFor(topo, AllChunks(clusters + [cluster], max))
         == GroupsFor(topo, AllChunks(clusters, max)) + GroupsFor(topo, Capped(cluster, max))
  {
    assert (clusters + [cluster])[..|clusters|] == clusters;
    GroupsForAppend(topo, AllChunks(clusters, max), Capped(cluster, max));
  }

  lemma {:induction false} GroupsAreConcat(topo: Topology, clusters: seq<seq<Alert>>, max: int)
    ensures GroupsFor(topo, AllChunks(clusters, max)) == Concat(GroupPieces(topo, clusters, max))
  {
    if clusters == [] {
    } else {
      var init, last := clusters[..|clusters| - 1], clusters[|clusters| - 1];
      assert clusters == init + [last];
      GroupsAreConcat(topo, init, max);
      GroupPiecesSnoc(topo, init, last, max);
      ConcatSnoc(GroupPieces(topo, init, max), GroupsFor(topo, Capped(last, max)));
      ChunksSnoc(topo, init, last, max);
    }
  }

  lemma {:induction false} ConcatStands(topo: Topology, batch: seq<Alert>, gss: seq<seq<Group>>,
          pss: seq<seq<seq<nat>>>)
    requires |gss| == |pss| && forall c :: 0 <= c < |gss| ==> AllStand(topo, batch, gss[c], pss[c])
    ensures AllStand(topo, batch, Concat(gss), Concat(pss))
  {
    if gss == [] {
    } else {
      var n := |gss| - 1;
      ConcatStands(topo, batch, gss[..n], pss[..n]);
      AllStandConcat(topo, batch, Concat(gss[..n]), Concat(pss[..n]), gss[n], pss[n]);
    }
  }

  lemma GroupsStand(topo: Topology, batch: seq<Alert>, max: int)
    ensures AllStand(topo, batch, GroupsFor(topo, AllChunks(Clusters(batch), max)), Places(batch, max))
  {
    var gss, pss := GroupPieces(topo, Clusters(batch), max), Pieces(batch, max);
    GroupsAreConcat(topo, Clusters(batch), max);
    forall c | 0 <= c < |gss| ensures AllStand(topo, batch, gss[c], pss[c]) {
      PiecesStand(topo, batch, max, c);
    }
    ConcatStands(topo, batch, gss, pss);
  }

  /** However large the batch and whatever the cap: the groups a batch is dispatched as hold each of
      its alerts once, none that no chain links; without a cap exactly the alerts that a chain links
      share a group, and with one their groups are full but for the last, in order of the starts. */
  lemma DispatchPlaces(topo: Topology, max: int, batch: seq<Alert>)
    ensures PlacedAs(topo, max, batch, GroupsFor(topo, AllChunks(Clusters(batch), max)), Places(batch, max))
  {
    var gs, ps := GroupsFor(topo, AllChunks(Clusters(batch), max)), Places(batch, max);
    GroupsStand(topo, batch, max);
    forall k | 0 <= k < |gs| ensures MadeOf(topo, batch, gs[k], ps[k]) {
      StandingIsMade(topo, batch, gs[k], ps[k]);
    }
    PlacesTakeOnce(batch, max);
    PlacesKindred(batch, max);
    if max <= 0 { PlacesUndivided(batch, max); } else { PlacesDivided(batch, max); }
    forall a, b | 0 <= a < b < |ps| ensures NoLater(batch, ps[a], ps[b]) {
      PlacesInOrder(batch, max, a, b);
    }
  }

  lemma {:induction false} HeldSomewhere<T>(ss: seq<seq<T>>, x: T) returns (k: nat)
    requires Contents(ss)[x] > 0
    ensures k < |ss| && x in ss[k]
  {
    var n := |ss| - 1;
    if x in ss[n] {
      k := n;
    } else {
      k := HeldSomewhere(ss[..n], x);
    }
  }

  /** Without a cap, two alerts of the batch leave in one group exactly when a chain links them. */
  lemma TogetherIff(topo: Topology, cap: int, batch: seq<Alert>, groups: seq<Group>, places: seq<seq<nat>>, i: nat,
          j: nat)
    requires PlacedAs(topo, cap, batch, groups, places) && cap <= 0 && i < |batch| && j < |batch|
    ensures Connected(batch, i, j) <==> exists k :: 0 <= k < |groups| && i in places[k] && j in places[k]
  {
    var a := HeldSomewhere(places, i);
    var b := HeldSomewhere(places, j);
    if Connected(batch, i, j) {
      ConnectedSymm(batch, i, j);
      assert a == b;
    }
  }
}
