/** `clusterAlerts`: union-find over the service, namespace and instance labels computes the
    connected components of the "shares a non-empty label" graph, in an order that depends on
    the input alone. */
module Clustering {
  import opened Alerts
  import opened UnionFind

  datatype Label = Service | Namespace | Instance

  function Value(a: Alert, l: Label): string {
    match l
    case Service => a.service
    case Namespace => a.namespace
    case Instance => a.instance
  }

  /** The two alerts agree on some non-empty label. */
  ghost predicate Linked(a: Alert, b: Alert) {
    exists l: Label :: Value(a, l) != "" && Value(a, l) == Value(b, l)
  }

  /** In the alerts' own fields: the same non-empty service, namespace or instance. */
  lemma LinkedIff(a: Alert, b: Alert)
    ensures Linked(a, b) <==>
      (a.service != "" && a.service == b.service)
      || (a.namespace != "" && a.namespace == b.namespace)
      || (a.instance != "" && a.instance == b.instance)
  {
    assert Value(a, Service) == a.service && Value(b, Service) == b.service;
    assert Value(a, Namespace) == a.namespace && Value(b, Namespace) == b.namespace;
    assert Value(a, Instance) == a.instance && Value(b, Instance) == b.instance;
  }

  /** A walk through the alerts on which neighbours are linked. */
  ghost predicate IsChain(alerts: seq<Alert>, path: seq<nat>) {
    && path != []
    && (forall k :: 0 <= k < |path| ==> path[k] < |alerts|)
    && (forall k :: 1 <= k < |path| ==> Linked(alerts[path[k - 1]], alerts[path[k]]))
  }

  ghost predicate Connected(alerts: seq<Alert>, i: nat, j: nat) {
    exists path :: IsChain(alerts, path) && path[0] == i && path[|path| - 1] == j
  }

  lemma ConnectedRefl(alerts: seq<Alert>, i: nat)
    requires i < |alerts|
    ensures Connected(alerts, i, i)
  {
    assert IsChain(alerts, [i]);
  }

  lemma ConnectedStep(alerts: seq<Alert>, i: nat, j: nat)
    requires i < |alerts| && j < |alerts| && Linked(alerts[i], alerts[j])
    ensures Connected(alerts, i, j)
  {
    assert IsChain(alerts, [i, j]);
  }

  lemma ConnectedTrans(alerts: seq<Alert>, i: nat, j: nat, k: nat)
    requires Connected(alerts, i, j) && Connected(alerts, j, k)
    ensures Connected(alerts, i, k)
  {
    var p :| IsChain(alerts, p) && p[0] == i && p[|p| - 1] == j;
    var q :| IsChain(alerts, q) && q[0] == j && q[|q| - 1] == k;
    var r := p + q[1..];
    forall m | 1 <= m < |r| ensures Linked(alerts[r[m - 1]], alerts[r[m]]) {
      if m >= |p| {
        assert r[m] == q[m - |p| + 1] && r[m - 1] == q[m - |p|];
      }
    }
    assert IsChain(alerts, r);
  }

  lemma ConnectedSymm(alerts: seq<Alert>, i: nat, j: nat)
    requires Connected(alerts, i, j)
    ensures Connected(alerts, j, i)
  {
    var p :| IsChain(alerts, p) && p[0] == i && p[|p| - 1] == j;
    var r := seq(|p|, k requires 0 <= k < |p| => p[|p| - 1 - k]);
    forall m | 1 <= m < |r| ensures Linked(alerts[r[m - 1]], alerts[r[m]]) {
      assert Linked(alerts[p[|p| - 1 - m]], alerts[p[|p| - m]]);
      var l :| Value(alerts[r[m]], l) != "" && Value(alerts[r[m]], l) == Value(alerts[r[m - 1]], l);
      assert Value(alerts[r[m - 1]], l) != "";
    }
    assert IsChain(alerts, r);
  }

  // ---------------------------------------------------------------------------------------
  // Specification: clusters by smallest member, members in input order
  // ---------------------------------------------------------------------------------------

  ghost predicate FollowsEarlier(alerts: seq<Alert>, i: nat) {
    exists j: nat :: j < i && Connected(alerts, j, i)
  }

  /** The alerts below n that no earlier alert is connected to. */
  ghost function Leaders(alerts: seq<Alert>, n: nat): seq<nat> {
    if n == 0 then []
    else if FollowsEarlier(alerts, n - 1) then Leaders(alerts, n - 1)
    else Leaders(alerts, n - 1) + [n - 1]
  }

  /** The alerts below n connected to alert l. */
  ghost function Members(alerts: seq<Alert>, l: nat, n: nat): seq<nat> {
    if n == 0 then []
    else if Connected(alerts, l, n - 1) then Members(alerts, l, n - 1) + [n - 1]
    else Members(alerts, l, n - 1)
  }

  ghost function MemberAlerts(alerts: seq<Alert>, l: nat, n: nat): seq<Alert>
    requires n <= |alerts|
  {
    if n == 0 then []
    else if Connected(alerts, l, n - 1) then MemberAlerts(alerts, l, n - 1) + [alerts[n - 1]]
    else MemberAlerts(alerts, l, n - 1)
  }

  ghost function ClustersBelow(alerts: seq<Alert>, n: nat): seq<seq<Alert>>
    requires n <= |alerts|
  {
    var ls := Leaders(alerts, n);
    seq(|ls|, k requires 0 <= k < |ls| => MemberAlerts(alerts, ls[k], n))
  }

  ghost function Clusters(alerts: seq<Alert>): seq<seq<Alert>> {
    ClustersBelow(alerts, |alerts|)
  }

  lemma {:induction false} MembersIff(alerts: seq<Alert>, l: nat, n: nat, i: nat)
    ensures i in Members(alerts, l, n) <==> i < n && Connected(alerts, l, i)
  {
    if n == 0 {
    } else {
      MembersIff(alerts, l, n - 1, i);
    }
  }

  /** Members of a cluster are listed in input order, each once. */
  lemma {:induction false} MembersAscend(alerts: seq<Alert>, l: nat, n: nat)
    requires n <= |alerts|
    ensures forall a :: 0 <= a < |Members(alerts, l, n)| ==> Members(alerts, l, n)[a] < n
    ensures forall a, b :: 0 <= a < b < |Members(alerts, l, n)| ==> Members(alerts, l, n)[a] < Members(alerts, l, n)[b]
  {
    if n == 0 {
    } else {
      MembersAscend(alerts, l, n - 1);
    }
  }

  lemma {:induction false} MemberAlertsAre(alerts: seq<Alert>, l: nat, n: nat, a: nat)
    requires n <= |alerts|
    ensures |MemberAlerts(alerts, l, n)| == |Members(alerts, l, n)|
    ensures a < |Members(alerts, l, n)| ==>
      Members(alerts, l, n)[a] < n && MemberAlerts(alerts, l, n)[a] == alerts[Members(alerts, l, n)[a]]
  {
    if n == 0 {
    } else {
      MemberAlertsAre(alerts, l, n - 1, a);
    }
  }

  lemma {:induction false} LeadersAscend(alerts: seq<Alert>, n: nat)
    ensures forall k :: 0 <= k < |Leaders(alerts, n)| ==> Leaders(alerts, n)[k] < n
    ensures forall a, b :: 0 <= a < b < |Leaders(alerts, n)| ==> Leaders(alerts, n)[a] < Leaders(alerts, n)[b]
  {
    if n == 0 {
    } else {
      LeadersAscend(alerts, n - 1);
    }
  }

  lemma {:induction false} LeaderFollowsNone(alerts: seq<Alert>, n: nat, k: nat)
    requires k < |Leaders(alerts, n)|
    ensures !FollowsEarlier(alerts, Leaders(alerts, n)[k])
  {
    if k < |Leaders(alerts, n - 1)| {
      LeaderFollowsNone(alerts, n - 1, k);
    }
  }

  lemma LeadersUnconnected(alerts: seq<Alert>, n: nat, a: nat, b: nat)
    requires a < |Leaders(alerts, n)| && b < |Leaders(alerts, n)|
    requires Connected(alerts, Leaders(alerts, n)[a], Leaders(alerts, n)[b])
    ensures a == b
  {
    LeadersAscend(alerts, n);
    ConnectedSymm(alerts, Leaders(alerts, n)[a], Leaders(alerts, n)[b]);
    LeaderFollowsNone(alerts, n, a);
    LeaderFollowsNone(alerts, n, b);
  }

  /** Every alert below n has a leader at or before it. */
  lemma {:induction false} LeaderOf(alerts: seq<Alert>, n: nat, i: nat) returns (k: nat)
    requires i < n <= |alerts|
    ensures k < |Leaders(alerts, n)| && Leaders(alerts, n)[k] <= i && Connected(alerts, Leaders(alerts, n)[k], i)
    decreases n, i
  {
    if i < n - 1 {
      k := LeaderOf(alerts, n - 1, i);
    } else if FollowsEarlier(alerts, i) {
      var j: nat :| j < i && Connected(alerts, j, i);
      k := LeaderOf(alerts, i, j);
      assert Leaders(alerts, n) == Leaders(alerts, i);
      ConnectedTrans(alerts, Leaders(alerts, n)[k], j, i);
    } else {
      ConnectedRefl(alerts, i);
      assert Leaders(alerts, n) == Leaders(alerts, i) + [i];
      k := |Leaders(alerts, i)|;
    }
  }

  ghost predicate InCluster(alerts: seq<Alert>, k: nat, i: nat) {
    k < |Leaders(alerts, |alerts|)| && i in Members(alerts, Leaders(alerts, |alerts|)[k], |alerts|)
  }

  /** Two alerts sit in one cluster exactly when a chain of alerts links them. */
  lemma SameClusterIffConnected(alerts: seq<Alert>, i: nat, j: nat)
    requires i < |alerts| && j < |alerts|
    ensures Connected(alerts, i, j) <==> exists k :: InCluster(alerts, k, i) && InCluster(alerts, k, j)
  {
    var n := |alerts|;
    var ls := Leaders(alerts, n);
    if k: nat :| InCluster(alerts, k, i) && InCluster(alerts, k, j) {
      MembersIff(alerts, ls[k], n, i);
      MembersIff(alerts, ls[k], n, j);
      ConnectedSymm(alerts, ls[k], i);
      ConnectedTrans(alerts, i, ls[k], j);
    }
    if Connected(alerts, i, j) {
      var k := LeaderOf(alerts, n, i);
      ConnectedTrans(alerts, ls[k], i, j);
      MembersIff(alerts, ls[k], n, i);
      MembersIff(alerts, ls[k], n, j);
      assert InCluster(alerts, k, i) && InCluster(alerts, k, j);
    }
  }

  /** Every alert sits in exactly one cluster. */
  lemma ClustersPartition(alerts: seq<Alert>, i: nat)
    requires i < |alerts|
    ensures exists k :: InCluster(alerts, k, i)
    ensures forall a, b :: InCluster(alerts, a, i) && InCluster(alerts, b, i) ==> a == b
  {
    var n := |alerts|;
    var ls := Leaders(alerts, n);
    ConnectedRefl(alerts, i);
    SameClusterIffConnected(alerts, i, i);
    forall a: nat, b: nat | InCluster(alerts, a, i) && InCluster(alerts, b, i) ensures a == b {
      MembersIff(alerts, ls[a], n, i);
      MembersIff(alerts, ls[b], n, i);
      ConnectedSymm(alerts, ls[b], i);
      ConnectedTrans(alerts, ls[a], i, ls[b]);
      LeadersUnconnected(alerts, n, a, b);
    }
  }

  /** Some cluster holds both alerts. */
  predicate Together(clusters: seq<seq<Alert>>, a: Alert, b: Alert) {
    exists k :: 0 <= k < |clusters| && a in clusters[k] && b in clusters[k]
  }

  lemma MemberIsListed(alerts: seq<Alert>, l: nat, i: nat)
    requires i < |alerts| && i in Members(alerts, l, |alerts|)
    ensures alerts[i] in MemberAlerts(alerts, l, |alerts|)
  {
    var a: nat :| a < |Members(alerts, l, |alerts|)| && Members(alerts, l, |alerts|)[a] == i;
    MemberAlertsAre(alerts, l, |alerts|, a);
    assert MemberAlerts(alerts, l, |alerts|)[a] == alerts[i];
  }

  lemma LinkedShareCluster(alerts: seq<Alert>, i: nat, j: nat)
    requires i < |alerts| && j < |alerts| && Linked(alerts[i], alerts[j])
    ensures Together(Clusters(alerts), alerts[i], alerts[j])
  {
    ConnectedStep(alerts, i, j);
    SameClusterIffConnected(alerts, i, j);
    var k: nat :| InCluster(alerts, k, i) && InCluster(alerts, k, j);
    MemberIsListed(alerts, Leaders(alerts, |alerts|)[k], i);
    MemberIsListed(alerts, Leaders(alerts, |alerts|)[k], j);
    assert alerts[i] in Clusters(alerts)[k] && alerts[j] in Clusters(alerts)[k];
  }

  /** Two alerts with the same non-empty service, namespace or instance are in one cluster. */
  predicate SharedFieldsTogether(alerts: seq<Alert>, clusters: seq<seq<Alert>>) {
    forall i, j :: 0 <= i < |alerts| && 0 <= j < |alerts| ==>
      && (alerts[i].service == alerts[j].service != "" ==> Together(clusters, alerts[i], alerts[j]))
      && (alerts[i].namespace == alerts[j].namespace != "" ==> Together(clusters, alerts[i], alerts[j]))
      && (alerts[i].instance == alerts[j].instance != "" ==> Together(clusters, alerts[i], alerts[j]))
  }

  lemma SharedFieldsShareCluster(alerts: seq<Alert>)
    ensures SharedFieldsTogether(alerts, Clusters(alerts))
  {
    forall i: nat, j: nat | i < |alerts| && j < |alerts|
      ensures Linked(alerts[i], alerts[j]) ==> Together(Clusters(alerts), alerts[i], alerts[j])
      ensures Linked(alerts[i], alerts[j]) <==>
        (alerts[i].service != "" && alerts[i].service == alerts[j].service)
        || (alerts[i].namespace != "" && alerts[i].namespace == alerts[j].namespace)
        || (alerts[i].instance != "" && alerts[i].instance == alerts[j].instance)
    {
      LinkedIff(alerts[i], alerts[j]);
      if Linked(alerts[i], alerts[j]) { LinkedShareCluster(alerts, i, j); }
    }
  }

  // ---------------------------------------------------------------------------------------
  // Growing the specification by one alert
  // ---------------------------------------------------------------------------------------

  lemma {:induction false} NoMembers(alerts: seq<Alert>, l: nat, n: nat)
    requires n <= |alerts| && forall j: nat :: j < n ==> !Connected(alerts, l, j)
    ensures MemberAlerts(alerts, l, n) == []
  {
    if n == 0 {
    } else {
      NoMembers(alerts, l, n - 1);
    }
  }

  lemma ClustersJoin(alerts: seq<Alert>, n: nat, k: nat)
    requires n < |alerts| && k < |Leaders(alerts, n)| && Connected(alerts, Leaders(alerts, n)[k], n)
    ensures Leaders(alerts, n + 1) == Leaders(alerts, n)
    ensures var cs := ClustersBelow(alerts, n);
            ClustersBelow(alerts, n + 1) == cs[k := cs[k] + [alerts[n]]]
  {
    var ls := Leaders(alerts, n);
    LeadersAscend(alerts, n);
    assert FollowsEarlier(alerts, n);
    forall m | 0 <= m < |ls| && m != k ensures !Connected(alerts, ls[m], n) {
      if Connected(alerts, ls[m], n) {
        ConnectedSymm(alerts, ls[m], n);
        ConnectedTrans(alerts, ls[k], n, ls[m]);
        LeadersUnconnected(alerts, n, k, m);
      }
    }
  }

  lemma ClustersOpen(alerts: seq<Alert>, n: nat)
    requires n < |alerts| && !FollowsEarlier(alerts, n)
    ensures Leaders(alerts, n + 1) == Leaders(alerts, n) + [n]
    ensures ClustersBelow(alerts, n + 1) == ClustersBelow(alerts, n) + [[alerts[n]]]
  {
    var ls := Leaders(alerts, n);
    LeadersAscend(alerts, n);
    forall j: nat | j < n ensures !Connected(alerts, n, j) {
      if Connected(alerts, n, j) { ConnectedSymm(alerts, n, j); }
    }
    NoMembers(alerts, n, n);
    ConnectedRefl(alerts, n);
    assert MemberAlerts(alerts, n, n + 1) == [alerts[n]];
  }

  /** Clustering loses and duplicates no alert. */
  lemma {:induction false} ClustersConserve(alerts: seq<Alert>, n: nat)
    requires n <= |alerts|
    ensures Contents(ClustersBelow(alerts, n)) == multiset(alerts[..n])
  {
    if n > 0 {
      var m := n - 1;
      ClustersConserve(alerts, m);
      assert alerts[..n] == alerts[..m] + [alerts[m]];
      if FollowsEarlier(alerts, m) {
        var j: nat :| j < m && Connected(alerts, j, m);
        var k := LeaderOf(alerts, m, j);
        ConnectedTrans(alerts, Leaders(alerts, m)[k], j, m);
        ClustersJoin(alerts, m, k);
        ContentsGrow(ClustersBelow(alerts, m), k, alerts[m]);
      } else {
        ClustersOpen(alerts, m);
        ContentsSnoc(ClustersBelow(alerts, m), [alerts[m]]);
      }
    } else {
      assert alerts[..n] == [];
    }
  }

  lemma FirstCluster(alerts: seq<Alert>)
    requires alerts != []
    ensures Leaders(alerts, 1) == [0] && ClustersBelow(alerts, 1) == [alerts[..1]]
  {
    assert !FollowsEarlier(alerts, 0);
    ClustersOpen(alerts, 0);
    assert Leaders(alerts, 0) + [0] == [0];
    assert ClustersBelow(alerts, 0) + [[alerts[0]]] == [[alerts[0]]];
    assert alerts[..1] == [alerts[0]];
  }

  lemma JoinsFirst(alerts: seq<Alert>, m: nat)
    requires m < |alerts| && Connected(alerts, 0, m)
    requires Leaders(alerts, m) == [0] && ClustersBelow(alerts, m) == [alerts[..m]]
    ensures Leaders(alerts, m + 1) == [0] && ClustersBelow(alerts, m + 1) == [alerts[..m + 1]]
  {
    ClustersJoin(alerts, m, 0);
    assert alerts[..m + 1] == alerts[..m] + [alerts[m]];
    assert [alerts[..m]][0 := alerts[..m + 1]] == [alerts[..m + 1]];
  }

  lemma {:induction false} SharedLabelBelow(alerts: seq<Alert>, l: Label, v: string, n: nat)
    requires 1 <= n <= |alerts| && v != "" && forall i :: 0 <= i < n ==> Value(alerts[i], l) == v
    ensures Leaders(alerts, n) == [0] && ClustersBelow(alerts, n) == [alerts[..n]]
  {
    if n == 1 {
      FirstCluster(alerts);
    } else {
      var m := n - 1;
      SharedLabelBelow(alerts, l, v, m);
      assert Value(alerts[0], l) == Value(alerts[m], l);
      ConnectedStep(alerts, 0, m);
      JoinsFirst(alerts, m);
    }
  }

  /** Alerts that all share a label are one cluster. */
  lemma SharedLabelIsOneCluster(alerts: seq<Alert>, l: Label, v: string)
    requires alerts != [] && v != "" && forall i :: 0 <= i < |alerts| ==> Value(alerts[i], l) == v
    ensures Clusters(alerts) == [alerts]
  {
    SharedLabelBelow(alerts, l, v, |alerts|);
    assert alerts[..|alerts|] == alerts;
  }

  lemma ClustersNonEmpty(alerts: seq<Alert>)
    ensures alerts != [] ==> Clusters(alerts) != []
    ensures forall k :: 0 <= k < |Clusters(alerts)| ==> Clusters(alerts)[k] != []
  {
    var n := |alerts|;
    var ls := Leaders(alerts, n);
    if alerts != [] {
      var k := LeaderOf(alerts, n, 0);
    }
    forall k | 0 <= k < |ls| ensures MemberAlerts(alerts, ls[k], n) != [] {
      LeadersAscend(alerts, n);
      ConnectedRefl(alerts, ls[k]);
      MembersIff(alerts, ls[k], n, ls[k]);
      MemberAlertsAre(alerts, ls[k], n, 0);
    }
  }

  // ---------------------------------------------------------------------------------------
  // The union phase
  // ---------------------------------------------------------------------------------------

  /** Trees never join alerts that no chain links. */
  ghost predicate Sound(alerts: seq<Alert>, root: seq<int>) {
    |root| == |alerts| &&
    forall i: nat, j: nat :: i < |root| && j < |root| && root[i] == root[j] ==> Connected(alerts, i, j)
  }

  /** Trees only grow: what shares a root in r keeps sharing one in s. */
  ghost predicate Coarser(r: seq<int>, s: seq<int>) {
    |r| == |s| && forall i: nat, j: nat :: i < |r| && j < |r| && r[i] == r[j] ==> s[i] == s[j]
  }

  ghost predicate SameRoot(root: seq<int>, idxs: seq<nat>) {
    forall a, b :: 0 <= a < |idxs| && 0 <= b < |idxs| && idxs[a] < |root| && idxs[b] < |root| ==>
      root[idxs[a]] == root[idxs[b]]
  }

  /** All alerts with one non-empty value of l share a root. */
  ghost predicate Complete(alerts: seq<Alert>, root: seq<int>, l: Label) {
    |root| == |alerts| &&
    forall i: nat, j: nat :: i < |root| && j < |root| && Value(alerts[i], l) == Value(alerts[j], l) != "" ==>
      root[i] == root[j]
  }

  lemma CompleteCoarser(alerts: seq<Alert>, r: seq<int>, s: seq<int>, l: Label)
    requires Complete(alerts, r, l) && Coarser(r, s)
    ensures Complete(alerts, s, l)
  {
  }

  lemma MergeSound(alerts: seq<Alert>, root: seq<int>, a: nat, b: nat)
    requires Sound(alerts, root) && a < |root| && b < |root| && Connected(alerts, a, b)
    ensures Sound(alerts, MergedRoots(root, root[a], root[b]))
  {
    var r := MergedRoots(root, root[a], root[b]);
    forall i: nat, j: nat | i < |r| && j < |r| && r[i] == r[j] ensures Connected(alerts, i, j) {
      if root[i] != root[j] {
        if root[i] == root[a] {
          ConnectedTrans(alerts, i, a, b);
          ConnectedTrans(alerts, i, b, j);
        } else {
          ConnectedSymm(alerts, a, b);
          ConnectedTrans(alerts, i, b, a);
          ConnectedTrans(alerts, i, a, j);
        }
      }
    }
  }

  lemma {:induction false} ChainSharesRoot(alerts: seq<Alert>, root: seq<int>, path: seq<nat>)
    requires forall l: Label :: Complete(alerts, root, l)
    requires IsChain(alerts, path)
    ensures |root| == |alerts| && root[path[0]] == root[path[|path| - 1]]
  {
    assert Complete(alerts, root, Service);
    if |path| > 1 {
      var init := path[..|path| - 1];
      assert IsChain(alerts, init);
      ChainSharesRoot(alerts, root, init);
      var i, j := path[|path| - 2], path[|path| - 1];
      assert Linked(alerts[i], alerts[j]);
      var l :| Value(alerts[i], l) != "" && Value(alerts[i], l) == Value(alerts[j], l);
      assert Complete(alerts, root, l);
    }
  }

  /** Star unions over the three label maps leave exactly the connected components. */
  lemma RootsAreComponents(alerts: seq<Alert>, root: seq<int>, i: nat, j: nat)
    requires Sound(alerts, root) && forall l: Label :: Complete(alerts, root, l)
    requires i < |alerts| && j < |alerts|
    ensures root[i] == root[j] <==> Connected(alerts, i, j)
  {
    if Connected(alerts, i, j) {
      var path :| IsChain(alerts, path) && path[0] == i && path[|path| - 1] == j;
      ChainSharesRoot(alerts, root, path);
    }
  }

  type Bucket = map<string, seq<nat>>

  function IndexFor(idx: nat, value: string, bucket: Bucket): Bucket {
    if value == "" then bucket
    else if value in bucket then bucket[value := bucket[value] + [idx]]
    else bucket[value := [idx]]
  }

  /** What a label map holds under one value: only alerts below n that carry the value. */
  ghost predicate Entry(alerts: seq<Alert>, l: Label, n: nat, v: string, idxs: seq<nat>) {
    && v != "" && idxs != []
    && forall k :: 0 <= k < |idxs| ==> idxs[k] < n <= |alerts| && Value(alerts[idxs[k]], l) == v
  }

  ghost predicate Listed(alerts: seq<Alert>, l: Label, bucket: Bucket, i: nat)
    requires i < |alerts|
  {
    Value(alerts[i], l) != "" ==> Value(alerts[i], l) in bucket && i in bucket[Value(alerts[i], l)]
  }

  ghost predicate Indexed(alerts: seq<Alert>, l: Label, n: nat, bucket: Bucket)
    requires n <= |alerts|
  {
    && (forall v :: v in bucket ==> Entry(alerts, l, n, v, bucket[v]))
    && (forall i: nat :: i < n ==> Listed(alerts, l, bucket, i))
  }

  lemma IndexForStep(alerts: seq<Alert>, l: Label, n: nat, bucket: Bucket)
    requires n < |alerts| && Indexed(alerts, l, n, bucket)
    ensures Indexed(alerts, l, n + 1, IndexFor(n, Value(alerts[n], l), bucket))
  {
    var value := Value(alerts[n], l);
    var next := IndexFor(n, value, bucket);
    forall v | v in next ensures Entry(alerts, l, n + 1, v, next[v]) {
      assert v in bucket ==> Entry(alerts, l, n, v, bucket[v]);
    }
    forall i: nat | i < n + 1 ensures Listed(alerts, l, next, i) {
      if i < n {
        assert Listed(alerts, l, bucket, i);
      } else if value != "" {
        assert next[value][|next[value]| - 1] == n;
      }
    }
  }

  lemma StarStep(root: seq<int>, idxs: seq<nat>, k: nat)
    requires 1 <= k < |idxs| && (forall m :: 0 <= m < |idxs| ==> idxs[m] < |root|)
    requires SameRoot(root, idxs[..k])
    ensures SameRoot(MergedRoots(root, root[idxs[0]], root[idxs[k]]), idxs[..k + 1])
    ensures Coarser(root, MergedRoots(root, root[idxs[0]], root[idxs[k]]))
  {
    forall m | 0 <= m < k ensures root[idxs[m]] == root[idxs[0]] {
      assert idxs[..k][m] == idxs[m] && idxs[..k][0] == idxs[0];
    }
  }

  /** One bucket: `union(idxs[0], idxs[k])` for k = 1, 2, ... */
  method UnionStar(parent: array<int>, alerts: seq<Alert>, l: Label, ghost v: string, idxs: seq<nat>,
                   ghost root: seq<int>, ghost rank: seq<nat>)
    returns (ghost root': seq<int>, ghost rank': seq<nat>)
    requires parent.Length == |alerts| && Forest(parent[..], root, rank) && Sound(alerts, root)
    requires Entry(alerts, l, |alerts|, v, idxs)
    modifies parent
    ensures Forest(parent[..], root', rank') && Sound(alerts, root')
    ensures Coarser(root, root') && SameRoot(root', idxs)
  {
    root', rank' := root, rank;
    for k := 1 to |idxs|
      invariant Forest(parent[..], root', rank') && Sound(alerts, root')
      invariant Coarser(root, root') && SameRoot(root', idxs[..k])
    {
      ghost var r := root';
      assert Value(alerts[idxs[0]], l) == v == Value(alerts[idxs[k]], l);
      ConnectedStep(alerts, idxs[0], idxs[k]);
      MergeSound(alerts, r, idxs[0], idxs[k]);
      root', rank' := Union(parent, idxs[0], idxs[k], root', rank');
      StarStep(r, idxs, k);
    }
    assert idxs[..|idxs|] == idxs;
  }

  /** One label map, its keys taken in any order. */
  method UnionBuckets(parent: array<int>, alerts: seq<Alert>, l: Label, bucket: Bucket,
                      ghost root: seq<int>, ghost rank: seq<nat>)
    returns (ghost root': seq<int>, ghost rank': seq<nat>)
    requires parent.Length == |alerts| && Forest(parent[..], root, rank) && Sound(alerts, root)
    requires Indexed(alerts, l, |alerts|, bucket)
    modifies parent
    ensures Forest(parent[..], root', rank') && Sound(alerts, root')
    ensures Coarser(root, root') && Complete(alerts, root', l)
  {
    root', rank' := root, rank;
    var todo := bucket.Keys;
    while todo != {}
      invariant todo <= bucket.Keys
      invariant Forest(parent[..], root', rank') && Sound(alerts, root') && Coarser(root, root')
      invariant forall v :: v in bucket && v !in todo ==> SameRoot(root', bucket[v])
      decreases |todo|
    {
      var v :| v in todo;
      ghost var r := root';
      assert Entry(alerts, l, |alerts|, v, bucket[v]);
      root', rank' := UnionStar(parent, alerts, l, v, bucket[v], root', rank');
      forall w | w in bucket && w !in todo - {v} ensures SameRoot(root', bucket[w]) {
        assert w != v ==> SameRoot(r, bucket[w]);
      }
      todo := todo - {v};
    }
    forall i: nat, j: nat | i < |root'| && j < |root'| && Value(alerts[i], l) != ""
      && Value(alerts[i], l) == Value(alerts[j], l)
      ensures root'[i] == root'[j]
    {
      assert Listed(alerts, l, bucket, i) && Listed(alerts, l, bucket, j);
      assert SameRoot(root', bucket[Value(alerts[i], l)]);
    }
  }

  // ---------------------------------------------------------------------------------------
  // The bucketing phase and the whole method
  // ---------------------------------------------------------------------------------------

  ghost predicate RootsDecide(alerts: seq<Alert>, root: seq<int>) {
    |root| == |alerts| &&
    forall i: nat, j: nat :: i < |root| && j < |root| ==> (root[i] == root[j] <==> Connected(alerts, i, j))
  }

  ghost predicate SameKeys(rootOrder: seq<int>, buckets: map<int, seq<Alert>>) {
    forall r :: r in buckets <==> r in rootOrder
  }

  lemma KeysStay(rootOrder: seq<int>, buckets: map<int, seq<Alert>>, r: int, bucket: seq<Alert>)
    requires SameKeys(rootOrder, buckets) && r in buckets
    ensures SameKeys(rootOrder, buckets[r := bucket])
  {
  }

  lemma KeysGrow(rootOrder: seq<int>, buckets: map<int, seq<Alert>>, r: int, bucket: seq<Alert>)
    requires SameKeys(rootOrder, buckets)
    ensures SameKeys(rootOrder + [r], buckets[r := bucket])
  {
    assert (rootOrder + [r])[|rootOrder|] == r;
  }

  ghost predicate BucketOf(alerts: seq<Alert>, root: seq<int>, n: nat, k: nat, rootOrder: seq<int>,
          buckets: map<int, seq<Alert>>)
    requires n <= |alerts| == |root| && k < |Leaders(alerts, n)| == |rootOrder|
  {
    var l := Leaders(alerts, n)[k];
    && l < n && rootOrder[k] == root[l]
    && rootOrder[k] in buckets && buckets[rootOrder[k]] == ClustersBelow(alerts, n)[k]
  }

  /** The state of the bucketing loop after n alerts: one bucket per leader, in leader order. */
  ghost predicate Bucketed(alerts: seq<Alert>, root: seq<int>, n: nat, rootOrder: seq<int>,
          buckets: map<int, seq<Alert>>)
    requires n <= |alerts| == |root|
  {
    var ls := Leaders(alerts, n);
    && |rootOrder| == |ls|
    && SameKeys(rootOrder, buckets)
    && forall k :: 0 <= k < |ls| ==> BucketOf(alerts, root, n, k, rootOrder, buckets)
  }

  lemma OrderDistinct(alerts: seq<Alert>, root: seq<int>, n: nat, rootOrder: seq<int>, buckets: map<int, seq<Alert>>,
          m: nat, k: nat)
    requires n <= |alerts| && RootsDecide(alerts, root) && Bucketed(alerts, root, n, rootOrder, buckets)
    requires m < |rootOrder| && k < |rootOrder| && rootOrder[m] == rootOrder[k]
    ensures m == k
  {
    assert BucketOf(alerts, root, n, m, rootOrder, buckets) && BucketOf(alerts, root, n, k, rootOrder, buckets);
    assert Connected(alerts, Leaders(alerts, n)[m], Leaders(alerts, n)[k]);
    LeadersUnconnected(alerts, n, m, k);
  }

  lemma OtherRoot(alerts: seq<Alert>, root: seq<int>, n: nat, rootOrder: seq<int>, buckets: map<int, seq<Alert>>,
          m: nat, k: nat)
    requires n <= |alerts| && RootsDecide(alerts, root) && Bucketed(alerts, root, n, rootOrder, buckets)
    requires m < |rootOrder| && k < |rootOrder| && m != k
    ensures rootOrder[m] != rootOrder[k]
  {
    if rootOrder[m] == rootOrder[k] { OrderDistinct(alerts, root, n, rootOrder, buckets, m, k); }
  }

  lemma BucketJoinAt(alerts: seq<Alert>, root: seq<int>, n: nat, rootOrder: seq<int>, buckets: map<int, seq<Alert>>,
          k: nat, m: nat)
    requires n < |alerts| && RootsDecide(alerts, root) && Bucketed(alerts, root, n, rootOrder, buckets)
    requires k < |rootOrder| && rootOrder[k] == root[n] && root[n] in buckets && m < |rootOrder|
    ensures |Leaders(alerts, n + 1)| == |rootOrder|
    ensures BucketOf(alerts, root, n + 1, m, rootOrder, buckets[root[n] := buckets[root[n]] + [alerts[n]]])
  {
    assert BucketOf(alerts, root, n, m, rootOrder, buckets);
    assert BucketOf(alerts, root, n, k, rootOrder, buckets);
    ClustersJoin(alerts, n, k);
    if m != k { OtherRoot(alerts, root, n, rootOrder, buckets, m, k); }
  }

  lemma BucketPlace(rootOrder: seq<int>, buckets: map<int, seq<Alert>>, r: int) returns (k: nat)
    requires SameKeys(rootOrder, buckets) && r in buckets
    ensures k < |rootOrder| && rootOrder[k] == r
  {
    assert r in rootOrder;
    k :| k < |rootOrder| && rootOrder[k] == r;
  }

  lemma JoinSize(alerts: seq<Alert>, root: seq<int>, n: nat, rootOrder: seq<int>, buckets: map<int, seq<Alert>>, k: nat)
    requires n < |alerts| && RootsDecide(alerts, root) && Bucketed(alerts, root, n, rootOrder, buckets)
    requires k < |rootOrder| && rootOrder[k] == root[n]
    ensures |Leaders(alerts, n + 1)| == |rootOrder|
  {
    assert BucketOf(alerts, root, n, k, rootOrder, buckets);
    ClustersJoin(alerts, n, k);
  }

  lemma BucketJoin(alerts: seq<Alert>, root: seq<int>, n: nat, rootOrder: seq<int>, buckets: map<int, seq<Alert>>)
    requires n < |alerts| && RootsDecide(alerts, root) && Bucketed(alerts, root, n, rootOrder, buckets)
    requires root[n] in buckets
    ensures Bucketed(alerts, root, n + 1, rootOrder, buckets[root[n] := buckets[root[n]] + [alerts[n]]])
  {
    var k: nat := BucketPlace(rootOrder, buckets, root[n]);
    JoinSize(alerts, root, n, rootOrder, buckets, k);
    var next := buckets[root[n] := buckets[root[n]] + [alerts[n]]];
    KeysStay(rootOrder, buckets, root[n], buckets[root[n]] + [alerts[n]]);
    var n' := n + 1;
    forall m: nat | m < |rootOrder| ensures BucketOf(alerts, root, n', m, rootOrder, next) {
      BucketJoinAt(alerts, root, n, rootOrder, buckets, k, m);
    }
  }

  lemma FollowerHasBucket(alerts: seq<Alert>, root: seq<int>, n: nat, rootOrder: seq<int>,
          buckets: map<int, seq<Alert>>)
    requires n < |alerts| && RootsDecide(alerts, root) && Bucketed(alerts, root, n, rootOrder, buckets)
    requires FollowsEarlier(alerts, n)
    ensures root[n] in buckets
  {
    var j: nat :| j < n && Connected(alerts, j, n);
    var k := LeaderOf(alerts, n, j);
    ConnectedTrans(alerts, Leaders(alerts, n)[k], j, n);
    assert BucketOf(alerts, root, n, k, rootOrder, buckets);
  }

  lemma BucketOpen(alerts: seq<Alert>, root: seq<int>, n: nat, rootOrder: seq<int>, buckets: map<int, seq<Alert>>)
    requires n < |alerts| && RootsDecide(alerts, root) && Bucketed(alerts, root, n, rootOrder, buckets)
    requires root[n] !in buckets
    ensures Bucketed(alerts, root, n + 1, rootOrder + [root[n]], buckets[root[n] := [alerts[n]]])
  {
    if FollowsEarlier(alerts, n) { FollowerHasBucket(alerts, root, n, rootOrder, buckets); }
    ClustersOpen(alerts, n);
    var ls := Leaders(alerts, n);
    var order, next := rootOrder + [root[n]], buckets[root[n] := [alerts[n]]];
    KeysGrow(rootOrder, buckets, root[n], [alerts[n]]);
    var n' := n + 1;
    assert |Leaders(alerts, n')| == |order|;
    forall m | 0 <= m < |order| ensures BucketOf(alerts, root, n', m, order, next) {
      if m < |ls| {
        assert BucketOf(alerts, root, n, m, rootOrder, buckets);
      }
    }
  }

  method BucketByRoot(parent: array<int>, alerts: seq<Alert>, ghost root: seq<int>, ghost rank: seq<nat>)
    returns (clusters: seq<seq<Alert>>)
    requires parent.Length == |alerts| && Forest(parent[..], root, rank) && RootsDecide(alerts, root)
    modifies parent
    ensures clusters == Clusters(alerts)
  {
    var buckets: map<int, seq<Alert>>, rootOrder: seq<int> := map[], [];
    for i := 0 to |alerts|
      invariant Forest(parent[..], root, rank)
      invariant Bucketed(alerts, root, i, rootOrder, buckets)
    {
      var r := Find(parent, i, root, rank);
      if r !in buckets {
        BucketOpen(alerts, root, i, rootOrder, buckets);
        rootOrder := rootOrder + [r];
        buckets := buckets[r := [alerts[i]]];
      } else {
        BucketJoin(alerts, root, i, rootOrder, buckets);
        buckets := buckets[r := buckets[r] + [alerts[i]]];
      }
    }
    clusters := [];
    for k := 0 to |rootOrder|
      invariant clusters == Clusters(alerts)[..k]
    {
      assert BucketOf(alerts, root, |alerts|, k, rootOrder, buckets);
      clusters := clusters + [buckets[rootOrder[k]]];
    }
  }

  method UniteAll(parent: array<int>, alerts: seq<Alert>, byService: Bucket, byNamespace: Bucket, byInstance: Bucket,
                  ghost root: seq<int>, ghost rank: seq<nat>)
    returns (ghost root': seq<int>, ghost rank': seq<nat>)
    requires parent.Length == |alerts| && Forest(parent[..], root, rank)
    requires forall i :: 0 <= i < |alerts| ==> root[i] == i
    requires Indexed(alerts, Service, |alerts|, byService)
    requires Indexed(alerts, Namespace, |alerts|, byNamespace)
    requires Indexed(alerts, Instance, |alerts|, byInstance)
    modifies parent
    ensures Forest(parent[..], root', rank') && RootsDecide(alerts, root')
  {
    forall i: nat | i < |alerts| ensures Connected(alerts, i, i) {
      ConnectedRefl(alerts, i);
    }
    root', rank' := UnionBuckets(parent, alerts, Service, byService, root, rank);
    ghost var r1 := root';
    root', rank' := UnionBuckets(parent, alerts, Namespace, byNamespace, root', rank');
    ghost var r2 := root';
    root', rank' := UnionBuckets(parent, alerts, Instance, byInstance, root', rank');
    CompleteCoarser(alerts, r1, r2, Service);
    CompleteCoarser(alerts, r2, root', Service);
    CompleteCoarser(alerts, r2, root', Namespace);
    forall l: Label ensures Complete(alerts, root', l) {
      match l case Service => case Namespace => case Instance =>
    }
    forall i: nat, j: nat | i < |root'| && j < |root'| ensures root'[i] == root'[j] <==> Connected(alerts, i, j) {
      RootsAreComponents(alerts, root', i, j);
    }
  }

  /** The clusters are those of the specification, whichever order the maps are iterated in and
      whichever roots the unions elect. */
  method ClusterAlerts(alerts: seq<Alert>) returns (clusters: seq<seq<Alert>>)
    ensures clusters == Clusters(alerts)
    ensures SharedFieldsTogether(alerts, clusters)
  {
    SharedFieldsShareCluster(alerts);
    var n := |alerts|;
    if n == 0 {
      return [];
    }
    var parent := new int[n](i => i);
    ghost var root, rank := parent[..], seq(n, _ => 0);
    IdentityForest(parent[..]);

    var byService: Bucket, byNamespace: Bucket, byInstance: Bucket := map[], map[], map[];
    for i := 0 to n
      invariant parent[..] == root && Forest(parent[..], root, rank)
      invariant Indexed(alerts, Service, i, byService)
      invariant Indexed(alerts, Namespace, i, byNamespace)
      invariant Indexed(alerts, Instance, i, byInstance)
    {
      IndexForStep(alerts, Service, i, byService);
      IndexForStep(alerts, Namespace, i, byNamespace);
      IndexForStep(alerts, Instance, i, byInstance);
      byService := IndexFor(i, alerts[i].service, byService);
      byNamespace := IndexFor(i, alerts[i].namespace, byNamespace);
      byInstance := IndexFor(i, alerts[i].instance, byInstance);
    }
    root, rank := UniteAll(parent, alerts, byService, byNamespace, byInstance, root, rank);

    clusters := BucketByRoot(parent, alerts, root, rank);
  }
}
