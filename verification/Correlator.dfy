/** The alert correlator: a buffer with deadlines, the flush loop's two ways of draining it, and
    the dispatch of a drained batch as groups. Times are integers (nanoseconds); `now` stands for
    the value `time.Now()` returned. */
module Correlator {
  import opened Alerts
  import opened Clustering
  import opened Grouping
  import opened GroupPlaces

  datatype Pending = Pending(alert: Alert, deadline: int)

  datatype Config = Config(window: int, maxGroupSize: int, topology: Topology, hasCallback: bool)

  const DEFAULT_WINDOW: int := 30_000_000_000

  function AlertsOf(buffer: seq<Pending>): seq<Alert> {
    if buffer == [] then [] else AlertsOf(buffer[..|buffer| - 1]) + [buffer[|buffer| - 1].alert]
  }

  function Due(buffer: seq<Pending>, now: int): seq<Alert> {
    if buffer == [] then []
    else
      var b := buffer[|buffer| - 1];
      Due(buffer[..|buffer| - 1], now) + if b.deadline <= now then [b.alert] else []
  }

  function Kept(buffer: seq<Pending>, now: int): seq<Pending> {
    if buffer == [] then []
    else
      var b := buffer[|buffer| - 1];
      Kept(buffer[..|buffer| - 1], now) + if b.deadline <= now then [] else [b]
  }

  lemma AlertsOfSnoc(buffer: seq<Pending>, b: Pending)
    ensures AlertsOf(buffer + [b]) == AlertsOf(buffer) + [b.alert]
  {
    assert (buffer + [b])[..|buffer|] == buffer;
  }

  lemma SumGrows<T>(a: multiset<T>, b: multiset<T>, c: multiset<T>, x: T)
    requires a + b == c
    ensures (a + multiset{x}) + b == c + multiset{x} && a + (b + multiset{x}) == c + multiset{x}
  {
  }

  /** Taking splits the buffer and loses nothing ... */
  lemma {:induction false} TakeConserves(buffer: seq<Pending>, now: int)
    ensures multiset(Due(buffer, now)) + multiset(AlertsOf(Kept(buffer, now))) == multiset(AlertsOf(buffer))
  {
    if buffer == [] {
    } else {
      var init, b := buffer[..|buffer| - 1], buffer[|buffer| - 1];
      TakeConserves(init, now);
      var d, k := Due(init, now), Kept(init, now);
      SumGrows(multiset(d), multiset(AlertsOf(k)), multiset(AlertsOf(init)), b.alert);
      if b.deadline > now {
        AlertsOfSnoc(k, b);
        assert Due(buffer, now) == d + [] == d && Kept(buffer, now) == k + [b];
      } else {
        assert Due(buffer, now) == d + [b.alert] && Kept(buffer, now) == k + [] == k;
      }
    }
  }

  /** ... and the split is by deadline. */
  lemma {:induction false} KeptIff(buffer: seq<Pending>, now: int, b: Pending)
    ensures b in Kept(buffer, now) <==> b in buffer && b.deadline > now
  {
    if buffer == [] {
    } else {
      KeptIff(buffer[..|buffer| - 1], now, b);
    }
  }

  lemma {:induction false} DueIff(buffer: seq<Pending>, now: int, a: Alert)
    ensures a in Due(buffer, now) <==> exists b :: b in buffer && b.alert == a && b.deadline <= now
  {
    if buffer == [] {
    } else {
      var init, last := buffer[..|buffer| - 1], buffer[|buffer| - 1];
      DueIff(init, now, a);
      assert buffer == init + [last];
      if b :| b in init && b.alert == a && b.deadline <= now {
        assert b in buffer;
      } else if last.alert == a && last.deadline <= now {
        assert last in buffer;
      }
    }
  }

  /** The ascending places of the entries that are due, or of those that are not. */
  predicate Picks(buffer: seq<Pending>, now: int, due: bool, places: seq<nat>) {
    && Within(places, |buffer|) && Ascending(places)
    && forall i :: 0 <= i < |buffer| ==> (i in places <==> (buffer[i].deadline <= now <==> due))
  }

  function PicksNext(b: Pending, now: int, due: bool, places: seq<nat>, n: nat): seq<nat> {
    if b.deadline <= now <==> due then places + [n] else places
  }

  lemma PicksSnoc(buffer: seq<Pending>, b: Pending, now: int, due: bool, places: seq<nat>)
    requires Picks(buffer, now, due, places)
    ensures Picks(buffer + [b], now, due, PicksNext(b, now, due, places, |buffer|))
  {
  }

  /** ... and keeps the order on both sides. */
  lemma {:induction false} DuePlaces(buffer: seq<Pending>, now: int) returns (places: seq<nat>)
    ensures Picks(buffer, now, true, places) && |Due(buffer, now)| == |places|
    ensures forall k :: 0 <= k < |places| ==> Due(buffer, now)[k] == buffer[places[k]].alert
  {
    if buffer == [] {
      places := [];
    } else {
      var init, b := buffer[..|buffer| - 1], buffer[|buffer| - 1];
      assert buffer == init + [b];
      var before := DuePlaces(init, now);
      PicksSnoc(init, b, now, true, before);
      places := PicksNext(b, now, true, before, |init|);
    }
  }

  lemma {:induction false} KeptPlaces(buffer: seq<Pending>, now: int) returns (places: seq<nat>)
    ensures Picks(buffer, now, false, places) && |Kept(buffer, now)| == |places|
    ensures forall k :: 0 <= k < |places| ==> Kept(buffer, now)[k] == buffer[places[k]]
  {
    if buffer == [] {
      places := [];
    } else {
      var init, b := buffer[..|buffer| - 1], buffer[|buffer| - 1];
      assert buffer == init + [b];
      var before := KeptPlaces(init, now);
      PicksSnoc(init, b, now, false, before);
      places := PicksNext(b, now, false, before, |init|);
    }
  }

  lemma {:induction false} AlertsOfAt(buffer: seq<Pending>, k: nat)
    requires k < |buffer|
    ensures |AlertsOf(buffer)| == |buffer| && AlertsOf(buffer)[k] == buffer[k].alert
  {
    var n := |buffer| - 1;
    if n > 0 { AlertsOfAt(buffer[..n], if k < n then k else 0); }
  }

  // ---------------------------------------------------------------------------------------
  // Dispatch
  // ---------------------------------------------------------------------------------------

  /** The groups a batch is dispatched as. */
  ghost function GroupsOfBatch(cfg: Config, batch: seq<Alert>): seq<Group> {
    GroupsFor(cfg.topology, AllChunks(Clusters(batch), cfg.maxGroupSize))
  }

  /** What the callback sees of a dispatched batch. */
  ghost function Callbacks(cfg: Config, batch: seq<Alert>): seq<Group> {
    if cfg.hasCallback then GroupsOfBatch(cfg, batch) else []
  }

  /** What the callback sees of a list of clusters. */
  function Emission(cfg: Config, clusters: seq<seq<Alert>>): seq<Group> {
    if cfg.hasCallback then GroupsFor(cfg.topology, AllChunks(clusters, cfg.maxGroupSize)) else []
  }

  /** The batch left in groups placed as they should be, if there is anybody to take them. */
  ghost predicate Left(cfg: Config, batch: seq<Alert>, before: seq<Group>, after: seq<Group>) {
    if cfg.hasCallback then
      exists groups, places ::
        after == before + groups && PlacedAs(cfg.topology, cfg.maxGroupSize, batch, groups, places)
    else after == before
  }

  lemma BatchLeaves(cfg: Config, batch: seq<Alert>, before: seq<Group>)
    ensures Left(cfg, batch, before, before + Callbacks(cfg, batch))
  {
    DispatchPlaces(cfg.topology, cfg.maxGroupSize, batch);
    assert before + [] == before;
  }

  lemma EmissionSnoc(cfg: Config, clusters: seq<seq<Alert>>, i: nat, before: seq<Group>)
    requires i < |clusters|
    ensures before + Emission(cfg, clusters[..i + 1]) == before + Emission(cfg, clusters[..i]) +
      if cfg.hasCallback then GroupsFor(cfg.topology, Capped(clusters[i], cfg.maxGroupSize)) else []
  {
    AllChunksSnoc(cfg.topology, clusters, i, cfg.maxGroupSize);
  }

  lemma OneMoreGroup(cfg: Config, chunks: seq<seq<Alert>>, j: nat, before: seq<Group>)
    requires j < |chunks| && chunks[j] != []
    ensures before + (if cfg.hasCallback then GroupsFor(cfg.topology, chunks[..j + 1]) else []) ==
      before + (if cfg.hasCallback then GroupsFor(cfg.topology, chunks[..j]) else []) +
      if cfg.hasCallback then [GroupOf(cfg.topology, chunks[j])] else []
  {
    GroupsForStep(cfg.topology, chunks, j);
  }

  lemma {:induction false} AllChunksFacts(clusters: seq<seq<Alert>>, max: int)
    requires forall k :: 0 <= k < |clusters| ==> clusters[k] != []
    ensures Contents(AllChunks(clusters, max)) == Contents(clusters)
    ensures forall k :: 0 <= k < |AllChunks(clusters, max)| ==> AllChunks(clusters, max)[k] != []
    ensures max > 0 ==> forall k :: 0 <= k < |AllChunks(clusters, max)| ==> |AllChunks(clusters, max)[k]| <= max
  {
    if clusters == [] {
    } else {
      var init, last := clusters[..|clusters| - 1], clusters[|clusters| - 1];
      AllChunksFacts(init, max);
      CappedConserves(last, max);
      ContentsAppend(AllChunks(init, max), Capped(last, max));
    }
  }

  /** Dispatch emits every alert of the batch once, in groups no larger than the cap. */
  lemma DispatchConserves(cfg: Config, batch: seq<Alert>)
    ensures GroupContents(GroupsOfBatch(cfg, batch)) == multiset(batch)
    ensures cfg.maxGroupSize > 0 ==>
      forall g :: g in GroupsOfBatch(cfg, batch) ==> |GroupAlerts(g)| <= cfg.maxGroupSize
  {
    var chunks := AllChunks(Clusters(batch), cfg.maxGroupSize);
    ClustersNonEmpty(batch);
    ClustersConserve(batch, |batch|);
    assert batch[..|batch|] == batch;
    AllChunksFacts(Clusters(batch), cfg.maxGroupSize);
    GroupsForConserve(cfg.topology, chunks);
    GroupsForSizes(cfg.topology, chunks);
  }

  class Correlator {
    const cfg: Config
    var buffer: seq<Pending>
    /** Every group handed to the callback, oldest first. */
    var emitted: seq<Group>

    constructor (window: int, maxGroupSize: int, topology: Topology, hasCallback: bool)
      ensures cfg == Config(if window <= 0 then 30_000_000_000 else window, maxGroupSize, topology, hasCallback)
      ensures buffer == [] && emitted == []
    {
      cfg := Config(if window <= 0 then DEFAULT_WINDOW else window, maxGroupSize, topology, hasCallback);
      buffer, emitted := [], [];
    }

    method Submit(a: Alert, now: int)
      modifies this`buffer
      ensures buffer == old(buffer) + [Pending(a, now + cfg.window)]
    {
      var deadline := now + cfg.window;
      buffer := buffer + [Pending(a, deadline)];
    }

    method TakeDue(now: int) returns (due: seq<Alert>)
      modifies this`buffer
      ensures due == Due(old(buffer), now)
      ensures buffer == Kept(old(buffer), now)
    {
      if |buffer| == 0 {
        return [];
      }
      due := [];
      var kept: seq<Pending> := [];
      for i := 0 to |buffer|
        invariant buffer == old(buffer)
        invariant due == Due(buffer[..i], now) && kept == Kept(buffer[..i], now)
      {
        var b := buffer[i];
        assert buffer[..i + 1][..i] == buffer[..i];
        if b.deadline <= now {
          due := due + [b.alert];
        } else {
          kept := kept + [b];
        }
      }
      assert buffer[..|buffer|] == buffer;
      buffer := kept;
    }

    method FlushDue(now: int)
      modifies this
      ensures buffer == Kept(old(buffer), now)
      ensures emitted == old(emitted) + Callbacks(cfg, Due(old(buffer), now))
      ensures Left(cfg, Due(old(buffer), now), old(emitted), emitted)
    {
      BatchLeaves(cfg, Due(buffer, now), emitted);
      var due := TakeDue(now);
      if |due| == 0 {
        return;
      }
      Dispatch(due);
    }

    method Unwrap(buf: seq<Pending>) returns (alerts: seq<Alert>)
      ensures alerts == AlertsOf(buf)
    {
      alerts := [];
      for i := 0 to |buf|
        invariant alerts == AlertsOf(buf[..i])
      {
        assert buf[..i + 1][..i] == buf[..i];
        alerts := alerts + [buf[i].alert];
      }
      assert buf[..|buf|] == buf;
    }

    method FlushAll()
      modifies this
      ensures buffer == []
      ensures emitted == old(emitted) + Callbacks(cfg, AlertsOf(old(buffer)))
      ensures Left(cfg, AlertsOf(old(buffer)), old(emitted), emitted)
    {
      BatchLeaves(cfg, AlertsOf(buffer), emitted);
      var buf := buffer;
      buffer := [];
      if |buf| == 0 {
        return;
      }
      var alerts := Unwrap(buf);
      Dispatch(alerts);
    }

    method Dispatch(alerts: seq<Alert>)
      modifies this`emitted
      ensures emitted == old(emitted) + Callbacks(cfg, alerts)
      ensures Left(cfg, alerts, old(emitted), emitted)
    {
      BatchLeaves(cfg, alerts, emitted);
      if |alerts| == 0 {
        return;
      }
      var clusters := ClusterAlerts(alerts);
      ClustersNonEmpty(alerts);
      EmitClusters(clusters);
    }

    /** The nested loops of `dispatch`: clusters outside, their chunks inside. */
    method EmitClusters(clusters: seq<seq<Alert>>)
      requires forall k :: 0 <= k < |clusters| ==> clusters[k] != []
      modifies this`emitted
      ensures emitted == old(emitted) + Emission(cfg, clusters)
    {
      for i := 0 to |clusters|
        invariant emitted == old(emitted) + Emission(cfg, clusters[..i])
      {
        EmissionSnoc(cfg, clusters, i, old(emitted));
        EmitCluster(clusters[i]);
      }
      assert clusters[..|clusters|] == clusters;
    }

    method EmitCluster(cluster: seq<Alert>)
      requires cluster != []
      modifies this`emitted
      ensures emitted == old(emitted) +
        if cfg.hasCallback then GroupsFor(cfg.topology, Capped(cluster, cfg.maxGroupSize)) else []
    {
      var chunks := SplitForCap(cluster, cfg.maxGroupSize);
      CappedNonEmpty(cluster, cfg.maxGroupSize);
      for j := 0 to |chunks|
        invariant emitted == old(emitted) + if cfg.hasCallback then GroupsFor(cfg.topology, chunks[..j]) else []
      {
        OneMoreGroup(cfg, chunks, j, old(emitted));
        EmitChunk(chunks[j]);
      }
      assert chunks[..|chunks|] == chunks;
    }

    method EmitChunk(chunk: seq<Alert>)
      requires chunk != []
      modifies this`emitted
      ensures emitted == old(emitted) + if cfg.hasCallback then [GroupOf(cfg.topology, chunk)] else []
    {
      var group := BuildGroup(cfg.topology, chunk);
      if cfg.hasCallback {
        emitted := emitted + [group];
      }
    }
  }
}
