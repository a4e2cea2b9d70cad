/** The assessments command by command, in numbers: the readings of the answers, the severity, the
    findings, the confidence and the suggested upgrade. */
module RiskTables {
  import opened Options
  import opened BlastRadius

  // ---------------------------------------------------------------------------------------
  // Readings
  // ---------------------------------------------------------------------------------------

  /** The query for replicas comes to nothing, for want of a fetcher or of an answer. */
  predicate ReplicasMissing(q: Readings) {
    q.NoFetcher? || q.replicas.None?
  }

  /** There is a fetcher, but the share cannot be told. */
  predicate ShareMissing(q: Readings) {
    q.Queried? && q.share.None?
  }

  /** The replicas and the share that the queries' answers come to: whole replicas rounded down, the
      service's rate over the total rate within 0 and 1, and 0 for whatever is not known. */
  lemma ReadMeans(a: Answers)
    ensures Count(Read(a)) ==
      if a.hasFetcher && a.replicas.Some? && a.replicas.value >= 0.0 then a.replicas.value.Floor else 0
    ensures Share(Read(a)) ==
      if !(a.hasFetcher && a.serviceRate.Some? && a.totalRate.Some? && a.totalRate.value > 0.0) then 0.0
      else
        var share := a.serviceRate.value / a.totalRate.value;
        if share < 0.0 then 0.0 else if share > 1.0 then 1.0 else share
    ensures OwnerOf(Read(a)) == if a.hasFetcher && a.owner.Some? then a.owner.value else ""
    ensures Read(a).downstream == a.downstream
    ensures ReplicasMissing(Read(a)) <==> !(a.hasFetcher && a.replicas.Some?)
    ensures ShareMissing(Read(a)) <==>
      a.hasFetcher && !(a.serviceRate.Some? && a.totalRate.Some? && a.totalRate.value > 0.0)
  {
  }

  // ---------------------------------------------------------------------------------------
  // Severity
  // ---------------------------------------------------------------------------------------

  /** A restart is as severe as its traffic; without any, a single replica makes it medium. */
  lemma RestartSeverity(cfg: Config, llm: Level, q: Readings)
    ensures var l, share := Assessed(cfg, RolloutRestart, llm, q).severity, Share(q);
      && (l == Critical <==> share >= cfg.critical)
      && (l == High <==> cfg.high <= share < cfg.critical)
      && (l == Medium <==> share < cfg.high && share < cfg.critical && (share > 0.0 || Count(q) == 1))
      && (l == Low <==> share < cfg.high && share < cfg.critical && share <= 0.0 && Count(q) != 1)
  {
    AssessmentSound(cfg, RolloutRestart, llm, q);
  }

  /** A scale to nothing is critical, one by more than half at least high. */
  lemma ScaleSeverity(cfg: Config, target: nat, llm: Level, q: Readings)
    ensures var l, share, n := Assessed(cfg, Scale(target), llm, q).severity, Share(q), Count(q);
      && (l == Critical <==> share >= cfg.critical || (n > 0 && target == 0))
      && (l == High <==> l != Critical && (share >= cfg.high || (0 < target < n && (n - target) * 2 > n)))
      && (l == Medium <==> l != Critical && l != High && (share > 0.0 || n == 1))
      && (l == Low <==> l != Critical && l != High && share <= 0.0 && n != 1)
  {
    AssessmentSound(cfg, Scale(target), llm, q);
  }

  /** A rollback is at least medium. */
  lemma UndoSeverity(cfg: Config, llm: Level, q: Readings)
    ensures var l, share := Assessed(cfg, RolloutUndo, llm, q).severity, Share(q);
      && (l == Critical <==> share >= cfg.critical)
      && (l == High <==> cfg.high <= share < cfg.critical)
      && (l == Medium <==> share < cfg.high && share < cfg.critical)
  {
    AssessmentSound(cfg, RolloutUndo, llm, q);
  }

  /** Deleting a pod is medium, the only one of a known owner high; the others are fixed. */
  lemma OtherSeverity(cfg: Config, shape: Shape, llm: Level, q: Readings)
    requires !shape.RolloutRestart? && !shape.Scale? && !shape.RolloutUndo?
    ensures Assessed(cfg, shape, llm, q).severity ==
      match shape
      case DeletePod => if OwnerOf(q) != "" && Count(q) == 1 then High else Medium
      case PatchConfigMap => Medium
      case PatchHpa => Low
      case SystemctlStop => Critical
      case SystemctlRestart => Medium
      case DiskCleanup => Low
      case _ => Medium
  {
    AssessmentSound(cfg, shape, llm, q);
  }

  /** The upgrade, by the LLM's word for its level. */
  lemma UpgradeMeans(cfg: Config, shape: Shape, text: string, q: Readings)
    ensures var v := Assessed(cfg, shape, LevelOf(text), q);
      v.upgrade ==
        if text == "" || text == "critical" then Blank
        else if text == "high" then if v.severity == Critical then Critical else Blank
        else if text == "medium" then if v.severity in {High, Critical} then v.severity else Blank
        else if text == "low" then if v.severity in {Medium, High, Critical} then v.severity else Blank
        else v.severity
  {
    AssessmentSound(cfg, shape, LevelOf(text), q);
  }

  // ---------------------------------------------------------------------------------------
  // Findings and confidence
  // ---------------------------------------------------------------------------------------

  function When(b: bool, f: Finding): seq<Finding> {
    if b then [f] else []
  }

  function ShareFindings(q: Readings): seq<Finding> {
    When(q.Queried? && q.share.Some?, Traffic) + When(ShareMissing(q), NoData)
  }

  function DownstreamFindings(q: Readings): seq<Finding> {
    When(q.downstream.Some? && q.downstream.value != [], Downstream)
  }

  lemma WhenNot<T>(s: seq<T>)
    ensures s + [] == s && [] + s == s
  {
  }

  lemma AskedShareFindings(v: View, q: Readings)
    ensures AskedShare(v, q).findings == v.findings + ShareFindings(q)
    ensures AskedShare(v, q).confidence == if ShareMissing(q) then Lowered(v.confidence) else v.confidence
  {
    WhenNot(v.findings);
    WhenNot([Traffic]);
    WhenNot([NoData]);
  }

  lemma AskedReplicasFindings(v: View, q: Readings)
    ensures AskedReplicas(v, q).findings == v.findings + When(ReplicasMissing(q), NoData)
    ensures AskedReplicas(v, q).confidence == if ReplicasMissing(q) then Lowered(v.confidence) else v.confidence
  {
    WhenNot(v.findings);
  }

  lemma TailFindings(v: View, l: Level, q: Readings)
    ensures WithDependents(AtLeast(v, l), q).findings == v.findings + DownstreamFindings(q)
    ensures WithDependents(AtLeast(v, l), q).confidence == v.confidence
  {
    WhenNot(v.findings);
  }

  /** A card keeps what was found, and the confidence. */
  lemma CardKeeps(cfg: Config, shape: Shape, llm: Level, q: Readings)
    requires !NothingFound(shape, q)
    ensures Assessed(cfg, shape, llm, q).findings == Judged(cfg, shape, q).findings
    ensures Assessed(cfg, shape, llm, q).confidence == Judged(cfg, shape, q).confidence
  {
    JudgedIsSane(cfg, shape, q);
    FinalPass(Judged(cfg, shape, q), llm);
  }

  lemma RestartJudged(cfg: Config, q: Readings)
    ensures Judged(cfg, RolloutRestart, q).findings ==
      When(ReplicasMissing(q), NoData) + When(Count(q) > 0, Replicas) + ShareFindings(q) + DownstreamFindings(q)
    ensures var c := if ReplicasMissing(q) then Lowered(0.8) else 0.8;
      Judged(cfg, RolloutRestart, q).confidence == if ShareMissing(q) then Lowered(c) else c
  {
    var v := Start(0.8, Blank);
    AskedReplicasFindings(v, q);
    WhenNot(When(ReplicasMissing(q), NoData));
    AskedShareFindings(RestartNoted(q), q);
    TailFindings(AskedShare(RestartNoted(q), q), TrafficLevel(cfg, Share(q), Count(q)), q);
  }

  /** A restart's findings in order; each query that came to nothing halves the confidence. */
  lemma RestartCard(cfg: Config, llm: Level, q: Readings)
    ensures Assessed(cfg, RolloutRestart, llm, q).findings ==
      (if q.NoFetcher? || q.replicas.None? then [NoData] else []) + (if Count(q) > 0 then [Replicas] else [])
      + (if q.NoFetcher? then [] else if q.share.Some? then [Traffic] else [NoData])
      + (if q.downstream.Some? && q.downstream.value != [] then [Downstream] else [])
    ensures Assessed(cfg, RolloutRestart, llm, q).confidence ==
      if ReplicasMissing(q) && ShareMissing(q) then 0.2
      else if ReplicasMissing(q) || ShareMissing(q) then 0.4
      else 0.8
  {
    RestartJudged(cfg, q);
    CardKeeps(cfg, RolloutRestart, llm, q);
    WhenNot([Traffic]);
    WhenNot([NoData]);
  }

  lemma RescaledFindings(v: View, n: nat, target: nat)
    ensures Rescaled(v, n, target).findings ==
      v.findings + When((target == 0 && n > 0) || Halves(n, target) || (n > 0 && target > n) || n == target, Replicas)
    ensures Rescaled(v, n, target).confidence == v.confidence
  {
    WhenNot(v.findings);
  }

  lemma ScaleJudged(cfg: Config, target: nat, q: Readings)
    ensures var n := Count(q);
      Judged(cfg, Scale(target), q).findings ==
      When(ReplicasMissing(q), NoData) + ShareFindings(q)
      + When((target == 0 && n > 0) || Halves(n, target) || (n > 0 && target > n) || n == target, Replicas)
      + DownstreamFindings(q)
    ensures var c := if ReplicasMissing(q) then Lowered(0.85) else 0.85;
      Judged(cfg, Scale(target), q).confidence == if ShareMissing(q) then Lowered(c) else c
  {
    var v := AskedReplicas(Start(0.85, Blank), q);
    AskedReplicasFindings(Start(0.85, Blank), q);
    WhenNot(When(ReplicasMissing(q), NoData));
    AskedShareFindings(v, q);
    RescaledFindings(AskedShare(v, q), Count(q), target);
    TailFindings(Rescaled(AskedShare(v, q), Count(q), target), TrafficLevel(cfg, Share(q), Count(q)), q);
  }

  /** A scale has a finding on replicas unless it takes away half of them or less, or what runs is
      not known. */
  lemma ScaleCard(cfg: Config, target: nat, llm: Level, q: Readings)
    ensures var n := Count(q);
      Assessed(cfg, Scale(target), llm, q).findings ==
      (if q.NoFetcher? || q.replicas.None? then [NoData] else [])
      + (if q.NoFetcher? then [] else if q.share.Some? then [Traffic] else [NoData])
      + (if n == target || (n > 0 && (target > n || target == 0 || (n - target) * 2 > n)) then [Replicas] else [])
      + (if q.downstream.Some? && q.downstream.value != [] then [Downstream] else [])
    ensures Assessed(cfg, Scale(target), llm, q).confidence ==
      if ReplicasMissing(q) && ShareMissing(q) then 0.2125
      else if ReplicasMissing(q) || ShareMissing(q) then 0.425
      else 0.85
  {
    ScaleJudged(cfg, target, q);
    CardKeeps(cfg, Scale(target), llm, q);
    WhenNot([Traffic]);
    WhenNot([NoData]);
  }

  lemma UndoJudged(cfg: Config, q: Readings)
    ensures Judged(cfg, RolloutUndo, q).findings ==
      When(ReplicasMissing(q), NoData) + [Replicas] + ShareFindings(q) + DownstreamFindings(q)
    ensures var c := if ReplicasMissing(q) then Lowered(0.7) else 0.7;
      Judged(cfg, RolloutUndo, q).confidence == if ShareMissing(q) then Lowered(c) else c
  {
    AskedReplicasFindings(Start(0.7, Blank), q);
    WhenNot(When(ReplicasMissing(q), NoData));
    AskedShareFindings(RollbackNoted(q), q);
    TailFindings(AtLeast(AskedShare(RollbackNoted(q), q), TrafficLevel(cfg, Share(q), Count(q))), Medium, q);
  }

  /** A rollback always has a finding on replicas. */
  lemma UndoCard(cfg: Config, llm: Level, q: Readings)
    ensures Assessed(cfg, RolloutUndo, llm, q).findings ==
      (if q.NoFetcher? || q.replicas.None? then [NoData] else []) + [Replicas]
      + (if q.NoFetcher? then [] else if q.share.Some? then [Traffic] else [NoData])
      + (if q.downstream.Some? && q.downstream.value != [] then [Downstream] else [])
    ensures Assessed(cfg, RolloutUndo, llm, q).confidence ==
      if ReplicasMissing(q) && ShareMissing(q) then 0.175
      else if ReplicasMissing(q) || ShareMissing(q) then 0.35
      else 0.7
  {
    UndoJudged(cfg, q);
    CardKeeps(cfg, RolloutUndo, llm, q);
    WhenNot([Traffic]);
    WhenNot([NoData]);
  }

  /** Deleting a pod: an owner that is not told or empty ends the queries; a known owner without
      replicas leaves nothing to say. */
  lemma DeletePodCard(cfg: Config, llm: Level, q: Readings)
    ensures var v := Assessed(cfg, DeletePod, llm, q);
      && v.findings ==
        (if q.NoFetcher? || q.owner == Some("") then [Replicas]
         else if q.owner.None? then [NoData, Replicas]
         else if q.replicas.None? || q.replicas == Some(0) then [NoData]
         else [Replicas])
      && v.confidence ==
        if q.Queried? && q.owner.None? then 0.3
        else if q.NoFetcher? || q.owner == Some("") then 0.6
        else if q.replicas.None? then 0.3
        else if q.replicas == Some(0) then 0.2
        else 0.6
  {
    var j := Judged(cfg, DeletePod, q);
    JudgedIsSane(cfg, DeletePod, q);
    FinalPass(j, llm);
    if q.Queried? && q.owner.None? { assert [NoData] + [Replicas] == [NoData, Replicas]; }
  }

  /** The other commands have one finding and a fixed confidence. */
  lemma FixedCard(cfg: Config, shape: Shape, llm: Level, q: Readings)
    requires shape in {PatchConfigMap, PatchHpa, SystemctlStop, SystemctlRestart, DiskCleanup, OtherCommand}
    ensures Assessed(cfg, shape, llm, q).findings == [if shape.OtherCommand? then NoData else Replicas]
    ensures Assessed(cfg, shape, llm, q).confidence ==
      match shape
      case SystemctlStop => 0.7
      case SystemctlRestart => 0.6
      case OtherCommand => 0.3
      case _ => 0.5
  {
    CardKeeps(cfg, shape, llm, q);
  }

  // ---------------------------------------------------------------------------------------
  // Numbers
  // ---------------------------------------------------------------------------------------

  /** Replicas, share and dependents on the card of a command on a workload. */
  lemma WorkloadNumbers(cfg: Config, target: nat, llm: Level, q: Readings)
    ensures Assessed(cfg, RolloutRestart, llm, q).replicas == Count(q)
    ensures Assessed(cfg, RolloutUndo, llm, q).replicas == Count(q)
    ensures var d := Assessed(cfg, Scale(target), llm, q).replicas;
      d >= 0 && (d == Count(q) - target || d == target - Count(q))
    ensures forall shape :: shape in {RolloutRestart, Scale(target), RolloutUndo} ==>
      && Assessed(cfg, shape, llm, q).share == Share(q)
      && Assessed(cfg, shape, llm, q).dependents == if q.downstream.Some? then q.downstream.value else []
  {
    CardNumbers(cfg, RolloutRestart, llm, q);
    CardNumbers(cfg, RolloutUndo, llm, q);
    CardNumbers(cfg, Scale(target), llm, q);
  }

  /** The others name one replica or none, no share and no dependents. */
  lemma OtherNumbers(cfg: Config, shape: Shape, llm: Level, q: Readings)
    requires !shape.RolloutRestart? && !shape.Scale? && !shape.RolloutUndo?
    ensures var v := Assessed(cfg, shape, llm, q);
      && v.replicas == (if shape in {DeletePod, SystemctlStop, SystemctlRestart} then 1 else 0)
      && v.share == 0.0 && v.dependents == []
  {
    CardNumbers(cfg, shape, llm, q);
  }
}
