/** The blast-radius assessor. A command arrives as the shape its regular expression recognises,
    and every Prometheus or topology answer is an input; messages of findings are left out. */
module BlastRadius {
  import opened Options

  /** A severity or risk level, trimmed and in lower case; Blank is the empty string. */
  datatype Level = Blank | Low | Medium | High | Critical | Unrecognised(text: string)

  function LevelOf(text: string): Level {
    match text
    case "" => Blank
    case "low" => Low
    case "medium" => Medium
    case "high" => High
    case "critical" => Critical
    case _ => Unrecognised(text)
  }

  function Rank(l: Level): nat {
    match l
    case Low => 1
    case Medium => 2
    case High => 3
    case Critical => 4
    case _ => 0
  }

  datatype Finding = Traffic | Replicas | Downstream | NoData

  datatype Shape =
    | RolloutRestart | Scale(target: nat) | RolloutUndo | DeletePod
    | PatchConfigMap | PatchHpa | SystemctlStop | SystemctlRestart | DiskCleanup | OtherCommand

  /** None is a failed or empty query. owner is the name left after stripping the hash; downstream
      is None without a topology entry. */
  datatype Answers = Answers(
    hasFetcher: bool,
    replicas: Option<real>,
    serviceRate: Option<real>,
    totalRate: Option<real>,
    owner: Option<string>,
    downstream: Option<seq<string>>)

  type Fraction = x: real | 0.0 <= x <= 1.0 witness 0.0

  /** The answers as the assessor reads them: whole replicas, a share between 0 and 1. */
  datatype Readings =
    | NoFetcher(downstream: Option<seq<string>>)
    | Queried(replicas: Option<nat>, share: Option<Fraction>, owner: Option<string>, downstream: Option<seq<string>>)

  function Clamped(x: real): Fraction {
    if x < 0.0 then 0.0 else if x > 1.0 then 1.0 else x
  }

  function Read(a: Answers): Readings {
    if !a.hasFetcher then NoFetcher(a.downstream)
    else Queried(
      if a.replicas.None? then None else Some(if a.replicas.value < 0.0 then 0 else a.replicas.value.Floor),
      if a.serviceRate.None? || a.totalRate.None? || a.totalRate.value <= 0.0 then None
      else Some(Clamped(a.serviceRate.value / a.totalRate.value)),
      a.owner, a.downstream)
  }

  datatype Config = Config(high: real, critical: real)

  /** The fields of an assessment. */
  datatype View = View(
    replicas: int,
    share: real,
    dependents: seq<string>,
    severity: Level,
    confidence: real,
    findings: seq<Finding>,
    upgrade: Level)

  function Start(confidence: real, severity: Level): View {
    View(0, 0.0, [], severity, confidence, [], Blank)
  }

  // ---------------------------------------------------------------------------------------
  // What each step does to an assessment
  // ---------------------------------------------------------------------------------------

  function Found(v: View, f: Finding): View {
    v.(findings := v.findings + [f])
  }

  /** Half, but not below 0.1. */
  function Lowered(confidence: real): real {
    if confidence / 2.0 < 0.1 then 0.1 else confidence / 2.0
  }

  function MissingData(v: View): View {
    Found(v, NoData).(confidence := Lowered(v.confidence))
  }

  function Count(q: Readings): nat {
    if q.Queried? && q.replicas.Some? then q.replicas.value else 0
  }

  function AskedReplicas(v: View, q: Readings): View {
    if q.Queried? && q.replicas.Some? then v else MissingData(v)
  }

  function Share(q: Readings): Fraction {
    if q.Queried? && q.share.Some? then q.share.value else 0.0
  }

  function AskedShare(v: View, q: Readings): View {
    if q.NoFetcher? then v
    else if q.share.Some? then Found(v.(share := q.share.value), Traffic)
    else MissingData(v)
  }

  function OwnerOf(q: Readings): string {
    if q.Queried? && q.owner.Some? then q.owner.value else ""
  }

  function AskedOwner(v: View, q: Readings): View {
    if q.Queried? && q.owner.None? then MissingData(v) else v
  }

  function TrafficLevel(cfg: Config, share: real, replicas: nat): Level {
    if share >= cfg.critical then Critical
    else if share >= cfg.high then High
    else if share > 0.0 then Medium
    else if replicas == 1 then Medium
    else Low
  }

  function AtLeast(v: View, l: Level): View {
    if Rank(l) > Rank(v.severity) then v.(severity := l) else v
  }

  function WithDependents(v: View, q: Readings): View {
    if q.downstream.None? then v
    else
      var v' := v.(dependents := v.dependents + q.downstream.value);
      if q.downstream.value == [] then v' else Found(v', Downstream)
  }

  function UpgradeSuggested(v: View, llm: Level): View {
    if Rank(v.severity) > Rank(llm) && llm != Blank then v.(upgrade := v.severity) else v
  }

  function Normalized(v: View): View {
    var v' := v.(severity := if v.severity == Blank then Medium else v.severity,
                 confidence := Clamped(v.confidence), share := Clamped(v.share));
    if v'.findings == [] then v'.(confidence := 0.2, severity := Medium, findings := [NoData]) else v'
  }

  /** More than half of the running replicas go, but not all. */
  predicate Halves(n: nat, target: nat) {
    0 < target < n && (n - target) * 2 > n
  }

  function Rescaled(v: View, n: nat, target: nat): View {
    var v' := v.(replicas := if n < target then target - n else n - target);
    if target == 0 && n > 0 then Found(v', Replicas).(severity := Critical)
    else if Halves(n, target) then AtLeast(Found(v', Replicas), High)
    else if (n > 0 && target > n) || n == target then Found(v', Replicas)
    else v'
  }

  function RestartNoted(q: Readings): View {
    var v, n := AskedReplicas(Start(0.8, Blank), q), Count(q);
    if n > 0 then Found(v.(replicas := n), Replicas) else v
  }

  function RollbackNoted(q: Readings): View {
    var v, n := AskedReplicas(Start(0.7, Blank), q), Count(q);
    Found(if n > 0 then v.(replicas := n) else v, Replicas)
  }

  // ---------------------------------------------------------------------------------------
  // The assessor
  // ---------------------------------------------------------------------------------------

  class Assessment {
    var replicas: int
    var share: real
    var dependents: seq<string>
    var severity: Level
    var confidence: real
    var findings: seq<Finding>
    var upgrade: Level

    function Fields(): View
      reads this
    {
      View(replicas, share, dependents, severity, confidence, findings, upgrade)
    }

    constructor (confidence: real, severity: Level)
      ensures Fields() == Start(confidence, severity)
    {
      this.confidence, this.severity := confidence, severity;
      replicas, share, dependents, findings, upgrade := 0, 0.0, [], [], Blank;
    }

    method Add(f: Finding)
      modifies this
      ensures Fields() == Found(old(Fields()), f)
    {
      findings := findings + [f];
    }
  }

  function Judged(cfg: Config, shape: Shape, q: Readings): View {
    match shape
    case RolloutRestart =>
      WithDependents(AtLeast(AskedShare(RestartNoted(q), q), TrafficLevel(cfg, Share(q), Count(q))), q)
    case Scale(target) =>
      var v := AskedShare(AskedReplicas(Start(0.85, Blank), q), q);
      WithDependents(AtLeast(Rescaled(v, Count(q), target), TrafficLevel(cfg, Share(q), Count(q))), q)
    case RolloutUndo =>
      var v := AtLeast(AskedShare(RollbackNoted(q), q), TrafficLevel(cfg, Share(q), Count(q)));
      WithDependents(AtLeast(v, Medium), q)
    case DeletePod =>
      var v := AskedOwner(Start(0.6, Medium).(replicas := 1), q);
      if OwnerOf(q) == "" then Found(v, Replicas)
      else
        var w, n := AskedReplicas(v, q), Count(q);
        if n > 0 then Found(w, Replicas).(severity := if n == 1 then High else w.severity) else w
    case PatchConfigMap => Found(Start(0.5, Medium), Replicas)
    case PatchHpa => Found(Start(0.5, Low), Replicas)
    case SystemctlStop => Found(Start(0.7, Critical), Replicas).(replicas := 1)
    case SystemctlRestart => Found(Start(0.6, Medium), Replicas).(replicas := 1)
    case DiskCleanup => Found(Start(0.5, Low), Replicas)
    case OtherCommand => Found(Start(0.3, Medium), NoData)
  }

  function Assessed(cfg: Config, shape: Shape, llm: Level, q: Readings): View {
    Normalized(UpgradeSuggested(Judged(cfg, shape, q), llm))
  }

  class Assessor {
    const cfg: Config

    constructor (high: real, critical: real)
      ensures cfg == Config(if high <= 0.0 then 0.5 else high, if critical <= 0.0 then 0.8 else critical)
      ensures cfg.high > 0.0 && cfg.critical > 0.0
    {
      cfg := Config(if high <= 0.0 then 0.5 else high, if critical <= 0.0 then 0.8 else critical);
    }

    method Assess(shape: Shape, llm: Level, a: Answers) returns (r: Assessment)
      ensures fresh(r) && r.Fields() == Assessed(cfg, shape, llm, Read(a))
    {
      match shape {
        case RolloutRestart => r := AssessRolloutRestart(a);
        case Scale(target) => r := AssessScale(target, a);
        case RolloutUndo => r := AssessRolloutUndo(a);
        case DeletePod => r := AssessDeletePod(a);
        case PatchConfigMap => r := new Assessment(0.5, Medium); r.Add(Replicas);
        case PatchHpa => r := new Assessment(0.5, Low); r.Add(Replicas);
        case SystemctlStop => r := new Assessment(0.7, Critical); r.Add(Replicas); r.replicas := 1;
        case SystemctlRestart => r := new Assessment(0.6, Medium); r.Add(Replicas); r.replicas := 1;
        case DiskCleanup => r := new Assessment(0.5, Low); r.Add(Replicas);
        case OtherCommand => r := new Assessment(0.3, Medium); r.Add(NoData);
      }
      ApplyRiskUpgrade(llm, r);
      Normalize(r);
    }

    method ApplyRiskUpgrade(llm: Level, r: Assessment)
      modifies r
      ensures r.Fields() == UpgradeSuggested(old(r.Fields()), llm)
    {
      if Rank(r.severity) > Rank(llm) && llm != Blank {
        r.upgrade := r.severity;
      }
    }

    method Normalize(r: Assessment)
      modifies r
      ensures r.Fields() == Normalized(old(r.Fields()))
    {
      if r.severity == Blank { r.severity := Medium; }
      if r.confidence < 0.0 { r.confidence := 0.0; }
      if r.confidence > 1.0 { r.confidence := 1.0; }
      if r.share < 0.0 { r.share := 0.0; }
      if r.share > 1.0 { r.share := 1.0; }
      if |r.findings| == 0 {
        r.confidence, r.severity := 0.2, Medium;
        r.findings := r.findings + [NoData];
      }
    }

    method AssessRolloutRestart(a: Answers) returns (r: Assessment)
      ensures fresh(r) && r.Fields() == Judged(cfg, RolloutRestart, Read(a))
    {
      r := new Assessment(0.8, Blank);
      var n := QueryReplicas(a, r);
      if n > 0 {
        r.replicas := n;
        r.Add(Replicas);
      }
      var share := QueryTrafficShare(a, r);
      SetSeverity(r, share, n);
      AttachDependents(a, r);
    }

    method AssessScale(target: nat, a: Answers) returns (r: Assessment)
      ensures fresh(r) && r.Fields() == Judged(cfg, Scale(target), Read(a))
    {
      r := new Assessment(0.85, Blank);
      var current := QueryReplicas(a, r);
      var share := QueryTrafficShare(a, r);
      Rescale(r, current, target);
      SetSeverity(r, share, current);
      AttachDependents(a, r);
    }

    method Rescale(r: Assessment, current: nat, target: nat)
      modifies r
      ensures r.Fields() == Rescaled(old(r.Fields()), current, target)
    {
      var delta: int := current - target;
      if delta < 0 { delta := -delta; }
      r.replicas := delta;
      if target == 0 && current > 0 {
        r.severity := Critical;
        r.Add(Replicas);
      } else if current > 0 && target < current && (current - target) * 2 > current {
        r.Add(Replicas);
        if Rank(r.severity) < Rank(High) { r.severity := High; }
      } else if current > 0 && target > current {
        r.Add(Replicas);
      } else if current == target {
        r.Add(Replicas);
      }
    }

    method AssessRolloutUndo(a: Answers) returns (r: Assessment)
      ensures fresh(r) && r.Fields() == Judged(cfg, RolloutUndo, Read(a))
    {
      r := new Assessment(0.7, Blank);
      var n := QueryReplicas(a, r);
      if n > 0 { r.replicas := n; }
      r.Add(Replicas);
      var share := QueryTrafficShare(a, r);
      SetSeverity(r, share, n);
      if Rank(r.severity) < Rank(Medium) { r.severity := Medium; }
      AttachDependents(a, r);
    }

    method AssessDeletePod(a: Answers) returns (r: Assessment)
      ensures fresh(r) && r.Fields() == Judged(cfg, DeletePod, Read(a))
    {
      r := new Assessment(0.6, Medium);
      r.replicas := 1;
      var owner := QueryPodOwner(a, r);
      if owner != "" {
        var n := QueryReplicas(a, r);
        if n > 0 {
          r.Add(Replicas);
          if n == 1 { r.severity := High; }
        }
      } else {
        r.Add(Replicas);
      }
    }

    method QueryReplicas(a: Answers, r: Assessment) returns (n: nat)
      modifies r
      ensures n == Count(Read(a)) && r.Fields() == AskedReplicas(old(r.Fields()), Read(a))
    {
      if !a.hasFetcher || a.replicas.None? {
        RecordNoData(r);
        return 0;
      }
      var val := a.replicas.value;
      if val < 0.0 { val := 0.0; }
      n := val.Floor;
    }

    method QueryTrafficShare(a: Answers, r: Assessment) returns (share: real)
      modifies r
      ensures share == Share(Read(a)) && r.Fields() == AskedShare(old(r.Fields()), Read(a))
    {
      if !a.hasFetcher {
        return 0.0;
      }
      if a.serviceRate.None? || a.totalRate.None? || a.totalRate.value <= 0.0 {
        RecordNoData(r);
        return 0.0;
      }
      share := a.serviceRate.value / a.totalRate.value;
      if share < 0.0 { share := 0.0; }
      if share > 1.0 { share := 1.0; }
      r.share := share;
      r.Add(Traffic);
    }

    method QueryPodOwner(a: Answers, r: Assessment) returns (owner: string)
      modifies r
      ensures owner == OwnerOf(Read(a)) && r.Fields() == AskedOwner(old(r.Fields()), Read(a))
    {
      if !a.hasFetcher {
        return "";
      }
      if a.owner.None? {
        RecordNoData(r);
        return "";
      }
      owner := a.owner.value;
    }

    method RecordNoData(r: Assessment)
      modifies r
      ensures r.Fields() == MissingData(old(r.Fields()))
    {
      r.Add(NoData);
      r.confidence := r.confidence / 2.0;
      if r.confidence < 0.1 { r.confidence := 0.1; }
    }

    method SetSeverity(r: Assessment, share: real, replicas: nat)
      modifies r
      ensures r.Fields() == AtLeast(old(r.Fields()), TrafficLevel(cfg, share, replicas))
      ensures share >= cfg.critical ==> r.severity == Critical
      ensures cfg.high <= share < cfg.critical ==>
        r.severity == if old(r.severity) == Critical then Critical else High
      ensures share < cfg.high && share < cfg.critical && (share > 0.0 || replicas == 1) ==>
        r.severity == if old(r.severity) in {High, Critical} then old(r.severity) else Medium
      ensures share < cfg.high && share < cfg.critical && share <= 0.0 && replicas != 1 ==>
        r.severity == if old(r.severity) in {Medium, High, Critical} then old(r.severity) else Low
    {
      var computed := TrafficLevel(cfg, share, replicas);
      if Rank(computed) > Rank(r.severity) { r.severity := computed; }
    }

    method AttachDependents(a: Answers, r: Assessment)
      modifies r
      ensures r.Fields() == WithDependents(old(r.Fields()), Read(a))
    {
      if a.downstream.None? {
        return;
      }
      var i := 0;
      while i < |a.downstream.value|
        invariant i <= |a.downstream.value|
        invariant r.Fields() == old(r.Fields()).(dependents := old(r.dependents) + a.downstream.value[..i])
      {
        r.dependents := r.dependents + [a.downstream.value[i]];
        assert a.downstream.value[..i + 1] == a.downstream.value[..i] + [a.downstream.value[i]];
        i := i + 1;
      }
      assert a.downstream.value[..i] == a.downstream.value;
      if |a.downstream.value| > 0 {
        r.Add(Downstream);
      }
    }
  }

  // ---------------------------------------------------------------------------------------
  // What an assessment means
  // ---------------------------------------------------------------------------------------

  function Worse(l: Level, m: Level): Level {
    if Rank(m) > Rank(l) then m else l
  }

  /** The final severity, from the command, the replica count and the traffic share alone. */
  function SeverityOf(cfg: Config, shape: Shape, q: Readings): Level {
    var traffic := TrafficLevel(cfg, Share(q), Count(q));
    match shape
    case RolloutRestart => traffic
    case Scale(target) =>
      if target == 0 && Count(q) > 0 then Critical
      else if Halves(Count(q), target) then Worse(High, traffic) else traffic
    case RolloutUndo => Worse(Medium, traffic)
    case DeletePod => if OwnerOf(q) != "" && Count(q) == 1 then High else Medium
    case SystemctlStop => Critical
    case PatchHpa => Low
    case DiskCleanup => Low
    case _ => Medium
  }

  predicate Known(l: Level) { l in {Low, Medium, High, Critical} }

  /** No query that was made found anything worth a finding. */
  predicate NothingFound(shape: Shape, q: Readings) {
    shape.DeletePod? && OwnerOf(q) != "" && q.replicas == Some(0)
  }

  predicate Sane(cfg: Config, shape: Shape, q: Readings, v: View) {
    && v.severity == SeverityOf(cfg, shape, q) && Known(v.severity)
    && (v.findings == [] <==> NothingFound(shape, q))
    && v.upgrade == Blank && 0.1 <= v.confidence <= 1.0 && 0.0 <= v.share <= 1.0
  }

  lemma AskingIsSane(v: View, q: Readings)
    requires 0.1 <= v.confidence <= 1.0 && v.share == 0.0
    ensures var r, s := AskedReplicas(v, q), AskedShare(v, q);
      && 0.1 <= r.confidence <= 1.0 && 0.1 <= s.confidence <= 1.0 && r.share == 0.0 && 0.0 <= s.share <= 1.0
      && r.severity == s.severity == v.severity && r.upgrade == s.upgrade == v.upgrade
      && (s.findings == [] <==> v.findings == [] && q.NoFetcher?)
      && (r.findings == [] <==> v.findings == [] && q.Queried? && q.replicas.Some?)
  {
  }

  predicate Bounded(v: View) {
    0.1 <= v.confidence <= 1.0 && 0.0 <= v.share <= 1.0 && v.upgrade == Blank
  }

  lemma TailIsSane(w: View, l: Level, q: Readings)
    requires Bounded(w) && w.findings != []
    ensures var r := WithDependents(AtLeast(w, l), q);
      Bounded(r) && r.findings != [] && r.severity == Worse(w.severity, l)
  {
  }

  lemma TrafficLevelKnown(cfg: Config, share: real, replicas: nat)
    ensures Known(TrafficLevel(cfg, share, replicas))
      && Worse(Blank, TrafficLevel(cfg, share, replicas)) == TrafficLevel(cfg, share, replicas)
  {
  }

  lemma RestartIsSane(cfg: Config, q: Readings)
    ensures Sane(cfg, RolloutRestart, q, Judged(cfg, RolloutRestart, q))
  {
    AskingIsSane(Start(0.8, Blank), q);
    AskingIsSane(RestartNoted(q), q);
    TrafficLevelKnown(cfg, Share(q), Count(q));
    TailIsSane(AskedShare(RestartNoted(q), q), TrafficLevel(cfg, Share(q), Count(q)), q);
  }

  lemma RescaledIsSane(v: View, n: nat, target: nat)
    requires Bounded(v) && v.severity == Blank && v.findings != []
    ensures var w := Rescaled(v, n, target);
      Bounded(w) && w.findings != []
      && w.severity == if target == 0 && n > 0 then Critical else if Halves(n, target) then High else Blank
  {
  }

  lemma ScaleIsSane(cfg: Config, target: nat, q: Readings)
    ensures Sane(cfg, Scale(target), q, Judged(cfg, Scale(target), q))
  {
    var v := AskedReplicas(Start(0.85, Blank), q);
    AskingIsSane(Start(0.85, Blank), q);
    AskingIsSane(v, q);
    RescaledIsSane(AskedShare(v, q), Count(q), target);
    TrafficLevelKnown(cfg, Share(q), Count(q));
    TailIsSane(Rescaled(AskedShare(v, q), Count(q), target), TrafficLevel(cfg, Share(q), Count(q)), q);
  }

  lemma UndoIsSane(cfg: Config, q: Readings)
    ensures Sane(cfg, RolloutUndo, q, Judged(cfg, RolloutUndo, q))
  {
    AskingIsSane(Start(0.7, Blank), q);
    var v := RollbackNoted(q);
    assert v.severity == Blank && v.findings != [] && Bounded(v) && v.share == 0.0;
    AskingIsSane(v, q);
    TrafficLevelKnown(cfg, Share(q), Count(q));
    TailIsSane(AtLeast(AskedShare(v, q), TrafficLevel(cfg, Share(q), Count(q))), Medium, q);
  }

  lemma JudgedIsSane(cfg: Config, shape: Shape, q: Readings)
    ensures Sane(cfg, shape, q, Judged(cfg, shape, q))
  {
    match shape {
      case RolloutRestart => RestartIsSane(cfg, q);
      case Scale(target) => ScaleIsSane(cfg, target, q);
      case RolloutUndo => UndoIsSane(cfg, q);
      case _ =>
    }
  }

  /** The final pass keeps what is in range; only without findings it replaces anything. */
  lemma FinalPass(v: View, llm: Level)
    requires Bounded(v) && Known(v.severity)
    ensures var r := Normalized(UpgradeSuggested(v, llm));
      && r.replicas == v.replicas && r.share == v.share && r.dependents == v.dependents
      && r.upgrade == (if llm != Blank && Rank(v.severity) > Rank(llm) then v.severity else Blank)
      && (v.findings != [] ==> r.confidence == v.confidence && r.findings == v.findings && r.severity == v.severity)
      && (v.findings == [] ==> r.confidence == 0.2 && r.findings == [NoData] && r.severity == Medium)
  {
  }

  /** Whatever the command and the answers: a known severity, confidence within [0.1, 1], at least
      one finding; and the suggested upgrade is there exactly when the final severity outranks a
      level the LLM gave, and then it is that severity. */
  lemma AssessmentSound(cfg: Config, shape: Shape, llm: Level, q: Readings)
    ensures var v := Assessed(cfg, shape, llm, q);
      && v.severity == SeverityOf(cfg, shape, q) && Known(v.severity)
      && 0.1 <= v.confidence <= 1.0 && 0.0 <= v.share <= 1.0 && v.findings != []
      && v.upgrade == if llm != Blank && Rank(v.severity) > Rank(llm) then v.severity else Blank
  {
    JudgedIsSane(cfg, shape, q);
    FinalPass(Judged(cfg, shape, q), llm);
  }

  predicate TouchesWorkload(shape: Shape) {
    shape.RolloutRestart? || shape.Scale? || shape.RolloutUndo?
  }

  /** The replicas named on the card: all of a restarted or rolled-back workload, the difference of
      a scale, one for a pod or a host service, none otherwise. */
  function ReplicasOf(shape: Shape, q: Readings): nat {
    match shape
    case Scale(target) => if Count(q) < target then target - Count(q) else Count(q) - target
    case RolloutRestart => Count(q)
    case RolloutUndo => Count(q)
    case DeletePod => 1
    case SystemctlStop => 1
    case SystemctlRestart => 1
    case _ => 0
  }

  predicate Numbers(v: View, shape: Shape, q: Readings) {
    && v.replicas == ReplicasOf(shape, q)
    && v.share == (if TouchesWorkload(shape) then Share(q) else 0.0)
    && v.dependents == if TouchesWorkload(shape) && q.downstream.Some? then q.downstream.value else []
  }

  /** Asking for the share and what follows settles share and dependents, and keeps the replicas. */
  lemma TailNumbers(v: View, w: View, l: Level, q: Readings)
    requires v.share == 0.0 && v.dependents == [] && w.share == AskedShare(v, q).share && w.dependents == []
    ensures var r := WithDependents(AtLeast(w, l), q);
      r.share == Share(q) && r.replicas == w.replicas
      && r.dependents == if q.downstream.Some? then q.downstream.value else []
  {
  }

  lemma RestartNumbers(cfg: Config, q: Readings)
    ensures Numbers(Judged(cfg, RolloutRestart, q), RolloutRestart, q)
  {
    var v := RestartNoted(q);
    TailNumbers(v, AskedShare(v, q), TrafficLevel(cfg, Share(q), Count(q)), q);
  }

  lemma ScaleNumbers(cfg: Config, target: nat, q: Readings)
    ensures Numbers(Judged(cfg, Scale(target), q), Scale(target), q)
  {
    var v := AskedReplicas(Start(0.85, Blank), q);
    TailNumbers(v, Rescaled(AskedShare(v, q), Count(q), target), TrafficLevel(cfg, Share(q), Count(q)), q);
  }

  lemma UndoNumbers(cfg: Config, q: Readings)
    ensures Numbers(Judged(cfg, RolloutUndo, q), RolloutUndo, q)
  {
    var v := RollbackNoted(q);
    assert v.share == 0.0 && v.dependents == [] && v.replicas == Count(q);
    TailNumbers(v, AtLeast(AskedShare(v, q), TrafficLevel(cfg, Share(q), Count(q))), Medium, q);
  }

  lemma JudgedNumbers(cfg: Config, shape: Shape, q: Readings)
    ensures Numbers(Judged(cfg, shape, q), shape, q)
  {
    match shape {
      case RolloutRestart => RestartNumbers(cfg, q);
      case Scale(target) => ScaleNumbers(cfg, target, q);
      case RolloutUndo => UndoNumbers(cfg, q);
      case _ =>
    }
  }

  /** Replicas, share and dependents of the final assessment. */
  lemma CardNumbers(cfg: Config, shape: Shape, llm: Level, q: Readings)
    ensures Numbers(Assessed(cfg, shape, llm, q), shape, q)
  {
    JudgedIsSane(cfg, shape, q);
    JudgedNumbers(cfg, shape, q);
    FinalPass(Judged(cfg, shape, q), llm);
  }

  /** The insufficient-data fallback is reached exactly by deleting a pod of a known owner whose
      replica count came back below one. */
  lemma FallbackIff(cfg: Config, shape: Shape, llm: Level, q: Readings)
    ensures NothingFound(shape, q) <==> Assessed(cfg, shape, llm, q) != UpgradeSuggested(Judged(cfg, shape, q), llm)
  {
    JudgedIsSane(cfg, shape, q);
    FinalPass(Judged(cfg, shape, q), llm);
  }

  /** An LLM level outside the four known ones, and not empty, is outranked by every severity, so it
      always draws an upgrade; the empty one never does. */
  lemma UnrecognisedLevelIsUpgraded(cfg: Config, shape: Shape, text: string, q: Readings)
    requires text !in {"low", "medium", "high", "critical"}
    ensures Assessed(cfg, shape, LevelOf(text), q).upgrade == if text == "" then Blank else SeverityOf(cfg, shape, q)
  {
    AssessmentSound(cfg, shape, LevelOf(text), q);
  }

  /** More traffic never makes an assessment milder. */
  lemma TrafficRaises(cfg: Config, shape: Shape, q: Readings, share: Option<Fraction>)
    requires cfg.high > 0.0 && cfg.critical > 0.0
    requires q.Queried? && Share(q) <= Share(q.(share := share))
    ensures Rank(SeverityOf(cfg, shape, q)) <= Rank(SeverityOf(cfg, shape, q.(share := share)))
  {
  }

  function Halved(base: real, times: nat): real {
    if times == 0 then base else Halved(base, times - 1) / 2.0
  }

  function Missing(findings: seq<Finding>): nat {
    if findings == [] then 0
    else Missing(findings[..|findings| - 1]) + if findings[|findings| - 1] == NoData then 1 else 0
  }

  function Floored(x: real): real {
    if x < 0.1 then 0.1 else x
  }

  function Base(shape: Shape): real {
    match shape
    case RolloutRestart => 0.8
    case Scale(_) => 0.85
    case RolloutUndo => 0.7
    case SystemctlStop => 0.7
    case DeletePod => 0.6
    case SystemctlRestart => 0.6
    case _ => 0.5
  }

  /** The base lowered once per no-data finding. */
  function LoweredFor(base: real, findings: seq<Finding>): real {
    if findings == [] then base
    else
      var before := LoweredFor(base, findings[..|findings| - 1]);
      if findings[|findings| - 1] == NoData then Lowered(before) else before
  }

  lemma {:induction false} LoweredIsHalved(base: real, findings: seq<Finding>)
    requires base >= 0.1
    ensures LoweredFor(base, findings) == Floored(Halved(base, Missing(findings)))
  {
    if findings == [] {
    } else {
      LoweredIsHalved(base, findings[..|findings| - 1]);
    }
  }

  predicate Fits(v: View, base: real) {
    v.confidence == LoweredFor(base, v.findings)
  }

  lemma FoundFits(v: View, f: Finding, base: real)
    requires Fits(v, base) && f != NoData
    ensures Fits(Found(v, f), base)
  {
    assert Found(v, f).findings[..|v.findings|] == v.findings;
  }

  lemma MissingDataFits(v: View, base: real)
    requires Fits(v, base)
    ensures Fits(MissingData(v), base)
  {
    assert MissingData(v).findings[..|v.findings|] == v.findings;
  }

  lemma SameFits(v: View, w: View, base: real)
    requires Fits(v, base) && w.confidence == v.confidence && w.findings == v.findings
    ensures Fits(w, base)
  {
  }

  lemma AskingFits(v: View, q: Readings, base: real)
    requires Fits(v, base)
    ensures Fits(AskedReplicas(v, q), base) && Fits(AskedShare(v, q), base)
  {
    MissingDataFits(v, base);
    var w := v.(share := Share(q));
    SameFits(v, w, base);
    FoundFits(w, Traffic, base);
  }

  lemma TailFits(v: View, l: Level, q: Readings, base: real)
    requires Fits(v, base)
    ensures Fits(WithDependents(AtLeast(v, l), q), base)
  {
    var w := AtLeast(v, l);
    SameFits(v, w, base);
    if q.downstream.Some? {
      var w' := w.(dependents := w.dependents + q.downstream.value);
      SameFits(w, w', base);
      if q.downstream.value != [] { FoundFits(w', Downstream, base); }
    }
  }

  lemma DeletePodFits(cfg: Config, q: Readings)
    ensures Fits(Judged(cfg, DeletePod, q), 0.6)
  {
    var v := Start(0.6, Medium).(replicas := 1);
    MissingDataFits(v, 0.6);
    FoundFits(v, Replicas, 0.6);
    FoundFits(MissingData(v), Replicas, 0.6);
  }

  lemma RestartFits(cfg: Config, q: Readings)
    ensures Fits(Judged(cfg, RolloutRestart, q), 0.8)
  {
    var v, n := AskedReplicas(Start(0.8, Blank), q), Count(q);
    AskingFits(Start(0.8, Blank), q, 0.8);
    FoundFits(v.(replicas := n), Replicas, 0.8);
    AskingFits(RestartNoted(q), q, 0.8);
    TailFits(AskedShare(RestartNoted(q), q), TrafficLevel(cfg, Share(q), n), q, 0.8);
  }

  lemma RescaledFits(v: View, n: nat, target: nat, base: real)
    requires Fits(v, base)
    ensures Fits(Rescaled(v, n, target), base)
  {
    FoundFits(v, Replicas, base);
  }

  lemma ScaleFits(cfg: Config, target: nat, q: Readings)
    ensures Fits(Judged(cfg, Scale(target), q), 0.85)
  {
    var v := AskedReplicas(Start(0.85, Blank), q);
    AskingFits(Start(0.85, Blank), q, 0.85);
    AskingFits(v, q, 0.85);
    RescaledFits(AskedShare(v, q), Count(q), target, 0.85);
    TailFits(Rescaled(AskedShare(v, q), Count(q), target), TrafficLevel(cfg, Share(q), Count(q)), q, 0.85);
  }

  lemma RollbackNotedFits(q: Readings)
    ensures Fits(RollbackNoted(q), 0.7)
  {
    var v, n := AskedReplicas(Start(0.7, Blank), q), Count(q);
    AskingFits(Start(0.7, Blank), q, 0.7);
    FoundFits(if n > 0 then v.(replicas := n) else v, Replicas, 0.7);
  }

  lemma UndoTailFits(q: Readings, l: Level, base: real)
    requires Fits(RollbackNoted(q), base)
    ensures Fits(WithDependents(AtLeast(AtLeast(AskedShare(RollbackNoted(q), q), l), Medium), q), base)
  {
    var v := AskedShare(RollbackNoted(q), q);
    AskingFits(RollbackNoted(q), q, base);
    SameFits(v, AtLeast(v, l), base);
    TailFits(AtLeast(v, l), Medium, q, base);
  }

  lemma UndoFits(cfg: Config, q: Readings)
    ensures Fits(Judged(cfg, RolloutUndo, q), 0.7)
  {
    RollbackNotedFits(q);
    UndoTailFits(q, TrafficLevel(cfg, Share(q), Count(q)), 0.7);
  }

  lemma OneFindingFits(base: real, l: Level, replicas: int)
    ensures Fits(Found(Start(base, l), Replicas), base)
    ensures Fits(Found(Start(base, l), Replicas).(replicas := replicas), base)
  {
    FoundFits(Start(base, l), Replicas, base);
  }

  lemma HostFits(cfg: Config, shape: Shape, q: Readings)
    requires shape.SystemctlStop? || shape.SystemctlRestart? || shape.DiskCleanup?
    ensures Fits(Judged(cfg, shape, q), Base(shape))
  {
    OneFindingFits(0.7, Critical, 1);
    OneFindingFits(0.6, Medium, 1);
    OneFindingFits(0.5, Low, 0);
  }

  lemma PatchFits(cfg: Config, shape: Shape, q: Readings)
    requires shape.PatchConfigMap? || shape.PatchHpa?
    ensures Fits(Judged(cfg, shape, q), Base(shape))
  {
    OneFindingFits(0.5, Medium, 0);
    OneFindingFits(0.5, Low, 0);
  }

  lemma WorkloadFits(cfg: Config, shape: Shape, q: Readings)
    requires TouchesWorkload(shape)
    ensures Fits(Judged(cfg, shape, q), Base(shape))
  {
    match shape {
      case RolloutRestart =>
        RestartFits(cfg, q);
        return;
      case Scale(target) =>
        ScaleFits(cfg, target, q);
        return;
      case RolloutUndo =>
        UndoFits(cfg, q);
        return;
    }
  }

  lemma JudgedFits(cfg: Config, shape: Shape, q: Readings)
    requires !shape.OtherCommand?
    ensures Fits(Judged(cfg, shape, q), Base(shape))
  {
    if TouchesWorkload(shape) {
      WorkloadFits(cfg, shape, q);
    } else if shape.DeletePod? {
      DeletePodFits(cfg, q);
    } else if shape.PatchConfigMap? || shape.PatchHpa? {
      PatchFits(cfg, shape, q);
    } else {
      HostFits(cfg, shape, q);
    }
  }

  lemma FixedConfidences(cfg: Config, shape: Shape, q: Readings)
    ensures shape.OtherCommand? ==> Judged(cfg, shape, q).confidence == 0.3 && Judged(cfg, shape, q).findings != []
    ensures !shape.OtherCommand? ==> Fits(Judged(cfg, shape, q), Base(shape)) && Base(shape) >= 0.1
  {
    if !shape.OtherCommand? { JudgedFits(cfg, shape, q); }
  }

  /** The final confidence: 0.3 for a command of unknown shape, 0.2 when nothing was found, otherwise
      the command's base halved once per no-data finding on the card, never below 0.1. */
  lemma ConfidenceCountsMissing(cfg: Config, shape: Shape, llm: Level, q: Readings)
    ensures var v := Assessed(cfg, shape, llm, q);
      v.confidence ==
        if shape.OtherCommand? then 0.3
        else if NothingFound(shape, q) then 0.2
        else Floored(Halved(Base(shape), Missing(v.findings)))
  {
    var j := Judged(cfg, shape, q);
    JudgedIsSane(cfg, shape, q);
    FixedConfidences(cfg, shape, q);
    FinalPass(j, llm);
    if !shape.OtherCommand? { LoweredIsHalved(Base(shape), j.findings); }
  }
}
