/** The pipeline's pass over a plan: assess every command and, when configured, write the suggested
    upgrades into the plan. The assessor is an interface there; here it is the function `assess`
    from a command and the answers to its queries to the fields of the assessment. */
module PlanRisk {
  import opened BlastRadius

  datatype PlannedCommand = PlannedCommand(step: int, shape: Shape, level: Level)

  type Assess = (PlannedCommand, Answers) -> View

  function UpgradedCommand(assess: Assess, c: PlannedCommand, a: Answers, autoUpgrade: bool): PlannedCommand {
    var upgrade := assess(c, a).upgrade;
    if autoUpgrade && upgrade != Blank then c.(level := upgrade) else c
  }

  /** answers(i) is what the queries for command i return. */
  function Upgraded(assess: Assess, plan: seq<PlannedCommand>, answers: nat -> Answers,
          autoUpgrade: bool): seq<PlannedCommand> {
    seq(|plan|, i requires 0 <= i < |plan| => UpgradedCommand(assess, plan[i], answers(i), autoUpgrade))
  }

  /** Results are keyed by step number. */
  function Reports(assess: Assess, plan: seq<PlannedCommand>, answers: nat -> Answers, n: nat): map<int, View>
    requires n <= |plan|
  {
    if n == 0 then map[]
    else Reports(assess, plan, answers, n - 1)[plan[n - 1].step := assess(plan[n - 1], answers(n - 1))]
  }

  class HealingPlan {
    var commands: seq<PlannedCommand>

    constructor (commands: seq<PlannedCommand>)
      ensures this.commands == commands
    {
      this.commands := commands;
    }

    method AssessBlastRadius(assess: Assess, answers: nat -> Answers, autoUpgrade: bool)
      returns (results: map<int, View>)
      modifies this
      ensures commands == Upgraded(assess, old(commands), answers, autoUpgrade)
      ensures results == Reports(assess, old(commands), answers, |old(commands)|)
      ensures |commands| == |old(commands)| && forall i :: 0 <= i < |commands| ==>
        var c, upgrade := old(commands)[i], assess(old(commands)[i], answers(i)).upgrade;
        commands[i] == if autoUpgrade && upgrade != Blank then c.(level := upgrade) else c
    {
      results := map[];
      ghost var was := commands;
      for i := 0 to |commands|
        invariant |commands| == |was|
        invariant forall k :: 0 <= k < |was| ==>
          commands[k] == if k < i then UpgradedCommand(assess, was[k], answers(k), autoUpgrade) else was[k]
        invariant results == Reports(assess, was, answers, i)
      {
        var cmd := commands[i];
        var assessment := assess(cmd, answers(i));
        results := results[cmd.step := assessment];
        if autoUpgrade && assessment.upgrade != Blank {
          commands := commands[i := cmd.(level := assessment.upgrade)];
        }
      }
    }
  }

  /** Command i is the last of the first n with its step number. */
  predicate LastWithStep(plan: seq<PlannedCommand>, i: nat, n: nat) {
    i < n <= |plan| && forall k :: i < k < n ==> plan[k].step != plan[i].step
  }

  /** Of commands with one step number the last one is reported, with its level before the pass. */
  lemma {:induction false} LastIsReported(assess: Assess, plan: seq<PlannedCommand>, answers: nat -> Answers, i: nat,
          n: nat)
    requires LastWithStep(plan, i, n)
    ensures plan[i].step in Reports(assess, plan, answers, n)
    ensures Reports(assess, plan, answers, n)[plan[i].step] == assess(plan[i], answers(i))
    decreases n
  {
    if i < n - 1 {
      LastIsReported(assess, plan, answers, i, n - 1);
    }
  }

  /** Nothing is reported but the steps of the plan. */
  lemma {:induction false} OnlyStepsAreReported(assess: Assess, plan: seq<PlannedCommand>, answers: nat -> Answers,
          n: nat, step: int)
    requires n <= |plan|
    ensures step in Reports(assess, plan, answers, n) <==> exists i :: 0 <= i < n && plan[i].step == step
  {
    if n == 0 {
    } else {
      OnlyStepsAreReported(assess, plan, answers, n - 1, step);
    }
  }

  /** The assessor of module BlastRadius. */
  function By(cfg: Config): Assess {
    (c: PlannedCommand, a: Answers) => Assessed(cfg, c.shape, c.level, Read(a))
  }

  /** The pass changes nothing but levels, and raises every level it changes; a level the LLM gave
      ends at or above the assessed severity. */
  lemma UpgradeOnlyRaises(cfg: Config, c: PlannedCommand, a: Answers, autoUpgrade: bool)
    ensures var c' := UpgradedCommand(By(cfg), c, a, autoUpgrade);
      c' == c.(level := c'.level) && (c'.level != c.level ==> autoUpgrade && Rank(c'.level) > Rank(c.level))
      && (autoUpgrade && c.level != Blank ==> Rank(c'.level) >= Rank(SeverityOf(cfg, c.shape, Read(a))))
  {
    AssessmentSound(cfg, c.shape, c.level, Read(a));
  }

  /** With the same answers, a second pass suggests no upgrade and changes nothing. */
  lemma SecondPassIsIdle(cfg: Config, plan: seq<PlannedCommand>, answers: nat -> Answers)
    ensures var once := Upgraded(By(cfg), plan, answers, true);
      Upgraded(By(cfg), once, answers, true) == once
      && forall i :: 0 <= i < |once| ==> By(cfg)(once[i], answers(i)).upgrade == Blank
  {
    var once := Upgraded(By(cfg), plan, answers, true);
    forall i | 0 <= i < |once| ensures By(cfg)(once[i], answers(i)).upgrade == Blank {
      AssessmentSound(cfg, plan[i].shape, plan[i].level, Read(answers(i)));
      AssessmentSound(cfg, once[i].shape, once[i].level, Read(answers(i)));
    }
  }
}
