/** `Router.ExecutePlan`: one command after the other, step statuses updated in place, the
    approval's status written at the start and at the end. What an executor answers and whether
    the context is cancelled during a wait are inputs. */
module PlanExecution {
  import opened Options
  import opened ApprovalModels
  import opened ApprovalStore
  import Itoa

  datatype Command = Command(step: int, commandType: string, command: string, waitAfterSec: int)

  /** What `Execute` returns; an error makes any accompanying result irrelevant to the outcome. */
  datatype Answer = ExecError(message: string) | Reply(success: bool, error: string)

  datatype StepStatus = StepPending | Running | Success | StepFailed | Skipped

  datatype StepProgress = StepProgress(step: int, command: string, status: StepStatus, error: string)

  datatype PlanEnd = AllDone | FailedAt(index: nat) | CancelledAfter(index: nat)

  /** What the outside world does during one execution. */
  datatype World = World(types: set<string>, answer: nat -> Answer, cancelled: nat -> bool)

  predicate Succeeds(plan: seq<Command>, w: World, i: nat)
    requires i < |plan|
  {
    plan[i].commandType in w.types && w.answer(i).Reply? && w.answer(i).success
  }

  predicate Interrupted(plan: seq<Command>, w: World, i: nat)
    requires i < |plan|
  {
    plan[i].waitAfterSec > 0 && w.cancelled(i)
  }

  predicate NoneInterrupted(plan: seq<Command>, w: World) {
    forall i :: 0 <= i < |plan| ==> !Interrupted(plan, w, i)
  }

  /** The first i steps succeeded and were waited out. */
  predicate Reached(plan: seq<Command>, w: World, i: nat) {
    i <= |plan| && forall k :: 0 <= k < i ==> Succeeds(plan, w, k) && !Interrupted(plan, w, k)
  }

  /** How an execution of the plan ends. */
  ghost predicate EndsAs(plan: seq<Command>, w: World, end: PlanEnd) {
    match end
    case AllDone => Reached(plan, w, |plan|)
    case FailedAt(i) => i < |plan| && Reached(plan, w, i) && !Succeeds(plan, w, i)
    case CancelledAfter(i) => i < |plan| && Reached(plan, w, i) && Succeeds(plan, w, i) && Interrupted(plan, w, i)
  }

  function StopIndex(plan: seq<Command>, end: PlanEnd): nat {
    if end.AllDone? then |plan| else end.index
  }

  lemma NoneReachedBeyond(plan: seq<Command>, w: World, end: PlanEnd, j: nat)
    requires EndsAs(plan, w, end) && Reached(plan, w, j)
    ensures j <= StopIndex(plan, end)
  {
    var i := StopIndex(plan, end);
    assert i < |plan| ==> !(Succeeds(plan, w, i) && !Interrupted(plan, w, i));
  }

  /** There is exactly one way to end. */
  lemma EndUnique(plan: seq<Command>, w: World, e: PlanEnd, f: PlanEnd)
    requires EndsAs(plan, w, e) && EndsAs(plan, w, f)
    ensures e == f
  {
    NoneReachedBeyond(plan, w, e, StopIndex(plan, f));
    NoneReachedBeyond(plan, w, f, StopIndex(plan, e));
  }

  /** How many leading commands of the plan reach an executor. */
  function HandedCount(plan: seq<Command>, w: World, end: PlanEnd): nat {
    match end
    case AllDone => |plan|
    case FailedAt(i) => if i < |plan| && plan[i].commandType in w.types then i + 1 else i
    case CancelledAfter(i) => i + 1
  }

  predicate StatusRange(steps: seq<StepProgress>, from: nat, to: nat, s: StepStatus) {
    forall k :: from <= k < to <= |steps| ==> steps[k].status == s
  }

  /** success* (running | failed)? pending*, with the successes and the attempt at position i. */
  predicate MidShape(steps: seq<StepProgress>, i: nat) {
    && i < |steps| && StatusRange(steps, 0, i, Success)
    && steps[i].status in {Running, StepFailed, Success}
    && StatusRange(steps, i + 1, |steps|, StepPending)
  }

  ghost predicate Mid(steps: seq<StepProgress>) {
    exists i :: MidShape(steps, i)
  }

  /** later extends earlier by step lists of the mid-execution shape. */
  ghost predicate Extends(earlier: seq<seq<StepProgress>>, later: seq<seq<StepProgress>>) {
    && |earlier| <= |later| && later[..|earlier|] == earlier
    && forall k :: |earlier| <= k < |later| ==> Mid(later[k])
  }

  lemma ExtendsOne(a: seq<seq<StepProgress>>, b: seq<seq<StepProgress>>, steps: seq<StepProgress>, i: nat)
    requires Extends(a, b) && MidShape(steps, i)
    ensures Extends(a, b + [steps])
  {
    assert Mid(steps);
  }

  /** What the steps look like when `ExecutePlan` returns. */
  predicate EndShape(steps: seq<StepProgress>, end: PlanEnd) {
    match end
    case AllDone => StatusRange(steps, 0, |steps|, Success)
    case FailedAt(i) => i < |steps| && StatusRange(steps, 0, i, Success) && steps[i].status == StepFailed
                        && StatusRange(steps, i + 1, |steps|, Skipped)
    case CancelledAfter(i) =>
      i < |steps| && StatusRange(steps, 0, i + 1, Success) && StatusRange(steps, i + 1, |steps|, StepPending)
  }

  /** A call of `recordStep`. */
  datatype LogEntry = LogEntry(command: Command, status: StepStatus)

  function Successes(plan: seq<Command>, n: nat): seq<LogEntry>
    requires n <= |plan|
  {
    if n == 0 then [] else Successes(plan, n - 1) + [LogEntry(plan[n - 1], Success)]
  }

  /** What is recorded: every attempted step once, in order, with the status it ends with. */
  function Logged(plan: seq<Command>, end: PlanEnd): seq<LogEntry>
    requires StopIndex(plan, end) <= |plan|
  {
    match end
    case AllDone => Successes(plan, |plan|)
    case FailedAt(i) => Successes(plan, i) + if i < |plan| then [LogEntry(plan[i], StepFailed)] else []
    case CancelledAfter(i) => Successes(plan, i) + if i < |plan| then [LogEntry(plan[i], Success)] else []
  }

  lemma {:induction false} SuccessesAt(plan: seq<Command>, n: nat, k: nat)
    requires k < n <= |plan|
    ensures |Successes(plan, n)| == n && Successes(plan, n)[k] == LogEntry(plan[k], Success)
  {
    if k < n - 1 {
      SuccessesAt(plan, n - 1, k);
    } else if n > 1 {
      SuccessesAt(plan, n - 1, 0);
    }
  }

  /** The log mirrors the final steps: it has the steps that are neither skipped nor pending, with
      their final statuses. */
  lemma LogMirrorsSteps(plan: seq<Command>, end: PlanEnd, steps: seq<StepProgress>, k: nat)
    requires |steps| == |plan| && StopIndex(plan, end) <= |plan| && EndShape(steps, end) && k < |plan|
    ensures k < |Logged(plan, end)| <==> steps[k].status in {Success, StepFailed}
    ensures k < |Logged(plan, end)| ==> Logged(plan, end)[k] == LogEntry(plan[k], steps[k].status)
  {
    var n := StopIndex(plan, end);
    if n > 0 { SuccessesAt(plan, n, if k < n then k else 0); }
  }

  function FailComment(plan: seq<Command>, i: nat): string {
    if i < |plan| then "failed at step " + Itoa.Decimal(plan[i].step) else ""
  }

  /** The approval table at the end; a cancelled execution leaves it at `executing`. */
  function Finished(t: Tables, id: string, plan: seq<Command>, end: PlanEnd): Tables {
    match end
    case AllDone => WithStatus(t, id, Completed, "system", "all steps executed successfully")
    case FailedAt(i) => WithStatus(t, id, Failed, "system", FailComment(plan, i))
    case CancelledAfter(_) => t
  }

  function Started(t: Tables, id: string): Tables {
    WithStatus(t, id, Executing, "system", "")
  }

  /** The approval ends failed exactly when a step failed, and then that is the only one, with
      successes before it and skipped steps after it; it ends completed exactly when every step
      succeeded and no wait was cancelled. */
  lemma VerdictMatchesSteps(t: Tables, id: string, plan: seq<Command>, w: World, end: PlanEnd, steps: seq<StepProgress>)
    requires id in t.approvals && EndsAs(plan, w, end) && |steps| == |plan| && EndShape(steps, end)
    ensures id in Finished(Started(t, id), id, plan, end).approvals
    ensures var s := Finished(Started(t, id), id, plan, end).approvals[id].status;
      && (s == Failed <==> exists i :: 0 <= i < |steps| && steps[i].status == StepFailed)
      && (s == Completed <==> StatusRange(steps, 0, |steps|, Success) && NoneInterrupted(plan, w))
      && (s == Executing <==> end.CancelledAfter?) && s in {Completed, Failed, Executing}
    ensures forall i: nat :: i < |steps| && steps[i].status == StepFailed ==>
      StatusRange(steps, 0, i, Success) && StatusRange(steps, i + 1, |steps|, Skipped)
  {
    match end {
      case AllDone =>
      case FailedAt(i) => assert steps[i].status == StepFailed;
      case CancelledAfter(i) => assert Interrupted(plan, w, i);
    }
    forall i: nat | i < |steps| && steps[i].status == StepFailed
      ensures StatusRange(steps, 0, i, Success) && StatusRange(steps, i + 1, |steps|, Skipped)
    {
      assert end == FailedAt(i);
    }
  }

  // ---------------------------------------------------------------------------------------
  // The texts on the steps
  // ---------------------------------------------------------------------------------------

  /** What is shown on a step that failed. */
  function Cause(plan: seq<Command>, w: World, i: nat): string
    requires i < |plan|
  {
    if plan[i].commandType !in w.types then "unknown command type: " + plan[i].commandType
    else if w.answer(i).ExecError? then w.answer(i).message
    else w.answer(i).error
  }

  predicate LabelledAt(plan: seq<Command>, w: World, p: StepProgress, i: nat)
    requires i < |plan|
  {
    && p.step == plan[i].step && p.command == plan[i].command
    && p.error == if p.status == StepFailed then Cause(plan, w, i) else ""
  }

  predicate Labelled(plan: seq<Command>, w: World, steps: seq<StepProgress>) {
    |steps| == |plan| && forall i :: 0 <= i < |plan| ==> LabelledAt(plan, w, steps[i], i)
  }

  lemma Relabel(plan: seq<Command>, w: World, steps: seq<StepProgress>, i: nat, p: StepProgress)
    requires Labelled(plan, w, steps) && i < |plan| && LabelledAt(plan, w, p, i)
    ensures Labelled(plan, w, steps[i := p])
  {
  }

  /** Before step i: the steps in front of it succeeded, and it and those behind it are pending. */
  predicate InProgress(plan: seq<Command>, w: World, steps: seq<StepProgress>, i: nat) {
    && Labelled(plan, w, steps) && Reached(plan, w, i)
    && StatusRange(steps, 0, i, Success) && StatusRange(steps, i, |plan|, StepPending)
  }

  ghost predicate EndedAs(plan: seq<Command>, w: World, steps: seq<StepProgress>, end: PlanEnd) {
    Labelled(plan, w, steps) && EndsAs(plan, w, end) && EndShape(steps, end)
  }

  lemma OneMoreDone(plan: seq<Command>, i: nat, handed: seq<Command>, recorded: seq<LogEntry>)
    requires i < |plan|
    ensures handed + plan[..i] + [plan[i]] == handed + plan[..i + 1]
    ensures recorded + Successes(plan, i) + [LogEntry(plan[i], Success)] == recorded + Successes(plan, i + 1)
  {
    assert plan[..i + 1] == plan[..i] + [plan[i]];
  }

  lemma DoneIsEnd(plan: seq<Command>, w: World, steps: seq<StepProgress>)
    requires InProgress(plan, w, steps, |plan|)
    ensures EndedAs(plan, w, steps, AllDone)
  {
  }

  /** What the final status of a step says about the answers. */
  predicate TellsTruth(plan: seq<Command>, w: World, steps: seq<StepProgress>, i: nat)
    requires i < |plan| == |steps|
  {
    && steps[i].step == plan[i].step && steps[i].command == plan[i].command
    && match steps[i].status
       case Success => plan[i].commandType in w.types && w.answer(i).Reply? && w.answer(i).success
       case StepFailed =>
         || (plan[i].commandType !in w.types && steps[i].error == "unknown command type: " + plan[i].commandType)
         || (plan[i].commandType in w.types && w.answer(i) == ExecError(steps[i].error))
         || (plan[i].commandType in w.types && w.answer(i) == Reply(false, steps[i].error))
       case Skipped => exists k :: 0 <= k < i && steps[k].status == StepFailed
       case StepPending => exists k :: 0 <= k < i && plan[k].waitAfterSec > 0 && w.cancelled(k)
       case Running => false
  }

  /** Success on a step means that its executor reported one; a failed step had no executor, or an
      error, or a reply that reported a failure; the others come behind a failure or a cancelled wait. */
  lemma StepsTellTruth(plan: seq<Command>, w: World, steps: seq<StepProgress>, end: PlanEnd, i: nat)
    requires EndedAs(plan, w, steps, end) && i < |plan|
    ensures TellsTruth(plan, w, steps, i)
  {
    assert LabelledAt(plan, w, steps[i], i);
    match end {
      case AllDone => assert Succeeds(plan, w, i);
      case FailedAt(k) =>
        if i < k { assert Succeeds(plan, w, i); }
      case CancelledAfter(k) =>
        if i < k { assert Succeeds(plan, w, i); }
        assert Interrupted(plan, w, k);
    }
  }

  lemma AllDoneIff(plan: seq<Command>, w: World, end: PlanEnd)
    requires EndsAs(plan, w, end)
    ensures end == AllDone <==>
      forall i :: 0 <= i < |plan| ==>
        plan[i].commandType in w.types && w.answer(i).Reply? && w.answer(i).success
        && (plan[i].waitAfterSec <= 0 || !w.cancelled(i))
  {
    match end {
      case AllDone =>
        forall i: nat | i < |plan|
          ensures plan[i].commandType in w.types && w.answer(i).Reply? && w.answer(i).success
          ensures plan[i].waitAfterSec <= 0 || !w.cancelled(i)
        {
          assert Succeeds(plan, w, i) && !Interrupted(plan, w, i);
        }
      case FailedAt(i) => assert !Succeeds(plan, w, i);
      case CancelledAfter(i) => assert Interrupted(plan, w, i);
    }
  }

  lemma FailedStepIs(steps: seq<StepProgress>, end: PlanEnd, i: nat)
    requires EndShape(steps, end) && i < |steps|
    ensures steps[i].status == StepFailed <==> end == FailedAt(i)
    ensures end.FailedAt? ==> end.index < |steps|
  {
  }

  /** What the approval's record says at the end. */
  lemma VerdictRecord(t: Tables, id: string, plan: seq<Command>, end: PlanEnd)
    requires id in t.approvals && (end.FailedAt? ==> end.index < |plan|)
    ensures id in Finished(Started(t, id), id, plan, end).approvals
    ensures var r := t.approvals[id].(approverId := "system");
      Finished(Started(t, id), id, plan, end).approvals[id] ==
        match end
        case AllDone => r.(status := Completed, comment := "all steps executed successfully")
        case FailedAt(i) => r.(status := Failed, comment := "failed at step " + Itoa.Decimal(plan[i].step))
        case CancelledAfter(_) => r.(status := Executing, comment := "")
  {
  }

  /** The approval at the end: completed exactly when every executor reported success and no wait was
      cancelled, failed exactly when a step failed, with the number of that step in the comment. */
  lemma VerdictMeans(t: Tables, id: string, plan: seq<Command>, w: World, steps: seq<StepProgress>, end: PlanEnd)
    requires id in t.approvals && EndedAs(plan, w, steps, end)
    ensures id in Finished(Started(t, id), id, plan, end).approvals
    ensures Finished(Started(t, id), id, plan, end).approvals[id].status == Completed <==>
      forall i :: 0 <= i < |plan| ==>
        plan[i].commandType in w.types && w.answer(i).Reply? && w.answer(i).success
        && (plan[i].waitAfterSec <= 0 || !w.cancelled(i))
    ensures Finished(Started(t, id), id, plan, end).approvals[id].status == Failed <==>
      exists i :: 0 <= i < |steps| && steps[i].status == StepFailed
    ensures forall i :: 0 <= i < |steps| && steps[i].status == StepFailed ==>
      Finished(Started(t, id), id, plan, end).approvals[id].comment == "failed at step " + Itoa.Decimal(plan[i].step)
  {
    AllDoneIff(plan, w, end);
    VerdictRecord(t, id, plan, end);
    if end.FailedAt? { FailedStepIs(steps, end, end.index); }
    forall i: nat | i < |steps| ensures steps[i].status == StepFailed <==> end == FailedAt(i) {
      FailedStepIs(steps, end, i);
    }
  }

  /** The commands handed to executors are those of the steps that ended, if there was an executor. */
  lemma HandedMeans(plan: seq<Command>, w: World, steps: seq<StepProgress>, end: PlanEnd, i: nat)
    requires EndedAs(plan, w, steps, end) && i < |plan|
    ensures i < HandedCount(plan, w, end) <==>
      steps[i].status in {Success, StepFailed} && plan[i].commandType in w.types
  {
    match end {
      case AllDone => assert Succeeds(plan, w, i);
      case FailedAt(k) => if i < k { assert Succeeds(plan, w, i); }
      case CancelledAfter(k) => if i < k { assert Succeeds(plan, w, i); }
    }
  }

  class Router {
    const types: set<string>
    const st: Store
    /** The step lists sent to the notifier, oldest first. */
    var progress: seq<seq<StepProgress>>
    /** The commands given to executors, and the steps recorded in the execution log, oldest first. */
    var handed: seq<Command>
    var recorded: seq<LogEntry>

    constructor (types: set<string>, st: Store)
      ensures this.types == types && this.st == st && progress == [] && handed == [] && recorded == []
    {
      this.types, this.st := types, st;
      progress, handed, recorded := [], [], [];
    }

    method ExecutePlan(approval: ApprovalRecord, parsed: Option<seq<Command>>, w: World)
      returns (ghost end: PlanEnd, ghost final: seq<StepProgress>)
      requires w.types == types
      modifies this, st
      ensures parsed.None? ==> st.View() == old(st.View()) && progress == old(progress) && handed == old(handed)
      ensures parsed.None? ==> recorded == old(recorded)
      ensures parsed.Some? ==> StopIndex(parsed.value, end) <= |parsed.value|
      ensures parsed.Some? ==> recorded == old(recorded) + Logged(parsed.value, end)
      ensures parsed.Some? ==> EndedAs(parsed.value, w, final, end)
      ensures parsed.Some? ==> forall i :: 0 <= i < |final| ==> TellsTruth(parsed.value, w, final, i)
      ensures parsed.Some? ==>
        st.View() == Finished(Started(old(st.View()), approval.id), approval.id, parsed.value, end)
      ensures parsed.Some? ==> HandedCount(parsed.value, w, end) <= |parsed.value|
      ensures parsed.Some? ==> handed == old(handed) + parsed.value[..HandedCount(parsed.value, w, end)]
      ensures Extends(old(progress), progress)
    {
      end, final := AllDone, [];
      if parsed.None? {
        return;
      }
      end, final := RunPlan(approval, parsed.value, w);
      forall i | 0 <= i < |final| ensures TellsTruth(parsed.value, w, final, i) {
        StepsTellTruth(parsed.value, w, final, end, i);
      }
    }

    /** The part behind the parsing of the plan. */
    method RunPlan(approval: ApprovalRecord, plan: seq<Command>, w: World)
      returns (ghost end: PlanEnd, ghost final: seq<StepProgress>)
      requires w.types == types
      modifies this, st
      ensures StopIndex(plan, end) <= |plan| && HandedCount(plan, w, end) <= |plan|
      ensures EndedAs(plan, w, final, end)
      ensures recorded == old(recorded) + Logged(plan, end)
      ensures handed == old(handed) + plan[..HandedCount(plan, w, end)]
      ensures st.View() == Finished(Started(old(st.View()), approval.id), approval.id, plan, end)
      ensures Extends(old(progress), progress)
    {
      st.UpdateApprovalStatus(approval.id, Executing, "system", "");
      var steps := NewSteps(plan, w);
      for i := 0 to |plan|
        invariant st.View() == Started(old(st.View()), approval.id)
        invariant InProgress(plan, w, steps[..], i)
        invariant handed == old(handed) + plan[..i] && recorded == old(recorded) + Successes(plan, i)
        invariant Extends(old(progress), progress)
      {
        var stop := RunStep(approval, plan, w, i, steps, old(progress));
        OneMoreDone(plan, i, old(handed), old(recorded));
        if stop.Some? {
          end, final := stop.value, steps[..];
          return;
        }
      }
      st.UpdateApprovalStatus(approval.id, Completed, "system", "all steps executed successfully");
      assert plan[..|plan|] == plan;
      end, final := AllDone, steps[..];
      DoneIsEnd(plan, w, final);
    }

    /** All steps pending. */
    method NewSteps(plan: seq<Command>, ghost w: World) returns (steps: array<StepProgress>)
      ensures fresh(steps) && steps.Length == |plan| && InProgress(plan, w, steps[..], 0)
    {
      steps := new StepProgress[|plan|](i requires 0 <= i < |plan| =>
        StepProgress(plan[i].step, plan[i].command, StepPending, ""));
    }

    /** One iteration of the loop; Some(end) when the iteration returns from `ExecutePlan`. */
    method RunStep(approval: ApprovalRecord, plan: seq<Command>, w: World, i: nat, steps: array<StepProgress>,
                   ghost start: seq<seq<StepProgress>>)
      returns (stop: Option<PlanEnd>)
      requires w.types == types && i < |plan| == steps.Length && InProgress(plan, w, steps[..], i)
      requires Extends(start, progress)
      modifies steps, this, st
      ensures Extends(start, progress)
      ensures stop == Some(FailedAt(i)) <==>
        plan[i].commandType !in types || w.answer(i).ExecError? || !w.answer(i).success
      ensures stop == Some(CancelledAfter(i)) <==>
        stop != Some(FailedAt(i)) && plan[i].waitAfterSec > 0 && w.cancelled(i)
      ensures stop in {None, Some(FailedAt(i)), Some(CancelledAfter(i))}
      ensures stop.None? ==> InProgress(plan, w, steps[..], i + 1) && st.View() == old(st.View())
      ensures stop.Some? ==> EndedAs(plan, w, steps[..], stop.value)
      ensures stop.Some? ==> st.View() == Finished(old(st.View()), approval.id, plan, stop.value)
      ensures handed == old(handed) + if plan[i].commandType in types then [plan[i]] else []
      ensures recorded == old(recorded) + [LogEntry(plan[i], if stop == Some(FailedAt(i)) then StepFailed else Success)]
    {
      var cmd := plan[i];
      Mark(plan, w, steps, i, Running, start);
      if cmd.commandType !in types {
        RecordStep(cmd, StepFailed);
        FailStep(approval, plan, w, steps, i, "unknown command type: " + cmd.commandType, start);
        return Some(FailedAt(i));
      }
      handed := handed + [cmd];
      var answer := w.answer(i);
      if answer.ExecError? || !answer.success {
        RecordStep(cmd, StepFailed);
        FailStep(approval, plan, w, steps, i, if answer.ExecError? then answer.message else answer.error, start);
        return Some(FailedAt(i));
      }
      RecordStep(cmd, Success);
      Mark(plan, w, steps, i, Success, start);
      if cmd.waitAfterSec > 0 && w.cancelled(i) {
        return Some(CancelledAfter(i));
      }
      stop := None;
    }

    method RecordStep(cmd: Command, status: StepStatus)
      modifies this`recorded
      ensures recorded == old(recorded) + [LogEntry(cmd, status)]
    {
      recorded := recorded + [LogEntry(cmd, status)];
    }

    /** `notifier.UpdateProgress` with the current steps. */
    method Report(steps: array<StepProgress>, ghost i: nat, ghost start: seq<seq<StepProgress>>)
      requires MidShape(steps[..], i) && Extends(start, progress)
      modifies this`progress
      ensures progress == old(progress) + [steps[..]] && Extends(start, progress)
    {
      ExtendsOne(start, progress, steps[..], i);
      progress := progress + [steps[..]];
    }

    /** Sets the status of the current step and reports it. */
    method Mark(ghost plan: seq<Command>, ghost w: World, steps: array<StepProgress>, i: nat, status: StepStatus,
                ghost start: seq<seq<StepProgress>>)
      requires i < |plan| == steps.Length && Labelled(plan, w, steps[..]) && status in {Running, Success}
      requires steps[i].status in {StepPending, Running} && Extends(start, progress)
      requires StatusRange(steps[..], 0, i, Success) && StatusRange(steps[..], i + 1, |plan|, StepPending)
      modifies steps, this`progress
      ensures steps[..] == old(steps[..])[i := old(steps[i]).(status := status)]
      ensures Labelled(plan, w, steps[..]) && MidShape(steps[..], i) && Extends(start, progress)
    {
      ghost var before := steps[..];
      assert LabelledAt(plan, w, before[i], i);
      Relabel(plan, w, before, i, before[i].(status := status));
      steps[i] := steps[i].(status := status);
      assert steps[..] == before[i := before[i].(status := status)];
      Report(steps, i, start);
    }

    /** The failure branch and `failPlan`: report the failed step, skip what is still pending. */
    method FailStep(approval: ApprovalRecord, plan: seq<Command>, ghost w: World, steps: array<StepProgress>, i: nat,
                    message: string, ghost start: seq<seq<StepProgress>>)
      requires |plan| == steps.Length && MidShape(steps[..], i) && Extends(start, progress)
      requires Labelled(plan, w, steps[..]) && message == Cause(plan, w, i)
      modifies steps, this`progress, st
      ensures Extends(start, progress)
      ensures Labelled(plan, w, steps[..]) && EndShape(steps[..], FailedAt(i))
      ensures st.View() == WithStatus(old(st.View()), approval.id, Failed, "system", FailComment(plan, i))
    {
      ghost var before := steps[..];
      assert LabelledAt(plan, w, before[i], i);
      Relabel(plan, w, before, i, before[i].(status := StepFailed, error := message));
      steps[i] := steps[i].(status := StepFailed, error := message);
      assert steps[..] == before[i := before[i].(status := StepFailed, error := message)];
      Report(steps, i, start);
      SkipPending(plan, w, steps, i);
      st.UpdateApprovalStatus(approval.id, Failed, "system", FailComment(plan, i));
    }

    method SkipPending(ghost plan: seq<Command>, ghost w: World, steps: array<StepProgress>, ghost i: nat)
      requires |plan| == steps.Length && i < steps.Length && Labelled(plan, w, steps[..])
      requires StatusRange(steps[..], 0, i, Success) && steps[i].status == StepFailed
      requires StatusRange(steps[..], i + 1, steps.Length, StepPending)
      modifies steps
      ensures Labelled(plan, w, steps[..]) && EndShape(steps[..], FailedAt(i))
    {
      for k := 0 to steps.Length
        modifies steps
        invariant Labelled(plan, w, steps[..])
        invariant StatusRange(steps[..], 0, i, Success) && steps[i].status == StepFailed
        invariant forall m :: i < m < steps.Length ==> steps[m].status == if m < k then Skipped else StepPending
      {
        if steps[k].status == StepPending {
          ghost var before := steps[..];
          assert LabelledAt(plan, w, before[k], k);
          Relabel(plan, w, before, k, before[k].(status := Skipped));
          steps[k] := steps[k].(status := Skipped);
          assert steps[..] == before[k := before[k].(status := Skipped)];
        }
      }
    }
  }
}
