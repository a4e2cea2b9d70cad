/** What holds of every run of the approval protocol, from the empty store on. */
module ProtocolRuns {
  import opened Options
  import opened ApprovalModels
  import opened ApprovalStore
  import opened ApprovalManager
  import opened ApprovalFlow
  import opened PlanExecution
  import opened Protocol

  ghost predicate StepAt(states: seq<State>, actions: seq<Action>, k: nat) {
    k < |actions| && k + 1 < |states| && Enabled(states[k], actions[k]) && states[k + 1] == Apply(states[k], actions[k])
  }

  ghost predicate IsRun(states: seq<State>, actions: seq<Action>) {
    && |states| == |actions| + 1 && states[0] == INITIAL
    && forall k: nat :: k < |actions| ==> StepAt(states, actions, k)
  }

  /** The invariant holds in every reachable state. */
  lemma {:induction false} RunKeepsInv(states: seq<State>, actions: seq<Action>, k: nat)
    requires IsRun(states, actions) && k < |states|
    ensures Inv(states[k])
    decreases k
  {
    if k == 0 {
    } else {
      RunKeepsInv(states, actions, k - 1);
      assert StepAt(states, actions, k - 1);
      StepKeeps(states[k - 1], actions[k - 1]);
    }
  }

  // ---------------------------------------------------------------------------------------
  // Statuses along a run
  // ---------------------------------------------------------------------------------------

  lemma RequestIsStep(s: State, a: Action, x: string)
    requires a.Request? && Enabled(s, a) && x in s.t.approvals
    ensures x in Apply(s, a).t.approvals && Apply(s, a).t.approvals[x] == s.t.approvals[x]
  {
  }

  lemma HandlerIsStep(s: State, a: Action)
    requires Inv(s) && Enabled(s, a) && !a.Request? && !a.Revise? && !a.Analyse?
    ensures StatusStep(s.t, Apply(s, a).t)
  {
    match a {
      case Callback(id, action, user, now) => CallbackIsStep(s.t, id, action, user, now);
      case Tick(now) => TickIsStep(s.t, now);
      case _ => ExecIsStep(s, a);
    }
  }

  lemma RevisedRecord(t: Tables, conv: Conversation, a: Action, x: string)
    requires a.Revise? && x in t.approvals && conv.id in t.conversations && t.conversations[conv.id] == conv
    ensures var u := Revised(t, conv, a.id, a.planJson, a.msgId, a.now, a.ttl);
            x in u.approvals && RecordStep(t.approvals[x], u.approvals[x])
  {
  }

  lemma ReviseIsStep(s: State, a: Action, x: string)
    requires Conversations(s.t, s.owner) && a.Revise? && Enabled(s, a) && x in s.t.approvals
    ensures x in Apply(s, a).t.approvals && RecordStep(s.t.approvals[x], Apply(s, a).t.approvals[x])
  {
    assert ConversationOk(s.t, s.owner, a.convId);
    RevisedRecord(s.t, s.t.conversations[a.convId], a, x);
  }

  /** Every status change any component makes is an edge of the transition table, and none leaves
      `modified`; ids, parents and deadlines never change. */
  lemma EveryChangeIsAnEdge(s: State, a: Action, x: string)
    requires Inv(s) && Enabled(s, a) && x in s.t.approvals
    ensures x in Apply(s, a).t.approvals && RecordStep(s.t.approvals[x], Apply(s, a).t.approvals[x])
  {
    match a {
      case Request(_, _, _, _, _, _, _) => RequestIsStep(s, a, x);
      case Revise(_, _, _, _, _, _) => ReviseIsStep(s, a, x);
      case Analyse(_, _, _) =>
      case _ => HandlerIsStep(s, a);
    }
  }

  predicate IsActive(s: Status) { s in {Approved, Executing, Completed, Failed} }

  /** b can be a later status of an approval that has status a now. */
  predicate Follows(a: Status, b: Status) {
    && Depth(a) <= Depth(b) <= 3 && (Depth(a) == Depth(b) ==> a == b)
    && (IsFinal(a) || IsDead(a) ==> b == a)
    && (IsActive(a) ==> IsActive(b))
  }

  lemma StepFollows(r: ApprovalRecord, r': ApprovalRecord)
    requires RecordStep(r, r')
    ensures Follows(r.status, r'.status)
  {
    TableShape(r.status, r'.status);
    match r.status
    case Pending => case Approved => case Modified => case Executing => case _ =>
  }

  /** Approvals persist; a final, dead or active approval stays so for the rest of the run. */
  lemma {:induction false} RunFollows(states: seq<State>, actions: seq<Action>, i: nat, k: nat, x: string)
    requires IsRun(states, actions) && i <= k < |states| && x in states[i].t.approvals
    ensures x in states[k].t.approvals && Follows(states[i].t.approvals[x].status, states[k].t.approvals[x].status)
    decreases k - i
  {
    if i < k {
      RunFollows(states, actions, i, k - 1, x);
      RunKeepsInv(states, actions, k - 1);
      assert StepAt(states, actions, k - 1);
      EveryChangeIsAnEdge(states[k - 1], actions[k - 1], x);
      StepFollows(states[k - 1].t.approvals[x], states[k].t.approvals[x]);
    }
  }

  /** A final status is never changed again. */
  lemma FinalIsForever(states: seq<State>, actions: seq<Action>, i: nat, k: nat, x: string)
    requires IsRun(states, actions) && i <= k < |states| && x in states[i].t.approvals
    requires IsFinal(states[i].t.approvals[x].status)
    ensures x in states[k].t.approvals && states[k].t.approvals[x].status == states[i].t.approvals[x].status
  {
    RunFollows(states, actions, i, k, x);
  }

  predicate Changed(s: State, s': State, x: string) {
    x in s.t.approvals && x in s'.t.approvals && s.t.approvals[x].status != s'.t.approvals[x].status
  }

  /** How often x has changed status by states[n]. */
  function Changes(states: seq<State>, x: string, n: nat): nat
    requires n < |states|
  {
    if n == 0 then 0 else Changes(states, x, n - 1) + if Changed(states[n - 1], states[n], x) then 1 else 0
  }

  lemma {:induction false} ChangesWithinDepth(states: seq<State>, actions: seq<Action>, x: string, n: nat)
    requires IsRun(states, actions) && n < |states|
    ensures Changes(states, x, n) <= if x in states[n].t.approvals then Depth(states[n].t.approvals[x].status) else 0
  {
    if n == 0 {
    } else {
      ChangesWithinDepth(states, actions, x, n - 1);
      if x in states[n - 1].t.approvals { RunFollows(states, actions, n - 1, n, x); }
    }
  }

  /** An approval changes status at most three times. */
  lemma AtMostThreeChanges(states: seq<State>, actions: seq<Action>, x: string, n: nat)
    requires IsRun(states, actions) && n < |states|
    ensures Changes(states, x, n) <= 3
  {
    ChangesWithinDepth(states, actions, x, n);
  }

  // ---------------------------------------------------------------------------------------
  // Executions
  // ---------------------------------------------------------------------------------------

  /** `ExecutePlan` is entered for approval x, whether or not its plan parses. */
  predicate StartsAt(states: seq<State>, actions: seq<Action>, k: nat, x: string) {
    && k < |actions| && k < |states| && actions[k].ExecStart?
    && actions[k].job in states[k].jobs && states[k].jobs[actions[k].job].id == x
  }

  /** An `approve` callback finds x pending and not past its deadline. */
  predicate ApprovesAt(states: seq<State>, actions: seq<Action>, k: nat, x: string) {
    && k < |actions| && k < |states| && actions[k].Callback? && actions[k].id == x && actions[k].action == Approve
    && Accepts(states[k].t, x, Approve, actions[k].now)
  }

  lemma StartFinds(states: seq<State>, actions: seq<Action>, k: nat, x: string)
    requires IsRun(states, actions) && StartsAt(states, actions, k, x)
    ensures states[k].jobs[actions[k].job].Launched?
    ensures x in states[k].t.approvals && states[k].t.approvals[x].status == Approved
  {
    RunKeepsInv(states, actions, k);
    assert StepAt(states, actions, k);
    assert JobOk(states[k].t, states[k].jobs[actions[k].job]);
  }

  /** x is no longer pending and no execution of it is still to start. */
  predicate Spent(s: State, x: string) {
    && x in s.t.approvals && s.t.approvals[x].status != Pending
    && forall j :: j in s.jobs && s.jobs[j].Launched? ==> s.jobs[j].id != x
  }

  lemma JobOrigin(s: State, a: Action, j: nat)
    requires Enabled(s, a) && j in Apply(s, a).jobs && Apply(s, a).jobs[j].Launched?
    ensures (j in s.jobs && s.jobs[j] == Apply(s, a).jobs[j])
            || (a.Callback? && a.action == Approve && a.id == Apply(s, a).jobs[j].id
              && Accepts(s.t, a.id, Approve, a.now))
  {
  }

  lemma SpentStays(s: State, a: Action, x: string)
    requires Inv(s) && Enabled(s, a) && Spent(s, x)
    ensures Spent(Apply(s, a), x)
  {
    var s' := Apply(s, a);
    EveryChangeIsAnEdge(s, a, x);
    StepFollows(s.t.approvals[x], s'.t.approvals[x]);
    forall j | j in s'.jobs && s'.jobs[j].Launched? ensures s'.jobs[j].id != x {
      JobOrigin(s, a, j);
    }
  }

  lemma StartSpends(s: State, job: nat, steps: Option<nat>)
    requires Inv(s) && Enabled(s, ExecStart(job, steps))
    ensures Spent(Apply(s, ExecStart(job, steps)), s.jobs[job].id)
  {
    assert JobOk(s.t, s.jobs[job]);
  }

  lemma {:induction false} RunSpent(states: seq<State>, actions: seq<Action>, i: nat, k: nat, x: string)
    requires IsRun(states, actions) && i <= k < |states| && Spent(states[i], x)
    ensures Spent(states[k], x)
    decreases k - i
  {
    if i < k {
      RunSpent(states, actions, i, k - 1, x);
      RunKeepsInv(states, actions, k - 1);
      assert StepAt(states, actions, k - 1);
      SpentStays(states[k - 1], actions[k - 1], x);
    }
  }

  lemma NoSecondStart(states: seq<State>, actions: seq<Action>, i: nat, k: nat, x: string)
    requires IsRun(states, actions) && StartsAt(states, actions, i, x) && i < k
    ensures !StartsAt(states, actions, k, x)
  {
    RunKeepsInv(states, actions, i);
    assert StepAt(states, actions, i);
    StartSpends(states[i], actions[i].job, actions[i].steps);
    if k < |actions| {
      RunSpent(states, actions, i + 1, k, x);
      assert StepAt(states, actions, k);
    }
  }

  /** `ExecutePlan` starts at most once per approval. */
  lemma StartsAtMostOnce(states: seq<State>, actions: seq<Action>, i: nat, k: nat, x: string)
    requires IsRun(states, actions) && StartsAt(states, actions, i, x) && StartsAt(states, actions, k, x)
    ensures i == k
  {
    if i < k { NoSecondStart(states, actions, i, k, x); }
    if k < i { NoSecondStart(states, actions, k, i, x); }
  }

  lemma {:induction false} LaunchedWasApproved(states: seq<State>, actions: seq<Action>, k: nat, j: nat)
    returns (i: nat)
    requires IsRun(states, actions) && k < |states| && j in states[k].jobs && states[k].jobs[j].Launched?
    ensures i < k && ApprovesAt(states, actions, i, states[k].jobs[j].id)
    decreases k
  {
    assert StepAt(states, actions, k - 1);
    JobOrigin(states[k - 1], actions[k - 1], j);
    if j in states[k - 1].jobs && states[k - 1].jobs[j] == states[k].jobs[j] {
      i := LaunchedWasApproved(states, actions, k - 1, j);
    } else {
      i := k - 1;
    }
  }

  lemma NoSecondApprove(states: seq<State>, actions: seq<Action>, i: nat, k: nat, x: string)
    requires IsRun(states, actions) && ApprovesAt(states, actions, i, x) && i < k
    ensures !ApprovesAt(states, actions, k, x)
  {
    assert StepAt(states, actions, i);
    assert states[i + 1].t.approvals[x].status == Approved;
    if k < |states| { RunFollows(states, actions, i + 1, k, x); }
  }

  /** An execution only starts after an `approve` callback that found the approval pending and not
      past its deadline; that callback is the only one ever accepted for it. */
  lemma StartsOnlyAfterApprove(states: seq<State>, actions: seq<Action>, k: nat, x: string) returns (i: nat)
    requires IsRun(states, actions) && StartsAt(states, actions, k, x)
    ensures i < k && ApprovesAt(states, actions, i, x)
    ensures forall n: nat :: ApprovesAt(states, actions, n, x) ==> n == i
  {
    StartFinds(states, actions, k, x);
    i := LaunchedWasApproved(states, actions, k, actions[k].job);
    forall n: nat | ApprovesAt(states, actions, n, x) ensures n == i {
      if n < i { NoSecondApprove(states, actions, n, i, x); }
      if i < n { NoSecondApprove(states, actions, i, n, x); }
    }
  }

  /** An approval that is rejected, expired, superseded or modified at some point of the run
      starts executing at no point of the run. */
  lemma DeadNeverStarts(states: seq<State>, actions: seq<Action>, i: nat, k: nat, x: string)
    requires IsRun(states, actions) && i < |states| && k < |actions|
    requires x in states[i].t.approvals && IsDead(states[i].t.approvals[x].status)
    ensures !StartsAt(states, actions, k, x)
  {
    if StartsAt(states, actions, k, x) {
      StartFinds(states, actions, k, x);
      if i <= k { RunFollows(states, actions, i, k, x); } else { RunFollows(states, actions, k, i, x); }
    }
  }

  /** The status a callback asks for. */
  predicate AsksFor(a: CallbackAction, s: Status) {
    (a == Approve && s == Approved) || (a == Reject && s == Rejected) || (a == Modify && s == Modified)
  }

  /** The callback finds x pending and in time, and leaves it with the status it asks for. */
  lemma AcceptedCallback(states: seq<State>, actions: seq<Action>, i: nat, x: string)
    requires IsRun(states, actions) && i < |actions| && actions[i].Callback? && actions[i].id == x
    requires !actions[i].action.OtherAction? && x in states[i].t.approvals
    requires states[i].t.approvals[x].status == Pending && actions[i].now <= states[i].t.approvals[x].expiresAt
    ensures x in states[i + 1].t.approvals && AsksFor(actions[i].action, states[i + 1].t.approvals[x].status)
  {
    assert StepAt(states, actions, i);
    CallbackMeans(states[i].t, x, actions[i].action, actions[i].user, actions[i].now);
  }

  /** An approval whose `reject` or `modify` was accepted is rejected or modified from then on, and no
      execution of it starts at any point of the run. */
  lemma RefusedIsForever(states: seq<State>, actions: seq<Action>, i: nat, k: nat, x: string)
    requires IsRun(states, actions) && i < |actions| && actions[i].Callback? && actions[i].id == x
    requires actions[i].action in {Reject, Modify} && x in states[i].t.approvals
    requires states[i].t.approvals[x].status == Pending && actions[i].now <= states[i].t.approvals[x].expiresAt
    ensures i < k < |states| ==> x in states[k].t.approvals
    ensures i < k < |states| ==>
      states[k].t.approvals[x].status == if actions[i].action == Reject then Rejected else Modified
    ensures !StartsAt(states, actions, k, x)
  {
    AcceptedCallback(states, actions, i, x);
    if i < k < |states| { RunFollows(states, actions, i + 1, k, x); }
    if k < |actions| { DeadNeverStarts(states, actions, i + 1, k, x); }
  }

  /** The pairs of statuses an approval can have before and after one action. */
  lemma ChangesAre(states: seq<State>, actions: seq<Action>, k: nat, x: string)
    requires IsRun(states, actions) && k < |actions| && x in states[k].t.approvals
    ensures x in states[k + 1].t.approvals
    ensures var s, s' := states[k].t.approvals[x].status, states[k + 1].t.approvals[x].status;
      s' == s || (s, s') in {
        (Pending, Approved), (Pending, Rejected), (Pending, Modified), (Pending, Expired), (Pending, Superseded),
        (Approved, Executing), (Executing, Completed), (Executing, Failed)}
  {
    RunKeepsInv(states, actions, k);
    assert StepAt(states, actions, k);
    EveryChangeIsAnEdge(states[k], actions[k], x);
    EdgesAre(states[k].t.approvals[x].status, states[k + 1].t.approvals[x].status);
  }

  // ---------------------------------------------------------------------------------------
  // Conversations
  // ---------------------------------------------------------------------------------------

  /** x was created for conversation c. */
  predicate Belongs(s: State, x: string, c: string) {
    x in s.owner && s.owner[x] == c
  }

  lemma StepKeepsOwner(s: State, a: Action, x: string)
    requires Owners(s.t, s.owner) && Enabled(s, a) && x in s.owner
    ensures Belongs(Apply(s, a), x, s.owner[x])
  {
    assert OwnerOk(s.t, s.owner, x);
  }

  lemma {:induction false} RunKeepsOwner(states: seq<State>, actions: seq<Action>, i: nat, k: nat, x: string, c: string)
    requires IsRun(states, actions) && i <= k < |states| && Belongs(states[i], x, c)
    ensures Belongs(states[k], x, c)
    decreases k - i
  {
    if i < k {
      RunKeepsOwner(states, actions, i, k - 1, x, c);
      RunKeepsInv(states, actions, k - 1);
      assert StepAt(states, actions, k - 1);
      StepKeepsOwner(states[k - 1], actions[k - 1], x);
    }
  }

  /** An approval of a conversation that is not dead is the conversation's current one. */
  lemma LiveIsCurrent(s: State, x: string, c: string)
    requires Inv(s) && Belongs(s, x, c)
    ensures x in s.t.approvals && c in s.t.conversations
    ensures !IsDead(s.t.approvals[x].status) ==> s.t.conversations[c].approvalId == x
  {
    assert OwnerOk(s.t, s.owner, x);
  }

  /** At every point of a run a conversation has at most one pending approval, and that is its
      current one. */
  lemma AtMostOnePending(states: seq<State>, actions: seq<Action>, k: nat, x: string, y: string, c: string)
    requires IsRun(states, actions) && k < |states| && Belongs(states[k], x, c) && Belongs(states[k], y, c)
    ensures x in states[k].t.approvals && y in states[k].t.approvals && c in states[k].t.conversations
    ensures states[k].t.approvals[x].status == Pending ==> states[k].t.conversations[c].approvalId == x
    ensures states[k].t.approvals[x].status == Pending && states[k].t.approvals[y].status == Pending ==> x == y
  {
    RunKeepsInv(states, actions, k);
    LiveIsCurrent(states[k], x, c);
    LiveIsCurrent(states[k], y, c);
  }

  lemma StartedIsCurrentAtEnd(states: seq<State>, actions: seq<Action>, k: nat, x: string, c: string)
    requires IsRun(states, actions) && StartsAt(states, actions, k, x) && Belongs(states[k], x, c)
    ensures c in states[|actions|].t.conversations && states[|actions|].t.conversations[c].approvalId == x
  {
    var n := |actions|;
    StartFinds(states, actions, k, x);
    RunFollows(states, actions, k, n, x);
    RunKeepsOwner(states, actions, k, n, x, c);
    RunKeepsInv(states, actions, n);
    LiveIsCurrent(states[n], x, c);
  }

  /** Over a whole run, at most one approval of a conversation is ever executed, and once. */
  lemma OneExecutionPerConversation(states: seq<State>, actions: seq<Action>, i: nat, k: nat, x: string, y: string,
          c: string)
    requires IsRun(states, actions) && StartsAt(states, actions, i, x) && StartsAt(states, actions, k, y)
    requires Belongs(states[i], x, c) && Belongs(states[k], y, c)
    ensures x == y && i == k
  {
    StartedIsCurrentAtEnd(states, actions, i, x, c);
    StartedIsCurrentAtEnd(states, actions, k, y, c);
    StartsAtMostOnce(states, actions, i, k, x);
  }

  // ---------------------------------------------------------------------------------------
  // The chain of parents
  // ---------------------------------------------------------------------------------------

  /** x, its parent, its parent's parent, ... as far as the rows get older. */
  function Chain(t: Tables, x: string): seq<string>
    decreases Position(t.rows, x)
  {
    if x !in t.approvals then []
    else
      var p := t.approvals[x].parentId;
      if p in t.approvals && Position(t.rows, p) < Position(t.rows, x) then [x] + Chain(t, p) else [x]
  }

  /** The parent, if there is one, is an older row and dead. */
  predicate ParentOlder(t: Tables, x: string)
    requires x in t.approvals
  {
    var p := t.approvals[x].parentId;
    p != "" ==> p in t.approvals && Position(t.rows, p) < Position(t.rows, x) && IsDead(t.approvals[p].status)
  }

  predicate ParentsOlder(t: Tables) {
    "" !in t.approvals && forall x :: x in t.approvals ==> ParentOlder(t, x)
  }

  lemma InvOrdersParents(s: State)
    requires Inv(s)
    ensures ParentsOlder(s.t)
  {
    forall x | x in s.t.approvals ensures ParentOlder(s.t, x) {
      assert ApprovalOk(s.t, s.owner, x);
    }
  }

  /** The parent links leave nothing out: the chain ends only where there is no parent. */
  lemma ChainUnfolds(t: Tables, x: string)
    requires ParentsOlder(t) && x in t.approvals
    ensures var p := t.approvals[x].parentId;
      if p == "" then Chain(t, x) == [x] else p in t.approvals && Chain(t, x) == [x] + Chain(t, p)
  {
    assert ParentOlder(t, x);
  }

  /** Entry i of the chain of x is a row at least i places older than x; past x itself it is dead. */
  predicate AgedAt(t: Tables, x: string, i: nat)
    requires i < |Chain(t, x)|
  {
    var y := Chain(t, x)[i];
    y in t.approvals && Position(t.rows, y) <= Position(t.rows, x) - i && (i > 0 ==> IsDead(t.approvals[y].status))
  }

  lemma ParentIsNext(t: Tables, x: string) returns (p: string)
    requires ParentsOlder(t) && |Chain(t, x)| > 1
    ensures Chain(t, x)[1..] == Chain(t, p) && Chain(t, p)[0] == p
    ensures p in t.approvals && IsDead(t.approvals[p].status) && Position(t.rows, p) < Position(t.rows, x)
  {
    ChainUnfolds(t, x);
    assert ParentOlder(t, x);
    p := t.approvals[x].parentId;
    ChainUnfolds(t, p);
  }

  lemma {:induction false} ChainAges(t: Tables, x: string, i: nat)
    requires ParentsOlder(t) && i < |Chain(t, x)|
    ensures AgedAt(t, x, i)
    decreases i
  {
    if i == 0 {
    } else {
      var p := ParentIsNext(t, x);
      ChainAges(t, p, i - 1);
      assert Chain(t, x)[i] == Chain(t, x)[1..][i - 1];
    }
  }

  /** The chain is acyclic: ever older rows, hence no id twice; all behind its head are dead. */
  lemma ChainDescends(states: seq<State>, actions: seq<Action>, k: nat, x: string, i: nat)
    requires IsRun(states, actions) && k < |states| && i < |Chain(states[k].t, x)|
    ensures AgedAt(states[k].t, x, i)
  {
    RunKeepsInv(states, actions, k);
    InvOrdersParents(states[k]);
    ChainAges(states[k].t, x, i);
  }

  lemma ParentBelongs(s: State, x: string, c: string)
    requires Inv(s) && Belongs(s, x, c)
    ensures x in s.t.approvals
    ensures s.t.approvals[x].parentId != "" ==> Belongs(s, s.t.approvals[x].parentId, c)
  {
    assert OwnerOk(s.t, s.owner, x);
    assert ApprovalOk(s.t, s.owner, x);
  }

  predicate ParentsBelong(s: State, c: string) {
    "" !in s.t.approvals && forall x :: x in s.owner && s.owner[x] == c ==>
      x in s.t.approvals && (s.t.approvals[x].parentId != "" ==> Belongs(s, s.t.approvals[x].parentId, c))
  }

  lemma {:induction false} ChainBelongs(s: State, x: string, i: nat, c: string)
    requires ParentsBelong(s, c) && i < |Chain(s.t, x)| && Belongs(s, x, c)
    ensures Belongs(s, Chain(s.t, x)[i], c)
    decreases i
  {
    if i == 0 {
    } else {
      ChainBelongs(s, s.t.approvals[x].parentId, i - 1, c);
    }
  }

  lemma {:induction false} ChainHasParents(t: Tables, x: string, y: string)
    requires ParentsOlder(t)
    ensures y in Chain(t, x) && y in t.approvals && t.approvals[y].parentId != "" ==>
      t.approvals[y].parentId in Chain(t, x)
    decreases Position(t.rows, x)
  {
    if x in t.approvals && t.approvals[x].parentId != "" {
      var p := t.approvals[x].parentId;
      ChainUnfolds(t, x);
      assert ParentOlder(t, x);
      ChainUnfolds(t, p);
      ChainHasParents(t, p, y);
    }
  }

  lemma {:induction false} OwnedIsChained(s: State, x: string, c: string)
    requires Inv(s) && Belongs(s, x, c)
    ensures c in s.t.conversations && x in Chain(s.t, s.t.conversations[c].approvalId)
    decreases |s.t.rows| - Position(s.t.rows, x)
  {
    assert OwnerOk(s.t, s.owner, x);
    var head := s.t.conversations[c].approvalId;
    InvOrdersParents(s);
    if head == x {
      ChainUnfolds(s.t, x);
    } else {
      var n :| n in s.owner && IsSuccessor(s.t, s.owner, x, n);
      assert ApprovalOk(s.t, s.owner, n);
      assert x != "" by { assert OwnerOk(s.t, s.owner, x); }
      OwnedIsChained(s, n, c);
      ChainHasParents(s.t, head, n);
    }
  }

  /** Following `ParentApprovalID` from a conversation's current approval visits exactly the
      approvals created for the conversation. */
  lemma ChainIsConversation(states: seq<State>, actions: seq<Action>, k: nat, x: string, c: string)
    requires IsRun(states, actions) && k < |states| && c in states[k].t.conversations
    ensures Belongs(states[k], x, c) <==> x in Chain(states[k].t, states[k].t.conversations[c].approvalId)
  {
    var s := states[k];
    RunKeepsInv(states, actions, k);
    var head := s.t.conversations[c].approvalId;
    assert ConversationOk(s.t, s.owner, c);
    if x in Chain(s.t, head) {
      var i: nat :| i < |Chain(s.t, head)| && Chain(s.t, head)[i] == x;
      forall y | y in s.owner && s.owner[y] == c
        ensures y in s.t.approvals && (s.t.approvals[y].parentId != "" ==> Belongs(s, s.t.approvals[y].parentId, c))
      {
        ParentBelongs(s, y, c);
      }
      ChainBelongs(s, head, i, c);
    }
    if Belongs(s, x, c) { OwnedIsChained(s, x, c); }
  }

  // ---------------------------------------------------------------------------------------
  // One execution as a stretch of actions
  // ---------------------------------------------------------------------------------------

  /** The states after performing the actions one by one from s. */
  function After(s: State, actions: seq<Action>): State
    decreases |actions|
  {
    if actions == [] then s else Apply(After(s, actions[..|actions| - 1]), actions[|actions| - 1])
  }

  ghost predicate Performable(s: State, actions: seq<Action>) {
    forall k: nat :: k < |actions| ==> Enabled(After(s, actions[..k]), actions[k])
  }

  function Steps(job: nat, n: nat): seq<Action> {
    seq(n, _ => ExecStep(job))
  }

  function StepsDone(plan: seq<Command>, end: PlanEnd): nat {
    match end
    case AllDone => |plan|
    case FailedAt(i) => i
    case CancelledAfter(i) => i + 1
  }

  function LastAction(job: nat, plan: seq<Command>, end: PlanEnd): Action {
    match end
    case AllDone => ExecFinish(job)
    case FailedAt(i) => ExecFail(job, FailComment(plan, i))
    case CancelledAfter(_) => ExecCancel(job)
  }

  /** What the goroutine of `job` does when its plan ends as `end`. */
  function Script(job: nat, plan: seq<Command>, end: PlanEnd): seq<Action> {
    [ExecStart(job, Some(|plan|))] + Steps(job, StepsDone(plan, end)) + [LastAction(job, plan, end)]
  }

  /** The state after the start and n steps of the job. */
  function Underway(s: State, job: nat, total: nat, n: nat): State
    requires job in s.jobs
  {
    s.(t := Started(s.t, s.jobs[job].id), jobs := s.jobs[job := Executes(s.jobs[job].id, n, total)])
  }

  predicate CanEnd(job: nat, total: nat, n: nat, last: Action) {
    || (last == ExecFinish(job) && n == total)
    || (last.ExecFail? && last.job == job && n < total)
    || last == ExecCancel(job)
  }

  lemma {:induction false} AfterSteps(s: State, job: nat, total: nat, n: nat)
    requires job in s.jobs && s.jobs[job].Launched? && n <= total
    ensures After(s, [ExecStart(job, Some(total))] + Steps(job, n))
         == Underway(s, job, total, n)
  {
    var start := [ExecStart(job, Some(total))];
    var all := start + Steps(job, n);
    if n == 0 {
      assert all == start && start[..0] == [];
    } else {
      AfterSteps(s, job, total, n - 1);
      assert all[..|all| - 1] == start + Steps(job, n - 1);
    }
  }

  lemma ScriptEnabled(s: State, job: nat, total: nat, n: nat, last: Action, k: nat)
    requires job in s.jobs && s.jobs[job].Launched? && n <= total && k < n + 2
    requires CanEnd(job, total, n, last)
    ensures var all := [ExecStart(job, Some(total))] + Steps(job, n) + [last];
            Enabled(After(s, all[..k]), all[k])
  {
    var start := [ExecStart(job, Some(total))];
    var all := start + Steps(job, n) + [last];
    if k == 0 {
      assert all[..0] == [];
    } else {
      assert all[..k] == start + Steps(job, k - 1);
      AfterSteps(s, job, total, k - 1);
      assert all[k] == if k == n + 1 then last else ExecStep(job);
    }
  }

  lemma ScriptEnds(s: State, job: nat, total: nat, n: nat, last: Action)
    requires job in s.jobs && s.jobs[job].Launched? && n <= total
    requires CanEnd(job, total, n, last)
    ensures var all := [ExecStart(job, Some(total))] + Steps(job, n) + [last];
            Performable(s, all)
            && After(s, all) == Apply(Underway(s, job, total, n), last)
  {
    var start := [ExecStart(job, Some(total))];
    var all := start + Steps(job, n) + [last];
    forall k: nat | k < |all| ensures Enabled(After(s, all[..k]), all[k]) {
      ScriptEnabled(s, job, total, n, last, k);
    }
    assert all[..|all| - 1] == start + Steps(job, n);
    AfterSteps(s, job, total, n);
  }

  lemma LastActionEnds(s: State, job: nat, job': Job, plan: seq<Command>, end: PlanEnd)
    requires job in s.jobs && job'.id == s.jobs[job].id
    ensures var s' := Apply(s.(t := Started(s.t, job'.id), jobs := s.jobs[job := job']), LastAction(job, plan, end));
            s'.t == Finished(Started(s.t, job'.id), job'.id, plan, end) && s'.jobs == s.jobs - {job}
  {
    assert s.jobs[job := job'] - {job} == s.jobs - {job};
  }

  /** `ExecutePlan` undisturbed is its job's stretch of actions: each is enabled in turn, and they
      leave the tables `Router.ExecutePlan` leaves. */
  lemma ExecutePlanIsScript(s: State, job: nat, plan: seq<Command>, w: World, end: PlanEnd)
    requires job in s.jobs && s.jobs[job].Launched? && EndsAs(plan, w, end)
    ensures Performable(s, Script(job, plan, end))
    ensures After(s, Script(job, plan, end)).t == Finished(Started(s.t, s.jobs[job].id), s.jobs[job].id, plan, end)
    ensures After(s, Script(job, plan, end)).jobs == s.jobs - {job}
  {
    ScriptEnds(s, job, |plan|, StepsDone(plan, end), LastAction(job, plan, end));
    LastActionEnds(s, job, Executes(s.jobs[job].id, StepsDone(plan, end), |plan|), plan, end);
  }
}
