/** The approval protocol as a transition system over the tables and the running executions.

    Granularity: the reads and writes of one handler form one action, ids and card message ids
    are fresh, and store calls succeed. Executing a plan takes several actions, so callbacks,
    revisions and expiry ticks fall between them. The code does not enforce the first assumption;
    ProtocolRaces shows what happens without it. */
module Protocol {
  import opened Options
  import opened ApprovalModels
  import opened ApprovalStore
  import opened ApprovalManager
  import opened ApprovalFlow
  import opened PlanExecution

  /** An `ExecutePlan` goroutine: not yet started, or past `done` of `total` steps. */
  datatype Job = Launched(id: string) | Executes(id: string, done: nat, total: nat)

  /** owner is a history variable: the conversation an approval was created for. */
  datatype State = State(t: Tables, jobs: map<nat, Job>, nextJob: nat, owner: map<string, string>)

  datatype Action =
    | Request(id: string, convId: string, alertId: string, planJson: string, msgId: string, now: int, ttl: int)
    | Analyse(convId: string, alertId: string, msgId: string)
    | Callback(id: string, action: CallbackAction, user: string, now: int)
    | Tick(now: int)
    | Revise(convId: string, id: string, planJson: string, msgId: string, now: int, ttl: int)
    | ExecStart(job: nat, steps: Option<nat>)
    | ExecStep(job: nat)
    | ExecFail(job: nat, comment: string)
    | ExecFinish(job: nat)
    | ExecCancel(job: nat)

  const INITIAL := State(Tables(map[], [], map[]), map[], 0, map[])

  ghost predicate Enabled(s: State, a: Action) {
    match a
    case Request(id, convId, _, _, msgId, _, _) =>
      id != "" && id !in s.t.approvals && convId !in s.t.conversations && !RootTaken(s.t, msgId)
    case Analyse(convId, _, msgId) => convId !in s.t.conversations && !RootTaken(s.t, msgId)
    case Callback(_, _, _, _) => true
    case Tick(_) => true
    case Revise(convId, id, _, _, _, _) => convId in s.t.conversations && id != "" && id !in s.t.approvals
    case ExecStart(j, _) => j in s.jobs && s.jobs[j].Launched?
    case ExecStep(j) => j in s.jobs && s.jobs[j].Executes? && s.jobs[j].done < s.jobs[j].total
    case ExecFail(j, _) => j in s.jobs && s.jobs[j].Executes? && s.jobs[j].done < s.jobs[j].total
    case ExecFinish(j) => j in s.jobs && s.jobs[j].Executes? && s.jobs[j].done == s.jobs[j].total
    case ExecCancel(j) => j in s.jobs && s.jobs[j].Executes?
  }

  function Announced(t: Tables, c: Conversation): Tables {
    if c.rootMessageId == "" then t else t.(conversations := t.conversations[c.id := c])
  }

  /** With a fresh root message id and row id the conversation upsert is an insert. */
  lemma AnnouncedIsAnnounces(t: Tables, c: Conversation)
    requires !RootTaken(t, c.rootMessageId) && c.id !in t.conversations
    ensures Announces(t, c, Announced(t, c))
  {
  }

  predicate Launches(t: Tables, id: string, action: CallbackAction, now: int) {
    Accepts(t, id, action, now) && action == Approve
  }

  function Apply(s: State, a: Action): State {
    match a
    case Request(id, convId, alertId, planJson, msgId, now, ttl) =>
      s.(t := Announced(Inserted(s.t, Fresh(id, alertId, planJson, msgId, now, ttl, "")),
                        Conversation(convId, alertId, id, msgId)),
         owner := if msgId == "" then s.owner else s.owner[id := convId])
    case Analyse(convId, alertId, msgId) =>
      s.(t := Announced(s.t, Conversation(convId, alertId, "", msgId)))
    case Callback(id, action, user, now) =>
      s.(t := CalledBack(s.t, id, action, user, now),
         jobs := if Launches(s.t, id, action, now) then s.jobs[s.nextJob := Launched(id)] else s.jobs,
         nextJob := if Launches(s.t, id, action, now) then s.nextJob + 1 else s.nextJob)
    case Tick(now) => s.(t := Ticked(s.t, now))
    case Revise(convId, id, planJson, msgId, now, ttl) =>
      if convId !in s.t.conversations || RevisionBlocked(s.t, s.t.conversations[convId]) then s
      else s.(t := Revised(s.t, s.t.conversations[convId], id, planJson, msgId, now, ttl),
        owner := s.owner[id := convId])
    case ExecStart(j, steps) =>
      if j !in s.jobs then s
      else if steps.None? then s.(jobs := s.jobs - {j})
      else s.(t := Started(s.t, s.jobs[j].id), jobs := s.jobs[j := Executes(s.jobs[j].id, 0, steps.value)])
    case ExecStep(j) =>
      if j in s.jobs && s.jobs[j].Executes? then s.(jobs := s.jobs[j := s.jobs[j].(done := s.jobs[j].done + 1)]) else s
    case ExecFail(j, comment) =>
      if j !in s.jobs then s
      else s.(t := WithStatus(s.t, s.jobs[j].id, Failed, "system", comment), jobs := s.jobs - {j})
    case ExecFinish(j) =>
      if j !in s.jobs then s
      else s.(t := WithStatus(s.t, s.jobs[j].id, Completed, "system", "all steps executed successfully"),
        jobs := s.jobs - {j})
    case ExecCancel(j) => s.(jobs := s.jobs - {j})
  }

  /** Each action leaves the tables that its handler leaves, and a job is launched exactly by a callback
      that approves. */
  lemma ActionsAreHandlers(s: State, a: Action)
    requires Enabled(s, a)
    ensures match a
      case Request(id, convId, alertId, planJson, msgId, now, ttl) =>
        Announces(Inserted(s.t, Fresh(id, alertId, planJson, msgId, now, ttl, "")),
                  Conversation(convId, alertId, id, msgId), Apply(s, a).t)
      case Analyse(convId, alertId, msgId) =>
        Announces(s.t, Conversation(convId, alertId, "", msgId), Apply(s, a).t)
      case Callback(id, action, user, now) => Apply(s, a).t == CalledBack(s.t, id, action, user, now)
      case Tick(now) => Apply(s, a).t == Ticked(s.t, now)
      case Revise(convId, id, planJson, msgId, now, ttl) =>
        Apply(s, a).t == Revised(s.t, s.t.conversations[convId], id, planJson, msgId, now, ttl)
      case _ => true
    ensures a.Callback? ==>
      Apply(s, a).jobs ==
        if a.id in s.t.approvals && a.action == Approve
          && s.t.approvals[a.id].status == Pending && a.now <= s.t.approvals[a.id].expiresAt
          then s.jobs[s.nextJob := Launched(a.id)]
        else s.jobs
  {
  }

  /** Callbacks and ticks come at any time; requests with fresh ids, revisions of any conversation and
      the start of a launched job are never held up. */
  lemma HandlersCanRun(s: State, a: Action)
    ensures a.Callback? || a.Tick? ==> Enabled(s, a)
    ensures a.Request? ==>
      var unused := forall c :: c in s.t.conversations ==> s.t.conversations[c].rootMessageId != a.msgId;
      unused && a.id != "" && a.id !in s.t.approvals && a.convId !in s.t.conversations ==> Enabled(s, a)
    ensures a.Revise? && a.convId in s.t.conversations && a.id != "" && a.id !in s.t.approvals ==> Enabled(s, a)
    ensures a.ExecStart? && a.job in s.jobs && s.jobs[a.job] == Launched(s.jobs[a.job].id) ==> Enabled(s, a)
  {
  }

  // ---------------------------------------------------------------------------------------
  // The invariant
  // ---------------------------------------------------------------------------------------

  predicate IsDead(s: Status) { s in {Rejected, Expired, Superseded, Modified} }

  /** One more than the row an id sits in, 0 for none. */
  function Position(rows: seq<string>, id: string): (p: nat)
    ensures p <= |rows|
    ensures p > 0 <==> id in rows
  {
    if rows == [] then 0
    else if rows[|rows| - 1] == id then |rows|
    else Position(rows[..|rows| - 1], id)
  }

  /** The status is a known one; a parent exists, is older, is dead and has the same conversation. */
  predicate ApprovalOk(t: Tables, owner: map<string, string>, id: string)
    requires id in t.approvals
  {
    var p := t.approvals[id].parentId;
    && !t.approvals[id].status.Other?
    && (p != "" ==>
      && p in t.approvals && Position(t.rows, p) < Position(t.rows, id) && IsDead(t.approvals[p].status)
      && id in owner && p in owner && owner[p] == owner[id])
  }

  predicate IsSuccessor(t: Tables, owner: map<string, string>, id: string, n: string) {
    id in owner && n in owner && n in t.approvals && owner[n] == owner[id] && t.approvals[n].parentId == id
  }

  predicate HasSuccessor(t: Tables, owner: map<string, string>, id: string) {
    exists n :: n in owner && IsSuccessor(t, owner, id, n)
  }

  /** The approval's conversation either points at it or has moved on from it: then it is dead
      and a later approval of the conversation names it as parent. */
  predicate OwnerOk(t: Tables, owner: map<string, string>, id: string)
    requires id in owner
  {
    && id in t.approvals && owner[id] in t.conversations
    && (t.conversations[owner[id]].approvalId != id ==> IsDead(t.approvals[id].status) && HasSuccessor(t, owner, id))
  }

  predicate ConversationOk(t: Tables, owner: map<string, string>, c: string)
    requires c in t.conversations
  {
    var head := t.conversations[c].approvalId;
    && t.conversations[c].id == c
    && if head == "" then forall id :: id in owner ==> owner[id] != c
       else head in t.approvals && head in owner && owner[head] == c
  }

  predicate Approvals(t: Tables, owner: map<string, string>) {
    Consistent(t) && "" !in t.approvals && forall id :: id in t.approvals ==> ApprovalOk(t, owner, id)
  }

  predicate Owners(t: Tables, owner: map<string, string>) {
    forall id :: id in owner ==> OwnerOk(t, owner, id)
  }

  predicate Conversations(t: Tables, owner: map<string, string>) {
    forall c :: c in t.conversations ==> ConversationOk(t, owner, c)
  }

  predicate JobOk(t: Tables, job: Job) {
    job.id in t.approvals && t.approvals[job.id].status == if job.Launched? then Approved else Executing
  }

  predicate Jobs(t: Tables, jobs: map<nat, Job>, nextJob: nat) {
    && (forall j :: j in jobs ==> j < nextJob && JobOk(t, jobs[j]))
    && (forall j, k :: j in jobs && k in jobs && jobs[j].id == jobs[k].id ==> j == k)
  }

  predicate Inv(s: State) {
    Approvals(s.t, s.owner) && Owners(s.t, s.owner) && Conversations(s.t, s.owner) && Jobs(s.t, s.jobs, s.nextJob)
  }

  // ---------------------------------------------------------------------------------------
  // Steps that change statuses only
  // ---------------------------------------------------------------------------------------

  /** The status moved along an edge of the transition table, and not out of `modified`. */
  predicate RecordStep(r: ApprovalRecord, r': ApprovalRecord) {
    && r'.id == r.id && r'.parentId == r.parentId && r'.expiresAt == r.expiresAt
    && (r'.status == r.status || (CanTransitionTo(r.status, r'.status) && r.status != Modified))
  }

  /** The tables differ in statuses (with their approver and comment) alone. */
  predicate StatusStep(t: Tables, u: Tables) {
    && u.rows == t.rows && u.conversations == t.conversations && u.approvals.Keys == t.approvals.Keys
    && forall id :: id in t.approvals ==> RecordStep(t.approvals[id], u.approvals[id])
  }

  lemma SetStatusIsStep(t: Tables, id: string, status: Status, approver: string, comment: string)
    requires id in t.approvals ==> CanTransitionTo(t.approvals[id].status, status) && t.approvals[id].status != Modified
    ensures StatusStep(t, WithStatus(t, id, status, approver, comment))
  {
  }

  /** What is approved or executing keeps its status. */
  predicate ActiveUntouched(t: Tables, u: Tables) {
    forall id :: id in t.approvals && t.approvals[id].status in {Approved, Executing} ==>
      id in u.approvals && u.approvals[id].status == t.approvals[id].status
  }

  lemma CallbackIsStep(t: Tables, id: string, action: CallbackAction, user: string, now: int)
    ensures StatusStep(t, CalledBack(t, id, action, user, now))
    ensures ActiveUntouched(t, CalledBack(t, id, action, user, now))
    ensures Accepts(t, id, action, now) && action == Approve ==>
      JobOk(CalledBack(t, id, action, user, now), Launched(id))
  {
    if Accepts(t, id, action, now) {
      SetStatusIsStep(t, id, StatusFromAction(action).value, user, "");
    } else if Lapses(t, id, action, now) {
      SetStatusIsStep(t, id, Expired, "", "auto-expired");
    }
  }

  lemma TickIsStep(t: Tables, now: int)
    requires Consistent(t)
    ensures StatusStep(t, Ticked(t, now))
    ensures forall id :: id in t.approvals && t.approvals[id].status != Pending ==>
      Ticked(t, now).approvals[id] == t.approvals[id]
  {
    var u := Ticked(t, now);
    ExpiredAmongFrame(t, Listed(t, Pending, PAGE), now);
    forall id | id in t.approvals
      ensures RecordStep(t.approvals[id], u.approvals[id])
      ensures t.approvals[id].status != Pending ==> u.approvals[id] == t.approvals[id]
    {
      TickMeans(t, now, id);
      if t.approvals[id] in Listed(t, Pending, PAGE) {
        OrderedIff(t, Pending, t.approvals[id]);
      }
    }
  }

  lemma RecordStepFacts(r: ApprovalRecord, r': ApprovalRecord)
    requires RecordStep(r, r')
    ensures IsDead(r.status) ==> r'.status == r.status
    ensures !r.status.Other? ==> !r'.status.Other?
  {
    TableShape(r.status, r'.status);
  }

  lemma StatusStepConsistent(t: Tables, u: Tables)
    requires Consistent(t) && StatusStep(t, u)
    ensures Consistent(u)
  {
    forall id | id in u.approvals ensures id in u.rows && u.approvals[id].id == id {
      assert id in t.approvals && RecordStep(t.approvals[id], u.approvals[id]);
    }
  }

  lemma StatusStepApproval(t: Tables, u: Tables, owner: map<string, string>, id: string)
    requires id in t.approvals && ApprovalOk(t, owner, id) && StatusStep(t, u)
    ensures id in u.approvals && ApprovalOk(u, owner, id)
  {
    var p := t.approvals[id].parentId;
    RecordStepFacts(t.approvals[id], u.approvals[id]);
    if p != "" { RecordStepFacts(t.approvals[p], u.approvals[p]); }
  }

  lemma StatusStepApprovals(t: Tables, u: Tables, owner: map<string, string>)
    requires Approvals(t, owner) && StatusStep(t, u)
    ensures Approvals(u, owner)
  {
    StatusStepConsistent(t, u);
    forall id | id in u.approvals ensures ApprovalOk(u, owner, id) {
      StatusStepApproval(t, u, owner, id);
    }
  }

  lemma StatusStepOwners(t: Tables, u: Tables, owner: map<string, string>)
    requires Owners(t, owner) && StatusStep(t, u)
    ensures Owners(u, owner)
  {
    forall id | id in owner ensures OwnerOk(u, owner, id) {
      assert OwnerOk(t, owner, id);
      RecordStepFacts(t.approvals[id], u.approvals[id]);
      if t.conversations[owner[id]].approvalId != id {
        var n :| n in owner && IsSuccessor(t, owner, id, n);
        assert RecordStep(t.approvals[n], u.approvals[n]);
        assert IsSuccessor(u, owner, id, n);
      }
    }
  }

  lemma StatusStepConversations(t: Tables, u: Tables, owner: map<string, string>)
    requires Conversations(t, owner) && StatusStep(t, u)
    ensures Conversations(u, owner)
  {
    forall c | c in u.conversations ensures ConversationOk(u, owner, c) {
      assert ConversationOk(t, owner, c);
    }
  }

  /** Everything the invariant says of the tables survives a status step. */
  lemma StatusStepKeeps(t: Tables, u: Tables, owner: map<string, string>)
    requires Approvals(t, owner) && Owners(t, owner) && Conversations(t, owner) && StatusStep(t, u)
    ensures Approvals(u, owner) && Owners(u, owner) && Conversations(u, owner)
  {
    StatusStepApprovals(t, u, owner);
    StatusStepOwners(t, u, owner);
    StatusStepConversations(t, u, owner);
  }

  lemma JobsStay(t: Tables, u: Tables, jobs: map<nat, Job>, nextJob: nat)
    requires Jobs(t, jobs, nextJob) && ActiveUntouched(t, u)
    ensures Jobs(u, jobs, nextJob)
  {
    forall j | j in jobs ensures JobOk(u, jobs[j]) {
      assert JobOk(t, jobs[j]);
    }
  }

  lemma JobsDropped(t: Tables, u: Tables, jobs: map<nat, Job>, nextJob: nat, job: nat)
    requires Jobs(t, jobs, nextJob) && job in jobs
    requires forall id :: id in t.approvals && id != jobs[job].id ==>
      id in u.approvals && u.approvals[id] == t.approvals[id]
    ensures Jobs(u, jobs - {job}, nextJob)
  {
    forall j | j in jobs - {job} ensures j < nextJob && JobOk(u, jobs[j]) {
      assert JobOk(t, jobs[j]);
    }
  }

  lemma JobsUpdated(t: Tables, u: Tables, jobs: map<nat, Job>, nextJob: nat, job: nat, job': Job)
    requires Jobs(t, jobs, nextJob) && job in jobs && job'.id == jobs[job].id && JobOk(u, job')
    requires forall id :: id in t.approvals && id != job'.id ==> id in u.approvals && u.approvals[id] == t.approvals[id]
    ensures Jobs(u, jobs[job := job'], nextJob)
  {
    forall j | j in jobs && j != job ensures JobOk(u, jobs[j]) {
      assert JobOk(t, jobs[j]);
    }
  }

  lemma JobsLaunched(t: Tables, u: Tables, jobs: map<nat, Job>, nextJob: nat, id: string)
    requires Jobs(t, jobs, nextJob) && ActiveUntouched(t, u) && JobOk(u, Launched(id))
    requires id in t.approvals ==> t.approvals[id].status == Pending
    ensures Jobs(u, jobs[nextJob := Launched(id)], nextJob + 1)
  {
    JobsStay(t, u, jobs, nextJob);
    forall j | j in jobs ensures j < nextJob && jobs[j].id != id {
      assert JobOk(t, jobs[j]);
    }
  }

  lemma CallbackJobs(s: State, id: string, action: CallbackAction, user: string, now: int)
    requires Jobs(s.t, s.jobs, s.nextJob)
    ensures var s' := Apply(s, Callback(id, action, user, now)); Jobs(s'.t, s'.jobs, s'.nextJob)
  {
    CallbackIsStep(s.t, id, action, user, now);
    if Accepts(s.t, id, action, now) && action == Approve {
      JobsLaunched(s.t, CalledBack(s.t, id, action, user, now), s.jobs, s.nextJob, id);
    } else {
      JobsStay(s.t, CalledBack(s.t, id, action, user, now), s.jobs, s.nextJob);
    }
  }

  lemma CallbackKeeps(s: State, id: string, action: CallbackAction, user: string, now: int)
    requires Inv(s)
    ensures Inv(Apply(s, Callback(id, action, user, now)))
  {
    CallbackIsStep(s.t, id, action, user, now);
    StatusStepKeeps(s.t, CalledBack(s.t, id, action, user, now), s.owner);
    CallbackJobs(s, id, action, user, now);
  }

  lemma TickKeeps(s: State, now: int)
    requires Inv(s)
    ensures Inv(Apply(s, Tick(now)))
  {
    var u := Ticked(s.t, now);
    TickIsStep(s.t, now);
    StatusStepKeeps(s.t, u, s.owner);
    JobsStay(s.t, u, s.jobs, s.nextJob);
  }

  predicate IsExec(a: Action) {
    a.ExecStart? || a.ExecStep? || a.ExecFail? || a.ExecFinish? || a.ExecCancel?
  }

  lemma StartIsStep(s: State, job: nat, steps: Option<nat>)
    requires Jobs(s.t, s.jobs, s.nextJob) && Enabled(s, ExecStart(job, steps))
    ensures var s' := Apply(s, ExecStart(job, steps)); StatusStep(s.t, s'.t) && Jobs(s'.t, s'.jobs, s'.nextJob)
  {
    var id := s.jobs[job].id;
    assert JobOk(s.t, s.jobs[job]);
    SetStatusIsStep(s.t, id, Executing, "system", "");
    if steps.None? {
      JobsDropped(s.t, s.t, s.jobs, s.nextJob, job);
    } else {
      JobsUpdated(s.t, Started(s.t, id), s.jobs, s.nextJob, job, Executes(id, 0, steps.value));
    }
  }

  lemma EndIsStep(t: Tables, jobs: map<nat, Job>, nextJob: nat, job: nat, status: Status, comment: string)
    requires Jobs(t, jobs, nextJob) && job in jobs && jobs[job].Executes? && status in {Completed, Failed}
    ensures var u := WithStatus(t, jobs[job].id, status, "system", comment);
            StatusStep(t, u) && Jobs(u, jobs - {job}, nextJob)
  {
    assert JobOk(t, jobs[job]);
    SetStatusIsStep(t, jobs[job].id, status, "system", comment);
    JobsDropped(t, WithStatus(t, jobs[job].id, status, "system", comment), jobs, nextJob, job);
  }

  lemma ExecIsStep(s: State, a: Action)
    requires Jobs(s.t, s.jobs, s.nextJob) && IsExec(a) && Enabled(s, a)
    ensures StatusStep(s.t, Apply(s, a).t)
    ensures Jobs(Apply(s, a).t, Apply(s, a).jobs, Apply(s, a).nextJob)
  {
    match a {
      case ExecStart(j, steps) => StartIsStep(s, j, steps);
      case ExecStep(j) =>
        assert JobOk(s.t, s.jobs[j]);
        JobsUpdated(s.t, s.t, s.jobs, s.nextJob, j, s.jobs[j].(done := s.jobs[j].done + 1));
      case ExecFail(j, comment) => EndIsStep(s.t, s.jobs, s.nextJob, j, Failed, comment);
      case ExecFinish(j) => EndIsStep(s.t, s.jobs, s.nextJob, j, Completed, "all steps executed successfully");
      case ExecCancel(j) => JobsDropped(s.t, s.t, s.jobs, s.nextJob, j);
    }
  }

  lemma ExecKeepsOwners(s: State, a: Action)
    requires IsExec(a) && Enabled(s, a)
    ensures Apply(s, a).owner == s.owner
  {
  }

  lemma InvAfterStatusStep(s: State, s': State)
    requires Inv(s) && StatusStep(s.t, s'.t) && s'.owner == s.owner && Jobs(s'.t, s'.jobs, s'.nextJob)
    ensures Inv(s')
  {
    StatusStepKeeps(s.t, s'.t, s.owner);
  }

  lemma ExecKeeps(s: State, a: Action)
    requires Inv(s) && IsExec(a) && Enabled(s, a)
    ensures Inv(Apply(s, a))
  {
    ExecIsStep(s, a);
    ExecKeepsOwners(s, a);
    InvAfterStatusStep(s, Apply(s, a));
  }

  // ---------------------------------------------------------------------------------------
  // Steps that add rows
  // ---------------------------------------------------------------------------------------

  lemma PositionSnoc(rows: seq<string>, id: string, x: string)
    requires id !in rows
    ensures Position(rows + [id], x) == if x == id then |rows| + 1 else Position(rows, x)
  {
    assert (rows + [id])[..|rows|] == rows;
  }

  /** r becomes the current approval of conversation c, new or existing; what c pointed at before
      is r's parent and is dead. */
  predicate AddsHead(t: Tables, r: ApprovalRecord, c: string, conv: Conversation) {
    && r.id != "" && r.id !in t.approvals && r.status == Pending
    && conv.id == c && conv.approvalId == r.id
    && r.parentId == (if c in t.conversations then t.conversations[c].approvalId else "")
    && (r.parentId in t.approvals ==> IsDead(t.approvals[r.parentId].status))
  }

  function HeadAdded(t: Tables, r: ApprovalRecord, c: string, conv: Conversation): Tables {
    Tables(t.approvals[r.id := r], t.rows + [r.id], t.conversations[c := conv])
  }

  /** An old approval is as fine as before when a row is added behind it. */
  lemma ApprovalStays(t: Tables, owner: map<string, string>, r: ApprovalRecord, owner': map<string, string>, x: string)
    requires x in t.approvals && ApprovalOk(t, owner, x) && r.id !in t.approvals && r.id !in t.rows
    requires forall id :: id in owner && id in t.approvals ==> id in owner' && owner'[id] == owner[id]
    ensures x in Inserted(t, r).approvals && ApprovalOk(Inserted(t, r), owner', x)
  {
    PositionSnoc(t.rows, r.id, x);
    PositionSnoc(t.rows, r.id, t.approvals[x].parentId);
  }

  lemma NewHeadOk(t: Tables, owner: map<string, string>, r: ApprovalRecord, c: string, conv: Conversation)
    requires Consistent(t) && "" !in t.approvals && Conversations(t, owner) && AddsHead(t, r, c, conv)
    ensures ApprovalOk(Inserted(t, r), owner[r.id := c], r.id)
  {
    PositionSnoc(t.rows, r.id, r.id);
    if r.parentId != "" {
      assert ConversationOk(t, owner, c);
      PositionSnoc(t.rows, r.id, r.parentId);
    }
  }

  lemma AddHeadApprovals(t: Tables, owner: map<string, string>, r: ApprovalRecord, c: string, conv: Conversation)
    requires Approvals(t, owner) && Conversations(t, owner) && AddsHead(t, r, c, conv)
    ensures Approvals(Inserted(t, r), owner[r.id := c])
  {
    var u, owner' := Inserted(t, r), owner[r.id := c];
    InsertedConsistent(t, r);
    assert r.id !in t.rows;
    forall x | x in u.approvals ensures ApprovalOk(u, owner', x) {
      if x == r.id {
        NewHeadOk(t, owner, r, c, conv);
      } else {
        ApprovalStays(t, owner, r, owner', x);
      }
    }
  }

  /** Approvals do not depend on the conversation rows. */
  lemma ApprovalsAlone(t: Tables, u: Tables, owner: map<string, string>)
    requires Approvals(t, owner) && u.approvals == t.approvals && u.rows == t.rows
    ensures Approvals(u, owner)
  {
    forall x | x in u.approvals ensures ApprovalOk(u, owner, x) {
      assert ApprovalOk(t, owner, x);
    }
  }

  /** The old rows stay as they are: their owners keep pointing at, or keep a successor. */
  lemma OwnerStays(t: Tables, owner: map<string, string>, u: Tables, owner': map<string, string>, x: string)
    requires x in owner && OwnerOk(t, owner, x)
    requires forall id :: id in t.approvals ==> id in u.approvals && u.approvals[id] == t.approvals[id]
    requires forall id :: id in owner && id in t.approvals ==> id in owner' && owner'[id] == owner[id]
    requires owner[x] in u.conversations
    requires t.conversations[owner[x]].approvalId == x ==> u.conversations[owner[x]].approvalId == x
    ensures x in owner' && OwnerOk(u, owner', x)
  {
    if t.conversations[owner[x]].approvalId != x {
      var n :| n in owner && IsSuccessor(t, owner, x, n);
      assert IsSuccessor(u, owner', x, n);
    }
  }

  lemma AddHeadOwner(t: Tables, owner: map<string, string>, r: ApprovalRecord, c: string, conv: Conversation, x: string)
    requires Approvals(t, owner) && Owners(t, owner) && AddsHead(t, r, c, conv) && x in owner && x != r.id
    ensures OwnerOk(HeadAdded(t, r, c, conv), owner[r.id := c], x)
  {
    var u, owner' := HeadAdded(t, r, c, conv), owner[r.id := c];
    assert OwnerOk(t, owner, x);
    if owner[x] == c && t.conversations[c].approvalId == x {
      assert IsSuccessor(u, owner', x, r.id);
    } else {
      OwnerStays(t, owner, u, owner', x);
    }
  }

  lemma AddHeadOwners(t: Tables, owner: map<string, string>, r: ApprovalRecord, c: string, conv: Conversation)
    requires Approvals(t, owner) && Owners(t, owner) && AddsHead(t, r, c, conv)
    ensures Owners(HeadAdded(t, r, c, conv), owner[r.id := c])
  {
    var u, owner' := HeadAdded(t, r, c, conv), owner[r.id := c];
    forall x | x in owner' ensures OwnerOk(u, owner', x) {
      if x != r.id { AddHeadOwner(t, owner, r, c, conv, x); }
    }
  }

  lemma AddHeadConversations(t: Tables, owner: map<string, string>, r: ApprovalRecord, c: string, conv: Conversation)
    requires Owners(t, owner) && Conversations(t, owner) && AddsHead(t, r, c, conv)
    ensures Conversations(HeadAdded(t, r, c, conv), owner[r.id := c])
  {
    var u, owner' := HeadAdded(t, r, c, conv), owner[r.id := c];
    forall x | x in owner ensures x != r.id {
      assert OwnerOk(t, owner, x);
    }
    forall d | d in u.conversations ensures ConversationOk(u, owner', d) {
      if d != c { assert ConversationOk(t, owner, d); }
    }
  }

  lemma AddHeadKeeps(s: State, r: ApprovalRecord, c: string, conv: Conversation)
    requires Inv(s) && AddsHead(s.t, r, c, conv)
    ensures Inv(s.(t := HeadAdded(s.t, r, c, conv), owner := s.owner[r.id := c]))
  {
    AddHeadApprovals(s.t, s.owner, r, c, conv);
    ApprovalsAlone(Inserted(s.t, r), HeadAdded(s.t, r, c, conv), s.owner[r.id := c]);
    AddHeadOwners(s.t, s.owner, r, c, conv);
    AddHeadConversations(s.t, s.owner, r, c, conv);
    JobsStay(s.t, HeadAdded(s.t, r, c, conv), s.jobs, s.nextJob);
  }

  lemma AddLooseApprovals(t: Tables, owner: map<string, string>, r: ApprovalRecord)
    requires Approvals(t, owner) && r.id != "" && r.id !in t.approvals && r.status == Pending && r.parentId == ""
    ensures Approvals(Inserted(t, r), owner)
  {
    var u := Inserted(t, r);
    InsertedConsistent(t, r);
    assert r.id !in t.rows;
    forall x | x in u.approvals ensures ApprovalOk(u, owner, x) {
      if x != r.id { ApprovalStays(t, owner, r, owner, x); }
    }
  }

  /** An approval whose card got no message id: a row outside every conversation. */
  lemma AddLooseKeeps(s: State, r: ApprovalRecord)
    requires Inv(s) && r.id != "" && r.id !in s.t.approvals && r.status == Pending && r.parentId == ""
    ensures Inv(s.(t := Inserted(s.t, r)))
  {
    var u := Inserted(s.t, r);
    AddLooseApprovals(s.t, s.owner, r);
    forall x | x in s.owner ensures OwnerOk(u, s.owner, x) {
      assert OwnerOk(s.t, s.owner, x);
      OwnerStays(s.t, s.owner, u, s.owner, x);
    }
    forall c | c in u.conversations ensures ConversationOk(u, s.owner, c) {
      assert ConversationOk(s.t, s.owner, c);
    }
    JobsStay(s.t, u, s.jobs, s.nextJob);
  }

  /** A conversation without an approval. */
  lemma AddConversationKeeps(s: State, c: Conversation)
    requires Inv(s) && c.id !in s.t.conversations && c.approvalId == ""
    ensures Inv(s.(t := s.t.(conversations := s.t.conversations[c.id := c])))
  {
    var u := s.t.(conversations := s.t.conversations[c.id := c]);
    ApprovalsAlone(s.t, u, s.owner);
    forall x | x in s.owner ensures OwnerOk(u, s.owner, x) && s.owner[x] != c.id {
      assert OwnerOk(s.t, s.owner, x);
      OwnerStays(s.t, s.owner, u, s.owner, x);
    }
    forall d | d in u.conversations ensures ConversationOk(u, s.owner, d) {
      if d in s.t.conversations { assert ConversationOk(s.t, s.owner, d); }
    }
    JobsStay(s.t, u, s.jobs, s.nextJob);
  }

  lemma RequestKeeps(s: State, a: Action)
    requires Inv(s) && a.Request? && Enabled(s, a)
    ensures Inv(Apply(s, a))
  {
    var r := Fresh(a.id, a.alertId, a.planJson, a.msgId, a.now, a.ttl, "");
    if a.msgId == "" {
      AddLooseKeeps(s, r);
    } else {
      AddHeadKeeps(s, r, a.convId, Conversation(a.convId, a.alertId, a.id, a.msgId));
    }
  }

  lemma AnalyseKeeps(s: State, a: Action)
    requires Inv(s) && a.Analyse? && Enabled(s, a)
    ensures Inv(Apply(s, a))
  {
    if a.msgId != "" {
      AddConversationKeeps(s, Conversation(a.convId, a.alertId, "", a.msgId));
    }
  }

  /** Superseding the old head and then adding the new one gives what the handler's writes give. */
  lemma RevisionIsAddHead(t: Tables, conv: Conversation, id: string, planJson: string, msgId: string, now: int,
          ttl: int)
    requires conv.id in t.conversations && t.conversations[conv.id] == conv
    requires id !in t.approvals && conv.approvalId != id
    ensures RevisionWrites(t, conv, id, planJson, msgId, now, ttl) ==
      HeadAdded(Superseding(t, conv.approvalId, id),
                Fresh(id, conv.alertId, planJson, msgId, now, ttl, conv.approvalId),
                conv.id, conv.(approvalId := id))
  {
  }

  lemma SupersedeKeeps(s: State, parent: string, successor: string)
    requires Inv(s)
    ensures StatusStep(s.t, Superseding(s.t, parent, successor)) && Inv(s.(t := Superseding(s.t, parent, successor)))
  {
    var u := Superseding(s.t, parent, successor);
    if parent != "" && parent in s.t.approvals && s.t.approvals[parent].status == Pending {
      SetStatusIsStep(s.t, parent, Superseded, "system", "superseded by revised plan " + successor);
    }
    StatusStepKeeps(s.t, u, s.owner);
    JobsStay(s.t, u, s.jobs, s.nextJob);
  }

  /** Past the guard, the head a revision replaces is dead once it is superseded if pending. */
  lemma RevisedParentDead(t: Tables, owner: map<string, string>, conv: Conversation, id: string)
    requires Approvals(t, owner) && !RevisionBlocked(t, conv)
    ensures var u := Superseding(t, conv.approvalId, id);
            conv.approvalId in u.approvals ==> IsDead(u.approvals[conv.approvalId].status)
  {
    if conv.approvalId in t.approvals { assert ApprovalOk(t, owner, conv.approvalId); }
  }

  lemma ReviseKeeps(s: State, a: Action)
    requires Inv(s) && a.Revise? && Enabled(s, a)
    ensures Inv(Apply(s, a))
  {
    var conv := s.t.conversations[a.convId];
    assert ConversationOk(s.t, s.owner, a.convId);
    if !RevisionBlocked(s.t, conv) {
      SupersedeKeeps(s, conv.approvalId, a.id);
      RevisedParentDead(s.t, s.owner, conv, a.id);
      RevisionIsAddHead(s.t, conv, a.id, a.planJson, a.msgId, a.now, a.ttl);
      AddHeadKeeps(s.(t := Superseding(s.t, conv.approvalId, a.id)),
                   Fresh(a.id, conv.alertId, a.planJson, a.msgId, a.now, a.ttl, conv.approvalId),
                   a.convId, conv.(approvalId := a.id));
    }
  }

  /** Every action keeps the invariant. */
  lemma StepKeeps(s: State, a: Action)
    requires Inv(s) && Enabled(s, a)
    ensures Inv(Apply(s, a))
  {
    match a
    case Request(_, _, _, _, _, _, _) => RequestKeeps(s, a);
    case Analyse(_, _, _) => AnalyseKeeps(s, a);
    case Callback(id, action, user, now) => CallbackKeeps(s, id, action, user, now);
    case Tick(now) => TickKeeps(s, now);
    case Revise(_, _, _, _, _, _) => ReviseKeeps(s, a);
    case _ => ExecKeeps(s, a);
  }
}
