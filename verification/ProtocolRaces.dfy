/** Why the protocol's claims need whole handlers as steps. The handlers read a status and write
    later without looking again, and the store's UPDATE is unconditional; each lemma splits one
    handler between its read and its write. */
module ProtocolRaces {
  import opened Options
  import opened ApprovalModels
  import opened ApprovalStore
  import opened ApprovalManager
  import opened ApprovalFlow
  import opened Protocol

  predicate IsExecuting(s: State, x: string) {
    x in s.t.approvals && s.t.approvals[x].status == Executing
  }

  /** An approve callback for x and the start of the execution it launches. */
  function ApprovedAndStarted(s: State, x: string, user: string, now: int, steps: nat): State {
    Apply(Apply(s, Callback(x, Approve, user, now)), ExecStart(s.nextJob, Some(steps)))
  }

  lemma ApprovalRuns(s: State, x: string, user: string, now: int, steps: nat)
    requires Accepts(s.t, x, Approve, now)
    ensures var u := ApprovedAndStarted(s, x, user, now, steps);
      IsExecuting(u, x) && u.t.conversations == s.t.conversations && u.t.approvals.Keys == s.t.approvals.Keys
      && forall y :: y in s.t.approvals && y != x ==> u.t.approvals[y] == s.t.approvals[y]
  {
  }

  lemma LateRevision(t: Tables, conv: Conversation, id: string, planJson: string, msgId: string, now: int, ttl: nat)
    requires conv.approvalId in t.approvals && t.approvals[conv.approvalId].status == Executing
    requires id !in t.approvals && conv.id in t.conversations
    ensures var u := RevisionWrites(t, conv, id, planJson, msgId, now, ttl);
      Accepts(u, id, Approve, now) && u.approvals[id].parentId == conv.approvalId
      && conv.approvalId in u.approvals && u.approvals[conv.approvalId] == t.approvals[conv.approvalId]
      && conv.id in u.conversations && u.conversations[conv.id].approvalId == id
  {
  }

  /** Wherever a conversation's current approval x is pending and within its deadline, a revision
      that passes its guard first and writes only after x was approved and started leaves two
      approvals of one conversation executing, the older one the parent of the newer. */
  lemma RevisionRace(s: State, c: string, id: string, planJson: string, msgId: string, now: int, ttl: nat,
          user: string, steps: nat)
    requires c in s.t.conversations && s.t.conversations[c].id == c && id !in s.t.approvals
    requires Accepts(s.t, s.t.conversations[c].approvalId, Approve, now)
    ensures !RevisionBlocked(s.t, s.t.conversations[c])
    ensures var conv := s.t.conversations[c];
      var running := ApprovedAndStarted(s, conv.approvalId, user, now, steps);
      var revised := running.(t := RevisionWrites(running.t, conv, id, planJson, msgId, now, ttl));
      var both := ApprovedAndStarted(revised, id, user, now, steps);
      IsExecuting(both, conv.approvalId) && IsExecuting(both, id)
      && both.t.approvals[id].parentId == conv.approvalId && both.t.conversations[c].approvalId == id
  {
    var conv := s.t.conversations[c];
    var running := ApprovedAndStarted(s, conv.approvalId, user, now, steps);
    ApprovalRuns(s, conv.approvalId, user, now, steps);
    LateRevision(running.t, conv, id, planJson, msgId, now, ttl);
    var revised := running.(t := RevisionWrites(running.t, conv, id, planJson, msgId, now, ttl));
    ApprovalRuns(revised, id, user, now, steps);
  }

  /** A callback that read x pending in time and writes after an expiry tick takes x from expired
      to approved, which is no edge of the table. */
  lemma ExpiryRace(t: Tables, x: string, user: string, now: int, later: int)
    requires Consistent(t) && Accepts(t, x, Approve, now) && Expires(t, Listed(t, Pending, PAGE), later, x)
    ensures var expired := Ticked(t, later);
      x in expired.approvals && expired.approvals[x].status == Expired
      && WithStatus(expired, x, Approved, user, "").approvals[x].status == Approved
      && !CanTransitionTo(Expired, Approved)
  {
    TickMeans(t, later, x);
  }

  /** A revision that read its parent pending and writes `superseded` after the parent was
      approved: the superseded approval's execution then starts all the same. */
  lemma SupersedeRace(s: State, x: string, successor: string, user: string, now: int, steps: nat)
    requires Accepts(s.t, x, Approve, now)
    ensures var approved := Apply(s, Callback(x, Approve, user, now));
      var note := "superseded by revised plan " + successor;
      var superseded := approved.(t := WithStatus(approved.t, x, Superseded, "system", note));
      !CanTransitionTo(Approved, Superseded) && superseded.t.approvals[x].status == Superseded
      && Enabled(superseded, ExecStart(s.nextJob, Some(steps)))
      && IsExecuting(Apply(superseded, ExecStart(s.nextJob, Some(steps))), x)
  {
  }

  /** A revision that cannot read the current approval x: it passes its guard whatever x is, and does
      not supersede x. A pending x stays pending beside its successor, a running x keeps running. */
  lemma UnreadRevision(t: Tables, conv: Conversation, id: string, planJson: string, msgId: string, now: int, ttl: nat)
    requires conv.id in t.conversations && conv.approvalId in t.approvals && id !in t.approvals
    ensures var r := Fresh(id, conv.alertId, planJson, msgId, now, ttl, conv.approvalId);
      var u := PointedAt(Inserted(t, r), conv.id, id);
      && conv.approvalId in u.approvals && u.approvals[conv.approvalId] == t.approvals[conv.approvalId]
      && Accepts(u, id, Approve, now) && u.approvals[id].parentId == conv.approvalId
      && conv.id in u.conversations && u.conversations[conv.id].approvalId == id
  {
  }
}
