/** The components that write approvals besides the manager: the pipeline's creation and callback
    paths and the chat orchestrator's revision. Each handler reads the tables it finds and leaves
    the tables described by a function of them. */
module ApprovalFlow {
  import opened Options
  import opened ApprovalModels
  import opened ApprovalStore
  import opened ApprovalManager

  // ---------------------------------------------------------------------------------------
  // Revision
  // ---------------------------------------------------------------------------------------

  /** The conversation's approval is already being acted on, or was. */
  predicate RevisionBlocked(t: Tables, conv: Conversation) {
    && conv.approvalId != "" && conv.approvalId in t.approvals
    && t.approvals[conv.approvalId].status in {Approved, Executing, Completed, Failed}
  }

  function Superseding(t: Tables, parent: string, successor: string): Tables {
    if parent != "" && parent in t.approvals && t.approvals[parent].status == Pending
    then WithStatus(t, parent, Superseded, "system", "superseded by revised plan " + successor)
    else t
  }

  /** The writes of a revision, made for the conversation row `conv` the handler read earlier. */
  function RevisionWrites(t: Tables, conv: Conversation, id: string, planJson: string, msgId: string, now: int,
          ttl: int): Tables {
    var created := Inserted(t, Fresh(id, conv.alertId, planJson, msgId, now, ttl, conv.approvalId));
    PointedAt(Superseding(created, conv.approvalId, id), conv.id, id)
  }

  /** The whole handler when nothing happens between its reads and its writes. */
  function Revised(t: Tables, conv: Conversation, id: string, planJson: string, msgId: string, now: int,
          ttl: int): Tables {
    if RevisionBlocked(t, conv) || id in t.approvals then t
    else RevisionWrites(t, conv, id, planJson, msgId, now, ttl)
  }

  /** What a revision does to the tables, row by row. */
  lemma RevisionMeans(t: Tables, conv: Conversation, id: string, planJson: string, msgId: string, now: int, ttl: int)
    requires id !in t.approvals && id != conv.approvalId
    ensures var u, x := Revised(t, conv, id, planJson, msgId, now, ttl), conv.approvalId;
      if x != "" && x in t.approvals && t.approvals[x].status in {Approved, Executing, Completed, Failed} then u == t
      else
        && u.rows == t.rows + [id] && u.approvals.Keys == t.approvals.Keys + {id}
        && u.approvals[id] == ApprovalRecord(id, conv.alertId, planJson, Pending, now, "", "", msgId, now + ttl, x)
        && (forall y :: y in t.approvals && y != x ==> u.approvals[y] == t.approvals[y])
        && (x in t.approvals && (x == "" || t.approvals[x].status != Pending) ==> u.approvals[x] == t.approvals[x])
        && (x in t.approvals && x != "" && t.approvals[x].status == Pending ==>
              var note := "superseded by revised plan " + id;
              u.approvals[x] == t.approvals[x].(status := Superseded, approverId := "system", comment := note))
        && u.conversations ==
          if conv.id !in t.conversations then t.conversations
          else t.conversations[conv.id := t.conversations[conv.id].(approvalId := id)]
  {
  }

  datatype Reply = NoPlan | Refused | ContextMissing | SendFailed | PlanSent

  class Orchestrator {
    const st: Store
    const manager: Manager
    const ttl: int

    constructor (st: Store, manager: Manager, ttl: int)
      requires manager.st == st
      ensures this.st == st && this.manager == manager && this.ttl == ttl
    {
      this.st, this.manager, this.ttl := st, manager, ttl;
    }

    /** sent is the message id `SendHealingPlan` returned, None on its error. */
    method HandleRevisedPlan(conv: Conversation, hasPlan: bool, contextLoaded: bool, sent: Option<string>,
                             id: string, planJson: string, now: int) returns (reply: Reply)
      requires manager.st == st
      modifies st
      ensures reply == PlanSent <==>
        hasPlan && contextLoaded && sent.Some? && !RevisionBlocked(old(st.View()), conv)
      ensures reply == NoPlan <==> !hasPlan
      ensures reply == Refused <==>
        hasPlan && conv.approvalId != "" && conv.approvalId in old(st.approvals)
        && old(st.approvals)[conv.approvalId].status in {Approved, Executing, Completed, Failed}
      ensures reply == ContextMissing <==> hasPlan && !contextLoaded && reply != Refused
      ensures st.View() == if reply == PlanSent
        then Revised(old(st.View()), conv, id, planJson, sent.value, now, ttl) else old(st.View())
    {
      if !hasPlan {
        return NoPlan;
      }
      if conv.approvalId != "" {
        var prev := st.GetApproval(conv.approvalId);
        if prev.Some? {
          match prev.value.status
          case Approved => return Refused;
          case Executing => return Refused;
          case Completed => return Refused;
          case Failed => return Refused;
          case _ =>
        }
      }
      if !contextLoaded {
        return ContextMissing;
      }
      if sent.None? {
        return SendFailed;
      }
      var parent := conv.approvalId;
      var created := manager.CreateApprovalWithParent(id, conv.alertId, planJson, sent.value, now, ttl, parent);
      if created.Some? {
        if parent != "" {
          var prev := st.GetApproval(parent);
          if prev.Some? && prev.value.status == Pending {
            st.UpdateApprovalStatus(parent, Superseded, "system", "superseded by revised plan " + id);
          }
        }
        st.UpdateConversationApproval(conv.id, id);
      }
      reply := PlanSent;
    }
  }

  // ---------------------------------------------------------------------------------------
  // Creation and callback
  // ---------------------------------------------------------------------------------------

  /** A new approval and, when the card got a message id, the conversation rooted at it. A
      read-only analysis passes no approval id. */
  ghost predicate Announces(t: Tables, conv: Conversation, t': Tables) {
    if conv.rootMessageId == "" then t' == t else Upserts(t, conv, t')
  }

  class Pipeline {
    const st: Store
    const manager: Manager
    const ttl: int
    /** The approvals handed to a new `ExecutePlan` goroutine, oldest first. */
    var launched: seq<ApprovalRecord>

    constructor (st: Store, manager: Manager, ttl: int)
      requires manager.st == st
      ensures this.st == st && this.manager == manager && this.ttl == ttl && launched == []
    {
      this.st, this.manager, this.ttl := st, manager, ttl;
      launched := [];
    }

    /** Steps 10 and 11 of the healing branch. */
    method RequestApproval(id: string, convId: string, alertId: string, planJson: string, msgId: string, now: int)
      requires manager.st == st
      modifies st
      ensures Announces(
        Inserted(old(st.View()), Fresh(id, alertId, planJson, msgId, now, ttl, "")),
        Conversation(convId, alertId, if id in old(st.approvals) then "" else id, msgId), st.View())
    {
      var created := manager.CreateApprovalWithParent(id, alertId, planJson, msgId, now, ttl, "");
      var approvalId := if created.Some? then created.value else "";
      CreateConversation(convId, alertId, approvalId, msgId);
    }

    method CreateConversation(convId: string, alertId: string, approvalId: string, rootMessageId: string)
      modifies st
      ensures Announces(old(st.View()), Conversation(convId, alertId, approvalId, rootMessageId), st.View())
      ensures rootMessageId == "" ==> st.View() == old(st.View())
      ensures rootMessageId != "" ==>
        Upserts(old(st.View()), Conversation(convId, alertId, approvalId, rootMessageId), st.View())
    {
      if rootMessageId == "" {
        return;
      }
      st.SaveConversation(Conversation(convId, alertId, approvalId, rootMessageId));
    }

    /** Execution is launched exactly by an accepted `approve`. */
    method HandleApprovalCallback(id: string, action: CallbackAction, user: string, now: int) returns (ok: bool)
      requires manager.st == st && this as object != st
      modifies st, this`launched
      ensures ok <==>
        id in old(st.approvals) && !action.OtherAction?
        && old(st.approvals)[id].status == Pending && now <= old(st.approvals)[id].expiresAt
      ensures st.View() == CalledBack(old(st.View()), id, action, user, now)
      ensures if ok && action == Approve
        then id in st.approvals && st.approvals[id].status == Approved && launched == old(launched) + [st.approvals[id]]
        else launched == old(launched)
    {
      var result := manager.ProcessCallback(id, action, user, now);
      if result != Applied {
        return false;
      }
      if action == Approve {
        var record := st.GetApproval(id);
        if record.None? {
          return false;
        }
        launched := launched + [record.value];
      }
      ok := true;
    }
  }
}
