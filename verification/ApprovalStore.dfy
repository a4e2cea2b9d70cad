/** The approval and conversation tables. `Tables` is what the rows say; `Store` is the object
    the components share, its methods proved against functions on `Tables`. SQL text, errors of
    the database driver and the responded_at stamp are not part of this model. */
module ApprovalStore {
  import opened Options
  import opened ApprovalModels
  import opened StableSort

  datatype ApprovalRecord = ApprovalRecord(
    id: string,
    alertId: string,
    planJson: string,
    status: Status,
    requestedAt: int,
    approverId: string,
    comment: string,
    larkMessageId: string,
    expiresAt: int,
    parentId: string)

  datatype Conversation = Conversation(id: string, alertId: string, approvalId: string, rootMessageId: string)

  /** rows lists the approval ids in insertion order. */
  datatype Tables = Tables(
    approvals: map<string, ApprovalRecord>,
    rows: seq<string>,
    conversations: map<string, Conversation>)

  predicate Consistent(t: Tables) {
    && (forall id :: id in t.approvals ==> id in t.rows && t.approvals[id].id == id)
    && (forall i :: 0 <= i < |t.rows| ==> t.rows[i] in t.approvals)
    && (forall i, j :: 0 <= i < j < |t.rows| ==> t.rows[i] != t.rows[j])
  }

  /** INSERT INTO approvals; an id already taken violates the primary key and inserts nothing. */
  function Inserted(t: Tables, r: ApprovalRecord): Tables {
    if r.id in t.approvals then t
    else t.(approvals := t.approvals[r.id := r], rows := t.rows + [r.id])
  }

  lemma InsertedConsistent(t: Tables, r: ApprovalRecord)
    requires Consistent(t)
    ensures Consistent(Inserted(t, r))
  {
    if r.id !in t.approvals {
      var u := Inserted(t, r);
      assert r.id !in t.rows && u.rows[|t.rows|] == r.id;
      forall id | id in u.approvals ensures id in u.rows && u.approvals[id].id == id {
        assert id in t.approvals || id == r.id;
      }
    }
  }

  /** UPDATE approvals SET status = ... WHERE id = ...: no look at the old status. */
  function WithStatus(t: Tables, id: string, status: Status, approver: string, comment: string): Tables {
    if id !in t.approvals then t
    else
      var r := t.approvals[id].(status := status, approverId := approver, comment := comment);
      t.(approvals := t.approvals[id := r])
  }

  function PointedAt(t: Tables, conv: string, approvalId: string): Tables {
    if conv !in t.conversations then t
    else t.(conversations := t.conversations[conv := t.conversations[conv].(approvalId := approvalId)])
  }

  ghost predicate RootTaken(t: Tables, root: string) {
    exists c :: c in t.conversations && t.conversations[c].rootMessageId == root
  }

  /** The upsert of `SaveConversation`: a root message id already present keeps its row and only
      takes over a non-empty approval id; a row id already taken fails. */
  ghost predicate Upserts(t: Tables, c: Conversation, t': Tables) {
    if RootTaken(t, c.rootMessageId) then
      exists o :: o in t.conversations && t.conversations[o].rootMessageId == c.rootMessageId &&
        t' == if c.approvalId == "" then t else PointedAt(t, o, c.approvalId)
    else t' == if c.id in t.conversations then t else t.(conversations := t.conversations[c.id := c])
  }

  /** The records with the given status among the first n rows. */
  function Selected(t: Tables, n: nat, status: Status): seq<ApprovalRecord>
    requires n <= |t.rows|
  {
    if n == 0 then []
    else
      var id := t.rows[n - 1];
      Selected(t, n - 1, status) +
      if id in t.approvals && t.approvals[id].status == status then [t.approvals[id]] else []
  }

  function NewestFirst(r: ApprovalRecord): int { -r.requestedAt }

  /** SELECT ... WHERE status = ? ORDER BY requested_at DESC; rows with equal stamps come in
      insertion order. */
  function Ordered(t: Tables, status: Status): seq<ApprovalRecord> {
    SortBy(Selected(t, |t.rows|, status), NewestFirst)
  }

  function Listed(t: Tables, status: Status, limit: nat): seq<ApprovalRecord> {
    var rs := Ordered(t, status);
    if 0 < limit < |rs| then rs[..limit] else rs
  }

  class Store {
    var approvals: map<string, ApprovalRecord>
    var rows: seq<string>
    var conversations: map<string, Conversation>

    function View(): Tables
      reads this
    {
      Tables(approvals, rows, conversations)
    }

    constructor ()
      ensures View() == Tables(map[], [], map[])
    {
      approvals, rows, conversations := map[], [], map[];
    }

    method SaveApproval(r: ApprovalRecord) returns (ok: bool)
      modifies this
      ensures ok <==> r.id !in old(approvals)
      ensures View() == Inserted(old(View()), r)
      ensures ok ==> approvals == old(approvals)[r.id := r] && rows == old(rows) + [r.id]
      ensures !ok ==> approvals == old(approvals) && rows == old(rows)
      ensures conversations == old(conversations)
    {
      ok := r.id !in approvals;
      if ok {
        approvals := approvals[r.id := r];
        rows := rows + [r.id];
      }
    }

    method GetApproval(id: string) returns (r: Option<ApprovalRecord>)
      ensures r == if id in approvals then Some(approvals[id]) else None
    {
      r := if id in approvals then Some(approvals[id]) else None;
    }

    method UpdateApprovalStatus(id: string, status: Status, approver: string, comment: string)
      modifies this
      ensures View() == WithStatus(old(View()), id, status, approver, comment)
      ensures rows == old(rows) && conversations == old(conversations)
      ensures id !in old(approvals) ==> approvals == old(approvals)
      ensures id in old(approvals) ==>
        var r := old(approvals)[id].(status := status, approverId := approver, comment := comment);
        approvals == old(approvals)[id := r]
    {
      if id in approvals {
        approvals := approvals[id := approvals[id].(status := status, approverId := approver, comment := comment)];
      }
    }

    method ListApprovals(status: Status, limit: nat) returns (rs: seq<ApprovalRecord>)
      ensures rs == Listed(View(), status, limit)
    {
      var all: seq<ApprovalRecord> := [];
      for i := 0 to |rows|
        invariant all == Selected(View(), i, status)
      {
        var id := rows[i];
        if id in approvals && approvals[id].status == status {
          all := all + [approvals[id]];
        }
      }
      rs := SortBy(all, NewestFirst);
      if 0 < limit < |rs| {
        rs := rs[..limit];
      }
    }

    method SaveConversation(c: Conversation)
      modifies this
      ensures Upserts(old(View()), c, View())
      ensures approvals == old(approvals) && rows == old(rows)
      ensures (forall o :: o in old(conversations) ==> old(conversations)[o].rootMessageId != c.rootMessageId) ==>
        conversations == if c.id in old(conversations) then old(conversations) else old(conversations)[c.id := c]
      ensures (exists o :: o in old(conversations) && old(conversations)[o].rootMessageId == c.rootMessageId) ==>
        exists o :: o in old(conversations) && old(conversations)[o].rootMessageId == c.rootMessageId &&
          conversations == if c.approvalId == "" then old(conversations)
            else old(conversations)[o := old(conversations)[o].(approvalId := c.approvalId)]
    {
      if o :| o in conversations && conversations[o].rootMessageId == c.rootMessageId {
        assert RootTaken(View(), c.rootMessageId);
        if c.approvalId != "" {
          conversations := conversations[o := conversations[o].(approvalId := c.approvalId)];
        }
      } else {
        assert !RootTaken(View(), c.rootMessageId);
        if c.id !in conversations {
          conversations := conversations[c.id := c];
        }
      }
    }

    method UpdateConversationApproval(conv: string, approvalId: string)
      modifies this
      ensures View() == PointedAt(old(View()), conv, approvalId)
      ensures approvals == old(approvals) && rows == old(rows)
      ensures conv !in old(conversations) ==> conversations == old(conversations)
      ensures conv in old(conversations) ==>
        conversations == old(conversations)[conv := old(conversations)[conv].(approvalId := approvalId)]
    {
      if conv in conversations {
        conversations := conversations[conv := conversations[conv].(approvalId := approvalId)];
      }
    }
  }
}
