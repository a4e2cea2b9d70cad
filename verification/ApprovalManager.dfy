/** `approval.Manager`: creating approvals, the callback's guarded transition, and the periodic
    expiry of stale approvals. `now` is the value of `time.Now()` in the call. */
module ApprovalManager {
  import opened Options
  import opened ApprovalModels
  import opened ApprovalStore
  import opened StableSort

  datatype CallbackResult =
    | Applied
    | NotFound
    | UnknownAction
    | AlreadySettled(status: Status)
    | InvalidTransition
    | LapsedNow

  function Fresh(id: string, alertId: string, planJson: string, msgId: string, now: int, ttl: int,
          parent: string): ApprovalRecord {
    ApprovalRecord(id, alertId, planJson, Pending, now, "", "", msgId, now + ttl, parent)
  }

  /** The callback finds the approval pending, its deadline not passed, and knows the action. */
  predicate Accepts(t: Tables, id: string, action: CallbackAction, now: int) {
    && id in t.approvals && StatusFromAction(action).Some?
    && t.approvals[id].status == Pending && now <= t.approvals[id].expiresAt
  }

  /** As `Accepts`, but the deadline has passed. */
  predicate Lapses(t: Tables, id: string, action: CallbackAction, now: int) {
    && id in t.approvals && StatusFromAction(action).Some?
    && t.approvals[id].status == Pending && now > t.approvals[id].expiresAt
  }

  /** The tables after a callback: only a pending approval is ever touched by one. */
  function CalledBack(t: Tables, id: string, action: CallbackAction, user: string, now: int): Tables {
    if Accepts(t, id, action, now) then WithStatus(t, id, StatusFromAction(action).value, user, "")
    else if Lapses(t, id, action, now) then WithStatus(t, id, Expired, "", "auto-expired")
    else t
  }

  const PAGE: nat := 100

  /** The stale members of rs, marked expired one after the other. */
  function ExpiredAmong(t: Tables, rs: seq<ApprovalRecord>, now: int): Tables {
    if rs == [] then t
    else
      var t', last := ExpiredAmong(t, rs[..|rs| - 1], now), rs[|rs| - 1];
      if now > last.expiresAt then WithStatus(t', last.id, Expired, "", "auto-expired by stale check") else t'
  }

  function StaleCount(rs: seq<ApprovalRecord>, now: int): nat {
    if rs == [] then 0
    else StaleCount(rs[..|rs| - 1], now) + if now > rs[|rs| - 1].expiresAt then 1 else 0
  }

  function Ticked(t: Tables, now: int): Tables {
    ExpiredAmong(t, Listed(t, Pending, PAGE), now)
  }

  /** What a callback does to the approvals, status by status and action by action. */
  lemma CallbackMeans(t: Tables, id: string, action: CallbackAction, user: string, now: int)
    ensures var u := CalledBack(t, id, action, user, now);
      && u.rows == t.rows && u.conversations == t.conversations && u.approvals.Keys == t.approvals.Keys
      && (forall x :: x in t.approvals && x != id ==> u.approvals[x] == t.approvals[x])
    ensures id in t.approvals ==>
      var r, r' := t.approvals[id], CalledBack(t, id, action, user, now).approvals[id];
      r' ==
        if r.status != Pending || action.OtherAction? then r
        else if now > r.expiresAt then r.(status := Expired, approverId := "", comment := "auto-expired")
        else if action == Approve then r.(status := Approved, approverId := user, comment := "")
        else if action == Reject then r.(status := Rejected, approverId := user, comment := "")
        else r.(status := Modified, approverId := user, comment := "")
  {
  }

  class Manager {
    const st: Store

    constructor (st: Store)
      ensures this.st == st
    {
      this.st := st;
    }

    method CreateApprovalWithParent(id: string, alertId: string, planJson: string, msgId: string, now: int, ttl: int,
            parent: string)
      returns (created: Option<string>)
      modifies st
      ensures st.View() == Inserted(old(st.View()), Fresh(id, alertId, planJson, msgId, now, ttl, parent))
      ensures created == if id in old(st.approvals) then None else Some(id)
      ensures created.Some? ==> id in st.approvals
      ensures created.Some? ==>
        st.approvals[id] == ApprovalRecord(id, alertId, planJson, Pending, now, "", "", msgId, now + ttl, parent)
    {
      var record := ApprovalRecord(id, alertId, planJson, Pending, now, "", "", msgId, now + ttl, parent);
      var ok := st.SaveApproval(record);
      created := if ok then Some(id) else None;
    }

    method ProcessCallback(id: string, action: CallbackAction, user: string, now: int) returns (result: CallbackResult)
      modifies st
      ensures st.View() == CalledBack(old(st.View()), id, action, user, now)
      ensures result == Applied <==> Accepts(old(st.View()), id, action, now)
      ensures result == LapsedNow <==> Lapses(old(st.View()), id, action, now)
      ensures result == NotFound <==> id !in old(st.approvals)
      ensures result == UnknownAction <==> id in old(st.approvals) && action.OtherAction?
      ensures result == InvalidTransition <==>
        id in old(st.approvals) && !action.OtherAction?
        && (old(st.approvals)[id].status == Modified || old(st.approvals)[id].status.Other?)
      ensures result.AlreadySettled? <==>
        id in old(st.approvals) && !action.OtherAction?
        && old(st.approvals)[id].status in {Approved, Rejected, Expired, Executing, Completed, Failed, Superseded}
      ensures result.AlreadySettled? ==> result.status == old(st.approvals)[id].status
    {
      var found := st.GetApproval(id);
      if found.None? {
        return NotFound;
      }
      var record := found.value;
      var target := StatusFromAction(action);
      if target.None? {
        return UnknownAction;
      }
      if record.status in {Superseded, Expired, Approved, Executing, Completed, Failed, Rejected} {
        return AlreadySettled(record.status);
      }
      if !CanTransitionTo(record.status, target.value) {
        return InvalidTransition;
      }
      if now > record.expiresAt && record.status == Pending {
        st.UpdateApprovalStatus(id, Expired, "", "auto-expired");
        return LapsedNow;
      }
      st.UpdateApprovalStatus(id, target.value, user, "");
      result := Applied;
    }

    method GetPendingApprovals() returns (rs: seq<ApprovalRecord>)
      ensures rs == Listed(st.View(), Pending, PAGE)
    {
      rs := st.ListApprovals(Pending, 100);
    }

    method ExpireStale(now: int) returns (expired: nat)
      modifies st
      ensures st.View() == Ticked(old(st.View()), now)
      ensures expired == StaleCount(Listed(old(st.View()), Pending, PAGE), now)
    {
      var pending := GetPendingApprovals();
      expired := 0;
      for i := 0 to |pending|
        invariant st.View() == ExpiredAmong(old(st.View()), pending[..i], now)
        invariant expired == StaleCount(pending[..i], now)
      {
        assert pending[..i + 1][..i] == pending[..i];
        if now > pending[i].expiresAt {
          st.UpdateApprovalStatus(pending[i].id, Expired, "", "auto-expired by stale check");
          expired := expired + 1;
        }
      }
      assert pending[..|pending|] == pending;
    }
  }

  // ---------------------------------------------------------------------------------------
  // What one expiry tick does
  // ---------------------------------------------------------------------------------------

  lemma InRows(rows: seq<string>, n: nat, id: string)
    requires 0 < n <= |rows|
    ensures id in rows[..n] <==> id in rows[..n - 1] || id == rows[n - 1]
  {
    assert rows[..n] == rows[..n - 1] + [rows[n - 1]];
  }

  lemma {:induction false} SelectedIff(t: Tables, n: nat, status: Status, r: ApprovalRecord)
    requires Consistent(t) && n <= |t.rows|
    ensures r in Selected(t, n, status) <==>
      r.status == status && r.id in t.rows[..n] && t.approvals[r.id] == r
  {
    if n == 0 {
    } else {
      SelectedIff(t, n - 1, status, r);
      InRows(t.rows, n, r.id);
      var row := t.approvals[t.rows[n - 1]];
      assert r in Selected(t, n, status) <==> r in Selected(t, n - 1, status) || (row.status == status && r == row);
    }
  }

  /** The ordered listing holds exactly the records with the status. */
  lemma OrderedIff(t: Tables, status: Status, r: ApprovalRecord)
    requires Consistent(t)
    ensures r in Ordered(t, status) <==> r.status == status && r.id in t.approvals && t.approvals[r.id] == r
  {
    SelectedIff(t, |t.rows|, status, r);
    assert t.rows[..|t.rows|] == t.rows;
    assert r in multiset(Ordered(t, status)) <==> r in multiset(Selected(t, |t.rows|, status));
  }

  predicate Expires(t: Tables, rs: seq<ApprovalRecord>, now: int, id: string) {
    id in t.approvals && t.approvals[id] in rs && now > t.approvals[id].expiresAt
  }

  lemma {:induction false} ExpiredAmongFrame(t: Tables, rs: seq<ApprovalRecord>, now: int)
    ensures ExpiredAmong(t, rs, now).approvals.Keys == t.approvals.Keys
    ensures ExpiredAmong(t, rs, now).rows == t.rows && ExpiredAmong(t, rs, now).conversations == t.conversations
  {
    if rs == [] {
    } else {
      ExpiredAmongFrame(t, rs[..|rs| - 1], now);
    }
  }

  function AutoExpired(r: ApprovalRecord): ApprovalRecord {
    r.(status := Expired, approverId := "", comment := "auto-expired by stale check")
  }

  lemma {:induction false} ExpiredAmongMeans(t: Tables, rs: seq<ApprovalRecord>, now: int, id: string)
    requires forall k :: 0 <= k < |rs| ==> rs[k].id in t.approvals && t.approvals[rs[k].id] == rs[k]
    requires id in t.approvals && t.approvals[id].id == id
    ensures id in ExpiredAmong(t, rs, now).approvals
    ensures ExpiredAmong(t, rs, now).approvals[id] ==
      if Expires(t, rs, now, id) then AutoExpired(t.approvals[id]) else t.approvals[id]
  {
    if rs == [] {
    } else {
      var init, last := rs[..|rs| - 1], rs[|rs| - 1];
      ExpiredAmongMeans(t, init, now, id);
      assert rs == init + [last];
      assert last.id == id <==> last == t.approvals[id];
    }
  }

  /** A tick expires exactly the stale approvals among the 100 most recently requested pending
      ones and touches nothing else. */
  lemma TickMeans(t: Tables, now: int, id: string)
    requires Consistent(t) && id in t.approvals
    ensures Ticked(t, now).approvals.Keys == t.approvals.Keys
    ensures Ticked(t, now).rows == t.rows && Ticked(t, now).conversations == t.conversations
    ensures id in Ticked(t, now).approvals
    ensures Ticked(t, now).approvals[id] ==
      if t.approvals[id] in Listed(t, Pending, 100) && now > t.approvals[id].expiresAt
        then t.approvals[id].(status := Expired, approverId := "", comment := "auto-expired by stale check")
      else t.approvals[id]
  {
    var rs := Listed(t, Pending, PAGE);
    forall k | 0 <= k < |rs| ensures rs[k].id in t.approvals && t.approvals[rs[k].id] == rs[k] {
      assert rs[k] == Ordered(t, Pending)[k];
      OrderedIff(t, Pending, rs[k]);
    }
    ExpiredAmongFrame(t, rs, now);
    ExpiredAmongMeans(t, rs, now, id);
  }

  lemma TickConsistent(t: Tables, now: int)
    requires Consistent(t)
    ensures Consistent(Ticked(t, now))
  {
    var t' := Ticked(t, now);
    ExpiredAmongFrame(t, Listed(t, Pending, PAGE), now);
    forall id | id in t'.approvals ensures id in t'.rows && t'.approvals[id].id == id {
      TickMeans(t, now, id);
    }
  }

  function Ids(rs: seq<ApprovalRecord>): set<string> {
    set r | r in rs :: r.id
  }

  lemma {:induction false} IdsBound(rs: seq<ApprovalRecord>)
    ensures |Ids(rs)| <= |rs|
  {
    if rs == [] {
    } else {
      var init, last := rs[..|rs| - 1], rs[|rs| - 1];
      IdsBound(init);
      assert rs == init + [last];
      assert Ids(rs) == Ids(init) + {last.id};
    }
  }

  lemma DuplicateShrinks(rs: seq<ApprovalRecord>, i: nat, j: nat)
    requires i < j < |rs| && rs[i] == rs[j]
    ensures |Ids(rs)| < |rs|
  {
    var rest := rs[..j] + rs[j + 1..];
    assert rest[i] == rs[j];
    forall r ensures r in rs <==> r in rest {
      if r in rs && r != rs[j] {
        assert rs == rs[..j] + [rs[j]] + rs[j + 1..];
      }
    }
    assert Ids(rest) == Ids(rs);
    IdsBound(rest);
  }

  lemma IdsOfSnoc(rs: seq<ApprovalRecord>, r: ApprovalRecord)
    ensures Ids(rs + [r]) == Ids(rs) + {r.id}
  {
    forall id | id in Ids(rs) ensures id in Ids(rs + [r]) {
      var q :| q in rs && q.id == id;
      assert q in rs + [r];
    }
    assert r in rs + [r];
    assert forall q :: q in rs + [r] ==> q in rs || q == r;
  }

  lemma IdsSnoc(rs: seq<ApprovalRecord>, r: ApprovalRecord)
    requires r.id !in Ids(rs)
    ensures |Ids(rs + [r])| == |Ids(rs)| + 1
  {
    IdsOfSnoc(rs, r);
  }

  lemma SelectedIsNew(t: Tables, n: nat, status: Status)
    requires Consistent(t) && n < |t.rows|
    ensures t.rows[n] !in Ids(Selected(t, n, status))
  {
    forall r | r in Selected(t, n, status) ensures r.id != t.rows[n] {
      SelectedIff(t, n, status, r);
    }
  }

  lemma {:induction false} SelectedIds(t: Tables, n: nat, status: Status)
    requires Consistent(t) && n <= |t.rows|
    ensures |Ids(Selected(t, n, status))| == |Selected(t, n, status)|
  {
    if n == 0 {
    } else {
      SelectedIds(t, n - 1, status);
      var id := t.rows[n - 1];
      var before := Selected(t, n - 1, status);
      if t.approvals[id].status == status {
        SelectedIsNew(t, n - 1, status);
        IdsSnoc(before, t.approvals[id]);
      } else {
        assert Selected(t, n, status) == before + [] == before;
      }
    }
  }

  lemma PermutedIds(a: seq<ApprovalRecord>, b: seq<ApprovalRecord>)
    requires multiset(a) == multiset(b)
    ensures Ids(a) == Ids(b) && |a| == |b|
  {
    forall r ensures r in a <==> r in b {
      assert r in multiset(a) <==> r in multiset(b);
    }
    assert |a| == |multiset(a)| == |b|;
  }

  lemma OrderedIds(t: Tables, status: Status)
    requires Consistent(t)
    ensures |Ids(Ordered(t, status))| == |Ordered(t, status)|
    ensures Ids(Ordered(t, status)) == set id | id in t.approvals && t.approvals[id].status == status
  {
    var rs := Ordered(t, status);
    forall id | id in t.approvals && t.approvals[id].status == status ensures id in Ids(rs) {
      OrderedIff(t, status, t.approvals[id]);
    }
    forall r | r in rs ensures r.id in t.approvals && t.approvals[r.id].status == status {
      OrderedIff(t, status, r);
    }
    SelectedIds(t, |t.rows|, status);
    PermutedIds(rs, Selected(t, |t.rows|, status));
  }

  lemma OrderedDistinct(t: Tables, status: Status)
    requires Consistent(t)
    ensures forall i, j :: 0 <= i < j < |Ordered(t, status)| ==> Ordered(t, status)[i] != Ordered(t, status)[j]
  {
    var rs := Ordered(t, status);
    OrderedIds(t, status);
    forall i, j | 0 <= i < j < |rs| ensures rs[i] != rs[j] {
      if rs[i] == rs[j] { DuplicateShrinks(rs, i, j); }
    }
  }

  /** A stale pending approval survives a tick exactly when at least 100 pending approvals come
      before it in the newest-first listing. */
  lemma StaleSurvivesIff(t: Tables, now: int, k: nat)
    requires Consistent(t) && k < |Ordered(t, Pending)| && now > Ordered(t, Pending)[k].expiresAt
    ensures var id := Ordered(t, Pending)[k].id;
            id in Ticked(t, now).approvals && (Ticked(t, now).approvals[id].status == Pending <==> k >= PAGE)
  {
    var rs := Ordered(t, Pending);
    OrderedIff(t, Pending, rs[k]);
    TickMeans(t, now, rs[k].id);
    OrderedDistinct(t, Pending);
    if k < PAGE {
      assert Listed(t, Pending, PAGE)[k] == rs[k];
    }
  }

  // ---------------------------------------------------------------------------------------
  // The listing in terms of the rows
  // ---------------------------------------------------------------------------------------

  /** x was requested after y, or at the same time and inserted before it. */
  predicate Ahead(t: Tables, x: string, y: string) {
    && x in t.approvals && y in t.approvals
    && (t.approvals[x].requestedAt > t.approvals[y].requestedAt
      || (t.approvals[x].requestedAt == t.approvals[y].requestedAt
        && exists i, j :: 0 <= i < j < |t.rows| && t.rows[i] == x && t.rows[j] == y))
  }

  function PendingAhead(t: Tables, y: string): set<string> {
    set x | x in t.approvals && t.approvals[x].status == Pending && Ahead(t, x, y)
  }

  lemma {:induction false} SelectedRow(t: Tables, n: nat, status: Status, i: nat) returns (p: nat)
    requires Consistent(t) && n <= |t.rows| && i < |Selected(t, n, status)|
    ensures p < n && t.rows[p] == Selected(t, n, status)[i].id
  {
    if i < |Selected(t, n - 1, status)| {
      p := SelectedRow(t, n - 1, status, i);
    } else {
      p := n - 1;
    }
  }

  lemma {:induction false} SelectedRows(t: Tables, n: nat, status: Status, i: nat, j: nat) returns (p: nat, q: nat)
    requires Consistent(t) && n <= |t.rows| && i < j < |Selected(t, n, status)|
    ensures p < q < n && t.rows[p] == Selected(t, n, status)[i].id && t.rows[q] == Selected(t, n, status)[j].id
  {
    if j < |Selected(t, n - 1, status)| {
      p, q := SelectedRows(t, n - 1, status, i, j);
    } else {
      p := SelectedRow(t, n - 1, status, i);
      q := n - 1;
    }
  }

  lemma OrderedDescends(t: Tables, status: Status, a: nat, b: nat)
    requires a < b < |Ordered(t, status)|
    ensures Ordered(t, status)[a].requestedAt >= Ordered(t, status)[b].requestedAt
  {
    SortByStable(Selected(t, |t.rows|, status), NewestFirst);
    assert NewestFirst(Ordered(t, status)[a]) <= NewestFirst(Ordered(t, status)[b]);
  }

  lemma OrderedAhead(t: Tables, status: Status, a: nat, b: nat)
    requires Consistent(t) && a < b < |Ordered(t, status)|
    ensures Ahead(t, Ordered(t, status)[a].id, Ordered(t, status)[b].id)
  {
    var rs := Ordered(t, status);
    OrderedDescends(t, status, a, b);
    OrderedIff(t, status, rs[a]);
    OrderedIff(t, status, rs[b]);
    if rs[a].requestedAt == rs[b].requestedAt {
      var i, j := TiesKeepOrder(Selected(t, |t.rows|, status), NewestFirst, a, b);
      var p, q := SelectedRows(t, |t.rows|, status, i, j);
    }
  }

  lemma AheadOneWay(t: Tables, x: string, y: string)
    requires Consistent(t) && Ahead(t, x, y)
    ensures !Ahead(t, y, x) && x != y
  {
  }

  /** In front of an approval the listing has exactly the pending ones ahead of it. */
  lemma FrontIsAhead(t: Tables, k: nat)
    requires Consistent(t) && k < |Ordered(t, Pending)|
    ensures Ids(Ordered(t, Pending)[..k]) == PendingAhead(t, Ordered(t, Pending)[k].id)
  {
    var rs := Ordered(t, Pending);
    var y := rs[k].id;
    forall x ensures x in Ids(rs[..k]) <==> x in PendingAhead(t, y) {
      if x in Ids(rs[..k]) {
        var a: nat :| a < k && rs[..k][a].id == x;
        OrderedAhead(t, Pending, a, k);
        OrderedIff(t, Pending, rs[a]);
      }
      if x in PendingAhead(t, y) {
        OrderedIff(t, Pending, t.approvals[x]);
        var a: nat :| a < |rs| && rs[a] == t.approvals[x];
        AheadOneWay(t, x, y);
        if a > k { OrderedAhead(t, Pending, k, a); }
        assert rs[..k][a] == rs[a];
      }
    }
  }

  lemma IdsPrefix(rs: seq<ApprovalRecord>, n: nat)
    requires n <= |rs| && |Ids(rs)| == |rs|
    ensures |Ids(rs[..n])| == n
  {
    assert rs == rs[..n] + rs[n..];
    assert Ids(rs) == Ids(rs[..n]) + Ids(rs[n..]);
    IdsBound(rs[..n]);
    IdsBound(rs[n..]);
  }

  /** A stale pending approval survives a tick exactly when at least 100 pending approvals were
      requested after it, or at the same time and inserted before it. */
  lemma SparedIff(t: Tables, now: int, id: string)
    requires Consistent(t) && id in t.approvals && t.approvals[id].status == Pending && now > t.approvals[id].expiresAt
    ensures id in Ticked(t, now).approvals
    ensures Ticked(t, now).approvals[id].status == Pending <==> |PendingAhead(t, id)| >= 100
  {
    var rs := Ordered(t, Pending);
    OrderedIff(t, Pending, t.approvals[id]);
    var k: nat :| k < |rs| && rs[k] == t.approvals[id];
    StaleSurvivesIff(t, now, k);
    FrontIsAhead(t, k);
    OrderedIds(t, Pending);
    IdsPrefix(rs, k);
  }

  /** A listing is newest first, and what a limit leaves out is no newer than what is listed. */
  lemma ListingMeans(t: Tables, status: Status, limit: nat, r: ApprovalRecord)
    requires Consistent(t)
    ensures var rs := Listed(t, status, limit);
      && (forall a, b :: 0 <= a < b < |rs| ==> rs[a].requestedAt >= rs[b].requestedAt)
      && (r in rs ==> r.id in t.approvals && t.approvals[r.id] == r && r.status == status)
      && (r !in rs && r.id in t.approvals && t.approvals[r.id] == r && r.status == status ==>
          0 < limit == |rs| && forall a :: 0 <= a < |rs| ==> rs[a].requestedAt >= r.requestedAt)
  {
    var all, rs := Ordered(t, status), Listed(t, status, limit);
    OrderedIff(t, status, r);
    forall a, b | 0 <= a < b < |all| ensures all[a].requestedAt >= all[b].requestedAt {
      OrderedDescends(t, status, a, b);
    }
    if r in all && r !in rs {
      var k: nat :| k < |all| && all[k] == r;
      assert rs == all[..|rs|];
    }
  }

  // ---------------------------------------------------------------------------------------
  // Draining a backlog
  // ---------------------------------------------------------------------------------------

  function PendingIds(t: Tables): set<string> {
    set id | id in t.approvals && t.approvals[id].status == Pending
  }

  lemma FirstBeyondPage(t: Tables)
    requires Consistent(t) && |Ordered(t, Pending)| > PAGE
    ensures var r := Ordered(t, Pending)[PAGE];
      r.id in PendingIds(t) && t.approvals[r.id] == r && r !in Listed(t, Pending, PAGE)
  {
    var all := Ordered(t, Pending);
    OrderedIff(t, Pending, all[PAGE]);
    OrderedDistinct(t, Pending);
    forall k | 0 <= k < PAGE ensures all[..PAGE][k] != all[PAGE] {
      assert all[..PAGE][k] == all[k];
    }
  }

  /** What `GetPendingApprovals` returns is all that is pending exactly when it fits one page. */
  lemma AllPendingListedIff(t: Tables)
    requires Consistent(t)
    ensures (forall id :: id in PendingIds(t) ==> t.approvals[id] in Listed(t, Pending, PAGE))
      <==> |PendingIds(t)| <= PAGE
  {
    var all := Ordered(t, Pending);
    OrderedIds(t, Pending);
    assert Ids(all) == PendingIds(t);
    if |all| <= PAGE {
      forall id | id in PendingIds(t) ensures t.approvals[id] in Listed(t, Pending, PAGE) {
        OrderedIff(t, Pending, t.approvals[id]);
      }
    } else {
      FirstBeyondPage(t);
    }
  }

  predicate AllStale(t: Tables, now: int) {
    forall id :: id in PendingIds(t) ==> now > t.approvals[id].expiresAt
  }

  lemma {:induction false} StaleCountAll(rs: seq<ApprovalRecord>, now: int)
    requires forall r :: r in rs ==> now > r.expiresAt
    ensures StaleCount(rs, now) == |rs|
  {
    if rs == [] {
    } else {
      StaleCountAll(rs[..|rs| - 1], now);
    }
  }

  lemma PageIsPending(t: Tables)
    requires Consistent(t)
    ensures var page := Ids(Listed(t, Pending, PAGE));
            page <= PendingIds(t) && |page| == if |PendingIds(t)| < PAGE then |PendingIds(t)| else PAGE
    ensures |Ids(Listed(t, Pending, PAGE))| == |Listed(t, Pending, PAGE)|
    ensures forall r :: r in Listed(t, Pending, PAGE) ==> r.id in PendingIds(t) && t.approvals[r.id] == r
  {
    var all, rs := Ordered(t, Pending), Listed(t, Pending, PAGE);
    OrderedIds(t, Pending);
    assert Ids(all) == PendingIds(t);
    IdsPrefix(all, |rs|);
    assert rs == all[..|rs|];
    forall r | r in rs ensures r.id in PendingIds(t) && t.approvals[r.id] == r {
      OrderedIff(t, Pending, r);
    }
  }

  lemma TickClears(t: Tables, now: int, id: string)
    requires Consistent(t) && AllStale(t, now)
    ensures id in PendingIds(Ticked(t, now)) <==> id in PendingIds(t) && id !in Ids(Listed(t, Pending, PAGE))
  {
    var rs := Listed(t, Pending, PAGE);
    PageIsPending(t);
    ExpiredAmongFrame(t, rs, now);
    if id in t.approvals {
      TickMeans(t, now, id);
      assert id in Ids(rs) ==> t.approvals[id] in rs;
    }
  }

  /** When everything pending is stale, a tick clears a full page of 100 or the rest. */
  lemma TickClearsPage(t: Tables, now: int)
    requires Consistent(t) && AllStale(t, now)
    ensures var page := Ids(Listed(t, Pending, PAGE));
            PendingIds(Ticked(t, now)) == PendingIds(t) - page && page <= PendingIds(t)
            && |page| == (if |PendingIds(t)| < PAGE then |PendingIds(t)| else PAGE)
            && StaleCount(Listed(t, Pending, PAGE), now) == |page|
  {
    PageIsPending(t);
    forall id
      ensures id in PendingIds(Ticked(t, now)) <==> id in PendingIds(t) && id !in Ids(Listed(t, Pending, PAGE))
    {
      TickClears(t, now, id);
    }
    StaleCountAll(Listed(t, Pending, PAGE), now);
  }

  lemma TickKeepsStale(t: Tables, now: int, later: int)
    requires Consistent(t) && AllStale(t, later)
    ensures AllStale(Ticked(t, now), later)
  {
    var t' := Ticked(t, now);
    ExpiredAmongFrame(t, Listed(t, Pending, PAGE), now);
    forall id | id in PendingIds(t') ensures later > t'.approvals[id].expiresAt {
      TickMeans(t, now, id);
      assert id in PendingIds(t);
    }
  }

  lemma TickSizes(t: Tables, now: int)
    requires Consistent(t) && AllStale(t, now)
    ensures var n, m := |PendingIds(t)|, |PendingIds(Ticked(t, now))|;
            m == (if n <= PAGE then 0 else n - PAGE) && StaleCount(Listed(t, Pending, PAGE), now) == n - m
  {
    TickClearsPage(t, now);
  }

  /** The tables after one tick per element of nows, and the sum of the returned counts. */
  function Drained(t: Tables, nows: seq<int>): (Tables, nat)
    decreases |nows|
  {
    if nows == [] then (t, 0)
    else
      var (t', n) := Drained(Ticked(t, nows[0]), nows[1..]);
      (t', StaleCount(Listed(t, Pending, PAGE), nows[0]) + n)
  }

  function Remaining(n: nat, ticks: nat): nat {
    if n <= PAGE * ticks then 0 else n - PAGE * ticks
  }

  /** With n pending approvals, all stale at every tick and none arriving, k ticks leave
      max(0, n - 100k) of them and count min(n, 100k): ceil(n / 100) ticks drain the backlog. */
  lemma {:induction false} DrainsBacklog(t: Tables, nows: seq<int>)
    requires Consistent(t) && forall k :: 0 <= k < |nows| ==> AllStale(t, nows[k])
    ensures |PendingIds(Drained(t, nows).0)| == Remaining(|PendingIds(t)|, |nows|)
    ensures Drained(t, nows).1 == |PendingIds(t)| - Remaining(|PendingIds(t)|, |nows|)
    decreases |nows|
  {
    if nows == [] {
    } else {
      var t1, rest := Ticked(t, nows[0]), nows[1..];
      TickSizes(t, nows[0]);
      TickConsistent(t, nows[0]);
      forall k | 0 <= k < |rest| ensures AllStale(t1, rest[k]) {
        TickKeepsStale(t, nows[0], nows[k + 1]);
      }
      DrainsBacklog(t1, rest);
    }
  }

  // ---------------------------------------------------------------------------------------
  // A backlog that overflows a page
  // ---------------------------------------------------------------------------------------

  /** An id of n letters. */
  function Name(n: nat): (name: string)
    ensures |name| == n
  {
    seq(n, _ => 'x')
  }

  /** n pending approvals, requested at 1, 2, ... n and expired at once. */
  function Backlog(n: nat): Tables {
    if n == 0 then Tables(map[], [], map[])
    else Inserted(Backlog(n - 1), Fresh(Name(n), "", "", "", n, 0, ""))
  }

  predicate IsBacklog(t: Tables, n: nat) {
    && Consistent(t) && PendingIds(t) == t.approvals.Keys && |t.approvals.Keys| == n
    && forall id :: id in t.approvals ==> |id| <= n && t.approvals[id].expiresAt <= n
  }

  lemma BacklogRecords(t: Tables, n: nat, r: ApprovalRecord)
    requires n > 0 && IsBacklog(t, n - 1) && |r.id| == n && r.expiresAt == n && r.status == Pending
    ensures r.id !in t.approvals
    ensures var u := Inserted(t, r);
      u.approvals.Keys == t.approvals.Keys + {r.id} && PendingIds(u) == u.approvals.Keys
      && forall id :: id in u.approvals ==> |id| <= n && u.approvals[id].expiresAt <= n
  {
    var u := Inserted(t, r);
    assert r.id !in t.approvals;
    forall id | id in t.approvals ensures id in PendingIds(u) {
      assert id in PendingIds(t);
    }
  }

  lemma BacklogGrows(t: Tables, n: nat)
    requires n > 0 && IsBacklog(t, n - 1)
    ensures IsBacklog(Inserted(t, Fresh(Name(n), "", "", "", n, 0, "")), n)
  {
    var r := Fresh(Name(n), "", "", "", n, 0, "");
    InsertedConsistent(t, r);
    BacklogRecords(t, n, r);
    assert |t.approvals.Keys + {r.id}| == n;
  }

  lemma {:induction false} BacklogIsBacklog(n: nat)
    ensures IsBacklog(Backlog(n), n)
  {
    if n == 0 {
    } else {
      BacklogIsBacklog(n - 1);
      BacklogGrows(Backlog(n - 1), n);
    }
  }

  /** With 101 pending approvals one is not returned, and a tick that finds all of them expired
      leaves one pending. */
  lemma BacklogOverflowsPage(now: int)
    requires now > 101
    ensures var t := Backlog(101);
      Consistent(t) && |PendingIds(t)| == 101
      && !(forall id :: id in PendingIds(t) ==> t.approvals[id] in Listed(t, Pending, PAGE))
      && |PendingIds(Ticked(t, now))| == 1
  {
    BacklogIsBacklog(101);
    AllPendingListedIff(Backlog(101));
    TickSizes(Backlog(101), now);
  }
}
