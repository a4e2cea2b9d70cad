/** The chat history handed to the model: which stored messages `buildHistory` keeps. A character of
    a content stands for one byte. */
module ChatHistory {
  import opened StableSort

  datatype Message = Message(id: string, conversationId: string, role: string, content: string, larkId: string,
          createdAt: int)

  datatype Turn = Turn(role: string, content: string)

  const MAX_TURNS: nat := 20
  const MAX_BYTES: nat := 60000

  function Created(m: Message): int { m.createdAt }

  function OfConversation(ms: seq<Message>, conv: string): seq<Message> {
    if ms == [] then []
    else OfConversation(ms[..|ms| - 1], conv) + if ms[|ms| - 1].conversationId == conv then [ms[|ms| - 1]] else []
  }

  /** The conversation's messages, oldest first. */
  function Thread(ms: seq<Message>, conv: string): seq<Message> {
    SortBy(OfConversation(ms, conv), Created)
  }

  lemma {:induction false} OfConversationCounts(ms: seq<Message>, conv: string, m: Message)
    ensures multiset(OfConversation(ms, conv))[m] == if m.conversationId == conv then multiset(ms)[m] else 0
  {
    if ms == [] {
    } else {
      var init, last := ms[..|ms| - 1], ms[|ms| - 1];
      OfConversationCounts(init, conv, m);
      assert ms == init + [last];
    }
  }

  lemma {:induction false} OfConversationPlace(ms: seq<Message>, conv: string, a: nat) returns (i: nat)
    requires a < |OfConversation(ms, conv)|
    ensures i < |ms| && ms[i] == OfConversation(ms, conv)[a]
  {
    var init := ms[..|ms| - 1];
    if a < |OfConversation(init, conv)| {
      i := OfConversationPlace(init, conv, a);
    } else {
      i := |ms| - 1;
    }
  }

  lemma {:induction false} OfConversationPlaces(ms: seq<Message>, conv: string, a: nat, b: nat) returns (i: nat, j: nat)
    requires a < b < |OfConversation(ms, conv)|
    ensures i < j < |ms| && ms[i] == OfConversation(ms, conv)[a] && ms[j] == OfConversation(ms, conv)[b]
  {
    var init := ms[..|ms| - 1];
    if b < |OfConversation(init, conv)| {
      i, j := OfConversationPlaces(init, conv, a, b);
    } else {
      i := OfConversationPlace(init, conv, a);
      j := |ms| - 1;
    }
  }

  /** A conversation's thread holds its messages and no others, as often as they are stored. */
  lemma ThreadHolds(ms: seq<Message>, conv: string, m: Message)
    ensures multiset(Thread(ms, conv))[m] == if m.conversationId == conv then multiset(ms)[m] else 0
  {
    OfConversationCounts(ms, conv, m);
  }

  /** It is in order of creation; of two messages of one time the one stored first comes first. */
  lemma ThreadInOrder(ms: seq<Message>, conv: string, a: nat, b: nat)
    requires a < b < |Thread(ms, conv)|
    ensures Thread(ms, conv)[a].createdAt <= Thread(ms, conv)[b].createdAt
    ensures Thread(ms, conv)[a].createdAt == Thread(ms, conv)[b].createdAt ==>
      exists i, j :: 0 <= i < j < |ms| && ms[i] == Thread(ms, conv)[a] && ms[j] == Thread(ms, conv)[b]
  {
    var rows := OfConversation(ms, conv);
    SortByStable(rows, Created);
    assert Created(Thread(ms, conv)[a]) <= Created(Thread(ms, conv)[b]);
    if Thread(ms, conv)[a].createdAt == Thread(ms, conv)[b].createdAt {
      var c, d := TiesKeepOrder(rows, Created, a, b);
      var i, j := OfConversationPlaces(ms, conv, c, d);
    }
  }

  /** The listing holds messages of the conversation alone, oldest first. */
  lemma ThreadListed(ms: seq<Message>, conv: string)
    ensures var all := Thread(ms, conv);
      && (forall i :: 0 <= i < |all| ==> all[i] in ms && all[i].conversationId == conv)
      && forall i, j :: 0 <= i < j < |all| ==> all[i].createdAt <= all[j].createdAt
  {
    var all := Thread(ms, conv);
    forall i | 0 <= i < |all| ensures all[i] in ms && all[i].conversationId == conv {
      ThreadHolds(ms, conv, all[i]);
      assert all[i] in multiset(all);
      assert all[i] in multiset(ms);
    }
    forall i, j | 0 <= i < j < |all| ensures all[i].createdAt <= all[j].createdAt {
      ThreadInOrder(ms, conv, i, j);
    }
  }

  class MessageStore {
    var messages: seq<Message>

    constructor ()
      ensures messages == []
    {
      messages := [];
    }

    method SaveMessage(m: Message)
      modifies this
      ensures messages == old(messages) + [m]
    {
      messages := messages + [m];
    }

    method ListMessages(conv: string, limit: int) returns (ms: seq<Message>)
      ensures var n := if limit <= 0 then 50 else limit; var all := Thread(messages, conv);
              ms == if n < |all| then all[..n] else all
      ensures forall i :: 0 <= i < |ms| ==> ms[i] in messages && ms[i].conversationId == conv
      ensures forall i, j :: 0 <= i < j < |ms| ==> ms[i].createdAt <= ms[j].createdAt
    {
      ThreadListed(messages, conv);
      var n := if limit <= 0 then 50 else limit;
      var rows: seq<Message> := [];
      for i := 0 to |messages|
        invariant rows == OfConversation(messages[..i], conv)
      {
        assert messages[..i + 1][..i] == messages[..i];
        if messages[i].conversationId == conv {
          rows := rows + [messages[i]];
        }
      }
      assert messages[..|messages|] == messages;
      ms := SortBy(rows, Created);
      if n < |ms| {
        ms := ms[..n];
      }
    }
  }

  /** The messages other than the current one. */
  function Without(ms: seq<Message>, current: string): (r: seq<Message>)
    ensures |r| <= |ms|
  {
    if ms == [] then []
    else Without(ms[..|ms| - 1], current) + if ms[|ms| - 1].larkId == current then [] else [ms[|ms| - 1]]
  }

  function Bytes(ms: seq<Message>): nat {
    if ms == [] then 0 else |ms[0].content| + Bytes(ms[1..])
  }

  predicate Fits(ms: seq<Message>) {
    |ms| <= MAX_TURNS && Bytes(ms) <= MAX_BYTES
  }

  /** ms[k..] is the longest suffix within both limits, or the newest message alone when even that
      is too long. */
  predicate IsCut(ms: seq<Message>, k: nat) {
    if ms == [] then k == 0
    else k < |ms| && (Fits(ms[k..]) || k == |ms| - 1) && forall j :: 0 <= j < k ==> !Fits(ms[j..])
  }

  predicate KeepsFrom(ms: seq<Message>, kept: seq<Message>, k: nat) {
    IsCut(ms, k) && kept == ms[k..]
  }

  /** The messages a cut keeps. */
  ghost predicate Keeps(ms: seq<Message>, kept: seq<Message>) {
    exists k: nat :: KeepsFrom(ms, kept, k)
  }

  lemma CutUnique(ms: seq<Message>, i: nat, k: nat)
    requires IsCut(ms, i) && IsCut(ms, k)
    ensures i == k
  {
  }

  function TurnOf(m: Message): Turn {
    Turn(m.role, if |m.content| > MAX_BYTES then m.content[..MAX_BYTES] + "...[truncated]" else m.content)
  }

  function Rendered(ms: seq<Message>): seq<Turn> {
    seq(|ms|, i requires 0 <= i < |ms| => TurnOf(ms[i]))
  }

  /** What is fetched of a conversation: its oldest messages. */
  function Fetched(all: seq<Message>): seq<Message> {
    if |all| > 2 * MAX_TURNS then all[..2 * MAX_TURNS] else all
  }

  lemma {:induction false} DropFirst(ms: seq<Message>, k: nat)
    requires k < |ms|
    ensures Bytes(ms[k..]) == |ms[k].content| + Bytes(ms[k + 1..])
  {
    assert ms[k..][1..] == ms[k + 1..];
  }

  lemma {:induction false} BytesSnoc(ms: seq<Message>, m: Message)
    ensures Bytes(ms + [m]) == Bytes(ms) + |m.content|
  {
    if ms == [] {
      assert [m][1..] == [];
      assert ms + [m] == [m];
    } else {
      assert (ms + [m])[1..] == ms[1..] + [m];
      BytesSnoc(ms[1..], m);
    }
  }

  method DropCurrent(msgs: seq<Message>, current: string) returns (filtered: seq<Message>)
    ensures filtered == Without(msgs, current)
  {
    filtered := [];
    for i := 0 to |msgs|
      invariant filtered == Without(msgs[..i], current)
    {
      assert msgs[..i + 1][..i] == msgs[..i];
      if msgs[i].larkId == current {
        continue;
      }
      filtered := filtered + [msgs[i]];
    }
    assert msgs[..|msgs|] == msgs;
  }

  method TotalBytes(ms: seq<Message>) returns (total: nat)
    ensures total == Bytes(ms)
  {
    total := 0;
    for i := 0 to |ms|
      invariant total == Bytes(ms[..i])
    {
      BytesSnoc(ms[..i], ms[i]);
      assert ms[..i + 1] == ms[..i] + [ms[i]];
      total := total + |ms[i].content|;
    }
    assert ms[..|ms|] == ms;
  }

  /** No suffix that starts before k is within the limits. */
  predicate TooMuchBefore(prior: seq<Message>, k: nat)
    requires k <= |prior|
  {
    forall j :: 0 <= j < k ==> !Fits(prior[j..])
  }

  lemma TooMuchBeforeNext(prior: seq<Message>, k: nat)
    requires k < |prior| && TooMuchBefore(prior, k) && !Fits(prior[k..])
    ensures TooMuchBefore(prior, k + 1)
  {
  }

  method Trim(prior: seq<Message>) returns (kept: seq<Message>)
    ensures Keeps(prior, kept)
  {
    kept := prior;
    ghost var k: nat := 0;
    if |kept| > MAX_TURNS {
      k := |kept| - MAX_TURNS;
      kept := kept[|kept| - MAX_TURNS..];
    }
    var total := TotalBytes(kept);
    while total > MAX_BYTES && |kept| > 1
      invariant k <= |prior| && kept == prior[k..] && |kept| <= MAX_TURNS && total == Bytes(kept)
      invariant prior != [] ==> kept != []
      invariant TooMuchBefore(prior, k)
      decreases |kept|
    {
      DropFirst(prior, k);
      TooMuchBeforeNext(prior, k);
      total := total - |kept[0].content|;
      kept := kept[1..];
      k := k + 1;
    }
    assert KeepsFrom(prior, kept, k);
  }

  method Render(ms: seq<Message>) returns (history: seq<Turn>)
    ensures history == Rendered(ms)
  {
    history := [];
    for i := 0 to |ms|
      invariant |history| == i && forall k :: 0 <= k < i ==> history[k] == TurnOf(ms[k])
    {
      var content := ms[i].content;
      if |content| > MAX_BYTES {
        content := content[..MAX_BYTES] + "...[truncated]";
      }
      history := history + [Turn(ms[i].role, content)];
    }
  }

  method BuildHistory(st: MessageStore, conv: string, current: string) returns (history: seq<Turn>)
    ensures exists kept ::
      && Keeps(Without(Fetched(Thread(st.messages, conv)), current), kept)
      && history == Rendered(kept)
    ensures |history| <= 20 && forall i :: 0 <= i < |history| ==> |history[i].content| <= 60000 + |"...[truncated]"|
  {
    var msgs := st.ListMessages(conv, MAX_TURNS * 2);
    var filtered := DropCurrent(msgs, current);
    filtered := Trim(filtered);
    history := Render(filtered);
  }

  // ---------------------------------------------------------------------------------------
  // What is kept and what is not
  // ---------------------------------------------------------------------------------------

  lemma {:induction false} EachWithinTotal(ms: seq<Message>, i: nat)
    requires i < |ms|
    ensures |ms[i].content| <= Bytes(ms)
  {
    if i == 0 {
    } else {
      EachWithinTotal(ms[1..], i - 1);
    }
  }

  /** What the model sees: the kept messages verbatim and within both limits, or one message cut to
      60000 bytes and marked. */
  lemma HistoryVerbatim(prior: seq<Message>, k: nat, i: nat)
    requires IsCut(prior, k) && k + i < |prior|
    ensures |Rendered(prior[k..])| == |prior| - k <= 20
    ensures k > 0 ==> |prior| - k == 20 || Bytes(prior[k - 1..]) > 60000
    ensures Fits(prior[k..]) ==> Rendered(prior[k..])[i] == Turn(prior[k + i].role, prior[k + i].content)
    ensures !Fits(prior[k..]) ==> i == 0 && |prior| == k + 1 && |prior[k].content| > 60000
    ensures !Fits(prior[k..]) ==>
      Rendered(prior[k..]) == [Turn(prior[k].role, prior[k].content[..60000] + "...[truncated]")]
  {
    var kept := prior[k..];
    if Fits(kept) {
      EachWithinTotal(kept, i);
    } else {
      DropFirst(prior, k);
    }
  }

  lemma {:induction false} WithoutConcat(a: seq<Message>, b: seq<Message>, current: string)
    ensures Without(a + b, current) == Without(a, current) + Without(b, current)
    decreases |b|
  {
    if b == [] {
      assert a + b == a;
    } else {
      assert (a + b)[..|a + b| - 1] == a + b[..|b| - 1];
      WithoutConcat(a, b[..|b| - 1], current);
    }
  }

  lemma {:induction false} WithoutKeeps(ms: seq<Message>, current: string, m: Message)
    ensures m in Without(ms, current) <==> m in ms && m.larkId != current
  {
    if ms == [] {
    } else {
      WithoutKeeps(ms[..|ms| - 1], current, m);
      assert ms == ms[..|ms| - 1] + [ms[|ms| - 1]];
    }
  }

  predicate Distinct(ms: seq<Message>) {
    forall i, j :: 0 <= i < j < |ms| ==> ms[i].id != ms[j].id
  }

  /** The 40 oldest messages hold everything but the current one. */
  predicate RestIsCurrent(all: seq<Message>, current: string) {
    forall i :: 2 * MAX_TURNS <= i < |all| ==> all[i].larkId == current
  }

  lemma NothingMissing(all: seq<Message>, current: string)
    requires RestIsCurrent(all, current)
    ensures Without(Fetched(all), current) == Without(all, current)
  {
    if |all| > 2 * MAX_TURNS {
      var rest := all[2 * MAX_TURNS..];
      assert all == Fetched(all) + rest;
      WithoutConcat(Fetched(all), rest, current);
      if Without(rest, current) != [] {
        WithoutKeeps(rest, current, Without(rest, current)[0]);
      }
    }
  }

  lemma CutKeepsLast(ms: seq<Message>, kept: seq<Message>)
    requires Keeps(ms, kept)
    ensures ms != [] ==> kept != [] && kept[|kept| - 1] == ms[|ms| - 1]
    ensures forall m :: m in kept ==> m in ms
  {
  }

  lemma DistinctHalves(all: seq<Message>, n: nat, m: Message)
    requires Distinct(all) && n <= |all| && m in all[n..]
    ensures m !in all[..n]
  {
    var k: nat :| k < |all| - n && all[n..][k] == m;
    assert all[n + k] == m;
  }

  lemma NewestIsBeyond(all: seq<Message>, current: string)
    requires !RestIsCurrent(all, current)
    ensures var w := Without(all, current); w != [] && w[|w| - 1] in all[2 * MAX_TURNS..]
  {
    var n := 2 * MAX_TURNS;
    var rest := all[n..];
    assert all == Fetched(all) + rest;
    WithoutConcat(Fetched(all), rest, current);
    var i :| n <= i < |all| && all[i].larkId != current;
    assert rest[i - n] == all[i];
    WithoutKeeps(rest, current, all[i]);
    var beyond := Without(rest, current);
    WithoutKeeps(rest, current, beyond[|beyond| - 1]);
  }

  lemma NewestIsLost(all: seq<Message>, current: string, kept: seq<Message>, wanted: seq<Message>)
    requires Distinct(all) && !RestIsCurrent(all, current)
    requires Keeps(Without(Fetched(all), current), kept) && Keeps(Without(all, current), wanted)
    ensures wanted != [] && wanted[|wanted| - 1] !in kept
  {
    NewestIsBeyond(all, current);
    CutKeepsLast(Without(all, current), wanted);
    CutKeepsLast(Without(Fetched(all), current), kept);
    var last := wanted[|wanted| - 1];
    DistinctHalves(all, 2 * MAX_TURNS, last);
    WithoutKeeps(Fetched(all), current, last);
  }

  /** The history keeps what the cut of the whole prior conversation keeps exactly when every message
      beyond the 40 oldest is the current one, in particular with at most 40 messages stored. */
  lemma RecentIsKeptIff(all: seq<Message>, current: string, kept: seq<Message>, wanted: seq<Message>)
    requires Distinct(all) && Keeps(Without(Fetched(all), current), kept) && Keeps(Without(all, current), wanted)
    ensures kept == wanted <==> forall i :: 40 <= i < |all| ==> all[i].larkId == current
  {
    if RestIsCurrent(all, current) {
      NothingMissing(all, current);
      var i: nat :| KeepsFrom(Without(all, current), kept, i);
      var k: nat :| KeepsFrom(Without(all, current), wanted, k);
      CutUnique(Without(all, current), i, k);
    } else {
      NewestIsLost(all, current, kept, wanted);
    }
  }
}
