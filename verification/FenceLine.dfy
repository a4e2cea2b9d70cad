/** Objects that begin on the line of the opening fence, and with them the answer for every text that
    opens with anything but a brace: when the object behind it is recovered. */
module FenceLine {
  import opened Options
  import opened Strings
  import opened JsonScanner
  import opened CodeFence

  // ---------------------------------------------------------------------------------------
  // Counting opening braces
  // ---------------------------------------------------------------------------------------

  function Braces(s: string): nat {
    if s == "" then 0 else Braces(s[..|s| - 1]) + if s[|s| - 1] == '{' then 1 else 0
  }

  lemma {:induction false} BracesConcat(a: string, b: string)
    ensures Braces(a + b) == Braces(a) + Braces(b)
    decreases |b|
  {
    if b == "" {
      assert a + b == a;
    } else {
      assert (a + b)[..|a + b| - 1] == a + b[..|b| - 1];
      BracesConcat(a, b[..|b| - 1]);
    }
  }

  lemma {:induction false} NoBraces(s: string)
    requires '{' !in s
    ensures Braces(s) == 0
  {
    if s == "" {
    } else {
      NoBraces(s[..|s| - 1]);
    }
  }

  lemma {:induction false} SomeBrace(s: string)
    requires '{' in s
    ensures Braces(s) > 0
  {
    if s[|s| - 1] != '{' {
      SomeBrace(s[..|s| - 1]);
    }
  }

  lemma SliceBraces(s: string, i: nat, j: nat)
    requires i <= j <= |s|
    ensures Braces(s[i..j]) <= Braces(s)
  {
    assert s == s[..i] + (s[i..j] + s[j..]);
    BracesConcat(s[..i], s[i..j] + s[j..]);
    BracesConcat(s[i..j], s[j..]);
  }

  lemma {:induction false} TrimBraces(s: string)
    ensures Braces(TrimLeft(s)) <= Braces(s) && Braces(TrimRight(s)) <= Braces(s)
    decreases |s|
  {
    if s == "" {
    } else {
      TrimBraces(s[1..]);
      TrimBraces(s[..|s| - 1]);
      SliceBraces(s, 1, |s|);
      assert s[1..|s|] == s[1..];
      SliceBraces(s, 0, |s| - 1);
      assert s[0..|s| - 1] == s[..|s| - 1];
    }
  }

  lemma FoundBraces(s: string)
    ensures Braces(FirstObject(s)) <= Braces(s)
  {
    var i := IndexOf(s, '{');
    if i.Some? {
      var k := FirstClose(START, s[i.value..]);
      if k.Some? { SliceBraces(s, i.value, i.value + k.value + 1); }
    }
  }

  /** What is found behind the first line has no more braces than there are behind it. */
  lemma FoundBehindFirstLine(t: string)
    ensures Braces(FirstObject(TrimSpace(BeforeLastFence(AfterFirstNewline(t))))) <= Braces(AfterFirstNewline(t))
  {
    var body := AfterFirstNewline(t);
    var cut := BeforeLastFence(body);
    if LastFence(body).Some? { SliceBraces(body, 0, LastFence(body).value); }
    TrimBraces(cut);
    TrimBraces(TrimLeft(cut));
    FoundBraces(TrimSpace(cut));
  }

  lemma InPrefix(t: string, k: nat, i: nat)
    requires i < k <= |t|
    ensures t[i] in t[..k]
  {
    assert t[..k][i] == t[i];
  }

  lemma NotBefore(t: string, k: nat, i: nat)
    requires k <= |t| && i < |t| && t[i] !in t[..k]
    ensures k <= i
  {
    if i < k { InPrefix(t, k, i); }
  }

  lemma HeadTakesBrace(t: string, k: nat, n: nat)
    requires k < n <= |t| && t[k] == '{'
    ensures Braces(t[n..]) < Braces(t)
  {
    assert t == t[..n] + t[n..];
    BracesConcat(t[..n], t[n..]);
    assert t[..n][k] == '{';
    SomeBrace(t[..n]);
  }

  lemma FirstNewline(t: string) returns (i: nat)
    requires '\n' in t
    ensures i < |t| && t[i] == '\n' && AfterFirstNewline(t) == t[i + 1..]
  {
    i := IndexOf(t, '\n').value;
  }

  lemma FirstLineTakesBrace(t: string, k: nat)
    requires k < |t| && t[k] == '{' && '\n' in t && '\n' !in t[..k]
    ensures Braces(AfterFirstNewline(t)) < Braces(t)
  {
    var i := FirstNewline(t);
    NotBefore(t, k, i);
    assert t[k] != t[i];
    HeadTakesBrace(t, k, i + 1);
  }

  // ---------------------------------------------------------------------------------------
  // The object begins on the line of the opening fence
  // ---------------------------------------------------------------------------------------

  /** What the fence stripper works on. */
  function Opened(u: string, o: Value, rest: string): string {
    FENCE + u + Print(o) + TrimRight(rest)
  }

  predicate LineSpares(u: string, o: Value, rest: string) {
    && '\n' !in Print(o) + TrimRight(rest)
    && LastFence(Opened(u, o, rest)).Some?
    && LastFence(Opened(u, o, rest)).value >= |FENCE + u + Print(o)|
  }

  lemma OpenedStripped(lead: string, u: string, o: Value, rest: string)
    requires AllSpace(lead) && o.Object?
    ensures Stripped(lead + FENCE + u + Print(o) + rest)
      == TrimSpace(BeforeLastFence(AfterFirstNewline(Opened(u, o, rest))))
  {
    ObjectIsSolid(o);
    var mid := FENCE + u + Print(o);
    assert lead + FENCE + u + Print(o) + rest == lead + mid + rest;
    assert mid[0] == '`' && mid[|mid| - 1] == '}';
    TrimAround(lead, mid, rest);
    assert (mid + TrimRight(rest))[..3] == FENCE;
  }

  lemma OpenedBraces(u: string, o: Value, rest: string)
    requires '{' !in u && '{' !in rest
    ensures Braces(Opened(u, o, rest)) == Braces(Print(o))
  {
    TrimKeepsOut(rest, '{');
    NoBraces(FENCE);
    NoBraces(u);
    NoBraces(TrimRight(rest));
    BracesConcat(FENCE, u);
    BracesConcat(FENCE + u, Print(o));
    BracesConcat(FENCE + u + Print(o), TrimRight(rest));
  }

  lemma NewlineLoses(u: string, o: Value, rest: string)
    requires '\n' !in u && '{' !in u && '{' !in rest && o.Object?
    requires '\n' in Print(o) + TrimRight(rest)
    ensures FirstObject(TrimSpace(BeforeLastFence(AfterFirstNewline(Opened(u, o, rest))))) != Print(o)
  {
    var t, k := Opened(u, o, rest), |FENCE + u|;
    ObjectIsSolid(o);
    assert t == (FENCE + u) + (Print(o) + TrimRight(rest));
    assert t[k] == '{' && t[..k] == FENCE + u;
    OpenedBraces(u, o, rest);
    FirstLineTakesBrace(t, k);
    FoundBehindFirstLine(t);
  }

  lemma FenceOpens(u: string, o: Value, rest: string)
    requires o.Object?
    ensures LastFence(Opened(u, o, rest)).Some?
    ensures |BeforeLastFence(Opened(u, o, rest))| == LastFence(Opened(u, o, rest)).value
  {
    var t := Opened(u, o, rest);
    assert t[0..3] == FENCE;
    assert FenceAt(t, 0);
  }

  lemma OneLine(u: string, o: Value, rest: string)
    requires '\n' !in u && '{' !in u && o.Object? && ValueOk(o)
    requires '\n' !in Print(o) + TrimRight(rest)
    ensures FirstObject(TrimSpace(BeforeLastFence(AfterFirstNewline(Opened(u, o, rest)))))
         == if LineSpares(u, o, rest) then Print(o) else ""
  {
    var t := Opened(u, o, rest);
    assert t == (FENCE + u) + (Print(o) + TrimRight(rest));
    assert '\n' !in t;
    FenceOpens(u, o, rest);
    CutAt(FENCE + u, o, TrimRight(rest), LastFence(t).value);
  }

  /** An object on the line of the opening fence, with no brace around it, is recovered exactly when
      no newline follows and the last fence does not begin in front of the object's end. */
  lemma FenceLineObjectIff(lead: string, u: string, o: Value, rest: string)
    requires AllSpace(lead) && '\n' !in u && '{' !in u && '{' !in rest && o.Object? && ValueOk(o)
    ensures FirstObject(Stripped(lead + FENCE + u + Print(o) + rest)) == Print(o) <==> LineSpares(u, o, rest)
  {
    OpenedStripped(lead, u, o, rest);
    ObjectIsSolid(o);
    if '\n' in Print(o) + TrimRight(rest) {
      NewlineLoses(u, o, rest);
    } else {
      OneLine(u, o, rest);
    }
  }

  // ---------------------------------------------------------------------------------------
  // Every text with one object
  // ---------------------------------------------------------------------------------------

  /** The text opens no fence, or the fence spares the object behind it. */
  predicate Recoverable(prefix: string, o: Value, rest: string) {
    var t := TrimLeft(prefix);
    if !(FENCE <= t) then true
    else match IndexOf(t, '\n')
      case Some(i) => FenceSpares(t[i + 1..], o, rest)
      case None => LineSpares(t[3..], o, rest)
  }

  lemma FenceParts(t: string, i: nat)
    requires FENCE <= t && IndexOf(t, '\n') == Some(i)
    ensures 3 <= i && t == FENCE + t[3..i] + "\n" + t[i + 1..] && '\n' !in t[3..i]
  {
    assert t[..3] == FENCE;
    NotBefore(t, 3, i);
    assert t[..i][3..] == t[3..i];
    assert forall j :: 0 <= j < i - 3 ==> t[3..i][j] == t[..i][j + 3];
  }

  lemma Reassociated(lead: string, lang: string, prefix: string, x: string, rest: string)
    ensures (lead + (FENCE + lang + "\n" + prefix)) + x + rest == lead + FENCE + lang + "\n" + prefix + x + rest
  {
    assert lead + (FENCE + lang + "\n" + prefix) == lead + FENCE + lang + "\n" + prefix;
  }

  lemma FencedLater(lead: string, t: string, i: nat, o: Value, rest: string)
    requires AllSpace(lead) && FENCE <= t && '{' !in t && IndexOf(t, '\n') == Some(i) && o.Object? && ValueOk(o)
    ensures FirstObject(Stripped((lead + t) + Print(o) + rest)) ==
      if FenceSpares(t[i + 1..], o, rest) then Print(o) else ""
  {
    FenceParts(t, i);
    Reassociated(lead, t[3..i], t[i + 1..], Print(o), rest);
    FencedObjectIff(lead, t[3..i], t[i + 1..], o, rest);
  }

  lemma FencedHere(lead: string, t: string, o: Value, rest: string)
    requires AllSpace(lead) && FENCE <= t && '{' !in t && '\n' !in t && '{' !in rest && o.Object? && ValueOk(o)
    ensures FirstObject(Stripped((lead + t) + Print(o) + rest)) == Print(o) <==> LineSpares(t[3..], o, rest)
  {
    assert t[..3] == FENCE && t == FENCE + t[3..];
    assert lead + t == lead + FENCE + t[3..];
    FenceLineObjectIff(lead, t[3..], o, rest);
  }

  /** For any printed object between texts without an opening brace: exactly when stripping the fence
      and looking for the first object gives it back. */
  lemma RecoveredIff(prefix: string, o: Value, rest: string)
    requires '{' !in prefix && '{' !in rest && o.Object? && ValueOk(o)
    ensures FirstObject(Stripped(prefix + Print(o) + rest)) == Print(o) <==> Recoverable(prefix, o, rest)
  {
    var t := TrimLeft(prefix);
    if !(FENCE <= t) {
      UnfencedRecovers(prefix, o, rest);
    } else {
      var lead := TrimLeftSplits(prefix);
      TrimKeepsOut(prefix, '{');
      match IndexOf(t, '\n') {
        case Some(i) =>
          FencedLater(lead, t, i, o, rest);
          ObjectIsSolid(o);
        case None => FencedHere(lead, t, o, rest);
      }
    }
  }

  /** {"a":1} with a newline behind its brace */
  const SPREAD := Object("", Member("\n", [Plain('a')], "", "", Atom("1"), "", NoMembers))

  lemma SpreadOk()
    ensures ValueOk(SPREAD)
  {
    assert "1"[0] in "0123456789+-.eE";
    assert "\n"[0] in " \t\n\r";
  }

  lemma SpreadPrinted()
    ensures Print(SPREAD) == "{\n\"a\":1}"
  {
    assert [Plain('a')][1..] == [];
    assert Quoted([Plain('a')]) == "\"a\"";
    assert PrintMembers(SPREAD.members) == "\n\"a\":1";
  }

  /** A valid object inside a closed fence is lost when its brace stands on the fence's own line. */
  lemma ClosedFenceCanLose()
    ensures ValueOk(SPREAD)
    ensures FirstObject(Stripped("" + FENCE + "" + Print(SPREAD) + ("\n" + FENCE))) != Print(SPREAD)
  {
    SpreadOk();
    SpreadPrinted();
    var rest := "\n" + FENCE;
    assert Print(SPREAD)[1] == '\n';
    assert (Print(SPREAD) + TrimRight(rest))[1] == '\n';
    FenceLineObjectIff("", "", SPREAD, rest);
  }
}
