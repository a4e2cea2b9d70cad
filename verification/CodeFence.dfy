/** `stripCodeFences`, and the chat reply parser that runs the object scanner behind it. */
module CodeFence {
  import opened Options
  import opened Strings
  import opened JsonScanner

  // ---------------------------------------------------------------------------------------
  // Stripping the fence
  // ---------------------------------------------------------------------------------------

  const FENCE := "```"

  predicate FenceAt(s: string, i: int) {
    0 <= i && i + 3 <= |s| && s[i..i + 3] == FENCE
  }

  /** The last fence starting before position n. */
  function LastFenceBefore(s: string, n: nat): (r: Option<nat>)
    ensures r.None? ==> forall i :: 0 <= i < n ==> !FenceAt(s, i)
    ensures r.Some? ==> r.value < n && FenceAt(s, r.value) && forall i :: r.value < i < n ==> !FenceAt(s, i)
  {
    if n == 0 then None else if FenceAt(s, n - 1) then Some(n - 1) else LastFenceBefore(s, n - 1)
  }

  function LastFence(s: string): Option<nat> {
    LastFenceBefore(s, |s|)
  }

  function AfterFirstNewline(s: string): string {
    match IndexOf(s, '\n')
    case None => s
    case Some(i) => s[i + 1..]
  }

  function BeforeLastFence(s: string): string {
    match LastFence(s)
    case None => s
    case Some(i) => s[..i]
  }

  function Stripped(text: string): string {
    var t := TrimSpace(text);
    if FENCE <= t then TrimSpace(BeforeLastFence(AfterFirstNewline(t))) else t
  }

  method StripCodeFences(text: string) returns (cleaned: string)
    ensures cleaned == Stripped(text)
  {
    cleaned := TrimSpace(text);
    if FENCE <= cleaned {
      var newline := IndexOf(cleaned, '\n');
      if newline.Some? {
        cleaned := cleaned[newline.value + 1..];
      }
      var closing := LastFence(cleaned);
      if closing.Some? {
        cleaned := cleaned[..closing.value];
      }
      cleaned := TrimSpace(cleaned);
    }
  }

  // ---------------------------------------------------------------------------------------
  // Printed objects behind a fence
  // ---------------------------------------------------------------------------------------

  /** What a fenced reply has after its first line, up to space at its end. */
  function Body(prefix: string, o: Value, rest: string): string {
    prefix + Print(o) + TrimRight(rest)
  }

  /** No fence begins in front of the object's end, or a later one closes the block. */
  predicate FenceSpares(prefix: string, o: Value, rest: string) {
    var last := LastFence(Body(prefix, o, rest));
    last.None? || last.value >= |prefix + Print(o)|
  }

  lemma ObjectIsSolid(o: Value)
    requires o.Object?
    ensures Solid(Print(o)) && Print(o)[0] == '{' && Print(o)[|Print(o)| - 1] == '}'
  {
  }

  /** Trimming around an object, whole or cut short, changes nothing for the scanner. */
  lemma TrimThenFind(prefix: string, o: Value, rest: string)
    requires '{' !in prefix && o.Object? && ValueOk(o)
    ensures FirstObject(TrimSpace(prefix + Print(o) + rest)) == Print(o)
  {
    ObjectIsSolid(o);
    TrimAround(prefix, Print(o), rest);
    FindsPrintedObject(TrimLeft(prefix), o, TrimRight(rest));
  }

  lemma NothingWithoutBrace(s: string)
    requires '{' !in s
    ensures FirstObject(TrimSpace(s)) == ""
  {
    TrimKeepsOut(s, '{');
    TrimKeepsOut(TrimLeft(s), '{');
  }

  lemma TrimAfterBrace(prefix: string, tail: string) returns (m: nat)
    ensures m <= |tail| && TrimSpace(prefix + ("{" + tail)) == TrimLeft(prefix) + ("{" + tail[..m])
  {
    TrimAround(prefix, "{", tail);
    m := TrimRightIsPrefix(tail);
    assert prefix + "{" + tail == prefix + ("{" + tail);
    assert TrimLeft(prefix) + "{" + tail[..m] == TrimLeft(prefix) + ("{" + tail[..m]);
  }

  /** Trimming behind a text cut short cuts it shorter, but leaves its brace. */
  lemma TrimCut(prefix: string, x: string, n: nat) returns (m: nat)
    requires 0 < n <= |x| && x[0] == '{'
    ensures 0 < m <= n && TrimSpace(prefix + x[..n]) == TrimLeft(prefix) + x[..m]
  {
    var tail := x[1..n];
    assert x[..n] == "{" + tail;
    var k := TrimAfterBrace(prefix, tail);
    assert "{" + tail[..k] == x[..k + 1];
    m := k + 1;
  }

  lemma TrimThenLose(prefix: string, o: Value, n: nat)
    requires '{' !in prefix && o.Object? && ValueOk(o) && n < |Print(o)|
    ensures FirstObject(TrimSpace(prefix + Print(o)[..n])) == ""
  {
    ObjectIsSolid(o);
    if n == 0 {
      assert prefix + Print(o)[..0] == prefix;
      NothingWithoutBrace(prefix);
    } else {
      var m := TrimCut(prefix, Print(o), n);
      TrimAround(prefix, "{", "");
      CutObjectIsLost(TrimLeft(prefix), o, m);
    }
  }

  lemma FirstLineDropped(lang: string, body: string)
    requires '\n' !in lang
    ensures FENCE <= FENCE + lang + "\n" + body && AfterFirstNewline(FENCE + lang + "\n" + body) == body
  {
    var line := FENCE + lang;
    var t := line + "\n" + body;
    assert t[..3] == FENCE;
    assert t[..|line|] == line && t[|line|] == '\n';
    IndexIs(t, '\n', |line|);
    assert t[|line| + 1..] == body;
  }

  lemma StrippedFence(lead: string, lang: string, prefix: string, o: Value, rest: string)
    requires AllSpace(lead) && '\n' !in lang && o.Object?
    ensures Stripped(lead + FENCE + lang + "\n" + prefix + Print(o) + rest)
      == TrimSpace(BeforeLastFence(Body(prefix, o, rest)))
  {
    ObjectIsSolid(o);
    var line, body := FENCE + lang, Body(prefix, o, rest);
    var mid := line + "\n" + prefix + Print(o);
    assert lead + FENCE + lang + "\n" + prefix + Print(o) + rest == lead + mid + rest;
    assert mid[0] == '`' && mid[|mid| - 1] == '}';
    TrimAround(lead, mid, rest);
    assert mid + TrimRight(rest) == line + "\n" + body;
    FirstLineDropped(lang, body);
  }

  lemma CutAt(prefix: string, o: Value, rest: string, i: nat)
    requires '{' !in prefix && o.Object? && ValueOk(o) && i <= |prefix + Print(o) + rest|
    ensures FirstObject(TrimSpace((prefix + Print(o) + rest)[..i])) == if i >= |prefix + Print(o)| then Print(o) else ""
  {
    var text, n := prefix + Print(o) + rest, |prefix + Print(o)|;
    if i >= n {
      assert text[..i] == prefix + Print(o) + rest[..i - n];
      TrimThenFind(prefix, o, rest[..i - n]);
    } else if i >= |prefix| {
      assert text[..i] == prefix + Print(o)[..i - |prefix|];
      TrimThenLose(prefix, o, i - |prefix|);
    } else {
      assert text[..i] == prefix[..i];
      NothingWithoutBrace(prefix[..i]);
    }
  }

  lemma CutsOutside(prefix: string, o: Value, rest: string)
    requires '{' !in prefix && o.Object? && ValueOk(o)
    ensures FirstObject(TrimSpace(BeforeLastFence(Body(prefix, o, rest)))) ==
      if FenceSpares(prefix, o, rest) then Print(o) else ""
  {
    match LastFence(Body(prefix, o, rest)) {
      case None => TrimThenFind(prefix, o, TrimRight(rest));
      case Some(i) => CutAt(prefix, o, TrimRight(rest), i);
    }
  }

  /** A printed object behind "```lang" is recovered exactly when the last fence after the first
      line does not begin in front of the object's end; otherwise nothing is found. */
  lemma FencedObjectIff(lead: string, lang: string, prefix: string, o: Value, rest: string)
    requires AllSpace(lead) && '\n' !in lang && '{' !in prefix && o.Object? && ValueOk(o)
    ensures var found := FirstObject(Stripped(lead + FENCE + lang + "\n" + prefix + Print(o) + rest));
            if FenceSpares(prefix, o, rest) then found == Print(o) else found == ""
  {
    StrippedFence(lead, lang, prefix, o, rest);
    CutsOutside(prefix, o, rest);
  }

  /** With a closing fence behind it the object is always recovered, backticks, braces and escaped
      quotes in its strings notwithstanding. */
  lemma ClosedFenceRecovers(lead: string, lang: string, prefix: string, o: Value, suffix: string, trail: string)
    requires AllSpace(lead) && '\n' !in lang && '{' !in prefix && o.Object? && ValueOk(o)
    ensures FirstObject(Stripped(lead + FENCE + lang + "\n" + prefix + Print(o) + (suffix + FENCE + trail))) == Print(o)
  {
    var rest := suffix + FENCE + trail;
    TrimRightTo(suffix + FENCE, trail);
    var body := Body(prefix, o, rest);
    var i := |prefix + Print(o) + suffix|;
    assert body == (prefix + Print(o) + suffix) + FENCE + TrimRight(trail);
    assert FenceAt(body, i);
    FencedObjectIff(lead, lang, prefix, o, rest);
  }

  lemma StrippedPlain(text: string)
    requires !(FENCE <= TrimSpace(text))
    ensures Stripped(text) == TrimSpace(text)
  {
  }

  lemma NoFenceBeforeBrace(a: string, x: string, b: string)
    requires !(FENCE <= a) && x != "" && x[0] == '{'
    ensures !(FENCE <= a + x + b)
  {
    var t := a + x + b;
    if |a| < 3 {
      assert t[|a|] == '{' && FENCE[|a|] == '`';
    } else {
      assert t[..3] == a[..3];
    }
  }

  lemma NoFenceAfterTrim(prefix: string, x: string, rest: string)
    requires Solid(x) && x[0] == '{' && !(FENCE <= TrimLeft(prefix))
    ensures !(FENCE <= TrimSpace(prefix + x + rest))
  {
    TrimAround(prefix, x, rest);
    NoFenceBeforeBrace(TrimLeft(prefix), x, TrimRight(rest));
  }

  /** Without a fence in front, any prose without a brace may precede the object. */
  lemma UnfencedRecovers(prefix: string, o: Value, rest: string)
    requires '{' !in prefix && o.Object? && ValueOk(o) && !(FENCE <= TrimLeft(prefix))
    ensures FirstObject(Stripped(prefix + Print(o) + rest)) == Print(o)
  {
    ObjectIsSolid(o);
    NoFenceAfterTrim(prefix, Print(o), rest);
    StrippedPlain(prefix + Print(o) + rest);
    TrimThenFind(prefix, o, rest);
  }

  /** {"a":"```"} */
  const TICKS := Object("", Member("", [Plain('a')], "", "", Text([Plain('`'), Plain('`'), Plain('`')]), "", NoMembers))

  lemma TicksPrinted()
    ensures ValueOk(TICKS) && Print(TICKS) == "{\"a\":\"```\"}"
  {
    var ticks := [Plain('`'), Plain('`'), Plain('`')];
    assert ticks[1..] == [Plain('`'), Plain('`')] && ticks[2..] == [Plain('`')];
    assert PrintItems(ticks) == FENCE;
  }

  /** An unclosed fence loses an object with three backticks in a string. */
  lemma UnclosedFenceLoses()
    ensures ValueOk(TICKS) && FirstObject(Stripped("" + FENCE + "" + "\n" + "" + Print(TICKS) + "")) == ""
  {
    TicksPrinted();
    var text := Print(TICKS);
    assert "" + text + "" == text && |text| == 11;
    assert FenceAt(text, 6);
    assert Body("", TICKS, "") == text;
    FencedObjectIff("", "", "", TICKS, "");
  }

  // ---------------------------------------------------------------------------------------
  // The chat reply
  // ---------------------------------------------------------------------------------------

  const TEXT := "text"
  const REVISED_PLAN := "revised_plan"

  /** plan holds the commands of the revised plan, None when the reply carries no plan. */
  datatype ChatResponse = ChatResponse(kind: string, textContent: string, plan: Option<seq<string>>, summary: string)

  /** A reply the chat can act on. */
  predicate Usable(r: ChatResponse) {
    r.kind == TEXT || (r.kind == REVISED_PLAN && r.plan.Some? && r.plan.value != [])
  }

  function DegradeToText(raw: string, prefix: string): ChatResponse {
    var body := TrimSpace(raw);
    ChatResponse(TEXT, if body == "" then prefix else prefix + ":\n\n" + body, None, prefix)
  }

  /** What the decoder is given. */
  function Candidate(text: string): string {
    var cleaned := Stripped(text);
    if FirstObject(cleaned) != "" then FirstObject(cleaned) else cleaned
  }

  /** decode is the JSON decoder; None stands for its error. */
  method ParseChatResponse(text: string, decode: string -> Option<ChatResponse>) returns (r: ChatResponse)
    ensures Usable(r)
    ensures var d := decode(Candidate(text));
            if d.Some? && Usable(d.value) then r == d.value else r.summary != "" && r == DegradeToText(text, r.summary)
    ensures var d := decode(Candidate(text));
      && (d.None? ==> r.summary == "I had trouble formatting my response")
      && (d.Some? && d.value.kind !in {"text", "revised_plan"} ==>
            r.summary == "LLM returned an unrecognized response type")
      && (d.Some? && d.value.kind == "revised_plan" && d.value.plan in {None, Some([])} ==>
            r.summary == "LLM indicated a revised plan but did not produce one")
  {
    var cleaned := StripCodeFences(text);
    var extracted := ExtractFirstJSONObject(cleaned);
    if extracted != "" {
      cleaned := extracted;
    }
    var decoded := decode(cleaned);
    if decoded.Some? {
      r := decoded.value;
      if r.kind != TEXT && r.kind != REVISED_PLAN {
        return DegradeToText(text, "LLM returned an unrecognized response type");
      }
      if r.kind == REVISED_PLAN && (r.plan.None? || |r.plan.value| == 0) {
        return DegradeToText(text, "LLM indicated a revised plan but did not produce one");
      }
      return;
    }
    r := DegradeToText(text, "I had trouble formatting my response");
  }

  /** A degraded reply is a text that ends in all of the raw output, trimmed, behind what went wrong. */
  lemma DegradedCarriesAll(raw: string, prefix: string)
    ensures var r, body := DegradeToText(raw, prefix), TrimSpace(raw);
      && r.kind == "text" && r.plan.None? && r.summary == prefix
      && |r.textContent| >= |prefix| + |body| && r.textContent[..|prefix|] == prefix
      && r.textContent[|r.textContent| - |body|..] == body
      && (body != "" ==> r.textContent[|prefix|..|r.textContent| - |body|] == ":\n\n")
  {
  }

  /** A closed fence around a printed reply: the decoder gets exactly the printed object. */
  lemma FencedReplyIsDecoded(lang: string, prefix: string, o: Value, suffix: string, trail: string)
    requires '\n' !in lang && '{' !in prefix && o.Object? && ValueOk(o)
    ensures Candidate(FENCE + lang + "\n" + prefix + Print(o) + (suffix + FENCE + trail)) == Print(o)
  {
    ClosedFenceRecovers("", lang, prefix, o, suffix, trail);
    assert "" + FENCE == FENCE;
    ObjectIsSolid(o);
  }
}
