/** `extractFirstJSONObject`, and JSON texts as RFC 8259 prints them. Characters are code points;
    the loop only looks for ASCII characters, which UTF-8 never uses inside a longer sequence. */
module JsonScanner {
  import opened Options
  import opened Strings

  // ---------------------------------------------------------------------------------------
  // The scan
  // ---------------------------------------------------------------------------------------

  datatype Scan = Scan(depth: int, inStr: bool, escaped: bool)

  const START := Scan(0, false, false)

  predicate Structural(st: Scan, c: char) {
    !st.escaped && !st.inStr && c != '\\' && c != '"'
  }

  function Step(st: Scan, c: char): Scan {
    if st.escaped then st.(escaped := false)
    else if c == '\\' then st.(escaped := true)
    else if c == '"' then st.(inStr := !st.inStr)
    else if st.inStr then st
    else if c == '{' then st.(depth := st.depth + 1)
    else if c == '}' then st.(depth := st.depth - 1)
    else st
  }

  predicate Closes(st: Scan, c: char) {
    Structural(st, c) && c == '}' && st.depth == 1
  }

  /** Where the brace that brings the depth back to 0 is. */
  function FirstClose(st: Scan, s: string): (r: Option<nat>)
    ensures r.Some? ==> r.value < |s|
    decreases |s|
  {
    if s == "" then None
    else if Closes(st, s[0]) then Some(0)
    else match FirstClose(Step(st, s[0]), s[1..])
      case None => None
      case Some(k) => Some(k + 1)
  }

  /** The text from the first `{` to the brace that balances it; empty when there is none. */
  function FirstObject(s: string): string {
    match IndexOf(s, '{')
    case None => ""
    case Some(i) =>
      match FirstClose(START, s[i..])
      case None => ""
      case Some(k) => s[i..i + k + 1]
  }

  function Shifted(r: Option<nat>, offset: nat): Option<nat> {
    if r.None? then None else Some(offset + r.value)
  }

  lemma ScanOne(st: Scan, s: string, i: nat)
    requires i < |s|
    ensures FirstClose(st, s[i..]) == if Closes(st, s[i]) then Some(0)
      else Shifted(FirstClose(Step(st, s[i]), s[i + 1..]), 1)
  {
    assert s[i..][0] == s[i] && s[i..][1..] == s[i + 1..];
  }

  /** After i characters the loop's variables st stand for the whole scan from start. */
  predicate ScannedTo(s: string, start: nat, i: nat, st: Scan) {
    start <= i <= |s| && FirstClose(START, s[start..]) == Shifted(FirstClose(st, s[i..]), i - start)
  }

  lemma ScanNext(s: string, start: nat, i: nat, st: Scan)
    requires ScannedTo(s, start, i, st) && i < |s|
    ensures if Closes(st, s[i]) then FirstClose(START, s[start..]) == Some(i - start)
      else ScannedTo(s, start, i + 1, Step(st, s[i]))
  {
    ScanOne(st, s, i);
  }

  method ExtractFirstJSONObject(s: string) returns (r: string)
    ensures r == FirstObject(s)
  {
    var found := IndexOf(s, '{');
    if found.None? {
      return "";
    }
    var start := found.value;
    var depth, inStr, escaped := 0, false, false;
    for i := start to |s|
      invariant ScannedTo(s, start, i, Scan(depth, inStr, escaped))
    {
      var c := s[i];
      ScanNext(s, start, i, Scan(depth, inStr, escaped));
      if escaped {
        escaped := false;
        continue;
      }
      if c == '\\' {
        escaped := true;
        continue;
      }
      if c == '"' {
        inStr := !inStr;
        continue;
      }
      if inStr {
        continue;
      }
      match c {
        case '{' => depth := depth + 1;
        case '}' =>
          depth := depth - 1;
          if depth == 0 {
            return s[start..i + 1];
          }
        case _ =>
      }
    }
    r := "";
  }

  /** Scanning text from st meets no closing brace and ends in the returned state. */
  function Over(st: Scan, text: string): Option<Scan>
    decreases |text|
  {
    if text == "" then Some(st)
    else if Closes(st, text[0]) then None
    else Over(Step(st, text[0]), text[1..])
  }

  lemma {:induction false} OverConcat(st: Scan, a: string, b: string)
    requires Over(st, a).Some?
    ensures Over(st, a + b) == Over(Over(st, a).value, b)
    ensures FirstClose(st, a + b)
      == match FirstClose(Over(st, a).value, b) case None => None case Some(k) => Some(|a| + k)
    decreases |a|
  {
    if a == "" {
      assert a + b == b;
    } else {
      assert (a + b)[1..] == a[1..] + b;
      OverConcat(Step(st, a[0]), a[1..], b);
    }
  }

  /** What comes before the closing brace has no closing brace. */
  lemma {:induction false} NoCloseBefore(st: Scan, s: string, n: nat)
    requires FirstClose(st, s).Some? && n <= FirstClose(st, s).value
    ensures FirstClose(st, s[..n]).None?
    decreases n
  {
    if n == 0 {
    } else {
      assert s[..n][1..] == s[1..][..n - 1];
      NoCloseBefore(Step(st, s[0]), s[1..], n - 1);
    }
  }

  /** Inside an object, the scan passes text and is where it was. */
  ghost predicate Neutral(text: string) {
    forall d: int :: d >= 1 ==> Passed(d, text)
  }

  predicate Passed(d: int, text: string) {
    Over(Scan(d, false, false), text) == Some(Scan(d, false, false))
  }

  lemma NeutralConcat(a: string, b: string)
    requires Neutral(a) && Neutral(b)
    ensures Neutral(a + b)
  {
    forall d: int | d >= 1 ensures Passed(d, a + b) {
      assert Passed(d, a) && Passed(d, b);
      OverConcat(Scan(d, false, false), a, b);
    }
  }

  predicate Bland(c: char) {
    c != '{' && c != '}' && c != '"' && c != '\\'
  }

  predicate AllBland(text: string) {
    forall i :: 0 <= i < |text| ==> Bland(text[i])
  }

  lemma {:induction false} BlandOver(d: int, text: string)
    requires AllBland(text)
    ensures Passed(d, text)
  {
    if text == "" {
    } else {
      BlandOver(d, text[1..]);
    }
  }

  lemma BlandIsNeutral(text: string)
    requires AllBland(text)
    ensures Neutral(text)
  {
    forall d: int | d >= 1 ensures Passed(d, text) {
      BlandOver(d, text);
    }
  }

  // ---------------------------------------------------------------------------------------
  // JSON texts
  // ---------------------------------------------------------------------------------------

  /** Section 7 of RFC 8259: unescaped characters, two-character escapes, \uXXXX. */
  datatype Item = Plain(c: char) | Escape(c: char) | Unicode(h0: char, h1: char, h2: char, h3: char)

  /** Every place where the grammar allows insignificant whitespace has a field for it. */
  datatype Value =
    | Atom(text: string)
    | Text(items: seq<Item>)
    | Array(pad: string, elements: Elements)
    | Object(pad: string, members: Members)

  datatype Elements = NoElements | Element(before: string, value: Value, after: string, rest: Elements)

  datatype Members =
    | NoMembers
    | Member(before: string, name: seq<Item>, preColon: string, postColon: string, value: Value, after: string,
      rest: Members)

  predicate IsHex(c: char) {
    '0' <= c <= '9' || 'a' <= c <= 'f' || 'A' <= c <= 'F'
  }

  predicate ItemOk(item: Item) {
    match item
    case Plain(c) => ' ' <= c && c != '"' && c != '\\'
    case Escape(c) => c in "\"\\/bfnrt"
    case Unicode(h0, h1, h2, h3) => IsHex(h0) && IsHex(h1) && IsHex(h2) && IsHex(h3)
  }

  predicate Blank(ws: string) {
    forall i :: 0 <= i < |ws| ==> ws[i] in " \t\n\r"
  }

  /** The three literal names, or a text over the alphabet of numbers. */
  predicate AtomOk(text: string) {
    text in {"true", "false", "null"} || forall i :: 0 <= i < |text| ==> text[i] in "0123456789+-.eE"
  }

  predicate ItemsOk(items: seq<Item>) {
    forall i :: 0 <= i < |items| ==> ItemOk(items[i])
  }

  predicate ValueOk(v: Value) {
    match v
    case Atom(text) => AtomOk(text)
    case Text(items) => ItemsOk(items)
    case Array(pad, es) => Blank(pad) && ElementsOk(es)
    case Object(pad, ms) => Blank(pad) && MembersOk(ms)
  }

  predicate ElementsOk(es: Elements) {
    es.Element? ==> Blank(es.before) && ValueOk(es.value) && Blank(es.after) && ElementsOk(es.rest)
  }

  predicate MembersOk(ms: Members) {
    ms.Member? ==>
      && Blank(ms.before) && ItemsOk(ms.name) && Blank(ms.preColon) && Blank(ms.postColon)
      && ValueOk(ms.value) && Blank(ms.after) && MembersOk(ms.rest)
  }

  function PrintItem(item: Item): string {
    match item
    case Plain(c) => [c]
    case Escape(c) => ['\\', c]
    case Unicode(h0, h1, h2, h3) => ['\\', 'u', h0, h1, h2, h3]
  }

  function PrintItems(items: seq<Item>): string {
    if items == [] then "" else PrintItem(items[0]) + PrintItems(items[1..])
  }

  function Quoted(items: seq<Item>): string {
    "\"" + PrintItems(items) + "\""
  }

  function Print(v: Value): string
    decreases v, 0
  {
    match v
    case Atom(text) => text
    case Text(items) => Quoted(items)
    case Array(pad, es) => "[" + (if es.NoElements? then pad else PrintElements(es)) + "]"
    case Object(pad, ms) => "{" + Inner(pad, ms) + "}"
  }

  function Inner(pad: string, ms: Members): string
    decreases ms, 1
  {
    if ms.NoMembers? then pad else PrintMembers(ms)
  }

  function PrintElements(es: Elements): string
    decreases es, 0
  {
    if es.NoElements? then ""
    else es.before + Print(es.value) + es.after + (if es.rest.NoElements? then "" else "," + PrintElements(es.rest))
  }

  function PrintMembers(ms: Members): string
    decreases ms, 0
  {
    if ms.NoMembers? then ""
    else ms.before + Quoted(ms.name) + ms.preColon + ":" + ms.postColon + Print(ms.value) + ms.after
         + (if ms.rest.NoMembers? then "" else "," + PrintMembers(ms.rest))
  }

  // ---------------------------------------------------------------------------------------
  // Printed values are neutral
  // ---------------------------------------------------------------------------------------

  lemma {:induction false} ItemsOver(d: int, items: seq<Item>)
    requires ItemsOk(items)
    ensures Over(Scan(d, true, false), PrintItems(items)) == Some(Scan(d, true, false))
  {
    if items == [] {
    } else {
      var st := Scan(d, true, false);
      ItemOver(d, items[0]);
      ItemsOver(d, items[1..]);
      OverConcat(st, PrintItem(items[0]), PrintItems(items[1..]));
    }
  }

  lemma OverTwo(st: Scan, c: char, d: char)
    requires !Closes(st, c) && !Closes(Step(st, c), d)
    ensures Over(st, [c, d]) == Some(Step(Step(st, c), d))
  {
    assert [c, d][1..] == [d] && [d][1..] == "";
    assert Over(Step(st, c), [d]) == Over(Step(Step(st, c), d), "");
  }

  lemma ItemOver(d: int, item: Item)
    requires ItemOk(item)
    ensures Over(Scan(d, true, false), PrintItem(item)) == Some(Scan(d, true, false))
  {
    var st := Scan(d, true, false);
    match item
    case Plain(c) =>
      assert PrintItem(item)[1..] == "";
    case Escape(c) =>
      OverTwo(st, '\\', c);
    case Unicode(h0, h1, h2, h3) =>
      assert PrintItem(item) == ['\\', 'u'] + [h0, h1, h2, h3];
      OverTwo(st, '\\', 'u');
      HexOver(st, [h0, h1, h2, h3]);
      OverConcat(st, ['\\', 'u'], [h0, h1, h2, h3]);
  }

  lemma {:induction false} HexOver(st: Scan, hs: string)
    requires st.inStr && !st.escaped && forall i :: 0 <= i < |hs| ==> IsHex(hs[i])
    ensures Over(st, hs) == Some(st)
  {
    if hs == "" {
    } else {
      HexOver(st, hs[1..]);
    }
  }

  /** A string is neutral whatever braces and escaped quotes it holds. */
  lemma QuotedIsNeutral(items: seq<Item>)
    requires ItemsOk(items)
    ensures Neutral(Quoted(items))
  {
    forall d: int | d >= 1 ensures Passed(d, Quoted(items)) {
      var st, inside := Scan(d, false, false), Scan(d, true, false);
      var tail := PrintItems(items) + "\"";
      assert Quoted(items) == "\"" + tail && ("\"" + tail)[1..] == tail;
      ItemsOver(d, items);
      OverConcat(inside, PrintItems(items), "\"");
      assert Over(inside, "\"") == Over(st, "\""[1..]) == Some(st);
    }
  }

  lemma WrapIsNeutral(inner: string)
    requires Neutral(inner)
    ensures Neutral("{" + inner + "}")
  {
    forall d: int | d >= 1 ensures Passed(d, "{" + inner + "}") {
      var st, inside := Scan(d, false, false), Scan(d + 1, false, false);
      assert Passed(d + 1, inner);
      OverConcat(inside, inner, "}");
      assert Over(inside, "}") == Over(st, "}"[1..]) == Some(st);
      assert "{" + inner + "}" == "{" + (inner + "}") && ("{" + (inner + "}"))[1..] == inner + "}";
    }
  }

  lemma BlankIsNeutral(ws: string)
    requires Blank(ws)
    ensures Neutral(ws)
  {
    forall i | 0 <= i < |ws| ensures Bland(ws[i]) {
      assert ws[i] in " \t\n\r";
    }
    BlandIsNeutral(ws);
  }

  lemma AtomIsNeutral(text: string)
    requires AtomOk(text)
    ensures Neutral(text)
  {
    forall i | 0 <= i < |text| ensures Bland(text[i]) {
      assert text in {"true", "false", "null"} || text[i] in "0123456789+-.eE";
    }
    BlandIsNeutral(text);
  }

  lemma {:induction false} ValueIsNeutral(v: Value)
    requires ValueOk(v)
    ensures Neutral(Print(v))
    decreases v, 0
  {
    match v {
      case Atom(text) => AtomIsNeutral(text);
      case Text(items) => QuotedIsNeutral(items);
      case Array(pad, es) =>
        BlankIsNeutral(pad);
        ElementsAreNeutral(es);
        var inner := if es.NoElements? then pad else PrintElements(es);
        BlandIsNeutral("[");
        BlandIsNeutral("]");
        NeutralConcat("[", inner);
        NeutralConcat("[" + inner, "]");
      case Object(pad, ms) =>
        InnerIsNeutral(pad, ms);
        WrapIsNeutral(Inner(pad, ms));
    }
  }

  lemma {:induction false} InnerIsNeutral(pad: string, ms: Members)
    requires Blank(pad) && MembersOk(ms)
    ensures Neutral(Inner(pad, ms))
    decreases ms, 1
  {
    BlankIsNeutral(pad);
    MembersAreNeutral(ms);
  }

  lemma {:induction false} ElementsAreNeutral(es: Elements)
    requires ElementsOk(es)
    ensures Neutral(PrintElements(es))
    decreases es, 0
  {
    BlandIsNeutral("");
    if es.Element? {
      BlankIsNeutral(es.before);
      ValueIsNeutral(es.value);
      BlankIsNeutral(es.after);
      ElementsAreNeutral(es.rest);
      BlandIsNeutral(",");
      NeutralConcat(",", PrintElements(es.rest));
      NeutralConcat(es.before, Print(es.value));
      NeutralConcat(es.before + Print(es.value), es.after);
      var tail := if es.rest.NoElements? then "" else "," + PrintElements(es.rest);
      NeutralConcat(es.before + Print(es.value) + es.after, tail);
    }
  }

  lemma {:induction false} MembersAreNeutral(ms: Members)
    requires MembersOk(ms)
    ensures Neutral(PrintMembers(ms))
    decreases ms, 0
  {
    BlandIsNeutral("");
    if ms.Member? {
      BlankIsNeutral(ms.before);
      QuotedIsNeutral(ms.name);
      BlankIsNeutral(ms.preColon);
      BlandIsNeutral(":");
      BlankIsNeutral(ms.postColon);
      ValueIsNeutral(ms.value);
      BlankIsNeutral(ms.after);
      MembersAreNeutral(ms.rest);
      BlandIsNeutral(",");
      NeutralConcat(",", PrintMembers(ms.rest));
      var a := ms.before + Quoted(ms.name);
      NeutralConcat(ms.before, Quoted(ms.name));
      NeutralConcat(a, ms.preColon);
      NeutralConcat(a + ms.preColon, ":");
      var b := a + ms.preColon + ":";
      NeutralConcat(b, ms.postColon);
      NeutralConcat(b + ms.postColon, Print(ms.value));
      NeutralConcat(b + ms.postColon + Print(ms.value), ms.after);
      var tail := if ms.rest.NoMembers? then "" else "," + PrintMembers(ms.rest);
      NeutralConcat(b + ms.postColon + Print(ms.value) + ms.after, tail);
    }
  }

  // ---------------------------------------------------------------------------------------
  // The round trip
  // ---------------------------------------------------------------------------------------

  /** Scanning a printed object closes at its last character, whatever follows. */
  lemma ObjectCloses(o: Value, suffix: string)
    requires o.Object? && ValueOk(o)
    ensures FirstClose(START, Print(o) + suffix) == Some(|Print(o)| - 1)
  {
    var inner, inside := Inner(o.pad, o.members), Scan(1, false, false);
    InnerIsNeutral(o.pad, o.members);
    assert Passed(1, inner);
    var tail := inner + ("}" + suffix);
    var all := "{" + tail;
    assert Print(o) + suffix == all && all[0..] == all && all[1..] == tail;
    ScanOne(START, all, 0);
    OverConcat(inside, inner, "}" + suffix);
  }

  lemma IndexAfter(prefix: string, s: string)
    requires '{' !in prefix && s != "" && s[0] == '{'
    ensures IndexOf(prefix + s, '{') == Some(|prefix|)
  {
    assert (prefix + s)[..|prefix|] == prefix;
    IndexIs(prefix + s, '{', |prefix|);
  }

  /** Any printed object is found exactly, behind any text without a brace and before any text. */
  lemma FindsPrintedObject(prefix: string, o: Value, suffix: string)
    requires '{' !in prefix && o.Object? && ValueOk(o)
    ensures FirstObject(prefix + Print(o) + suffix) == Print(o)
  {
    var s := prefix + Print(o) + suffix;
    assert s == prefix + (Print(o) + suffix);
    IndexAfter(prefix, Print(o) + suffix);
    assert s[|prefix|..] == Print(o) + suffix;
    ObjectCloses(o, suffix);
    assert s[|prefix|..|prefix| + |Print(o)|] == Print(o);
  }

  /** Of a printed object that was cut short nothing is found. */
  lemma CutObjectIsLost(prefix: string, o: Value, n: nat)
    requires '{' !in prefix && o.Object? && ValueOk(o) && n < |Print(o)|
    ensures FirstObject(prefix + Print(o)[..n]) == ""
  {
    var s := prefix + Print(o)[..n];
    if n > 0 {
      IndexAfter(prefix, Print(o)[..n]);
      assert s[|prefix|..] == Print(o)[..n];
      ObjectCloses(o, "");
      assert Print(o) + "" == Print(o);
      NoCloseBefore(START, Print(o), n);
    }
  }
}
