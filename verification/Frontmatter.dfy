/** `splitFrontmatter`: the YAML block between `---` lines at the top of a runbook file. */
module Frontmatter {
  import opened Options
  import opened Strings

  const DELIMITER := "---"

  /** 10 MB: the scanner gives up on a line this long. */
  const MAX_LINE: nat := 10485760

  function CharSize(c: char): nat {
    var n := c as int;
    if n < 0x80 then 1 else if n < 0x800 then 2 else if n < 0x10000 then 3 else 4
  }

  /** The lengths of section 3 of RFC 3629. */
  lemma Utf8Lengths(c: char)
    ensures c as int <= 0x7F <==> CharSize(c) == 1
    ensures 0x80 <= c as int <= 0x7FF <==> CharSize(c) == 2
    ensures 0x800 <= c as int <= 0xFFFF <==> CharSize(c) == 3
    ensures 0x10000 <= c as int <==> CharSize(c) == 4
  {
  }

  function ByteSize(s: string): nat {
    if s == "" then 0 else CharSize(s[0]) + ByteSize(s[1..])
  }

  predicate IsDelimiter(line: string) {
    TrimSpace(line) == DELIMITER
  }

  predicate NoDelimiter(lines: seq<string>) {
    forall i :: 0 <= i < |lines| ==> !IsDelimiter(lines[i])
  }

  datatype Parts = Parts(frontmatter: string, body: string)

  /** Where the closing delimiter is. */
  function FirstDelimiter(lines: seq<string>): (r: Option<nat>)
    ensures r.None? <==> NoDelimiter(lines)
    ensures r.Some? ==> r.value < |lines| && IsDelimiter(lines[r.value]) && NoDelimiter(lines[..r.value])
  {
    if lines == [] then None
    else if IsDelimiter(lines[0]) then Some(0)
    else match FirstDelimiter(lines[1..])
      case None => None
      case Some(k) => assert lines[..k + 1] == [lines[0]] + lines[1..][..k]; Some(k + 1)
  }

  function Split(lines: seq<string>): Parts {
    if lines == [] || !IsDelimiter(lines[0]) then Parts("", JoinLines(lines))
    else match FirstDelimiter(lines[1..])
      case None => Parts("", JoinLines([DELIMITER] + lines[1..]))
      case Some(k) => Parts(JoinLines(lines[1..][..k]), JoinLines(lines[1..][k + 1..]))
  }

  function Lines(raws: seq<string>): (r: seq<string>)
    ensures |r| == |raws|
  {
    if raws == [] then [] else Lines(raws[..|raws| - 1]) + [DropCR(raws[|raws| - 1])]
  }

  predicate Readable(text: string) {
    forall raw :: raw in RawLines(text) ==> ByteSize(raw) < MAX_LINE
  }

  /** The state of the loop after some lines that start with a delimiter. */
  predicate Splitting(lines: seq<string>, inFM: bool, fm: seq<string>, body: seq<string>) {
    && lines != [] && IsDelimiter(lines[0]) && NoDelimiter(fm)
    && if inFM then body == [] && lines[1..] == fm
       else |fm| + 1 < |lines| && IsDelimiter(lines[|fm| + 1]) && lines[1..|fm| + 1] == fm && lines[|fm| + 2..] == body
  }

  lemma {:induction false} FirstDelimiterIs(lines: seq<string>, k: nat)
    requires k < |lines| && NoDelimiter(lines[..k]) && IsDelimiter(lines[k])
    ensures FirstDelimiter(lines) == Some(k)
    decreases k
  {
    if k == 0 {
    } else {
      assert lines[..k][0] == lines[0];
      assert lines[1..][..k - 1] == lines[..k][1..];
      FirstDelimiterIs(lines[1..], k - 1);
    }
  }

  lemma OneMoreLine(lines: seq<string>, inFM: bool, fm: seq<string>, body: seq<string>, line: string)
    requires Splitting(lines, inFM, fm, body)
    ensures inFM && IsDelimiter(line) ==> Splitting(lines + [line], false, fm, body)
    ensures inFM && !IsDelimiter(line) ==> Splitting(lines + [line], true, fm + [line], body)
    ensures !inFM ==> Splitting(lines + [line], false, fm, body + [line])
  {
  }

  lemma SplitIs(lines: seq<string>, fm: seq<string>, body: seq<string>)
    requires Splitting(lines, false, fm, body)
    ensures Split(lines) == Parts(JoinLines(fm), JoinLines(body))
  {
    var n := |fm|;
    assert lines[1..][..n] == fm && lines[1..][n] == lines[n + 1] && lines[1..][n + 1..] == body;
    FirstDelimiterIs(lines[1..], n);
  }

  /** The loop over the scanned lines. */
  method SplitLines(lines: seq<string>) returns (r: Parts)
    ensures r == Split(lines)
  {
    var first, inFM, sawStart, sawEnd := true, false, false, false;
    var fm: seq<string>, body: seq<string> := [], [];
    for i := 0 to |lines|
      invariant first <==> i == 0
      invariant sawEnd <==> sawStart && !inFM
      invariant first ==> !inFM && !sawStart && fm == [] && body == []
      invariant !first && !sawStart ==> !IsDelimiter(lines[0]) && !inFM && fm == [] && body == lines[..i]
      invariant sawStart ==> Splitting(lines[..i], inFM, fm, body)
    {
      var line := lines[i];
      assert lines[..i + 1] == lines[..i] + [line];
      if first {
        first := false;
        if IsDelimiter(line) {
          inFM, sawStart := true, true;
          continue;
        }
        body := body + [line];
        continue;
      }
      if sawStart { OneMoreLine(lines[..i], inFM, fm, body, line); }
      if inFM {
        if IsDelimiter(line) {
          inFM, sawEnd := false, true;
          continue;
        }
        fm := fm + [line];
        continue;
      }
      body := body + [line];
    }
    assert lines[..|lines|] == lines;
    if sawStart && !sawEnd {
      assert fm + body == fm;
      return Parts("", JoinLines([DELIMITER] + (fm + body)));
    }
    if sawStart {
      SplitIs(lines, fm, body);
    }
    r := Parts(JoinLines(fm), JoinLines(body));
  }

  predicate HasLongLine(raws: seq<string>, size: nat) {
    exists raw :: raw in raws && ByteSize(raw) >= size
  }

  lemma LongLineIff(text: string)
    ensures HasLongLine(RawLines(text), MAX_LINE) <==> !Readable(text)
  {
  }

  /** None when the scanner fails on a line. */
  method SplitFrontmatter(text: string) returns (r: Option<Parts>)
    ensures r == if Readable(text) then Some(Split(Lines(RawLines(text)))) else None
    ensures r.None? <==> HasLongLine(RawLines(text), 10485760)
  {
    LongLineIff(text);
    if HasLongLine(RawLines(text), MAX_LINE) {
      return None;
    }
    var parts := SplitLines(Lines(RawLines(text)));
    r := Some(parts);
  }

  // ---------------------------------------------------------------------------------------
  // Round trips
  // ---------------------------------------------------------------------------------------

  /** Splitting what was put together from a delimiter, frontmatter lines, a delimiter and a body
      gives them back, whatever delimiters the body holds. */
  lemma SplitsWhatWasJoined(fm: seq<string>, body: seq<string>, open: string, close: string)
    requires NoDelimiter(fm) && IsDelimiter(open) && IsDelimiter(close)
    ensures Split([open] + fm + [close] + body) == Parts(JoinLines(fm), JoinLines(body))
  {
    var lines := [open] + fm + [close] + body;
    assert lines[1..|fm| + 1] == fm && lines[|fm| + 1] == close && lines[|fm| + 2..] == body;
    SplitIs(lines, fm, body);
  }

  /** A delimiter that is never closed loses no line: there is no frontmatter, and the body has the
      first line as `---` and every other line as it was. */
  lemma UnclosedKeepsEverything(rest: seq<string>, open: string)
    requires NoDelimiter(rest) && IsDelimiter(open)
    ensures Split([open] + rest) == Parts("", JoinLines(["---"] + rest))
  {
    assert ([open] + rest)[1..] == rest;
  }

  /** A line as an editor stores it: no newline inside, no carriage return at its end, not huge. */
  predicate Plain(line: string) {
    '\n' !in line && (line != "" ==> line[|line| - 1] != '\r') && ByteSize(line) < MAX_LINE
  }

  predicate AllPlain(lines: seq<string>) {
    forall line :: line in lines ==> Plain(line)
  }

  lemma {:induction false} PlainLines(lines: seq<string>)
    requires AllPlain(lines)
    ensures Lines(lines) == lines
  {
    if lines == [] {
    } else {
      PlainLines(lines[..|lines| - 1]);
      assert Plain(lines[|lines| - 1]);
      assert lines == lines[..|lines| - 1] + [lines[|lines| - 1]];
    }
  }

  lemma PlainFile(lines: seq<string>)
    requires AllPlain(lines)
    ensures Readable(Ended(lines)) && Lines(RawLines(Ended(lines))) == lines
  {
    RawLinesOfEnded(lines);
    PlainLines(lines);
  }

  lemma DelimiterIsPlain()
    ensures Plain(DELIMITER) && IsDelimiter(DELIMITER)
  {
    assert DELIMITER[1..] == "--" && "--"[1..] == "-" && "-"[1..] == "";
    assert ByteSize(DELIMITER) == 3;
  }

  lemma PlainParts(fm: seq<string>, body: seq<string>)
    requires AllPlain(fm) && AllPlain(body)
    ensures AllPlain([DELIMITER] + fm + [DELIMITER] + body)
  {
    DelimiterIsPlain();
  }

  /** Frontmatter and body hold these lines. */
  predicate Holds(part: string, lines: seq<string>) {
    if lines == [] then part == "" else RawLines(part + "\n") == lines
  }

  lemma JoinedHolds(lines: seq<string>)
    requires AllPlain(lines)
    ensures Holds(JoinLines(lines), lines)
  {
    if lines != [] { JoinedComeApart(lines); }
  }

  /** The same for whole files: a file of plain lines is read back as frontmatter and body, and both
      come apart into their lines. */
  lemma FileRoundTrip(fm: seq<string>, body: seq<string>)
    requires NoDelimiter(fm) && AllPlain(fm) && AllPlain(body)
    ensures var text := Ended(["---"] + fm + ["---"] + body);
      && Readable(text) && Split(Lines(RawLines(text))) == Parts(JoinLines(fm), JoinLines(body))
      && Holds(Split(Lines(RawLines(text))).frontmatter, fm) && Holds(Split(Lines(RawLines(text))).body, body)
  {
    PlainParts(fm, body);
    PlainFile([DELIMITER] + fm + [DELIMITER] + body);
    DelimiterIsPlain();
    SplitsWhatWasJoined(fm, body, DELIMITER, DELIMITER);
    JoinedHolds(fm);
    JoinedHolds(body);
  }

  /** The lines as an editor with carriage returns stores them. */
  function WithCR(lines: seq<string>): seq<string> {
    if lines == [] then [] else WithCR(lines[..|lines| - 1]) + [lines[|lines| - 1] + "\r"]
  }

  lemma {:induction false} LinesDropCR(lines: seq<string>)
    ensures Lines(WithCR(lines)) == lines
  {
    if lines == [] {
    } else {
      LinesDropCR(lines[..|lines| - 1]);
      assert lines == lines[..|lines| - 1] + [lines[|lines| - 1]];
    }
  }

  lemma {:induction false} WithCRHasNoNewline(lines: seq<string>)
    requires forall line :: line in lines ==> '\n' !in line
    ensures forall line :: line in WithCR(lines) ==> '\n' !in line
  {
    if lines == [] {
    } else {
      WithCRHasNoNewline(lines[..|lines| - 1]);
      assert '\n' !in lines[|lines| - 1];
    }
  }

  /** Carriage returns at the line ends make no difference. */
  lemma CarriageReturnsAreDropped(lines: seq<string>)
    requires forall line :: line in lines ==> '\n' !in line
    ensures Lines(RawLines(Ended(WithCR(lines)))) == lines
  {
    WithCRHasNoNewline(lines);
    RawLinesOfEnded(WithCR(lines));
    LinesDropCR(lines);
  }

  lemma LinesSnoc(raws: seq<string>, raw: string)
    ensures Lines(raws + [raw]) == Lines(raws) + [DropCR(raw)]
  {
    assert (raws + [raw])[..|raws|] == raws;
  }

  /** A last line without a newline is a line all the same. */
  lemma LastLineNeedsNoEnd(lines: seq<string>, line: string)
    requires (forall l :: l in lines ==> '\n' !in l) && Plain(line) && line != ""
    ensures Lines(RawLines(Ended(lines) + line)) == Lines(lines) + [line]
  {
    LastRawLine(lines, line);
    LinesSnoc(lines, line);
  }

  /** A delimiter is three hyphens with any space around them. */
  lemma DelimiterIff(line: string)
    ensures IsDelimiter(line) <==> exists a, b :: AllSpace(a) && AllSpace(b) && line == a + "---" + b
  {
    TrimSpaceIs(line, "---");
  }
}
