/** The string functions of the Go library the components use, on sequences of code points. */
module Strings {
  import opened Options

  // ---------------------------------------------------------------------------------------
  // Searching
  // ---------------------------------------------------------------------------------------

  function IndexOf(s: string, c: char): (r: Option<nat>)
    ensures r.None? <==> c !in s
    ensures r.Some? ==> r.value < |s| && s[r.value] == c && c !in s[..r.value]
  {
    if s == "" then None
    else if s[0] == c then Some(0)
    else match IndexOf(s[1..], c)
      case None => None
      case Some(k) => assert s[..k + 1] == [s[0]] + s[1..][..k]; Some(k + 1)
  }

  lemma {:induction false} IndexIs(s: string, c: char, i: nat)
    requires i < |s| && s[i] == c && c !in s[..i]
    ensures IndexOf(s, c) == Some(i)
    decreases i
  {
    if i == 0 {
    } else {
      assert s[0] == s[..i][0];
      assert s[1..][..i - 1] == s[..i][1..];
      IndexIs(s[1..], c, i - 1);
    }
  }

  // ---------------------------------------------------------------------------------------
  // Trimming
  // ---------------------------------------------------------------------------------------

  /** `unicode.IsSpace`. */
  predicate IsSpace(c: char) {
    var n := c as int;
    9 <= n <= 13 || n in {0x20, 0x85, 0xA0, 0x1680, 0x2028, 0x2029, 0x202F, 0x205F, 0x3000} || 0x2000 <= n <= 0x200A
  }

  /** Of the ASCII characters these six are space. */
  lemma AsciiSpaces(c: char)
    requires c as int < 0x80
    ensures IsSpace(c) <==> c as int in {0x09, 0x0A, 0x0B, 0x0C, 0x0D, 0x20}
  {
  }

  function TrimLeft(s: string): string {
    if s != "" && IsSpace(s[0]) then TrimLeft(s[1..]) else s
  }

  function TrimRight(s: string): string {
    if s != "" && IsSpace(s[|s| - 1]) then TrimRight(s[..|s| - 1]) else s
  }

  function TrimSpace(s: string): string {
    TrimRight(TrimLeft(s))
  }

  predicate AllSpace(s: string) {
    forall i :: 0 <= i < |s| ==> IsSpace(s[i])
  }

  /** Starts and ends with characters that are not space. */
  predicate Solid(s: string) {
    s != "" && !IsSpace(s[0]) && !IsSpace(s[|s| - 1])
  }

  lemma {:induction false} TrimLeftTo(a: string, m: string)
    requires m != "" && !IsSpace(m[0])
    ensures TrimLeft(a + m) == TrimLeft(a) + m
    ensures AllSpace(a) ==> TrimLeft(a) == ""
    ensures forall c :: c in TrimLeft(a) ==> c in a
  {
    if a == "" {
      assert a + m == m;
    } else if IsSpace(a[0]) {
      assert (a + m)[1..] == a[1..] + m;
      TrimLeftTo(a[1..], m);
    }
  }

  lemma {:induction false} TrimRightTo(m: string, b: string)
    requires m != "" && !IsSpace(m[|m| - 1])
    ensures TrimRight(m + b) == m + TrimRight(b)
    decreases |b|
  {
    if b == "" {
      assert m + b == m;
    } else if IsSpace(b[|b| - 1]) {
      assert (m + b)[..|m + b| - 1] == m + b[..|b| - 1];
      TrimRightTo(m, b[..|b| - 1]);
    }
  }

  lemma TrimAround(a: string, m: string, b: string)
    requires Solid(m)
    ensures TrimSpace(a + m + b) == TrimLeft(a) + m + TrimRight(b)
    ensures AllSpace(a) ==> TrimSpace(a + m + b) == m + TrimRight(b)
    ensures forall c :: c in TrimLeft(a) ==> c in a
  {
    assert a + m + b == a + (m + b);
    TrimLeftTo(a, m + b);
    assert TrimLeft(a) + (m + b) == (TrimLeft(a) + m) + b;
    TrimRightTo(TrimLeft(a) + m, b);
    if AllSpace(a) { assert "" + m == m; }
  }

  lemma {:induction false} TrimLeftSplits(s: string) returns (lead: string)
    ensures AllSpace(lead) && s == lead + TrimLeft(s)
  {
    if s != "" && IsSpace(s[0]) {
      lead := TrimLeftSplits(s[1..]);
      lead := [s[0]] + lead;
    } else {
      lead := "";
    }
  }

  lemma {:induction false} TrimRightSplits(s: string) returns (trail: string)
    ensures AllSpace(trail) && s == TrimRight(s) + trail
  {
    if s != "" && IsSpace(s[|s| - 1]) {
      trail := TrimRightSplits(s[..|s| - 1]);
      trail := trail + [s[|s| - 1]];
    } else {
      trail := "";
    }
  }

  lemma {:induction false} TrimRightOfSpace(b: string)
    requires AllSpace(b)
    ensures TrimRight(b) == ""
  {
    if b == "" {
    } else {
      TrimRightOfSpace(b[..|b| - 1]);
    }
  }

  /** What is left of a text that is solid in the middle: the text is space around it. */
  lemma TrimSpaceIs(s: string, m: string)
    requires Solid(m)
    ensures TrimSpace(s) == m <==> exists a, b :: AllSpace(a) && AllSpace(b) && s == a + m + b
  {
    if TrimSpace(s) == m {
      var a := TrimLeftSplits(s);
      var b := TrimRightSplits(TrimLeft(s));
      assert s == a + (m + b) == a + m + b;
    }
    if a, b :| AllSpace(a) && AllSpace(b) && s == a + m + b {
      TrimAround(a, m, b);
      TrimRightOfSpace(b);
    }
  }

  lemma {:induction false} TrimKeepsOut(s: string, c: char)
    requires c !in s
    ensures c !in TrimLeft(s) && c !in TrimRight(s)
    decreases |s|
  {
    if s == "" {
    } else {
      TrimKeepsOut(s[1..], c);
      TrimKeepsOut(s[..|s| - 1], c);
    }
  }

  /** What trimming leaves on the right is a prefix of what was there, and keeps a solid first
      character. */
  lemma {:induction false} TrimRightIsPrefix(s: string) returns (n: nat)
    ensures n <= |s| && TrimRight(s) == s[..n]
    ensures s != "" && !IsSpace(s[0]) ==> n > 0
    decreases |s|
  {
    if s != "" && IsSpace(s[|s| - 1]) {
      n := TrimRightIsPrefix(s[..|s| - 1]);
      assert s[..|s| - 1][..n] == s[..n];
    } else {
      n := |s|;
    }
  }

  // ---------------------------------------------------------------------------------------
  // Lines
  // ---------------------------------------------------------------------------------------

  /** The pieces ended by newlines, and what follows the last newline unless it is empty. */
  function RawLines(text: string): seq<string>
    decreases |text|
  {
    if text == "" then []
    else match IndexOf(text, '\n')
      case None => [text]
      case Some(i) => [text[..i]] + RawLines(text[i + 1..])
  }

  function DropCR(line: string): string {
    if line != "" && line[|line| - 1] == '\r' then line[..|line| - 1] else line
  }

  /** `strings.Join(lines, "\n")`. */
  function JoinLines(lines: seq<string>): string {
    if lines == [] then ""
    else if |lines| == 1 then lines[0]
    else lines[0] + "\n" + JoinLines(lines[1..])
  }

  /** The lines, each with its newline. */
  function Ended(lines: seq<string>): string {
    if lines == [] then "" else lines[0] + "\n" + Ended(lines[1..])
  }

  lemma FirstRawLine(line: string, rest: string)
    requires '\n' !in line
    ensures RawLines(line + "\n" + rest) == [line] + RawLines(rest)
  {
    var t := line + "\n" + rest;
    assert t[..|line|] == line && t[|line|] == '\n' && t[|line| + 1..] == rest;
    IndexIs(t, '\n', |line|);
  }

  lemma {:induction false} RawLinesOfEnded(lines: seq<string>)
    requires forall line :: line in lines ==> '\n' !in line
    ensures RawLines(Ended(lines)) == lines
  {
    if lines == [] {
    } else {
      FirstRawLine(lines[0], Ended(lines[1..]));
      RawLinesOfEnded(lines[1..]);
    }
  }

  lemma {:induction false} JoinedIsEnded(lines: seq<string>)
    requires lines != []
    ensures JoinLines(lines) + "\n" == Ended(lines)
  {
    if |lines| == 1 {
      assert Ended(lines[1..]) == "";
    } else {
      JoinedIsEnded(lines[1..]);
    }
  }

  /** Joined lines come apart again. */
  lemma JoinedComeApart(lines: seq<string>)
    requires lines != [] && forall line :: line in lines ==> '\n' !in line
    ensures RawLines(JoinLines(lines) + "\n") == lines
  {
    JoinedIsEnded(lines);
    RawLinesOfEnded(lines);
  }

  lemma OneRawLine(line: string)
    requires '\n' !in line && line != ""
    ensures RawLines(line) == [line]
  {
  }

  lemma LineInFront(first: string, tail: string, line: string)
    requires '\n' !in first
    ensures RawLines((first + "\n" + tail) + line) == [first] + RawLines(tail + line)
  {
    assert (first + "\n" + tail) + line == first + "\n" + (tail + line);
    FirstRawLine(first, tail + line);
  }

  predicate ComesApart(lines: seq<string>, line: string) {
    RawLines(Ended(lines) + line) == lines + [line]
  }

  lemma EndedCons(first: string, rest: seq<string>)
    ensures Ended([first] + rest) == first + "\n" + Ended(rest)
  {
    assert ([first] + rest)[1..] == rest;
  }

  lemma ComesApartCons(first: string, rest: seq<string>, line: string)
    requires '\n' !in first && ComesApart(rest, line)
    ensures ComesApart([first] + rest, line)
  {
    EndedCons(first, rest);
    LineInFront(first, Ended(rest), line);
    assert [first] + (rest + [line]) == ([first] + rest) + [line];
  }

  /** A last line needs no newline. */
  lemma {:induction false} LastRawLine(lines: seq<string>, line: string)
    requires (forall l :: l in lines ==> '\n' !in l) && '\n' !in line && line != ""
    ensures ComesApart(lines, line)
  {
    if lines == [] {
      assert Ended(lines) + line == line;
      OneRawLine(line);
    } else {
      LastRawLine(lines[1..], line);
      ComesApartCons(lines[0], lines[1..], line);
      assert lines == [lines[0]] + lines[1..];
    }
  }
}
