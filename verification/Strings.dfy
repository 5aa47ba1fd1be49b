/** The text operations the release tool uses. A string here is a sequence of Unicode scalar values. */
module Strings {
  import opened Wrappers

  /** Unicode `White_Space`. */
  predicate IsSpace(c: char) {
    var n := c as int;
    || 9 <= n <= 13 || n == 32 || n == 0x85 || n == 0xA0 || n == 0x1680 || 0x2000 <= n <= 0x200A
    || n == 0x2028 || n == 0x2029 || n == 0x202F || n == 0x205F || n == 0x3000
  }

  predicate Blank(s: string) {
    forall i | 0 <= i < |s| :: IsSpace(s[i])
  }

  function TrimStart(s: string): string {
    if s != "" && IsSpace(s[0]) then TrimStart(s[1..]) else s
  }

  function TrimEnd(s: string): string {
    if s != "" && IsSpace(s[|s| - 1]) then TrimEnd(s[..|s| - 1]) else s
  }

  function Trim(s: string): string {
    TrimEnd(TrimStart(s))
  }

  /** No white space at either end. */
  predicate Trimmed(s: string) {
    s != "" ==> !IsSpace(s[0]) && !IsSpace(s[|s| - 1])
  }

  lemma {:induction false} TrimStartDrops(s: string) returns (before: string)
    ensures s == before + TrimStart(s) && Blank(before)
    ensures TrimStart(s) != "" ==> !IsSpace(TrimStart(s)[0])
  {
    before := "";
    if s != "" && IsSpace(s[0]) {
      var rest := TrimStartDrops(s[1..]);
      before := [s[0]] + rest;
      assert s == [s[0]] + s[1..];
    }
  }

  lemma {:induction false} TrimEndDrops(s: string) returns (after: string)
    ensures s == TrimEnd(s) + after && Blank(after)
    ensures TrimEnd(s) != "" ==> TrimEnd(s)[0] == s[0] && !IsSpace(TrimEnd(s)[|TrimEnd(s)| - 1])
  {
    after := "";
    if s != "" && IsSpace(s[|s| - 1]) {
      var rest := TrimEndDrops(s[..|s| - 1]);
      after := rest + [s[|s| - 1]];
      assert s == s[..|s| - 1] + [s[|s| - 1]];
    }
  }

  /** Trimming removes white space only, and all of it at both ends; a text with none at its ends, put between
      white space, is what trimming finds. */
  lemma TrimIsExact(s: string) returns (before: string, after: string)
    ensures s == before + Trim(s) + after && Blank(before) && Blank(after) && Trimmed(Trim(s))
    ensures Trim(s) == "" <==> Blank(s)
  {
    before := TrimStartDrops(s);
    after := TrimEndDrops(TrimStart(s));
    assert Trim(s) != "" ==> s[|before|] == Trim(s)[0];
  }

  lemma TrimBlank(s: string)
    ensures Trim(s) == "" <==> Blank(s)
  {
    var _, _ := TrimIsExact(s);
  }

  /** `str::find`. */
  function Find(s: string, pattern: string): Option<nat> {
    if pattern <= s then Some(0)
    else if s == "" then None
    else match Find(s[1..], pattern) case Some(n) => Some(n + 1) case None => None
  }

  /** Whether the pattern stands at a place of the text. */
  predicate Occurs(s: string, pattern: string, k: nat) {
    k <= |s| && pattern <= s[k..]
  }

  lemma OccursInRest(s: string, pattern: string, k: nat)
    requires s != "" && k > 0
    ensures Occurs(s, pattern, k) <==> Occurs(s[1..], pattern, k - 1)
  {
    if k <= |s| {
      assert s[k..] == s[1..][k - 1..];
    }
  }

  lemma {:induction false} FindIsFirst(s: string, pattern: string)
    ensures match Find(s, pattern)
            case Some(n) => Occurs(s, pattern, n) && forall k: nat | k < n :: !Occurs(s, pattern, k)
            case None => forall k: nat :: !Occurs(s, pattern, k)
  {
    assert Occurs(s, pattern, 0) <==> pattern <= s by {
      assert s[0..] == s;
    }
    hide Occurs;
    if !(pattern <= s) && s != "" {
      FindIsFirst(s[1..], pattern);
      forall k: nat | k > 0 ensures Occurs(s, pattern, k) <==> Occurs(s[1..], pattern, k - 1) {
        OccursInRest(s, pattern, k);
      }
    } else if s == "" {
      forall k: nat ensures Occurs(s, pattern, k) ==> k == 0 {
        EmptyHasOnePlace(pattern, k);
      }
    }
  }

  lemma EmptyHasOnePlace(pattern: string, k: nat)
    ensures Occurs("", pattern, k) ==> k == 0
  {}

  // ----- lines -----

  function LineEnd(text: string): Option<nat>
    ensures LineEnd(text).Some? ==> LineEnd(text).value < |text| && text[LineEnd(text).value] == '\n'
  {
    if text == "" then None
    else if text[0] == '\n' then Some(0)
    else match LineEnd(text[1..]) case Some(n) => Some(n + 1) case None => None
  }

  function StripReturn(line: string): string {
    if line != "" && line[|line| - 1] == '\r' then line[..|line| - 1] else line
  }

  /** `str::lines`: a line ends with a line feed or a carriage return and a line feed, which are dropped. */
  function Lines(text: string): seq<string> {
    if text == "" then []
    else match LineEnd(text)
         case None => [text]
         case Some(n) => [StripReturn(text[..n])] + Lines(text[n + 1..])
  }

  function Unlines(lines: seq<string>): string {
    if lines == [] then "" else lines[0] + "\n" + Unlines(lines[1..])
  }

  /** `join("\n")`. */
  function Join(lines: seq<string>): string {
    if lines == [] then "" else if |lines| == 1 then lines[0] else lines[0] + "\n" + Join(lines[1..])
  }

  /** Can stand on a line of its own. */
  predicate IsLine(s: string) {
    && (forall i | 0 <= i < |s| :: s[i] != '\n')
    && (s != "" ==> s[|s| - 1] != '\r')
  }

  lemma {:induction false} LineEndAfter(line: string, rest: string)
    requires forall i | 0 <= i < |line| :: line[i] != '\n'
    ensures LineEnd(line + "\n" + rest) == Some(|line|)
  {
    if line == "" {
      assert (line + "\n" + rest)[0] == '\n';
    } else {
      LineEndAfter(line[1..], rest);
      assert (line + "\n" + rest)[1..] == line[1..] + "\n" + rest;
    }
  }

  /** A line with its ending: a line feed, or a carriage return and a line feed. */
  datatype Ended = Ended(line: string, carriage: bool)

  function Text(lines: seq<Ended>): string {
    if lines == [] then "" else lines[0].line + Ending(lines[0]) + Text(lines[1..])
  }

  predicate NoFeed(s: string) {
    forall i | 0 <= i < |s| :: s[i] != '\n'
  }

  /** A line that ends with a carriage return of its own ends with both. */
  predicate EndedOk(e: Ended) {
    NoFeed(e.line) && (!e.carriage && e.line != "" ==> e.line[|e.line| - 1] != '\r')
  }

  function Ending(e: Ended): string {
    if e.carriage then "\r\n" else "\n"
  }

  lemma FirstLine(e: Ended, more: string)
    requires EndedOk(e)
    ensures Lines(e.line + Ending(e) + more) == [e.line] + Lines(more)
  {
    var line := e.line + if e.carriage then "\r" else "";
    var text := e.line + Ending(e) + more;
    assert text == line + "\n" + more;
    LineEndAfter(line, more);
    assert text[..|line|] == line && text[|line| + 1..] == more;
    assert e.carriage ==> line[..|line| - 1] == e.line;
    assert StripReturn(line) == e.line;
  }

  /** Splitting finds the lines whichever ending each of them has; what follows the last ending is one more line if
      it is not empty. */
  lemma {:induction false} LinesOfText(lines: seq<Ended>, rest: string)
    requires (forall i | 0 <= i < |lines| :: EndedOk(lines[i])) && NoFeed(rest)
    ensures |Lines(Text(lines) + rest)| == |lines| + if rest == "" then 0 else 1
    ensures forall i | 0 <= i < |lines| :: Lines(Text(lines) + rest)[i] == lines[i].line
    ensures rest != "" ==> Lines(Text(lines) + rest)[|lines|] == rest
  {
    if lines == [] {
      assert "" + rest == rest;
      if rest != "" {
        NoLineEnd(rest);
      }
    } else {
      var more := Text(lines[1..]) + rest;
      assert Text(lines) + rest == lines[0].line + Ending(lines[0]) + more;
      hide Lines, Ending, EndedOk;
      FirstLine(lines[0], more);
      LinesOfText(lines[1..], rest);
    }
  }

  lemma {:induction false} NoLineEnd(s: string)
    requires NoFeed(s)
    ensures LineEnd(s) == None
  {
    if s != "" {
      NoLineEnd(s[1..]);
    }
  }

  lemma {:induction false} LinesOfUnlines(lines: seq<string>)
    requires forall l | l in lines :: IsLine(l)
    ensures Lines(Unlines(lines)) == lines
  {
    if lines != [] {
      assert IsLine(lines[0]);
      var text, rest := Unlines(lines), Unlines(lines[1..]);
      LineEndAfter(lines[0], rest);
      assert text[..|lines[0]|] == lines[0] && text[|lines[0]| + 1..] == rest;
      LinesOfUnlines(lines[1..]);
    }
  }
}
