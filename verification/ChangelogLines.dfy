/** What single lines of a changelog mean: fences, headings, and the notes taken from a body. */
module ChangelogLines {
  import opened Wrappers
  import opened Strings
  import opened Changelog

  // ----- runs and leading white space -----

  /** A text begins with exactly `n` marks. */
  predicate BeginsWith(s: string, mark: char, n: nat) {
    n <= |s| && (forall i | 0 <= i < n :: s[i] == mark) && (n < |s| ==> s[n] != mark)
  }

  lemma {:induction false} RunIs(s: string, mark: char)
    ensures BeginsWith(s, mark, Run(s, mark))
  {
    if s != "" && s[0] == mark {
      RunIs(s[1..], mark);
    }
  }

  /** The first `k` characters are white space and the next one, if there is one, is not. */
  predicate Indented(line: string, k: nat) {
    k <= |line| && Blank(line[..k]) && (k < |line| ==> !IsSpace(line[k]))
  }

  lemma {:induction false} TrimmedAt(line: string, k: nat)
    requires Indented(line, k)
    ensures TrimStart(line) == line[k..]
  {
    if k > 0 {
      assert line[..k][0] == line[0];
      assert line[1..][..k - 1] == line[..k][1..];
      TrimmedAt(line[1..], k - 1);
    }
  }

  lemma IndentExists(line: string) returns (k: nat)
    ensures Indented(line, k)
  {
    var before := TrimStartDrops(line);
    k := |before|;
    assert line[..k] == before && line[k..] == TrimStart(line);
  }

  // ----- fences -----

  /** After white space there are exactly `n` marks. */
  predicate Marked(line: string, k: nat, mark: char, n: nat) {
    Indented(line, k) && BeginsWith(line[k..], mark, n)
  }

  /** A line opens a fence exactly if it begins, after white space, with at least three backticks or tildes, and the
      fence is as wide as there are. */
  lemma OpensExactly(line: string, k: nat, mark: char, n: nat)
    requires Marked(line, k, mark, n) && n > 0
    ensures Opens(line) <==> (mark == '`' || mark == '~') && n >= 3
    ensures Opens(line) ==> Opened(line) == Fence(mark, n)
  {
    var t := line[k..];
    TrimmedAt(line, k);
    assert t[0] == mark;
    RunIs(t, '`');
    RunIs(t, '~');
    RunIs(t, mark);
    OneRun(t, mark, n, Run(t, mark));
  }

  lemma OneRun(s: string, mark: char, m: nat, n: nat)
    requires BeginsWith(s, mark, m) && BeginsWith(s, mark, n)
    ensures m == n
  {}

  /** A blank line opens none, and every other line begins with some mark. */
  lemma OpensNotBlank(line: string)
    ensures Blank(line) ==> !Opens(line)
    ensures !Blank(line) ==> exists k: nat, n: nat :: k < |line| && n > 0 && Marked(line, k, line[k], n)
  {
    var k := IndentExists(line);
    TrimmedAt(line, k);
    if k == |line| {
      assert line[k..] == "" && line[..k] == line;
    } else {
      var t := line[k..];
      assert t[0] == line[k] && !IsSpace(line[k]);
      RunIs(t, t[0]);
      assert Marked(line, k, line[k], Run(t, t[0]));
    }
  }

  /** A line closes a fence exactly if it begins, after white space, with at least as many of the fence's marks as
      opened it and has nothing but white space after them. */
  lemma ClosesExactly(f: Fence, line: string, k: nat, n: nat)
    requires Marked(line, k, f.mark, n)
    ensures Closes(f, line) <==> n >= f.width && Blank(line[k + n..])
  {
    var t := line[k..];
    TrimmedAt(line, k);
    RunIs(t, f.mark);
    OneRun(t, f.mark, n, Run(t, f.mark));
    assert t[n..] == line[k + n..];
  }

  // ----- headings -----

  lemma HashIsNoFence(line: string)
    requires line != "" && line[0] == '#'
    ensures !Opens(line)
  {
    assert TrimStart(line) == line;
  }

  /** A level-two heading is a line that begins with two hashes and a space; two hashes before anything but a third hash
      are malformed. */
  lemma HeadingExactly(line: string)
    ensures IsHeading(line) <==> |line| >= 3 && line[0] == '#' && line[1] == '#' && line[2] == ' '
    ensures IsMalformed(line) <==>
            |line| >= 2 && line[0] == '#' && line[1] == '#' && (|line| > 2 ==> line[2] != ' ' && line[2] != '#')
  {
    assert LEVEL_TWO == ['#', '#', ' '] && "##" == ['#', '#'] && "###" == ['#', '#', '#'];
    if |line| >= 1 && line[0] == '#' {
      HashIsNoFence(line);
    }
    if |line| >= 3 {
      assert line[..3] == [line[0], line[1], line[2]];
    }
    if |line| >= 2 {
      assert line[..2] == [line[0], line[1]];
    }
  }

  /** How the fence changes with a line that is no heading: inside one, only a closing line ends it; outside, a line
      may open one, and a malformed heading is refused. */
  lemma FenceAfter(fence: Option<Fence>, line: string)
    ensures NextFence(fence, line) == None <==> fence == None && IsMalformed(line)
    ensures fence.Some? ==> NextFence(fence, line) == Some(if Closes(fence.value, line) then None else fence)
    ensures fence == None && Opens(line) ==> NextFence(fence, line) == Some(Some(Opened(line)))
    ensures fence == None && !Opens(line) && !IsMalformed(line) ==> NextFence(fence, line) == Some(None)
  {}

  // ----- what is wrong with a text -----

  /** The fence after some lines, headings included, or nothing once a malformed heading has been met. */
  function FenceThrough(lines: seq<string>, fence: Option<Fence>): Option<Option<Fence>> {
    if lines == [] then Some(fence)
    else match NextFence(fence, lines[0]) case Some(next) => FenceThrough(lines[1..], next) case None => None
  }

  lemma HeadingKeepsNoFence(line: string)
    requires IsHeading(line)
    ensures NextFence(None, line) == Some(None)
  {}

  /** The scan fails for a malformed heading outside the fences, or else for a fence that is still open at the end. */
  lemma {:induction false} ScanFails(lines: seq<string>, at: nat, fence: Option<Fence>)
    ensures Scan(lines, at, fence) == Err(MalformedLevelTwo) <==> FenceThrough(lines, fence) == None
    ensures Scan(lines, at, fence) == Err(UnterminatedFence) <==>
            FenceThrough(lines, fence).Some? && FenceThrough(lines, fence).value.Some?
    ensures Scan(lines, at, fence).Ok? <==> FenceThrough(lines, fence) == Some(None)
  {
    hide IsHeading, NextFence;
    if lines != [] {
      if fence.None? && IsHeading(lines[0]) {
        HeadingKeepsNoFence(lines[0]);
        ScanFails(lines[1..], at + 1, None);
      } else if NextFence(fence, lines[0]).Some? {
        ScanFails(lines[1..], at + 1, NextFence(fence, lines[0]).value);
      }
    }
  }

  /** A release heading is one that opens with a bracket and has the separator somewhere after it; what stands
      before the first separator is the version and what stands after it has to be a date. */
  lemma HeadingSays(h: string, at: nat)
    requires h != "## [Unreleased]" && "## [" <= h && Occurs(h[4..], "] - ", at)
    requires forall k: nat | k < at :: !Occurs(h[4..], "] - ", k)
    ensures HeadingVersion(h) ==
            if DateValid(h[4 + at + 4..]) then Ok(Some(h[4..4 + at])) else Err(BadDate)
  {
    hide Occurs, DateValid, Find;
    var rest := h[4..];
    FindIsFirst(rest, SEPARATOR);
    assert Find(rest, SEPARATOR) == Some(at);
    assert at + 4 <= |rest| by {
      RoomFor(rest, SEPARATOR, at);
    }
    assert rest[at + 4..] == h[4 + at + 4..] && rest[..at] == h[4..4 + at];
  }

  lemma RoomFor(s: string, pattern: string, k: nat)
    requires Occurs(s, pattern, k)
    ensures k + |pattern| <= |s|
  {}

  /** Every other heading is malformed, except the one of the unreleased section, which names no version. */
  lemma HeadingRefused(h: string)
    ensures HeadingVersion(h) == Ok(None) <==> h == "## [Unreleased]"
    ensures HeadingVersion(h) == Err(MalformedRelease) <==>
            h != "## [Unreleased]" && ("## [" <= h ==> forall k: nat :: !Occurs(h[4..], "] - ", k))
  {
    hide Occurs, DateValid, Find;
    if "## [" <= h {
      FindIsFirst(h[4..], SEPARATOR);
    }
  }

  // ----- the title and the notes -----

  /** A text without the title as its first line is refused for that, and only such a text is. */
  lemma TitleNeeded(text: string, version: string)
    ensures Extract(text, version) == Err(NoTitle) <==> Lines(text) == [] || Lines(text)[0] != "# Changelog"
  {
    if Lines(text) != [] && Lines(text)[0] == TITLE {
      var lines := Lines(text);
      ScanProblems(lines, 0, None);
      if Scan(lines, 0, None).Ok? {
        ScanInBounds(lines, 0, None);
        MatchingProblems(LinesAt(lines, Scan(lines, 0, None).value), Scan(lines, 0, None).value, version);
      }
    }
  }

  lemma {:induction false} ScanProblems(lines: seq<string>, at: nat, fence: Option<Fence>)
    ensures Scan(lines, at, fence).Err? ==> Scan(lines, at, fence).error != NoTitle
  {
    hide IsHeading, NextFence;
    if lines != [] {
      if fence.None? && IsHeading(lines[0]) {
        ScanProblems(lines[1..], at + 1, None);
      } else if NextFence(fence, lines[0]).Some? {
        ScanProblems(lines[1..], at + 1, NextFence(fence, lines[0]).value);
      }
    }
  }

  lemma {:induction false} MatchingProblems(headings: seq<string>, starts: seq<nat>, version: string)
    requires |headings| == |starts|
    ensures Matching(headings, starts, version).Err? ==> Matching(headings, starts, version).error != NoTitle
  {
    if headings != [] {
      HeadingProblems(headings[0]);
      hide HeadingVersion;
      MatchingProblems(headings[1..], starts[1..], version);
    }
  }

  lemma HeadingProblems(h: string)
    ensures HeadingVersion(h).Err? ==> HeadingVersion(h).error == MalformedRelease || HeadingVersion(h).error == BadDate
  {}

  /** Lines put together with line feeds between them. */
  lemma {:induction false} JoinIsUnlines(lines: seq<string>)
    requires lines != []
    ensures Join(lines) + "\n" == Unlines(lines)
  {
    if |lines| == 1 {
      assert Unlines(lines[1..]) == "" && lines[0] + "\n" + "" == lines[0] + "\n";
    } else {
      JoinIsUnlines(lines[1..]);
      assert lines[0] + "\n" + Join(lines[1..]) + "\n" == lines[0] + "\n" + (Join(lines[1..]) + "\n");
    }
  }

  /** The notes of a body are its lines without the white space around them, and one line feed; a body of white
      space only has none. */
  lemma NotesAre(body: seq<string>) returns (before: string, after: string)
    ensures Notes(body) == Err(EmptyNotes) <==> Blank(Join(body))
    ensures Notes(body).Err? ==> Notes(body).error == EmptyNotes
    ensures Notes(body).Ok? ==>
              && |Notes(body).value| > 1 && Notes(body).value[|Notes(body).value| - 1] == '\n'
              && var text := Notes(body).value[..|Notes(body).value| - 1];
                 Join(body) == before + text + after && Blank(before) && Blank(after) && Trimmed(text)
  {
    before, after := TrimIsExact(Join(body));
    if Notes(body).Ok? {
      assert Notes(body).value[..|Notes(body).value| - 1] == Trim(Join(body));
    }
  }
}
