/** The changelog section extractor of the release tool (xtask). Strings are sequences of Unicode scalar
    values. */
module Changelog {
  import opened Wrappers
  import opened Strings

  const TITLE := "# Changelog"
  const LEVEL_TWO := "## "
  const UNRELEASED := "## [Unreleased]"
  const OPENING := "## ["
  const SEPARATOR := "] - "

  datatype Problem =
    | NoTitle
    | MalformedLevelTwo
    | UnterminatedFence
    | MalformedRelease
    | BadDate
    | NotExactlyOne
    | EmptyNotes

  // ----- fences and headings -----

  datatype Fence = Fence(mark: char, width: nat)

  /** The length of the run of `mark` a line begins with. */
  function Run(s: string, mark: char): (n: nat)
    ensures n <= |s|
  {
    if s != "" && s[0] == mark then 1 + Run(s[1..], mark) else 0
  }

  predicate Opens(line: string) {
    var t := TrimStart(line);
    Run(t, '`') >= 3 || Run(t, '~') >= 3
  }

  function Opened(line: string): Fence
    requires Opens(line)
  {
    var t := TrimStart(line);
    Fence(t[0], Run(t, t[0]))
  }

  predicate Closes(f: Fence, line: string) {
    var t := TrimStart(line);
    Run(t, f.mark) >= f.width && Blank(t[Run(t, f.mark)..])
  }

  predicate IsHeading(line: string) {
    LEVEL_TWO <= line && !Opens(line)
  }

  predicate IsMalformed(line: string) {
    "##" <= line && !("###" <= line) && !IsHeading(line) && !Opens(line)
  }

  /** The fence after a line that is no level-two heading, or nothing if it is a malformed one. */
  function NextFence(fence: Option<Fence>, line: string): Option<Option<Fence>> {
    match fence
    case Some(f) => Some(if Closes(f, line) then None else fence)
    case None => if Opens(line) then Some(Some(Opened(line))) else if IsMalformed(line) then None else Some(None)
  }

  /** Line numbers of the level-two headings outside fences, the first line being number `at`. */
  function Scan(lines: seq<string>, at: nat, fence: Option<Fence>): Result<seq<nat>, Problem> {
    if lines == [] then
      if fence.Some? then Err(UnterminatedFence) else Ok([])
    else if fence.None? && IsHeading(lines[0]) then
      match Scan(lines[1..], at + 1, None)
      case Ok(starts) => Ok([at] + starts)
      case Err(e) => Err(e)
    else
      match NextFence(fence, lines[0])
      case Some(next) => Scan(lines[1..], at + 1, next)
      case None => Err(MalformedLevelTwo)
  }

  predicate IsDigit(c: char) {
    '0' <= c <= '9'
  }

  function Split(s: string, separator: char): (parts: seq<string>)
    ensures |parts| > 0
  {
    if s == "" then [""]
    else
      var rest := Split(s[1..], separator);
      if s[0] == separator then [""] + rest else [[s[0]] + rest[0]] + rest[1..]
  }

  predicate AllDigits(s: string) {
    forall i | 0 <= i < |s| :: IsDigit(s[i])
  }

  /** `date_valid`: parts of four, two and two digits, the month up to 12 and the day up to 31. */
  predicate DateValid(s: string) {
    var p := Split(s, '-');
    && |p| == 3 && |p[0]| == 4 && |p[1]| == 2 && |p[2]| == 2
    && AllDigits(p[0]) && AllDigits(p[1]) && AllDigits(p[2])
    && 1 <= TwoDigits(p[1][0], p[1][1]) <= 12
    && 1 <= TwoDigits(p[2][0], p[2][1]) <= 31
  }

  function TwoDigits(tens: char, units: char): int {
    10 * (tens as int - '0' as int) + (units as int - '0' as int)
  }

  /** The version a heading names: none for the unreleased section. */
  function HeadingVersion(h: string): Result<Option<string>, Problem> {
    if h == UNRELEASED then Ok(None)
    else if !(OPENING <= h) then Err(MalformedRelease)
    else
      var rest := h[|OPENING|..];
      match Find(rest, SEPARATOR)
      case None => Err(MalformedRelease)
      case Some(at) =>
        FindIsFirst(rest, SEPARATOR);
        if DateValid(rest[at + |SEPARATOR|..]) then Ok(Some(rest[..at])) else Err(BadDate)
  }

  /** Line numbers of the headings that name the version; every heading has to be well formed. */
  function Matching(headings: seq<string>, starts: seq<nat>, version: string): Result<seq<nat>, Problem>
    requires |headings| == |starts|
  {
    if headings == [] then Ok([])
    else
      match HeadingVersion(headings[0])
      case Err(e) => Err(e)
      case Ok(v) =>
        match Matching(headings[1..], starts[1..], version)
        case Err(e) => Err(e)
        case Ok(found) => Ok((if v == Some(version) then [starts[0]] else []) + found)
  }

  /** The first start after line `at`, or the end. */
  function SectionEnd(starts: seq<nat>, at: nat, end: nat): nat {
    if starts == [] then end else if starts[0] > at then starts[0] else SectionEnd(starts[1..], at, end)
  }

  // ----- the extractor -----

  /** Lines numbered by `starts`, in bounds of the text. */
  function LinesAt(lines: seq<string>, starts: seq<nat>): seq<string>
    requires forall i | 0 <= i < |starts| :: starts[i] < |lines|
  {
    seq(|starts|, i requires 0 <= i < |starts| => lines[starts[i]])
  }

  function Notes(body: seq<string>): Result<string, Problem> {
    if Blank(Join(body)) then Err(EmptyNotes) else Ok(Trim(Join(body)) + "\n")
  }

  lemma {:induction false} ScanInBounds(lines: seq<string>, at: nat, fence: Option<Fence>)
    requires Scan(lines, at, fence).Ok?
    ensures var starts := Scan(lines, at, fence).value;
            && (forall i | 0 <= i < |starts| :: at <= starts[i] < at + |lines|)
            && (forall i, j | 0 <= i < j < |starts| :: starts[i] < starts[j])
  {
    if lines != [] {
      if fence.None? && IsHeading(lines[0]) {
        ScanInBounds(lines[1..], at + 1, None);
      } else {
        ScanInBounds(lines[1..], at + 1, NextFence(fence, lines[0]).value);
      }
    }
  }

  lemma {:induction false} MatchingAreStarts(headings: seq<string>, starts: seq<nat>, version: string)
    requires |headings| == |starts| && Matching(headings, starts, version).Ok?
    ensures var found := Matching(headings, starts, version).value;
            forall k | 0 <= k < |found| :: found[k] in starts
  {
    if headings != [] {
      MatchingAreStarts(headings[1..], starts[1..], version);
      assert starts == [starts[0]] + starts[1..];
    }
  }

  lemma {:induction false} EndAfter(starts: seq<nat>, at: nat, end: nat)
    requires at < end && forall i | 0 <= i < |starts| :: starts[i] < end
    ensures at < SectionEnd(starts, at, end) <= end
  {
    if starts != [] {
      EndAfter(starts[1..], at, end);
    }
  }

  /** The scanning loop of the source. */
  method ScanLines(lines: seq<string>) returns (r: Result<seq<nat>, Problem>)
    ensures r == Scan(lines, 0, None)
  {
    var starts: seq<nat>, fence: Option<Fence> := [], None;
    assert lines[0..] == lines && forall rest: seq<nat> :: starts + rest == rest;
    for i := 0 to |lines|
      invariant Scan(lines, 0, None) ==
                match Scan(lines[i..], i, fence) case Ok(rest) => Ok(starts + rest) case Err(e) => Err(e)
    {
      var line := lines[i];
      assert lines[i..][0] == line && lines[i..][1..] == lines[i + 1..];
      if fence.Some? {
        if Closes(fence.value, line) {
          fence := None;
        }
      } else if Opens(line) {
        fence := Some(Opened(line));
      } else if LEVEL_TWO <= line {
        assert forall rest: seq<nat> :: starts + ([i] + rest) == (starts + [i]) + rest;
        starts := starts + [i];
      } else if "##" <= line && !("###" <= line) {
        return Err(MalformedLevelTwo);
      }
    }
    assert lines[|lines|..] == [] && starts + [] == starts;
    if fence.Some? {
      return Err(UnterminatedFence);
    }
    return Ok(starts);
  }

  /** The loop over the headings found. */
  method MatchHeadings(lines: seq<string>, starts: seq<nat>, version: string) returns (r: Result<seq<nat>, Problem>)
    requires forall i | 0 <= i < |starts| :: starts[i] < |lines|
    ensures r == Matching(LinesAt(lines, starts), starts, version)
  {
    var headings := LinesAt(lines, starts);
    var found: seq<nat> := [];
    assert headings[0..] == headings && starts[0..] == starts && forall rest: seq<nat> :: found + rest == rest;
    for i := 0 to |starts|
      invariant Matching(headings, starts, version) ==
                match Matching(headings[i..], starts[i..], version)
                case Ok(rest) => Ok(found + rest)
                case Err(e) => Err(e)
    {
      assert headings[i..][0] == headings[i] && headings[i..][1..] == headings[i + 1..];
      assert starts[i..][0] == starts[i] && starts[i..][1..] == starts[i + 1..];
      var v := HeadingVersion(headings[i]);
      if v.Err? {
        return Err(v.error);
      }
      assert forall rest: seq<nat> :: found + ([starts[i]] + rest) == (found + [starts[i]]) + rest;
      assert forall rest: seq<nat> :: [] + rest == rest;
      if v.value == Some(version) {
        found := found + [starts[i]];
      }
    }
    assert headings[|starts|..] == [] && found + [] == found;
    return Ok(found);
  }

  /** The first heading after the one found. */
  method FirstAfter(starts: seq<nat>, at: nat, last: nat) returns (end: nat)
    ensures end == SectionEnd(starts, at, last)
  {
    for i := 0 to |starts|
      invariant SectionEnd(starts, at, last) == SectionEnd(starts[i..], at, last)
    {
      if starts[i] > at {
        return starts[i];
      }
    }
    return last;
  }

  function Extract(text: string, version: string): Result<string, Problem> {
    var lines := Lines(text);
    if lines == [] || lines[0] != TITLE then Err(NoTitle)
    else match Scan(lines, 0, None)
         case Err(e) => Err(e)
         case Ok(starts) =>
           ScanInBounds(lines, 0, None);
           match Matching(LinesAt(lines, starts), starts, version)
           case Err(e) => Err(e)
           case Ok(found) =>
             if |found| != 1 then Err(NotExactlyOne)
             else
               MatchingAreStarts(LinesAt(lines, starts), starts, version);
               assert found[0] in starts;
               EndAfter(starts, found[0], |lines|);
               Notes(lines[found[0] + 1..SectionEnd(starts, found[0], |lines|)])
  }

  /** `extract_notes`. */
  method ExtractNotes(text: string, version: string) returns (r: Result<string, Problem>)
    ensures r == Extract(text, version)
  {
    hide Scan, Matching, HeadingVersion, Lines, Join, Trim;
    var lines := Lines(text);
    if |lines| == 0 || lines[0] != TITLE {
      return Err(NoTitle);
    }
    var scanned := ScanLines(lines);
    if scanned.Err? {
      return Err(scanned.error);
    }
    var starts := scanned.value;
    ScanInBounds(lines, 0, None);
    var matched := MatchHeadings(lines, starts, version);
    if matched.Err? {
      return Err(matched.error);
    }
    var found := matched.value;
    if |found| != 1 {
      return Err(NotExactlyOne);
    }
    MatchingAreStarts(LinesAt(lines, starts), starts, version);
    assert found[0] in starts;
    EndAfter(starts, found[0], |lines|);
    var end := FirstAfter(starts, found[0], |lines|);
    var body := Join(lines[found[0] + 1..end]);
    if Trim(body) == "" {
      TrimBlank(body);
      return Err(EmptyNotes);
    }
    TrimBlank(body);
    return Ok(Trim(body) + "\n");
  }
}
