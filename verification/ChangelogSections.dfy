/** Extraction inverts rendering: what the extractor does to a changelog made of sections. */
module ChangelogSections {
  import opened Wrappers
  import opened Strings
  import opened Changelog

  datatype Section = Section(heading: string, body: seq<string>)

  function Flatten(sections: seq<Section>): seq<string> {
    if sections == [] then []
    else [sections[0].heading] + sections[0].body + Flatten(sections[1..])
  }

  /** The fence state after lines that hold no heading outside a fence, or nothing if they do. */
  function Through(lines: seq<string>, fence: Option<Fence>): Option<Option<Fence>> {
    if lines == [] then Some(fence)
    else if fence.None? && IsHeading(lines[0]) then None
    else match NextFence(fence, lines[0]) case Some(next) => Through(lines[1..], next) case None => None
  }

  /** Fences balanced, and no level-two heading outside them. */
  predicate Quiet(lines: seq<string>) {
    Through(lines, None) == Some(None)
  }

  predicate SectionsOk(sections: seq<Section>) {
    forall i | 0 <= i < |sections| :: IsHeading(sections[i].heading) && Quiet(sections[i].body)
  }

  function Positions(sections: seq<Section>, at: nat): seq<nat> {
    if sections == [] then [] else [at] + Positions(sections[1..], at + 1 + |sections[0].body|)
  }

  function Headings(sections: seq<Section>): seq<string> {
    if sections == [] then [] else [sections[0].heading] + Headings(sections[1..])
  }

  // ----- scanning a changelog made of sections -----

  /** Headings inside fences, and all other quiet lines, never start a section. */
  lemma {:induction false} ScanThrough(lines: seq<string>, rest: seq<string>, at: nat, fence: Option<Fence>)
    requires Through(lines, fence).Some?
    ensures Scan(lines + rest, at, fence) == Scan(rest, at + |lines|, Through(lines, fence).value)
  {
    if lines == [] {
      assert [] + rest == rest;
    } else {
      ScanThrough(lines[1..], rest, at + 1, NextFence(fence, lines[0]).value);
      assert (lines + rest)[1..] == lines[1..] + rest;
    }
  }

  lemma ScanHeading(heading: string, text: seq<string>, rest: seq<string>, at: nat)
    requires IsHeading(heading) && text == [heading] + rest
    ensures Scan(text, at, None) ==
            match Scan(rest, at + 1, None) case Ok(starts) => Ok([at] + starts) case Err(e) => Err(e)
  {
    assert text[1..] == rest;
  }

  lemma {:induction false} ScanSections(sections: seq<Section>, at: nat)
    requires SectionsOk(sections)
    ensures Scan(Flatten(sections), at, None) == Ok(Positions(sections, at))
  {
    hide IsHeading, Scan;
    if sections == [] {
      ScanNothing(at);
    } else {
      var heading, body, rest := sections[0].heading, sections[0].body, Flatten(sections[1..]);
      assert IsHeading(heading) && Quiet(body) && SectionsOk(sections[1..]);
      ScanSections(sections[1..], at + 1 + |body|);
      ScanThrough(body, rest, at + 1, None);
      var text := Flatten(sections);
      assert text == [heading] + (body + rest);
      ScanHeading(heading, text, body + rest, at);
    }
  }

  lemma ScanNothing(at: nat)
    ensures Scan([], at, None) == Ok([])
  {}

  /** The sections a scanned text falls into. */
  function Cut(lines: seq<string>, fence: Option<Fence>): (seq<string>, seq<Section>) {
    if lines == [] then ([], [])
    else if fence.None? && IsHeading(lines[0]) then
      var (body, sections) := Cut(lines[1..], None);
      ([], [Section(lines[0], body)] + sections)
    else
      match NextFence(fence, lines[0])
      case None => ([], [])
      case Some(next) =>
        var (body, sections) := Cut(lines[1..], next);
        ([lines[0]] + body, sections)
  }

  lemma HeadingStarts(heading: string, body: seq<string>, sections: seq<Section>)
    requires IsHeading(heading) && Quiet(body) && SectionsOk(sections)
    ensures var all := [Section(heading, body)] + sections;
            SectionsOk(all) && Flatten(all) == [heading] + (body + Flatten(sections))
  {
    hide IsHeading, Quiet;
    var all := [Section(heading, body)] + sections;
    assert all[1..] == sections;
    assert [heading] + body + Flatten(sections) == [heading] + (body + Flatten(sections));
  }

  lemma QuietLine(line: string, body: seq<string>, fence: Option<Fence>)
    requires !(fence.None? && IsHeading(line)) && NextFence(fence, line).Some?
    ensures Through([line] + body, fence) == Through(body, NextFence(fence, line).value)
  {
    assert ([line] + body)[1..] == body;
  }

  lemma CutNothing()
    ensures Flatten([]) == [] && Through([], None) == Some(None) && SectionsOk([])
  {}

  lemma {:induction false} CutIsScan(lines: seq<string>, at: nat, fence: Option<Fence>)
    requires Scan(lines, at, fence).Ok?
    ensures var (body, sections) := Cut(lines, fence);
            && lines == body + Flatten(sections) && Through(body, fence) == Some(None) && SectionsOk(sections)
  {
    hide IsHeading, NextFence, Flatten, Through, SectionsOk;
    CutNothing();
    if lines != [] {
      var line, rest := lines[0], lines[1..];
      assert lines == [line] + rest;
      if fence.None? && IsHeading(line) {
        CutIsScan(rest, at + 1, None);
        var (body, sections) := Cut(rest, None);
        HeadingStarts(line, body, sections);
        assert lines == [] + Flatten([Section(line, body)] + sections);
      } else {
        var next := NextFence(fence, line).value;
        CutIsScan(rest, at + 1, next);
        var (body, sections) := Cut(rest, next);
        QuietLine(line, body, fence);
        assert lines == ([line] + body) + Flatten(sections);
      }
    }
  }

  /** The scan accepts exactly the texts that are an introduction followed by sections, all of them with
      balanced fences and without level-two headings outside. */
  lemma ScanAcceptsSections(lines: seq<string>)
    ensures Scan(lines, 0, None).Ok? <==>
            exists intro, sections :: lines == intro + Flatten(sections) && Quiet(intro) && SectionsOk(sections)
  {
    if Scan(lines, 0, None).Ok? {
      CutIsScan(lines, 0, None);
      var (body, sections) := Cut(lines, None);
      assert lines == body + Flatten(sections) && Quiet(body) && SectionsOk(sections);
    }
    if intro, sections :| lines == intro + Flatten(sections) && Quiet(intro) && SectionsOk(sections) {
      ScanThrough(intro, Flatten(sections), 0, None);
      ScanSections(sections, |intro|);
    }
  }

  // ----- the sections in the text -----

  lemma {:induction false} PositionsAre(sections: seq<Section>, at: nat)
    ensures |Positions(sections, at)| == |Headings(sections)| == |sections|
    ensures forall k | 0 <= k < |sections| ::
              Headings(sections)[k] == sections[k].heading && at <= Positions(sections, at)[k] < at + |Flatten(sections)|
    ensures forall i, j | 0 <= i < j < |sections| :: Positions(sections, at)[i] < Positions(sections, at)[j]
  {
    if sections != [] {
      PositionsAre(sections[1..], at + 1 + |sections[0].body|);
    }
  }

  lemma {:induction false} BodyAt(before: seq<string>, sections: seq<Section>, k: nat)
    requires k < |sections|
    ensures |Positions(sections, |before|)| == |sections|
    ensures var lines, p, n := before + Flatten(sections), Positions(sections, |before|)[k], |sections[k].body|;
            p + 1 + n <= |lines| && lines[p] == sections[k].heading && lines[p + 1..p + 1 + n] == sections[k].body
    decreases k
  {
    var heading, body, rest := sections[0].heading, sections[0].body, Flatten(sections[1..]);
    var first := [heading] + body;
    PositionsAre(sections, |before|);
    Layout(before, heading, body, rest);
    if k > 0 {
      assert Positions(sections, |before|) == [|before|] + Positions(sections[1..], |before + first|);
      assert before + Flatten(sections) == (before + first) + rest;
      hide Positions, Flatten;
      BodyAt(before + first, sections[1..], k - 1);
    }
  }

  lemma Layout(before: seq<string>, heading: string, body: seq<string>, rest: seq<string>)
    ensures var lines, p := before + ([heading] + body + rest), |before|;
            && p + 1 + |body| <= |lines| && lines[p] == heading && lines[p + 1..p + 1 + |body|] == body
            && lines == (before + ([heading] + body)) + rest
  {
    var lines, p := before + ([heading] + body + rest), |before|;
    assert lines[p..] == [heading] + body + rest;
  }

  lemma {:induction false} EndOfSection(sections: seq<Section>, at: nat, k: nat)
    requires k < |sections|
    ensures |Positions(sections, at)| == |sections|
    ensures var p := Positions(sections, at)[k];
            SectionEnd(Positions(sections, at), p, at + |Flatten(sections)|) == p + 1 + |sections[k].body|
    decreases k
  {
    var starts, next := Positions(sections, at), at + 1 + |sections[0].body|;
    PositionsAre(sections, at);
    assert starts[1..] == Positions(sections[1..], next);
    if k > 0 {
      EndOfSection(sections[1..], next, k - 1);
      assert next + |Flatten(sections[1..])| == at + |Flatten(sections)|;
    }
  }

  lemma HeadingsAt(before: seq<string>, sections: seq<Section>)
    ensures var lines, starts := before + Flatten(sections), Positions(sections, |before|);
            && (forall k | 0 <= k < |starts| :: starts[k] < |lines|)
            && LinesAt(lines, starts) == Headings(sections)
  {
    PositionsAre(sections, |before|);
    forall k | 0 <= k < |sections|
      ensures (before + Flatten(sections))[Positions(sections, |before|)[k]] == Headings(sections)[k]
    {
      BodyAt(before, sections, k);
    }
  }

  // ----- choosing a section -----

  /** The numbers of the sections that name the version. */
  function Naming(sections: seq<Section>, at: nat, version: string): Result<seq<nat>, Problem> {
    if sections == [] then Ok([])
    else match HeadingVersion(sections[0].heading)
         case Err(e) => Err(e)
         case Ok(v) =>
           match Naming(sections[1..], at + 1, version)
           case Err(e) => Err(e)
           case Ok(found) => Ok((if v == Some(version) then [at] else []) + found)
  }

  function Choose(sections: seq<Section>, version: string): Result<string, Problem> {
    match Naming(sections, 0, version)
    case Err(e) => Err(e)
    case Ok(found) =>
      if |found| != 1 || found[0] >= |sections| then Err(NotExactlyOne) else Notes(sections[found[0]].body)
  }

  /** The starts of the sections whose numbers, counted from `at`, are given. */
  function NumbersOf(starts: seq<nat>, found: seq<nat>, at: nat): seq<nat>
    requires forall k | 0 <= k < |found| :: at <= found[k] < at + |starts|
  {
    seq(|found|, k requires 0 <= k < |found| => starts[found[k] - at])
  }

  lemma NumbersStep(starts: seq<nat>, later: seq<nat>, at: nat)
    requires starts != [] && forall k | 0 <= k < |later| :: at + 1 <= later[k] < at + |starts|
    ensures [] + later == later && [] + NumbersOf(starts, later, at) == NumbersOf(starts, later, at)
    ensures NumbersOf(starts, later, at) == NumbersOf(starts[1..], later, at + 1)
    ensures NumbersOf(starts, [at] + later, at) == [starts[0]] + NumbersOf(starts, later, at)
  {}

  lemma {:induction false} NamingIsMatching(sections: seq<Section>, at: nat, starts: seq<nat>, version: string)
    requires |starts| == |sections|
    ensures |Headings(sections)| == |starts|
    ensures match Naming(sections, at, version)
            case Err(e) => Matching(Headings(sections), starts, version) == Err(e)
            case Ok(found) =>
              && (forall k | 0 <= k < |found| :: at <= found[k] < at + |starts|)
              && Matching(Headings(sections), starts, version) == Ok(NumbersOf(starts, found, at))
  {
    hide HeadingVersion, NumbersOf, Matching, Headings, Naming;
    if sections == [] {
      NothingNamed(starts, at, version);
    } else {
      NamingIsMatching(sections[1..], at + 1, starts[1..], version);
      NamingStep(sections, at, version);
      MatchingStep(sections, starts, version);
      var later := Naming(sections[1..], at + 1, version);
      if later.Ok? {
        NumbersStep(starts, later.value, at);
      }
    }
  }

  lemma NamingStep(sections: seq<Section>, at: nat, version: string)
    requires sections != []
    ensures Naming(sections, at, version) ==
            match HeadingVersion(sections[0].heading)
            case Err(e) => Err(e)
            case Ok(v) =>
              match Naming(sections[1..], at + 1, version)
              case Err(e) => Err(e)
              case Ok(found) => Ok((if v == Some(version) then [at] else []) + found)
  {
    hide HeadingVersion;
  }

  lemma MatchingStep(sections: seq<Section>, starts: seq<nat>, version: string)
    requires sections != [] && |starts| == |sections|
    requires |Headings(sections[1..])| == |starts[1..]|
    ensures |Headings(sections)| == |starts|
    ensures Matching(Headings(sections), starts, version) ==
            match HeadingVersion(sections[0].heading)
            case Err(e) => Err(e)
            case Ok(v) =>
              match Matching(Headings(sections[1..]), starts[1..], version)
              case Err(e) => Err(e)
              case Ok(found) => Ok((if v == Some(version) then [starts[0]] else []) + found)
  {
    hide HeadingVersion;
    assert Headings(sections)[1..] == Headings(sections[1..]);
  }

  lemma NothingNamed(starts: seq<nat>, at: nat, version: string)
    ensures Headings([]) == [] && Naming([], at, version) == Ok([]) && NumbersOf(starts, [], at) == []
    ensures Matching([], [], version) == Ok([])
  {}

  /** The extractor sees a text of sections as sections. */
  lemma ExtractChooses(intro: seq<string>, sections: seq<Section>, text: string, version: string)
    requires Lines(text) == intro + Flatten(sections)
    requires intro != [] && intro[0] == TITLE && Quiet(intro) && SectionsOk(sections)
    ensures Extract(text, version) == Choose(sections, version)
  {
    hide HeadingVersion, IsHeading, SectionsOk, Through, Positions, Headings, Flatten, Naming, Scan, Matching;
    var lines, starts := Lines(text), Positions(sections, |intro|);
    ScanThrough(intro, Flatten(sections), 0, None);
    ScanSections(sections, |intro|);
    HeadingsAt(intro, sections);
    PositionsAre(sections, |intro|);
    NamingIsMatching(sections, 0, starts, version);
    var naming := Naming(sections, 0, version);
    if naming.Ok? && |naming.value| == 1 {
      BodyAt(intro, sections, naming.value[0]);
      EndOfSection(sections, |intro|, naming.value[0]);
    }
  }
}
