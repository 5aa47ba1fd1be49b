/** A changelog as the release process writes it, and what extraction finds in it. */
module ChangelogRendering {
  import opened Wrappers
  import opened Strings
  import opened Changelog
  import opened ChangelogSections

  datatype Release = Release(version: string, date: string, body: seq<string>)

  datatype Document = Document(intro: seq<string>, unreleased: Option<seq<string>>, releases: seq<Release>)

  function Heading(version: string, date: string): string {
    OPENING + version + SEPARATOR + date
  }

  function ReleaseSections(releases: seq<Release>): seq<Section> {
    if releases == [] then []
    else [Section(Heading(releases[0].version, releases[0].date), releases[0].body)] + ReleaseSections(releases[1..])
  }

  function UnreleasedSection(body: Option<seq<string>>): seq<Section> {
    match body case Some(b) => [Section(UNRELEASED, b)] case None => []
  }

  function Sections(doc: Document): seq<Section> {
    UnreleasedSection(doc.unreleased) + ReleaseSections(doc.releases)
  }

  function Render(doc: Document): string {
    Unlines([TITLE] + doc.intro + Flatten(Sections(doc)))
  }

  predicate BodyOk(body: seq<string>) {
    Quiet(body) && forall i | 0 <= i < |body| :: IsLine(body[i])
  }

  predicate ReleaseOk(r: Release) {
    IsLine(r.version) && Find(r.version, SEPARATOR).None? && DateValid(r.date) && BodyOk(r.body)
  }

  predicate DocumentOk(doc: Document) {
    && BodyOk(doc.intro) && (doc.unreleased.Some? ==> BodyOk(doc.unreleased.value))
    && forall k | 0 <= k < |doc.releases| :: ReleaseOk(doc.releases[k])
  }

  /** The bodies of the releases of a version. */
  function Bodies(releases: seq<Release>, version: string): seq<seq<string>> {
    if releases == [] then []
    else (if releases[0].version == version then [releases[0].body] else []) + Bodies(releases[1..], version)
  }

  // ----- headings -----

  function JoinParts(parts: seq<string>, separator: char): string {
    if parts == [] then ""
    else if |parts| == 1 then parts[0]
    else parts[0] + [separator] + JoinParts(parts[1..], separator)
  }

  lemma {:induction false} SplitLosesNothing(s: string, separator: char)
    ensures JoinParts(Split(s, separator), separator) == s
  {
    if s != "" {
      var rest := Split(s[1..], separator);
      SplitLosesNothing(s[1..], separator);
      var parts := Split(s, separator);
      assert s == [s[0]] + s[1..];
      if s[0] == separator {
        assert parts[1..] == rest;
      } else {
        assert parts[1..] == rest[1..];
      }
    }
  }

  /** A valid date is ten characters, hyphens at two places and digits everywhere else. */
  lemma DateShape(s: string)
    requires DateValid(s)
    ensures |s| == 10 && s[4] == '-' && s[7] == '-'
    ensures forall i | 0 <= i < 10 && i != 4 && i != 7 :: IsDigit(s[i])
  {
    var p := Split(s, '-');
    SplitLosesNothing(s, '-');
    assert p[1..][1..] == [p[2]] && p[1..][0] == p[1];
    assert JoinParts([p[2]], '-') == p[2];
    assert JoinParts(p[1..], '-') == p[1] + ['-'] + p[2];
    assert s == p[0] + ['-'] + JoinParts(p[1..], '-');
    assert s == p[0] + "-" + (p[1] + "-" + p[2]);
    forall i | 0 <= i < 10 && i != 4 && i != 7 ensures IsDigit(s[i]) {
      assert i < 4 ==> s[i] == p[0][i];
      assert 4 < i < 7 ==> s[i] == p[1][i - 5];
      assert i > 7 ==> s[i] == p[2][i - 8];
    }
  }

  lemma {:induction false} SplitAtFirst(part: string, rest: string, separator: char)
    requires forall i | 0 <= i < |part| :: part[i] != separator
    ensures Split(part + [separator] + rest, separator) == [part] + Split(rest, separator)
    ensures Split(part, separator) == [part]
  {
    var s := part + [separator] + rest;
    if part == "" {
      assert s[1..] == rest;
    } else {
      SplitAtFirst(part[1..], rest, separator);
      assert s[1..] == part[1..] + [separator] + rest;
      assert part == [part[0]] + part[1..];
    }
  }

  /** A date is accepted exactly when it is ten characters, hyphens at two places and digits everywhere else, with a
      month from 1 to 12 and a day from 1 to 31. */
  lemma DateIsExactly(s: string)
    ensures DateValid(s) <==>
            && |s| == 10 && s[4] == '-' && s[7] == '-'
            && (forall i | 0 <= i < 10 && i != 4 && i != 7 :: IsDigit(s[i]))
            && 1 <= TwoDigits(s[5], s[6]) <= 12 && 1 <= TwoDigits(s[8], s[9]) <= 31
  {
    if DateValid(s) {
      DateShape(s);
      DateParts(s);
    } else if |s| == 10 && s[4] == '-' && s[7] == '-'
              && (forall i | 0 <= i < 10 && i != 4 && i != 7 :: IsDigit(s[i])) {
      DateParts(s);
    }
  }

  lemma DateParts(s: string)
    requires |s| == 10 && s[4] == '-' && s[7] == '-'
    requires forall i | 0 <= i < 10 && i != 4 && i != 7 :: IsDigit(s[i])
    ensures Split(s, '-') == [s[..4], s[5..7], s[8..]]
    ensures AllDigits(s[..4]) && AllDigits(s[5..7]) && AllDigits(s[8..])
    ensures s[5..7][0] == s[5] && s[5..7][1] == s[6] && s[8..][0] == s[8] && s[8..][1] == s[9]
  {
    assert s == s[..4] + ['-'] + s[5..] && s[5..] == s[5..7] + ['-'] + s[8..];
    SplitAtFirst(s[..4], s[5..], '-');
    SplitAtFirst(s[5..7], s[8..], '-');
    SplitAtFirst(s[8..], "", '-');
  }

  lemma {:induction false} FindAfter(v: string, date: string)
    requires Find(v, SEPARATOR).None?
    ensures Find(v + SEPARATOR + date, SEPARATOR) == Some(|v|)
  {
    var s := v + SEPARATOR + date;
    if v == "" {
      assert s == SEPARATOR + date;
    } else {
      FindAfter(v[1..], date);
      assert s[1..] == v[1..] + SEPARATOR + date;
      NoOverlap(v, date);
    }
  }

  /** The separator cannot begin inside a version that does not contain it. */
  lemma NoOverlap(v: string, date: string)
    requires v != "" && !(SEPARATOR <= v)
    ensures !(SEPARATOR <= v + SEPARATOR + date)
  {
    var s, p := v + SEPARATOR + date, SEPARATOR;
    assert s[..4] == [s[0], s[1], s[2], s[3]];
    assert p[1] == ' ' && p[2] == '-' && p[3] == ' ';
    assert |v| < 4 ==> s[|v|] == p[0];
    assert |v| >= 4 ==> v[..4] == s[..4];
  }

  lemma HeadingNames(version: string, date: string)
    requires IsLine(version) && Find(version, SEPARATOR).None? && DateValid(date)
    ensures HeadingVersion(Heading(version, date)) == Ok(Some(version))
    ensures IsHeading(Heading(version, date)) && IsLine(Heading(version, date))
  {
    var h := Heading(version, date);
    DateShape(date);
    FindAfter(version, date);
    var rest := h[|OPENING|..];
    assert rest == version + SEPARATOR + date;
    assert rest[..|version|] == version && rest[|version| + |SEPARATOR|..] == date;
    assert h[|h| - 1] == date[9] && UNRELEASED[|UNRELEASED| - 1] == ']';
    StartsHeading(h, version + SEPARATOR + date);
    HeadingIsLine(version, date);
  }

  /** The heading names the version it was rendered from exactly when the version does not itself contain the
      separator. */
  lemma HeadingNamesExactly(version: string, date: string)
    requires IsLine(version) && DateValid(date)
    ensures HeadingVersion(Heading(version, date)) == Ok(Some(version)) <==> Find(version, SEPARATOR).None?
  {
    if Find(version, SEPARATOR).None? {
      HeadingNames(version, date);
    } else {
      hide DateValid, Find, IsLine;
      FindWithin(version, SEPARATOR + date);
      FoundBeforeEnd(version);
      assert Heading(version, date)[|OPENING|..] == version + (SEPARATOR + date);
    }
  }

  lemma FoundBeforeEnd(s: string)
    requires Find(s, SEPARATOR).Some?
    ensures Find(s, SEPARATOR).value < |s|
  {
    FindIsFirst(s, SEPARATOR);
  }

  lemma {:induction false} FindWithin(s: string, more: string)
    requires Find(s, SEPARATOR).Some?
    ensures Find(s + more, SEPARATOR) == Find(s, SEPARATOR)
  {
    if SEPARATOR <= s {
      assert SEPARATOR <= s + more;
    } else {
      FindWithin(s[1..], more);
      assert (s + more)[1..] == s[1..] + more;
      FindIsFirst(s, SEPARATOR);
      assert (s + more)[..4] == s[..4];
    }
  }

  lemma HeadingIsLine(version: string, date: string)
    requires IsLine(version) && DateValid(date)
    ensures IsLine(Heading(version, date))
  {
    var h := Heading(version, date);
    DateShape(date);
    forall i | 0 <= i < |h| ensures h[i] != '\n' {
      var start := |OPENING| + |version| + |SEPARATOR|;
      assert |OPENING| <= i < |OPENING| + |version| ==> h[i] == version[i - |OPENING|];
      assert i >= start ==> h[i] == date[i - start];
    }
    assert h[|h| - 1] == date[9];
  }

  lemma StartsHeading(h: string, rest: string)
    requires h == OPENING + rest
    ensures IsHeading(h)
  {
    assert h[0] == '#' && h[1] == '#' && h[2] == ' ';
    assert h[..3] == LEVEL_TWO;
    assert TrimStart(h) == h;
  }

  lemma UnreleasedIsHeading()
    ensures IsHeading(UNRELEASED) && IsLine(UNRELEASED) && HeadingVersion(UNRELEASED) == Ok(None)
  {
    StartsHeading(UNRELEASED, "Unreleased]");
  }

  // ----- documents -----

  lemma {:induction false} ReleasesAreSections(releases: seq<Release>)
    requires forall k | 0 <= k < |releases| :: ReleaseOk(releases[k])
    ensures |ReleaseSections(releases)| == |releases| && SectionsOk(ReleaseSections(releases))
    ensures forall k | 0 <= k < |releases| ::
              && ReleaseSections(releases)[k] == Section(Heading(releases[k].version, releases[k].date), releases[k].body)
              && IsLine(ReleaseSections(releases)[k].heading)
  {
    if releases != [] {
      ReleasesAreSections(releases[1..]);
      HeadingNames(releases[0].version, releases[0].date);
    }
  }

  lemma SectionsAreOk(doc: Document)
    requires DocumentOk(doc)
    ensures SectionsOk(Sections(doc))
    ensures forall k | 0 <= k < |Sections(doc)| ::
              IsLine(Sections(doc)[k].heading) && BodyOk(Sections(doc)[k].body)
  {
    ReleasesAreSections(doc.releases);
    UnreleasedIsHeading();
  }

  lemma {:induction false} FlattenLines(sections: seq<Section>)
    requires forall k | 0 <= k < |sections| :: IsLine(sections[k].heading) && BodyOk(sections[k].body)
    ensures forall l | l in Flatten(sections) :: IsLine(l)
  {
    if sections != [] {
      FlattenLines(sections[1..]);
    }
  }

  lemma ReleaseNames(r: Release)
    requires ReleaseOk(r)
    ensures HeadingVersion(Heading(r.version, r.date)) == Ok(Some(r.version))
  {
    HeadingNames(r.version, r.date);
  }

  /** The numbers of the releases of a version, the first release being number `at`. */
  function Numbers(releases: seq<Release>, at: nat, version: string): seq<nat> {
    if releases == [] then []
    else (if releases[0].version == version then [at] else []) + Numbers(releases[1..], at + 1, version)
  }

  lemma {:induction false} NumbersFindBodies(releases: seq<Release>, at: nat, version: string, i: nat)
    requires i < |Bodies(releases, version)|
    ensures |Numbers(releases, at, version)| == |Bodies(releases, version)|
    ensures var n := Numbers(releases, at, version)[i];
            at <= n < at + |releases| && releases[n - at].body == Bodies(releases, version)[i]
  {
    var skipped := if releases[0].version == version then 1 else 0;
    if i >= skipped {
      NumbersFindBodies(releases[1..], at + 1, version, i - skipped);
    } else {
      AsManyNumbers(releases, at, version);
    }
  }

  lemma {:induction false} AsManyNumbers(releases: seq<Release>, at: nat, version: string)
    ensures |Numbers(releases, at, version)| == |Bodies(releases, version)|
  {
    if releases != [] {
      AsManyNumbers(releases[1..], at + 1, version);
    }
  }

  lemma {:induction false} NamingReleases(releases: seq<Release>, at: nat, version: string)
    requires forall k | 0 <= k < |releases| :: ReleaseOk(releases[k])
    ensures Naming(ReleaseSections(releases), at, version) == Ok(Numbers(releases, at, version))
  {
    hide ReleaseOk, HeadingVersion, Heading;
    if releases != [] {
      NamingReleases(releases[1..], at + 1, version);
      ReleaseNames(releases[0]);
      assert ReleaseSections(releases)[1..] == ReleaseSections(releases[1..]);
    }
  }

  lemma NamingSections(doc: Document, version: string)
    requires DocumentOk(doc)
    ensures var naming, bodies := Naming(Sections(doc), 0, version), Bodies(doc.releases, version);
            && naming.Ok? && |naming.value| == |bodies|
            && forall i | 0 <= i < |bodies| ::
                 naming.value[i] < |Sections(doc)| && Sections(doc)[naming.value[i]].body == bodies[i]
  {
    hide Naming, HeadingVersion, ReleaseOk, Numbers, Bodies, BodyOk;
    var sections, at := Sections(doc), if doc.unreleased.Some? then 1 else 0;
    ReleasesAreSections(doc.releases);
    NamingFromReleases(doc, at, version);
    AsManyNumbers(doc.releases, at, version);
    forall i | 0 <= i < |Bodies(doc.releases, version)|
      ensures var n := Numbers(doc.releases, at, version)[i];
              n < |sections| && sections[n].body == Bodies(doc.releases, version)[i]
    {
      NumbersFindBodies(doc.releases, at, version, i);
      var n := Numbers(doc.releases, at, version)[i];
      assert sections[n] == ReleaseSections(doc.releases)[n - at];
    }
  }

  lemma NamingFromReleases(doc: Document, at: nat, version: string)
    requires DocumentOk(doc) && at == if doc.unreleased.Some? then 1 else 0
    ensures Naming(Sections(doc), 0, version) == Ok(Numbers(doc.releases, at, version))
  {
    NamingReleases(doc.releases, at, version);
    if doc.unreleased.Some? {
      UnreleasedIsHeading();
      assert Sections(doc)[1..] == ReleaseSections(doc.releases);
      assert [] + Numbers(doc.releases, at, version) == Numbers(doc.releases, at, version);
    } else {
      assert Sections(doc) == ReleaseSections(doc.releases);
    }
  }

  lemma TitleIsQuiet(intro: seq<string>)
    requires Quiet(intro)
    ensures Quiet([TITLE] + intro)
  {
    assert TITLE[0] == '#' && TITLE[1] == ' ';
    assert TrimStart(TITLE) == TITLE;
    assert ([TITLE] + intro)[1..] == intro;
  }

  /** Extraction inverts rendering. Whatever the document says under its other headings and inside its fences,
      the notes of a version are the body it was rendered from, trimmed and with one line feed; they are refused
      when that body is blank and when the version does not have exactly one section. */
  lemma ExtractInvertsRender(doc: Document, version: string)
    requires DocumentOk(doc)
    ensures var bodies := Bodies(doc.releases, version);
            Extract(Render(doc), version) == if |bodies| == 1 then Notes(bodies[0]) else Err(NotExactlyOne)
  {
    var sections, intro := Sections(doc), [TITLE] + doc.intro;
    SectionsAreOk(doc);
    FlattenLines(sections);
    TitleIsQuiet(doc.intro);
    TitleIsLine();
    LinesOfUnlines(intro + Flatten(sections));
    ExtractChooses(intro, sections, Render(doc), version);
    NamingSections(doc, version);
  }

  lemma TitleIsLine()
    ensures IsLine(TITLE)
  {}

  lemma {:induction false} NoBodies(releases: seq<Release>, version: string)
    requires forall k | 0 <= k < |releases| :: releases[k].version != version
    ensures Bodies(releases, version) == []
  {
    if releases != [] {
      NoBodies(releases[1..], version);
    }
  }

  /** With distinct versions every release's body is found under its version. */
  lemma {:induction false} DistinctVersions(releases: seq<Release>, k: nat)
    requires k < |releases|
    requires forall i, j | 0 <= i < j < |releases| :: releases[i].version != releases[j].version
    ensures Bodies(releases, releases[k].version) == [releases[k].body]
  {
    if k == 0 {
      NoBodies(releases[1..], releases[0].version);
    } else {
      DistinctVersions(releases[1..], k - 1);
    }
  }
}
