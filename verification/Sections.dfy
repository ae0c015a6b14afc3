/**
 * Cutting a report into sections (extensions/finish.ts, reportSections): the
 * cut loses no line and gives distinct keys, and the renaming loop ends, for
 * any recognisers of headings, fences and blank lines.
 */
module Sections {
  import opened Wrappers

  const PREAMBLE := "preamble"

  /** The recognisers reportSections reads a line with: a heading's words, the number they begin with, a fence, a blank line. */
  datatype Markdown = Markdown(
    heading: string -> Option<string>,
    number: string -> Option<string>,
    fence: string -> bool,
    blank: string -> bool)

  datatype Section = Section(key: string, title: string, lines: seq<string>)

  // --- lines ---

  function Split(text: string): (lines: seq<string>)
    ensures lines != []
  {
    if text == "" then [""]
    else if text[0] == '\n' then [""] + Split(text[1..])
    else
      var rest := Split(text[1..]);
      [[text[0]] + rest[0]] + rest[1..]
  }

  function Join(lines: seq<string>): string {
    if lines == [] then ""
    else if |lines| == 1 then lines[0]
    else lines[0] + "\n" + Join(lines[1..])
  }

  lemma JoinEmptyFirst(rest: seq<string>)
    requires rest != []
    ensures Join([""] + rest) == "\n" + Join(rest)
  {
    assert ([""] + rest)[1..] == rest;
  }

  lemma JoinLonger(c: char, rest: seq<string>)
    requires rest != []
    ensures Join([[c] + rest[0]] + rest[1..]) == [c] + Join(rest)
  {
    var all := [[c] + rest[0]] + rest[1..];
    assert all[1..] == rest[1..];
    if |rest| == 1 { assert all == [[c] + rest[0]]; }
  }

  lemma {:induction false} JoinSplit(text: string)
    ensures Join(Split(text)) == text
  {
    if text != "" {
      JoinSplit(text[1..]);
      assert text == [text[0]] + text[1..];
      if text[0] == '\n' { JoinEmptyFirst(Split(text[1..])); } else { JoinLonger(text[0], Split(text[1..])); }
    }
  }

  // --- keys ---

  function Decimal(n: nat): string {
    if n < 10 then [('0' as int + n) as char] else Decimal(n / 10) + [('0' as int + n % 10) as char]
  }

  function Value(digits: string): int {
    if digits == "" then 0 else 10 * Value(digits[..|digits| - 1]) + (digits[|digits| - 1] as int - '0' as int)
  }

  lemma {:induction false} ValueOfDecimal(n: nat)
    ensures Value(Decimal(n)) == n
  {
    if n >= 10 {
      ValueOfDecimal(n / 10);
      assert Decimal(n)[..|Decimal(n)| - 1] == Decimal(n / 10);
    } else {
      assert Decimal(n)[..0] == "";
    }
  }

  /** The nth alternative to a key that is taken. */
  function Numbered(base: string, n: nat): string {
    base + " (" + Decimal(n) + ")"
  }

  lemma NumberedDiffer(base: string, m: nat, n: nat)
    requires Numbered(base, m) == Numbered(base, n)
    ensures m == n
  {
    var at := |base| + 2;
    assert Decimal(m) == Numbered(base, m)[at..|Numbered(base, m)| - 1];
    assert Decimal(n) == Numbered(base, n)[at..|Numbered(base, n)| - 1];
    ValueOfDecimal(m);
    ValueOfDecimal(n);
  }

  /** The numbered keys tried before the nth. */
  ghost function Tried(base: string, n: nat): set<string> {
    set i | 2 <= i < n :: Numbered(base, i)
  }

  /** Each key tried is a new one, so as many fall away: the renaming runs out of keys to meet. */
  lemma TriedShrinks(base: string, keys: set<string>, n: nat)
    requires n >= 2 && Numbered(base, n) in keys
    ensures |keys - Tried(base, n + 1)| < |keys - Tried(base, n)|
  {
    var left := keys - Tried(base, n);
    assert Numbered(base, n) in left by {
      if Numbered(base, n) in Tried(base, n) {
        var i :| 2 <= i < n && Numbered(base, n) == Numbered(base, i);
        NumberedDiffer(base, n, i);
      }
    }
    assert keys - Tried(base, n + 1) == left - {Numbered(base, n)};
  }

  /** The first numbered key from the nth on that is not taken. */
  function NextFree(base: string, keys: set<string>, n: nat): (key: string)
    requires n >= 2
    ensures key !in keys
    ensures exists m :: m >= n && key == Numbered(base, m) && forall i :: n <= i < m ==> Numbered(base, i) in keys
    decreases |keys - Tried(base, n)|
  {
    if Numbered(base, n) !in keys then Numbered(base, n)
    else
      TriedShrinks(base, keys, n);
      NextFree(base, keys, n + 1)
  }

  function FreshKey(base: string, keys: set<string>): (key: string)
    ensures key !in keys
    ensures base !in keys ==> key == base
  {
    if base !in keys then base else NextFree(base, keys, 2)
  }

  /** The renaming as the source runs it: the base, then the base numbered from two, until one is free. */
  method RenameUntilFree(base: string, keys: set<string>) returns (key: string)
    ensures key == FreshKey(base, keys)
  {
    key := base;
    var n := 2;
    while key in keys
      invariant n >= 2
      invariant FreshKey(base, keys) == if key in keys then NextFree(base, keys, n) else key
      decreases |keys - Tried(base, n)| + if key in keys then 1 else 0
    {
      if Numbered(base, n) in keys { TriedShrinks(base, keys, n); } else { TriedGrows(base, keys, n); }
      key := Numbered(base, n);
      n := n + 1;
    }
  }

  lemma TriedGrows(base: string, keys: set<string>, n: nat)
    requires n >= 2 && Numbered(base, n) !in keys
    ensures keys - Tried(base, n + 1) == keys - Tried(base, n)
  {
  }

  // --- cutting the report ---

  function Keys(sections: seq<Section>): set<string> {
    set x | x in sections :: x.key
  }

  /** One more line: a heading outside a fence begins a section, any other line joins the last. */
  function CutLine(md: Markdown, sections: seq<Section>, fenced: bool, line: string): seq<Section>
    requires sections != []
  {
    var h := if fenced then None else md.heading(line);
    if h.Some? then
      sections + [Section(FreshKey(md.number(h.value).GetOr(h.value), Keys(sections)), h.value, [line])]
    else
      var last := sections[|sections| - 1];
      sections[..|sections| - 1] + [last.(lines := last.lines + [line])]
  }

  /** The sections of the lines, and whether a fence is open after them. */
  function Cut(md: Markdown, lines: seq<string>): (r: (seq<Section>, bool))
    ensures r.0 != []
  {
    if lines == [] then ([Section(PREAMBLE, "", [])], false)
    else
      var (sections, fenced) := Cut(md, lines[..|lines| - 1]);
      var line := lines[|lines| - 1];
      (CutLine(md, sections, fenced, line), if md.fence(line) then !fenced else fenced)
  }

  function ReportSections(md: Markdown, text: string): seq<Section> {
    Cut(md, Split(text)).0
  }

  lemma CutOneMore(md: Markdown, lines: seq<string>, i: nat)
    requires i < |lines|
    ensures var was := Cut(md, lines[..i]);
            Cut(md, lines[..i + 1]) == (CutLine(md, was.0, was.1, lines[i]), if md.fence(lines[i]) then !was.1 else was.1)
  {
    assert lines[..i + 1][..i] == lines[..i];
  }

  /** reportSections as the source runs it, line by line with a fence flag. */
  method CutReport(md: Markdown, text: string) returns (out: seq<Section>)
    ensures out == ReportSections(md, text)
  {
    var lines := Split(text);
    out := [Section(PREAMBLE, "", [])];
    var fenced := false;
    for i := 0 to |lines|
      invariant out != [] && (out, fenced) == Cut(md, lines[..i])
    {
      CutOneMore(md, lines, i);
      var h := if fenced then None else md.heading(lines[i]);
      if md.fence(lines[i]) { fenced := !fenced; }
      if h.Some? {
        var key := RenameUntilFree(md.number(h.value).GetOr(h.value), Keys(out));
        out := out + [Section(key, h.value, [lines[i]])];
        continue;
      }
      var last := out[|out| - 1];
      out := out[..|out| - 1] + [last.(lines := last.lines + [lines[i]])];
    }
    assert lines[..|lines|] == lines;
  }

  function Lines(sections: seq<Section>): seq<string> {
    if sections == [] then [] else Lines(sections[..|sections| - 1]) + sections[|sections| - 1].lines
  }

  ghost predicate DistinctKeys(sections: seq<Section>) {
    forall i, j :: 0 <= i < j < |sections| ==> sections[i].key != sections[j].key
  }

  /** A section after the preamble begins with its own heading line. */
  ghost predicate Headed(md: Markdown, sections: seq<Section>) {
    && sections != [] && sections[0].key == PREAMBLE
    && forall i :: 0 < i < |sections| ==> sections[i].lines != [] && md.heading(sections[i].lines[0]) == Some(sections[i].title)
  }

  lemma LineAdded(md: Markdown, sections: seq<Section>, fenced: bool, line: string)
    requires sections != []
    ensures Lines(CutLine(md, sections, fenced, line)) == Lines(sections) + [line]
  {
    var now := CutLine(md, sections, fenced, line);
    var h := if fenced then None else md.heading(line);
    if h.Some? {
      assert now[..|now| - 1] == sections;
    } else {
      assert now[..|now| - 1] == sections[..|sections| - 1];
    }
  }

  lemma KeysStayDistinct(md: Markdown, sections: seq<Section>, fenced: bool, line: string)
    requires sections != [] && DistinctKeys(sections)
    ensures DistinctKeys(CutLine(md, sections, fenced, line))
  {
    var now := CutLine(md, sections, fenced, line);
    var h := if fenced then None else md.heading(line);
    forall i, j | 0 <= i < j < |now| ensures now[i].key != now[j].key {
      if h.Some? && j == |sections| {
        assert sections[i] in sections && sections[i].key in Keys(sections);
      }
    }
  }

  lemma StaysHeaded(md: Markdown, sections: seq<Section>, fenced: bool, line: string)
    requires sections != [] && Headed(md, sections)
    ensures Headed(md, CutLine(md, sections, fenced, line))
  {
    var now := CutLine(md, sections, fenced, line);
    var last := sections[|sections| - 1];
    assert last.lines != [] ==> (last.lines + [line])[0] == last.lines[0];
    forall i | 0 < i < |now| ensures now[i].lines != [] && md.heading(now[i].lines[0]) == Some(now[i].title) {
      assert i < |sections| - 1 ==> now[i] == sections[i];
    }
  }

  lemma {:induction false} CutIsFaithful(md: Markdown, lines: seq<string>)
    ensures Lines(Cut(md, lines).0) == lines
    ensures DistinctKeys(Cut(md, lines).0)
    ensures Headed(md, Cut(md, lines).0)
  {
    if lines == [] {
      assert Cut(md, lines).0[..0] == [];
    } else {
      var most, line := lines[..|lines| - 1], lines[|lines| - 1];
      CutIsFaithful(md, most);
      var (was, fenced) := Cut(md, most);
      LineAdded(md, was, fenced, line);
      KeysStayDistinct(md, was, fenced, line);
      StaysHeaded(md, was, fenced, line);
      assert lines == most + [line];
    }
  }

  /** The cut is faithful: joining all the sections' lines gives the text back, and the keys are pairwise distinct. */
  lemma SectionsAreTheReport(md: Markdown, text: string)
    ensures Join(Lines(ReportSections(md, text))) == text
    ensures DistinctKeys(ReportSections(md, text)) && Headed(md, ReportSections(md, text))
  {
    CutIsFaithful(md, Split(text));
    JoinSplit(text);
  }

  // --- where the cuts are ---

  /** How many of the lines open or close a fence. */
  function Fences(md: Markdown, lines: seq<string>): nat {
    if lines == [] then 0
    else Fences(md, lines[..|lines| - 1]) + if md.fence(lines[|lines| - 1]) then 1 else 0
  }

  /** A heading line with no fence open before it: as many closed as opened. */
  predicate HeadsAt(md: Markdown, lines: seq<string>, i: nat) {
    i < |lines| && md.heading(lines[i]).Some? && Fences(md, lines[..i]) % 2 == 0
  }

  /** Each section's first line: the preamble's is the first of all, and the others' are exactly the headings outside a fence, in order. */
  ghost predicate CutsAt(md: Markdown, lines: seq<string>, starts: seq<nat>) {
    && starts != [] && starts[0] == 0
    && (forall j :: 0 < j < |starts| ==> HeadsAt(md, lines, starts[j]) && (j > 1 ==> starts[j - 1] < starts[j]))
    && forall i :: HeadsAt(md, lines, i) ==> exists j :: 0 < j < |starts| && starts[j] == i
  }

  /** Where a section ends: where the next begins, or with the lines. */
  function EndOf(lines: seq<string>, starts: seq<nat>, j: nat): nat
    requires j < |starts|
  {
    if j + 1 < |starts| then starts[j + 1] else |lines|
  }

  /** The section runs from its first line to the next section's, titled and keyed by its heading, numbered when an earlier one has the key. */
  ghost predicate CutFrom(md: Markdown, lines: seq<string>, sections: seq<Section>, starts: seq<nat>, j: nat)
    requires j < |sections| && j < |starts|
  {
    && starts[j] <= EndOf(lines, starts, j) <= |lines|
    && sections[j].lines == lines[starts[j]..EndOf(lines, starts, j)]
    && (if j == 0 then sections[0].key == PREAMBLE && sections[0].title == ""
        else
          && starts[j] < |lines| && md.heading(lines[starts[j]]) == Some(sections[j].title)
          && var base := md.number(sections[j].title).GetOr(sections[j].title);
             sections[j].key == FreshKey(base, Keys(sections[..j])))
  }

  ghost predicate IsCut(md: Markdown, lines: seq<string>, sections: seq<Section>, starts: seq<nat>) {
    && |sections| == |starts| && CutsAt(md, lines, starts)
    && forall j: nat :: j < |sections| ==> CutFrom(md, lines, sections, starts, j)
  }

  lemma FencedMeans(md: Markdown, lines: seq<string>)
    ensures Cut(md, lines).1 <==> Fences(md, lines) % 2 == 1
  {
  }

  lemma HeadsAtPrefix(md: Markdown, most: seq<string>, line: string, i: nat)
    ensures HeadsAt(md, most + [line], i) <==>
              if i == |most| then md.heading(line).Some? && Fences(md, most) % 2 == 0 else HeadsAt(md, most, i)
  {
    var all := most + [line];
    assert all[..|most|] == most;
    if i < |most| {
      assert all[..i] == most[..i];
    }
  }

  lemma CutsMore(md: Markdown, most: seq<string>, line: string, starts: seq<nat>)
    requires CutsAt(md, most, starts)
    ensures HeadsAt(md, most + [line], |most|) ==> CutsAt(md, most + [line], starts + [|most|])
    ensures !HeadsAt(md, most + [line], |most|) ==> CutsAt(md, most + [line], starts)
  {
    var all, now := most + [line], starts + [|most|];
    forall i ensures HeadsAt(md, all, i) <==> if i == |most| then md.heading(line).Some? && Fences(md, most) % 2 == 0 else HeadsAt(md, most, i) {
      HeadsAtPrefix(md, most, line, i);
    }
    forall i | HeadsAt(md, most, i) ensures exists j :: 0 < j < |now| && now[j] == i {
      var j :| 0 < j < |starts| && starts[j] == i;
      assert now[j] == i;
    }
    assert now[|starts|] == |most|;
  }

  lemma CutFromMore(md: Markdown, most: seq<string>, line: string, was: seq<Section>, starts: seq<nat>)
    requires IsCut(md, most, was, starts) && was != []
    ensures var all := most + [line];
            if HeadsAt(md, all, |most|) then
              forall key, title :: md.heading(line) == Some(title) && key == FreshKey(md.number(title).GetOr(title), Keys(was)) ==>
                IsCut(md, all, was + [Section(key, title, [line])], starts + [|most|])
            else
              var last := was[|was| - 1];
              IsCut(md, all, was[..|was| - 1] + [last.(lines := last.lines + [line])], starts)
  {
    var all := most + [line];
    CutsMore(md, most, line, starts);
    if HeadsAt(md, all, |most|) {
      forall key, title | md.heading(line) == Some(title) && key == FreshKey(md.number(title).GetOr(title), Keys(was))
        ensures IsCut(md, all, was + [Section(key, title, [line])], starts + [|most|])
      {
        HeadedMore(md, most, line, was, starts, Section(key, title, [line]));
      }
    } else {
      LengthenedMore(md, most, line, was, starts);
    }
  }

  lemma HeadedMore(md: Markdown, most: seq<string>, line: string, was: seq<Section>, starts: seq<nat>, x: Section)
    requires IsCut(md, most, was, starts) && was != [] && CutsAt(md, most + [line], starts + [|most|])
    requires md.heading(line) == Some(x.title) && x.lines == [line]
    requires x.key == FreshKey(md.number(x.title).GetOr(x.title), Keys(was))
    ensures IsCut(md, most + [line], was + [x], starts + [|most|])
  {
    forall j: nat | j < |was| + 1 ensures CutFrom(md, most + [line], was + [x], starts + [|most|], j) {
      if j < |was| { HeadedLeaves(md, most, line, was, starts, x, j); } else { HeadedLast(md, most, line, was, starts, x); }
    }
  }

  lemma HeadedLeaves(md: Markdown, most: seq<string>, line: string, was: seq<Section>, starts: seq<nat>, x: Section, j: nat)
    requires IsCut(md, most, was, starts) && j < |was| && CutsAt(md, most + [line], starts + [|most|])
    ensures CutFrom(md, most + [line], was + [x], starts + [|most|], j)
  {
    var all, now, cuts := most + [line], was + [x], starts + [|most|];
    assert CutFrom(md, most, was, starts, j);
    assert EndOf(all, cuts, j) == EndOf(most, starts, j);
    assert all[starts[j]..EndOf(most, starts, j)] == most[starts[j]..EndOf(most, starts, j)];
    assert now[..j] == was[..j];
  }

  lemma HeadedLast(md: Markdown, most: seq<string>, line: string, was: seq<Section>, starts: seq<nat>, x: Section)
    requires IsCut(md, most, was, starts) && was != [] && CutsAt(md, most + [line], starts + [|most|])
    requires md.heading(line) == Some(x.title) && x.lines == [line]
    requires x.key == FreshKey(md.number(x.title).GetOr(x.title), Keys(was))
    ensures CutFrom(md, most + [line], was + [x], starts + [|most|], |was|)
  {
    assert (was + [x])[..|was|] == was;
    assert (most + [line])[|most|..] == [line];
  }

  lemma LengthenedMore(md: Markdown, most: seq<string>, line: string, was: seq<Section>, starts: seq<nat>)
    requires IsCut(md, most, was, starts) && was != [] && CutsAt(md, most + [line], starts)
    ensures var last := was[|was| - 1];
            IsCut(md, most + [line], was[..|was| - 1] + [last.(lines := last.lines + [line])], starts)
  {
    var all, n := most + [line], |was| - 1;
    var now := was[..n] + [was[n].(lines := was[n].lines + [line])];
    forall j: nat | j < |now| ensures CutFrom(md, all, now, starts, j) {
      assert CutFrom(md, most, was, starts, j);
      assert now[..j] == was[..j];
      if j < n {
        assert all[starts[j]..EndOf(most, starts, j)] == most[starts[j]..EndOf(most, starts, j)];
      } else {
        assert all[starts[j]..] == most[starts[j]..] + [line];
        assert j > 0 ==> all[starts[j]] == most[starts[j]];
      }
    }
  }

  lemma CutLineMore(md: Markdown, most: seq<string>, line: string, was: seq<Section>, fenced: bool, starts: seq<nat>) returns (now: seq<nat>)
    requires IsCut(md, most, was, starts) && was != [] && (fenced <==> Fences(md, most) % 2 == 1)
    ensures IsCut(md, most + [line], CutLine(md, was, fenced, line), now)
  {
    HeadsAtPrefix(md, most, line, |most|);
    CutFromMore(md, most, line, was, starts);
    now := if HeadsAt(md, most + [line], |most|) then starts + [|most|] else starts;
  }

  lemma {:induction false} CutIsCut(md: Markdown, lines: seq<string>) returns (starts: seq<nat>)
    ensures IsCut(md, lines, Cut(md, lines).0, starts)
  {
    if lines == [] {
      starts := [0];
      assert CutsAt(md, lines, starts);
      assert CutFrom(md, lines, Cut(md, lines).0, starts, 0);
    } else {
      var most, line := lines[..|lines| - 1], lines[|lines| - 1];
      assert lines == most + [line];
      starts := CutIsCut(md, most);
      FencedMeans(md, most);
      starts := CutLineMore(md, most, line, Cut(md, most).0, Cut(md, most).1, starts);
    }
  }

  /**
   * The report is cut at exactly its headings outside a fence: one section for
   * each, from its line to the next, and what comes before the first.
   */
  lemma CutAtHeadings(md: Markdown, text: string)
    ensures exists starts: seq<nat> :: IsCut(md, Split(text), ReportSections(md, text), starts)
  {
    var starts := CutIsCut(md, Split(text));
    assert IsCut(md, Split(text), ReportSections(md, text), starts);
  }

  // --- a section's digest ---

  /** The lines with the blank ones at the end dropped. */
  function Trimmed(md: Markdown, lines: seq<string>): seq<string> {
    if lines != [] && md.blank(lines[|lines| - 1]) then Trimmed(md, lines[..|lines| - 1]) else lines
  }

  method TrimBlank(md: Markdown, lines: seq<string>) returns (kept: seq<string>)
    ensures kept == Trimmed(md, lines)
    ensures kept <= lines && forall i :: |kept| <= i < |lines| ==> md.blank(lines[i])
    ensures kept != [] ==> !md.blank(kept[|kept| - 1])
  {
    var n := |lines|;
    assert lines[..n] == lines;
    while n > 0 && md.blank(lines[n - 1])
      invariant 0 <= n <= |lines|
      invariant Trimmed(md, lines) == Trimmed(md, lines[..n])
      invariant forall i :: n <= i < |lines| ==> md.blank(lines[i])
    {
      assert lines[..n][..n - 1] == lines[..n - 1];
      n := n - 1;
    }
    kept := lines[..n];
  }

  /** What a section says: its lines, the blank ones that end it left out. */
  function TextOf(md: Markdown, x: Section): string {
    Join(Trimmed(md, x.lines))
  }

  /** What each section says, by its key. */
  function Texts(md: Markdown, sections: seq<Section>): (m: map<string, string>)
    ensures m.Keys == Keys(sections)
  {
    if sections == [] then map[]
    else
      var last := sections[|sections| - 1];
      assert sections == sections[..|sections| - 1] + [last];
      Texts(md, sections[..|sections| - 1])[last.key := TextOf(md, last)]
  }

  lemma {:induction false} TextsByKey(md: Markdown, sections: seq<Section>, i: nat)
    requires DistinctKeys(sections) && i < |sections|
    ensures sections[i].key in Texts(md, sections) && Texts(md, sections)[sections[i].key] == TextOf(md, sections[i])
  {
    var most, last := sections[..|sections| - 1], sections[|sections| - 1];
    if i < |sections| - 1 {
      TextsByKey(md, most, i);
      assert sections[i].key != last.key;
    }
  }

  /** The report's sections as an ack binds them: each key with the digest of what its section says. */
  function SectionDigests(md: Markdown, hash: string -> string, text: string): map<string, string> {
    var texts := Texts(md, ReportSections(md, text));
    map k | k in texts :: hash(texts[k])
  }

  /** What an ack binds is this: under each section's own key, the digest of its own lines to the last that is not blank. */
  lemma DigestsOfSections(md: Markdown, hash: string -> string, text: string, i: nat)
    requires i < |ReportSections(md, text)|
    ensures var x, digests := ReportSections(md, text)[i], SectionDigests(md, hash, text);
            && x.key in digests
            && exists n: nat :: EndsAt(md, x.lines, n) && digests[x.key] == hash(Join(x.lines[..n]))
  {
    var sections := ReportSections(md, text);
    SectionsAreTheReport(md, text);
    TextsByKey(md, sections, i);
    TrimmedMeans(md, sections[i].lines);
    assert EndsAt(md, sections[i].lines, |Trimmed(md, sections[i].lines)|);
  }

  /** The first n lines are those to the last that is not blank. */
  ghost predicate EndsAt(md: Markdown, lines: seq<string>, n: nat) {
    n <= |lines| && (n > 0 ==> !md.blank(lines[n - 1])) && forall i :: n <= i < |lines| ==> md.blank(lines[i])
  }

  lemma {:induction false} TrimmedMeans(md: Markdown, lines: seq<string>)
    ensures EndsAt(md, lines, |Trimmed(md, lines)|) && Trimmed(md, lines) == lines[..|Trimmed(md, lines)|]
  {
    if lines != [] && md.blank(lines[|lines| - 1]) {
      TrimmedMeans(md, lines[..|lines| - 1]);
    }
  }
}
