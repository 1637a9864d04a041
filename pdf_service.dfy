/** The PDF export: the availability checks of both exports and the layout
    of the styled export, a vertical cursor that moves down A4 pages, breaks
    to a new page before an entry that would start too low, wraps the skill
    badges into rows, and finally stamps a page footer on every page.
    The library's measurements (how many lines a text wraps to, how wide a
    string is) are inputs of the layout. */
module Pdf {
  import opened CvRecord
  import opened CvDocument

  /** What the layout draws. Positions are in millimetres from the top left
      of the page; x is a real because badge widths come from font
      metrics, y is an integer because every vertical advance is. */
  datatype Draw =
    /** the coloured band with the name at y 25 and the title at y 35, both centred */
    | Band(name: string, jobTitle: string)
    /** one contact line at x 20, after its icon */
    | ContactText(line: Contact, y: int)
    /** the rule from x 20 to the page width less 20 */
    | Separator(y: int)
    /** a section title at x 20, underlined at y + 2 */
    | SectionTitle(heading: string, y: int)
    /** a text wrapped into `count` lines at x 20 */
    | Lines(text: string, count: nat, y: int)
    /** an entry: its title at y, its subtitle at y + 5 on the left and its
        date at y + 5 on the right */
    | EntryHead(title: Option<string>, subtitle: Option<string>, date: Option<string>, y: int)
    /** a rounded badge with the skill written inside at (x + 5, y + 5) */
    | Badge(skill: string, x: real, y: int, width: real)
    /** the footer "Page page/count", centred */
    | Footer(page: nat, count: nat, x: real, fy: real)

  /** A draw on a page, pages numbered from 0 */
  datatype Placed = Placed(page: nat, draw: Draw)

  /** A document being drawn: its pages and everything drawn so far, in
      order. The last page is the one being drawn on. */
  datatype Sheet = Sheet(pageCount: nat, draws: seq<Placed>)

  /** `pdf.text(...)` and friends: a draw on the current page */
  function Put(s: Sheet, d: Draw): Sheet
    requires s.pageCount >= 1
  {
    Sheet(s.pageCount, s.draws + [Placed(s.pageCount - 1, d)])
  }

  /** `pdf.addPage()` */
  function NewPage(s: Sheet): Sheet {
    Sheet(s.pageCount + 1, s.draws)
  }

  /** A body draw as the layout promises it: no footer yet, an entry never
      starts below y 250, and a badge either starts a row or ends inside
      the right margin. */
  predicate Sound(pageWidth: real, d: Draw) {
    !d.Footer?
    && (d.EntryHead? ==> d.y <= 250)
    && (d.Badge? ==> d.x == 20.0 || d.x + d.width <= pageWidth - 20.0)
  }

  /** Every draw is on an existing page and sound. */
  predicate Fits(s: Sheet, pageWidth: real) {
    s.pageCount >= 1 &&
    forall k :: 0 <= k < |s.draws| ==> s.draws[k].page < s.pageCount && Sound(pageWidth, s.draws[k].draw)
  }

  /** Where the cursor of the styled export is: how many pages it has
      added so far, and its y. */
  datatype Cursor = Cursor(breaks: nat, y: int)

  const EntryLimit := 250
  const SkillsLimit := 220
  const TopMargin := 20

  /** The y of the separator: 50, then 7 for an e-mail, 7 for a phone, 10
      for an address. */
  function SeparatorY(d: CV): int {
    50 + (if Truthy(d.email) then 7 else 0) + (if Truthy(d.phone) then 7 else 0)
    + (if Truthy(d.address) then 10 else 0)
  }

  lemma SeparatorRange(d: CV)
    ensures 50 <= SeparatorY(d) <= 74
    ensures SeparatorY(d) == 50 <==> !Truthy(d.email) && !Truthy(d.phone) && !Truthy(d.address)
  {
  }

  /** The cursor after the profile, which takes a title line of 10 and
      five per wrapped line plus 10 */
  function AfterSummary(d: CV, y: int, lineCount: string -> nat): int {
    if Truthy(d.summary) then y + 10 + 5 * lineCount(d.summary.value) + 10 else y
  }

  /** Where an entry is drawn: on a new page at y 20 when the cursor is
      past 250, where the cursor is otherwise. */
  function EntryTop(c: Cursor): (t: Cursor)
    ensures t.y <= EntryLimit
    ensures t.breaks == c.breaks + (if c.y > EntryLimit then 1 else 0)
    ensures c.y <= EntryLimit ==> t == c
  {
    if c.y > EntryLimit then Cursor(c.breaks + 1, TopMargin) else c
  }

  /** An experience takes 15, and 12 plus five per line more when it has a
      description. */
  function ExperienceAdvance(e: Experience, lineCount: string -> nat): int {
    (if Truthy(e.description) then 12 + 5 * lineCount(e.description.value) else 0) + 15
  }

  /** The cursor after a run of experiences */
  function ExperiencesFlow(c: Cursor, exps: seq<Experience>, lineCount: string -> nat): Cursor {
    if exps == [] then c
    else
      var t := EntryTop(ExperiencesFlow(c, exps[..|exps| - 1], lineCount));
      Cursor(t.breaks, t.y + ExperienceAdvance(exps[|exps| - 1], lineCount))
  }

  /** The cursor after a run of educations, each taking 15 */
  function EducationsFlow(c: Cursor, edus: seq<Education>): Cursor {
    if edus == [] then c
    else
      var t := EntryTop(EducationsFlow(c, edus[..|edus| - 1]));
      Cursor(t.breaks, t.y + 15)
  }

  /** The skills title moves to a new page when the cursor is past 220. */
  function SkillsTop(c: Cursor): Cursor {
    if c.y > SkillsLimit then Cursor(c.breaks + 1, TopMargin) else c
  }

  /** The cursor after the experience section: its title takes 10, then
      the entries; without experiences nothing moves. */
  function AfterExperiences(d: CV, c: Cursor, lineCount: string -> nat): Cursor {
    if HasEntries(d.experiences) then ExperiencesFlow(Cursor(c.breaks, c.y + 10), d.experiences.value, lineCount) else c
  }

  /** The cursor after the education section */
  function AfterEducations(d: CV, c: Cursor): Cursor {
    if HasEntries(d.educations) then EducationsFlow(Cursor(c.breaks, c.y + 10), d.educations.value) else c
  }

  /** Where the profile and the lists start: 15 below the separator, then
      after the profile */
  function ListsTop(d: CV, lineCount: string -> nat): Cursor {
    Cursor(0, AfterSummary(d, SeparatorY(d) + 15, lineCount))
  }

  /** The cursor where the skill badges start, or after the last section
      when there are no skills: its `breaks` is the number of pages the
      styled export adds to the first one. */
  function Flow(d: CV, lineCount: string -> nat): Cursor {
    var c2 := AfterEducations(d, AfterExperiences(d, ListsTop(d, lineCount), lineCount));
    if HasEntries(d.skills) then SkillsTop(c2) else c2
  }

  /** Each experience adds at most one page. */
  lemma {:induction false} ExperiencesBreaks(c: Cursor, exps: seq<Experience>, lineCount: string -> nat)
    ensures c.breaks <= ExperiencesFlow(c, exps, lineCount).breaks <= c.breaks + |exps|
  {
    if exps != [] {
      ExperiencesBreaks(c, exps[..|exps| - 1], lineCount);
    }
  }

  /** Each education adds at most one page. */
  lemma {:induction false} EducationsBreaks(c: Cursor, edus: seq<Education>)
    ensures c.breaks <= EducationsFlow(c, edus).breaks <= c.breaks + |edus|
  {
    if edus != [] {
      EducationsBreaks(c, edus[..|edus| - 1]);
    }
  }

  /** The styled export has at most one page per entry and one for the
      skills beyond its first; without entries and skills it has one. */
  lemma PagesBound(d: CV, lineCount: string -> nat)
    ensures Flow(d, lineCount).breaks
            <= |d.experiences.GetOr([])| + |d.educations.GetOr([])| + (if HasEntries(d.skills) then 1 else 0)
    ensures !HasEntries(d.experiences) && !HasEntries(d.educations) && !HasEntries(d.skills)
            ==> Flow(d, lineCount).breaks == 0
  {
    var c0 := ListsTop(d, lineCount);
    if HasEntries(d.experiences) {
      ExperiencesBreaks(Cursor(c0.breaks, c0.y + 10), d.experiences.value, lineCount);
    }
    var c1 := AfterExperiences(d, c0, lineCount);
    if HasEntries(d.educations) {
      EducationsBreaks(Cursor(c1.breaks, c1.y + 10), d.educations.value);
    }
  }

  /** What one experience draws where it starts: its head, and its
      description 12 lower when it has one */
  function ExperienceEntry(t: Cursor, e: Experience, lineCount: string -> nat): seq<Placed> {
    [Placed(t.breaks, EntryHead(e.title, e.company, e.period, t.y))]
    + (if Truthy(e.description)
       then [Placed(t.breaks, Lines(e.description.value, lineCount(e.description.value), t.y + 12))]
       else [])
  }

  /** The draws of a run of experiences, each on the page and at the y
      where `ExperiencesFlow` starts it */
  function ExperienceDraws(c: Cursor, exps: seq<Experience>, lineCount: string -> nat): seq<Placed> {
    if exps == [] then []
    else
      ExperienceDraws(c, exps[..|exps| - 1], lineCount)
      + ExperienceEntry(EntryTop(ExperiencesFlow(c, exps[..|exps| - 1], lineCount)), exps[|exps| - 1], lineCount)
  }

  /** The draws of a run of educations: one head each, where
      `EducationsFlow` starts it */
  function EducationDraws(c: Cursor, edus: seq<Education>): seq<Placed> {
    if edus == [] then []
    else
      var t := EntryTop(EducationsFlow(c, edus[..|edus| - 1]));
      var e := edus[|edus| - 1];
      EducationDraws(c, edus[..|edus| - 1]) + [Placed(t.breaks, EntryHead(e.degree, e.institution, e.year, t.y))]
  }

  /** The entry heads among some draws, in order */
  function EntryHeads(ds: seq<Placed>): (hs: seq<Draw>)
    ensures forall h :: h in hs ==> h.EntryHead?
  {
    if ds == [] then []
    else EntryHeads(ds[..|ds| - 1]) + (if ds[|ds| - 1].draw.EntryHead? then [ds[|ds| - 1].draw] else [])
  }

  /** The skills written in badges among some draws, in order */
  function BadgeSkills(ds: seq<Placed>): seq<string> {
    if ds == [] then []
    else BadgeSkills(ds[..|ds| - 1]) + (if ds[|ds| - 1].draw.Badge? then [ds[|ds| - 1].draw.skill] else [])
  }

  lemma {:induction false} EntryHeadsAppend(a: seq<Placed>, b: seq<Placed>)
    ensures EntryHeads(a + b) == EntryHeads(a) + EntryHeads(b)
  {
    if b != [] {
      assert (a + b)[..|a + b| - 1] == a + b[..|b| - 1];
      EntryHeadsAppend(a, b[..|b| - 1]);
    } else {
      assert a + b == a;
    }
  }

  lemma {:induction false} BadgeSkillsAppend(a: seq<Placed>, b: seq<Placed>)
    ensures BadgeSkills(a + b) == BadgeSkills(a) + BadgeSkills(b)
  {
    if b != [] {
      assert (a + b)[..|a + b| - 1] == a + b[..|b| - 1];
      BadgeSkillsAppend(a, b[..|b| - 1]);
    } else {
      assert a + b == a;
    }
  }

  /** Draws that are neither entry heads nor badges contribute to neither list. */
  lemma {:induction false} NoHeadsNoBadges(ds: seq<Placed>)
    requires forall k :: 0 <= k < |ds| ==> !ds[k].draw.EntryHead? && !ds[k].draw.Badge?
    ensures EntryHeads(ds) == [] && BadgeSkills(ds) == []
  {
    if ds != [] {
      NoHeadsNoBadges(ds[..|ds| - 1]);
    }
  }

  /** Heads that match experiences one to one, in order, by title, company
      and period, none below y 250 */
  predicate ExperienceHeadsMatch(hs: seq<Draw>, exps: seq<Experience>) {
    |hs| == |exps| &&
    forall i :: 0 <= i < |exps| ==>
      hs[i].EntryHead? && hs[i] == EntryHead(exps[i].title, exps[i].company, exps[i].period, hs[i].y)
      && hs[i].y <= EntryLimit
  }

  /** Heads that match educations one to one, in order, by degree,
      institution and year, none below y 250 */
  predicate EducationHeadsMatch(hs: seq<Draw>, edus: seq<Education>) {
    |hs| == |edus| &&
    forall i :: 0 <= i < |edus| ==>
      hs[i].EntryHead? && hs[i] == EntryHead(edus[i].degree, edus[i].institution, edus[i].year, hs[i].y)
      && hs[i].y <= EntryLimit
  }

  /** One experience draws one head and no badge. */
  lemma ExperienceEntryHeads(t: Cursor, e: Experience, lineCount: string -> nat)
    ensures EntryHeads(ExperienceEntry(t, e, lineCount)) == [EntryHead(e.title, e.company, e.period, t.y)]
    ensures BadgeSkills(ExperienceEntry(t, e, lineCount)) == []
  {
    var head := [Placed(t.breaks, EntryHead(e.title, e.company, e.period, t.y))];
    var tail := if Truthy(e.description)
                then [Placed(t.breaks, Lines(e.description.value, lineCount(e.description.value), t.y + 12))]
                else [];
    NoHeadsNoBadges(tail);
    EntryHeadsAppend(head, tail);
    BadgeSkillsAppend(head, tail);
    assert EntryHeads(head) == [EntryHead(e.title, e.company, e.period, t.y)];
  }

  /** A matching run of heads extended by the head of the next experience */
  lemma ExperienceHeadsSnoc(hs: seq<Draw>, exps: seq<Experience>, e: Experience, y: int)
    requires ExperienceHeadsMatch(hs, exps) && y <= EntryLimit
    ensures ExperienceHeadsMatch(hs + [EntryHead(e.title, e.company, e.period, y)], exps + [e])
  {
    var hs' := hs + [EntryHead(e.title, e.company, e.period, y)];
    var xs := exps + [e];
    forall i | 0 <= i < |xs|
      ensures hs'[i].EntryHead? && hs'[i] == EntryHead(xs[i].title, xs[i].company, xs[i].period, hs'[i].y)
              && hs'[i].y <= EntryLimit
    {
      if i < |exps| {
        assert hs'[i] == hs[i] && xs[i] == exps[i];
      } else {
        assert hs'[i] == EntryHead(e.title, e.company, e.period, y) && xs[i] == e;
      }
    }
  }

  /** The draws of some experiences followed by those of one more */
  lemma ExperienceHeadsStep(whole: seq<Placed>, prev: seq<Placed>, entry: seq<Placed>,
                            init: seq<Experience>, e: Experience, exps: seq<Experience>, y: int)
    requires whole == prev + entry && exps == init + [e]
    requires ExperienceHeadsMatch(EntryHeads(prev), init) && BadgeSkills(prev) == [] && y <= EntryLimit
    requires EntryHeads(entry) == [EntryHead(e.title, e.company, e.period, y)] && BadgeSkills(entry) == []
    ensures ExperienceHeadsMatch(EntryHeads(whole), exps) && BadgeSkills(whole) == []
  {
    EntryHeadsAppend(prev, entry);
    BadgeSkillsAppend(prev, entry);
    ExperienceHeadsSnoc(EntryHeads(prev), init, e, y);
  }

  /** Each experience draws exactly one entry head, in order, with its
      title, company and period, never below y 250, and nothing else but
      its description lines. */
  lemma {:induction false} ExperienceHeads(c: Cursor, exps: seq<Experience>, lineCount: string -> nat)
    ensures ExperienceHeadsMatch(EntryHeads(ExperienceDraws(c, exps, lineCount)), exps)
    ensures BadgeSkills(ExperienceDraws(c, exps, lineCount)) == []
  {
    if exps != [] {
      var init := exps[..|exps| - 1];
      var e := exps[|exps| - 1];
      var t := EntryTop(ExperiencesFlow(c, init, lineCount));
      var prev := ExperienceDraws(c, init, lineCount);
      var entry := ExperienceEntry(t, e, lineCount);
      assert init + [e] == exps;
      ExperienceHeads(c, init, lineCount);
      ExperienceEntryHeads(t, e, lineCount);
      ExperienceHeadsStep(ExperienceDraws(c, exps, lineCount), prev, entry, init, e, exps, t.y);
    }
  }

  /** A matching run of heads extended by the head of the next education */
  lemma EducationHeadsSnoc(hs: seq<Draw>, edus: seq<Education>, e: Education, y: int)
    requires EducationHeadsMatch(hs, edus) && y <= EntryLimit
    ensures EducationHeadsMatch(hs + [EntryHead(e.degree, e.institution, e.year, y)], edus + [e])
  {
    var hs' := hs + [EntryHead(e.degree, e.institution, e.year, y)];
    var xs := edus + [e];
    forall i | 0 <= i < |xs|
      ensures hs'[i].EntryHead? && hs'[i] == EntryHead(xs[i].degree, xs[i].institution, xs[i].year, hs'[i].y)
              && hs'[i].y <= EntryLimit
    {
      if i < |edus| {
        assert hs'[i] == hs[i] && xs[i] == edus[i];
      } else {
        assert hs'[i] == EntryHead(e.degree, e.institution, e.year, y) && xs[i] == e;
      }
    }
  }

  /** Each education draws exactly one entry head, in order, with its
      degree, institution and year, never below y 250. */
  lemma {:induction false} EducationHeads(c: Cursor, edus: seq<Education>)
    ensures EducationHeadsMatch(EntryHeads(EducationDraws(c, edus)), edus)
    ensures BadgeSkills(EducationDraws(c, edus)) == []
  {
    if edus != [] {
      var init := edus[..|edus| - 1];
      var e := edus[|edus| - 1];
      var t := EntryTop(EducationsFlow(c, init));
      var last := [Placed(t.breaks, EntryHead(e.degree, e.institution, e.year, t.y))];
      EducationHeads(c, init);
      EntryHeadsAppend(EducationDraws(c, init), last);
      BadgeSkillsAppend(EducationDraws(c, init), last);
      assert EntryHeads(last) == [EntryHead(e.degree, e.institution, e.year, t.y)];
      EducationHeadsSnoc(EntryHeads(EducationDraws(c, init)), init, e, t.y);
      assert init + [e] == edus;
    }
  }

  /** One experience, the callback of `experiences.forEach`: a new page
      when the cursor is past 250, then the head and the description. */
  method LayoutExperience(s: Sheet, y: int, e: Experience, pageWidth: real, lineCount: string -> nat)
    returns (r: Sheet, ry: int)
    requires Fits(s, pageWidth)
    ensures Fits(r, pageWidth)
    ensures var t := EntryTop(Cursor(s.pageCount - 1, y));
      r.draws == s.draws + ExperienceEntry(t, e, lineCount)
      && r.pageCount == t.breaks + 1 && ry == t.y + ExperienceAdvance(e, lineCount)
  {
    r, ry := s, y;
    if ry > EntryLimit {
      r := NewPage(r);
      ry := TopMargin;
    }
    PutFits(r, pageWidth, EntryHead(e.title, e.company, e.period, ry));
    r := Put(r, EntryHead(e.title, e.company, e.period, ry));
    if Truthy(e.description) {
      var lines := lineCount(e.description.value);
      PutFits(r, pageWidth, Lines(e.description.value, lines, ry + 12));
      r := Put(r, Lines(e.description.value, lines, ry + 12));
      ry := ry + 12 + lines * 5;
    }
    ry := ry + 15;
  }

  /** The loop of `experiences.forEach` */
  method LayoutExperiences(s: Sheet, y: int, exps: seq<Experience>, pageWidth: real, lineCount: string -> nat)
    returns (r: Sheet, ry: int)
    requires Fits(s, pageWidth)
    ensures Fits(r, pageWidth)
    ensures var c := Cursor(s.pageCount - 1, y);
      r.draws == s.draws + ExperienceDraws(c, exps, lineCount)
      && r.pageCount == ExperiencesFlow(c, exps, lineCount).breaks + 1 && ry == ExperiencesFlow(c, exps, lineCount).y
  {
    ghost var c := Cursor(s.pageCount - 1, y);
    r, ry := s, y;
    var i := 0;
    while i < |exps|
      invariant 0 <= i <= |exps|
      invariant Fits(r, pageWidth)
      invariant r.draws == s.draws + ExperienceDraws(c, exps[..i], lineCount)
      invariant r.pageCount == ExperiencesFlow(c, exps[..i], lineCount).breaks + 1
      invariant ry == ExperiencesFlow(c, exps[..i], lineCount).y
    {
      assert exps[..i + 1][..i] == exps[..i];
      r, ry := LayoutExperience(r, ry, exps[i], pageWidth, lineCount);
      i := i + 1;
    }
    assert exps[..i] == exps;
  }

  /** One education, the callback of `educations.forEach`: a new page
      when the cursor is past 250, then the head. */
  method LayoutEducation(s: Sheet, y: int, e: Education, pageWidth: real) returns (r: Sheet, ry: int)
    requires Fits(s, pageWidth)
    ensures Fits(r, pageWidth)
    ensures var t := EntryTop(Cursor(s.pageCount - 1, y));
      r.draws == s.draws + [Placed(t.breaks, EntryHead(e.degree, e.institution, e.year, t.y))]
      && r.pageCount == t.breaks + 1 && ry == t.y + 15
  {
    r, ry := s, y;
    if ry > EntryLimit {
      r := NewPage(r);
      ry := TopMargin;
    }
    PutFits(r, pageWidth, EntryHead(e.degree, e.institution, e.year, ry));
    r := Put(r, EntryHead(e.degree, e.institution, e.year, ry));
    ry := ry + 15;
  }

  /** The loop of `educations.forEach` */
  method LayoutEducations(s: Sheet, y: int, edus: seq<Education>, pageWidth: real)
    returns (r: Sheet, ry: int)
    requires Fits(s, pageWidth)
    ensures Fits(r, pageWidth)
    ensures var c := Cursor(s.pageCount - 1, y);
      r.draws == s.draws + EducationDraws(c, edus)
      && r.pageCount == EducationsFlow(c, edus).breaks + 1 && ry == EducationsFlow(c, edus).y
  {
    ghost var c := Cursor(s.pageCount - 1, y);
    r, ry := s, y;
    var i := 0;
    while i < |edus|
      invariant 0 <= i <= |edus|
      invariant Fits(r, pageWidth)
      invariant r.draws == s.draws + EducationDraws(c, edus[..i])
      invariant r.pageCount == EducationsFlow(c, edus[..i]).breaks + 1
      invariant ry == EducationsFlow(c, edus[..i]).y
    {
      assert edus[..i + 1][..i] == edus[..i];
      r, ry := LayoutEducation(r, ry, edus[i], pageWidth);
      i := i + 1;
    }
    assert edus[..i] == edus;
  }

  /** A badge is 10 units of the skill's width plus 10 wide. */
  function BadgeWidth(skill: string, unitWidth: string -> real): real {
    unitWidth(skill) * 10.0 + 10.0
  }

  /** A run of badges: what is drawn, and where the next badge would go */
  datatype BadgeRun = BadgeRun(draws: seq<Placed>, x: real, y: int)

  /** The badges of some skills on one page, from x 20 at y: a badge that
      would cross the right margin starts a new row at x 20, 10 lower;
      the next one goes 5 after it. */
  function Badges(page: nat, y: int, skills: seq<string>, pageWidth: real, unitWidth: string -> real): BadgeRun {
    if skills == [] then BadgeRun([], 20.0, y)
    else
      var b := Badges(page, y, skills[..|skills| - 1], pageWidth, unitWidth);
      var w := BadgeWidth(skills[|skills| - 1], unitWidth);
      var wrap := b.x + w > pageWidth - 20.0;
      var rowX := if wrap then 20.0 else b.x;
      var rowY := if wrap then b.y + 10 else b.y;
      BadgeRun(b.draws + [Placed(page, Badge(skills[|skills| - 1], rowX, rowY, w))], rowX + w + 5.0, rowY)
  }

  /** The row rule of the badges: one badge per skill in order, each on
      the page, of its width and sound; the first at x 20, a row lower when
      it does not fit; each next one 5 after the previous on the same row,
      or at x 20 one row (10) lower exactly when it would cross the
      right margin there. */
  lemma {:induction false} BadgeRows(page: nat, y: int, skills: seq<string>, pageWidth: real, unitWidth: string -> real)
    ensures var b := Badges(page, y, skills, pageWidth, unitWidth);
      |b.draws| == |skills| && y <= b.y <= y + 10 * |skills|
      && (forall j :: 0 <= j < |skills| ==>
            b.draws[j].page == page && b.draws[j].draw.Badge? && b.draws[j].draw.skill == skills[j]
            && b.draws[j].draw.width == BadgeWidth(skills[j], unitWidth) && Sound(pageWidth, b.draws[j].draw))
      && (skills == [] ==> b.x == 20.0 && b.y == y)
      && (skills != [] ==>
            var p := b.draws[|skills| - 1].draw;
            b.x == p.x + p.width + 5.0 && b.y == p.y)
      && (skills != [] ==>
            var q := b.draws[0].draw;
            q.x == 20.0 && q.y == (if 20.0 + q.width > pageWidth - 20.0 then y + 10 else y))
      && (forall j :: 0 < j < |skills| ==>
            var p, q := b.draws[j - 1].draw, b.draws[j].draw;
            if p.x + p.width + 5.0 + q.width > pageWidth - 20.0
            then q.x == 20.0 && q.y == p.y + 10
            else q.x == p.x + p.width + 5.0 && q.y == p.y)
  {
    if skills != [] {
      var init := skills[..|skills| - 1];
      BadgeRows(page, y, init, pageWidth, unitWidth);
      forall j | 0 <= j < |init| ensures init[j] == skills[j] { }
      var b := Badges(page, y, skills, pageWidth, unitWidth);
      var b0 := Badges(page, y, init, pageWidth, unitWidth);
      assert b.draws == b0.draws + [b.draws[|skills| - 1]];
      forall j | 0 <= j < |init| ensures b.draws[j] == b0.draws[j] { }
    }
  }

  /** The badges name the skills, in order. */
  lemma {:induction false} BadgeSkillsOfRun(ds: seq<Placed>, skills: seq<string>)
    requires |ds| == |skills|
    requires forall j :: 0 <= j < |ds| ==> ds[j].draw.Badge? && ds[j].draw.skill == skills[j]
    ensures BadgeSkills(ds) == skills && EntryHeads(ds) == []
  {
    if ds != [] {
      BadgeSkillsOfRun(ds[..|ds| - 1], skills[..|skills| - 1]);
    }
  }

  /** The loop of `skills.forEach`, on the current page from x 20.
      Badges never add a page. */
  method LayoutBadges(s: Sheet, y: int, skills: seq<string>, pageWidth: real, unitWidth: string -> real)
    returns (r: Sheet, ry: int)
    requires Fits(s, pageWidth)
    ensures Fits(r, pageWidth) && r.pageCount == s.pageCount
    ensures var b := Badges(s.pageCount - 1, y, skills, pageWidth, unitWidth);
      r.draws == s.draws + b.draws && ry == b.y
  {
    r, ry := s, y;
    var x := 20.0;
    var i := 0;
    while i < |skills|
      invariant 0 <= i <= |skills|
      invariant Fits(r, pageWidth) && r.pageCount == s.pageCount
      invariant var b := Badges(s.pageCount - 1, y, skills[..i], pageWidth, unitWidth);
        r.draws == s.draws + b.draws && x == b.x && ry == b.y
    {
      assert skills[..i + 1][..i] == skills[..i];
      var w := unitWidth(skills[i]) * 10.0 + 10.0;
      if x + w > pageWidth - 20.0 {
        x := 20.0;
        ry := ry + 10;
      }
      PutFits(r, pageWidth, Badge(skills[i], x, ry, w));
      r := Put(r, Badge(skills[i], x, ry, w));
      x := x + w + 5.0;
      i := i + 1;
    }
    assert skills[..i] == skills;
  }

  /** The footers stamped on a document of n pages: "Page i/n" on page
      i - 1, centred 10 above the bottom edge */
  function FooterRun(n: nat, pageWidth: real, pageHeight: real): (fs: seq<Placed>)
    ensures |fs| == n
  {
    seq(n, i requires 0 <= i < n => Placed(i, Footer(i + 1, n, pageWidth / 2.0, pageHeight - 10.0)))
  }

  /** The second pass, over the pages 1 to N */
  method AddFooter(s: Sheet, pageWidth: real, pageHeight: real) returns (r: Sheet)
    ensures r == Sheet(s.pageCount, s.draws + FooterRun(s.pageCount, pageWidth, pageHeight))
  {
    r := s;
    var i := 1;
    while i <= s.pageCount
      invariant 1 <= i <= s.pageCount + 1
      invariant r == Sheet(s.pageCount, s.draws + FooterRun(s.pageCount, pageWidth, pageHeight)[..i - 1])
    {
      ghost var prev := r.draws;
      r := Sheet(r.pageCount, r.draws + [Placed(i - 1, Footer(i, s.pageCount, pageWidth / 2.0, pageHeight - 10.0))]);
      assert FooterRun(s.pageCount, pageWidth, pageHeight)[..i] ==
             FooterRun(s.pageCount, pageWidth, pageHeight)[..i - 1] + [FooterRun(s.pageCount, pageWidth, pageHeight)[i - 1]];
      i := i + 1;
    }
    assert FooterRun(s.pageCount, pageWidth, pageHeight)[..i - 1] == FooterRun(s.pageCount, pageWidth, pageHeight);
  }

  /** Once the footers follow a body without footers, the footers are
      exactly the last n draws, the one at position |body| + p is on page
      p and reads "Page p+1/n"; so every page has exactly one footer. */
  lemma OneFooterPerPage(body: seq<Placed>, n: nat, pageWidth: real, pageHeight: real)
    requires forall k :: 0 <= k < |body| ==> !body[k].draw.Footer?
    ensures var all := body + FooterRun(n, pageWidth, pageHeight);
      (forall k :: 0 <= k < |all| && all[k].draw.Footer? ==> |body| <= k)
      && (forall k :: |body| <= k < |all| ==>
            all[k].draw.Footer? && all[k].page == k - |body|
            && all[k].draw == Footer(k - |body| + 1, n, pageWidth / 2.0, pageHeight - 10.0))
  {
    var all := body + FooterRun(n, pageWidth, pageHeight);
    forall k | 0 <= k < |all|
      ensures k < |body| ==> all[k] == body[k]
      ensures |body| <= k ==> all[k] == FooterRun(n, pageWidth, pageHeight)[k - |body|]
    {
    }
  }

  /** A sound draw on the current page keeps a sheet fitting. */
  lemma PutFits(s: Sheet, pageWidth: real, d: Draw)
    requires Fits(s, pageWidth) && Sound(pageWidth, d)
    ensures Fits(Put(s, d), pageWidth) && s.draws <= Put(s, d).draws
  {
    var r := Put(s, d);
    forall k | 0 <= k < |r.draws|
      ensures r.draws[k].page < r.pageCount && Sound(pageWidth, r.draws[k].draw)
    {
      if k < |s.draws| {
        assert r.draws[k] == s.draws[k];
      }
    }
  }

  /** The contact lines on the first page from y 50: the e-mail, 7 lower
      the phone, 7 lower the address, each only when it is given */
  function ContactDraws(d: CV): seq<Placed> {
    EmailDraws(d) + PhoneDraws(d) + AddressDraws(d)
  }

  function EmailDraws(d: CV): seq<Placed> {
    if Truthy(d.email) then [Placed(0, ContactText(EmailLine(d.email.value), 50))] else []
  }

  function PhoneDraws(d: CV): seq<Placed> {
    if Truthy(d.phone)
    then [Placed(0, ContactText(PhoneLine(d.phone.value), 50 + (if Truthy(d.email) then 7 else 0)))]
    else []
  }

  function AddressDraws(d: CV): seq<Placed> {
    if Truthy(d.address)
    then [Placed(0, ContactText(AddressLine(d.address.value),
                                50 + (if Truthy(d.email) then 7 else 0) + (if Truthy(d.phone) then 7 else 0)))]
    else []
  }

  /** The contact lines drawn are those of the record's header, in order,
      each below the previous one and above the separator. */
  lemma ContactsDrawn(d: CV)
    ensures var ds, cs := ContactDraws(d), ContactLines(d);
      |ds| == |cs|
      && (forall i :: 0 <= i < |ds| ==>
            ds[i].page == 0 && ds[i].draw.ContactText? && ds[i].draw.line == cs[i]
            && 50 <= ds[i].draw.y < SeparatorY(d))
      && (forall i :: 0 < i < |ds| ==> ds[i - 1].draw.y < ds[i].draw.y)
  {
    var ds, cs := ContactDraws(d), ContactLines(d);
    assert ds == EmailDraws(d) + PhoneDraws(d) + AddressDraws(d);
    if Truthy(d.email) {
      if Truthy(d.phone) {
        if Truthy(d.address) {
          assert ds[0].draw.y == 50 && ds[1].draw.y == 57 && ds[2].draw.y == 64;
        }
      }
    }
  }

  /** What the header draws: the band with the name or "Nom Prénom" and
      the title or "Poste recherché", the contact lines, the separator */
  function HeaderDraws(d: CV): seq<Placed> {
    [Placed(0, Band(TextOr(d.fullName, "Nom Prénom"), TextOr(d.jobTitle, "Poste recherché")))]
    + ContactDraws(d) + [Placed(0, Separator(SeparatorY(d)))]
  }

  /** The contact lines from y 50: 7 for an e-mail, 7 for a phone, 10
      for an address; the cursor ends where the separator goes. */
  method LayoutContacts(s: Sheet, data: CV, pageWidth: real) returns (r: Sheet, ry: int)
    requires Fits(s, pageWidth) && s.pageCount == 1
    ensures Fits(r, pageWidth) && r.pageCount == 1
    ensures r.draws == s.draws + ContactDraws(data) && ry == SeparatorY(data)
  {
    r, ry := s, 50;
    if Truthy(data.email) {
      PutFits(r, pageWidth, ContactText(EmailLine(data.email.value), ry));
      r := Put(r, ContactText(EmailLine(data.email.value), ry));
      ry := ry + 7;
    }
    assert r.draws == s.draws + EmailDraws(data);
    if Truthy(data.phone) {
      PutFits(r, pageWidth, ContactText(PhoneLine(data.phone.value), ry));
      r := Put(r, ContactText(PhoneLine(data.phone.value), ry));
      ry := ry + 7;
    }
    assert r.draws == s.draws + EmailDraws(data) + PhoneDraws(data);
    if Truthy(data.address) {
      PutFits(r, pageWidth, ContactText(AddressLine(data.address.value), ry));
      r := Put(r, ContactText(AddressLine(data.address.value), ry));
      ry := ry + 10;
    }
  }

  /** The band, then the contact lines, then the separator */
  method LayoutHeader(data: CV, pageWidth: real) returns (s: Sheet)
    ensures Fits(s, pageWidth) && s.pageCount == 1
    ensures s.draws == HeaderDraws(data)
    ensures |s.draws| >= 2
    ensures s.draws[0] == Placed(0, Band(TextOr(data.fullName, "Nom Prénom"), TextOr(data.jobTitle, "Poste recherché")))
    ensures s.draws[|s.draws| - 1] == Placed(0, Separator(SeparatorY(data)))
  {
    var band := Band(TextOr(data.fullName, "Nom Prénom"), TextOr(data.jobTitle, "Poste recherché"));
    s := Sheet(1, [Placed(0, band)]);
    var y;
    s, y := LayoutContacts(s, data, pageWidth);
    PutFits(s, pageWidth, Separator(y));
    s := Put(s, Separator(y));
  }

  /** What the profile draws on a page at y: its title, and the wrapped
      summary 10 lower, only when there is a summary */
  function SummaryDraws(page: nat, y: int, d: CV, lineCount: string -> nat): seq<Placed> {
    if Truthy(d.summary)
    then [Placed(page, SectionTitle("PROFIL PROFESSIONNEL", y)),
          Placed(page, Lines(d.summary.value, lineCount(d.summary.value), y + 10))]
    else []
  }

  /** The profile, a title and the wrapped summary, when there is one */
  method LayoutSummary(s: Sheet, y: int, data: CV, pageWidth: real, lineCount: string -> nat)
    returns (r: Sheet, ry: int)
    requires Fits(s, pageWidth)
    ensures Fits(r, pageWidth) && r.pageCount == s.pageCount
    ensures r.draws == s.draws + SummaryDraws(s.pageCount - 1, y, data, lineCount)
    ensures ry == AfterSummary(data, y, lineCount)
  {
    r, ry := s, y;
    if Truthy(data.summary) {
      PutFits(r, pageWidth, SectionTitle("PROFIL PROFESSIONNEL", ry));
      r := Put(r, SectionTitle("PROFIL PROFESSIONNEL", ry));
      ry := ry + 10;
      var lines := lineCount(data.summary.value);
      PutFits(r, pageWidth, Lines(data.summary.value, lines, ry));
      r := Put(r, Lines(data.summary.value, lines, ry));
      ry := ry + lines * 5 + 10;
    }
  }

  /** What the experience section draws from the cursor c: its title, then
      the entries 10 lower; nothing without experiences */
  function ExperienceSectionDraws(d: CV, c: Cursor, lineCount: string -> nat): seq<Placed> {
    if HasEntries(d.experiences)
    then [Placed(c.breaks, SectionTitle("EXPÉRIENCE PROFESSIONNELLE", c.y))]
         + ExperienceDraws(Cursor(c.breaks, c.y + 10), d.experiences.value, lineCount)
    else []
  }

  /** What the education section draws from the cursor c */
  function EducationSectionDraws(d: CV, c: Cursor): seq<Placed> {
    if HasEntries(d.educations)
    then [Placed(c.breaks, SectionTitle("FORMATION", c.y))]
         + EducationDraws(Cursor(c.breaks, c.y + 10), d.educations.value)
    else []
  }

  /** What the skills section draws from the cursor c: its title, on a new
      page past y 220, then the badges 10 lower; nothing without skills */
  function SkillsSectionDraws(d: CV, c: Cursor, pageWidth: real, unitWidth: string -> real): seq<Placed> {
    if HasEntries(d.skills)
    then
      var t := SkillsTop(c);
      [Placed(t.breaks, SectionTitle("COMPÉTENCES", t.y))]
      + Badges(t.breaks, t.y + 10, d.skills.value, pageWidth, unitWidth).draws
    else []
  }

  /** The experience title and entries, when there are experiences */
  method ExperienceSection(s: Sheet, y: int, data: CV, pageWidth: real, lineCount: string -> nat)
    returns (r: Sheet, ry: int)
    requires Fits(s, pageWidth)
    ensures Fits(r, pageWidth)
    ensures var c := Cursor(s.pageCount - 1, y);
      r.draws == s.draws + ExperienceSectionDraws(data, c, lineCount)
      && r.pageCount == AfterExperiences(data, c, lineCount).breaks + 1 && ry == AfterExperiences(data, c, lineCount).y
  {
    r, ry := s, y;
    if HasEntries(data.experiences) {
      PutFits(r, pageWidth, SectionTitle("EXPÉRIENCE PROFESSIONNELLE", ry));
      r := Put(r, SectionTitle("EXPÉRIENCE PROFESSIONNELLE", ry));
      ry := ry + 10;
      r, ry := LayoutExperiences(r, ry, data.experiences.value, pageWidth, lineCount);
    }
  }

  /** The education title and entries, when there are educations */
  method EducationSection(s: Sheet, y: int, data: CV, pageWidth: real)
    returns (r: Sheet, ry: int)
    requires Fits(s, pageWidth)
    ensures Fits(r, pageWidth)
    ensures var c := Cursor(s.pageCount - 1, y);
      r.draws == s.draws + EducationSectionDraws(data, c)
      && r.pageCount == AfterEducations(data, c).breaks + 1 && ry == AfterEducations(data, c).y
  {
    r, ry := s, y;
    if HasEntries(data.educations) {
      PutFits(r, pageWidth, SectionTitle("FORMATION", ry));
      r := Put(r, SectionTitle("FORMATION", ry));
      ry := ry + 10;
      r, ry := LayoutEducations(r, ry, data.educations.value, pageWidth);
    }
  }

  /** The skills title, on a new page past y 220, and the badges, when
      there are skills */
  method SkillsSection(s: Sheet, y: int, data: CV, pageWidth: real, unitWidth: string -> real)
    returns (r: Sheet)
    requires Fits(s, pageWidth)
    ensures Fits(r, pageWidth)
    ensures var c := Cursor(s.pageCount - 1, y);
      r.draws == s.draws + SkillsSectionDraws(data, c, pageWidth, unitWidth)
      && r.pageCount == (if HasEntries(data.skills) then SkillsTop(c).breaks + 1 else s.pageCount)
  {
    r := s;
    var ry := y;
    if HasEntries(data.skills) {
      if ry > SkillsLimit {
        r := NewPage(r);
        ry := TopMargin;
      }
      PutFits(r, pageWidth, SectionTitle("COMPÉTENCES", ry));
      r := Put(r, SectionTitle("COMPÉTENCES", ry));
      ry := ry + 10;
      r, ry := LayoutBadges(r, ry, data.skills.value, pageWidth, unitWidth);
    }
  }

  /** What experience, education and skills draw from the cursor c */
  function ListDraws(d: CV, c: Cursor, pageWidth: real, lineCount: string -> nat, unitWidth: string -> real): seq<Placed> {
    var c1 := AfterExperiences(d, c, lineCount);
    ExperienceSectionDraws(d, c, lineCount) + EducationSectionDraws(d, c1)
    + SkillsSectionDraws(d, AfterEducations(d, c1), pageWidth, unitWidth)
  }

  lemma Regroup(s: seq<Placed>, a: seq<Placed>, b: seq<Placed>, c: seq<Placed>)
    ensures ((s + a) + b) + c == s + ((a + b) + c)
  {
  }

  /** Experience, education and skills, each with its title when its list
      is not empty */
  method LayoutLists(s: Sheet, y: int, data: CV, pageWidth: real,
                     lineCount: string -> nat, unitWidth: string -> real) returns (r: Sheet)
    requires Fits(s, pageWidth) && s.pageCount == 1
    requires y == AfterSummary(data, SeparatorY(data) + 15, lineCount)
    ensures Fits(r, pageWidth)
    ensures r.draws == s.draws + ListDraws(data, Cursor(0, y), pageWidth, lineCount, unitWidth)
    ensures r.pageCount == Flow(data, lineCount).breaks + 1
  {
    ghost var c := Cursor(0, y);
    var r1, y1 := ExperienceSection(s, y, data, pageWidth, lineCount);
    ghost var c1 := AfterExperiences(data, c, lineCount);
    assert Cursor(r1.pageCount - 1, y1) == c1;
    var r2, y2 := EducationSection(r1, y1, data, pageWidth);
    ghost var c2 := AfterEducations(data, c1);
    assert Cursor(r2.pageCount - 1, y2) == c2;
    r := SkillsSection(r2, y2, data, pageWidth, unitWidth);
    Regroup(s.draws, ExperienceSectionDraws(data, c, lineCount), EducationSectionDraws(data, c1),
            SkillsSectionDraws(data, c2, pageWidth, unitWidth));
    assert c == ListsTop(data, lineCount);
  }

  /** Everything the styled export draws before the footers */
  function StyledBody(d: CV, pageWidth: real, lineCount: string -> nat, unitWidth: string -> real): seq<Placed> {
    HeaderDraws(d) + SummaryDraws(0, SeparatorY(d) + 15, d, lineCount)
    + ListDraws(d, ListsTop(d, lineCount), pageWidth, lineCount, unitWidth)
  }

  /** The parts of the body other than the lists hold no entry and no badge. */
  lemma HeaderHasNoEntries(d: CV, lineCount: string -> nat)
    ensures EntryHeads(HeaderDraws(d) + SummaryDraws(0, SeparatorY(d) + 15, d, lineCount)) == []
    ensures BadgeSkills(HeaderDraws(d) + SummaryDraws(0, SeparatorY(d) + 15, d, lineCount)) == []
  {
    var ds := HeaderDraws(d) + SummaryDraws(0, SeparatorY(d) + 15, d, lineCount);
    forall k | 0 <= k < |ds| ensures !ds[k].draw.EntryHead? && !ds[k].draw.Badge? {
    }
    NoHeadsNoBadges(ds);
  }

  /** A section title adds neither an entry head nor a badge. */
  lemma TitleThen(page: nat, heading: string, y: int, rest: seq<Placed>)
    ensures EntryHeads([Placed(page, SectionTitle(heading, y))] + rest) == EntryHeads(rest)
    ensures BadgeSkills([Placed(page, SectionTitle(heading, y))] + rest) == BadgeSkills(rest)
  {
    NoHeadsNoBadges([Placed(page, SectionTitle(heading, y))]);
    EntryHeadsAppend([Placed(page, SectionTitle(heading, y))], rest);
    BadgeSkillsAppend([Placed(page, SectionTitle(heading, y))], rest);
  }

  /** The entry heads of the experience section are those of its entries. */
  lemma ExperienceSectionHeads(d: CV, c: Cursor, lineCount: string -> nat)
    ensures EntryHeads(ExperienceSectionDraws(d, c, lineCount))
         == EntryHeads(ExperienceDraws(Cursor(c.breaks, c.y + 10), d.experiences.GetOr([]), lineCount))
    ensures BadgeSkills(ExperienceSectionDraws(d, c, lineCount)) == []
  {
    var entries := ExperienceDraws(Cursor(c.breaks, c.y + 10), d.experiences.GetOr([]), lineCount);
    ExperienceHeads(Cursor(c.breaks, c.y + 10), d.experiences.GetOr([]), lineCount);
    if HasEntries(d.experiences) {
      assert ExperienceSectionDraws(d, c, lineCount)
          == [Placed(c.breaks, SectionTitle("EXPÉRIENCE PROFESSIONNELLE", c.y))] + entries;
      TitleThen(c.breaks, "EXPÉRIENCE PROFESSIONNELLE", c.y, entries);
    } else {
      assert d.experiences.GetOr([]) == [];
      assert entries == [];
      NoHeadsNoBadges([]);
    }
  }

  /** The entry heads of the education section are those of its entries. */
  lemma EducationSectionHeads(d: CV, c: Cursor)
    ensures EntryHeads(EducationSectionDraws(d, c)) == EntryHeads(EducationDraws(Cursor(c.breaks, c.y + 10), d.educations.GetOr([])))
    ensures BadgeSkills(EducationSectionDraws(d, c)) == []
  {
    var entries := EducationDraws(Cursor(c.breaks, c.y + 10), d.educations.GetOr([]));
    EducationHeads(Cursor(c.breaks, c.y + 10), d.educations.GetOr([]));
    if HasEntries(d.educations) {
      assert EducationSectionDraws(d, c) == [Placed(c.breaks, SectionTitle("FORMATION", c.y))] + entries;
      TitleThen(c.breaks, "FORMATION", c.y, entries);
    } else {
      assert d.educations.GetOr([]) == [];
      assert entries == [];
      NoHeadsNoBadges([]);
    }
  }

  /** Two runs of heads, each matching its list, make a run matching both. */
  lemma HeadsOfBoth(hx: seq<Draw>, exps: seq<Experience>, he: seq<Draw>, edus: seq<Education>)
    requires ExperienceHeadsMatch(hx, exps) && EducationHeadsMatch(he, edus)
    ensures |hx + he| == |exps| + |edus|
    ensures ExperienceHeadsMatch((hx + he)[..|exps|], exps) && EducationHeadsMatch((hx + he)[|exps|..], edus)
  {
    assert (hx + he)[..|exps|] == hx;
    assert (hx + he)[|exps|..] == he;
  }

  /** The skills section holds one badge per skill, in order, and no entry. */
  lemma SkillsSectionBadges(d: CV, c: Cursor, pageWidth: real, unitWidth: string -> real)
    ensures BadgeSkills(SkillsSectionDraws(d, c, pageWidth, unitWidth)) == d.skills.GetOr([])
    ensures EntryHeads(SkillsSectionDraws(d, c, pageWidth, unitWidth)) == []
  {
    if HasEntries(d.skills) {
      var t := SkillsTop(c);
      var title := [Placed(t.breaks, SectionTitle("COMPÉTENCES", t.y))];
      var b := Badges(t.breaks, t.y + 10, d.skills.value, pageWidth, unitWidth);
      NoHeadsNoBadges(title);
      BadgeRows(t.breaks, t.y + 10, d.skills.value, pageWidth, unitWidth);
      BadgeSkillsOfRun(b.draws, d.skills.value);
      EntryHeadsAppend(title, b.draws);
      BadgeSkillsAppend(title, b.draws);
    } else {
      NoHeadsNoBadges([]);
    }
  }

  /** Entry heads and badges of four consecutive parts, when the first
      part holds neither, the two middle ones no badge, the last no entry */
  lemma {:induction false} FourParts(body: seq<Placed>, top: seq<Placed>, ex: seq<Placed>, ed: seq<Placed>, sk: seq<Placed>)
    requires body == top + ((ex + ed) + sk)
    requires EntryHeads(top) == [] && BadgeSkills(top) == []
    requires BadgeSkills(ex) == [] && BadgeSkills(ed) == [] && EntryHeads(sk) == []
    ensures EntryHeads(body) == EntryHeads(ex) + EntryHeads(ed)
    ensures BadgeSkills(body) == BadgeSkills(sk)
  {
    EntryHeadsAppend(ex, ed);
    EntryHeadsAppend(ex + ed, sk);
    EntryHeadsAppend(top, (ex + ed) + sk);
    BadgeSkillsAppend(ex, ed);
    BadgeSkillsAppend(ex + ed, sk);
    BadgeSkillsAppend(top, (ex + ed) + sk);
    assert EntryHeads(ex + ed) + [] == EntryHeads(ex + ed);
    assert [] + BadgeSkills(sk) == BadgeSkills(sk);
  }

  /** The body in its four parts: header and profile, experience,
      education, skills */
  lemma BodyParts(d: CV, pageWidth: real, lineCount: string -> nat, unitWidth: string -> real)
    ensures EntryHeads(StyledBody(d, pageWidth, lineCount, unitWidth))
        == EntryHeads(ExperienceSectionDraws(d, ListsTop(d, lineCount), lineCount))
           + EntryHeads(EducationSectionDraws(d, AfterExperiences(d, ListsTop(d, lineCount), lineCount)))
    ensures BadgeSkills(StyledBody(d, pageWidth, lineCount, unitWidth)) == d.skills.GetOr([])
  {
    var c := ListsTop(d, lineCount);
    var c1 := AfterExperiences(d, c, lineCount);
    var top := HeaderDraws(d) + SummaryDraws(0, SeparatorY(d) + 15, d, lineCount);
    var ex := ExperienceSectionDraws(d, c, lineCount);
    var ed := EducationSectionDraws(d, c1);
    var sk := SkillsSectionDraws(d, AfterEducations(d, c1), pageWidth, unitWidth);
    assert ListDraws(d, c, pageWidth, lineCount, unitWidth) == (ex + ed) + sk;
    assert StyledBody(d, pageWidth, lineCount, unitWidth) == top + ListDraws(d, c, pageWidth, lineCount, unitWidth);
    HeaderHasNoEntries(d, lineCount);
    ExperienceSectionHeads(d, c, lineCount);
    EducationSectionHeads(d, c1);
    SkillsSectionBadges(d, AfterEducations(d, c1), pageWidth, unitWidth);
    FourParts(StyledBody(d, pageWidth, lineCount, unitWidth), top, ex, ed, sk);
  }

  /** The styled export draws exactly one entry head per experience, then
      one per education, in the record's order, with their fields, each at
      y 250 or above; and exactly one badge per skill, in order. */
  lemma BodyContents(d: CV, pageWidth: real, lineCount: string -> nat, unitWidth: string -> real)
    ensures |EntryHeads(StyledBody(d, pageWidth, lineCount, unitWidth))|
            == |d.experiences.GetOr([])| + |d.educations.GetOr([])|
    ensures ExperienceHeadsMatch(EntryHeads(StyledBody(d, pageWidth, lineCount, unitWidth))[..|d.experiences.GetOr([])|],
                                 d.experiences.GetOr([]))
    ensures EducationHeadsMatch(EntryHeads(StyledBody(d, pageWidth, lineCount, unitWidth))[|d.experiences.GetOr([])|..],
                                d.educations.GetOr([]))
    ensures BadgeSkills(StyledBody(d, pageWidth, lineCount, unitWidth)) == d.skills.GetOr([])
  {
    var c := ListsTop(d, lineCount);
    var c1 := AfterExperiences(d, c, lineCount);
    BodyParts(d, pageWidth, lineCount, unitWidth);
    ExperienceSectionHeads(d, c, lineCount);
    EducationSectionHeads(d, c1);
    var hx := EntryHeads(ExperienceDraws(Cursor(c.breaks, c.y + 10), d.experiences.GetOr([]), lineCount));
    var he := EntryHeads(EducationDraws(Cursor(c1.breaks, c1.y + 10), d.educations.GetOr([])));
    ExperienceHeads(Cursor(c.breaks, c.y + 10), d.experiences.GetOr([]), lineCount);
    EducationHeads(Cursor(c1.breaks, c1.y + 10), d.educations.GetOr([]));
    HeadsOfBoth(hx, d.experiences.GetOr([]), he, d.educations.GetOr([]));
  }

  /** The first pass of the styled export: header, profile and the lists,
      one page after another, before any footer */
  method LayoutBody(data: CV, pageWidth: real, lineCount: string -> nat, unitWidth: string -> real)
    returns (r: Sheet)
    ensures Fits(r, pageWidth) && r.pageCount == Flow(data, lineCount).breaks + 1
    ensures r.draws == StyledBody(data, pageWidth, lineCount, unitWidth) && |r.draws| >= 2
    ensures r.draws[0] == Placed(0, Band(TextOr(data.fullName, "Nom Prénom"), TextOr(data.jobTitle, "Poste recherché")))
    ensures Placed(0, Separator(SeparatorY(data))) in r.draws
  {
    var h := LayoutHeader(data, pageWidth);
    var s, y := LayoutSummary(h, SeparatorY(data) + 15, data, pageWidth, lineCount);
    r := LayoutLists(s, y, data, pageWidth, lineCount, unitWidth);
    assert ListsTop(data, lineCount) == Cursor(0, y);
    assert h.draws[0] == r.draws[0];
    assert h.draws[|h.draws| - 1] == r.draws[|h.draws| - 1];
  }

  class PDFService {
    /** whether the jsPDF library was loaded */
    const isAvailable: bool

    constructor (libraryLoaded: bool)
      ensures isAvailable == libraryLoaded
    {
      isAvailable := libraryLoaded;
    }

    /** The capture export: false without the library or without the element
        to capture, true once the capture is saved. */
    method ExportCVToPDF(elementFound: bool) returns (ok: bool)
      ensures ok <==> isAvailable && elementFound
    {
      if !isAvailable {
        return false;
      }
      if !elementFound {
        return false;
      }
      ok := true;
    }

    /** The styled export. Without the library nothing is drawn and the
        answer is false. Otherwise the body (band, contact lines,
        separator, profile, experience, education, skills) is `StyledBody`, with
        the page breaks of Flow, every entry starting at y 250 or above and every
        badge starting a row or ending inside the margin; then the footer
        pass adds "Page i/N" to each of the N pages. */
    method ExportStyledCV(data: CV, pageWidth: real, pageHeight: real,
                          lineCount: string -> nat, unitWidth: string -> real)
      returns (ok: bool, doc: Sheet)
      ensures !isAvailable ==> !ok && doc == Sheet(0, [])
      ensures isAvailable ==>
        var n := Flow(data, lineCount).breaks + 1;
        ok && doc.pageCount == n && |doc.draws| >= n + 2
        && var body := doc.draws[..|doc.draws| - n];
        doc.draws == body + FooterRun(n, pageWidth, pageHeight)
        && body == StyledBody(data, pageWidth, lineCount, unitWidth)
        && body[0] == Placed(0, Band(TextOr(data.fullName, "Nom Prénom"), TextOr(data.jobTitle, "Poste recherché")))
        && Placed(0, Separator(SeparatorY(data))) in body
        && (forall k :: 0 <= k < |body| ==> body[k].page < n && Sound(pageWidth, body[k].draw))
    {
      if !isAvailable {
        return false, Sheet(0, []);
      }
      var r := LayoutBody(data, pageWidth, lineCount, unitWidth);
      doc := AddFooter(r, pageWidth, pageHeight);
      ghost var n := r.pageCount;
      assert doc.draws[..|doc.draws| - n] == r.draws;
      ok := true;
    }
  }
}
