/** What a template produces, as a structure instead of HTML text: a header
    and an ordered list of sections, each section either a paragraph or one
    block per entry of the list behind it. */
module CvDocument {
  import opened CvRecord

  datatype Contact = EmailLine(text: string) | PhoneLine(text: string) | AddressLine(text: string)

  datatype Header = Header(name: string, title: string, contacts: seq<Contact>)

  /** The values a template interpolates for one entry; an absent field is
      interpolated as is (`${exp.title}`), so it is kept as an Option. */
  datatype Block =
    | ExperienceItem(title: Option<string>, period: Option<string>,
                     company: Option<string>, description: Option<string>)
    | EducationItem(degree: Option<string>, year: Option<string>, institution: Option<string>)
    | SkillTag(skill: string)

  datatype Topic = ProfileSection | ExperienceSection | EducationSection | SkillsSection

  datatype Body = Paragraph(text: string) | Items(blocks: seq<Block>)

  /** A titled section, or a bare heading (only the mock API's technical
      template writes one) */
  datatype Section = Section(topic: Topic, heading: string, body: Body) | Banner(heading: string)

  datatype Layout = OneColumn(sections: seq<Section>) | TwoColumns(main: seq<Section>, side: seq<Section>)

  datatype Document = Document(header: Header, layout: Layout)

  /** The three template styles; the `switch` of each generator sends every
      other style name to the simple one. */
  datatype Style = Simple | Modern | Tech

  function StyleOf(name: string): (st: Style)
    ensures st == Modern <==> name == "modern"
    ensures st == Tech <==> name == "tech"
    ensures name != "modern" && name != "tech" ==> st == Simple
  {
    if name == "modern" then Modern else if name == "tech" then Tech else Simple
  }

  function ExperienceBlock(e: Experience): Block {
    ExperienceItem(e.title, e.period, e.company, e.description)
  }

  function EducationBlock(e: Education): Block {
    EducationItem(e.degree, e.year, e.institution)
  }

  /** One block per entry, in the entries' order */
  predicate ListsExperiences(blocks: seq<Block>, exps: seq<Experience>) {
    |blocks| == |exps| && forall i :: 0 <= i < |exps| ==> blocks[i] == ExperienceBlock(exps[i])
  }

  predicate ListsEducations(blocks: seq<Block>, edus: seq<Education>) {
    |blocks| == |edus| && forall i :: 0 <= i < |edus| ==> blocks[i] == EducationBlock(edus[i])
  }

  predicate ListsSkills(blocks: seq<Block>, skills: seq<string>) {
    |blocks| == |skills| && forall i :: 0 <= i < |skills| ==> blocks[i] == SkillTag(skills[i])
  }

  /** `experiences.map(exp => ...).join('')` */
  function ExperienceBlocks(exps: seq<Experience>): (bs: seq<Block>)
    ensures ListsExperiences(bs, exps)
  {
    if exps == [] then [] else [ExperienceBlock(exps[0])] + ExperienceBlocks(exps[1..])
  }

  /** `educations.map(edu => ...).join('')` */
  function EducationBlocks(edus: seq<Education>): (bs: seq<Block>)
    ensures ListsEducations(bs, edus)
  {
    if edus == [] then [] else [EducationBlock(edus[0])] + EducationBlocks(edus[1..])
  }

  /** `skills.map(skill => ...).join('')` */
  function SkillBlocks(skills: seq<string>): (bs: seq<Block>)
    ensures ListsSkills(bs, skills)
  {
    if skills == [] then [] else [SkillTag(skills[0])] + SkillBlocks(skills[1..])
  }

  /** `cond ? section : ''` */
  function When(cond: bool, s: Section): seq<Section> {
    if cond then [s] else []
  }

  /** The topics of a list of sections, in order (bare headings skipped) */
  function Topics(ss: seq<Section>): seq<Topic> {
    if ss == [] then []
    else (if ss[0].Section? then [ss[0].topic] else []) + Topics(ss[1..])
  }

  lemma {:induction false} TopicsAppend(a: seq<Section>, b: seq<Section>)
    ensures Topics(a + b) == Topics(a) + Topics(b)
  {
    if a != [] {
      assert (a + b)[0] == a[0] && (a + b)[1..] == a[1..] + b;
      TopicsAppend(a[1..], b);
    } else {
      assert a + b == b;
    }
  }

  /** Whether the record holds something for a section to show: a non-empty
      summary, or a list with at least one entry. */
  predicate HasData(d: CV, t: Topic) {
    match t
    case ProfileSection => Truthy(d.summary)
    case ExperienceSection => HasEntries(d.experiences)
    case EducationSection => HasEntries(d.educations)
    case SkillsSection => HasEntries(d.skills)
  }

  /** `[t]` when the record has data for `t`, else nothing */
  function Present(d: CV, t: Topic): seq<Topic> {
    if HasData(d, t) then [t] else []
  }

  /** The topics of `order` for which the record has data, in that order */
  function PresentIn(d: CV, order: seq<Topic>): seq<Topic> {
    if order == [] then [] else Present(d, order[0]) + PresentIn(d, order[1..])
  }

  lemma {:induction false} PresentInMembers(d: CV, order: seq<Topic>)
    ensures forall t :: t in PresentIn(d, order) <==> t in order && HasData(d, t)
  {
    if order != [] {
      PresentInMembers(d, order[1..]);
      assert order == [order[0]] + order[1..];
    }
  }

  lemma PresentInCons(d: CV, t: Topic, rest: seq<Topic>)
    ensures PresentIn(d, [t] + rest) == Present(d, t) + PresentIn(d, rest)
  {
    assert ([t] + rest)[1..] == rest;
  }

  lemma PresentIn2(d: CV, a: Topic, b: Topic)
    ensures PresentIn(d, [a, b]) == Present(d, a) + Present(d, b)
  {
    assert [a, b] == [a] + [b] && [b] == [b] + [];
    PresentInCons(d, b, []);
    PresentInCons(d, a, [b]);
  }

  lemma {:induction false} PresentInAppend(d: CV, xs: seq<Topic>, ys: seq<Topic>)
    ensures PresentIn(d, xs + ys) == PresentIn(d, xs) + PresentIn(d, ys)
  {
    if xs == [] {
      assert xs + ys == ys;
    } else {
      assert (xs + ys)[1..] == xs[1..] + ys;
      PresentInAppend(d, xs[1..], ys);
    }
  }

  lemma PresentIn4(d: CV, a: Topic, b: Topic, c: Topic, e: Topic)
    ensures PresentIn(d, [a, b, c, e]) == Present(d, a) + Present(d, b) + Present(d, c) + Present(d, e)
  {
    assert [a, b, c, e] == [a, b] + [c, e];
    PresentInAppend(d, [a, b], [c, e]);
    PresentIn2(d, a, b);
    PresentIn2(d, c, e);
  }

  /** The section is the record's data for its topic, complete and in order. */
  predicate Shows(d: CV, s: Section) {
    s.Section? && HasData(d, s.topic) &&
    match s.topic
    case ProfileSection => s.body == Paragraph(d.summary.value)
    case ExperienceSection => s.body.Items? && ListsExperiences(s.body.blocks, d.experiences.value)
    case EducationSection => s.body.Items? && ListsEducations(s.body.blocks, d.educations.value)
    case SkillsSection => s.body.Items? && ListsSkills(s.body.blocks, d.skills.value)
  }

  /** The sections are exactly those of `order` that have data, in that
      order, and each one shows its data. */
  predicate ShowsInOrder(d: CV, ss: seq<Section>, order: seq<Topic>) {
    Topics(ss) == PresentIn(d, order) && forall s :: s in ss ==> Shows(d, s)
  }

  /** A shown section never has an empty body. */
  lemma ShownIsNonEmpty(d: CV, s: Section)
    requires Shows(d, s)
    ensures s.body.Paragraph? ==> s.body.text != []
    ensures s.body.Items? ==> |s.body.blocks| > 0
  {
  }

  /** The body a template gives a topic the record has data for */
  function BodyFor(d: CV, t: Topic): Body
    requires HasData(d, t)
  {
    match t
    case ProfileSection => Paragraph(d.summary.value)
    case ExperienceSection => Items(ExperienceBlocks(d.experiences.value))
    case EducationSection => Items(EducationBlocks(d.educations.value))
    case SkillsSection => Items(SkillBlocks(d.skills.value))
  }

  /** `hasData ? section : ''` for one topic under the given heading: the
      section is there exactly when the record has data for the topic, and
      then it shows that data. */
  function SectionFor(d: CV, t: Topic, heading: string): (ss: seq<Section>)
    ensures Topics(ss) == Present(d, t)
    ensures forall s :: s in ss ==> Shows(d, s) && s.topic == t && s.heading == heading
  {
    if HasData(d, t) then [Section(t, heading, BodyFor(d, t))] else []
  }

  /** Two optional sections one after the other are shown in that order. */
  lemma InOrder2(d: CV, a: Topic, ha: string, b: Topic, hb: string)
    ensures ShowsInOrder(d, SectionFor(d, a, ha) + SectionFor(d, b, hb), [a, b])
  {
    TopicsAppend(SectionFor(d, a, ha), SectionFor(d, b, hb));
    PresentIn2(d, a, b);
  }

  /** Four optional sections one after the other are shown in that order. */
  lemma InOrder4(d: CV, a: Topic, ha: string, b: Topic, hb: string,
                 c: Topic, hc: string, e: Topic, he: string)
    ensures ShowsInOrder(d, SectionFor(d, a, ha) + SectionFor(d, b, hb)
                            + SectionFor(d, c, hc) + SectionFor(d, e, he), [a, b, c, e])
  {
    var sa, sb, sc, se := SectionFor(d, a, ha), SectionFor(d, b, hb), SectionFor(d, c, hc), SectionFor(d, e, he);
    TopicsAppend(sa, sb);
    TopicsAppend(sa + sb, sc);
    TopicsAppend(sa + sb + sc, se);
    PresentIn4(d, a, b, c, e);
  }

  /** The contact lines of a header: each of email, phone and address gets a
      line exactly when it is non-empty, independently of the other two, in
      that order. */
  function ContactLines(d: CV): (cs: seq<Contact>)
    ensures forall v :: EmailLine(v) in cs <==> Truthy(d.email) && d.email.value == v
    ensures forall v :: PhoneLine(v) in cs <==> Truthy(d.phone) && d.phone.value == v
    ensures forall v :: AddressLine(v) in cs <==> Truthy(d.address) && d.address.value == v
    ensures |cs| == (if Truthy(d.email) then 1 else 0) + (if Truthy(d.phone) then 1 else 0)
                    + (if Truthy(d.address) then 1 else 0)
  {
    (if Truthy(d.email) then [EmailLine(d.email.value)] else [])
    + (if Truthy(d.phone) then [PhoneLine(d.phone.value)] else [])
    + (if Truthy(d.address) then [AddressLine(d.address.value)] else [])
  }

  const NamePlaceholder := "Nom non spécifié"
  const TitlePlaceholder := "Poste non spécifié"

  /** The header of the local templates and of the preview: the name and
      the job title, or their placeholders, and the contact lines. */
  function PlaceholderHeader(d: CV): (h: Header)
    ensures h.name != [] && h.title != []
    ensures h.name == (if Truthy(d.fullName) then d.fullName.value else NamePlaceholder)
    ensures h.title == (if Truthy(d.jobTitle) then d.jobTitle.value else TitlePlaceholder)
    ensures h.contacts == ContactLines(d)
  {
    Header(TextOr(d.fullName, NamePlaceholder), TextOr(d.jobTitle, TitlePlaceholder), ContactLines(d))
  }
}
