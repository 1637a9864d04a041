/** The simulated AI endpoint (api/mock-ai-api.js): a guarded style
    dispatch over three templates built from section builders, and the
    advisor heuristics that score a record and list suggestions. */
module MockApi {
  import opened JsText
  import opened CvRecord
  import opened CvDocument

  // ---------------------------------------------------------------------
  // Section builders

  const ExperienceHeading := "Expérience Professionnelle"
  const NoExperienceText := "Aucune expérience renseignée"
  const EducationHeading := "Formation"
  const SkillsHeading := "Compétences"
  const ProfileHeading := "Profil"
  const TechBanner := "Compétences Techniques"

  /** The heading the mock templates give each topic */
  function MockHeading(t: Topic): string {
    match t
    case ProfileSection => ProfileHeading
    case ExperienceSection => ExperienceHeading
    case EducationSection => EducationHeading
    case SkillsSection => SkillsHeading
  }

  /** The experience section, which the mock always writes: one block per
      experience, or the placeholder paragraph when there is none. */
  method GenerateExperiencesSection(d: CV) returns (s: Section)
    ensures s.Section? && s.topic == ExperienceSection && s.heading == ExperienceHeading
    ensures HasEntries(d.experiences) ==> Shows(d, s)
    ensures !HasEntries(d.experiences) ==> s.body == Paragraph(NoExperienceText)
  {
    if !HasEntries(d.experiences) {
      return Section(ExperienceSection, ExperienceHeading, Paragraph(NoExperienceText));
    }
    var exps := d.experiences.value;
    var blocks: seq<Block> := [];
    var i := 0;
    while i < |exps|
      invariant 0 <= i <= |exps| && |blocks| == i
      invariant forall j :: 0 <= j < i ==> blocks[j] == ExperienceBlock(exps[j])
    {
      blocks := blocks + [ExperienceBlock(exps[i])];
      i := i + 1;
    }
    s := Section(ExperienceSection, ExperienceHeading, Items(blocks));
  }

  /** The education section, written only when there is an education. */
  method GenerateEducationSection(d: CV) returns (s: Option<Section>)
    ensures s.Some? <==> HasEntries(d.educations)
    ensures s.Some? ==> s.value.Section? && s.value.topic == EducationSection
    ensures s.Some? ==> Shows(d, s.value) && s.value.heading == EducationHeading
  {
    if !HasEntries(d.educations) {
      return None;
    }
    var edus := d.educations.value;
    var blocks: seq<Block> := [];
    var i := 0;
    while i < |edus|
      invariant 0 <= i <= |edus| && |blocks| == i
      invariant forall j :: 0 <= j < i ==> blocks[j] == EducationBlock(edus[j])
    {
      blocks := blocks + [EducationBlock(edus[i])];
      i := i + 1;
    }
    s := Some(Section(EducationSection, EducationHeading, Items(blocks)));
  }

  /** The skills section, written only when there is a skill. */
  method GenerateSkillsSection(d: CV) returns (s: Option<Section>)
    ensures s.Some? <==> HasEntries(d.skills)
    ensures s.Some? ==> s.value.Section? && s.value.topic == SkillsSection
    ensures s.Some? ==> Shows(d, s.value) && s.value.heading == SkillsHeading
  {
    if !HasEntries(d.skills) {
      return None;
    }
    var skills := d.skills.value;
    var blocks: seq<Block> := [];
    var i := 0;
    while i < |skills|
      invariant 0 <= i <= |skills| && |blocks| == i
      invariant forall j :: 0 <= j < i ==> blocks[j] == SkillTag(skills[j])
    {
      blocks := blocks + [SkillTag(skills[i])];
      i := i + 1;
    }
    s := Some(Section(SkillsSection, SkillsHeading, Items(blocks)));
  }

  function AsSeq(o: Option<Section>): seq<Section> {
    if o.Some? then [o.value] else []
  }

  // ---------------------------------------------------------------------
  // Templates

  /** `[t]` when the mock writes topic `t`, nothing otherwise */
  function Kept(d: CV, t: Topic): seq<Topic> {
    if t == ExperienceSection || HasData(d, t) then [t] else []
  }

  /** The topics of `order` the mock writes: experience always, the others
      when the record has data for them. */
  function MockPresent(d: CV, order: seq<Topic>): (ts: seq<Topic>) {
    if order == [] then [] else Kept(d, order[0]) + MockPresent(d, order[1..])
  }

  lemma {:induction false} MockPresentMembers(d: CV, order: seq<Topic>)
    ensures forall t :: t in MockPresent(d, order) <==> t in order && (t == ExperienceSection || HasData(d, t))
  {
    if order != [] {
      MockPresentMembers(d, order[1..]);
      assert forall t :: t in order <==> t == order[0] || t in order[1..];
    }
  }

  lemma MockPresentCons(d: CV, t: Topic, rest: seq<Topic>)
    ensures MockPresent(d, [t] + rest) == Kept(d, t) + MockPresent(d, rest)
  {
    assert ([t] + rest)[1..] == rest;
  }

  lemma MockPresent2(d: CV, a: Topic, b: Topic)
    ensures MockPresent(d, [a, b]) == Kept(d, a) + Kept(d, b)
  {
    MockPresentCons(d, b, []);
    assert [b] + [] == [b];
    MockPresentCons(d, a, [b]);
    assert [a] + [b] == [a, b];
  }

  lemma {:induction false} MockPresentAppend(d: CV, xs: seq<Topic>, ys: seq<Topic>)
    ensures MockPresent(d, xs + ys) == MockPresent(d, xs) + MockPresent(d, ys)
  {
    if xs == [] {
      assert xs + ys == ys;
    } else {
      assert (xs + ys)[1..] == xs[1..] + ys;
      MockPresentAppend(d, xs[1..], ys);
    }
  }

  lemma MockPresent3(d: CV, b: Topic, c: Topic, e: Topic)
    ensures MockPresent(d, [b, c, e]) == Kept(d, b) + Kept(d, c) + Kept(d, e)
  {
    MockPresent2(d, c, e);
    MockPresentCons(d, b, [c, e]);
    assert [b] + [c, e] == [b, c, e];
  }

  lemma MockPresent4(d: CV, a: Topic, b: Topic, c: Topic, e: Topic)
    ensures MockPresent(d, [a, b, c, e]) == Kept(d, a) + Kept(d, b) + Kept(d, c) + Kept(d, e)
  {
    assert [a, b, c, e] == [a, b] + [c, e];
    MockPresentAppend(d, [a, b], [c, e]);
    MockPresent2(d, a, b);
    MockPresent2(d, c, e);
  }

  /** A section as the mock writes it: under its mock heading, either the
      record's data for the topic or the experience placeholder. */
  predicate MockShows(d: CV, s: Section) {
    s.Section? && s.heading == MockHeading(s.topic) &&
    (Shows(d, s) ||
     (s.topic == ExperienceSection && !HasEntries(d.experiences) && s.body == Paragraph(NoExperienceText)))
  }

  predicate MockInOrder(d: CV, ss: seq<Section>, order: seq<Topic>) {
    Topics(ss) == MockPresent(d, order) && forall s :: s in ss ==> MockShows(d, s)
  }

  /** Two runs of sections, each holding what the mock writes for its
      topic, make up the two topics in order. */
  lemma MockInOrder2(d: CV, a: seq<Section>, b: seq<Section>, ta: Topic, tb: Topic)
    requires Topics(a) == Kept(d, ta) && Topics(b) == Kept(d, tb)
    requires forall s :: s in a ==> MockShows(d, s)
    requires forall s :: s in b ==> MockShows(d, s)
    ensures MockInOrder(d, a + b, [ta, tb])
  {
    TopicsAppend(a, b);
    MockPresent2(d, ta, tb);
  }

  /** Four runs of sections, each holding what the mock writes for its
      topic, make up the four topics in order. */
  lemma MockInOrder4(d: CV, a: seq<Section>, b: seq<Section>, c: seq<Section>, e: seq<Section>,
                     ta: Topic, tb: Topic, tc: Topic, te: Topic)
    requires Topics(a) == Kept(d, ta) && Topics(b) == Kept(d, tb)
    requires Topics(c) == Kept(d, tc) && Topics(e) == Kept(d, te)
    requires forall s :: s in a ==> MockShows(d, s)
    requires forall s :: s in b ==> MockShows(d, s)
    requires forall s :: s in c ==> MockShows(d, s)
    requires forall s :: s in e ==> MockShows(d, s)
    ensures MockInOrder(d, a + b + c + e, [ta, tb, tc, te])
  {
    TopicsAppend(a, b);
    TopicsAppend(a + b, c);
    TopicsAppend(a + b + c, e);
    MockPresent4(d, ta, tb, tc, te);
  }

  /** The mock header: name and title or `''`, and the contact lines for
      email and phone only when asked for. */
  ghost predicate MockHeader(d: CV, h: Header, withContacts: bool) {
    h.name == TextOr(d.fullName, "") && h.title == TextOr(d.jobTitle, "") &&
    (withContacts ==>
       (forall v :: EmailLine(v) in h.contacts <==> Truthy(d.email) && d.email.value == v) &&
       (forall v :: PhoneLine(v) in h.contacts <==> Truthy(d.phone) && d.phone.value == v) &&
       (forall v :: AddressLine(v) !in h.contacts)) &&
    (!withContacts ==> h.contacts == [])
  }

  function EmailPhone(d: CV): (cs: seq<Contact>)
    ensures forall v :: EmailLine(v) in cs <==> Truthy(d.email) && d.email.value == v
    ensures forall v :: PhoneLine(v) in cs <==> Truthy(d.phone) && d.phone.value == v
    ensures forall v :: AddressLine(v) !in cs
  {
    (if Truthy(d.email) then [EmailLine(d.email.value)] else [])
    + (if Truthy(d.phone) then [PhoneLine(d.phone.value)] else [])
  }

  function ProfileOf(d: CV): seq<Section> {
    if Truthy(d.summary) then [Section(ProfileSection, ProfileHeading, Paragraph(d.summary.value))] else []
  }

  lemma ProfileOfShows(d: CV)
    ensures Topics(ProfileOf(d)) == (if HasData(d, ProfileSection) then [ProfileSection] else [])
    ensures forall s :: s in ProfileOf(d) ==> MockShows(d, s)
  {
  }

  lemma OptionalTopics(o: Option<Section>, t: Topic)
    requires o.Some? ==> o.value.Section? && o.value.topic == t
    ensures Topics(AsSeq(o)) == if o.Some? then [t] else []
  {
    if o.Some? { assert AsSeq(o)[1..] == []; }
  }

  lemma SingleTopic(s: Section)
    requires s.Section?
    ensures Topics([s]) == [s.topic]
  {
    assert [s][1..] == [];
  }

  ghost predicate SimpleShape(d: CV, doc: Document) {
    MockHeader(d, doc.header, true) && doc.layout.OneColumn? &&
    MockInOrder(d, doc.layout.sections, [ProfileSection, ExperienceSection, EducationSection, SkillsSection])
  }

  ghost predicate ModernShape(d: CV, doc: Document) {
    MockHeader(d, doc.header, false) && doc.layout.TwoColumns? &&
    MockInOrder(d, doc.layout.main, [ProfileSection, ExperienceSection]) &&
    MockInOrder(d, doc.layout.side, [SkillsSection, EducationSection])
  }

  ghost predicate TechShape(d: CV, doc: Document) {
    MockHeader(d, doc.header, false) && doc.layout.OneColumn? &&
    |doc.layout.sections| > 0 && doc.layout.sections[0] == Banner(TechBanner) &&
    MockInOrder(d, doc.layout.sections[1..],
                [SkillsSection, ExperienceSection, ProfileSection, EducationSection])
  }

  /** Profile, experience, education and skills, in that order. */
  method GenerateSimpleCV(d: CV) returns (doc: Document)
    ensures SimpleShape(d, doc)
  {
    var exp := GenerateExperiencesSection(d);
    var edu := GenerateEducationSection(d);
    var skills := GenerateSkillsSection(d);
    var ss := ProfileOf(d) + [exp] + AsSeq(edu) + AsSeq(skills);
    doc := Document(Header(TextOr(d.fullName, ""), TextOr(d.jobTitle, ""), EmailPhone(d)), OneColumn(ss));
    ProfileOfShows(d);
    SingleTopic(exp);
    OptionalTopics(edu, EducationSection);
    OptionalTopics(skills, SkillsSection);
    MockInOrder4(d, ProfileOf(d), [exp], AsSeq(edu), AsSeq(skills),
                 ProfileSection, ExperienceSection, EducationSection, SkillsSection);
  }

  /** Profile then experience in the main column, skills then education in
      the side column; no contact lines. */
  method GenerateModernCV(d: CV) returns (doc: Document)
    ensures ModernShape(d, doc)
  {
    var exp := GenerateExperiencesSection(d);
    var skills := GenerateSkillsSection(d);
    var edu := GenerateEducationSection(d);
    var main := ProfileOf(d) + [exp];
    var side := AsSeq(skills) + AsSeq(edu);
    doc := Document(Header(TextOr(d.fullName, ""), TextOr(d.jobTitle, ""), []), TwoColumns(main, side));
    ProfileOfShows(d);
    SingleTopic(exp);
    OptionalTopics(edu, EducationSection);
    OptionalTopics(skills, SkillsSection);
    MockInOrder2(d, ProfileOf(d), [exp], ProfileSection, ExperienceSection);
    MockInOrder2(d, AsSeq(skills), AsSeq(edu), SkillsSection, EducationSection);
  }

  const TechExtraSkills: seq<string> := ["Git", "Methodologies Agiles", "Résolution de problèmes"]

  /** The record after `generateTechCV` has enriched it: a present skills
      list (even an empty one) with fewer than three entries gets the three
      extra skills appended; everything else is left untouched. */
  function TechEnriched(d: CV): (r: CV)
    ensures forall k :: k != Skills ==> Lookup(r, k) == Lookup(d, k)
    ensures d.skills.Some? && |d.skills.value| < 3 ==> r.skills == Some(d.skills.value + TechExtraSkills)
    ensures d.skills.None? || |d.skills.value| >= 3 ==> r == d
    ensures r.skills.Some? <==> d.skills.Some?
    ensures r.skills.Some? ==> |r.skills.value| >= 3
  {
    if d.skills.Some? && |d.skills.value| < 3 then d.(skills := Some(d.skills.value + TechExtraSkills))
    else d
  }

  /** The record is enriched first; the document is then the technical
      banner, skills, experience, profile and education of the enriched
      record. */
  method GenerateTechCV(d: CV) returns (doc: Document, after: CV)
    ensures after == TechEnriched(d)
    ensures TechShape(after, doc)
  {
    after := TechEnriched(d);
    var skills := GenerateSkillsSection(after);
    var exp := GenerateExperiencesSection(after);
    var edu := GenerateEducationSection(after);
    var body := AsSeq(skills) + [exp] + ProfileOf(after) + AsSeq(edu);
    doc := Document(Header(TextOr(after.fullName, ""), TextOr(after.jobTitle, ""), []),
                    OneColumn([Banner(TechBanner)] + body));
    assert doc.layout.sections[1..] == body;
    ProfileOfShows(after);
    SingleTopic(exp);
    OptionalTopics(edu, EducationSection);
    OptionalTopics(skills, SkillsSection);
    MockInOrder4(after, AsSeq(skills), [exp], ProfileOf(after), AsSeq(edu),
                 SkillsSection, ExperienceSection, ProfileSection, EducationSection);
  }

  // ---------------------------------------------------------------------
  // Suggestions (generateAISuggestions)

  datatype Suggestion =
    | DetailProfile
    | AddExperience
    | DetailExperience(employer: string)
    | AddSkills
    | SpecificSkills
    | ActionVerbs
    | QuantifyResults
  {
    function Text(): string {
      match this
      case DetailProfile => "Ajoutez un profil professionnel plus détaillé (minimum 50 caractères)"
      case AddExperience => "Ajoutez au moins une expérience professionnelle"
      case DetailExperience(employer) => "Détaillez davantage votre expérience chez " + employer
      case AddSkills => "Ajoutez plus de compétences (minimum 3 recommandé)"
      case SpecificSkills => "Ajoutez des compétences plus spécifiques et techniques"
      case ActionVerbs => "Utilisez des verbes d'action dans vos descriptions (développé, géré, réalisé, etc.)"
      case QuantifyResults => "Incluez des chiffres pour quantifier vos réalisations"
    }
  }

  /** `!s || s.length < n` on an optional string */
  predicate ShorterThan(o: Option<string>, n: nat) {
    !Truthy(o) || Utf16Length(o.value) < n
  }

  /** The hint an experience draws when its description is missing or
      under 20 code units */
  function HintFor(e: Experience): seq<Suggestion> {
    if ShorterThan(e.description, 20) then [DetailExperience(TextOr(e.company, "cet employeur"))] else []
  }

  /** The hints of `exps`, in order: one per thin description */
  function DescriptionHints(exps: seq<Experience>): (hs: seq<Suggestion>)
  {
    if exps == [] then [] else DescriptionHints(exps[..|exps| - 1]) + HintFor(exps[|exps| - 1])
  }

  const GenericSkills: seq<string> := ["Microsoft Office", "Travail en équipe", "Communication"]

  /** `skill.length > 3 && !generic.includes(skill)` */
  predicate Specific(skill: string) {
    Utf16Length(skill) > 3 && skill !in GenericSkills
  }

  function SpecificCount(skills: seq<string>): (n: nat)
    ensures n <= |skills|
  {
    if skills == [] then 0 else (if Specific(skills[0]) then 1 else 0) + SpecificCount(skills[1..])
  }

  function ProfileRule(d: CV): seq<Suggestion> {
    if ShorterThan(d.summary, 50) then [DetailProfile] else []
  }

  function ExperienceRules(d: CV): seq<Suggestion> {
    if !HasEntries(d.experiences) then [AddExperience] else DescriptionHints(d.experiences.value)
  }

  function SkillRules(d: CV): seq<Suggestion> {
    (if d.skills.None? || |d.skills.value| < 3 then [AddSkills] else [])
    + (if HasEntries(d.skills) && 2 * SpecificCount(d.skills.value) < |d.skills.value|
       then [SpecificSkills] else [])
  }

  /** The suggestions the rules draw before the generic tips, in the order
      the rules are checked */
  function RuleSuggestions(d: CV): seq<Suggestion> {
    ProfileRule(d) + ExperienceRules(d) + SkillRules(d)
  }

  const GenericTips: seq<Suggestion> := [ActionVerbs, QuantifyResults]

  /** `slice(0, n)` */
  function Take<T>(s: seq<T>, n: nat): (r: seq<T>)
    ensures |r| == if |s| <= n then |s| else n
    ensures r == s[..|r|]
  {
    if |s| <= n then s else s[..n]
  }

  /** The `experiences.forEach` of the suggestions: one hint per thin
      description, in order */
  method ExperienceHints(exps: seq<Experience>) returns (hs: seq<Suggestion>)
    ensures hs == DescriptionHints(exps)
  {
    hs := [];
    var i := 0;
    while i < |exps|
      invariant 0 <= i <= |exps|
      invariant hs == DescriptionHints(exps[..i])
    {
      assert exps[..i + 1][..i] == exps[..i];
      if ShorterThan(exps[i].description, 20) {
        hs := hs + [DetailExperience(TextOr(exps[i].company, "cet employeur"))];
      }
      i := i + 1;
    }
    assert exps[..i] == exps;
  }

  /** The rule suggestions, then the two generic tips, cut to five. */
  method GenerateAISuggestions(d: CV) returns (r: seq<Suggestion>)
    ensures r == Take(RuleSuggestions(d) + GenericTips, 5)
  {
    var suggestions: seq<Suggestion> := [];
    if ShorterThan(d.summary, 50) {
      suggestions := suggestions + [DetailProfile];
    }
    assert suggestions == ProfileRule(d);
    if !HasEntries(d.experiences) {
      suggestions := suggestions + [AddExperience];
    } else {
      var hints := ExperienceHints(d.experiences.value);
      suggestions := suggestions + hints;
    }
    assert suggestions == ProfileRule(d) + ExperienceRules(d);
    ghost var before := suggestions;
    if d.skills.None? || |d.skills.value| < 3 {
      suggestions := suggestions + [AddSkills];
    }
    if HasEntries(d.skills) {
      var specific := SpecificCount(d.skills.value);
      if 2 * specific < |d.skills.value| {
        suggestions := suggestions + [SpecificSkills];
      }
    }
    assert suggestions == before + SkillRules(d);
    assert suggestions == RuleSuggestions(d);
    suggestions := suggestions + [ActionVerbs];
    suggestions := suggestions + [QuantifyResults];
    assert suggestions == RuleSuggestions(d) + GenericTips;
    r := Take(suggestions, 5);
  }

  /** At most five suggestions, the rule ones first; when at most three
      rules fire, both generic tips are kept. */
  lemma SuggestionsShape(d: CV)
    ensures |Take(RuleSuggestions(d) + GenericTips, 5)| <= 5
    ensures var r := Take(RuleSuggestions(d) + GenericTips, 5);
            forall i :: 0 <= i < |r| && i < |RuleSuggestions(d)| ==> r[i] == RuleSuggestions(d)[i]
    ensures |RuleSuggestions(d)| <= 3 ==>
            Take(RuleSuggestions(d) + GenericTips, 5) == RuleSuggestions(d) + GenericTips
  {
  }

  /** The `{}` record draws exactly five suggestions. */
  lemma SuggestionsForEmpty()
    ensures Take(RuleSuggestions(Empty) + GenericTips, 5)
            == [DetailProfile, AddExperience, AddSkills, ActionVerbs, QuantifyResults]
  {
  }

  /** The hints of consecutive experiences are the hints of each part, in
      order. */
  lemma {:induction false} DescriptionHintsAppend(a: seq<Experience>, b: seq<Experience>)
    ensures DescriptionHints(a + b) == DescriptionHints(a) + DescriptionHints(b)
    decreases |b|
  {
    if b == [] {
      assert a + b == a;
    } else {
      var n := |b| - 1;
      assert (a + b)[..|a + b| - 1] == a + b[..n];
      assert (a + b)[|a + b| - 1] == b[n];
      DescriptionHintsAppend(a, b[..n]);
    }
  }

  /** Every hint names the employer of an experience whose description is
      missing or under 20 code units, or `cet employeur` when it has none. */
  lemma {:induction false} HintsFromThin(exps: seq<Experience>)
    ensures forall h :: h in DescriptionHints(exps) ==>
      exists i :: 0 <= i < |exps| && ShorterThan(exps[i].description, 20) &&
                  h == DetailExperience(TextOr(exps[i].company, "cet employeur"))
  {
    if exps != [] {
      var n := |exps| - 1;
      var pre := exps[..n];
      HintsFromThin(pre);
      assert DescriptionHints(exps) == DescriptionHints(pre) + HintFor(exps[n]);
      forall h | h in DescriptionHints(exps)
        ensures exists i :: 0 <= i < |exps| && ShorterThan(exps[i].description, 20) &&
                            h == DetailExperience(TextOr(exps[i].company, "cet employeur"))
      {
        if h in DescriptionHints(pre) {
          var i :| 0 <= i < |pre| && ShorterThan(pre[i].description, 20) &&
                   h == DetailExperience(TextOr(pre[i].company, "cet employeur"));
          assert pre[i] == exps[i];
        } else {
          assert h in HintFor(exps[n]);
        }
      }
    }
  }

  /** There is no hint exactly when no description is thin. */
  lemma {:induction false} NoHintsIffDetailed(exps: seq<Experience>)
    ensures DescriptionHints(exps) == [] <==> forall i :: 0 <= i < |exps| ==> !ShorterThan(exps[i].description, 20)
  {
    if exps != [] {
      var n := |exps| - 1;
      var pre := exps[..n];
      NoHintsIffDetailed(pre);
      assert DescriptionHints(exps) == DescriptionHints(pre) + HintFor(exps[n]);
      assert forall i :: 0 <= i < n ==> pre[i] == exps[i];
    }
  }

  /** The hints are exactly the thin descriptions' employers. */
  lemma DescriptionHintsSound(exps: seq<Experience>)
    ensures forall h :: h in DescriptionHints(exps) ==>
      exists i :: 0 <= i < |exps| && ShorterThan(exps[i].description, 20) &&
                  h == DetailExperience(TextOr(exps[i].company, "cet employeur"))
    ensures DescriptionHints(exps) == [] <==> forall i :: 0 <= i < |exps| ==> !ShorterThan(exps[i].description, 20)
  {
    HintsFromThin(exps);
    NoHintsIffDetailed(exps);
  }

  // ---------------------------------------------------------------------
  // Completeness (calculateCompleteness)

  /** The seven criteria and their weights */
  datatype Criterion = NameGiven | EmailGiven | TitleGiven | DetailedSummary
                     | SomeExperience | SomeEducation | SeveralSkills

  function Weight(c: Criterion): nat {
    match c
    case NameGiven => 10
    case EmailGiven => 10
    case TitleGiven => 10
    case DetailedSummary => 15
    case SomeExperience => 20
    case SomeEducation => 15
    case SeveralSkills => 20
  }

  predicate Met(d: CV, c: Criterion) {
    match c
    case NameGiven => Truthy(d.fullName)
    case EmailGiven => Truthy(d.email)
    case TitleGiven => Truthy(d.jobTitle)
    case DetailedSummary => Truthy(d.summary) && Utf16Length(d.summary.value) > 30
    case SomeExperience => HasEntries(d.experiences)
    case SomeEducation => HasEntries(d.educations)
    case SeveralSkills => d.skills.Some? && |d.skills.value| > 2
  }

  const Criteria: seq<Criterion> :=
    [NameGiven, EmailGiven, TitleGiven, DetailedSummary, SomeExperience, SomeEducation, SeveralSkills]

  /** The sum of the weights of the criteria the record meets */
  function Score(d: CV, cs: seq<Criterion>): nat {
    if cs == [] then 0 else (if Met(d, cs[0]) then Weight(cs[0]) else 0) + Score(d, cs[1..])
  }

  function TotalWeight(cs: seq<Criterion>): nat {
    if cs == [] then 0 else Weight(cs[0]) + TotalWeight(cs[1..])
  }

  function Gained(d: CV, c: Criterion): nat {
    if Met(d, c) then Weight(c) else 0
  }

  lemma ScoreCons(d: CV, c: Criterion, rest: seq<Criterion>)
    ensures Score(d, [c] + rest) == Gained(d, c) + Score(d, rest)
    ensures TotalWeight([c] + rest) == Weight(c) + TotalWeight(rest)
  {
    assert ([c] + rest)[1..] == rest;
  }

  lemma ScoreOfCriteria(d: CV)
    ensures Score(d, Criteria) ==
      Gained(d, NameGiven) + Gained(d, EmailGiven) + Gained(d, TitleGiven) + Gained(d, DetailedSummary)
      + Gained(d, SomeExperience) + Gained(d, SomeEducation) + Gained(d, SeveralSkills)
    ensures TotalWeight(Criteria) == 100
  {
    var c6 := [SeveralSkills];
    var c5 := [SomeEducation] + c6;
    var c4 := [SomeExperience] + c5;
    var c3 := [DetailedSummary] + c4;
    var c2 := [TitleGiven] + c3;
    var c1 := [EmailGiven] + c2;
    var c0 := [NameGiven] + c1;
    assert c0 == Criteria;
    ScoreCons(d, SeveralSkills, []);
    assert [SeveralSkills] + [] == c6;
    ScoreCons(d, SomeEducation, c6);
    ScoreCons(d, SomeExperience, c5);
    ScoreCons(d, DetailedSummary, c4);
    ScoreCons(d, TitleGiven, c3);
    ScoreCons(d, EmailGiven, c2);
    ScoreCons(d, NameGiven, c1);
  }

  lemma {:induction false} ScoreBounded(d: CV, cs: seq<Criterion>)
    ensures Score(d, cs) <= TotalWeight(cs)
    ensures Score(d, cs) == 0 <==> forall i :: 0 <= i < |cs| ==> !Met(d, cs[i])
    ensures Score(d, cs) == TotalWeight(cs) <==> forall i :: 0 <= i < |cs| ==> Met(d, cs[i])
  {
    if cs != [] {
      ScoreBounded(d, cs[1..]);
      assert forall i :: 1 <= i < |cs| ==> cs[i] == cs[1..][i - 1];
    }
  }

  /** The completeness percentage: the score out of a total of 100. */
  function Completeness(d: CV): (c: nat)
    ensures c <= 100
    ensures c == 0 <==> forall k :: k in Criteria ==> !Met(d, k)
    ensures c == 100 <==> forall k :: k in Criteria ==> Met(d, k)
  {
    ScoreBounded(d, Criteria);
    ScoreOfCriteria(d);
    Score(d, Criteria)
  }

  /** `Math.round(x)`: the nearest integer, halves rounded up */
  function RoundHalfUp(x: real): int {
    (x + 0.5).Floor
  }

  /** A whole percentage of a total of 100 rounds to itself. */
  lemma RoundWholePercent(n: int)
    ensures RoundHalfUp((n as real / 100 as real) * 100.0) == n
  {
    assert (n as real / 100 as real) * 100.0 == n as real;
  }

  /** The straight-line accumulation of `score` and `total`, then
      `Math.round(score / total * 100)`; the total is always 100, so the
      result is the score itself. */
  method CalculateCompleteness(d: CV) returns (c: int)
    ensures c == Completeness(d)
  {
    var score := 0;
    var total := 0;
    if Truthy(d.fullName) { score := score + 10; } total := total + 10;
    assert score == Gained(d, NameGiven);
    if Truthy(d.email) { score := score + 10; } total := total + 10;
    assert score == Gained(d, NameGiven) + Gained(d, EmailGiven);
    if Truthy(d.jobTitle) { score := score + 10; } total := total + 10;
    ghost var s3 := score;
    assert s3 == Gained(d, NameGiven) + Gained(d, EmailGiven) + Gained(d, TitleGiven);
    if Truthy(d.summary) && Utf16Length(d.summary.value) > 30 { score := score + 15; } total := total + 15;
    assert score == s3 + Gained(d, DetailedSummary);
    ghost var s4 := score;
    if HasEntries(d.experiences) { score := score + 20; } total := total + 20;
    assert score == s4 + Gained(d, SomeExperience);
    ghost var s5 := score;
    if HasEntries(d.educations) { score := score + 15; } total := total + 15;
    assert score == s5 + Gained(d, SomeEducation);
    ghost var s6 := score;
    if d.skills.Some? && |d.skills.value| > 2 { score := score + 20; } total := total + 20;
    assert score == s6 + Gained(d, SeveralSkills);
    ScoreOfCriteria(d);
    assert total == 100 && score == Score(d, Criteria);
    RoundWholePercent(score);
    c := RoundHalfUp((score as real / total as real) * 100.0);
  }

  lemma CompletenessOfEmpty()
    ensures Completeness(Empty) == 0
  {
  }

  /** Meeting more criteria never lowers the completeness. */
  lemma {:induction false} ScoreMonotone(d: CV, e: CV, cs: seq<Criterion>)
    requires forall k :: k in cs && Met(d, k) ==> Met(e, k)
    ensures Score(d, cs) <= Score(e, cs)
  {
    if cs != [] {
      assert cs[0] in cs;
      assert forall k :: k in cs[1..] ==> k in cs;
      ScoreMonotone(d, e, cs[1..]);
    }
  }

  // ---------------------------------------------------------------------
  // Strengths, weaknesses, recommendations, score, priorities

  datatype Strength = WrittenProfile | SolidExperience | BroadSkills | FullEducation | Potential {
    function Text(): string {
      match this
      case WrittenProfile => "Profil professionnel bien rédigé et détaillé"
      case SolidExperience => "Expérience professionnelle solide"
      case BroadSkills => "Large éventail de compétences"
      case FullEducation => "Formation académique complète"
      case Potential => "Bon potentiel, à développer davantage"
    }
  }

  predicate LongerThan(o: Option<string>, n: nat) {
    Truthy(o) && Utf16Length(o.value) > n
  }

  predicate AtLeast<T>(o: Option<seq<T>>, n: nat) {
    o.Some? && |o.value| >= n
  }

  /** The four strength rules of `identifyStrengths`, in order */
  /** Appending a fresh element keeps a list free of repeats. */
  lemma DistinctSnoc<T>(r: seq<T>, x: T)
    requires forall i, j :: 0 <= i < j < |r| ==> r[i] != r[j]
    requires x !in r
    ensures forall i, j :: 0 <= i < j < |r + [x]| ==> (r + [x])[i] != (r + [x])[j]
  {
  }

  method StrengthRules(d: CV) returns (r: seq<Strength>)
    ensures |r| <= 4 && Potential !in r
    ensures WrittenProfile in r <==> LongerThan(d.summary, 100)
    ensures SolidExperience in r <==> AtLeast(d.experiences, 2)
    ensures BroadSkills in r <==> AtLeast(d.skills, 5)
    ensures FullEducation in r <==> AtLeast(d.educations, 2)
    ensures forall i, j :: 0 <= i < j < |r| ==> r[i] != r[j]
  {
    r := [];
    if LongerThan(d.summary, 100) { r := r + [WrittenProfile]; }
    assert forall s :: s in r ==> s == WrittenProfile;
    if AtLeast(d.experiences, 2) { DistinctSnoc(r, SolidExperience); r := r + [SolidExperience]; }
    assert forall s :: s in r ==> s == WrittenProfile || s == SolidExperience;
    if AtLeast(d.skills, 5) { DistinctSnoc(r, BroadSkills); r := r + [BroadSkills]; }
    assert forall s :: s in r ==> s == WrittenProfile || s == SolidExperience || s == BroadSkills;
    if AtLeast(d.educations, 2) { DistinctSnoc(r, FullEducation); r := r + [FullEducation]; }
  }

  /** The four strength rules in order; the encouragement alone exactly when
      none applies, so the list is never empty. */
  method IdentifyStrengths(d: CV) returns (r: seq<Strength>)
    ensures |r| >= 1 && |r| <= 4
    ensures WrittenProfile in r <==> LongerThan(d.summary, 100)
    ensures SolidExperience in r <==> AtLeast(d.experiences, 2)
    ensures BroadSkills in r <==> AtLeast(d.skills, 5)
    ensures FullEducation in r <==> AtLeast(d.educations, 2)
    ensures Potential in r <==> r == [Potential]
    ensures r == [Potential] <==> !LongerThan(d.summary, 100) && !AtLeast(d.experiences, 2)
                                  && !AtLeast(d.skills, 5) && !AtLeast(d.educations, 2)
    ensures forall i, j :: 0 <= i < j < |r| ==> r[i] != r[j]
  {
    var strengths := StrengthRules(d);
    if |strengths| > 0 {
      assert strengths[0] in strengths;
      assert LongerThan(d.summary, 100) || AtLeast(d.experiences, 2)
             || AtLeast(d.skills, 5) || AtLeast(d.educations, 2) by {
        match strengths[0]
        case WrittenProfile =>
        case SolidExperience =>
        case BroadSkills =>
        case FullEducation =>
        case Potential =>
      }
      r := strengths;
      assert Potential !in r && r != [Potential];
    } else {
      r := [Potential];
      assert WrittenProfile !in strengths && SolidExperience !in strengths;
      assert BroadSkills !in strengths && FullEducation !in strengths;
    }
  }

  datatype Weakness = ThinProfile | MissingExperience | FewSkills {
    function Text(): string {
      match this
      case ThinProfile => "Profil professionnel trop succinct"
      case MissingExperience => "Manque d'expérience professionnelle"
      case FewSkills => "Peu de compétences listées"
    }
  }

  /** The three weakness rules, each independent of the others, in order. */
  method IdentifyWeaknesses(d: CV) returns (r: seq<Weakness>)
    ensures |r| <= 3
    ensures ThinProfile in r <==> ShorterThan(d.summary, 30)
    ensures MissingExperience in r <==> !HasEntries(d.experiences)
    ensures FewSkills in r <==> !AtLeast(d.skills, 3)
    ensures forall i, j :: 0 <= i < j < |r| ==> r[i] != r[j]
  {
    var weaknesses: seq<Weakness> := [];
    if ShorterThan(d.summary, 30) { weaknesses := weaknesses + [ThinProfile]; }
    if !HasEntries(d.experiences) { weaknesses := weaknesses + [MissingExperience]; }
    if !AtLeast(d.skills, 3) { weaknesses := weaknesses + [FewSkills]; }
    r := weaknesses;
  }

  datatype Recommendation = CompleteSections | QuantifiableResults | TailorCV | Proofread {
    function Text(): string {
      match this
      case CompleteSections => "Complétez les sections manquantes pour améliorer votre CV"
      case QuantifiableResults => "Ajoutez des réalisations quantifiables dans vos expériences"
      case TailorCV => "Adaptez votre CV à chaque poste que vous visez"
      case Proofread => "Faites relire votre CV par un professionnel"
    }
  }

  /** `exps.some(exp => exp.description && /\d+/.test(exp.description))` */
  function AnyQuantified(exps: seq<Experience>): (b: bool)
    ensures b <==> exists i :: 0 <= i < |exps| && Truthy(exps[i].description)
                                && HasDigit(exps[i].description.value)
  {
    if exps == [] then false
    else
      (Truthy(exps[0].description) && HasDigit(exps[0].description.value)) ||
      (assert forall i :: 1 <= i < |exps| ==> exps[i] == exps[1..][i - 1];
       AnyQuantified(exps[1..]))
  }

  /** Up to two conditional recommendations, always followed by the two
      fixed ones; the figures check runs only when `experiences` is set. */
  method GenerateRecommendations(d: CV) returns (r: seq<Recommendation>)
    ensures 2 <= |r| <= 4 && r[|r| - 2..] == [TailorCV, Proofread]
    ensures CompleteSections in r <==> Completeness(d) < 70
    ensures QuantifiableResults in r <==> d.experiences.Some? && !AnyQuantified(d.experiences.value)
    ensures forall i, j :: 0 <= i < j < |r| ==> r[i] != r[j]
  {
    var recommendations: seq<Recommendation> := [];
    var completeness := CalculateCompleteness(d);
    ghost var low := completeness < 70;
    if completeness < 70 {
      recommendations := recommendations + [CompleteSections];
    }
    assert recommendations == if low then [CompleteSections] else [];
    ghost var first := recommendations;
    ghost var unquantified := d.experiences.Some? && !AnyQuantified(d.experiences.value);
    if d.experiences.Some? {
      var quantified := AnyQuantified(d.experiences.value);
      if !quantified {
        recommendations := recommendations + [QuantifiableResults];
      }
    }
    assert recommendations == first + if unquantified then [QuantifiableResults] else [];
    recommendations := recommendations + [TailorCV];
    recommendations := recommendations + [Proofread];
    r := recommendations;
  }

  function Min(a: int, b: int): int {
    if a <= b then a else b
  }

  /** `Math.round((completeness + experienceScore + skillsScore) / 3)`: the
      nearest integer to a third of the sum, which lies in [0, 160], so
      the score lies in [0, 53]. */
  function CalculateCVScore(d: CV): (score: int)
    ensures var sum := Completeness(d)
                       + (if d.experiences.Some? then Min(10 * |d.experiences.value|, 30) else 0)
                       + (if d.skills.Some? then Min(3 * |d.skills.value|, 30) else 0);
            0 <= sum <= 160 && -1 <= sum - 3 * score <= 1
    ensures 0 <= score <= 53
  {
    var experienceScore := if d.experiences.Some? then Min(10 * |d.experiences.value|, 30) else 0;
    var skillsScore := if d.skills.Some? then Min(3 * |d.skills.value|, 30) else 0;
    var sum := Completeness(d) + experienceScore + skillsScore;
    ThirdRounded(sum);
    RoundHalfUp(sum as real / 3.0)
  }

  /** Rounding a third of a whole number lands within one third of it. */
  lemma ThirdRounded(n: int)
    ensures -1 <= n - 3 * RoundHalfUp(n as real / 3.0) <= 1
  {
    var r := RoundHalfUp(n as real / 3.0);
    assert r as real <= n as real / 3.0 + 0.5 < r as real + 1.0;
  }

  lemma CVScoreOfEmpty()
    ensures CalculateCVScore(Empty) == 0
  {
    CompletenessOfEmpty();
  }

  datatype Priority = High | Medium {
    function Text(): string {
      match this
      case High => "Haute"
      case Medium => "Moyenne"
    }
  }

  datatype AreaName = ProfileArea | ExperienceArea | DescriptionsArea | SkillsArea {
    function Text(): string {
      match this
      case ProfileArea => "Profil professionnel"
      case ExperienceArea => "Expérience professionnelle"
      case DescriptionsArea => "Descriptions d'expérience"
      case SkillsArea => "Compétences"
    }
  }

  datatype Area = Area(area: AreaName, priority: Priority)

  /** `exps.every(exp => exp.description && exp.description.length > 30)` */
  function AllDetailed(exps: seq<Experience>): (b: bool)
    ensures b <==> forall i :: 0 <= i < |exps| ==> LongerThan(exps[i].description, 30)
  {
    if exps == [] then true
    else
      LongerThan(exps[0].description, 30) &&
      (assert forall i :: 1 <= i < |exps| ==> exps[i] == exps[1..][i - 1];
       AllDetailed(exps[1..]))
  }

  /** The high-priority checks of `getPriorityAreas`: a short profile,
      then missing experiences */
  method HighPriorityAreas(d: CV) returns (r: seq<Area>)
    ensures |r| <= 2 && forall a :: a in r ==> a.priority == High
    ensures Area(ProfileArea, High) in r <==> ShorterThan(d.summary, 50)
    ensures Area(ExperienceArea, High) in r <==> !HasEntries(d.experiences)
    ensures forall a :: a in r ==> a == Area(ProfileArea, High) || a == Area(ExperienceArea, High)
    ensures forall i, j :: 0 <= i < j < |r| ==> r[i] != r[j]
  {
    r := [];
    if ShorterThan(d.summary, 50) {
      r := r + [Area(ProfileArea, High)];
    }
    if !HasEntries(d.experiences) {
      r := r + [Area(ExperienceArea, High)];
    }
  }

  /** The medium-priority checks of `getPriorityAreas`: thin descriptions
      when there are experiences, then few skills */
  method MediumPriorityAreas(d: CV) returns (r: seq<Area>)
    ensures |r| <= 2 && forall a :: a in r ==> a.priority == Medium
    ensures Area(DescriptionsArea, Medium) in r <==>
            HasEntries(d.experiences) && !AllDetailed(d.experiences.value)
    ensures Area(SkillsArea, Medium) in r <==> !AtLeast(d.skills, 3)
    ensures forall a :: a in r ==> a == Area(DescriptionsArea, Medium) || a == Area(SkillsArea, Medium)
    ensures forall i, j :: 0 <= i < j < |r| ==> r[i] != r[j]
  {
    r := [];
    if HasEntries(d.experiences) {
      var detailed := AllDetailed(d.experiences.value);
      if !detailed {
        r := r + [Area(DescriptionsArea, Medium)];
      }
    }
    if !AtLeast(d.skills, 3) {
      r := r + [Area(SkillsArea, Medium)];
    }
  }

  /** The areas to improve, the high-priority ones first; missing
      experiences and thin descriptions never occur together. */
  method GetPriorityAreas(d: CV) returns (r: seq<Area>)
    ensures |r| <= 3
    ensures Area(ProfileArea, High) in r <==> ShorterThan(d.summary, 50)
    ensures Area(ExperienceArea, High) in r <==> !HasEntries(d.experiences)
    ensures Area(DescriptionsArea, Medium) in r <==>
            HasEntries(d.experiences) && !AllDetailed(d.experiences.value)
    ensures Area(SkillsArea, Medium) in r <==> !AtLeast(d.skills, 3)
    ensures forall i, j :: 0 <= i < j < |r| ==> !(r[i].priority == Medium && r[j].priority == High)
    ensures forall i, j :: 0 <= i < j < |r| ==> r[i] != r[j]
    ensures forall a :: a in r ==>
      a == Area(ProfileArea, High) || a == Area(ExperienceArea, High)
      || a == Area(DescriptionsArea, Medium) || a == Area(SkillsArea, Medium)
  {
    var high := HighPriorityAreas(d);
    var medium := MediumPriorityAreas(d);
    r := high + medium;
    forall i | 0 <= i < |r|
      ensures i < |high| ==> r[i] == high[i] && r[i] in high
      ensures |high| <= i ==> r[i] == medium[i - |high|] && r[i] in medium
    {
    }
    if |high| == 2 {
      assert high[0] in high && high[1] in high;
      assert Area(ExperienceArea, High) in high;
    }
    if |medium| == 2 {
      assert medium[0] in medium && medium[1] in medium;
      assert Area(DescriptionsArea, Medium) in medium;
    }
  }

  // ---------------------------------------------------------------------
  // The endpoint (generateCV)

  const NoDataError := "Aucune donnée fournie pour la génération du CV"

  /** What the endpoint answers: the style asked for, the document, the
      suggestions, and the record as the template left it. */
  datatype Response = Response(style: string, cv: Document, suggestions: seq<Suggestion>, data: CV)

  ghost predicate ShapeOf(st: Style, d: CV, doc: Document) {
    match st
    case Simple => SimpleShape(d, doc)
    case Modern => ModernShape(d, doc)
    case Tech => TechShape(d, doc)
  }

  /** Rejects an absent or key-less record before rendering anything;
      otherwise dispatches on the style (anything unknown is simple) and
      draws the suggestions from the record the template left behind. */
  method GenerateCV(data: Option<CV>, style: string) returns (res: Result<Response>)
    ensures res.Err? <==> data.None? || |Keys(data.value)| == 0
    ensures res.Err? ==> res.error == NoDataError
    ensures res.Ok? ==>
      var st := StyleOf(style);
      res.value.style == style &&
      res.value.data == (if st == Tech then TechEnriched(data.value) else data.value) &&
      ShapeOf(st, res.value.data, res.value.cv) &&
      res.value.suggestions == Take(RuleSuggestions(res.value.data) + GenericTips, 5)
  {
    if data.None? || |Keys(data.value)| == 0 {
      return Err(NoDataError);
    }
    var d := data.value;
    var doc: Document;
    match StyleOf(style) {
      case Simple => doc := GenerateSimpleCV(d);
      case Modern => doc := GenerateModernCV(d);
      case Tech => doc, d := GenerateTechCV(d);
    }
    var suggestions := GenerateAISuggestions(d);
    res := Ok(Response(style, doc, suggestions, d));
  }

  /** Through the endpoint, a record is rejected exactly when it is `{}`
      or missing. */
  lemma RejectsExactlyEmpty(data: Option<CV>)
    ensures data.None? || |Keys(data.value)| == 0 <==> data.None? || data.value == Empty
  {
    if data.Some? { NoKeysIffEmpty(data.value); }
  }
}
