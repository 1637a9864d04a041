/** The AI module: the three local templates, the style switch that picks
    one of them, and the way a generation request goes to the mock API when
    it is loaded and falls back to the local templates otherwise or when the
    API call fails. */
module Ai {
  import opened CvRecord
  import opened CvDocument
  import Data
  import MockApi

  /** The section headings of each local template */
  function LocalHeading(st: Style, t: Topic): string {
    match st
    case Simple => (match t
      case ProfileSection => "Profil"
      case ExperienceSection => "Expérience professionnelle"
      case EducationSection => "Formation"
      case SkillsSection => "Compétences")
    case Modern => (match t
      case ProfileSection => "Profil professionnel"
      case ExperienceSection => "Expérience"
      case EducationSection => "Formation"
      case SkillsSection => "Compétences")
    case Tech => (match t
      case ProfileSection => "Profil"
      case ExperienceSection => "Expérience professionnelle"
      case EducationSection => "Formation"
      case SkillsSection => "Compétences techniques")
  }

  /** Every section carries its style's heading for its topic. */
  predicate Headed(st: Style, ss: seq<Section>) {
    forall s :: s in ss ==> s.Section? && s.heading == LocalHeading(st, s.topic)
  }

  /** Four sections of one style, one after the other, all carry that
      style's headings. */
  lemma Headed4(st: Style, d: CV, a: Topic, b: Topic, c: Topic, e: Topic)
    ensures Headed(st, SectionFor(d, a, LocalHeading(st, a)) + SectionFor(d, b, LocalHeading(st, b))
                       + SectionFor(d, c, LocalHeading(st, c)) + SectionFor(d, e, LocalHeading(st, e)))
  {
    var sa, sb := SectionFor(d, a, LocalHeading(st, a)), SectionFor(d, b, LocalHeading(st, b));
    var sc, se := SectionFor(d, c, LocalHeading(st, c)), SectionFor(d, e, LocalHeading(st, e));
    HeadedAppend(st, sa, sb);
    HeadedAppend(st, sa + sb, sc);
    HeadedAppend(st, sa + sb + sc, se);
  }

  lemma HeadedAppend(st: Style, a: seq<Section>, b: seq<Section>)
    requires Headed(st, a) && Headed(st, b)
    ensures Headed(st, a + b)
  {
    assert forall s :: s in a + b ==> s in a || s in b;
  }

  const SimpleOrder := [ProfileSection, ExperienceSection, EducationSection, SkillsSection]
  const ModernMain := [ProfileSection, ExperienceSection]
  const ModernSide := [SkillsSection, EducationSection]
  const TechOrder := [SkillsSection, ExperienceSection, ProfileSection, EducationSection]

  /** The simple template: the placeholder header with every contact line,
      then profile, experience, education and skills, each left out when
      the record has nothing for it. */
  function GenerateSimpleCV(d: CV): (doc: Document)
    ensures doc.header == PlaceholderHeader(d)
    ensures doc.layout.OneColumn?
    ensures ShowsInOrder(d, doc.layout.sections, SimpleOrder)
    ensures Headed(Simple, doc.layout.sections)
  {
    var h := (t: Topic) => LocalHeading(Simple, t);
    InOrder4(d, ProfileSection, h(ProfileSection), ExperienceSection, h(ExperienceSection),
             EducationSection, h(EducationSection), SkillsSection, h(SkillsSection));
    Headed4(Simple, d, ProfileSection, ExperienceSection, EducationSection, SkillsSection);
    Document(PlaceholderHeader(d), OneColumn(
      SectionFor(d, ProfileSection, h(ProfileSection))
      + SectionFor(d, ExperienceSection, h(ExperienceSection))
      + SectionFor(d, EducationSection, h(EducationSection))
      + SectionFor(d, SkillsSection, h(SkillsSection))))
  }

  /** The modern template: the same header, profile then experience in the
      main column, skills then education in the side column. */
  function GenerateModernCV(d: CV): (doc: Document)
    ensures doc.header == PlaceholderHeader(d)
    ensures doc.layout.TwoColumns?
    ensures ShowsInOrder(d, doc.layout.main, ModernMain)
    ensures ShowsInOrder(d, doc.layout.side, ModernSide)
    ensures Headed(Modern, doc.layout.main) && Headed(Modern, doc.layout.side)
  {
    var h := (t: Topic) => LocalHeading(Modern, t);
    InOrder2(d, ProfileSection, h(ProfileSection), ExperienceSection, h(ExperienceSection));
    InOrder2(d, SkillsSection, h(SkillsSection), EducationSection, h(EducationSection));
    Document(PlaceholderHeader(d), TwoColumns(
      SectionFor(d, ProfileSection, h(ProfileSection)) + SectionFor(d, ExperienceSection, h(ExperienceSection)),
      SectionFor(d, SkillsSection, h(SkillsSection)) + SectionFor(d, EducationSection, h(EducationSection))))
  }

  const DefaultTechSkills := ["JavaScript", "HTML/CSS", "React", "Node.js", "Git", "Agile/Scrum"]

  /** What the technical template does to the record it is given before
      rendering: a missing or empty skills list becomes the six default
      skills; every other key, and a non-empty list, is left alone. */
  function TechFallback(d: CV): (r: CV)
    ensures HasEntries(r.skills)
    ensures forall k :: k != Skills ==> Lookup(r, k) == Lookup(d, k)
    ensures HasEntries(d.skills) ==> r.skills == d.skills
    ensures !HasEntries(d.skills) ==> r.skills == Some(DefaultTechSkills)
  {
    if HasEntries(d.skills) then d else d.(skills := Some(DefaultTechSkills))
  }

  /** Applying the fallback a second time changes nothing. */
  lemma TechFallbackIdempotent(d: CV)
    ensures TechFallback(TechFallback(d)) == TechFallback(d)
  {
  }

  /** The technical template, drawn from the record after the fallback:
      the skills section always comes first, then experience, profile and
      education, each left out when empty. */
  function GenerateTechCV(d: CV): (doc: Document)
    ensures doc.header == PlaceholderHeader(d)
    ensures doc.layout.OneColumn?
    ensures ShowsInOrder(TechFallback(d), doc.layout.sections, TechOrder)
    ensures Headed(Tech, doc.layout.sections)
    ensures doc.layout.sections != [] && doc.layout.sections[0].Section?
            && doc.layout.sections[0].topic == SkillsSection
  {
    var e := TechFallback(d);
    var h := (t: Topic) => LocalHeading(Tech, t);
    InOrder4(e, SkillsSection, h(SkillsSection), ExperienceSection, h(ExperienceSection),
             ProfileSection, h(ProfileSection), EducationSection, h(EducationSection));
    Headed4(Tech, e, SkillsSection, ExperienceSection, ProfileSection, EducationSection);
    assert PlaceholderHeader(e) == PlaceholderHeader(d);
    var first := SectionFor(e, SkillsSection, h(SkillsSection));
    assert first == [Section(SkillsSection, h(SkillsSection), BodyFor(e, SkillsSection))];
    Document(PlaceholderHeader(e), OneColumn(
      first
      + SectionFor(e, ExperienceSection, h(ExperienceSection))
      + SectionFor(e, ProfileSection, h(ProfileSection))
      + SectionFor(e, EducationSection, h(EducationSection))))
  }

  /** `generateCVLocally`'s switch: "modern" and "tech" pick their
      template, every other type the simple one. */
  function LocalTemplate(st: Style, d: CV): Document {
    match st
    case Simple => GenerateSimpleCV(d)
    case Modern => GenerateModernCV(d)
    case Tech => GenerateTechCV(d)
  }

  /** The record as the chosen template leaves it */
  function LocalData(st: Style, d: CV): CV {
    if st == Tech then TechFallback(d) else d
  }

  /** The topics a document shows, over both columns */
  function DocTopics(doc: Document): seq<Topic> {
    match doc.layout
    case OneColumn(ss) => Topics(ss)
    case TwoColumns(m, s) => Topics(m) + Topics(s)
  }

  /** Whatever the style, a local template shows a topic exactly when the
      record it leaves behind has data for it, and shows the record's name,
      title and contact lines (or the placeholders) in its header. */
  lemma LocalTemplatesAgree(st: Style, d: CV)
    ensures LocalTemplate(st, d).header == PlaceholderHeader(d)
    ensures forall t :: t in DocTopics(LocalTemplate(st, d)) <==> HasData(LocalData(st, d), t)
  {
    var e := LocalData(st, d);
    match st {
      case Simple => PresentInMembers(e, SimpleOrder);
      case Modern =>
        PresentInMembers(e, ModernMain);
        PresentInMembers(e, ModernSide);
      case Tech => PresentInMembers(e, TechOrder);
    }
    forall t: Topic ensures t in SimpleOrder && t in TechOrder && (t in ModernMain || t in ModernSide) {
      match t
      case ProfileSection => case ExperienceSection => case EducationSection => case SkillsSection =>
    }
  }

  /** How a generation request ended */
  datatype Outcome =
    | Cancelled
    | Generated(doc: Document, viaFallback: bool)

  class AIModule {
    const dataService: Data.DataService
    /** whether `window.MockAIApi.generateCV` is loaded */
    const apiPresent: bool

    constructor (dataService: Data.DataService, apiPresent: bool)
      ensures this.dataService == dataService && this.apiPresent == apiPresent
    {
      this.dataService := dataService;
      this.apiPresent := apiPresent;
    }

    /** Renders the given record, or the store's own record when none is
        given. The technical template's fallback is written into that
        record: into the store's when it is the store's record. */
    method GenerateCVLocally(kind: string, customData: Option<CV>) returns (doc: Document, used: CV)
      modifies dataService`cvData
      ensures var data := if customData.Some? then customData.value else old(dataService.cvData);
              doc == LocalTemplate(StyleOf(kind), data) && used == LocalData(StyleOf(kind), data)
      ensures dataService.cvData == if customData.Some? then old(dataService.cvData) else used
    {
      var data := if customData.Some? then customData.value else dataService.GetCurrentData();
      doc := LocalTemplate(StyleOf(kind), data);
      used := LocalData(StyleOf(kind), data);
      if customData.None? {
        dataService.cvData := used;
      }
    }

    /** Renders the store's record through the mock API when it is loaded,
        locally otherwise. Both render the store's own record object, so
        the technical template's change to the skills lands in the store
        (but is not persisted). An error is the API's rejection of a
        key-less record. */
    method CallMockAIApi(kind: string) returns (res: Result<Document>)
      modifies dataService`cvData
      ensures var st, d := StyleOf(kind), old(dataService.cvData);
        if apiPresent then
          (res.Err? <==> |Keys(d)| == 0) &&
          (res.Err? ==> res.error == MockApi.NoDataError && dataService.cvData == d) &&
          (res.Ok? ==> dataService.cvData == (if st == Tech then MockApi.TechEnriched(d) else d)
                       && MockApi.ShapeOf(st, dataService.cvData, res.value))
        else
          res == Ok(LocalTemplate(st, d)) && dataService.cvData == LocalData(st, d)
    {
      var data := dataService.GetCurrentData();
      if apiPresent {
        var result := MockApi.GenerateCV(Some(data), kind);
        if result.Err? {
          res := Err(result.error);
        } else {
          dataService.cvData := result.value.data;
          res := Ok(result.value.cv);
        }
      } else {
        var doc, used := GenerateCVLocally(kind, Some(data));
        dataService.cvData := used;
        res := Ok(doc);
      }
    }

    /** The request with its error handling: a failed API call is answered
        by the local template of the same type, over the store's record. */
    method GenerateWithFallback(kind: string) returns (doc: Document, viaFallback: bool)
      modifies dataService`cvData
      ensures var st, d := StyleOf(kind), old(dataService.cvData);
        (viaFallback <==> apiPresent && |Keys(d)| == 0) &&
        (viaFallback ==> doc == LocalTemplate(st, d) && dataService.cvData == LocalData(st, d)) &&
        (!apiPresent ==> doc == LocalTemplate(st, d) && dataService.cvData == LocalData(st, d)) &&
        (apiPresent && !viaFallback ==>
           dataService.cvData == (if st == Tech then MockApi.TechEnriched(d) else d)
           && MockApi.ShapeOf(st, dataService.cvData, doc))
    {
      var res := CallMockAIApi(kind);
      if res.Ok? {
        doc := res.value;
        viaFallback := false;
      } else {
        var used;
        doc, used := GenerateCVLocally(kind, None);
        viaFallback := true;
      }
    }

    /** `generateCV`: a key-less store either cancels (the user declines the
        demonstration data) or is first filled with the demonstration
        record; then the request goes out. Since the store then always has
        keys, the mock API never rejects it and the local fallback is never
        taken. */
    method GenerateCV(kind: string, confirmDemo: bool) returns (outcome: Outcome)
      modifies dataService`cvData, dataService`storage
      ensures var empty := |Keys(old(dataService.cvData))| == 0;
        outcome.Cancelled? <==> empty && !confirmDemo
      ensures outcome.Cancelled? ==>
        dataService.cvData == old(dataService.cvData) && dataService.storage == old(dataService.storage)
      ensures outcome.Generated? ==>
        var empty := |Keys(old(dataService.cvData))| == 0;
        var base := if empty then Data.Demo else old(dataService.cvData);
        var st := StyleOf(kind);
        !outcome.viaFallback &&
        dataService.storage == (if empty then Some(Data.Demo) else old(dataService.storage)) &&
        (!apiPresent ==> outcome.doc == LocalTemplate(st, base) && dataService.cvData == LocalData(st, base)) &&
        (apiPresent ==>
           dataService.cvData == (if st == Tech then MockApi.TechEnriched(base) else base)
           && MockApi.ShapeOf(st, dataService.cvData, outcome.doc))
    {
      if |Keys(dataService.cvData)| == 0 {
        if !confirmDemo {
          return Cancelled;
        }
        var _ := dataService.GenerateDemoData();
        assert Lookup(dataService.cvData, FullName).Some?;
      }
      var doc, viaFallback := GenerateWithFallback(kind);
      outcome := Generated(doc, viaFallback);
    }
  }
}
