/** The application shell: the preview pane and the checks that come before
    a PDF export. */
module App {
  import opened CvRecord
  import opened CvDocument
  import Ai

  /** The headings of the preview */
  function PreviewHeading(t: Topic): string {
    match t
    case ProfileSection => "Profil professionnel"
    case ExperienceSection => "Expérience professionnelle"
    case EducationSection => "Formation"
    case SkillsSection => "Compétences"
  }

  const PreviewOrder := [ProfileSection, ExperienceSection, EducationSection, SkillsSection]

  /** The preview of a record: the placeholder header with every contact
      line present in the record, then profile, experience, education and
      skills, each left out when the record has nothing for it. */
  function GeneratePreviewCV(d: CV): (doc: Document)
    ensures doc.header == PlaceholderHeader(d)
    ensures doc.layout.OneColumn?
    ensures ShowsInOrder(d, doc.layout.sections, PreviewOrder)
    ensures forall s :: s in doc.layout.sections ==> s.Section? && s.heading == PreviewHeading(s.topic)
  {
    InOrder4(d, ProfileSection, PreviewHeading(ProfileSection), ExperienceSection, PreviewHeading(ExperienceSection),
             EducationSection, PreviewHeading(EducationSection), SkillsSection, PreviewHeading(SkillsSection));
    Document(PlaceholderHeader(d), OneColumn(
      SectionFor(d, ProfileSection, PreviewHeading(ProfileSection))
      + SectionFor(d, ExperienceSection, PreviewHeading(ExperienceSection))
      + SectionFor(d, EducationSection, PreviewHeading(EducationSection))
      + SectionFor(d, SkillsSection, PreviewHeading(SkillsSection))))
  }

  /** Section by section the same topic and body; the headings agree
      except on the profile. */
  predicate Retitled(p: seq<Section>, s: seq<Section>) {
    |p| == |s| &&
    forall i :: 0 <= i < |p| ==>
      p[i].Section? && s[i].Section? &&
      p[i].topic == s[i].topic && p[i].body == s[i].body &&
      (p[i].heading == s[i].heading <==> p[i].topic != ProfileSection)
  }

  lemma RetitledSection(d: CV, t: Topic)
    ensures Retitled(SectionFor(d, t, PreviewHeading(t)), SectionFor(d, t, Ai.LocalHeading(Simple, t)))
  {
    assert PreviewHeading(t) == Ai.LocalHeading(Simple, t) <==> t != ProfileSection;
  }

  lemma RetitledAppend(p1: seq<Section>, s1: seq<Section>, p2: seq<Section>, s2: seq<Section>)
    requires Retitled(p1, s1) && Retitled(p2, s2)
    ensures Retitled(p1 + p2, s1 + s2)
  {
    forall i | 0 <= i < |p1 + p2|
      ensures (p1 + p2)[i] == (if i < |p1| then p1[i] else p2[i - |p1|])
      ensures (s1 + s2)[i] == (if i < |s1| then s1[i] else s2[i - |s1|])
    {
    }
  }

  /** The preview is the simple local template under other headings: the
      same header, and section by section the same topic and the same
      body; only the profile's heading differs. */
  lemma PreviewIsSimpleRetitled(d: CV)
    ensures var p, s := GeneratePreviewCV(d), Ai.GenerateSimpleCV(d);
      p.header == s.header && |p.layout.sections| == |s.layout.sections| &&
      forall i :: 0 <= i < |p.layout.sections| ==>
        p.layout.sections[i].topic == s.layout.sections[i].topic &&
        p.layout.sections[i].body == s.layout.sections[i].body &&
        (p.layout.sections[i].heading == s.layout.sections[i].heading <==>
         p.layout.sections[i].topic != ProfileSection)
  {
    var pa, sa := SectionFor(d, ProfileSection, PreviewHeading(ProfileSection)),
                  SectionFor(d, ProfileSection, Ai.LocalHeading(Simple, ProfileSection));
    var pb, sb := SectionFor(d, ExperienceSection, PreviewHeading(ExperienceSection)),
                  SectionFor(d, ExperienceSection, Ai.LocalHeading(Simple, ExperienceSection));
    var pc, sc := SectionFor(d, EducationSection, PreviewHeading(EducationSection)),
                  SectionFor(d, EducationSection, Ai.LocalHeading(Simple, EducationSection));
    var pe, se := SectionFor(d, SkillsSection, PreviewHeading(SkillsSection)),
                  SectionFor(d, SkillsSection, Ai.LocalHeading(Simple, SkillsSection));
    RetitledSection(d, ProfileSection);
    RetitledSection(d, ExperienceSection);
    RetitledSection(d, EducationSection);
    RetitledSection(d, SkillsSection);
    RetitledAppend(pa, sa, pb, sb);
    RetitledAppend(pa + pb, sa + sb, pc, sc);
    RetitledAppend(pa + pb + pc, sa + sb + sc, pe, se);
    assert GeneratePreviewCV(d).layout.sections == pa + pb + pc + pe;
    assert Ai.GenerateSimpleCV(d).layout.sections == sa + sb + sc + se;
  }

  datatype Preview = NoData | Shown(doc: Document)

  /** `updatePreview`: the "no data" message exactly for the `{}` record,
      the preview of the record otherwise. */
  function UpdatePreview(d: CV): (p: Preview)
    ensures p.NoData? <==> d == Empty
    ensures p.Shown? ==> p.doc == GeneratePreviewCV(d)
  {
    NoKeysIffEmpty(d);
    if |Keys(d)| == 0 then NoData else Shown(GeneratePreviewCV(d))
  }

  /** What a click on the export button leads to */
  datatype ExportRequest =
    | ServiceMissing
    | NothingToExport
    | Export(proposed: string, fileName: string, styled: bool)

  const DefaultFileName := "mon-cv.pdf"

  /** The name offered in the prompt: "CV_", the full name (or "mon-cv"
      without one), ".pdf" */
  function ProposedFileName(d: CV): (n: string)
    ensures |n| >= 8 && n[..3] == "CV_" && n[|n| - 4..] == ".pdf"
    ensures Truthy(d.fullName) ==> n[3..|n| - 4] == d.fullName.value
    ensures !Truthy(d.fullName) ==> n == "CV_mon-cv.pdf"
  {
    "CV_" + TextOr(d.fullName, "mon-cv") + ".pdf"
  }

  /** `exportCVToPDF` up to the call into the PDF service. A missing service
      is reported first, then a record without keys; otherwise the user's
      answer to the prompt is the file name (a cancelled or empty answer
      gives the default name), and the answer to the confirmation picks
      the styled export or the capture of the preview. */
  function ExportCVToPDF(pdfLoaded: bool, d: CV, answer: Option<string>, styled: bool): (r: ExportRequest)
    ensures r == ServiceMissing <==> !pdfLoaded
    ensures r == NothingToExport <==> pdfLoaded && d == Empty
    ensures r.Export? ==>
      r.proposed == ProposedFileName(d) && r.styled == styled && r.fileName != [] &&
      r.fileName == (if Truthy(answer) then answer.value else DefaultFileName)
  {
    NoKeysIffEmpty(d);
    if !pdfLoaded then ServiceMissing
    else if |Keys(d)| == 0 then NothingToExport
    else Export(ProposedFileName(d), TextOr(answer, DefaultFileName), styled)
  }
}
