/** The classic module: the entry form, the collection of its repeated
    experience and education rows into a record, validation before saving,
    loading a stored record back into the form, and the row counters. */
module Classic {
  import opened JsText
  import opened CvRecord
  import Data

  /** The values of the form's inputs. The repeated rows are read the way
      the page reads them, as one list per input name, row i being the
      i-th element of each list. */
  datatype Form = Form(
    fullName: string, jobTitle: string, email: string, phone: string,
    address: string, summary: string, skills: string,
    expTitles: seq<string>, expCompanies: seq<string>,
    expPeriods: seq<string>, expDescriptions: seq<string>,
    eduDegrees: seq<string>, eduInstitutions: seq<string>, eduYears: seq<string>)

  /** Every row that has a title (a degree) also has the other inputs of
      its row, so that reading them by the same index succeeds. */
  predicate Aligned(f: Form) {
    |f.expCompanies| >= |f.expTitles| && |f.expPeriods| >= |f.expTitles|
    && |f.expDescriptions| >= |f.expTitles|
    && |f.eduInstitutions| >= |f.eduDegrees| && |f.eduYears| >= |f.eduDegrees|
  }

  /** The form as it is after a reset: blank inputs and one blank row of
      each kind. */
  const BlankForm := Form("", "", "", "", "", "", "", [""], [""], [""], [""], [""], [""], [""])

  /** The inputs of one column of rows after a load: one per entry, filled
      from it, or a single blank input when there is no entry */
  function Rows<T>(xs: seq<T>, cell: T -> string): (rs: seq<string>)
    ensures |rs| == if xs == [] then 1 else |xs|
  {
    if xs == [] then [""] else seq(|xs|, i requires 0 <= i < |xs| => cell(xs[i]))
  }

  /** Experience rows filled entry by entry are the loaded rows. */
  lemma RowsOfExperiences(exps: seq<Experience>, f: Form)
    requires exps == [] ==> f.expTitles == [""] && f.expCompanies == [""] && f.expPeriods == [""] && f.expDescriptions == [""]
    requires exps != [] ==>
      |f.expTitles| == |exps| && |f.expCompanies| == |exps| && |f.expPeriods| == |exps| && |f.expDescriptions| == |exps|
      && forall i :: 0 <= i < |exps| ==>
           f.expTitles[i] == TextOr(exps[i].title, "") && f.expCompanies[i] == TextOr(exps[i].company, "")
           && f.expPeriods[i] == TextOr(exps[i].period, "") && f.expDescriptions[i] == TextOr(exps[i].description, "")
    ensures f.expTitles == Rows(exps, (e: Experience) => TextOr(e.title, ""))
    ensures f.expCompanies == Rows(exps, (e: Experience) => TextOr(e.company, ""))
    ensures f.expPeriods == Rows(exps, (e: Experience) => TextOr(e.period, ""))
    ensures f.expDescriptions == Rows(exps, (e: Experience) => TextOr(e.description, ""))
  {
  }

  /** Education rows filled entry by entry are the loaded rows. */
  lemma RowsOfEducations(edus: seq<Education>, f: Form)
    requires edus == [] ==> f.eduDegrees == [""] && f.eduInstitutions == [""] && f.eduYears == [""]
    requires edus != [] ==>
      |f.eduDegrees| == |edus| && |f.eduInstitutions| == |edus| && |f.eduYears| == |edus|
      && forall i :: 0 <= i < |edus| ==>
           f.eduDegrees[i] == TextOr(edus[i].degree, "") && f.eduInstitutions[i] == TextOr(edus[i].institution, "")
           && f.eduYears[i] == TextOr(edus[i].year, "")
    ensures f.eduDegrees == Rows(edus, (e: Education) => TextOr(e.degree, ""))
    ensures f.eduInstitutions == Rows(edus, (e: Education) => TextOr(e.institution, ""))
    ensures f.eduYears == Rows(edus, (e: Education) => TextOr(e.year, ""))
  {
  }

  /** Which rows have a key input that is not blank once trimmed (a string
      trims to nothing exactly when it is all white space, by
      JsText.TrimEmptyIff) */
  function NonBlank(keys: seq<string>): (m: seq<bool>)
    ensures |m| == |keys|
    ensures forall i :: 0 <= i < |keys| ==> (m[i] <==> !AllWhitespace(keys[i]))
  {
    seq(|keys|, i requires 0 <= i < |keys| => !AllWhitespace(keys[i]))
  }

  /** The indices below n of the marked rows, in increasing order */
  function KeptIndices(keep: seq<bool>, n: nat): seq<nat>
    requires n <= |keep|
  {
    if n == 0 then []
    else KeptIndices(keep, n - 1) + (if keep[n - 1] then [n - 1] else [])
  }

  lemma {:induction false} KeptIndicesBelow(keep: seq<bool>, n: nat)
    requires n <= |keep|
    ensures forall j :: 0 <= j < |KeptIndices(keep, n)| ==> KeptIndices(keep, n)[j] < n
  {
    if n > 0 {
      KeptIndicesBelow(keep, n - 1);
    }
  }

  /** Kept rows keep their relative order. */
  lemma {:induction false} KeptIndicesIncreasing(keep: seq<bool>, n: nat)
    requires n <= |keep|
    ensures forall j, k :: 0 <= j < k < |KeptIndices(keep, n)| ==> KeptIndices(keep, n)[j] < KeptIndices(keep, n)[k]
  {
    if n > 0 {
      KeptIndicesIncreasing(keep, n - 1);
      KeptIndicesBelow(keep, n - 1);
    }
  }

  /** A row is kept exactly when it is marked. */
  lemma {:induction false} KeptIndicesExactly(keep: seq<bool>, n: nat)
    requires n <= |keep|
    ensures forall i :: 0 <= i < n ==> (i in KeptIndices(keep, n) <==> keep[i])
  {
    if n > 0 {
      KeptIndicesExactly(keep, n - 1);
      KeptIndicesBelow(keep, n - 1);
      var prev := KeptIndices(keep, n - 1);
      var last := if keep[n - 1] then [n - 1] else [];
      assert KeptIndices(keep, n) == prev + last;
      forall i | 0 <= i < n ensures i in prev + last <==> keep[i] {
        if i < n - 1 {
          assert i !in last;
        } else {
          assert i !in prev;
        }
      }
    }
  }

  function ExperienceAt(f: Form, i: nat): Experience
    requires Aligned(f) && i < |f.expTitles|
  {
    Experience(Some(f.expTitles[i]), Some(f.expCompanies[i]), Some(f.expPeriods[i]), Some(f.expDescriptions[i]))
  }

  function EducationAt(f: Form, i: nat): Education
    requires Aligned(f) && i < |f.eduDegrees|
  {
    Education(Some(f.eduDegrees[i]), Some(f.eduInstitutions[i]), Some(f.eduYears[i]))
  }

  /** The experiences a save collects from the first n rows: one per
      row with a title, taken from that row's inputs */
  function KeptExperiences(f: Form, n: nat): seq<Experience>
    requires Aligned(f) && n <= |f.expTitles|
  {
    if n == 0 then []
    else KeptExperiences(f, n - 1) + (if !AllWhitespace(f.expTitles[n - 1]) then [ExperienceAt(f, n - 1)] else [])
  }

  /** The educations a save collects from the first n rows */
  function KeptEducations(f: Form, n: nat): seq<Education>
    requires Aligned(f) && n <= |f.eduDegrees|
  {
    if n == 0 then []
    else KeptEducations(f, n - 1) + (if !AllWhitespace(f.eduDegrees[n - 1]) then [EducationAt(f, n - 1)] else [])
  }

  /** The record a save submits: the plain inputs as they are, the skills
      through the comma-list parser, and the kept rows. */
  function Submitted(f: Form): CV
    requires Aligned(f)
  {
    CV(Some(f.fullName), Some(f.jobTitle), Some(f.email), Some(f.phone), Some(f.address),
       Some(f.summary), Some(Data.FormatSkills(f.skills)),
       Some(KeptExperiences(f, |f.expTitles|)), Some(KeptEducations(f, |f.eduDegrees|)))
  }

  /** The loop over the experience rows */
  method CollectExperiences(f: Form) returns (exps: seq<Experience>)
    requires Aligned(f)
    ensures exps == KeptExperiences(f, |f.expTitles|)
  {
    exps := [];
    var i := 0;
    while i < |f.expTitles|
      invariant 0 <= i <= |f.expTitles|
      invariant exps == KeptExperiences(f, i)
    {
      if !AllWhitespace(f.expTitles[i]) {
        exps := exps + [ExperienceAt(f, i)];
      }
      i := i + 1;
    }
  }

  /** The loop over the education rows */
  method CollectEducations(f: Form) returns (edus: seq<Education>)
    requires Aligned(f)
    ensures edus == KeptEducations(f, |f.eduDegrees|)
  {
    edus := [];
    var i := 0;
    while i < |f.eduDegrees|
      invariant 0 <= i <= |f.eduDegrees|
      invariant edus == KeptEducations(f, i)
    {
      if !AllWhitespace(f.eduDegrees[i]) {
        edus := edus + [EducationAt(f, i)];
      }
      i := i + 1;
    }
  }

  /** The j-th collected experience is the row of the j-th kept index. */
  lemma {:induction false} ExperiencesFromKeptRows(f: Form, n: nat)
    requires Aligned(f) && n <= |f.expTitles|
    ensures var ix, r := KeptIndices(NonBlank(f.expTitles), n), KeptExperiences(f, n);
      |r| == |ix| && forall j :: 0 <= j < |r| ==> ix[j] < n && r[j] == ExperienceAt(f, ix[j])
  {
    if n > 0 {
      ExperiencesFromKeptRows(f, n - 1);
      assert NonBlank(f.expTitles)[n - 1] <==> !AllWhitespace(f.expTitles[n - 1]);
    }
  }

  /** The j-th collected education is the row of the j-th kept index. */
  lemma {:induction false} EducationsFromKeptRows(f: Form, n: nat)
    requires Aligned(f) && n <= |f.eduDegrees|
    ensures var ix, r := KeptIndices(NonBlank(f.eduDegrees), n), KeptEducations(f, n);
      |r| == |ix| && forall j :: 0 <= j < |r| ==> ix[j] < n && r[j] == EducationAt(f, ix[j])
  {
    if n > 0 {
      EducationsFromKeptRows(f, n - 1);
      assert NonBlank(f.eduDegrees)[n - 1] <==> !AllWhitespace(f.eduDegrees[n - 1]);
    }
  }

  /** Each collected experience comes from a row with a non-blank title,
      with the company, period and description of that same row; every such
      row is collected; the rows keep their order. */
  lemma KeptExperiencesSpec(f: Form)
    requires Aligned(f)
    ensures var ix, r := KeptIndices(NonBlank(f.expTitles), |f.expTitles|), KeptExperiences(f, |f.expTitles|);
      |r| == |ix| &&
      (forall j :: 0 <= j < |r| ==> ix[j] < |f.expTitles| && r[j] == ExperienceAt(f, ix[j])) &&
      (forall j, k :: 0 <= j < k < |ix| ==> ix[j] < ix[k]) &&
      (forall i :: 0 <= i < |f.expTitles| ==> (i in ix <==> Trim(f.expTitles[i]) != []))
  {
    var keep := NonBlank(f.expTitles);
    ExperiencesFromKeptRows(f, |f.expTitles|);
    KeptIndicesIncreasing(keep, |f.expTitles|);
    KeptIndicesExactly(keep, |f.expTitles|);
    forall i | 0 <= i < |f.expTitles| ensures keep[i] <==> Trim(f.expTitles[i]) != [] {
      TrimEmptyIff(f.expTitles[i]);
    }
  }

  /** The same for educations, keyed on the degree */
  lemma KeptEducationsSpec(f: Form)
    requires Aligned(f)
    ensures var ix, r := KeptIndices(NonBlank(f.eduDegrees), |f.eduDegrees|), KeptEducations(f, |f.eduDegrees|);
      |r| == |ix| &&
      (forall j :: 0 <= j < |r| ==> ix[j] < |f.eduDegrees| && r[j] == EducationAt(f, ix[j])) &&
      (forall j, k :: 0 <= j < k < |ix| ==> ix[j] < ix[k]) &&
      (forall i :: 0 <= i < |f.eduDegrees| ==> (i in ix <==> Trim(f.eduDegrees[i]) != []))
  {
    var keep := NonBlank(f.eduDegrees);
    EducationsFromKeptRows(f, |f.eduDegrees|);
    KeptIndicesIncreasing(keep, |f.eduDegrees|);
    KeptIndicesExactly(keep, |f.eduDegrees|);
    forall i | 0 <= i < |f.eduDegrees| ensures keep[i] <==> Trim(f.eduDegrees[i]) != [] {
      TrimEmptyIff(f.eduDegrees[i]);
    }
  }

  datatype SaveOutcome = Rejected(errors: seq<Data.ValidationError>) | Saved(record: CV)

  class ClassicModule {
    const dataService: Data.DataService
    var experienceCount: nat
    var educationCount: nat
    /** the entry form on the page */
    var form: Form
    /** the records carried by the `cvDataUpdated` events sent so far */
    var updates: seq<CV>

    constructor (dataService: Data.DataService, form: Form)
      ensures this.dataService == dataService && this.form == form
      ensures experienceCount == 1 && educationCount == 1 && updates == []
    {
      this.dataService := dataService;
      this.form := form;
      experienceCount := 1;
      educationCount := 1;
      updates := [];
    }

    /** Appends a blank experience row and counts it. */
    method AddExperienceField()
      modifies this`experienceCount, this`form
      ensures experienceCount == old(experienceCount) + 1
      ensures form == old(form).(expTitles := old(form).expTitles + [""],
                                 expCompanies := old(form).expCompanies + [""],
                                 expPeriods := old(form).expPeriods + [""],
                                 expDescriptions := old(form).expDescriptions + [""])
      ensures Aligned(old(form)) ==> Aligned(form)
    {
      experienceCount := experienceCount + 1;
      form := form.(expTitles := form.expTitles + [""], expCompanies := form.expCompanies + [""],
                    expPeriods := form.expPeriods + [""], expDescriptions := form.expDescriptions + [""]);
    }

    /** Appends a blank education row and counts it. */
    method AddEducationField()
      modifies this`educationCount, this`form
      ensures educationCount == old(educationCount) + 1
      ensures form == old(form).(eduDegrees := old(form).eduDegrees + [""],
                                 eduInstitutions := old(form).eduInstitutions + [""],
                                 eduYears := old(form).eduYears + [""])
      ensures Aligned(old(form)) ==> Aligned(form)
    {
      educationCount := educationCount + 1;
      form := form.(eduDegrees := form.eduDegrees + [""], eduInstitutions := form.eduInstitutions + [""],
                    eduYears := form.eduYears + [""]);
    }

    /** Collects the form into a record and validates it. A rejected record
        is neither saved nor announced; an accepted one is saved first and
        then announced with the record as saved. */
    method SaveFormData() returns (outcome: SaveOutcome)
      requires Aligned(form)
      modifies dataService`cvData, dataService`storage, this`updates
      ensures outcome.Rejected? <==> !Data.Passes(Submitted(form))
      ensures outcome.Rejected? ==>
        outcome.errors != [] &&
        dataService.cvData == old(dataService.cvData) && dataService.storage == old(dataService.storage) &&
        updates == old(updates)
      ensures outcome.Saved? ==>
        outcome.record == Data.Normalize(Submitted(form)) && dataService.cvData == outcome.record &&
        dataService.storage == Some(outcome.record) && updates == old(updates) + [outcome.record]
    {
      var exps := CollectExperiences(form);
      var edus := CollectEducations(form);
      var formData := CV(Some(form.fullName), Some(form.jobTitle), Some(form.email), Some(form.phone),
                         Some(form.address), Some(form.summary), Some(Data.FormatSkills(form.skills)),
                         Some(exps), Some(edus));
      var validation := dataService.ValidateData(formData);
      assert formData == Submitted(form);
      if !validation.isValid {
        return Rejected(validation.errors);
      }
      var saved := dataService.SaveFormData(formData);
      updates := updates + [dataService.GetCurrentData()];
      outcome := Saved(saved);
    }

    /** Rebuilds the experience rows from a loaded list: one row per entry
        with its missing fields blank, the counter ending at the number of
        entries; no entry gives one blank row and a counter of 1. */
    method LoadExperiences(exps: seq<Experience>)
      modifies this`experienceCount, this`form
      ensures experienceCount == if |exps| > 0 then |exps| else 1
      ensures form.fullName == old(form.fullName) && form.skills == old(form.skills)
      ensures form.eduDegrees == old(form.eduDegrees) && form.eduInstitutions == old(form.eduInstitutions)
              && form.eduYears == old(form.eduYears)
      ensures form.(expTitles := [], expCompanies := [], expPeriods := [], expDescriptions := [])
              == old(form).(expTitles := [], expCompanies := [], expPeriods := [], expDescriptions := [])
      ensures exps == [] ==> form.expTitles == [""] && form.expCompanies == [""]
                             && form.expPeriods == [""] && form.expDescriptions == [""]
      ensures exps != [] ==>
        |form.expTitles| == |exps| && |form.expCompanies| == |exps|
        && |form.expPeriods| == |exps| && |form.expDescriptions| == |exps|
        && forall i :: 0 <= i < |exps| ==>
             form.expTitles[i] == TextOr(exps[i].title, "") && form.expCompanies[i] == TextOr(exps[i].company, "")
             && form.expPeriods[i] == TextOr(exps[i].period, "")
             && form.expDescriptions[i] == TextOr(exps[i].description, "")
    {
      if |exps| > 0 {
        var titles, companies, periods, descriptions := [], [], [], [];
        var i := 0;
        while i < |exps|
          invariant 0 <= i <= |exps|
          invariant i > 0 ==> experienceCount == i
          invariant |titles| == i && |companies| == i && |periods| == i && |descriptions| == i
          invariant forall j :: 0 <= j < i ==>
            titles[j] == TextOr(exps[j].title, "") && companies[j] == TextOr(exps[j].company, "")
            && periods[j] == TextOr(exps[j].period, "") && descriptions[j] == TextOr(exps[j].description, "")
          invariant form == old(form)
        {
          experienceCount := i + 1;
          titles := titles + [TextOr(exps[i].title, "")];
          companies := companies + [TextOr(exps[i].company, "")];
          periods := periods + [TextOr(exps[i].period, "")];
          descriptions := descriptions + [TextOr(exps[i].description, "")];
          i := i + 1;
        }
        form := form.(expTitles := titles, expCompanies := companies,
                      expPeriods := periods, expDescriptions := descriptions);
      } else {
        experienceCount := 1;
        form := form.(expTitles := [""], expCompanies := [""], expPeriods := [""], expDescriptions := [""]);
      }
    }

    /** Rebuilds the education rows from a loaded list, as LoadExperiences
        does for experiences. */
    method LoadEducations(edus: seq<Education>)
      modifies this`educationCount, this`form
      ensures educationCount == if |edus| > 0 then |edus| else 1
      ensures form.(eduDegrees := [], eduInstitutions := [], eduYears := [])
              == old(form).(eduDegrees := [], eduInstitutions := [], eduYears := [])
      ensures edus == [] ==> form.eduDegrees == [""] && form.eduInstitutions == [""] && form.eduYears == [""]
      ensures edus != [] ==>
        |form.eduDegrees| == |edus| && |form.eduInstitutions| == |edus| && |form.eduYears| == |edus|
        && forall i :: 0 <= i < |edus| ==>
             form.eduDegrees[i] == TextOr(edus[i].degree, "")
             && form.eduInstitutions[i] == TextOr(edus[i].institution, "")
             && form.eduYears[i] == TextOr(edus[i].year, "")
    {
      if |edus| > 0 {
        var degrees, institutions, years := [], [], [];
        var i := 0;
        while i < |edus|
          invariant 0 <= i <= |edus|
          invariant i > 0 ==> educationCount == i
          invariant |degrees| == i && |institutions| == i && |years| == i
          invariant forall j :: 0 <= j < i ==>
            degrees[j] == TextOr(edus[j].degree, "") && institutions[j] == TextOr(edus[j].institution, "")
            && years[j] == TextOr(edus[j].year, "")
          invariant form == old(form)
        {
          educationCount := i + 1;
          degrees := degrees + [TextOr(edus[i].degree, "")];
          institutions := institutions + [TextOr(edus[i].institution, "")];
          years := years + [TextOr(edus[i].year, "")];
          i := i + 1;
        }
        form := form.(eduDegrees := degrees, eduInstitutions := institutions, eduYears := years);
      } else {
        educationCount := 1;
        form := form.(eduDegrees := [""], eduInstitutions := [""], eduYears := [""]);
      }
    }

    /** Fills the form from the stored record, if there is one, and says
        whether there was. The skills are written as one comma-separated
        text, which a later save parses back into the same list when every
        skill is non-empty, trimmed and free of commas. */
    method LoadData() returns (loaded: bool)
      modifies dataService`cvData, this`form, this`experienceCount, this`educationCount
      ensures loaded <==> old(dataService.storage).Some?
      ensures dataService.cvData == if loaded then old(dataService.storage).value else old(dataService.cvData)
      ensures !loaded ==> form == old(form) && experienceCount == old(experienceCount)
                          && educationCount == old(educationCount)
      ensures loaded ==>
        var d := old(dataService.storage).value;
        form.fullName == TextOr(d.fullName, "") && form.jobTitle == TextOr(d.jobTitle, "")
        && form.email == TextOr(d.email, "") && form.phone == TextOr(d.phone, "")
        && form.address == TextOr(d.address, "") && form.summary == TextOr(d.summary, "")
        && form.skills == (if d.skills.Some? then Join(d.skills.value, ", ") else "")
        && experienceCount == (if |d.experiences.GetOr([])| > 0 then |d.experiences.GetOr([])| else 1)
        && educationCount == (if |d.educations.GetOr([])| > 0 then |d.educations.GetOr([])| else 1)
      ensures loaded ==>
        var exps := old(dataService.storage).value.experiences.GetOr([]);
        form.expTitles == Rows(exps, (e: Experience) => TextOr(e.title, ""))
        && form.expCompanies == Rows(exps, (e: Experience) => TextOr(e.company, ""))
        && form.expPeriods == Rows(exps, (e: Experience) => TextOr(e.period, ""))
        && form.expDescriptions == Rows(exps, (e: Experience) => TextOr(e.description, ""))
      ensures loaded ==>
        var edus := old(dataService.storage).value.educations.GetOr([]);
        form.eduDegrees == Rows(edus, (e: Education) => TextOr(e.degree, ""))
        && form.eduInstitutions == Rows(edus, (e: Education) => TextOr(e.institution, ""))
        && form.eduYears == Rows(edus, (e: Education) => TextOr(e.year, ""))
      ensures loaded && old(dataService.storage).value.skills.Some? &&
              (forall i :: 0 <= i < |old(dataService.storage).value.skills.value| ==>
                 Data.SkillName(old(dataService.storage).value.skills.value[i])) ==>
        Data.FormatSkills(form.skills) == old(dataService.storage).value.skills.value
    {
      var data := dataService.LoadFromLocalStorage();
      if data.None? {
        return false;
      }
      var d := data.value;
      form := form.(fullName := TextOr(d.fullName, ""), jobTitle := TextOr(d.jobTitle, ""),
                    email := TextOr(d.email, ""), phone := TextOr(d.phone, ""),
                    address := TextOr(d.address, ""), summary := TextOr(d.summary, ""),
                    skills := if d.skills.Some? then Join(d.skills.value, ", ") else "");
      ghost var xs := d.skills.GetOr([]);
      assert (forall i :: 0 <= i < |xs| ==> Data.SkillName(xs[i])) ==> Data.FormatSkills(Join(xs, ", ")) == xs by {
        if forall i :: 0 <= i < |xs| ==> Data.SkillName(xs[i]) {
          Data.FormatSkillsOfJoin(xs);
        }
      }
      ghost var filled := form;
      LoadExperiences(d.experiences.GetOr([]));
      ghost var withExperiences := form;
      LoadEducations(d.educations.GetOr([]));
      assert form.skills == filled.skills;
      assert form.expTitles == withExperiences.expTitles && form.expCompanies == withExperiences.expCompanies;
      assert form.expPeriods == withExperiences.expPeriods && form.expDescriptions == withExperiences.expDescriptions;
      RowsOfExperiences(d.experiences.GetOr([]), form);
      RowsOfEducations(d.educations.GetOr([]), form);
      loaded := true;
    }

    /** On confirmation: empties the store, resets the form to one blank row
        of each kind with both counters at 1, and announces the `{}`
        record. Declining changes nothing. */
    method ClearAllData(confirmed: bool)
      modifies dataService, this`form, this`experienceCount, this`educationCount, this`updates
      ensures !confirmed ==>
        form == old(form) && experienceCount == old(experienceCount) && educationCount == old(educationCount)
        && updates == old(updates) && dataService.cvData == old(dataService.cvData)
        && dataService.storage == old(dataService.storage)
      ensures confirmed ==>
        form == BlankForm && experienceCount == 1 && educationCount == 1
        && dataService.cvData == Empty && dataService.storage == None
        && dataService.experienceCount == 1 && dataService.educationCount == 1
        && updates == old(updates) + [Empty]
    {
      if confirmed {
        dataService.ClearAllData();
        form := BlankForm;
        experienceCount := 1;
        educationCount := 1;
        updates := updates + [dataService.GetCurrentData()];
      }
    }
  }
}
