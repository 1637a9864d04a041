/** The record store of the application (data-service.js): one mutable
    record, two form counters and the persisted `cvData` slot, with the
    validator, the e-mail check and the skills parser beside it. */
module Data {
  import opened JsText
  import opened CvRecord

  // ---------------------------------------------------------------------
  // Filling in defaults (saveFormData)

  /** The record `saveFormData` stores: every key present, an absent or
      empty string becoming `''` and an absent list becoming `[]` (a present
      list, even an empty one, is truthy and kept). */
  function Normalize(f: CV): (r: CV)
    ensures Keys(r) == AllKeys
    ensures r.fullName == Some(TextOr(f.fullName, ""))
    ensures r.jobTitle == Some(TextOr(f.jobTitle, ""))
    ensures r.email == Some(TextOr(f.email, ""))
    ensures r.phone == Some(TextOr(f.phone, ""))
    ensures r.address == Some(TextOr(f.address, ""))
    ensures r.summary == Some(TextOr(f.summary, ""))
    ensures r.skills == Some(f.skills.GetOr([]))
    ensures r.experiences == Some(f.experiences.GetOr([]))
    ensures r.educations == Some(f.educations.GetOr([]))
  {
    var r := CV(Some(TextOr(f.fullName, "")), Some(TextOr(f.jobTitle, "")),
                Some(TextOr(f.email, "")), Some(TextOr(f.phone, "")),
                Some(TextOr(f.address, "")), Some(TextOr(f.summary, "")),
                Some(f.skills.GetOr([])), Some(f.experiences.GetOr([])),
                Some(f.educations.GetOr([])));
    forall k: Key ensures k in AllKeys { EveryKeyListed(k); }
    r
  }

  /** Every value a record holds survives normalisation unless it is an
      empty string, which is stored as `''`. */
  lemma NormalizeKeepsData(f: CV, k: Key)
    requires Lookup(f, k).Some? && Lookup(f, k) != Some(Text([]))
    ensures Lookup(Normalize(f), k) == Lookup(f, k)
  {
  }

  /** Saving what was just saved changes nothing. */
  lemma NormalizeIdempotent(f: CV)
    ensures Normalize(Normalize(f)) == Normalize(f)
  {
  }

  // ---------------------------------------------------------------------
  // Shallow merge (updateData)

  function Either<T>(b: Option<T>, a: Option<T>): Option<T> {
    if b.Some? then b else a
  }

  /** `{ ...a, ...b }`: each key of `b` overwrites, every other key keeps
      its value in `a`; a list in `b` replaces the one in `a` outright. */
  function Merge(a: CV, b: CV): (r: CV)
    ensures forall k :: Lookup(r, k) == if Lookup(b, k).Some? then Lookup(b, k) else Lookup(a, k)
  {
    CV(Either(b.fullName, a.fullName), Either(b.jobTitle, a.jobTitle),
       Either(b.email, a.email), Either(b.phone, a.phone),
       Either(b.address, a.address), Either(b.summary, a.summary),
       Either(b.skills, a.skills), Either(b.experiences, a.experiences),
       Either(b.educations, a.educations))
  }

  /** Two records that agree on every key are the same record. */
  lemma LookupDetermines(r: CV, s: CV)
    requires forall k :: Lookup(r, k) == Lookup(s, k)
    ensures r == s
  {
    assert Lookup(r, FullName) == Lookup(s, FullName);
    assert Lookup(r, JobTitle) == Lookup(s, JobTitle);
    assert Lookup(r, Email) == Lookup(s, Email);
    assert Lookup(r, Phone) == Lookup(s, Phone);
    assert Lookup(r, Address) == Lookup(s, Address);
    assert Lookup(r, Summary) == Lookup(s, Summary);
    assert Lookup(r, Skills) == Lookup(s, Skills);
    assert Lookup(r, Experiences) == Lookup(s, Experiences);
    assert Lookup(r, Educations) == Lookup(s, Educations);
  }

  /** The merged record has the keys of both. */
  lemma MergeKeys(a: CV, b: CV)
    ensures Keys(Merge(a, b)) == Keys(a) + Keys(b)
  {
  }

  /** Merging `{}` is the identity on either side. */
  lemma MergeEmpty(a: CV)
    ensures Merge(a, Empty) == a && Merge(Empty, a) == a
  {
    LookupDetermines(Merge(a, Empty), a);
    LookupDetermines(Merge(Empty, a), a);
  }

  /** Applying the same update twice is the same as applying it once. */
  lemma MergeIdempotent(a: CV, b: CV)
    ensures Merge(Merge(a, b), b) == Merge(a, b)
  {
    LookupDetermines(Merge(Merge(a, b), b), Merge(a, b));
  }

  /** Updates compose: the later one wins key by key. */
  lemma MergeAssociative(a: CV, b: CV, c: CV)
    ensures Merge(Merge(a, b), c) == Merge(a, Merge(b, c))
  {
    LookupDetermines(Merge(Merge(a, b), c), Merge(a, Merge(b, c)));
  }

  // ---------------------------------------------------------------------
  // The e-mail check (isValidEmail)

  /** `[^\s@]` */
  predicate PlainChar(c: char) {
    !IsWhitespace(c) && c != '@'
  }

  /** `[^\s@]*` */
  predicate Plain(s: string) {
    forall i :: 0 <= i < |s| ==> PlainChar(s[i])
  }

  /** Some `.` of `s` at index `from` or later has a character after it. */
  predicate DotBefore(s: string, from: nat) {
    exists k :: from <= k < |s| - 1 && s[k] == '.'
  }

  /** `[^\s@]+\.[^\s@]+` on the whole of `d` */
  predicate DomainShape(d: string) {
    Plain(d) && DotBefore(d, 1)
  }

  /** `s` is `L@D` with the `@` at `at`, `L` free of white space and `@`,
      and `D` of the domain shape. */
  predicate SplitsAt(s: string, at: nat) {
    at < |s| && s[at] == '@' && Plain(s[..at]) && DomainShape(s[at + 1..])
  }

  /** The language of `^[^\s@]+@[^\s@]+\.[^\s@]+$`: a non-empty local part
      free of white space and `@`, one `@`, and a domain free of white space
      and `@` with a `.` that is neither its first nor its last character. */
  predicate EmailShape(s: string) {
    exists at: nat :: 0 < at < |s| && SplitsAt(s, at)
  }

  /** The states of a left-to-right matcher for the e-mail pattern */
  datatype MatchState =
    | LocalStart   // nothing read yet
    | Local        // a non-empty local part
    | DomainStart  // just read the `@`
    | Domain       // a non-empty domain with no usable `.` yet
    | DomainDot    // the domain so far ends with a usable `.`
    | Accepted     // a usable `.` followed by at least one character
    | Rejected

  function Step(st: MatchState, c: char): MatchState {
    if IsWhitespace(c) then Rejected
    else match st
      case LocalStart => if c == '@' then Rejected else Local
      case Local => if c == '@' then DomainStart else Local
      case DomainStart => if c == '@' then Rejected else Domain
      case Domain => if c == '@' then Rejected else if c == '.' then DomainDot else Domain
      case DomainDot => if c == '@' then Rejected else Accepted
      case Accepted => if c == '@' then Rejected else Accepted
      case Rejected => Rejected
  }

  function Run(st: MatchState, s: string): MatchState
    decreases s
  {
    if s == [] then st else Run(Step(st, s[0]), s[1..])
  }

  /** `emailRegex.test(email)` */
  function IsValidEmail(s: string): (b: bool)
    ensures b <==> EmailShape(s)
  {
    MatcherAcceptsShape(s);
    Run(LocalStart, s) == Accepted
  }

  lemma PlainCons(s: string)
    requires s != []
    ensures Plain(s) <==> PlainChar(s[0]) && Plain(s[1..])
  {
    if PlainChar(s[0]) && Plain(s[1..]) {
      forall i | 0 <= i < |s| ensures PlainChar(s[i]) {
        if i > 0 { assert s[i] == s[1..][i - 1]; }
      }
    }
  }

  lemma {:induction false} RejectedStays(s: string)
    ensures Run(Rejected, s) == Rejected
  {
    if s != [] { RejectedStays(s[1..]); }
  }

  lemma {:induction false} AcceptedRun(s: string)
    ensures Run(Accepted, s) == Accepted <==> Plain(s)
  {
    if s != [] {
      PlainCons(s);
      RejectedStays(s[1..]);
      AcceptedRun(s[1..]);
    }
  }

  lemma DomainDotRun(s: string)
    ensures Run(DomainDot, s) == Accepted <==> s != [] && Plain(s)
  {
    if s != [] {
      PlainCons(s);
      RejectedStays(s[1..]);
      AcceptedRun(s[1..]);
    }
  }

  lemma {:induction false} DomainRun(s: string)
    ensures Run(Domain, s) == Accepted <==> Plain(s) && DotBefore(s, 0)
  {
    if s != [] {
      PlainCons(s);
      RejectedStays(s[1..]);
      DomainRun(s[1..]);
      DomainDotRun(s[1..]);
      DotBeforeCons(s, 0);
    }
  }

  /** A usable `.` at or after `from + 1` is one at or after `from` in the tail. */
  lemma DotBeforeCons(s: string, from: nat)
    requires s != []
    ensures DotBefore(s, from + 1) <==> DotBefore(s[1..], from)
    ensures DotBefore(s, 0) <==> (s[0] == '.' && |s| > 1) || DotBefore(s[1..], 0)
  {
    if DotBefore(s, from + 1) {
      var k :| from + 1 <= k < |s| - 1 && s[k] == '.';
      assert s[1..][k - 1] == '.';
    }
    if DotBefore(s[1..], from) {
      var k :| from <= k < |s| - 2 && s[1..][k] == '.';
      assert s[k + 1] == '.';
    }
    if DotBefore(s, 0) && !(s[0] == '.' && |s| > 1) {
      var k :| 0 <= k < |s| - 1 && s[k] == '.';
      assert s[1..][k - 1] == '.';
    }
    if DotBefore(s[1..], 0) {
      var k :| 0 <= k < |s| - 2 && s[1..][k] == '.';
      assert s[k + 1] == '.';
    }
  }

  lemma DomainStartRun(s: string)
    ensures Run(DomainStart, s) == Accepted <==> DomainShape(s)
  {
    if s != [] {
      PlainCons(s);
      RejectedStays(s[1..]);
      DomainRun(s[1..]);
      DotBeforeCons(s, 0);
    }
  }

  /** What the matcher accepts from the middle of the local part */
  predicate LocalRest(s: string) {
    exists at: nat :: at < |s| && SplitsAt(s, at)
  }

  /** Moving the split point one character to the left */
  lemma SplitsAtShift(s: string, at: nat)
    requires s != [] && 0 < at
    ensures SplitsAt(s, at) <==> PlainChar(s[0]) && SplitsAt(s[1..], at - 1)
  {
    if at < |s| {
      assert s[..at][0] == s[0];
      assert s[..at][1..] == s[1..][..at - 1];
      PlainCons(s[..at]);
      assert s[at] == s[1..][at - 1];
      assert s[at + 1..] == s[1..][at..];
    }
  }

  lemma {:induction false} LocalRun(s: string)
    ensures Run(Local, s) == Accepted <==> LocalRest(s)
  {
    if s != [] {
      RejectedStays(s[1..]);
      LocalRun(s[1..]);
      DomainStartRun(s[1..]);
      LocalRestCons(s);
    }
  }

  lemma LocalRestCons(s: string)
    requires s != []
    ensures LocalRest(s) <==>
      (s[0] == '@' && DomainShape(s[1..])) || (PlainChar(s[0]) && LocalRest(s[1..]))
  {
    assert s[..0] == [];
    if LocalRest(s) {
      var at: nat :| at < |s| && SplitsAt(s, at);
      if at > 0 {
        SplitsAtShift(s, at);
      }
    }
    if PlainChar(s[0]) && LocalRest(s[1..]) {
      var at: nat :| at < |s| - 1 && SplitsAt(s[1..], at);
      SplitsAtShift(s, at + 1);
    }
    if s[0] == '@' && DomainShape(s[1..]) {
      assert SplitsAt(s, 0);
    }
  }

  /** An e-mail is a plain first character followed by what the matcher
      accepts from the middle of the local part. */
  lemma EmailShapeCons(s: string)
    requires s != []
    ensures EmailShape(s) <==> PlainChar(s[0]) && LocalRest(s[1..])
  {
    if EmailShape(s) {
      var at: nat :| 0 < at < |s| && SplitsAt(s, at);
      SplitsAtShift(s, at);
    }
    if PlainChar(s[0]) && LocalRest(s[1..]) {
      var at: nat :| at < |s| - 1 && SplitsAt(s[1..], at);
      SplitsAtShift(s, at + 1);
    }
  }

  /** The matcher accepts exactly the strings of the e-mail pattern. */
  lemma MatcherAcceptsShape(s: string)
    ensures Run(LocalStart, s) == Accepted <==> EmailShape(s)
  {
    if s != [] {
      RejectedStays(s[1..]);
      LocalRun(s[1..]);
      EmailShapeCons(s);
    }
  }

  // ---------------------------------------------------------------------
  // The skills parser (formatSkills)

  /** `.map(skill => skill.trim()).filter(skill => skill !== '')` */
  function TrimNonEmpty(pieces: seq<string>): (r: seq<string>)
    ensures |r| <= |pieces|
  {
    if pieces == [] then []
    else (if Trim(pieces[0]) == [] then [] else [Trim(pieces[0])]) + TrimNonEmpty(pieces[1..])
  }

  /** A real skill name as the parser produces it */
  predicate SkillName(x: string) {
    x != [] && Trimmed(x) && ',' !in x
  }

  lemma TrimKeepsOut(s: string, c: char)
    requires c !in s
    ensures c !in Trim(s)
  {
    var t := TrimStart(s);
    assert t == s[|s| - |t|..];
    assert Trim(s) == t[..|Trim(s)|];
  }

  /** A piece without a comma trims to nothing or to a skill name. */
  lemma TrimmedPieceName(p: string)
    requires ',' !in p
    ensures Trim(p) != [] ==> SkillName(Trim(p))
  {
    TrimKeepsOut(p, ',');
  }

  lemma {:induction false} TrimNonEmptyNames(pieces: seq<string>)
    requires forall i :: 0 <= i < |pieces| ==> ',' !in pieces[i]
    ensures forall x :: x in TrimNonEmpty(pieces) ==> SkillName(x)
  {
    if pieces != [] {
      TrimmedPieceName(pieces[0]);
      assert forall i :: 0 <= i < |pieces[1..]| ==> ',' !in pieces[1..][i];
      TrimNonEmptyNames(pieces[1..]);
    }
  }

  /** `formatSkills(s)`: the comma-separated pieces of `s`, trimmed and in
      order, with the empty ones dropped; nothing for the empty string. */
  function FormatSkills(s: string): (r: seq<string>)
    ensures s == [] ==> r == []
    ensures forall i :: 0 <= i < |r| ==> SkillName(r[i])
  {
    if s == [] then []
    else
      TrimNonEmptyNames(Split(s, ','));
      var r := TrimNonEmpty(Split(s, ','));
      assert forall i :: 0 <= i < |r| ==> r[i] in r;
      r
  }

  /** A text of white space only holds no skill. */
  lemma FormatSkillsOfBlank(s: string)
    requires AllWhitespace(s)
    ensures FormatSkills(s) == []
  {
    if s != [] {
      TrimEmptyIff(s);
      assert !IsWhitespace(',');
      SplitWithoutSeparator(s, ',');
    }
  }

  /** Parsing the pieces of a `', '` join whose pieces are skill names gives
      the pieces back; `w` is what precedes the first piece (nothing, or the
      blank the join leaves after a comma). */
  lemma {:induction false} ParseJoined(xs: seq<string>, w: string)
    requires xs != [] && (w == [] || w == [' '])
    requires forall i :: 0 <= i < |xs| ==> SkillName(xs[i])
    ensures TrimNonEmpty(Split(w + Join(xs, ", "), ',')) == xs
  {
    var x := xs[0];
    assert SkillName(x);
    if |xs| == 1 {
      LeadTrim(w, x);
      SplitWithoutSeparator(w + x, ',');
      TrimNonEmptyCons(w + x, []);
    } else {
      JoinCons(xs, w);
      assert forall i :: 0 <= i < |xs[1..]| ==> SkillName(xs[1..][i]);
      ParseJoined(xs[1..], [' ']);
      ParseStep(w, x, Join(xs[1..], ", "), xs[1..]);
      assert [x] + xs[1..] == xs;
    }
  }

  /** One step of ParseJoined: a skill name, a comma, and a rest that
      parses to `tail` parse to the name followed by `tail`. */
  lemma ParseStep(w: string, x: string, rest: string, tail: seq<string>)
    requires (w == [] || w == [' ']) && SkillName(x)
    requires TrimNonEmpty(Split([' '] + rest, ',')) == tail
    ensures TrimNonEmpty(Split((w + x) + [','] + ([' '] + rest), ',')) == [x] + tail
  {
    LeadTrim(w, x);
    SplitAfterPiece(w + x, [' '] + rest, ',');
    TrimNonEmptyCons(w + x, Split([' '] + rest, ','));
  }

  /** A piece with at most a leading blank trims to the skill name. */
  lemma LeadTrim(w: string, x: string)
    requires (w == [] || w == [' ']) && SkillName(x)
    ensures Trim(w + x) == x && ',' !in w + x
  {
    if w == [' '] { TrimAfterBlank(x); } else { assert w + x == x; }
    TrimOfTrimmed(x);
  }

  lemma TrimNonEmptyCons(p: string, ps: seq<string>)
    requires Trim(p) != []
    ensures TrimNonEmpty([p] + ps) == [Trim(p)] + TrimNonEmpty(ps)
  {
    assert ([p] + ps)[1..] == ps;
  }

  lemma JoinCons(xs: seq<string>, w: string)
    requires |xs| > 1
    ensures w + Join(xs, ", ") == (w + xs[0]) + [','] + ([' '] + Join(xs[1..], ", "))
  {
  }

  /** Writing skills as `skills.join(', ')` and reading them back with
      formatSkills gives the same list, when every skill is a non-empty,
      trimmed, comma-free name. */
  lemma FormatSkillsOfJoin(xs: seq<string>)
    requires forall i :: 0 <= i < |xs| ==> SkillName(xs[i])
    ensures FormatSkills(Join(xs, ", ")) == xs
  {
    if xs != [] {
      ParseJoined(xs, []);
      assert [] + Join(xs, ", ") == Join(xs, ", ");
      assert Join(xs, ", ") != [] by { assert |Join(xs, ", ")| >= |xs[0]|; }
    }
  }

  /** A parsed list survives another write and read unchanged. */
  lemma FormatSkillsStable(s: string)
    ensures FormatSkills(Join(FormatSkills(s), ", ")) == FormatSkills(s)
  {
    FormatSkillsOfJoin(FormatSkills(s));
  }

  // ---------------------------------------------------------------------
  // Validation (validateData)

  /** The three errors the validator pushes, with the text it pushes */
  datatype ValidationError = NameRequired | EmailRequired | EmailInvalid {
    function Message(): string {
      match this
      case NameRequired => "Le nom complet est requis"
      case EmailRequired => "L'email est requis"
      case EmailInvalid => "L'email n'est pas valide"
    }
  }

  /** An absent or all-white-space text, which BlankIsTrimmedEmpty shows is
      the test `!x || x.trim() === ''` */
  predicate Blank(o: Option<string>) {
    o.None? || AllWhitespace(o.value)
  }

  lemma BlankIsTrimmedEmpty(o: Option<string>)
    ensures Blank(o) <==> o.None? || Trim(o.value) == []
  {
    if o.Some? { TrimEmptyIff(o.value); }
  }

  /** A record that validation lets through: a name, and an e-mail of the
      right shape */
  predicate Passes(d: CV) {
    !Blank(d.fullName) && !Blank(d.email) && EmailShape(d.email.value)
  }

  datatype Validation = Validation(isValid: bool, errors: seq<ValidationError>)

  // ---------------------------------------------------------------------
  // The store

  /** The record `generateDemoData` installs */
  const Demo: CV := CV(
    Some("aymen sellami"), Some("Développeuse Full Stack"), Some("aymen.sellami@email.com"),
    Some("+216 000 000"), Some("ARINA, TUNIS"),
    Some("Développeuse Full Stack avec 5 ans d'expérience dans la création d'applications web modernes. Passionnée par les technologies JavaScript et les architectures cloud. Aime résoudre des problèmes complexes et travailler en équipe agile."),
    Some(["JavaScript", "React", "Node.js", "TypeScript", "MongoDB", "AWS", "Docker", "Git", "Agile/Scrum"]),
    Some([
      Experience(Some("Développeuse Full Stack"), Some("TechSolutions SAS"), Some("2020 - Présent"),
        Some("Développement d'une plateforme SaaS pour la gestion de projets. Implémentation de nouvelles fonctionnalités frontend avec React et backend avec Node.js. Collaboration avec une équipe de 6 développeurs en méthodologie Agile.")),
      Experience(Some("Développeuse Frontend"), Some("WebInnovation"), Some("2018 - 2020"),
        Some("Création d'interfaces utilisateur responsive pour des applications web clients. Optimisation des performances et accessibilité. Participation aux revues de code et à la formation des juniors."))]),
    Some([
      Education(Some("Ingénieur en Informatique"), Some("ESPRIT"), Some("2015")),
      Education(Some("Licence en Informatique"), Some("ISET"), Some("2010"))]))

  class DataService {
    /** the current record */
    var cvData: CV
    var experienceCount: nat
    var educationCount: nat
    /** the persisted `cvData` slot; None when nothing is stored */
    var storage: Option<CV>

    /** A fresh service over whatever the slot already holds */
    constructor (persisted: Option<CV>)
      ensures cvData == Empty && experienceCount == 1 && educationCount == 1
      ensures storage == persisted
    {
      cvData := Empty;
      experienceCount := 1;
      educationCount := 1;
      storage := persisted;
    }

    /** Replaces the record wholesale by the normalised form data, persists
        it and returns it. */
    method SaveFormData(formData: CV) returns (r: CV)
      modifies this`cvData, this`storage
      ensures cvData == Normalize(formData) && storage == Some(cvData) && r == cvData
    {
      cvData := Normalize(formData);
      storage := Some(cvData);
      r := cvData;
    }

    /** Installs the persisted record, if there is one, and returns it;
        without one the record is left as it was. */
    method LoadFromLocalStorage() returns (r: Option<CV>)
      modifies this`cvData
      ensures r == storage
      ensures cvData == if storage.Some? then storage.value else old(cvData)
    {
      if storage.Some? {
        cvData := storage.value;
        r := Some(cvData);
      } else {
        r := None;
      }
    }

    /** Back to the `{}` record and counters of 1, with nothing persisted.
        The new state does not depend on the old one, so clearing twice
        leaves what clearing once does. */
    method ClearAllData()
      modifies this
      ensures cvData == Empty && experienceCount == 1 && educationCount == 1
      ensures storage == None
    {
      cvData := Empty;
      experienceCount := 1;
      educationCount := 1;
      storage := None;
    }

    function GetCurrentData(): (r: CV)
      reads this
      ensures r == cvData
    {
      cvData
    }

    /** Merges the update into the record, persists and returns it. */
    method UpdateData(newData: CV) returns (r: CV)
      modifies this`cvData, this`storage
      ensures cvData == Merge(old(cvData), newData) && storage == Some(cvData) && r == cvData
    {
      cvData := Merge(cvData, newData);
      storage := Some(cvData);
      r := cvData;
    }

    /** Installs the demonstration record, persists and returns it. */
    method GenerateDemoData() returns (r: CV)
      modifies this`cvData, this`storage
      ensures cvData == Demo && storage == Some(Demo) && r == Demo
    {
      cvData := Demo;
      storage := Some(cvData);
      r := cvData;
    }

    /** Checks the required name and the e-mail: the name error comes first
        and exactly when the name is blank; a blank e-mail draws only the
        "required" error, a non-blank one the "invalid" error exactly when
        it does not have the e-mail shape. */
    method ValidateData(data: CV) returns (v: Validation)
      ensures v.isValid <==> v.errors == []
      ensures v.isValid <==> Passes(data)
      ensures NameRequired in v.errors <==> Blank(data.fullName)
      ensures Blank(data.fullName) ==> v.errors[0] == NameRequired
      ensures EmailRequired in v.errors <==> Blank(data.email)
      ensures EmailInvalid in v.errors <==> !Blank(data.email) && !EmailShape(data.email.value)
      ensures |v.errors| <= 2
      ensures forall i, j :: 0 <= i < j < |v.errors| ==> v.errors[i] != v.errors[j]
    {
      var errors: seq<ValidationError> := [];
      if Blank(data.fullName) {
        errors := errors + [NameRequired];
      }
      ghost var nameErrors := errors;
      assert EmailRequired !in nameErrors && EmailInvalid !in nameErrors;
      if Blank(data.email) {
        errors := errors + [EmailRequired];
      } else if !IsValidEmail(data.email.value) {
        errors := errors + [EmailInvalid];
      }
      assert errors[..|nameErrors|] == nameErrors;
      v := Validation(|errors| == 0, errors);
    }
  }
}
