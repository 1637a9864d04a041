/** The résumé record that every part of the application reads and writes.
    Each of its nine keys is optional, so that an absent key (the `{}` record
    the store starts from and is cleared to) stays distinct from a key that
    holds an empty string or an empty list. */
module CvRecord {

  datatype Option<T> = None | Some(value: T) {
    /** `x || fallback` where every present value counts as set */
    function GetOr(fallback: T): T {
      match this
      case Some(v) => v
      case None => fallback
    }
  }

  /** A value, or the message of the error the source throws instead */
  datatype Result<T> = Ok(value: T) | Err(error: string)

  /** One entry of `experiences`; stored entries may lack any field. */
  datatype Experience = Experience(
    title: Option<string>,
    company: Option<string>,
    period: Option<string>,
    description: Option<string>)

  /** One entry of `educations`. */
  datatype Education = Education(
    degree: Option<string>,
    institution: Option<string>,
    year: Option<string>)

  datatype CV = CV(
    fullName: Option<string>,
    jobTitle: Option<string>,
    email: Option<string>,
    phone: Option<string>,
    address: Option<string>,
    summary: Option<string>,
    skills: Option<seq<string>>,
    experiences: Option<seq<Experience>>,
    educations: Option<seq<Education>>)

  /** The `{}` record: no key at all. */
  const Empty: CV := CV(None, None, None, None, None, None, None, None, None)

  /** The nine keys of a record, used to speak of records key by key the way
      the source's object spreads and `Object.keys` do. */
  datatype Key = FullName | JobTitle | Email | Phone | Address | Summary
               | Skills | Experiences | Educations

  datatype Value =
    | Text(text: string)
    | SkillList(skills: seq<string>)
    | ExperienceList(experiences: seq<Experience>)
    | EducationList(educations: seq<Education>)

  function Wrap<T>(o: Option<T>, f: T -> Value): Option<Value> {
    match o
    case Some(v) => Some(f(v))
    case None => None
  }

  /** `r[k]`, with None for a key the record lacks */
  function Lookup(r: CV, k: Key): Option<Value> {
    match k
    case FullName => Wrap(r.fullName, s => Text(s))
    case JobTitle => Wrap(r.jobTitle, s => Text(s))
    case Email => Wrap(r.email, s => Text(s))
    case Phone => Wrap(r.phone, s => Text(s))
    case Address => Wrap(r.address, s => Text(s))
    case Summary => Wrap(r.summary, s => Text(s))
    case Skills => Wrap(r.skills, ss => SkillList(ss))
    case Experiences => Wrap(r.experiences, es => ExperienceList(es))
    case Educations => Wrap(r.educations, es => EducationList(es))
  }

  const AllKeys: set<Key> :=
    {FullName, JobTitle, Email, Phone, Address, Summary, Skills, Experiences, Educations}

  lemma EveryKeyListed(k: Key)
    ensures k in AllKeys
  {
    match k
    case FullName => case JobTitle => case Email => case Phone => case Address =>
    case Summary => case Skills => case Experiences => case Educations =>
  }

  /** `Object.keys(r)`, as a set */
  function Keys(r: CV): (ks: set<Key>)
    ensures forall k :: k in ks <==> Lookup(r, k).Some?
  {
    forall k: Key ensures k in AllKeys { EveryKeyListed(k); }
    set k | k in AllKeys && Lookup(r, k).Some?
  }

  /** `Object.keys(r).length === 0` holds of the `{}` record and of no other. */
  lemma NoKeysIffEmpty(r: CV)
    ensures |Keys(r)| == 0 <==> r == Empty
  {
    if |Keys(r)| == 0 {
      forall k: Key ensures Lookup(r, k).None? {
        assert k !in Keys(r);
      }
      assert Lookup(r, FullName).None? && Lookup(r, JobTitle).None? && Lookup(r, Email).None?;
      assert Lookup(r, Phone).None? && Lookup(r, Address).None? && Lookup(r, Summary).None?;
      assert Lookup(r, Skills).None? && Lookup(r, Experiences).None? && Lookup(r, Educations).None?;
    }
    if r == Empty {
      assert forall k :: Lookup(r, k).None?;
      assert Keys(r) == {};
    }
  }

  /** JavaScript truthiness of an optional string: present and not `''`. */
  predicate Truthy(o: Option<string>) {
    o.Some? && o.value != []
  }

  /** `o || fallback` for an optional string */
  function TextOr(o: Option<string>, fallback: string): string {
    if Truthy(o) then o.value else fallback
  }

  /** `o && o.length > 0` for an optional list */
  predicate HasEntries<T>(o: Option<seq<T>>) {
    o.Some? && |o.value| > 0
  }
}
