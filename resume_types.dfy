/** The resume record: a personal-details record plus four ordered,
    id-keyed sequences of entries. Every field is a plain string; absence
    is an empty string or an empty sequence, never a missing field. */
module ResumeTypes {

  datatype PersonalDetails = PersonalDetails(
    name: string,
    title: string,
    email: string,
    phone: string,
    location: string,
    summary: string)

  datatype Education = Education(
    id: string,
    institution: string,
    degree: string,
    date: string,
    description: string)

  datatype Experience = Experience(
    id: string,
    company: string,
    position: string,
    date: string,
    description: string)

  datatype Skill = Skill(id: string, name: string)

  datatype Project = Project(
    id: string,
    name: string,
    description: string,
    url: string)

  datatype ResumeData = ResumeData(
    personalDetails: PersonalDetails,
    education: seq<Education>,
    experience: seq<Experience>,
    skills: seq<Skill>,
    projects: seq<Project>)

  // The names of the editable text fields of each record kind (the `field`
  // argument of the form handlers). The `id` of an entry is not among them.

  datatype PersonalField = Name | Title | Email | Phone | Location | Summary

  datatype EducationField = Institution | Degree | EducationDate | EducationDescription

  datatype ExperienceField = Company | Position | ExperienceDate | ExperienceDescription

  datatype ProjectField = ProjectName | ProjectDescription | Url

  function PersonalValue(p: PersonalDetails, f: PersonalField): string
  {
    match f
    case Name => p.name
    case Title => p.title
    case Email => p.email
    case Phone => p.phone
    case Location => p.location
    case Summary => p.summary
  }

  function EducationValue(e: Education, f: EducationField): string
  {
    match f
    case Institution => e.institution
    case Degree => e.degree
    case EducationDate => e.date
    case EducationDescription => e.description
  }

  function ExperienceValue(e: Experience, f: ExperienceField): string
  {
    match f
    case Company => e.company
    case Position => e.position
    case ExperienceDate => e.date
    case ExperienceDescription => e.description
  }

  function ProjectValue(p: Project, f: ProjectField): string
  {
    match f
    case ProjectName => p.name
    case ProjectDescription => p.description
    case Url => p.url
  }

  /** Personal details consist of exactly the six named fields: two records
      that agree on all six are the same record. */
  lemma PersonalDetailsExtensional(p: PersonalDetails, q: PersonalDetails)
    requires forall f :: PersonalValue(p, f) == PersonalValue(q, f)
    ensures p == q
  {
    assert PersonalValue(p, Name) == PersonalValue(q, Name);
    assert PersonalValue(p, Title) == PersonalValue(q, Title);
    assert PersonalValue(p, Email) == PersonalValue(q, Email);
    assert PersonalValue(p, Phone) == PersonalValue(q, Phone);
    assert PersonalValue(p, Location) == PersonalValue(q, Location);
    assert PersonalValue(p, Summary) == PersonalValue(q, Summary);
  }

  /** An education entry is its id plus exactly the four text fields. */
  lemma EducationExtensional(a: Education, b: Education)
    requires a.id == b.id
    requires forall f :: EducationValue(a, f) == EducationValue(b, f)
    ensures a == b
  {
    assert EducationValue(a, Institution) == EducationValue(b, Institution);
    assert EducationValue(a, Degree) == EducationValue(b, Degree);
    assert EducationValue(a, EducationDate) == EducationValue(b, EducationDate);
    assert EducationValue(a, EducationDescription) == EducationValue(b, EducationDescription);
  }

  /** An experience entry is its id plus exactly the four text fields. */
  lemma ExperienceExtensional(a: Experience, b: Experience)
    requires a.id == b.id
    requires forall f :: ExperienceValue(a, f) == ExperienceValue(b, f)
    ensures a == b
  {
    assert ExperienceValue(a, Company) == ExperienceValue(b, Company);
    assert ExperienceValue(a, Position) == ExperienceValue(b, Position);
    assert ExperienceValue(a, ExperienceDate) == ExperienceValue(b, ExperienceDate);
    assert ExperienceValue(a, ExperienceDescription) == ExperienceValue(b, ExperienceDescription);
  }

  /** A project entry is its id plus exactly the three text fields. */
  lemma ProjectExtensional(a: Project, b: Project)
    requires a.id == b.id
    requires forall f :: ProjectValue(a, f) == ProjectValue(b, f)
    ensures a == b
  {
    assert ProjectValue(a, ProjectName) == ProjectValue(b, ProjectName);
    assert ProjectValue(a, ProjectDescription) == ProjectValue(b, ProjectDescription);
    assert ProjectValue(a, Url) == ProjectValue(b, Url);
  }

  // Every repeatable entry carries a string id; these name it for the
  // generic id-keyed sequence operations.

  function EducationId(e: Education): string { e.id }

  function ExperienceId(e: Experience): string { e.id }

  function SkillId(s: Skill): string { s.id }

  function ProjectId(p: Project): string { p.id }

  /** Some entry of `s` carries the id `id`. */
  predicate HasId<T>(s: seq<T>, idOf: T -> string, id: string)
  {
    exists i :: 0 <= i < |s| && idOf(s[i]) == id
  }

  /** The ids of `s` are pairwise distinct. */
  predicate DistinctIds<T>(s: seq<T>, idOf: T -> string)
  {
    forall i, j :: 0 <= i < j < |s| ==> idOf(s[i]) != idOf(s[j])
  }

  /** The number of entries of `s` whose id is `id`. */
  function CountId<T>(s: seq<T>, idOf: T -> string, id: string): (n: nat)
    ensures n <= |s|
    ensures n == 0 <==> !HasId(s, idOf, id)
  {
    if s == [] then 0
    else (if idOf(s[0]) == id then 1 else 0) + CountId(s[1..], idOf, id)
  }

  /** In a section whose ids are distinct, an id that occurs occurs once. */
  lemma {:induction false} CountIdDistinct<T>(s: seq<T>, idOf: T -> string, id: string)
    requires DistinctIds(s, idOf)
    requires HasId(s, idOf, id)
    ensures CountId(s, idOf, id) == 1
  {
    if idOf(s[0]) == id {
      assert !HasId(s[1..], idOf, id) by {
        forall i | 0 <= i < |s[1..]| ensures idOf(s[1..][i]) != id {
          assert s[1..][i] == s[i + 1];
        }
      }
    } else {
      var k :| 0 <= k < |s| && idOf(s[k]) == id;
      assert s[1..][k - 1] == s[k];
      CountIdDistinct(s[1..], idOf, id);
    }
  }
}
