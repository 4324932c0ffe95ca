/** The edit handlers of the resume form. Each takes the current record and
    returns a new one; nothing is changed in place. Fresh ids (a random
    UUID in the application) are supplied by the caller. */
module ResumeForm {
  import opened ResumeTypes

  // ---------------------------------------------------------------------
  // Id-keyed sequence operations shared by the four sections
  // ---------------------------------------------------------------------

  /** `s.map(x => idOf(x) === id ? upd(x) : x)`: every entry with id `id`
      is replaced by its update, every other entry is kept as it was. */
  function UpdateWhere<T>(s: seq<T>, idOf: T -> string, id: string, upd: T -> T): (r: seq<T>)
    ensures |r| == |s|
    ensures forall i :: 0 <= i < |s| && idOf(s[i]) == id ==> r[i] == upd(s[i])
    ensures forall i :: 0 <= i < |s| && idOf(s[i]) != id ==> r[i] == s[i]
  {
    if s == [] then []
    else [if idOf(s[0]) == id then upd(s[0]) else s[0]] + UpdateWhere(s[1..], idOf, id, upd)
  }

  /** `a` occurs in `b` in the same relative order (not necessarily contiguously). */
  predicate IsSubsequence<T(==)>(a: seq<T>, b: seq<T>)
    decreases |b|
  {
    a == [] || (b != [] && if a[0] == b[0] then IsSubsequence(a[1..], b[1..]) else IsSubsequence(a, b[1..]))
  }

  /** `s.filter(x => idOf(x) !== id)`: every entry with id `id` is dropped
      and nothing else is; an absent id leaves the sequence as it was. */
  function RemoveWhere<T(==)>(s: seq<T>, idOf: T -> string, id: string): (r: seq<T>)
    ensures !HasId(r, idOf, id)
    ensures |r| == |s| - CountId(s, idOf, id)
    ensures forall x :: x in r ==> x in s
    ensures !HasId(s, idOf, id) ==> r == s
  {
    if s == [] then []
    else
      var rest := RemoveWhere(s[1..], idOf, id);
      if idOf(s[0]) == id then
        rest
      else
        assert !HasId(s[1..], idOf, id) ==> !HasId(s, idOf, id) ==> rest == s[1..];
        assert s == [s[0]] + s[1..];
        [s[0]] + rest
  }

  /** The survivors of a removal keep their relative order. */
  lemma {:induction false} RemoveKeepsOrder<T>(s: seq<T>, idOf: T -> string, id: string)
    ensures IsSubsequence(RemoveWhere(s, idOf, id), s)
  {
    if s != [] {
      var rest := RemoveWhere(s[1..], idOf, id);
      RemoveKeepsOrder(s[1..], idOf, id);
      if idOf(s[0]) == id {
        if rest != [] {
          assert rest[0] in rest;
          assert rest[0] != s[0];
        }
      } else {
        assert ([s[0]] + rest)[1..] == rest;
      }
    }
  }

  /** Every entry whose id differs from `id` survives a removal. */
  lemma {:induction false} RemoveKeepsSurvivors<T>(s: seq<T>, idOf: T -> string, id: string)
    ensures forall i :: 0 <= i < |s| && idOf(s[i]) != id ==> s[i] in RemoveWhere(s, idOf, id)
  {
    if s != [] {
      RemoveKeepsSurvivors(s[1..], idOf, id);
      forall i | 0 <= i < |s| && idOf(s[i]) != id ensures s[i] in RemoveWhere(s, idOf, id) {
        if i > 0 {
          assert s[i] == s[1..][i - 1];
        }
      }
    }
  }

  /** A removal keeps the ids of a section pairwise distinct. */
  lemma {:induction false} RemoveKeepsDistinct<T>(s: seq<T>, idOf: T -> string, id: string)
    ensures DistinctIds(s, idOf) ==> DistinctIds(RemoveWhere(s, idOf, id), idOf)
  {
    if s != [] && DistinctIds(s, idOf) {
      var rest := RemoveWhere(s[1..], idOf, id);
      assert DistinctIds(s[1..], idOf) by {
        forall i, j | 0 <= i < j < |s[1..]| ensures idOf(s[1..][i]) != idOf(s[1..][j]) {
          assert s[1..][i] == s[i + 1] && s[1..][j] == s[j + 1];
        }
      }
      RemoveKeepsDistinct(s[1..], idOf, id);
      if idOf(s[0]) != id {
        var r := [s[0]] + rest;
        forall i, j | 0 <= i < j < |r| ensures idOf(r[i]) != idOf(r[j]) {
          if i == 0 {
            assert r[j] == rest[j - 1] && rest[j - 1] in rest;
            var k :| 0 <= k < |s[1..]| && s[1..][k] == rest[j - 1];
            assert s[1..][k] == s[k + 1];
          } else {
            assert r[i] == rest[i - 1] && r[j] == rest[j - 1];
          }
        }
      }
    }
  }

  /** Appending an entry whose id is new keeps the ids pairwise distinct. */
  lemma AppendFreshKeepsDistinct<T>(s: seq<T>, idOf: T -> string, e: T)
    ensures DistinctIds(s, idOf) && !HasId(s, idOf, idOf(e)) ==> DistinctIds(s + [e], idOf)
  {
    if DistinctIds(s, idOf) && !HasId(s, idOf, idOf(e)) {
      var t := s + [e];
      forall i, j | 0 <= i < j < |t| ensures idOf(t[i]) != idOf(t[j]) {
        if j == |s| {
          assert t[i] == s[i];
        } else {
          assert t[i] == s[i] && t[j] == s[j];
        }
      }
    }
  }

  // ---------------------------------------------------------------------
  // Personal details
  // ---------------------------------------------------------------------

  /** `{ ...p, [field]: value }` for a personal-details field. */
  function PersonalWith(p: PersonalDetails, f: PersonalField, v: string): (r: PersonalDetails)
    ensures PersonalValue(r, f) == v
    ensures forall g :: g != f ==> PersonalValue(r, g) == PersonalValue(p, g)
  {
    match f
    case Name => p.(name := v)
    case Title => p.(title := v)
    case Email => p.(email := v)
    case Phone => p.(phone := v)
    case Location => p.(location := v)
    case Summary => p.(summary := v)
  }

  /** handlePersonalChange: that one field takes the new value; the other
      personal fields and all four sections are unchanged. */
  function HandlePersonalChange(data: ResumeData, f: PersonalField, v: string): (r: ResumeData)
    ensures PersonalValue(r.personalDetails, f) == v
    ensures forall g :: g != f ==> PersonalValue(r.personalDetails, g) == PersonalValue(data.personalDetails, g)
    ensures r.education == data.education && r.experience == data.experience
    ensures r.skills == data.skills && r.projects == data.projects
  {
    data.(personalDetails := PersonalWith(data.personalDetails, f, v))
  }

  // ---------------------------------------------------------------------
  // Field edits on entries, addressed by id
  // ---------------------------------------------------------------------

  function EducationWith(e: Education, f: EducationField, v: string): (r: Education)
    ensures r.id == e.id
    ensures EducationValue(r, f) == v
    ensures forall g :: g != f ==> EducationValue(r, g) == EducationValue(e, g)
  {
    match f
    case Institution => e.(institution := v)
    case Degree => e.(degree := v)
    case EducationDate => e.(date := v)
    case EducationDescription => e.(description := v)
  }

  function ExperienceWith(e: Experience, f: ExperienceField, v: string): (r: Experience)
    ensures r.id == e.id
    ensures ExperienceValue(r, f) == v
    ensures forall g :: g != f ==> ExperienceValue(r, g) == ExperienceValue(e, g)
  {
    match f
    case Company => e.(company := v)
    case Position => e.(position := v)
    case ExperienceDate => e.(date := v)
    case ExperienceDescription => e.(description := v)
  }

  function ProjectWith(p: Project, f: ProjectField, v: string): (r: Project)
    ensures r.id == p.id
    ensures ProjectValue(r, f) == v
    ensures forall g :: g != f ==> ProjectValue(r, g) == ProjectValue(p, g)
  {
    match f
    case ProjectName => p.(name := v)
    case ProjectDescription => p.(description := v)
    case Url => p.(url := v)
  }

  /** handleEducationChange: every education entry with id `id` gets the new
      value in field `f` and keeps its id and its other fields; every other
      entry, and everything outside the education section, is unchanged. */
  function HandleEducationChange(data: ResumeData, id: string, f: EducationField, v: string): (r: ResumeData)
    ensures |r.education| == |data.education|
    ensures forall i :: 0 <= i < |data.education| && data.education[i].id == id ==>
      && r.education[i].id == id
      && EducationValue(r.education[i], f) == v
      && forall g :: g != f ==> EducationValue(r.education[i], g) == EducationValue(data.education[i], g)
    ensures forall i :: 0 <= i < |data.education| && data.education[i].id != id ==>
      r.education[i] == data.education[i]
    ensures r.personalDetails == data.personalDetails && r.experience == data.experience
    ensures r.skills == data.skills && r.projects == data.projects
    ensures !HasId(data.education, EducationId, id) ==> r == data
  {
    data.(education := UpdateWhere(data.education, EducationId, id, e => EducationWith(e, f, v)))
  }

  /** handleExperienceChange: as for education, on the experience section. */
  function HandleExperienceChange(data: ResumeData, id: string, f: ExperienceField, v: string): (r: ResumeData)
    ensures |r.experience| == |data.experience|
    ensures forall i :: 0 <= i < |data.experience| && data.experience[i].id == id ==>
      && r.experience[i].id == id
      && ExperienceValue(r.experience[i], f) == v
      && forall g :: g != f ==> ExperienceValue(r.experience[i], g) == ExperienceValue(data.experience[i], g)
    ensures forall i :: 0 <= i < |data.experience| && data.experience[i].id != id ==>
      r.experience[i] == data.experience[i]
    ensures r.personalDetails == data.personalDetails && r.education == data.education
    ensures r.skills == data.skills && r.projects == data.projects
    ensures !HasId(data.experience, ExperienceId, id) ==> r == data
  {
    data.(experience := UpdateWhere(data.experience, ExperienceId, id, e => ExperienceWith(e, f, v)))
  }

  /** handleSkillChange: the only editable field of a skill is its name; a
      matching skill gets the new name and keeps its id. */
  function HandleSkillChange(data: ResumeData, id: string, v: string): (r: ResumeData)
    ensures |r.skills| == |data.skills|
    ensures forall i :: 0 <= i < |data.skills| && data.skills[i].id == id ==>
      r.skills[i].id == id && r.skills[i].name == v
    ensures forall i :: 0 <= i < |data.skills| && data.skills[i].id != id ==>
      r.skills[i] == data.skills[i]
    ensures r.personalDetails == data.personalDetails && r.education == data.education
    ensures r.experience == data.experience && r.projects == data.projects
    ensures !HasId(data.skills, SkillId, id) ==> r == data
  {
    data.(skills := UpdateWhere(data.skills, SkillId, id, (s: Skill) => s.(name := v)))
  }

  /** handleProjectChange: as for education, on the projects section. */
  function HandleProjectChange(data: ResumeData, id: string, f: ProjectField, v: string): (r: ResumeData)
    ensures |r.projects| == |data.projects|
    ensures forall i :: 0 <= i < |data.projects| && data.projects[i].id == id ==>
      && r.projects[i].id == id
      && ProjectValue(r.projects[i], f) == v
      && forall g :: g != f ==> ProjectValue(r.projects[i], g) == ProjectValue(data.projects[i], g)
    ensures forall i :: 0 <= i < |data.projects| && data.projects[i].id != id ==>
      r.projects[i] == data.projects[i]
    ensures r.personalDetails == data.personalDetails && r.education == data.education
    ensures r.experience == data.experience && r.skills == data.skills
    ensures !HasId(data.projects, ProjectId, id) ==> r == data
  {
    data.(projects := UpdateWhere(data.projects, ProjectId, id, p => ProjectWith(p, f, v)))
  }

  // ---------------------------------------------------------------------
  // Adding a blank entry with a fresh id
  // ---------------------------------------------------------------------

  /** addEducation: the old entries are an unchanged prefix and one blank
      entry with the supplied id follows; if that id is new, the section's
      ids stay pairwise distinct. */
  function AddEducation(data: ResumeData, freshId: string): (r: ResumeData)
    ensures |r.education| == |data.education| + 1
    ensures r.education[..|data.education|] == data.education
    ensures r.education[|data.education|].id == freshId
    ensures forall f :: EducationValue(r.education[|data.education|], f) == ""
    ensures r.personalDetails == data.personalDetails && r.experience == data.experience
    ensures r.skills == data.skills && r.projects == data.projects
    ensures DistinctIds(data.education, EducationId) && !HasId(data.education, EducationId, freshId) ==>
      DistinctIds(r.education, EducationId)
  {
    var e := Education(freshId, "", "", "", "");
    AppendFreshKeepsDistinct(data.education, EducationId, e);
    data.(education := data.education + [e])
  }

  /** addExperience: as for education, on the experience section. */
  function AddExperience(data: ResumeData, freshId: string): (r: ResumeData)
    ensures |r.experience| == |data.experience| + 1
    ensures r.experience[..|data.experience|] == data.experience
    ensures r.experience[|data.experience|].id == freshId
    ensures forall f :: ExperienceValue(r.experience[|data.experience|], f) == ""
    ensures r.personalDetails == data.personalDetails && r.education == data.education
    ensures r.skills == data.skills && r.projects == data.projects
    ensures DistinctIds(data.experience, ExperienceId) && !HasId(data.experience, ExperienceId, freshId) ==>
      DistinctIds(r.experience, ExperienceId)
  {
    var e := Experience(freshId, "", "", "", "");
    AppendFreshKeepsDistinct(data.experience, ExperienceId, e);
    data.(experience := data.experience + [e])
  }

  /** addSkill: a skill with the supplied id and an empty name is appended. */
  function AddSkill(data: ResumeData, freshId: string): (r: ResumeData)
    ensures |r.skills| == |data.skills| + 1
    ensures r.skills[..|data.skills|] == data.skills
    ensures r.skills[|data.skills|].id == freshId && r.skills[|data.skills|].name == ""
    ensures r.personalDetails == data.personalDetails && r.education == data.education
    ensures r.experience == data.experience && r.projects == data.projects
    ensures DistinctIds(data.skills, SkillId) && !HasId(data.skills, SkillId, freshId) ==>
      DistinctIds(r.skills, SkillId)
  {
    var s := Skill(freshId, "");
    AppendFreshKeepsDistinct(data.skills, SkillId, s);
    data.(skills := data.skills + [s])
  }

  /** addProject: a project with the supplied id and empty name, description
      and url is appended. */
  function AddProject(data: ResumeData, freshId: string): (r: ResumeData)
    ensures |r.projects| == |data.projects| + 1
    ensures r.projects[..|data.projects|] == data.projects
    ensures r.projects[|data.projects|].id == freshId
    ensures forall f :: ProjectValue(r.projects[|data.projects|], f) == ""
    ensures r.personalDetails == data.personalDetails && r.education == data.education
    ensures r.experience == data.experience && r.skills == data.skills
    ensures DistinctIds(data.projects, ProjectId) && !HasId(data.projects, ProjectId, freshId) ==>
      DistinctIds(r.projects, ProjectId)
  {
    var p := Project(freshId, "", "", "");
    AppendFreshKeepsDistinct(data.projects, ProjectId, p);
    data.(projects := data.projects + [p])
  }

  // ---------------------------------------------------------------------
  // Removing entries by id
  // ---------------------------------------------------------------------

  /** removeEducation: no entry with id `id` is left, the section shrinks by
      the number of entries that carried it, and the survivors keep their
      relative order; nothing outside the section changes. */
  function RemoveEducation(data: ResumeData, id: string): (r: ResumeData)
    ensures !HasId(r.education, EducationId, id)
    ensures |r.education| == |data.education| - CountId(data.education, EducationId, id)
    ensures IsSubsequence(r.education, data.education)
    ensures DistinctIds(data.education, EducationId) ==> DistinctIds(r.education, EducationId)
    ensures forall e :: e in data.education && e.id != id ==> e in r.education
    ensures r.personalDetails == data.personalDetails && r.experience == data.experience
    ensures r.skills == data.skills && r.projects == data.projects
  {
    RemoveKeepsOrder(data.education, EducationId, id);
    RemoveKeepsSurvivors(data.education, EducationId, id);
    RemoveKeepsDistinct(data.education, EducationId, id);
    data.(education := RemoveWhere(data.education, EducationId, id))
  }

  /** removeExperience: as for education, on the experience section. */
  function RemoveExperience(data: ResumeData, id: string): (r: ResumeData)
    ensures !HasId(r.experience, ExperienceId, id)
    ensures |r.experience| == |data.experience| - CountId(data.experience, ExperienceId, id)
    ensures IsSubsequence(r.experience, data.experience)
    ensures DistinctIds(data.experience, ExperienceId) ==> DistinctIds(r.experience, ExperienceId)
    ensures forall e :: e in data.experience && e.id != id ==> e in r.experience
    ensures r.personalDetails == data.personalDetails && r.education == data.education
    ensures r.skills == data.skills && r.projects == data.projects
  {
    RemoveKeepsOrder(data.experience, ExperienceId, id);
    RemoveKeepsSurvivors(data.experience, ExperienceId, id);
    RemoveKeepsDistinct(data.experience, ExperienceId, id);
    data.(experience := RemoveWhere(data.experience, ExperienceId, id))
  }

  /** removeSkill: as for education, on the skills section. */
  function RemoveSkill(data: ResumeData, id: string): (r: ResumeData)
    ensures !HasId(r.skills, SkillId, id)
    ensures |r.skills| == |data.skills| - CountId(data.skills, SkillId, id)
    ensures IsSubsequence(r.skills, data.skills)
    ensures DistinctIds(data.skills, SkillId) ==> DistinctIds(r.skills, SkillId)
    ensures forall s :: s in data.skills && s.id != id ==> s in r.skills
    ensures r.personalDetails == data.personalDetails && r.education == data.education
    ensures r.experience == data.experience && r.projects == data.projects
  {
    RemoveKeepsOrder(data.skills, SkillId, id);
    RemoveKeepsSurvivors(data.skills, SkillId, id);
    RemoveKeepsDistinct(data.skills, SkillId, id);
    data.(skills := RemoveWhere(data.skills, SkillId, id))
  }

  /** removeProject: as for education, on the projects section. */
  function RemoveProject(data: ResumeData, id: string): (r: ResumeData)
    ensures !HasId(r.projects, ProjectId, id)
    ensures |r.projects| == |data.projects| - CountId(data.projects, ProjectId, id)
    ensures IsSubsequence(r.projects, data.projects)
    ensures DistinctIds(data.projects, ProjectId) ==> DistinctIds(r.projects, ProjectId)
    ensures forall p :: p in data.projects && p.id != id ==> p in r.projects
    ensures r.personalDetails == data.personalDetails && r.education == data.education
    ensures r.experience == data.experience && r.skills == data.skills
  {
    RemoveKeepsOrder(data.projects, ProjectId, id);
    RemoveKeepsSurvivors(data.projects, ProjectId, id);
    RemoveKeepsDistinct(data.projects, ProjectId, id);
    data.(projects := RemoveWhere(data.projects, ProjectId, id))
  }

  /** Removing the same id twice is the same as removing it once, in every
      section. */
  lemma RemoveIsIdempotent(data: ResumeData, id: string)
    ensures RemoveEducation(RemoveEducation(data, id), id) == RemoveEducation(data, id)
    ensures RemoveExperience(RemoveExperience(data, id), id) == RemoveExperience(data, id)
    ensures RemoveSkill(RemoveSkill(data, id), id) == RemoveSkill(data, id)
    ensures RemoveProject(RemoveProject(data, id), id) == RemoveProject(data, id)
  {
    var e := RemoveWhere(data.education, EducationId, id);
    assert RemoveWhere(e, EducationId, id) == e;
    var x := RemoveWhere(data.experience, ExperienceId, id);
    assert RemoveWhere(x, ExperienceId, id) == x;
    var s := RemoveWhere(data.skills, SkillId, id);
    assert RemoveWhere(s, SkillId, id) == s;
    var p := RemoveWhere(data.projects, ProjectId, id);
    assert RemoveWhere(p, ProjectId, id) == p;
  }

  /** When a section's ids are distinct, removing an id that is present
      shrinks that section by exactly one entry. */
  lemma RemovePresentDistinctShrinksByOne<T>(s: seq<T>, idOf: T -> string, id: string)
    requires DistinctIds(s, idOf)
    requires HasId(s, idOf, id)
    ensures |RemoveWhere(s, idOf, id)| == |s| - 1
  {
    CountIdDistinct(s, idOf, id);
  }
}
