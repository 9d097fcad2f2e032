/** components/user/cv-form.tsx: the form's data, the helpers that rebuild
    it (skills, experience and education entries) and the submit handler
    that writes the CV into `mockCVs`. */
module CvForm {
  import opened Wrappers
  import opened Js
  import Seqs
  import Tags
  import Records
  import Auth
  import opened MockStore

  /** `formData` */
  datatype Form = Form(name: string, email: string, phone: string, summary: string,
                       experience: seq<Experience>, education: seq<Education>, skills: seq<string>)

  /** The form's state: its data and the skill text box. */
  datatype State = State(form: Form, newSkill: string)

  /** `a || b` on texts. */
  function OrText(a: string, b: string): string {
    if a != "" then a else b
  }

  /** `user?.key` when it is text, "" otherwise. */
  function UserText(user: Option<Auth.User>, key: string): string {
    if user.Some? && Get(user.value, key).Str? then Get(user.value, key).s else ""
  }

  /** The first render: the CV's values, else the signed-in user's name and
      e-mail, else blanks; an empty skill box. */
  function InitialState(cv: Option<Cv>, user: Option<Auth.User>): (r: State)
    ensures r.newSkill == ""
    ensures cv.Some? ==> r.form.experience == cv.value.experience && r.form.education == cv.value.education
                         && r.form.skills == cv.value.skills
    ensures cv.None? ==> r.form.experience == [] && r.form.education == [] && r.form.skills == []
                         && r.form.phone == "" && r.form.summary == ""
    ensures cv.Some? && cv.value.name != "" ==> r.form.name == cv.value.name
    ensures (cv.None? || cv.value.name == "") ==> r.form.name == UserText(user, "name")
    ensures cv.Some? && cv.value.email != "" ==> r.form.email == cv.value.email
    ensures (cv.None? || cv.value.email == "") ==> r.form.email == UserText(user, "email")
  {
    var f := if cv.Some? then
               Form(OrText(cv.value.name, UserText(user, "name")), OrText(cv.value.email, UserText(user, "email")),
                    cv.value.phone, cv.value.summary, cv.value.experience, cv.value.education, cv.value.skills)
             else
               Form(UserText(user, "name"), UserText(user, "email"), "", "", [], [], []);
    State(f, "")
  }

  /** `addSkill`: the skill list and the box change as `Tags.Add` says;
      nothing else in the form changes. */
  function AddSkill(s: State): (r: State)
    ensures Tags.Edit(r.form.skills, r.newSkill) == Tags.Add(s.form.skills, s.newSkill)
    ensures r.form == s.form.(skills := r.form.skills)
  {
    var e := Tags.Add(s.form.skills, s.newSkill);
    State(s.form.(skills := e.tags), e.pending)
  }

  /** `removeSkill`: every copy of `skill` leaves the list; nothing else
      changes. */
  function RemoveSkill(s: State, skill: string): (r: State)
    ensures r.form.skills == Tags.Remove(s.form.skills, skill)
    ensures r == s.(form := s.form.(skills := r.form.skills))
  {
    s.(form := s.form.(skills := Tags.Remove(s.form.skills, skill)))
  }

  /** The keys of an `Experience`. */
  datatype ExperienceField = ExpId | ExpCompany | ExpPosition | ExpStartDate | ExpEndDate | ExpDescription

  /** `e[field]` */
  function ExperienceValue(e: Experience, f: ExperienceField): string {
    match f
    case ExpId => e.id
    case ExpCompany => e.company
    case ExpPosition => e.position
    case ExpStartDate => e.startDate
    case ExpEndDate => e.endDate
    case ExpDescription => e.description
  }

  /** Entries with the same value under every key are the same entry. */
  lemma ExperienceByValues(a: Experience, b: Experience)
    requires forall f :: ExperienceValue(a, f) == ExperienceValue(b, f)
    ensures a == b
  {
    assert ExperienceValue(a, ExpId) == ExperienceValue(b, ExpId);
    assert ExperienceValue(a, ExpCompany) == ExperienceValue(b, ExpCompany);
    assert ExperienceValue(a, ExpPosition) == ExperienceValue(b, ExpPosition);
    assert ExperienceValue(a, ExpStartDate) == ExperienceValue(b, ExpStartDate);
    assert ExperienceValue(a, ExpEndDate) == ExperienceValue(b, ExpEndDate);
    assert ExperienceValue(a, ExpDescription) == ExperienceValue(b, ExpDescription);
  }

  /** `{ ...e, [field]: value }` */
  function SetExperienceValue(e: Experience, f: ExperienceField, v: string): (r: Experience)
    ensures ExperienceValue(r, f) == v
    ensures forall g :: g != f ==> ExperienceValue(r, g) == ExperienceValue(e, g)
  {
    match f
    case ExpId => e.(id := v)
    case ExpCompany => e.(company := v)
    case ExpPosition => e.(position := v)
    case ExpStartDate => e.(startDate := v)
    case ExpEndDate => e.(endDate := v)
    case ExpDescription => e.(description := v)
  }

  /** `addExperience`: one entry with id `String(now)` and blank texts is
      appended; the entries before it and the rest of the form are kept. */
  function AddExperience(s: State, now: int): (r: State)
    ensures |r.form.experience| == |s.form.experience| + 1
    ensures r.form.experience[..|s.form.experience|] == s.form.experience
    ensures var e := r.form.experience[|s.form.experience|];
            ExperienceValue(e, ExpId) == IntToString(now) &&
            forall f :: f != ExpId ==> ExperienceValue(e, f) == ""
    ensures r == s.(form := s.form.(experience := r.form.experience))
  {
    s.(form := s.form.(experience := s.form.experience + [Experience(IntToString(now), "", "", "", "", "")]))
  }

  /** `updateExperience`: only `field` of the entry at `index` changes. The
      form only calls it with the index of an entry on screen. */
  function UpdateExperience(s: State, index: int, f: ExperienceField, v: string): (r: State)
    requires 0 <= index < |s.form.experience|
    ensures |r.form.experience| == |s.form.experience|
    ensures forall k :: 0 <= k < |s.form.experience| && k != index ==> r.form.experience[k] == s.form.experience[k]
    ensures ExperienceValue(r.form.experience[index], f) == v
    ensures forall g :: g != f ==> ExperienceValue(r.form.experience[index], g) == ExperienceValue(s.form.experience[index], g)
    ensures r == s.(form := s.form.(experience := r.form.experience))
  {
    var updated := s.form.experience;
    s.(form := s.form.(experience := updated[index := SetExperienceValue(updated[index], f, v)]))
  }

  /** `removeExperience`: exactly the entry at `index` goes. */
  function RemoveExperience(s: State, index: int): (r: State)
    ensures 0 <= index < |s.form.experience| ==>
              r.form.experience == s.form.experience[..index] + s.form.experience[index + 1..]
    ensures !(0 <= index < |s.form.experience|) ==> r == s
    ensures r == s.(form := s.form.(experience := r.form.experience))
  {
    s.(form := s.form.(experience := Seqs.DropIndex(s.form.experience, index)))
  }

  /** Removing the entry just added gives back the form as it was. */
  lemma RemoveUndoesAddExperience(s: State, now: int)
    ensures RemoveExperience(AddExperience(s, now), |s.form.experience|) == s
  {
    var a := AddExperience(s, now);
    assert a.form.experience[..|s.form.experience|] + a.form.experience[|s.form.experience| + 1..] == s.form.experience;
  }

  /** Writing a field's current value back changes nothing. */
  lemma UpdateExperienceWithSameValue(s: State, index: int, f: ExperienceField)
    requires 0 <= index < |s.form.experience|
    ensures UpdateExperience(s, index, f, ExperienceValue(s.form.experience[index], f)) == s
  {
    var r := UpdateExperience(s, index, f, ExperienceValue(s.form.experience[index], f));
    ExperienceByValues(r.form.experience[index], s.form.experience[index]);
    assert r.form.experience == s.form.experience;
  }

  /** The keys of an `Education`. */
  datatype EducationField = EduId | EduInstitution | EduDegree | EduField | EduStartDate | EduEndDate

  /** `e[field]` */
  function EducationValue(e: Education, f: EducationField): string {
    match f
    case EduId => e.id
    case EduInstitution => e.institution
    case EduDegree => e.degree
    case EduField => e.field
    case EduStartDate => e.startDate
    case EduEndDate => e.endDate
  }

  /** Entries with the same value under every key are the same entry. */
  lemma EducationByValues(a: Education, b: Education)
    requires forall f :: EducationValue(a, f) == EducationValue(b, f)
    ensures a == b
  {
    assert EducationValue(a, EduId) == EducationValue(b, EduId);
    assert EducationValue(a, EduInstitution) == EducationValue(b, EduInstitution);
    assert EducationValue(a, EduDegree) == EducationValue(b, EduDegree);
    assert EducationValue(a, EduField) == EducationValue(b, EduField);
    assert EducationValue(a, EduStartDate) == EducationValue(b, EduStartDate);
    assert EducationValue(a, EduEndDate) == EducationValue(b, EduEndDate);
  }

  /** `{ ...e, [field]: value }` */
  function SetEducationValue(e: Education, f: EducationField, v: string): (r: Education)
    ensures EducationValue(r, f) == v
    ensures forall g :: g != f ==> EducationValue(r, g) == EducationValue(e, g)
  {
    match f
    case EduId => e.(id := v)
    case EduInstitution => e.(institution := v)
    case EduDegree => e.(degree := v)
    case EduField => e.(field := v)
    case EduStartDate => e.(startDate := v)
    case EduEndDate => e.(endDate := v)
  }

  /** `addEducation`: one entry with id `String(now)` and blank texts is
      appended; the entries before it and the rest of the form are kept. */
  function AddEducation(s: State, now: int): (r: State)
    ensures |r.form.education| == |s.form.education| + 1
    ensures r.form.education[..|s.form.education|] == s.form.education
    ensures var e := r.form.education[|s.form.education|];
            EducationValue(e, EduId) == IntToString(now) &&
            forall f :: f != EduId ==> EducationValue(e, f) == ""
    ensures r == s.(form := s.form.(education := r.form.education))
  {
    s.(form := s.form.(education := s.form.education + [Education(IntToString(now), "", "", "", "", "")]))
  }

  /** `updateEducation`: only `field` of the entry at `index` changes. The
      form only calls it with the index of an entry on screen. */
  function UpdateEducation(s: State, index: int, f: EducationField, v: string): (r: State)
    requires 0 <= index < |s.form.education|
    ensures |r.form.education| == |s.form.education|
    ensures forall k :: 0 <= k < |s.form.education| && k != index ==> r.form.education[k] == s.form.education[k]
    ensures EducationValue(r.form.education[index], f) == v
    ensures forall g :: g != f ==> EducationValue(r.form.education[index], g) == EducationValue(s.form.education[index], g)
    ensures r == s.(form := s.form.(education := r.form.education))
  {
    var updated := s.form.education;
    s.(form := s.form.(education := updated[index := SetEducationValue(updated[index], f, v)]))
  }

  /** `removeEducation`: exactly the entry at `index` goes. */
  function RemoveEducation(s: State, index: int): (r: State)
    ensures 0 <= index < |s.form.education| ==>
              r.form.education == s.form.education[..index] + s.form.education[index + 1..]
    ensures !(0 <= index < |s.form.education|) ==> r == s
    ensures r == s.(form := s.form.(education := r.form.education))
  {
    s.(form := s.form.(education := Seqs.DropIndex(s.form.education, index)))
  }

  /** Removing the entry just added gives back the form as it was. */
  lemma RemoveUndoesAddEducation(s: State, now: int)
    ensures RemoveEducation(AddEducation(s, now), |s.form.education|) == s
  {
    var a := AddEducation(s, now);
    assert a.form.education[..|s.form.education|] + a.form.education[|s.form.education| + 1..] == s.form.education;
  }

  /** Writing a field's current value back changes nothing. */
  lemma UpdateEducationWithSameValue(s: State, index: int, f: EducationField)
    requires 0 <= index < |s.form.education|
    ensures UpdateEducation(s, index, f, EducationValue(s.form.education[index], f)) == s
  {
    var r := UpdateEducation(s, index, f, EducationValue(s.form.education[index], f));
    EducationByValues(r.form.education[index], s.form.education[index]);
    assert r.form.education == s.form.education;
  }

  /** `newCV`: the edited CV's id when it has one, else `String(now)`; the
      user's id; the form's contents; `timestamp` as update time. */
  function NewCv(cv: Option<Cv>, user: Auth.User, form: Form, now: int, timestamp: string): (r: Cv)
    ensures r.id == if cv.Some? && cv.value.id != "" then cv.value.id else IntToString(now)
    ensures r.userId == Get(user, "id") && r.updatedAt == timestamp
    ensures r.name == form.name && r.email == form.email && r.phone == form.phone && r.summary == form.summary
    ensures r.experience == form.experience && r.education == form.education && r.skills == form.skills
  {
    Cv(if cv.Some? then OrText(cv.value.id, IntToString(now)) else IntToString(now),
       Get(user, "id"), form.name, form.email, form.phone, form.summary,
       form.experience, form.education, form.skills, timestamp)
  }

  /** `handleSubmit`: without a signed-in user nothing happens. Otherwise the
      new CV replaces, in place, the first stored CV with the edited CV's id
      (nothing when there is none), or is appended when no CV was being
      edited; it is then handed to `onSave`. */
  method HandleSubmit(db: MockDb, cv: Option<Cv>, user: Option<Auth.User>, form: Form, now: int, timestamp: string)
    returns (saved: Option<Cv>)
    modifies db`cvs
    ensures user.None? ==> saved.None? && db.cvs == old(db.cvs)
    ensures user.Some? ==> saved == Some(NewCv(cv, user.value, form, now, timestamp))
    ensures user.Some? ==> db.cvs == Records.Upsert(old(db.cvs), CvId, cv, saved.value)
  {
    if user.None? {
      return None;
    }
    var newCv := NewCv(cv, user.value, form, now, timestamp);
    if cv.Some? {
      var index := Seqs.FindIndex(db.cvs, (c: Cv) => c.id == cv.value.id);
      if index != -1 {
        db.cvs := db.cvs[index := newCv];
      }
    } else {
      db.cvs := db.cvs + [newCv];
    }
    return Some(newCv);
  }

  /** Saving keeps CV ids unique, provided an edited CV has an id and a new
      CV's time-based id is not in use yet. */
  lemma SubmitKeepsIdsUnique(cvs: seq<Cv>, cv: Option<Cv>, user: Auth.User, form: Form, now: int, timestamp: string)
    requires Records.UniqueIds(cvs, CvId)
    requires cv.Some? ==> cv.value.id != ""
    requires cv.None? ==> !Records.HasId(cvs, CvId, IntToString(now))
    ensures Records.UniqueIds(Records.Upsert(cvs, CvId, cv, NewCv(cv, user, form, now, timestamp)), CvId)
  {
    Records.UpsertKeepsUniqueIds(cvs, CvId, cv, NewCv(cv, user, form, now, timestamp));
  }
}
