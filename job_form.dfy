/** components/admin/job-form.tsx: the form's data, the requirement list
    editing and the submit handler that writes the job into `mockJobs`. */
module JobForm {
  import opened Wrappers
  import Js
  import Seqs
  import Tags
  import Records
  import opened MockStore

  /** `formData` */
  datatype Form = Form(title: string, description: string, salary: string, location: string,
                       jobType: string, companyId: string, requirements: seq<string>)

  /** The form's state: its data and the requirement text box. */
  datatype State = State(form: Form, newRequirement: string)

  /** `a || b` on texts. */
  function OrText(a: string, b: string): string {
    if a != "" then a else b
  }

  /** The first render: the edited job's values, else blanks, type
      "full-time" and no requirement. */
  function InitialState(job: Option<Job>): (r: State)
    ensures r.newRequirement == ""
    ensures job.None? ==> r.form == Form("", "", "", "", "full-time", "", [])
    ensures job.Some? ==> && r.form.title == job.value.title && r.form.description == job.value.description
                          && r.form.location == job.value.location && r.form.companyId == job.value.companyId
                          && r.form.requirements == job.value.requirements
                          && r.form.salary == (if job.value.salary.Some? then job.value.salary.value else "")
                          && r.form.jobType == OrText(job.value.jobType, "full-time")
  {
    if job.None? then State(Form("", "", "", "", "full-time", "", []), "")
    else
      var j := job.value;
      State(Form(j.title, j.description, if j.salary.Some? then j.salary.value else "", j.location,
                 OrText(j.jobType, "full-time"), j.companyId, j.requirements), "")
  }

  /** `addRequirement`: the requirement list and the box change as
      `Tags.Add` says; nothing else in the form changes. */
  function AddRequirement(s: State): (r: State)
    ensures Tags.Edit(r.form.requirements, r.newRequirement) == Tags.Add(s.form.requirements, s.newRequirement)
    ensures r.form == s.form.(requirements := r.form.requirements)
  {
    var e := Tags.Add(s.form.requirements, s.newRequirement);
    State(s.form.(requirements := e.tags), e.pending)
  }

  /** `removeRequirement`: every copy of `requirement` leaves the list;
      nothing else changes. */
  function RemoveRequirement(s: State, requirement: string): (r: State)
    ensures r.form.requirements == Tags.Remove(s.form.requirements, requirement)
    ensures r == s.(form := s.form.(requirements := r.form.requirements))
  {
    s.(form := s.form.(requirements := Tags.Remove(s.form.requirements, requirement)))
  }

  /** `newJob`: the edited job's id and creation time when it has them, else
      `String(now)` and `timestamp`; its `isActive` when editing (`??` keeps
      `false`), else true; everything else from the form, with an empty
      salary left out. */
  function NewJob(job: Option<Job>, form: Form, now: int, timestamp: string): (r: Job)
    ensures r.id == if job.Some? && job.value.id != "" then job.value.id else Js.IntToString(now)
    ensures r.createdAt == if job.Some? && job.value.createdAt != "" then job.value.createdAt else timestamp
    ensures r.isActive == if job.Some? then job.value.isActive else true
    ensures r.salary == Js.TextOrUndefined(form.salary)
    ensures r.title == form.title && r.description == form.description && r.requirements == form.requirements
    ensures r.location == form.location && r.jobType == form.jobType && r.companyId == form.companyId
  {
    Job(if job.Some? then OrText(job.value.id, Js.IntToString(now)) else Js.IntToString(now),
        form.title, form.description, form.requirements, Js.TextOrUndefined(form.salary), form.location,
        form.jobType, form.companyId,
        if job.Some? then OrText(job.value.createdAt, timestamp) else timestamp,
        if job.Some? then job.value.isActive else true)
  }

  /** Re-saving a job through an untouched form gives back the same job,
      provided it has an id and a creation time. */
  lemma ResaveUnchanged(job: Job, now: int, timestamp: string)
    requires job.id != "" && job.createdAt != "" && job.jobType != ""
    requires job.salary.Some? ==> job.salary.value != ""
    ensures NewJob(Some(job), InitialState(Some(job)).form, now, timestamp) == job
  {
  }

  /** `handleSubmit`: the new job replaces, in place, the first stored job
      with the edited job's id (nothing when there is none), or is appended
      when no job was being edited; it is then handed to `onSave`. */
  method HandleSubmit(db: MockDb, job: Option<Job>, form: Form, now: int, timestamp: string)
    returns (saved: Job)
    modifies db`jobs
    ensures saved == NewJob(job, form, now, timestamp)
    ensures db.jobs == Records.Upsert(old(db.jobs), JobId, job, saved)
  {
    saved := NewJob(job, form, now, timestamp);
    if job.Some? {
      var index := Seqs.FindIndex(db.jobs, (j: Job) => j.id == job.value.id);
      if index != -1 {
        db.jobs := db.jobs[index := saved];
      }
    } else {
      db.jobs := db.jobs + [saved];
    }
  }
}
