/** app/admin/jobs/page.tsx: the admin's job list, the form toggle and the
    handlers that save, edit, delete and cancel, working together with the
    job form on `mockJobs`. */
module AdminJobsPage {
  import opened Wrappers
  import Js
  import Seqs
  import Records
  import JobForm
  import opened MockStore

  const CompanyNotFound := "Empresa não encontrada"

  /** `mockCompanies.find(c => c.id === companyId)?.name || "Empresa não encontrada"` */
  function CompanyName(companies: seq<Company>, companyId: string): (r: string)
    ensures r != ""
    ensures !Records.HasId(companies, CompanyId, companyId) ==> r == CompanyNotFound
    ensures r != CompanyNotFound ==>
              exists i :: 0 <= i < |companies| && companies[i].id == companyId && companies[i].name == r
                          && forall k :: 0 <= k < i ==> companies[k].id != companyId
    ensures forall i :: 0 <= i < |companies| && FirstWithId(companies, companyId, i) ==>
              r == (if companies[i].name != "" then companies[i].name else CompanyNotFound)
  {
    var c := Seqs.Find(companies, (e: Company) => e.id == companyId);
    if c.Some? && c.value.name != "" then c.value.name else CompanyNotFound
  }

  /** `companies[i]` is the first company whose id is `id`. */
  predicate FirstWithId(companies: seq<Company>, id: string, i: int)
    requires 0 <= i < |companies|
  {
    companies[i].id == id && forall k :: 0 <= k < i ==> companies[k].id != id
  }

  /** The Portuguese labels of the four known job types. */
  const JobTypeLabels: map<string, string> :=
    map["full-time" := "Tempo Integral", "part-time" := "Meio Período", "contract" := "Contrato", "remote" := "Remoto"]

  /** `getJobTypeLabel`: a known type's label, any other type as it is. */
  function JobTypeLabel(t: string): (r: string)
    ensures t in JobTypeLabels ==> r == JobTypeLabels[t]
    ensures t !in JobTypeLabels ==> r == t
  {
    if t in JobTypeLabels then JobTypeLabels[t] else t
  }

  /** The four known types get four different labels, none of them a type
      name, so a label tells which known type it came from. */
  lemma KnownLabelsAreDistinct(a: string, b: string)
    requires a in JobTypeLabels && b in JobTypeLabels && a != b
    ensures JobTypeLabel(a) != JobTypeLabel(b)
    ensures JobTypeLabel(a) !in JobTypeLabels
  {
  }

  /** As written, `useState(mockJobs)` makes the page's list the very array
      the form pushes onto. On the first creation after the page mounts,
      `handleSave`'s `prev` already holds the new job, so this is the list
      the page then shows. */
  function AliasedCreate(mock: seq<Job>, saved: Job): seq<Job> {
    Records.Save(Records.Upsert(mock, JobId, None, saved), JobId, false, saved)
  }

  /** The aliased list shows the new job twice, and no longer matches the
      store, which holds it once. */
  lemma AliasedCreateListsTwice(mock: seq<Job>, saved: Job)
    ensures AliasedCreate(mock, saved) == mock + [saved, saved]
    ensures multiset(AliasedCreate(mock, saved))[saved] == multiset(mock)[saved] + 2
    ensures AliasedCreate(mock, saved) != Records.Upsert(mock, JobId, None, saved)
  {
    assert |AliasedCreate(mock, saved)| == |mock| + 2;
  }

  /** The page's state, with its job list held as its own copy. */
  class JobsPage {
    const db: MockDb
    var jobs: seq<Job>
    var showForm: bool
    var editingJob: Option<Job>

    /** The first render: the list as stored, the form closed. */
    constructor(db: MockDb)
      ensures this.db == db && jobs == db.jobs
      ensures !showForm && editingJob.None?
    {
      this.db := db;
      jobs := db.jobs;
      showForm := false;
      editingJob := None;
    }

    /** The page's list is the store's list, ids are unique and present, and
        the job being edited has an id. */
    predicate InSync()
      reads this, db
    {
      && jobs == db.jobs
      && Records.UniqueIds(jobs, JobId)
      && (forall j :: j in jobs ==> j.id != "")
      && (editingJob.Some? ==> editingJob.value.id != "")
    }

    /** "Nova Vaga": the form opens with nothing being edited. */
    method OpenNewForm()
      modifies this`showForm
      ensures showForm
    {
      showForm := true;
    }

    /** `handleEdit`: the form opens on `job`. */
    method HandleEdit(job: Job)
      modifies this`showForm, this`editingJob
      ensures showForm && editingJob == Some(job)
      ensures old(InSync()) && job in jobs ==> InSync()
    {
      editingJob := Some(job);
      showForm := true;
    }

    /** `handleCancel`: the form closes, nothing is being edited. */
    method HandleCancel()
      modifies this`showForm, this`editingJob
      ensures !showForm && editingJob.None?
      ensures old(InSync()) ==> InSync()
    {
      showForm := false;
      editingJob := None;
    }

    /** `handleSave`: while editing, every job with the saved id is replaced
        by it, keeping length and order; otherwise it is appended. The form
        closes. */
    method HandleSave(job: Job)
      modifies this`jobs, this`showForm, this`editingJob
      ensures jobs == Records.Save(old(jobs), JobId, old(editingJob).Some?, job)
      ensures !showForm && editingJob.None?
    {
      jobs := if editingJob.Some? then Seqs.ReplaceWhere(jobs, (j: Job) => j.id == job.id, job) else jobs + [job];
      showForm := false;
      editingJob := None;
    }

    /** `handleDelete`, with the answer to `confirm(...)`: when confirmed,
        every listed job with that id goes and the first stored one is
        spliced out; when declined nothing changes. */
    method HandleDelete(job: Job, confirmed: bool)
      modifies this`jobs, db`jobs
      ensures confirmed ==> jobs == Records.DeleteAll(old(jobs), JobId, job.id)
      ensures confirmed ==> db.jobs == Records.DeleteFirst(old(db.jobs), JobId, job.id)
      ensures !confirmed ==> jobs == old(jobs) && db.jobs == old(db.jobs)
      ensures old(InSync()) ==> InSync()
    {
      if confirmed {
        ghost var before := jobs;
        jobs := Records.DeleteAll(jobs, JobId, job.id);
        var index := Seqs.FindIndex(db.jobs, (j: Job) => j.id == job.id);
        Records.DeleteFirstAt(db.jobs, JobId, job.id, index);
        if index != -1 {
          db.jobs := db.jobs[..index] + db.jobs[index + 1..];
        }
        if before == old(db.jobs) && Records.UniqueIds(before, JobId) {
          Records.DeletesAgree(before, JobId, job.id);
        }
      }
    }

    /** The form's submit followed by the page's `handleSave`: the store gets
        the form's write, and the page's list, kept as its own copy, is
        again exactly the store's list. A new job's time-based id must not
        be in use yet. */
    method SubmitForm(form: JobForm.Form, now: int, timestamp: string) returns (saved: Job)
      requires InSync()
      requires editingJob.None? ==> !Records.HasId(jobs, JobId, Js.IntToString(now))
      modifies this`jobs, this`showForm, this`editingJob, db`jobs
      ensures saved == JobForm.NewJob(old(editingJob), form, now, timestamp)
      ensures db.jobs == Records.Upsert(old(db.jobs), JobId, old(editingJob), saved)
      ensures !showForm && editingJob.None?
      ensures InSync()
    {
      var original := editingJob;
      var before := jobs;
      saved := JobForm.HandleSubmit(db, original, form, now, timestamp);
      HandleSave(saved);
      Records.SaveMatchesUpsert(before, JobId, original, saved);
      Records.UpsertKeepsUniqueIds(before, JobId, original, saved);
      forall j | j in jobs ensures j.id != "" {
        if j != saved {
          Records.UpsertOnlyAdds(before, JobId, original, saved, j);
        }
      }
    }
  }
}
