/** components/admin/company-form.tsx: the form's data and the submit
    handler that writes the company into `mockCompanies`. */
module CompanyForm {
  import opened Wrappers
  import Js
  import Seqs
  import Records
  import opened MockStore

  /** `formData` */
  datatype Form = Form(name: string, description: string, website: string)

  /** The first render: the edited company's values, else blanks. */
  function InitialForm(company: Option<Company>): (r: Form)
    ensures company.None? ==> r == Form("", "", "")
    ensures company.Some? ==> r.name == company.value.name && r.description == company.value.description
                              && r.website == (if company.value.website.Some? then company.value.website.value else "")
  {
    if company.None? then Form("", "", "")
    else
      var c := company.value;
      Form(c.name, c.description, if c.website.Some? then c.website.value else "")
  }

  /** `newCompany`: the edited company's id and creation time when it has
      them, else `String(now)` and `timestamp`; name and description as
      typed; an empty website left out. */
  function NewCompany(company: Option<Company>, form: Form, now: int, timestamp: string): (r: Company)
    ensures r.id == if company.Some? && company.value.id != "" then company.value.id else Js.IntToString(now)
    ensures r.createdAt == if company.Some? && company.value.createdAt != "" then company.value.createdAt else timestamp
    ensures r.name == form.name && r.description == form.description
    ensures r.website == Js.TextOrUndefined(form.website)
  {
    Company(if company.Some? && company.value.id != "" then company.value.id else Js.IntToString(now),
            form.name, form.description, Js.TextOrUndefined(form.website),
            if company.Some? && company.value.createdAt != "" then company.value.createdAt else timestamp)
  }

  /** Re-saving a company through an untouched form gives back the same
      company, provided it has an id and a creation time. */
  lemma ResaveUnchanged(company: Company, now: int, timestamp: string)
    requires company.id != "" && company.createdAt != ""
    requires company.website.Some? ==> company.website.value != ""
    ensures NewCompany(Some(company), InitialForm(Some(company)), now, timestamp) == company
  {
  }

  /** `handleSubmit`: the new company replaces, in place, the first stored
      company with the edited company's id (nothing when there is none), or
      is appended when none was being edited; `onSave` receives exactly the
      record written. */
  method HandleSubmit(db: MockDb, company: Option<Company>, form: Form, now: int, timestamp: string)
    returns (saved: Company)
    modifies db`companies
    ensures saved == NewCompany(company, form, now, timestamp)
    ensures db.companies == Records.Upsert(old(db.companies), CompanyId, company, saved)
    ensures company.None? ==> db.companies[|db.companies| - 1] == saved
  {
    saved := NewCompany(company, form, now, timestamp);
    if company.Some? {
      var index := Seqs.FindIndex(db.companies, (c: Company) => c.id == company.value.id);
      if index != -1 {
        db.companies := db.companies[index := saved];
      }
    } else {
      db.companies := db.companies + [saved];
    }
  }
}
