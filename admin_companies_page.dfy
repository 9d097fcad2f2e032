/** app/admin/companies/page.tsx: the admin's company list, the form toggle
    and the handlers that save, edit, delete and cancel, working together
    with the company form on `mockCompanies`. */
module AdminCompaniesPage {
  import opened Wrappers
  import Js
  import Seqs
  import Records
  import CompanyForm
  import opened MockStore

  /** As written, `useState(mockCompanies)` makes the page's list the very
      array the form pushes onto. On the first creation after the page
      mounts, `handleSave`'s `prev` already holds the new company, so this
      is the list the page then shows. */
  function AliasedCreate(mock: seq<Company>, saved: Company): seq<Company> {
    Records.Save(Records.Upsert(mock, CompanyId, None, saved), CompanyId, false, saved)
  }

  /** The aliased list shows the new company twice, and no longer matches
      the store, which holds it once. */
  lemma AliasedCreateListsTwice(mock: seq<Company>, saved: Company)
    ensures AliasedCreate(mock, saved) == mock + [saved, saved]
    ensures multiset(AliasedCreate(mock, saved))[saved] == multiset(mock)[saved] + 2
    ensures AliasedCreate(mock, saved) != Records.Upsert(mock, CompanyId, None, saved)
  {
    assert |AliasedCreate(mock, saved)| == |mock| + 2;
  }

  /** The page's state, with its company list held as its own copy. */
  class CompaniesPage {
    const db: MockDb
    var companies: seq<Company>
    var showForm: bool
    var editingCompany: Option<Company>

    /** The first render: the list as stored, the form closed. */
    constructor(db: MockDb)
      ensures this.db == db && companies == db.companies
      ensures !showForm && editingCompany.None?
    {
      this.db := db;
      companies := db.companies;
      showForm := false;
      editingCompany := None;
    }

    /** The page's list is the store's list, ids are unique and present, and
        the company being edited has an id. */
    predicate InSync()
      reads this, db
    {
      && companies == db.companies
      && Records.UniqueIds(companies, CompanyId)
      && (forall c :: c in companies ==> c.id != "")
      && (editingCompany.Some? ==> editingCompany.value.id != "")
    }

    /** "Nova Empresa": the form opens with nothing being edited. */
    method OpenNewForm()
      modifies this`showForm
      ensures showForm
    {
      showForm := true;
    }

    /** `handleEdit`: the form opens on `company`. */
    method HandleEdit(company: Company)
      modifies this`showForm, this`editingCompany
      ensures showForm && editingCompany == Some(company)
      ensures old(InSync()) && company in companies ==> InSync()
    {
      editingCompany := Some(company);
      showForm := true;
    }

    /** `handleCancel`: the form closes, nothing is being edited. */
    method HandleCancel()
      modifies this`showForm, this`editingCompany
      ensures !showForm && editingCompany.None?
      ensures old(InSync()) ==> InSync()
    {
      showForm := false;
      editingCompany := None;
    }

    /** `handleSave`: while editing, every company with the saved id is
        replaced by it, keeping length and order; otherwise it is appended.
        The form closes. */
    method HandleSave(company: Company)
      modifies this`companies, this`showForm, this`editingCompany
      ensures companies == Records.Save(old(companies), CompanyId, old(editingCompany).Some?, company)
      ensures !showForm && editingCompany.None?
    {
      companies := if editingCompany.Some? then Seqs.ReplaceWhere(companies, (c: Company) => c.id == company.id, company)
                   else companies + [company];
      showForm := false;
      editingCompany := None;
    }

    /** `handleDelete`, with the answer to `confirm(...)`: when confirmed,
        every listed company with that id goes and the first stored one is
        spliced out; when declined nothing changes. */
    method HandleDelete(company: Company, confirmed: bool)
      modifies this`companies, db`companies
      ensures confirmed ==> companies == Records.DeleteAll(old(companies), CompanyId, company.id)
      ensures confirmed ==> db.companies == Records.DeleteFirst(old(db.companies), CompanyId, company.id)
      ensures !confirmed ==> companies == old(companies) && db.companies == old(db.companies)
      ensures old(InSync()) ==> InSync()
    {
      if confirmed {
        ghost var before := companies;
        companies := Records.DeleteAll(companies, CompanyId, company.id);
        var index := Seqs.FindIndex(db.companies, (c: Company) => c.id == company.id);
        Records.DeleteFirstAt(db.companies, CompanyId, company.id, index);
        if index != -1 {
          db.companies := db.companies[..index] + db.companies[index + 1..];
        }
        if before == old(db.companies) && Records.UniqueIds(before, CompanyId) {
          Records.DeletesAgree(before, CompanyId, company.id);
        }
      }
    }

    /** The form's submit followed by the page's `handleSave`: the store gets
        the form's write, `onSave` hands the page that same record, and the
        page's list, kept as its own copy, is again exactly the store's list.
        A new company's time-based id must not be in use yet. */
    method SubmitForm(form: CompanyForm.Form, now: int, timestamp: string) returns (saved: Company)
      requires InSync()
      requires editingCompany.None? ==> !Records.HasId(companies, CompanyId, Js.IntToString(now))
      modifies this`companies, this`showForm, this`editingCompany, db`companies
      ensures saved == CompanyForm.NewCompany(old(editingCompany), form, now, timestamp)
      ensures db.companies == Records.Upsert(old(db.companies), CompanyId, old(editingCompany), saved)
      ensures !showForm && editingCompany.None?
      ensures InSync()
    {
      var original := editingCompany;
      var before := companies;
      saved := CompanyForm.HandleSubmit(db, original, form, now, timestamp);
      HandleSave(saved);
      Records.SaveMatchesUpsert(before, CompanyId, original, saved);
      Records.UpsertKeepsUniqueIds(before, CompanyId, original, saved);
      forall c | c in companies ensures c.id != "" {
        if c != saved {
          Records.UpsertOnlyAdds(before, CompanyId, original, saved, c);
        }
      }
    }
  }
}
