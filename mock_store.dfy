/** The in-memory lists of lib/mock-data.ts that the forms and admin pages
    write: CVs, jobs and companies, each record identified by a text id. */
module MockStore {
  import opened Wrappers
  import Js
  import Records

  datatype Experience = Experience(id: string, company: string, position: string,
                                   startDate: string, endDate: string, description: string)

  datatype Education = Education(id: string, institution: string, degree: string,
                                 field: string, startDate: string, endDate: string)

  /** A CV; `userId` is whatever id the signed-in user record carries. */
  datatype Cv = Cv(id: string, userId: Js.Value, name: string, email: string, phone: string,
                   summary: string, experience: seq<Experience>, education: seq<Education>,
                   skills: seq<string>, updatedAt: string)

  /** A job as the admin side stores it; `salary` is `None` for `undefined`. */
  datatype Job = Job(id: string, title: string, description: string, requirements: seq<string>,
                     salary: Option<string>, location: string, jobType: string, companyId: string,
                     createdAt: string, isActive: bool)

  /** A company as the admin side stores it; `website` is `None` for `undefined`. */
  datatype Company = Company(id: string, name: string, description: string,
                             website: Option<string>, createdAt: string)

  function CvId(c: Cv): string {
    c.id
  }

  function JobId(j: Job): string {
    j.id
  }

  function CompanyId(c: Company): string {
    c.id
  }

  /** `mockCVs`, `mockJobs` and `mockCompanies`, shared by every component
      that imports them. */
  class MockDb {
    var cvs: seq<Cv>
    var jobs: seq<Job>
    var companies: seq<Company>

    constructor(cvs: seq<Cv>, jobs: seq<Job>, companies: seq<Company>)
      ensures this.cvs == cvs && this.jobs == jobs && this.companies == companies
    {
      this.cvs := cvs;
      this.jobs := jobs;
      this.companies := companies;
    }
  }
}
