/** components/user/job-search.tsx: the backend's vagas turned into jobs,
    the ids of the vagas the user applied to, the company lookup and the
    two-predicate filter behind the list, and the component state that
    `fetchJobs` fills. */
module JobSearch {
  import opened Wrappers
  import opened Js
  import Text
  import Seqs

  /** A skill as the backend sends it. */
  datatype Competencia = Competencia(nome: string)

  /** A job as the backend sends it. */
  datatype Vaga = Vaga(id: int, titulo: string, descricao: string, salario: Value,
                       modalidade: string, empresaId: Value, competencias: Option<seq<Competencia>>)

  /** A job as the list shows it; `companyId` is `None` when `Number(...)`
      gives NaN. */
  datatype Job = Job(id: int, title: string, description: string, salary: Value,
                     jobType: string, companyId: Option<int>, requirements: seq<string>)

  /** A company as the backend sends it. */
  datatype Empresa = Empresa(id: Value, nome: string)

  const CompanyNotFound := "Empresa não encontrada"

  function Nome(c: Competencia): string {
    c.nome
  }

  /** `vaga.competencias?.map(c => c.nome) || []`: a present array, even an
      empty one, gives its names; an absent one gives no requirement. */
  function RequirementsOf(cs: Option<seq<Competencia>>): (r: seq<string>)
    ensures cs.None? ==> r == []
    ensures cs.Some? ==> |r| == |cs.value| && forall k :: 0 <= k < |r| ==> r[k] == cs.value[k].nome
  {
    if cs.Some? then Seqs.Map(cs.value, Nome) else []
  }

  /** The transform of one vaga. */
  function ToJob(v: Vaga): Job {
    Job(v.id, v.titulo, v.descricao, v.salario, v.modalidade, ToNumber(v.empresaId), RequirementsOf(v.competencias))
  }

  /** `jobsData.map(...)`: one job per vaga, in order, each carrying its
      vaga's id, texts, salary and type, `Number(empresa_id)` as company and
      the names of its competencias as requirements. */
  function TransformJobs(vagas: seq<Vaga>): (r: seq<Job>)
    ensures |r| == |vagas|
    ensures forall k :: 0 <= k < |r| ==>
              && r[k].id == vagas[k].id && r[k].title == vagas[k].titulo
              && r[k].description == vagas[k].descricao && r[k].salary == vagas[k].salario
              && r[k].jobType == vagas[k].modalidade
              && r[k].companyId == ToNumber(vagas[k].empresaId)
              && r[k].requirements == RequirementsOf(vagas[k].competencias)
  {
    Seqs.Map(vagas, ToJob)
  }

  /** A company id sent as a number or as its decimal text is the same
      company id after the transform. */
  lemma CompanyIdFromNumberOrText(v: Vaga, n: int)
    requires v.empresaId == Num(n) || v.empresaId == Str(IntToString(n))
    ensures ToJob(v).companyId == Some(n)
  {
    NumberOfPrintedInt(n);
  }

  /** `a.vaga?.id`, for one application record. */
  function VagaIdOf(a: Record): Value {
    match Get(a, "vaga")
    case Obj(fields) => Get(fields, "id")
    case _ => Undefined
  }

  /** `applicationsData.map(a => a.vaga?.id).filter(id => !!id)`: the truthy
      vaga ids, in application order. */
  function AppliedJobs(apps: seq<Record>): (r: seq<Value>)
    ensures Seqs.IsSubsequence(r, Seqs.Map(apps, VagaIdOf))
    ensures forall v :: v in r <==> Truthy(v) && exists k :: 0 <= k < |apps| && VagaIdOf(apps[k]) == v
    ensures forall v :: multiset(r)[v] == if Truthy(v) then multiset(Seqs.Map(apps, VagaIdOf))[v] else 0
  {
    var ids := Seqs.Map(apps, VagaIdOf);
    var r := Seqs.Filter(ids, Truthy);
    forall v ensures v in r <==> Truthy(v) && exists k :: 0 <= k < |apps| && VagaIdOf(apps[k]) == v {
      Seqs.FilterMembership(ids, Truthy, v);
      if v in ids {
        var k :| 0 <= k < |ids| && ids[k] == v;
        assert VagaIdOf(apps[k]) == v;
      }
    }
    r
  }

  /** `appliedJobs.includes(job.id)`: the job shows as applied to. */
  predicate IsApplied(applied: seq<Value>, jobId: int) {
    Num(jobId) in applied
  }

  /** A job is shown as applied exactly when some application refers to its
      vaga by id; a job with id 0 never is, since 0 is dropped as falsy. */
  lemma AppliedIff(apps: seq<Record>, jobId: int)
    ensures IsApplied(AppliedJobs(apps), jobId) <==>
            jobId != 0 && exists k :: 0 <= k < |apps| && VagaIdOf(apps[k]) == Num(jobId)
  {
  }

  /** `companies.find(c => c.id === companyId)?.nome || "Empresa não encontrada"`.
      NaN equals no id. */
  function CompanyName(companies: seq<Empresa>, companyId: Option<int>): (r: string)
    ensures r != ""
    ensures (companyId.None? || forall k :: 0 <= k < |companies| ==> companies[k].id != Num(companyId.value))
            ==> r == CompanyNotFound
    ensures r != CompanyNotFound ==>
              exists i :: 0 <= i < |companies| && companies[i].id == Num(companyId.value) && companies[i].nome == r
                          && forall k :: 0 <= k < i ==> companies[k].id != Num(companyId.value)
    ensures companyId.Some? ==>
              forall i :: 0 <= i < |companies| && FirstWithId(companies, Num(companyId.value), i) ==>
                r == (if companies[i].nome != "" then companies[i].nome else CompanyNotFound)
  {
    if companyId.None? then CompanyNotFound
    else
      var c := Seqs.Find(companies, (e: Empresa) => e.id == Num(companyId.value));
      if c.Some? && c.value.nome != "" then c.value.nome else CompanyNotFound
  }

  /** `companies[i]` is the first company whose id is `id`. */
  predicate FirstWithId(companies: seq<Empresa>, id: Value, i: int)
    requires 0 <= i < |companies|
  {
    companies[i].id == id && forall k :: 0 <= k < i ==> companies[k].id != id
  }

  /** `req.toLowerCase().includes(searchTerm.toLowerCase())` */
  predicate Mentions(text: string, term: string) {
    Text.IncludesIgnoringCase(text, term)
  }

  /** `matchesSearch`: an empty term matches everything; otherwise the term,
      ignoring case, occurs in the title, the description, a requirement or
      the company name. */
  predicate MatchesSearch(companies: seq<Empresa>, term: string, job: Job) {
    || term == ""
    || Mentions(job.title, term)
    || Mentions(job.description, term)
    || Seqs.Any(job.requirements, (req: string) => Mentions(req, term))
    || Mentions(CompanyName(companies, job.companyId), term)
  }

  /** `matchesType`: "all" or exactly the job's type. */
  predicate MatchesType(typeFilter: string, job: Job) {
    typeFilter == "all" || job.jobType == typeFilter
  }

  /** `filteredJobs` */
  function FilteredJobs(jobs: seq<Job>, companies: seq<Empresa>, term: string, typeFilter: string): (r: seq<Job>)
    ensures Seqs.IsSubsequence(r, jobs)
    ensures forall j :: j in r <==> j in jobs && MatchesSearch(companies, term, j) && MatchesType(typeFilter, j)
    ensures forall j :: multiset(r)[j] ==
              if MatchesSearch(companies, term, j) && MatchesType(typeFilter, j) then multiset(jobs)[j] else 0
  {
    var r := Seqs.Filter(jobs, (j: Job) => MatchesSearch(companies, term, j) && MatchesType(typeFilter, j));
    forall j ensures j in r <==> j in jobs && MatchesSearch(companies, term, j) && MatchesType(typeFilter, j) {
      Seqs.FilterMembership(jobs, (j: Job) => MatchesSearch(companies, term, j) && MatchesType(typeFilter, j), j);
    }
    r
  }

  /** With no search term and the type filter on "all", every job is listed. */
  lemma {:induction false} NoFilterKeepsAll(jobs: seq<Job>, companies: seq<Empresa>)
    ensures FilteredJobs(jobs, companies, "", "all") == jobs
  {
    Seqs.FilterAll(jobs, (j: Job) => MatchesSearch(companies, "", j) && MatchesType("all", j));
  }

  /** Any type filter other than "all" lists only jobs of exactly that type. */
  lemma TypeFilterIsExact(jobs: seq<Job>, companies: seq<Empresa>, term: string, typeFilter: string)
    requires typeFilter != "all"
    ensures forall j :: j in FilteredJobs(jobs, companies, term, typeFilter) ==> j.jobType == typeFilter
  {
  }

  /** The search ignores the case of the term. */
  lemma SearchIgnoresTermCase(companies: seq<Empresa>, term: string, job: Job)
    ensures MatchesSearch(companies, term, job) == MatchesSearch(companies, Text.ToLower(term), job)
  {
    Text.ToLowerIdempotent(term);
  }

  /** A title that contains the term, whatever the case of either, matches. */
  lemma TitleOccurrenceMatches(companies: seq<Empresa>, term: string, job: Job, i: int)
    requires Text.OccursAt(Text.ToLower(job.title), Text.ToLower(term), i)
    ensures MatchesSearch(companies, term, job)
  {
    Text.IncludesIffOccurs(Text.ToLower(job.title), Text.ToLower(term));
  }

  /** A job whose company is unknown is found by searching "EMPRESA": the
      fallback text is searched like a real company name. */
  lemma FallbackNameIsSearched(companies: seq<Empresa>, job: Job)
    requires CompanyName(companies, job.companyId) == CompanyNotFound
    ensures MatchesSearch(companies, "EMPRESA", job)
  {
    var hay := Text.ToLower(CompanyNotFound);
    var needle := Text.ToLower("EMPRESA");
    assert needle == "empresa";
    assert hay[..7] == "empresa";
    assert Text.OccursAt(hay, needle, 0);
    Text.IncludesIffOccurs(hay, needle);
  }

  /** `job.requirements.slice(0, 6)`, each badge highlighted when the user
      has that skill. */
  function RequirementBadges(job: Job, userCompetencias: seq<string>): (r: seq<(string, bool)>)
    ensures |r| == if |job.requirements| < 6 then |job.requirements| else 6
    ensures forall k :: 0 <= k < |r| ==>
              r[k].0 == job.requirements[k] && (r[k].1 <==> job.requirements[k] in userCompetencias)
  {
    var shown := if |job.requirements| < 6 then job.requirements else job.requirements[..6];
    Seqs.Map(shown, (req: string) => (req, req in userCompetencias))
  }

  /** The component's state. */
  class JobSearchView {
    var searchTerm: string
    var typeFilter: string
    var jobs: seq<Job>
    var companies: seq<Empresa>
    var userCompetencias: seq<string>
    var appliedJobs: seq<Value>

    /** The first render: no term, every type, nothing loaded. */
    constructor()
      ensures searchTerm == "" && typeFilter == "all"
      ensures jobs == [] && companies == [] && userCompetencias == [] && appliedJobs == []
      ensures Listed() == []
    {
      searchTerm := "";
      typeFilter := "all";
      jobs := [];
      companies := [];
      userCompetencias := [];
      appliedJobs := [];
    }

    /** The jobs on screen. */
    function Listed(): seq<Job>
      reads this
    {
      FilteredJobs(jobs, companies, searchTerm, typeFilter)
    }

    /** `fetchJobs`, given the four replies: applied ids, the user's skill
        names, the transformed jobs and the companies are stored; the search
        inputs are untouched, so with none set every fetched job is listed. */
    method FetchJobs(jobsData: seq<Vaga>, companiesData: seq<Empresa>,
                     competenciasData: seq<Competencia>, applicationsData: seq<Record>)
      modifies this
      ensures appliedJobs == AppliedJobs(applicationsData)
      ensures userCompetencias == Seqs.Map(competenciasData, Nome)
      ensures jobs == TransformJobs(jobsData) && companies == companiesData
      ensures searchTerm == old(searchTerm) && typeFilter == old(typeFilter)
      ensures searchTerm == "" && typeFilter == "all" ==> Listed() == jobs
    {
      appliedJobs := AppliedJobs(applicationsData);
      userCompetencias := Seqs.Map(competenciasData, Nome);
      jobs := TransformJobs(jobsData);
      companies := companiesData;
      if searchTerm == "" && typeFilter == "all" {
        NoFilterKeepsAll(jobs, companies);
        assert Listed() == FilteredJobs(jobs, companies, "", "all");
      }
    }

    method SetSearchTerm(term: string)
      modifies this`searchTerm
      ensures searchTerm == term
      ensures forall j :: j in Listed() ==> j in jobs && MatchesSearch(companies, term, j)
    {
      searchTerm := term;
    }

    method SetTypeFilter(t: string)
      modifies this`typeFilter
      ensures typeFilter == t
      ensures t != "all" ==> forall j :: j in Listed() ==> j.jobType == t
    {
      typeFilter := t;
    }
  }
}
