/** app/admin/applications/page.tsx: the token guard in front of the fetch,
    the page state it leaves behind, and the two totals the page shows. */
module AdminApplications {
  import opened Wrappers
  import opened Js
  import Auth

  /** One vaga of the reply, with the users who applied to it. */
  datatype VagaApplications = VagaApplications(vaga: Record, users: seq<Value>)

  /** `data.reduce((acc, vaga) => acc + vaga.users.length, 0)`, a left fold. */
  function TotalApplications(data: seq<VagaApplications>): nat {
    if data == [] then 0 else TotalApplications(data[..|data| - 1]) + |data[|data| - 1].users|
  }

  /** The total over two lists is the sum of their totals. */
  lemma {:induction false} TotalAdds(a: seq<VagaApplications>, b: seq<VagaApplications>)
    ensures TotalApplications(a + b) == TotalApplications(a) + TotalApplications(b)
    decreases |b|
  {
    if b == [] {
      assert a + b == a;
    } else {
      assert (a + b)[..|a + b| - 1] == a + b[..|b| - 1];
      TotalAdds(a, b[..|b| - 1]);
    }
  }

  /** The total counts every applicant of every vaga: it is 0 exactly when
      no vaga has one, and at least the applicants of any single vaga. */
  lemma {:induction false} TotalCountsEveryVaga(data: seq<VagaApplications>)
    ensures TotalApplications(data) == 0 <==> forall k :: 0 <= k < |data| ==> data[k].users == []
    ensures forall k :: 0 <= k < |data| ==> |data[k].users| <= TotalApplications(data)
  {
    if data != [] {
      var init := data[..|data| - 1];
      TotalCountsEveryVaga(init);
      assert forall k :: 0 <= k < |init| ==> data[k] == init[k];
    }
  }

  /** The two figures on the page. */
  datatype Stats = Stats(vagas: nat, applications: nat)

  /** "Total de Vagas" and "Total de Candidaturas". */
  function PageStats(data: seq<VagaApplications>): (r: Stats)
    ensures r.vagas == |data|
    ensures r.applications == TotalApplications(data)
    ensures data == [] ==> r == Stats(0, 0)
  {
    Stats(|data|, TotalApplications(data))
  }

  /** How the request ends: the parsed reply, or a failure that is logged. */
  datatype Reply = Received(json: seq<VagaApplications>) | Failed

  /** The page's state. */
  datatype State = State(data: seq<VagaApplications>, loading: bool)

  const Initial := State([], true)

  /** What one run of `fetchApplications` did: the new state, the error it
      threw (if any) and the `Authorization` header of the request it made
      (if any). */
  datatype Run = Run(state: State, thrown: Option<string>, authorization: Option<string>)

  /** `user?.token` */
  function StoredToken(stored: Option<Auth.User>): Value {
    if stored.Some? then Get(stored.value, "token") else Undefined
  }

  /** `fetchApplications`: without a truthy stored token it throws
      "No token available" before any request and before the `try`, so
      `loading` is left as it was; otherwise it sends the token as a bearer
      token, keeps the reply's data when it arrives, and ends loading
      whether or not the request succeeded. */
  function FetchApplications(stored: Option<Auth.User>, server: string -> Reply, s: State): (r: Run)
    ensures !Truthy(StoredToken(stored)) ==> r == Run(s, Some("No token available"), None)
    ensures Truthy(StoredToken(stored)) ==>
              && r.thrown.None? && !r.state.loading
              && r.authorization == Some("Bearer " + ToJsString(StoredToken(stored)))
              && (server(r.authorization.value).Received? ==> r.state.data == server(r.authorization.value).json)
              && (server(r.authorization.value).Failed? ==> r.state.data == s.data)
  {
    var token := StoredToken(stored);
    if !Truthy(token) then Run(s, Some("No token available"), None)
    else
      var header := "Bearer " + ToJsString(token);
      match server(header)
      case Received(json) => Run(State(json, false), None, Some(header))
      case Failed => Run(s.(loading := false), None, Some(header))
  }

  /** On the page's first render without a signed-in admin, no request is
      made and the page keeps showing "Carregando...". */
  lemma SignedOutStaysLoading(server: string -> Reply)
    ensures FetchApplications(None, server, Initial).state.loading
    ensures FetchApplications(None, server, Initial).authorization.None?
  {
  }

  /** The "n candidatos" badge of each vaga, in order. */
  function BadgeCounts(data: seq<VagaApplications>): (r: seq<nat>)
    ensures |r| == |data|
    ensures forall k :: 0 <= k < |r| ==> r[k] == |data[k].users|
  {
    if data == [] then [] else [|data[0].users|] + BadgeCounts(data[1..])
  }

  /** The sum of a list of counts, from the front. */
  function Sum(counts: seq<nat>): nat {
    if counts == [] then 0 else counts[0] + Sum(counts[1..])
  }

  /** The per-vaga badges add up to "Total de Candidaturas". */
  lemma {:induction false} BadgesAddUpToTotal(data: seq<VagaApplications>)
    ensures Sum(BadgeCounts(data)) == TotalApplications(data)
  {
    if data != [] {
      BadgesAddUpToTotal(data[1..]);
      TotalAdds([data[0]], data[1..]);
      assert [data[0]] + data[1..] == data;
      assert TotalApplications([data[0]]) == |data[0].users| by {
        assert [data[0]][..0] == [];
      }
    }
  }

  /** What the page renders: "Carregando..." while loading, the stats and
      "Nenhuma candidatura encontrada" for an empty reply, or the stats and
      one card per vaga. */
  datatype Screen = Loading | NoApplications(stats: Stats) | Listing(stats: Stats, badges: seq<nat>)

  function Render(s: State): (r: Screen)
    ensures s.loading <==> r.Loading?
    ensures r.NoApplications? <==> !s.loading && s.data == []
    ensures !r.Loading? ==> r.stats == PageStats(s.data)
    ensures r.Listing? ==> r.badges == BadgeCounts(s.data)
  {
    if s.loading then Loading
    else if s.data == [] then NoApplications(PageStats(s.data))
    else Listing(PageStats(s.data), BadgeCounts(s.data))
  }
}
