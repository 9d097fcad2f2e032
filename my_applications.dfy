/** app/dashboard/applications/page.tsx: how the signed-in user's
    applications, as the backend returns them, become the list the page
    shows, with its count line and requirement badges. */
module MyApplications {
  import opened Wrappers
  import opened Js
  import Text
  import Seqs

  /** One element of the reply: the application and the vaga it is for. */
  datatype ApplicationApi = ApplicationApi(app: Record, job: Record)

  function TrimmedPiece(piece: string): Value {
    Str(Text.Trim(piece))
  }

  /** `requirements`: an array of competencias is taken as it is; a text is
      split on "," and each piece trimmed; anything else gives none. */
  function Requirements(competencias: Value): (r: seq<Value>)
    ensures competencias.Arr? ==> r == competencias.items
    ensures !competencias.Arr? && !competencias.Str? ==> r == []
    ensures competencias.Str? ==> |r| == Text.Count(competencias.s, ',') + 1
    ensures competencias.Str? ==>
              && |r| == |Text.Split(competencias.s, ',')|
              && forall k :: 0 <= k < |r| ==> r[k] == Str(Text.Trim(Text.Split(competencias.s, ',')[k]))
    ensures competencias.Str? ==>
              forall k :: 0 <= k < |r| ==>
                && r[k].Str? && ',' !in r[k].s
                && (r[k].s == [] || (!Text.IsSpace(r[k].s[0]) && !Text.IsSpace(r[k].s[|r[k].s| - 1])))
  {
    match competencias
    case Arr(items) => items
    case Str(s) =>
      var pieces := Text.Split(s, ',');
      Text.SplitJoin(s, ',');
      TrimmedPieces(pieces);
      Seqs.Map(pieces, TrimmedPiece)
    case _ => []
  }

  /** Trimming pieces free of commas gives texts free of commas and of
      surrounding white space. */
  lemma TrimmedPieces(pieces: seq<string>)
    requires forall k :: 0 <= k < |pieces| ==> ',' !in pieces[k]
    ensures var r := Seqs.Map(pieces, TrimmedPiece);
            forall k :: 0 <= k < |r| ==>
              && r[k].Str? && ',' !in r[k].s
              && (r[k].s == [] || (!Text.IsSpace(r[k].s[0]) && !Text.IsSpace(r[k].s[|r[k].s| - 1])))
  {
    var r := Seqs.Map(pieces, TrimmedPiece);
    forall k | 0 <= k < |r| ensures ',' !in r[k].s {
      Text.TrimAddsNothing(pieces[k], ',');
    }
  }

  /** Splitting a text of competencias keeps every character other than
      commas and surrounding white space: with no white space in it, the
      pieces joined by "," give back the text. */
  lemma TextRequirementsJoinBack(s: string)
    requires forall k :: 0 <= k < |s| ==> !Text.IsSpace(s[k])
    ensures var pieces := Text.Split(s, ',');
            && (forall k :: 0 <= k < |pieces| ==> Requirements(Str(s))[k] == Str(pieces[k]))
            && Text.Join(pieces, ',') == s
  {
    var pieces := Text.Split(s, ',');
    Text.SplitJoin(s, ',');
    forall k | 0 <= k < |pieces| ensures Text.Trim(pieces[k]) == pieces[k] {
      PieceHasNoSpace(s, k);
      NoSpaceTrim(pieces[k]);
    }
  }

  /** A piece of a text without white space has none either. */
  lemma {:induction false} PieceHasNoSpace(s: string, k: int)
    requires forall i :: 0 <= i < |s| ==> !Text.IsSpace(s[i])
    requires 0 <= k < |Text.Split(s, ',')|
    ensures forall i :: 0 <= i < |Text.Split(s, ',')[k]| ==> !Text.IsSpace(Text.Split(s, ',')[k][i])
    decreases |s|
  {
    if |s| > 0 {
      var rest := Text.Split(s[1..], ',');
      if s[0] == ',' {
        if k > 0 {
          PieceHasNoSpace(s[1..], k - 1);
        }
      } else if k == 0 {
        PieceHasNoSpace(s[1..], 0);
        assert Text.Split(s, ',')[0] == [s[0]] + rest[0];
      } else {
        PieceHasNoSpace(s[1..], k);
      }
    }
  }

  /** A text without white space is its own trim. */
  lemma NoSpaceTrim(s: string)
    requires forall i :: 0 <= i < |s| ==> !Text.IsSpace(s[i])
    ensures Text.Trim(s) == s
  {
    if s != [] {
      Text.TrimOfUnpadded(s);
    }
  }

  /** The page's job: the vaga's fields under their English names. */
  function MapJob(job: Record): (r: Record)
    ensures r.Keys == {"id", "title", "description", "salary", "type", "positions", "companyId", "requirements"}
    ensures r["id"] == Get(job, "id") && r["title"] == Get(job, "titulo")
    ensures r["description"] == Get(job, "descricao") && r["salary"] == Get(job, "salario")
    ensures r["type"] == Get(job, "modalidade") && r["positions"] == Get(job, "no_vagas")
    ensures r["companyId"] == Get(job, "empresa_id")
    ensures r["requirements"] == Arr(Requirements(Get(job, "competencias")))
  {
    map["id" := Get(job, "id"), "title" := Get(job, "titulo"), "description" := Get(job, "descricao"),
        "salary" := Get(job, "salario"), "type" := Get(job, "modalidade"), "positions" := Get(job, "no_vagas"),
        "companyId" := Get(job, "empresa_id"), "requirements" := Arr(Requirements(Get(job, "competencias")))]
  }

  /** `{ ...app, job: mappedJob }`: every field of the application, and the
      mapped job under "job". */
  function WithJob(a: ApplicationApi): (r: Record)
    ensures r.Keys == a.app.Keys + {"job"}
    ensures r["job"] == Obj(MapJob(a.job))
    ensures forall k :: k in a.app && k != "job" ==> r[k] == a.app[k]
  {
    a.app["job" := Obj(MapJob(a.job))]
  }

  /** `appsWithJobs`: one entry per element of the reply, in order. */
  function MapApplications(data: seq<ApplicationApi>): (r: seq<Record>)
    ensures |r| == |data|
    ensures forall k :: 0 <= k < |r| ==> r[k] == WithJob(data[k])
  {
    Seqs.Map(data, WithJob)
  }

  /** The plural ending of the count line. */
  function Plural(n: nat): (r: string)
    ensures r == "s" <==> n != 1
    ensures r == "" <==> n == 1
  {
    if n != 1 then "s" else ""
  }

  /** "1 candidatura encontrada", "3 candidaturas encontradas". */
  function CountLine(n: nat): (r: string)
    ensures r == IntToString(n) + (if n == 1 then " candidatura encontrada" else " candidaturas encontradas")
  {
    IntToString(n) + " candidatura" + Plural(n) + " encontrada" + Plural(n)
  }

  /** One application reads in the singular... */
  lemma CountLineOne()
    ensures CountLine(1) == "1 candidatura encontrada"
  {
    assert IntToString(1) == "1";
  }

  /** ...and several in the plural. */
  lemma CountLineThree()
    ensures CountLine(3) == "3 candidaturas encontradas"
  {
    assert IntToString(3) == "3";
  }

  /** The requirement badges: the first four, then "+k mais" for the rest. */
  datatype Badges = Badges(shown: seq<Value>, more: Option<string>)

  function RequirementBadges(reqs: seq<Value>): (r: Badges)
    ensures |reqs| <= 4 ==> r.shown == reqs && r.more.None?
    ensures |reqs| > 4 ==> r.shown == reqs[..4] && r.more == Some("+" + IntToString(|reqs| - 4) + " mais")
  {
    if |reqs| <= 4 then Badges(reqs, None)
    else Badges(reqs[..4], Some("+" + IntToString(|reqs| - 4) + " mais"))
  }

  /** The badges account for every requirement: the first ones shown in
      order, and a last badge exactly when some are not shown, reading how
      many. */
  lemma BadgesCoverAll(reqs: seq<Value>)
    ensures var b := RequirementBadges(reqs);
            && |b.shown| == (if |reqs| < 4 then |reqs| else 4)
            && b.shown == reqs[..|b.shown|]
            && (b.more.Some? <==> |b.shown| < |reqs|)
            && (b.more.Some? ==> b.more.value == "+" + IntToString(|reqs| - |b.shown|) + " mais")
  {
  }

  /** The page's state: the mapped applications and the loading flag. */
  datatype State = State(applications: seq<Record>, isLoading: bool)

  const Initial := State([], true)

  /** `fetchData`, given the reply (`None` when the request or the JSON
      fails): without a user nothing happens; otherwise loading ends, and a
      reply replaces the list with its mapped applications while a failure
      keeps the list. */
  function FetchData(user: Option<Record>, reply: Option<seq<ApplicationApi>>, s: State): (r: State)
    ensures user.None? ==> r == s
    ensures user.Some? ==> !r.isLoading
    ensures user.Some? && reply.Some? ==> r.applications == MapApplications(reply.value)
    ensures user.Some? && reply.None? ==> r.applications == s.applications
  {
    if user.None? then s
    else if reply.Some? then State(MapApplications(reply.value), false)
    else s.(isLoading := false)
  }

  /** What the page renders, in the order the source tests it. */
  datatype Screen = SignedOut | Loading | NoApplications | Listing(countLine: string, cards: seq<Record>)

  function Render(user: Option<Record>, s: State): (r: Screen)
    ensures r.SignedOut? <==> user.None?
    ensures r.Loading? <==> user.Some? && s.isLoading
    ensures r.NoApplications? <==> user.Some? && !s.isLoading && s.applications == []
    ensures r.Listing? ==> r.countLine == CountLine(|s.applications|) && r.cards == s.applications
  {
    if user.None? then SignedOut
    else if s.isLoading then Loading
    else if s.applications == [] then NoApplications
    else Listing(CountLine(|s.applications|), s.applications)
  }

  /** A signed-in user whose reply arrived sees one card per application
      of the reply, under a count line with that number. */
  lemma ReplyIsListed(user: Record, reply: seq<ApplicationApi>)
    requires reply != []
    ensures var screen := Render(Some(user), FetchData(Some(user), Some(reply), Initial));
            && screen.Listing? && |screen.cards| == |reply|
            && screen.countLine == CountLine(|reply|)
            && forall k :: 0 <= k < |reply| ==> screen.cards[k]["job"] == Obj(MapJob(reply[k].job))
  {
  }
}
