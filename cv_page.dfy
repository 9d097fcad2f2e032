/** app/dashboard/cv/page.tsx: the signed-in user record, whose fields may
    come under English or Portuguese names, normalised for display. */
module CvPage {
  import opened Wrappers
  import opened Js

  const Placeholder := Str("-")

  /** `a || b || … || last`: the first truthy candidate, else `last`. */
  function FirstTruthy(candidates: seq<Value>, last: Value): (r: Value)
    requires Truthy(last)
    ensures Truthy(r)
    ensures (forall k :: 0 <= k < |candidates| ==> !Truthy(candidates[k])) ==> r == last
    ensures r == last || exists i :: 0 <= i < |candidates| && r == candidates[i] && FirstTruthyAt(candidates, i)
    ensures forall i :: 0 <= i < |candidates| && FirstTruthyAt(candidates, i) ==> r == candidates[i]
  {
    if candidates == [] then last
    else if Truthy(candidates[0]) then candidates[0]
    else
      var rest := FirstTruthy(candidates[1..], last);
      assert forall i :: 0 <= i < |candidates| - 1 && FirstTruthyAt(candidates[1..], i) ==> FirstTruthyAt(candidates, i + 1);
      assert forall i :: 1 <= i < |candidates| && FirstTruthyAt(candidates, i) ==> FirstTruthyAt(candidates[1..], i - 1);
      rest
  }

  /** `candidates[i]` is truthy and none before it is. */
  ghost predicate FirstTruthyAt(candidates: seq<Value>, i: int)
    requires 0 <= i < |candidates|
  {
    Truthy(candidates[i]) && forall k :: 0 <= k < i ==> !Truthy(candidates[k])
  }

  /** The user object the page shows. */
  datatype Display = Display(id: Value, token: Value, name: Value, email: Value, phone: Value,
                             cpf: Value, workArea: Value, educationLevel: Value)

  /** The normalisation: `id` and `token` copied; every other field the
      first truthy of its English and Portuguese names, else "-". */
  function Normalize(raw: Record): (u: Display)
    ensures u.id == Get(raw, "id") && u.token == Get(raw, "token")
    ensures u.name == FirstTruthy([Get(raw, "name"), Get(raw, "nome")], Placeholder)
    ensures u.email == FirstTruthy([Get(raw, "email")], Placeholder)
    ensures u.phone == FirstTruthy([Get(raw, "phone"), Get(raw, "telefone")], Placeholder)
    ensures u.cpf == FirstTruthy([Get(raw, "cpf")], Placeholder)
    ensures u.workArea == FirstTruthy([Get(raw, "workArea"), Get(raw, "area_trabalho")], Placeholder)
    ensures u.educationLevel == FirstTruthy([Get(raw, "educationLevel"), Get(raw, "nivel_educacao")], Placeholder)
  {
    Display(Get(raw, "id"), Get(raw, "token"),
            Or(Or(Get(raw, "name"), Get(raw, "nome")), Placeholder),
            Or(Get(raw, "email"), Placeholder),
            Or(Or(Get(raw, "phone"), Get(raw, "telefone")), Placeholder),
            Or(Get(raw, "cpf"), Placeholder),
            Or(Or(Get(raw, "workArea"), Get(raw, "area_trabalho")), Placeholder),
            Or(Or(Get(raw, "educationLevel"), Get(raw, "nivel_educacao")), Placeholder))
  }

  /** The six displayed fields are never blank: an empty text falls through
      to the next name and finally to "-". */
  lemma DisplayedFieldsNeverBlank(raw: Record)
    ensures var u := Normalize(raw);
            forall v :: v in [u.name, u.email, u.phone, u.cpf, u.workArea, u.educationLevel] ==>
              Truthy(v) && v != Str("")
  {
  }

  /** A user registered through the Portuguese API, with `nome` and
      `telefone`, shows those values. */
  lemma PortugueseNamesShown(raw: Record)
    requires "name" !in raw && "phone" !in raw
    requires Truthy(Get(raw, "nome")) && Truthy(Get(raw, "telefone"))
    ensures Normalize(raw).name == raw["nome"] && Normalize(raw).phone == raw["telefone"]
  {
  }

  /** An empty English field does not hide a filled Portuguese one. */
  lemma EmptyEnglishFieldFallsThrough(raw: Record)
    requires Get(raw, "workArea") == Str("") && Truthy(Get(raw, "area_trabalho"))
    ensures Normalize(raw).workArea == raw["area_trabalho"]
  {
  }

  /** What the page renders: "Carregando..." while the session loads,
      "Usuário não autenticado." without a stored user, and otherwise the
      normalised user. */
  datatype Screen = Loading | SignedOut | Profile(user: Display)

  function Render(isLoading: bool, rawUser: Option<Record>): (r: Screen)
    ensures isLoading <==> r.Loading?
    ensures r.SignedOut? <==> !isLoading && rawUser.None?
    ensures r.Profile? ==> rawUser.Some? && r.user == Normalize(rawUser.value)
  {
    if isLoading then Loading
    else if rawUser.None? then SignedOut
    else Profile(Normalize(rawUser.value))
  }
}
