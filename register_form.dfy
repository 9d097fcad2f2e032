/** The submit handler of components/auth/register-form.tsx: which optional
    fields go to `register` for each account type, and what the failure
    toast says. */
module RegisterForm {
  import opened Wrappers
  import opened Js
  import Auth
  import UseAuth

  /** The account type the form starts with. */
  const DefaultUserType := Auth.UserRole

  /** `additionalFields`: the phone only for admin accounts, work area and
      education level only for user accounts. */
  function AdditionalFieldsFor(userType: Auth.Role, phone: string, workArea: string, educationLevel: string)
    : (f: Auth.AdditionalFields)
    ensures f.phone == (if userType == Auth.AdminRole then Some(phone) else None)
    ensures f.workArea == (if userType == Auth.UserRole then Some(workArea) else None)
    ensures f.educationLevel == (if userType == Auth.UserRole then Some(educationLevel) else None)
  {
    Auth.AdditionalFields(
      if userType == Auth.AdminRole then Some(phone) else None,
      if userType == Auth.UserRole then Some(workArea) else None,
      if userType == Auth.UserRole then Some(educationLevel) else None)
  }

  /** Whatever was typed in the phone box, a user account registers with an
      empty `telefone`; an admin account sends the phone and no work area or
      education level. */
  lemma PayloadByAccountType(email: string, password: string, name: string, cpf: string,
                             phone: string, workArea: string, educationLevel: string)
    ensures var p := Auth.RegisterPayload(Auth.UserRole, email, password, name, cpf,
                                          Some(AdditionalFieldsFor(Auth.UserRole, phone, workArea, educationLevel)));
            p["telefone"] == Str("") && p["area_trabalho"] == Str(workArea) && p["nivel_educacao"] == Str(educationLevel)
    ensures var p := Auth.RegisterPayload(Auth.AdminRole, email, password, name, cpf,
                                          Some(AdditionalFieldsFor(Auth.AdminRole, phone, workArea, educationLevel)));
            p["telefone"] == Str(phone) && "area_trabalho" !in p && "nivel_educacao" !in p
  {
  }

  /** What a `catch` receives: an `Error` or any other thrown value. */
  datatype Thrown = ThrownError(message: string) | ThrownValue(value: Value)

  /** `error instanceof Error ? error.message : "Erro desconhecido"` */
  function FailureDescription(e: Thrown): string {
    if e.ThrownError? then e.message else "Erro desconhecido"
  }

  /** The toast shown after submitting. */
  datatype Toast = Toast(title: string, description: string)

  function SuccessToast(userType: Auth.Role): Toast {
    Toast("Conta criada com sucesso!",
          "Bem-vindo ao sistema de busca de vagas como " +
          (if userType == Auth.AdminRole then "administrador" else "usuário") + ".")
  }

  /** `handleSubmit`: registers through the hook and reports the outcome;
      a failure shows the message of the error `register` threw. */
  method HandleSubmit(hook: UseAuth.AuthHook, email: string, password: string, name: string, cpf: string,
                      phone: string, workArea: string, educationLevel: string, userType: Auth.Role,
                      backend: Auth.Backend)
    returns (toast: Toast)
    modifies hook, hook.events`dispatched, hook.events.listeners`user, hook.events.window`localStorage
    ensures var out := Auth.RegisterOutcome(backend, email, password, name, cpf, userType,
                                            Some(AdditionalFieldsFor(userType, phone, workArea, educationLevel)));
            && (out.Ok? ==> toast == SuccessToast(userType) && hook.user == Some(out.value))
            && (out.Err? ==> toast == Toast("Erro no cadastro", out.error.message) && hook.user == old(hook.user))
  {
    var extra := AdditionalFieldsFor(userType, phone, workArea, educationLevel);
    var r := hook.Register(email, password, name, cpf, userType, Some(extra), backend);
    if r.Ok? {
      toast := SuccessToast(userType);
    } else {
      toast := Toast("Erro no cadastro", FailureDescription(ThrownError(r.error.message)));
    }
  }
}
