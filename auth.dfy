/** The session store of lib/auth.ts: the signed-in user kept under one key
    of the browser's `localStorage`, filled by `login` and `register` from
    the replies of the authentication, profile and registration services,
    and cleared by `logout`. */
module Auth {
  import opened Wrappers
  import opened Js

  const CurrentUserKey := "currentUser"
  const ApiUrl := "https://jobscout-main.up.railway.app"

  /** A stored user: whatever profile object the backend returned, with
      `role` and `token` laid over it. */
  type User = Record

  /** The browser tab. `isBrowser` is `typeof window !== "undefined"`;
      `localStorage` holds parsed JSON (stringify and parse are identity). */
  class Browser {
    const isBrowser: bool
    var localStorage: map<string, User>

    constructor(isBrowser: bool, localStorage: map<string, User>)
      ensures this.isBrowser == isBrowser && this.localStorage == localStorage
    {
      this.isBrowser := isBrowser;
      this.localStorage := localStorage;
    }
  }

  /** What `getStoredUser()` returns: `null` outside a browser or when the
      key is absent. */
  function StoredUser(b: Browser): Option<User>
    reads b
  {
    if b.isBrowser && CurrentUserKey in b.localStorage then Some(b.localStorage[CurrentUserKey])
    else None
  }

  /** The storage after `setStoredUser(u)`. */
  function StorageAfterSet(isBrowser: bool, storage: map<string, User>, u: Option<User>): (r: map<string, User>)
    ensures !isBrowser ==> r == storage
    ensures isBrowser && u.Some? ==> CurrentUserKey in r && r[CurrentUserKey] == u.value
    ensures isBrowser && u.None? ==> CurrentUserKey !in r
    ensures forall k :: k != CurrentUserKey ==> (k in r <==> k in storage)
    ensures forall k :: k != CurrentUserKey && k in r ==> r[k] == storage[k]
  {
    if !isBrowser then storage
    else if u.Some? then storage[CurrentUserKey := u.value]
    else storage - {CurrentUserKey}
  }

  method GetStoredUser(b: Browser) returns (u: Option<User>)
    ensures u == StoredUser(b)
    ensures !b.isBrowser ==> u.None?
  {
    if !b.isBrowser {
      return None;
    }
    if CurrentUserKey in b.localStorage {
      u := Some(b.localStorage[CurrentUserKey]);
    } else {
      u := None;
    }
  }

  /** Writes a user under "currentUser", or removes that key for `null`. */
  method SetStoredUser(b: Browser, u: Option<User>)
    modifies b`localStorage
    ensures b.localStorage == StorageAfterSet(b.isBrowser, old(b.localStorage), u)
    ensures StoredUser(b) == if b.isBrowser then u else None
  {
    if !b.isBrowser {
      return;
    }
    if u.Some? {
      b.localStorage := b.localStorage[CurrentUserKey := u.value];
    } else {
      b.localStorage := b.localStorage - {CurrentUserKey};
    }
  }

  /** `logout()`: always leaves no stored user; a second call changes nothing. */
  method Logout(b: Browser)
    modifies b`localStorage
    ensures b.localStorage == StorageAfterSet(b.isBrowser, old(b.localStorage), None)
    ensures StoredUser(b) == None
  {
    SetStoredUser(b, None);
  }

  /** Clearing the session twice is the same as clearing it once. */
  lemma LogoutIdempotent(isBrowser: bool, storage: map<string, User>)
    ensures var once := StorageAfterSet(isBrowser, storage, None);
            StorageAfterSet(isBrowser, once, None) == once
  {
  }

  /** Reply of `POST /auth/token`. A rejected reply carries its parsed body,
      or `{}` when the body is not JSON. */
  datatype TokenReply = TokenIssued(accessToken: string) | TokenRejected(body: Record)

  /** Reply of `GET /admins/me` or `GET /users/me`. */
  datatype ProfileReply = ProfileOk(profile: Record) | ProfileFailed

  /** Reply of `POST /admins/` or `POST /users/`. */
  datatype CreateReply = Created | CreateRejected(body: Record)

  /** The three backends, as functions of the request they receive. */
  datatype Backend = Backend(
    issueToken: (string, string) -> TokenReply,      // username (the e-mail), password
    verifyToken: string -> Record,                   // body of GET /auth/verify?token=…
    fetchProfile: (string, string) -> ProfileReply,  // URL, bearer token
    createAccount: (string, Record) -> CreateReply)  // URL, JSON payload

  /** The `Error` thrown, by its message. */
  datatype AuthError = AuthError(message: string)

  /** The message of `new Error(error.detail || fallback)`. */
  function ErrorMessage(body: Record, fallback: string): (m: string)
    ensures Truthy(Get(body, "detail")) ==> m == ToJsString(body["detail"])
    ensures !Truthy(Get(body, "detail")) ==> m == fallback
  {
    ToJsString(Or(Get(body, "detail"), Str(fallback)))
  }

  /** The profile endpoint: the admin one exactly for role "admin". */
  function ProfileUrl(role: Value): string {
    if role == Str("admin") then ApiUrl + "/admins/me" else ApiUrl + "/users/me"
  }

  /** `{ ...profile, role, token: access_token }`: the two keys laid over the
      profile win; every other profile field is kept as it was. */
  function AssembleUser(profile: Record, role: Value, token: string): (u: User)
    ensures u.Keys == profile.Keys + {"role", "token"}
    ensures u["role"] == role && u["token"] == Str(token)
    ensures forall k :: k in profile && k != "role" && k != "token" ==> u[k] == profile[k]
  {
    profile["role" := role]["token" := Str(token)]
  }

  /** What `login(email, password)` resolves to or throws. */
  function LoginOutcome(backend: Backend, email: string, password: string): Result<User, AuthError> {
    match backend.issueToken(email, password)
    case TokenRejected(body) => Err(AuthError(ErrorMessage(body, "Erro ao efetuar login")))
    case TokenIssued(token) =>
      var role := Get(backend.verifyToken(token), "role");
      match backend.fetchProfile(ProfileUrl(role), token)
      case ProfileFailed => Err(AuthError("Erro ao carregar perfil do usuário"))
      case ProfileOk(profile) => Ok(AssembleUser(profile, role, token))
  }

  /** The role the issued token verifies to. */
  function VerifiedRole(backend: Backend, token: string): Value {
    Get(backend.verifyToken(token), "role")
  }

  /** Login succeeds exactly when a token is issued and the profile endpoint
      of the role that token verifies to answers. */
  lemma LoginSucceedsIff(backend: Backend, email: string, password: string)
    ensures LoginOutcome(backend, email, password).Ok? <==>
            var reply := backend.issueToken(email, password);
            reply.TokenIssued? &&
            backend.fetchProfile(ProfileUrl(VerifiedRole(backend, reply.accessToken)), reply.accessToken).ProfileOk?
  {
  }

  /** A logged-in user carries the issued token and the verified role, and
      every other field is the profile's, fetched from the endpoint of that
      role with that token. */
  lemma LoginUserIsProfileWithToken(backend: Backend, email: string, password: string)
    requires LoginOutcome(backend, email, password).Ok?
    ensures var reply := backend.issueToken(email, password);
            var u := LoginOutcome(backend, email, password).value;
            && reply.TokenIssued?
            && var role := VerifiedRole(backend, reply.accessToken);
               var profile := backend.fetchProfile(ProfileUrl(role), reply.accessToken);
               && profile.ProfileOk?
               && u["token"] == Str(reply.accessToken)
               && u["role"] == role
               && u.Keys == profile.profile.Keys + {"role", "token"}
               && forall k :: k in profile.profile && k != "role" && k != "token" ==> u[k] == profile.profile[k]
  {
  }

  /** A rejected token request fails with the backend's `detail` or
      "Erro ao efetuar login"; a failed profile request fails with
      "Erro ao carregar perfil do usuário". */
  lemma LoginFailureMessages(backend: Backend, email: string, password: string)
    ensures var reply := backend.issueToken(email, password);
            var out := LoginOutcome(backend, email, password);
            && (reply.TokenRejected? ==>
                  out.Err? &&
                  out.error.message == if Truthy(Get(reply.body, "detail")) then ToJsString(reply.body["detail"])
                                       else "Erro ao efetuar login")
            && (reply.TokenIssued? &&
                backend.fetchProfile(ProfileUrl(VerifiedRole(backend, reply.accessToken)), reply.accessToken).ProfileFailed? ==>
                  out == Err(AuthError("Erro ao carregar perfil do usuário")))
  {
  }

  /** The sign-in example: token "T", role "user", profile {id: 1, name: "A"}
      give the user {id: 1, name: "A", role: "user", token: "T"}. */
  lemma LoginExample()
    ensures var backend := Backend(
              (e: string, p: string) => if e == "a@b.com" && p == "secret" then TokenIssued("T") else TokenRejected(map[]),
              (t: string) => map["role" := Str("user")],
              (url: string, t: string) =>
                if url == ApiUrl + "/users/me" && t == "T" then ProfileOk(map["id" := Num(1), "name" := Str("A")])
                else ProfileFailed,
              (url: string, p: Record) => Created);
            LoginOutcome(backend, "a@b.com", "secret")
              == Ok(map["id" := Num(1), "name" := Str("A"), "role" := Str("user"), "token" := Str("T")])
  {
  }

  /** `login`: every step as the source takes it; storage is written only
      after both replies succeeded, and what is stored is what is returned. */
  method Login(b: Browser, email: string, password: string, backend: Backend) returns (r: Result<User, AuthError>)
    modifies b`localStorage
    ensures r == LoginOutcome(backend, email, password)
    ensures r.Ok? ==> b.localStorage == StorageAfterSet(b.isBrowser, old(b.localStorage), Some(r.value))
    ensures r.Err? ==> b.localStorage == old(b.localStorage)
  {
    var res := backend.issueToken(email, password);
    if res.TokenRejected? {
      return Err(AuthError(ErrorMessage(res.body, "Erro ao efetuar login")));
    }
    var accessToken := res.accessToken;
    var verifyData := backend.verifyToken(accessToken);
    var role := Get(verifyData, "role");
    var profileRes := backend.fetchProfile(ProfileUrl(role), accessToken);
    if profileRes.ProfileFailed? {
      return Err(AuthError("Erro ao carregar perfil do usuário"));
    }
    var fullUser := AssembleUser(profileRes.profile, role, accessToken);
    SetStoredUser(b, Some(fullUser));
    return Ok(fullUser);
  }

  datatype Role = UserRole | AdminRole

  /** The optional `additionalFields` argument of `register`. */
  datatype AdditionalFields = AdditionalFields(phone: Option<string>, workArea: Option<string>, educationLevel: Option<string>)

  function RegisterUrl(role: Role): string {
    if role == AdminRole then ApiUrl + "/admins/" else ApiUrl + "/users/"
  }

  /** `additionalFields?.phone` and its two siblings. */
  function PhoneOf(extra: Option<AdditionalFields>): Option<string> {
    if extra.Some? then extra.value.phone else None
  }

  function WorkAreaOf(extra: Option<AdditionalFields>): Option<string> {
    if extra.Some? then extra.value.workArea else None
  }

  function EducationLevelOf(extra: Option<AdditionalFields>): Option<string> {
    if extra.Some? then extra.value.educationLevel else None
  }

  /** `x ?? ""` */
  function OrEmpty(x: Option<string>): string {
    if x.Some? then x.value else ""
  }

  /** The JSON body `register` posts: both roles send name, e-mail, CPF,
      phone and password; a user account also sends work area and education
      level. A missing optional field is sent as "". */
  function RegisterPayload(role: Role, email: string, password: string, name: string, cpf: string,
                           extra: Option<AdditionalFields>): (p: Record)
    ensures role == AdminRole ==> p.Keys == {"nome", "email", "cpf", "telefone", "password"}
    ensures role == UserRole ==>
              p.Keys == {"nome", "email", "cpf", "telefone", "area_trabalho", "nivel_educacao", "password"}
    ensures p["nome"] == Str(name) && p["email"] == Str(email) && p["cpf"] == Str(cpf)
    ensures p["password"] == Str(password)
  {
    var common := map["nome" := Str(name), "email" := Str(email), "cpf" := Str(cpf),
                      "telefone" := Str(OrEmpty(PhoneOf(extra))), "password" := Str(password)];
    if role == AdminRole then common
    else common["area_trabalho" := Str(OrEmpty(WorkAreaOf(extra)))]
               ["nivel_educacao" := Str(OrEmpty(EducationLevelOf(extra)))]
  }

  /** Optional fields are forwarded when given (even as "") and are "" when
      not given. */
  lemma RegisterPayloadOptionalFields(role: Role, email: string, password: string, name: string, cpf: string,
                                      extra: Option<AdditionalFields>)
    ensures var p := RegisterPayload(role, email, password, name, cpf, extra);
            && p["telefone"] == Str(if extra.Some? && extra.value.phone.Some? then extra.value.phone.value else "")
            && (role == UserRole ==>
                  && p["area_trabalho"] == Str(if extra.Some? && extra.value.workArea.Some? then extra.value.workArea.value else "")
                  && p["nivel_educacao"] == Str(if extra.Some? && extra.value.educationLevel.Some? then extra.value.educationLevel.value else ""))
  {
  }

  /** What `register(...)` resolves to or throws. */
  function RegisterOutcome(backend: Backend, email: string, password: string, name: string, cpf: string,
                           role: Role, extra: Option<AdditionalFields>): Result<User, AuthError> {
    match backend.createAccount(RegisterUrl(role), RegisterPayload(role, email, password, name, cpf, extra))
    case CreateRejected(body) => Err(AuthError(ErrorMessage(body, "Erro ao registrar usuário")))
    case Created => LoginOutcome(backend, email, password)
  }

  /** Registration succeeds exactly when the backend accepts the account and
      the follow-up login with the same credentials succeeds, and then the
      user is the one that login yields; a rejected account fails with the
      backend's `detail` or the default text, without logging in. */
  lemma RegisterOutcomeSpec(backend: Backend, email: string, password: string, name: string, cpf: string,
                            role: Role, extra: Option<AdditionalFields>)
    ensures var reply := backend.createAccount(RegisterUrl(role), RegisterPayload(role, email, password, name, cpf, extra));
            var out := RegisterOutcome(backend, email, password, name, cpf, role, extra);
            && (out.Ok? <==> reply.Created? && LoginOutcome(backend, email, password).Ok?)
            && (out.Ok? ==> out.value == LoginOutcome(backend, email, password).value)
            && (reply.CreateRejected? ==>
                  out.Err? && out.error.message == if Truthy(Get(reply.body, "detail")) then ToJsString(reply.body["detail"])
                                                   else "Erro ao registrar usuário")
  {
  }

  /** `register`: posts the payload for the role, then logs in; nothing is
      stored when either step fails. */
  method Register(b: Browser, email: string, password: string, name: string, cpf: string,
                  role: Role, extra: Option<AdditionalFields>, backend: Backend)
    returns (r: Result<User, AuthError>)
    modifies b`localStorage
    ensures r == RegisterOutcome(backend, email, password, name, cpf, role, extra)
    ensures r.Ok? ==> b.localStorage == StorageAfterSet(b.isBrowser, old(b.localStorage), Some(r.value))
    ensures r.Err? ==> b.localStorage == old(b.localStorage)
  {
    var url := RegisterUrl(role);
    var payload := RegisterPayload(role, email, password, name, cpf, extra);
    var res := backend.createAccount(url, payload);
    if res.CreateRejected? {
      return Err(AuthError(ErrorMessage(res.body, "Erro ao registrar usuário")));
    }
    r := Login(b, email, password, backend);
  }
}
