/** context/AuthContext.js: the session store. `AuthProvider` keeps the in-memory
    `user` and the `loading` flag and writes the `tokens` and `user` entries of the
    browser storage. Each operation is a method of the class, proved against a step
    function on the whole `Session`; the step functions state what each operation
    stores, clears, calls and returns. Network replies, the decoded JWT expiry and
    the current time are parameters. */
module AuthContext {
  import opened JsValues
  import opened BrowserStorage

  /** The persisted entries and the provider's React state. */
  datatype Session = Session(
    tokens: Option<TokenPair>,
    storedUser: Option<User>,
    user: Option<User>,
    loading: bool)

  /** What `jwtDecode(tokens.access)` yields: it throws, or the payload lacks `exp`,
      or `exp` is the expiry in seconds. */
  datatype JwtClaim = Undecodable | NoExpiry | Expiry(seconds: int)

  /** The outcome of an awaited API call: its `res.data`, or a thrown error. */
  datatype Fetch<T> = Fetched(value: T) | Failed

  /** `res.data` of POST /accounts/login/: the tokens at the top level. */
  datatype LoginData = LoginData(access: Option<string>, refresh: Option<string>, user: User)

  /** `res.data` of POST /accounts/register/: the tokens nested under `tokens`. */
  datatype RegisterData = RegisterData(tokens: Option<TokenPair>, user: User)

  /** Why `login` / `register` rejects: the request itself failed, or the register
      reply had no `tokens` object to destructure (a TypeError). */
  datatype AuthError = RequestRejected | MissingTokens

  datatype Result<T> = Ok(value: T) | Err(error: AuthError)

  /** The server calls the store makes. */
  datatype AuthCall =
    | GetProfile
    | PostLogin(email: string, password: string)
    | PostRegister
    | PostLogout(refresh: string)

  datatype Step = Step(next: Session, calls: seq<AuthCall>)

  datatype Reply = Reply(next: Session, calls: seq<AuthCall>, result: Result<User>)

  // ---------------------------------------------------------------------------
  // Derived flags
  // ---------------------------------------------------------------------------

  /** `isAuthenticated: !!user`: a user object is always truthy and `null` never is. */
  predicate IsAuthenticated(user: Option<User>)
    ensures IsAuthenticated(user) <==> user != None
  {
    user.Some?
  }

  /** `isAdmin: user?.role === 'admin'`. */
  predicate IsAdmin(user: Option<User>)
    ensures IsAdmin(user) ==> IsAuthenticated(user)
  {
    user.Some? && user.value.role == "admin"
  }

  /** `isApplicant: user?.role === 'applicant'`: never together with `isAdmin`. */
  predicate IsApplicant(user: Option<User>)
    ensures IsApplicant(user) ==> IsAuthenticated(user) && !IsAdmin(user)
  {
    user.Some? && user.value.role == "applicant"
  }

  // ---------------------------------------------------------------------------
  // Step functions
  // ---------------------------------------------------------------------------

  /** Both persisted entries removed; memory untouched. */
  function Cleared(s: Session): Session {
    s.(tokens := None, storedUser := None)
  }

  /** `decoded.exp * 1000 > Date.now()`: false when `exp` is missing (NaN). */
  predicate Unexpired(claim: JwtClaim, now: int) {
    claim.Expiry? && claim.seconds * 1000 > now
  }

  /** `loadUser`: with a truthy stored access token whose expiry lies strictly in
      the future, fetch the profile into memory; an expired, undecodable or
      expiry-less token, or a failed fetch, removes both entries. */
  function LoadUserStep(s: Session, claim: JwtClaim, now: int, profile: Fetch<User>): (r: Step)
    ensures !r.next.loading
    ensures !HasAccess(s.tokens) ==> r == Step(s.(loading := false), [])
    ensures r.calls == if HasAccess(s.tokens) && Unexpired(claim, now) then [GetProfile] else []
    ensures var loaded := r.calls != [] && profile.Fetched?;
      && r.next.user == (if loaded then Some(profile.value) else s.user)
      && (HasAccess(s.tokens) && !loaded ==> r.next.tokens == None && r.next.storedUser == None)
      && (!HasAccess(s.tokens) || loaded ==> r.next.tokens == s.tokens && r.next.storedUser == s.storedUser)
  {
    if !HasAccess(s.tokens) then Step(s.(loading := false), [])
    else
      match claim
      case Undecodable => Step(Cleared(s).(loading := false), [])
      case NoExpiry => Step(Cleared(s).(loading := false), [])
      case Expiry(exp) =>
        if exp * 1000 > now then
          match profile
          case Fetched(u) => Step(s.(user := Some(u), loading := false), [GetProfile])
          case Failed => Step(Cleared(s).(loading := false), [GetProfile])
        else Step(Cleared(s).(loading := false), [])
  }

  /** `login(email, password)`: on success the top-level `access`/`refresh` and
      the returned user are stored and held in memory; a failed request writes
      nothing. */
  function LoginStep(s: Session, email: string, password: string, res: Fetch<LoginData>): (r: Reply)
    ensures r.calls == [PostLogin(email, password)]
    ensures r.result.Err? <==> res.Failed?
    ensures r.result.Err? ==> r.next == s && r.result.error == RequestRejected
    ensures r.result.Ok? ==>
      && r.result.value == res.value.user
      && r.next.tokens == Some(TokenPair(res.value.access, res.value.refresh))
      && r.next.storedUser == Some(r.result.value)
      && r.next.user == Some(r.result.value)
    ensures r.next.loading == s.loading
  {
    match res
    case Failed => Reply(s, [PostLogin(email, password)], Err(RequestRejected))
    case Fetched(data) =>
      var pair := TokenPair(data.access, data.refresh);
      Reply(s.(tokens := Some(pair), storedUser := Some(data.user), user := Some(data.user)),
            [PostLogin(email, password)], Ok(data.user))
  }

  /** `register(data)`: like `login`, but the pair is read from `res.data.tokens`;
      a failed request, or a reply without `tokens`, writes nothing. */
  function RegisterStep(s: Session, res: Fetch<RegisterData>): (r: Reply)
    ensures r.calls == [PostRegister]
    ensures r.result.Err? <==> res.Failed? || res.value.tokens.None?
    ensures r.result.Err? ==> r.next == s
    ensures r.result == Err(MissingTokens) <==> res.Fetched? && res.value.tokens.None?
    ensures r.result.Ok? ==>
      && r.result.value == res.value.user
      && r.next.tokens == res.value.tokens
      && r.next.storedUser == Some(r.result.value)
      && r.next.user == Some(r.result.value)
    ensures r.next.loading == s.loading
  {
    match res
    case Failed => Reply(s, [PostRegister], Err(RequestRejected))
    case Fetched(data) =>
      match data.tokens
      case None => Reply(s, [PostRegister], Err(MissingTokens))
      case Some(pair) =>
        // `{ access, refresh }` destructured and re-serialised: a TokenPair holds
        // exactly those two fields, so the stored pair is `pair` itself.
        Reply(s.(tokens := Some(pair), storedUser := Some(data.user), user := Some(data.user)),
              [PostRegister], Ok(data.user))
  }

  /** `logout()`: the server is told only when a refresh token is stored, its
      outcome is ignored, and both entries and the in-memory user are cleared. */
  function LogoutStep(s: Session, server: Fetch<()>): (r: Step)
    ensures r.calls == if HasRefresh(s.tokens) then [PostLogout(s.tokens.value.refresh.value)] else []
    ensures r.next.tokens == None && r.next.storedUser == None && r.next.user == None
    ensures !IsAuthenticated(r.next.user) && !IsAdmin(r.next.user) && !IsApplicant(r.next.user)
    ensures r.next.loading == s.loading
  {
    var calls := if HasRefresh(s.tokens) then [PostLogout(s.tokens.value.refresh.value)] else [];
    Step(Cleared(s).(user := None), calls)
  }

  /** `refreshProfile()`: a fetched profile replaces both the in-memory and the
      stored user; a failure changes nothing. */
  function RefreshProfileStep(s: Session, profile: Fetch<User>): (r: Step)
    ensures r.calls == [GetProfile]
    ensures profile.Failed? ==> r.next == s
    ensures profile.Fetched? ==>
      r.next.user == Some(profile.value) && r.next.storedUser == r.next.user
      && r.next.tokens == s.tokens && r.next.loading == s.loading
  {
    match profile
    case Failed => Step(s, [GetProfile])
    case Fetched(u) => Step(s.(user := Some(u), storedUser := Some(u)), [GetProfile])
  }

  // ---------------------------------------------------------------------------
  // Properties relating several operations
  // ---------------------------------------------------------------------------

  /** `login` and `register` read the pair from different places, but given the
      same tokens and user they leave the same session and return the same user. */
  lemma LoginRegisterAgree(s: Session, email: string, password: string,
                           access: Option<string>, refresh: Option<string>, u: User)
    ensures LoginStep(s, email, password, Fetched(LoginData(access, refresh, u))).next
         == RegisterStep(s, Fetched(RegisterData(Some(TokenPair(access, refresh)), u))).next
    ensures LoginStep(s, email, password, Fetched(LoginData(access, refresh, u))).result
         == RegisterStep(s, Fetched(RegisterData(Some(TokenPair(access, refresh)), u))).result
  {
  }

  /** Logging in after a logout leaves the session the login reply describes,
      whatever was stored before. */
  lemma LoginAfterLogout(s: Session, server: Fetch<()>, email: string, password: string, data: LoginData)
    ensures LoginStep(LogoutStep(s, server).next, email, password, Fetched(data)).next
         == Session(Some(TokenPair(data.access, data.refresh)), Some(data.user), Some(data.user), s.loading)
  {
  }

  /** After a successful login or registration the user is authenticated, and the
      role flags follow the returned role; a failed one leaves every flag as it was. */
  lemma SignInFlags(s: Session, email: string, password: string,
                    login: Fetch<LoginData>, register: Fetch<RegisterData>)
    ensures var r := LoginStep(s, email, password, login);
      && (r.result.Ok? ==>
            && IsAuthenticated(r.next.user)
            && (IsAdmin(r.next.user) <==> r.result.value.role == "admin")
            && (IsApplicant(r.next.user) <==> r.result.value.role == "applicant"))
      && (r.result.Err? ==> r.next.user == s.user)
    ensures var r := RegisterStep(s, register);
      && (r.result.Ok? ==>
            && IsAuthenticated(r.next.user)
            && (IsAdmin(r.next.user) <==> r.result.value.role == "admin")
            && (IsApplicant(r.next.user) <==> r.result.value.role == "applicant"))
      && (r.result.Err? ==> r.next.user == s.user)
  {
  }

  /** A login reply `{access: "A1", refresh: "R1", user: {id: 1, role: "applicant"}}`
      leaves exactly that triple stored, with `isApplicant` and not `isAdmin`. */
  lemma ApplicantLoginScenario(s: Session)
    ensures var u := User(1, "a@x.com", "applicant");
      var r := LoginStep(s, "a@x.com", "p", Fetched(LoginData(Some("A1"), Some("R1"), u)));
      && r.next.tokens == Some(TokenPair(Some("A1"), Some("R1")))
      && r.next.storedUser == Some(u) && r.next.user == Some(u)
      && IsApplicant(r.next.user) && !IsAdmin(r.next.user)
  {
  }

  // ---------------------------------------------------------------------------
  // The provider
  // ---------------------------------------------------------------------------

  class AuthProvider {
    const storage: LocalStorage
    var user: Option<User>
    var loading: bool

    function State(): Session
      reads this, storage
    {
      Session(storage.tokens, storage.user, user, loading)
    }

    /** `useState(null)` and `useState(true)`. */
    constructor(storage: LocalStorage)
      ensures this.storage == storage
      ensures user == None && loading
    {
      this.storage := storage;
      user := None;
      loading := true;
    }

    method LoadUser(claim: JwtClaim, now: int, profile: Fetch<User>) returns (calls: seq<AuthCall>)
      modifies this, storage
      ensures State() == LoadUserStep(old(State()), claim, now, profile).next
      ensures calls == LoadUserStep(old(State()), claim, now, profile).calls
    {
      calls := [];
      var tokens := storage.tokens;
      if HasAccess(tokens) {
        match claim {
          case Expiry(exp) =>
            if exp * 1000 > now {
              calls := [GetProfile];
              match profile {
                case Fetched(u) =>
                  user := Some(u);
                case Failed =>
                  storage.RemoveTokens();
                  storage.RemoveUser();
              }
            } else {
              storage.RemoveTokens();
              storage.RemoveUser();
            }
          case NoExpiry =>
            storage.RemoveTokens();
            storage.RemoveUser();
          case Undecodable =>
            storage.RemoveTokens();
            storage.RemoveUser();
        }
      }
      loading := false;
    }

    method Login(email: string, password: string, res: Fetch<LoginData>)
      returns (result: Result<User>, calls: seq<AuthCall>)
      modifies this, storage
      ensures State() == LoginStep(old(State()), email, password, res).next
      ensures result == LoginStep(old(State()), email, password, res).result
      ensures calls == LoginStep(old(State()), email, password, res).calls
    {
      calls := [PostLogin(email, password)];
      match res {
        case Failed =>
          result := Err(RequestRejected);
        case Fetched(data) =>
          storage.SetTokens(TokenPair(data.access, data.refresh));
          storage.SetUser(data.user);
          user := Some(data.user);
          result := Ok(data.user);
      }
    }

    method Register(res: Fetch<RegisterData>) returns (result: Result<User>, calls: seq<AuthCall>)
      modifies this, storage
      ensures State() == RegisterStep(old(State()), res).next
      ensures result == RegisterStep(old(State()), res).result
      ensures calls == RegisterStep(old(State()), res).calls
    {
      calls := [PostRegister];
      match res {
        case Failed =>
          result := Err(RequestRejected);
        case Fetched(data) =>
          if data.tokens.None? {
            result := Err(MissingTokens);
          } else {
            var pair := data.tokens.value;
            storage.SetTokens(pair);
            storage.SetUser(data.user);
            user := Some(data.user);
            result := Ok(data.user);
          }
      }
    }

    method Logout(server: Fetch<()>) returns (calls: seq<AuthCall>)
      modifies this, storage
      ensures State() == LogoutStep(old(State()), server).next
      ensures calls == LogoutStep(old(State()), server).calls
    {
      calls := [];
      var tokens := storage.tokens;
      if HasRefresh(tokens) {
        calls := [PostLogout(tokens.value.refresh.value)];
      }
      storage.RemoveTokens();
      storage.RemoveUser();
      user := None;
    }

    method RefreshProfile(profile: Fetch<User>) returns (calls: seq<AuthCall>)
      modifies this, storage
      ensures State() == RefreshProfileStep(old(State()), profile).next
      ensures calls == RefreshProfileStep(old(State()), profile).calls
    {
      calls := [GetProfile];
      match profile {
        case Fetched(u) =>
          user := Some(u);
          storage.SetUser(u);
        case Failed =>
      }
    }
  }
}
