/**
 * The session store (`AuthProvider`): the only holder of "who is logged in".
 * It keeps the current user and a loading flag in memory, and the pair
 * `user` (the serialised user) / `token` in the browser's local storage,
 * modelled here as a map from keys to strings.
 *
 * The network is a parameter: each operation is given the API as a function
 * from the request it sends to the response it gets back.  Each operation
 * runs to completion before the next one starts.
 */
module AuthContext {
  import opened Wrappers
  import opened UserRecord
  import Json

  /** The local-storage keys the store writes. */
  const UserKey: string := "user"
  const TokenKey: string := "token"

  /** The message `useAuth` throws outside an `AuthProvider`. */
  const OutsideProviderMsg: string := "useAuth must be used within an AuthProvider"

  /** Body of the login request. */
  datatype Credentials = Credentials(usuario: string, senha: string)

  /** Body of the registration request; `doc` and `nivel` may be left out. */
  datatype RegisterData = RegisterData(
    nome: string, email: string, usuario: string, senha: string,
    doc: Option<string>, nivel: Option<string>)

  /** The JSON body the login endpoint answers with. */
  datatype LoginBody = LoginBody(success: bool, user: User, token: string)

  /** The JSON body the registration endpoint answers with. */
  datatype RegisterBody = RegisterBody(success: bool)

  /**
   * How a request ends: an HTTP response with status 2xx and a readable body,
   * any other HTTP response, or an exception (the network failed or the body
   * was not JSON).
   */
  datatype Response<B> = HttpOk(body: B) | HttpNotOk | Threw

  /** Everything the store holds. */
  datatype Session = Session(user: Option<User>, loading: bool, storage: map<string, string>)

  /** `localStorage.getItem(key)`. */
  function GetItem(storage: map<string, string>, key: string): Option<string> {
    if key in storage then Some(storage[key]) else None
  }

  /** JavaScript truthiness of what `getItem` returns: present and not empty. */
  predicate Truthy(item: Option<string>) {
    item.Some? && item.value != ""
  }

  /** Both storage entries hold a non-empty string, the test the init effect makes. */
  predicate HasStoredSession(storage: map<string, string>) {
    Truthy(GetItem(storage, UserKey)) && Truthy(GetItem(storage, TokenKey))
  }

  /** The state when the provider mounts: no user, still loading, storage as the browser has it. */
  function Mount(storage: map<string, string>): Session {
    Session(None, true, storage)
  }

  /**
   * The init effect.  `None` stands for the case where `JSON.parse` of the
   * stored user throws: the effect stops there and `loading` is never reset.
   */
  function InitEffect(s: Session): (r: Option<Session>)
    ensures r.Some? ==> !r.value.loading && r.value.storage == s.storage
    ensures !HasStoredSession(s.storage) ==> r == Some(s.(loading := false))
    ensures HasStoredSession(s.storage) ==>
      (r.Some? <==> Json.Decode(s.storage[UserKey]).Some?) &&
      (r.Some? ==> r.value.user == Json.Decode(s.storage[UserKey]))
  {
    var stored := GetItem(s.storage, UserKey);
    var token := GetItem(s.storage, TokenKey);
    if Truthy(stored) && Truthy(token) then
      match Json.Decode(stored.value)
      case None => None
      case Some(u) => Some(Session(Some(u), false, s.storage))
    else
      Some(s.(loading := false))
  }

  /** Login: the new state and the result the caller sees. */
  function LoginEffect(s: Session, response: Response<LoginBody>): (r: (Session, bool))
    ensures r.1 <==> response.HttpOk? && response.body.success
    ensures r.1 ==> r.0 == Session(Some(response.body.user), false,
                                   s.storage[UserKey := Json.Encode(response.body.user)]
                                            [TokenKey := response.body.token])
    ensures !r.1 ==> r.0 == s.(loading := false)
  {
    if response.HttpOk? && response.body.success then
      var u := response.body.user;
      (Session(Some(u), false, s.storage[UserKey := Json.Encode(u)][TokenKey := response.body.token]), true)
    else
      (s.(loading := false), false)
  }

  /** Registration: the state keeps its user and storage; only `loading` is reset. */
  function RegisterEffect(s: Session, response: Response<RegisterBody>): (r: (Session, bool))
    ensures r.0.user == s.user && r.0.storage == s.storage && !r.0.loading
    ensures r.1 <==> response.HttpOk? && response.body.success
  {
    (s.(loading := false), response.HttpOk? && response.body.success)
  }

  /** Logout: no user, both entries gone, every other entry and `loading` untouched. */
  function LogoutEffect(s: Session): (r: Session)
    ensures r.user == None && r.loading == s.loading
    ensures r.storage.Keys == s.storage.Keys - {UserKey, TokenKey}
    ensures forall k :: k in r.storage ==> r.storage[k] == s.storage[k]
  {
    Session(None, s.loading, s.storage - {UserKey, TokenKey})
  }

  /** `useAuth`: the context value, or the error it throws outside a provider. */
  function UseAuth<T>(context: Option<T>): (r: Result<T>)
    ensures r.Success? <==> context.Some?
    ensures r.Success? ==> r.value == context.value
    ensures r.Failure? ==> r.error == OutsideProviderMsg
  {
    match context
    case Some(v) => Success(v)
    case None => Failure(OutsideProviderMsg)
  }

  // ---------------------------------------------------------------------
  // Properties of the session store
  // ---------------------------------------------------------------------

  /**
   * A reload after a successful login restores exactly the logged-in user:
   * it was stored with `JSON.stringify` and is read back with `JSON.parse`.
   * This needs the token the API issued to be non-empty.
   */
  lemma ReloadAfterLogin(s: Session, body: LoginBody)
    requires body.success && body.token != ""
    ensures var after := LoginEffect(s, HttpOk(body)).0;
      InitEffect(Mount(after.storage)) == Some(Session(Some(body.user), false, after.storage))
  {
    Json.DecodeEncode(body.user);
  }

  /** With an empty token, the login holds for this page only: a reload comes back logged out. */
  lemma ReloadAfterLoginWithEmptyToken(s: Session, body: LoginBody)
    requires body.success && body.token == ""
    ensures var after := LoginEffect(s, HttpOk(body)).0;
      after.user == Some(body.user) &&
      InitEffect(Mount(after.storage)) == Some(Session(None, false, after.storage))
  {
  }

  /** Logout is idempotent. */
  lemma LogoutIdempotent(s: Session)
    ensures LogoutEffect(LogoutEffect(s)) == LogoutEffect(s)
  {
  }

  /** A reload after logout comes back logged out. */
  lemma ReloadAfterLogout(s: Session)
    ensures InitEffect(Mount(LogoutEffect(s).storage)) == Some(Session(None, false, LogoutEffect(s).storage))
  {
  }

  /** The user and the token are written together: after a login, one is stored iff the other is. */
  lemma LoginWritesPair(s: Session, response: Response<LoginBody>)
    requires UserKey in s.storage <==> TokenKey in s.storage
    ensures var after := LoginEffect(s, response).0;
      UserKey in after.storage <==> TokenKey in after.storage
  {
  }

  // ---------------------------------------------------------------------
  // The provider
  // ---------------------------------------------------------------------

  class AuthProvider {
    var user: Option<User>
    var loading: bool
    /** The browser's local storage. */
    var storage: map<string, string>

    function State(): Session
      reads this
    {
      Session(user, loading, storage)
    }

    /** Mounting the provider over the storage the browser already has. */
    constructor (storage0: map<string, string>)
      ensures State() == Mount(storage0)
      ensures user == None && loading && storage == storage0
    {
      user := None;
      loading := true;
      storage := storage0;
    }

    /** The init effect; `threw` when parsing the stored user throws, leaving the state as it was. */
    method Init() returns (threw: bool)
      modifies this
      ensures threw <==> InitEffect(old(State())).None?
      ensures threw ==> State() == old(State())
      ensures !threw ==> State() == InitEffect(old(State())).value
    {
      var stored := GetItem(storage, UserKey);
      var token := GetItem(storage, TokenKey);
      threw := false;
      if Truthy(stored) && Truthy(token) {
        var parsed := Json.Decode(stored.value);
        if parsed.None? {
          threw := true;
          return;
        }
        user := parsed;
      }
      loading := false;
    }

    method Login(usuario: string, senha: string, api: Credentials -> Response<LoginBody>) returns (ok: bool)
      modifies this
      ensures (State(), ok) == LoginEffect(old(State()), api(Credentials(usuario, senha)))
    {
      loading := true;
      var response := api(Credentials(usuario, senha));
      ok := false;
      if response.HttpOk? && response.body.success {
        var u := response.body.user;
        user := Some(u);
        storage := storage[UserKey := Json.Encode(u)];
        storage := storage[TokenKey := response.body.token];
        ok := true;
      }
      loading := false;
    }

    method Register(userData: RegisterData, api: RegisterData -> Response<RegisterBody>) returns (ok: bool)
      modifies this
      ensures (State(), ok) == RegisterEffect(old(State()), api(userData))
    {
      loading := true;
      var response := api(userData);
      ok := response.HttpOk? && response.body.success;
      loading := false;
    }

    method Logout()
      modifies this
      ensures State() == LogoutEffect(old(State()))
    {
      user := None;
      storage := storage - {UserKey};
      storage := storage - {TokenKey};
    }
  }
}
