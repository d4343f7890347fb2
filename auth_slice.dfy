/**
 * The auth slice: registration, login, profile update, logout and session
 * restore. The operations keep the browser's local storage (keys 'token'
 * and 'user') in step with the signed-in user; the slice's state is
 * hydrated from that storage when the store is created.
 */
module AuthSlice {
  import opened Common
  import opened Entities

  const RegisterFailedMessage: string := "Erreur lors de l'inscription"
  const LoginFailedMessage: string := "Erreur lors de la connexion"
  const UpdateFailedMessage: string := "Mise à jour du profil impossible"
  const NoTokenMessage: string := "Aucun token trouvé"
  const SessionLostMessage: string := "Impossible de récupérer l'utilisateur"

  const TokenKey: string := "token"
  const UserKey: string := "user"

  /** The only user fields that registration and login keep and persist. */
  const AllowList: set<string> := {"id", "username", "email", "firstName", "lastName"}

  /** The browser's local storage: string keys to string values. */
  class LocalStorage {
    var entries: map<string, string>

    constructor (initial: map<string, string>)
      ensures entries == initial
    {
      entries := initial;
    }

    /** `getItem(key)`: the stored string, or null. */
    function GetItem(key: string): (v: Option<string>)
      reads this
      ensures v.Some? <==> key in entries
      ensures v.Some? ==> v.value == entries[key]
    {
      if key in entries then Some(entries[key]) else None
    }

    /** `setItem(key, value)` */
    method SetItem(key: string, value: string)
      modifies this
      ensures entries == old(entries)[key := value]
    {
      entries := entries[key := value];
    }

    /** `removeItem(key)` */
    method RemoveItem(key: string)
      modifies this
      ensures entries == old(entries) - {key}
    {
      entries := entries - {key};
    }
  }

  /** `localStorage.getItem('token')` when truthy: a stored, non-empty token. */
  function StoredToken(entries: map<string, string>): (t: Option<string>)
    ensures t.Some? <==> TokenKey in entries && entries[TokenKey] != ""
    ensures t.Some? ==> t.value == entries[TokenKey]
  {
    if TokenKey in entries && entries[TokenKey] != "" then Some(entries[TokenKey]) else None
  }

  /**
   * The message a failed operation rejects with: the body's `message`,
   * else the `msg` of its first validation error, else the operation's
   * default.
   */
  function AuthMessage(f: Failure, default: string): (m: string)
    requires default != ""
    ensures m != ""
    ensures DataMessage(f) != "" ==> m == DataMessage(f)
    ensures DataMessage(f) == "" && FirstErrorMsg(f) != "" ==> m == FirstErrorMsg(f)
    ensures m == default <== DataMessage(f) == "" && FirstErrorMsg(f) == ""
  {
    Or(DataMessage(f), Or(FirstErrorMsg(f), default))
  }

  // ---------------------------------------------------------------------
  // register and login

  /** The body of a registration or login response; "" is a missing token. */
  datatype AuthBody = AuthBody(token: string, user: Option<UserFields>)

  /** `cleanUserData`: the user restricted to the allow-listed fields. */
  function CleanUser(raw: UserFields): (u: UserFields)
    ensures u.Keys == raw.Keys * AllowList
    ensures forall k :: k in u ==> u[k] == raw[k]
  {
    map k | k in raw.Keys * AllowList :: raw[k]
  }

  /** A response the operation accepts: a body with both a token and a user. */
  predicate Accepted(response: Outcome<Option<AuthBody>>)
  {
    response.Success? && response.body.Some?
    && response.body.value.token != "" && response.body.value.user.Some?
  }

  /**
   * What `register` / `login` resolve with. A response without token or
   * user throws inside the operation, and that error has no response, so
   * the default message is reported.
   */
  function SignInResult(response: Outcome<Option<AuthBody>>, default: string): (r: Result<UserFields, ErrorPayload>)
    requires default != ""
    ensures r.Ok? <==> Accepted(response)
    ensures r.Ok? ==> r.value == CleanUser(response.body.value.user.value) && r.value.Keys <= AllowList
    ensures response.Success? && !Accepted(response) ==> r == Err(Text(default))
    ensures response.Failed? ==> r == Err(Text(AuthMessage(response.failure, default)))
  {
    match response
    case Failed(f) => Err(Text(AuthMessage(f, default)))
    case Success(body) =>
      if Accepted(response) then Ok(CleanUser(body.value.user.value)) else Err(Text(default))
  }

  /**
   * The storage after `register` / `login`: token and cleaned user are
   * written only for an accepted response; otherwise storage is untouched.
   */
  function SignInStorage(entries: map<string, string>, response: Outcome<Option<AuthBody>>,
                         stringify: UserFields -> string): (e: map<string, string>)
    ensures !Accepted(response) ==> e == entries
    ensures Accepted(response) ==>
      && e.Keys == entries.Keys + {TokenKey, UserKey}
      && e[TokenKey] == response.body.value.token
      && e[UserKey] == stringify(CleanUser(response.body.value.user.value))
      && (forall k :: k in entries && k != TokenKey && k != UserKey ==> e[k] == entries[k])
  {
    if Accepted(response) then
      var body := response.body.value;
      entries[TokenKey := body.token][UserKey := stringify(CleanUser(body.user.value))]
    else entries
  }

  /** The body of `register` and `login`, which differ only in their default message. */
  method SignIn(storage: LocalStorage, response: Outcome<Option<AuthBody>>, default: string,
                stringify: UserFields -> string) returns (r: Result<UserFields, ErrorPayload>)
    requires default != ""
    modifies storage
    ensures r == SignInResult(response, default)
    ensures storage.entries == SignInStorage(old(storage.entries), response, stringify)
  {
    if response.Failed? {
      return Err(Text(AuthMessage(response.failure, default)));
    }
    var body := response.body;
    if body.Some? && body.value.token != "" && body.value.user.Some? {
      storage.SetItem(TokenKey, body.value.token);
      var clean := CleanUser(body.value.user.value);
      storage.SetItem(UserKey, stringify(clean));
      return Ok(clean);
    } else {
      return Err(Text(default));
    }
  }

  /**
   * After a successful sign-in, what storage holds is exactly what the
   * operation resolved with: the token, and the serialised allow-listed user.
   */
  lemma SignInStoresWhatItReturns(entries: map<string, string>, response: Outcome<Option<AuthBody>>,
                                  default: string, stringify: UserFields -> string)
    requires default != ""
    ensures var r := SignInResult(response, default);
      var e := SignInStorage(entries, response, stringify);
      && (r.Ok? ==> StoredToken(e) == Some(response.body.value.token)
                    && e[UserKey] == stringify(r.value)
                    && r.value.Keys <= AllowList)
      && (r.Err? ==> e == entries)
  {
  }

  // ---------------------------------------------------------------------
  // updateUserProfile, logout, getCurrentUser

  /** `updateUserProfile(data)`: resolves with the server's user. */
  function UpdateResult(response: Outcome<UserFields>): (r: Result<UserFields, ErrorPayload>)
    ensures r.Ok? <==> response.Success?
    ensures r.Ok? ==> r.value == response.body
    ensures r.Err? ==> r.error == Text(AuthMessage(response.failure, UpdateFailedMessage))
  {
    match response
    case Success(u) => Ok(u)
    case Failed(f) => Err(Text(AuthMessage(f, UpdateFailedMessage)))
  }

  /** The storage after `updateUserProfile`: the whole returned user replaces 'user'. */
  function UpdateStorage(entries: map<string, string>, response: Outcome<UserFields>,
                         stringify: UserFields -> string): (e: map<string, string>)
    ensures response.Failed? ==> e == entries
    ensures response.Success? ==> e == entries[UserKey := stringify(response.body)]
  {
    match response
    case Success(u) => entries[UserKey := stringify(u)]
    case Failed(_) => entries
  }

  /** The body of `updateUserProfile`. */
  method UpdateUserProfile(storage: LocalStorage, response: Outcome<UserFields>,
                           stringify: UserFields -> string) returns (r: Result<UserFields, ErrorPayload>)
    modifies storage
    ensures r == UpdateResult(response)
    ensures storage.entries == UpdateStorage(old(storage.entries), response, stringify)
  {
    match response
    case Success(u) =>
      storage.SetItem(UserKey, stringify(u));
      r := Ok(u);
    case Failed(f) =>
      r := Err(Text(AuthMessage(f, UpdateFailedMessage)));
  }

  /** The storage after `logout`, or after a failed session restore: both keys gone. */
  function SignedOut(entries: map<string, string>): (e: map<string, string>)
    ensures TokenKey !in e && UserKey !in e
    ensures StoredToken(e) == None
    ensures forall k :: k in entries && k != TokenKey && k != UserKey ==> k in e && e[k] == entries[k]
    ensures e.Keys <= entries.Keys
  {
    entries - {TokenKey, UserKey}
  }

  /** The body of `logout`; it never fails. */
  method Logout(storage: LocalStorage)
    modifies storage
    ensures storage.entries == SignedOut(old(storage.entries))
  {
    storage.RemoveItem(TokenKey);
    storage.RemoveItem(UserKey);
  }

  /**
   * `getCurrentUser()`: without a stored token it rejects before any
   * request; otherwise it resolves with the server's user, or rejects
   * with a fixed message.
   */
  function CurrentUser(entries: map<string, string>, response: Outcome<UserFields>): (s: Settled<UserFields>)
    ensures s.requested <==> StoredToken(entries).Some?
    ensures !s.requested ==> s.result == Err(Text(NoTokenMessage))
    ensures s.requested ==> (s.result.Ok? <==> response.Success?)
    ensures s.requested && response.Success? ==> s.result.value == response.body
    ensures s.requested && response.Failed? ==> s.result == Err(Text(SessionLostMessage))
  {
    if StoredToken(entries).None? then Settled(Err(Text(NoTokenMessage)), false)
    else match response
      case Success(u) => Settled(Ok(u), true)
      case Failed(_) => Settled(Err(Text(SessionLostMessage)), true)
  }

  /** The storage after `getCurrentUser`: cleared only when the request itself failed. */
  function CurrentUserStorage(entries: map<string, string>, response: Outcome<UserFields>): (e: map<string, string>)
    ensures StoredToken(entries).None? ==> e == entries
    ensures StoredToken(entries).Some? && response.Success? ==> e == entries
    ensures StoredToken(entries).Some? && response.Failed? ==> e == SignedOut(entries)
  {
    if StoredToken(entries).Some? && response.Failed? then SignedOut(entries) else entries
  }

  /** The body of `getCurrentUser`. */
  method GetCurrentUser(storage: LocalStorage, response: Outcome<UserFields>) returns (s: Settled<UserFields>)
    modifies storage
    ensures s == CurrentUser(old(storage.entries), response)
    ensures storage.entries == CurrentUserStorage(old(storage.entries), response)
  {
    var token := storage.GetItem(TokenKey);
    if token.None? || token.value == "" {
      return Settled(Err(Text(NoTokenMessage)), false);
    }
    match response
    case Success(u) =>
      s := Settled(Ok(u), true);
    case Failed(_) =>
      storage.RemoveItem(TokenKey);
      storage.RemoveItem(UserKey);
      s := Settled(Err(Text(SessionLostMessage)), true);
  }

  /**
   * A session restore either succeeds and leaves storage as it was, or
   * fails; when it fails after a request, nothing of the session is left
   * in storage, and a further restore rejects without a request.
   */
  lemma FailedRestoreSignsOut(entries: map<string, string>, response: Outcome<UserFields>, next: Outcome<UserFields>)
    requires CurrentUser(entries, response).requested
    requires CurrentUser(entries, response).result.Err?
    ensures var e := CurrentUserStorage(entries, response);
      && TokenKey !in e && UserKey !in e
      && CurrentUser(e, next) == Settled(Err(Text(NoTokenMessage)), false)
  {
  }

  // ---------------------------------------------------------------------
  // Hydration

  /** `JSON.parse` of the stored user: a user object or null, or a parse error. */
  datatype Parsed = Parsed(user: Option<UserFields>) | Unparsable

  /** The initial `user`: the parsed stored user; null when none is stored or it does not parse. */
  function HydratedUser(entries: map<string, string>, parse: string -> Parsed): (u: Option<UserFields>)
    ensures UserKey !in entries || entries[UserKey] == "" ==> u == None
    ensures UserKey in entries && parse(entries[UserKey]) == Unparsable ==> u == None
    ensures u.Some? ==> UserKey in entries && parse(entries[UserKey]) == Parsed(u)
  {
    if UserKey in entries && entries[UserKey] != "" then
      match parse(entries[UserKey])
      case Parsed(u) => u
      case Unparsable => None
    else None
  }

  /** The storage after hydration: an unparsable stored user is removed, nothing else changes. */
  function HydratedStorage(entries: map<string, string>, parse: string -> Parsed): (e: map<string, string>)
    ensures e == entries || e == entries - {UserKey}
    ensures UserKey in entries && entries[UserKey] != "" && parse(entries[UserKey]) == Unparsable <==> UserKey in entries && UserKey !in e
    ensures StoredToken(e) == StoredToken(entries)
  {
    if UserKey in entries && entries[UserKey] != "" && parse(entries[UserKey]) == Unparsable then
      entries - {UserKey}
    else entries
  }

  /** The initialiser of `user` in the initial state. */
  method ReadStoredUser(storage: LocalStorage, parse: string -> Parsed) returns (user: Option<UserFields>)
    modifies storage
    ensures user == HydratedUser(old(storage.entries), parse)
    ensures storage.entries == HydratedStorage(old(storage.entries), parse)
  {
    var stored := storage.GetItem(UserKey);
    if stored.None? || stored.value == "" {
      return None;
    }
    match parse(stored.value)
    case Parsed(u) =>
      user := u;
    case Unparsable =>
      storage.RemoveItem(UserKey);
      user := None;
  }

  class AuthState {
    var user: Option<UserFields>
    var token: Option<string>
    var loading: bool
    var error: Option<ErrorPayload>
    var isAuthenticated: bool

    /**
     * The initial state, read from storage: `isAuthenticated` holds
     * exactly when a token is stored, whether or not a user is.
     */
    constructor (storage: LocalStorage, parse: string -> Parsed)
      modifies storage
      ensures storage.entries == HydratedStorage(old(storage.entries), parse)
      ensures user == HydratedUser(old(storage.entries), parse)
      ensures token == StoredToken(old(storage.entries))
      ensures isAuthenticated <==> StoredToken(old(storage.entries)).Some?
      ensures !loading && error == None
    {
      var u := ReadStoredUser(storage, parse);
      var t := storage.GetItem(TokenKey);
      user := u;
      token := if t.Some? && t.value != "" then t else None;
      loading := false;
      error := None;
      isAuthenticated := t.Some? && t.value != "";
    }

    /** The `pending` case of `register`, `login` and `updateUserProfile`. */
    method Pending()
      modifies this
      ensures loading && error == None
      ensures user == old(user) && token == old(token) && isAuthenticated == old(isAuthenticated)
    {
      loading := true;
      error := None;
    }

    /** `register.fulfilled` and `login.fulfilled`; the state's `token` is left as it was. */
    method SignInFulfilled(u: UserFields)
      modifies this
      ensures !loading && user == Some(u) && isAuthenticated && error == None
      ensures token == old(token)
    {
      loading := false;
      user := Some(u);
      isAuthenticated := true;
      error := None;
    }

    /** `register.rejected` and `login.rejected`: signed out, whatever the prior state. */
    method SignInRejected(payload: ErrorPayload)
      modifies this
      ensures !loading && user == None && !isAuthenticated && error == Some(payload)
      ensures token == old(token)
    {
      loading := false;
      user := None;
      isAuthenticated := false;
      error := Some(payload);
    }

    /** `updateUserProfile.fulfilled` */
    method UpdateFulfilled(u: UserFields)
      modifies this
      ensures !loading && user == Some(u) && error == None
      ensures token == old(token) && isAuthenticated == old(isAuthenticated)
    {
      loading := false;
      user := Some(u);
      error := None;
    }

    /** `updateUserProfile.rejected`: the session is kept. */
    method UpdateRejected(payload: ErrorPayload)
      modifies this
      ensures !loading && error == Some(payload)
      ensures user == old(user) && token == old(token) && isAuthenticated == old(isAuthenticated)
    {
      loading := false;
      error := Some(payload);
    }

    /** `logout.fulfilled` */
    method LogoutFulfilled()
      modifies this
      ensures user == None && token == None && !isAuthenticated && error == None
      ensures loading == old(loading)
    {
      user := None;
      token := None;
      isAuthenticated := false;
      error := None;
    }

    /** `getCurrentUser.pending`: `error` is not reset. */
    method CurrentUserPending()
      modifies this
      ensures loading
      ensures user == old(user) && token == old(token) && isAuthenticated == old(isAuthenticated)
      ensures error == old(error)
    {
      loading := true;
    }

    /** `getCurrentUser.fulfilled` */
    method CurrentUserFulfilled(u: UserFields)
      modifies this
      ensures !loading && user == Some(u) && isAuthenticated
      ensures token == old(token) && error == old(error)
    {
      loading := false;
      user := Some(u);
      isAuthenticated := true;
    }

    /** `getCurrentUser.rejected`: signed out; `token` and `error` are left as they were. */
    method CurrentUserRejected()
      modifies this
      ensures !loading && user == None && !isAuthenticated
      ensures token == old(token) && error == old(error)
    {
      loading := false;
      user := None;
      isAuthenticated := false;
    }

    /** Dispatching `register(data)` when the server answers `response`. */
    method DispatchRegister(storage: LocalStorage, response: Outcome<Option<AuthBody>>, stringify: UserFields -> string)
      modifies this, storage
      ensures storage.entries == SignInStorage(old(storage.entries), response, stringify)
      ensures var r := SignInResult(response, RegisterFailedMessage);
        && (r.Ok? ==> user == Some(r.value) && isAuthenticated && error == None)
        && (r.Err? ==> user == None && !isAuthenticated && error == Some(r.error))
      ensures !loading && token == old(token)
    {
      Pending();
      var r := SignIn(storage, response, RegisterFailedMessage, stringify);
      match r
      case Ok(u) => SignInFulfilled(u);
      case Err(e) => SignInRejected(e);
    }

    /** Dispatching `login(credentials)` when the server answers `response`. */
    method DispatchLogin(storage: LocalStorage, response: Outcome<Option<AuthBody>>, stringify: UserFields -> string)
      modifies this, storage
      ensures storage.entries == SignInStorage(old(storage.entries), response, stringify)
      ensures var r := SignInResult(response, LoginFailedMessage);
        && (r.Ok? ==> user == Some(r.value) && isAuthenticated && error == None)
        && (r.Err? ==> user == None && !isAuthenticated && error == Some(r.error))
      ensures !loading && token == old(token)
    {
      Pending();
      var r := SignIn(storage, response, LoginFailedMessage, stringify);
      match r
      case Ok(u) => SignInFulfilled(u);
      case Err(e) => SignInRejected(e);
    }

    /** Dispatching `updateUserProfile(data)` when the server answers `response`. */
    method DispatchUpdateUserProfile(storage: LocalStorage, response: Outcome<UserFields>, stringify: UserFields -> string)
      modifies this, storage
      ensures storage.entries == UpdateStorage(old(storage.entries), response, stringify)
      ensures response.Success? ==> user == Some(response.body) && error == None
      ensures response.Failed? ==> user == old(user) && error == Some(UpdateResult(response).error)
      ensures !loading && token == old(token) && isAuthenticated == old(isAuthenticated)
    {
      Pending();
      var r := UpdateUserProfile(storage, response, stringify);
      match r
      case Ok(u) => UpdateFulfilled(u);
      case Err(e) => UpdateRejected(e);
    }

    /** Dispatching `logout()`: it always fulfils. */
    method DispatchLogout(storage: LocalStorage)
      modifies this, storage
      ensures storage.entries == SignedOut(old(storage.entries))
      ensures user == None && token == None && !isAuthenticated && error == None
      ensures loading == old(loading)
    {
      Logout(storage);
      LogoutFulfilled();
    }

    /** Dispatching `getCurrentUser()` when the server would answer `response`. */
    method DispatchGetCurrentUser(storage: LocalStorage, response: Outcome<UserFields>)
      modifies this, storage
      ensures storage.entries == CurrentUserStorage(old(storage.entries), response)
      ensures var s := CurrentUser(old(storage.entries), response);
        && (s.result.Ok? ==> user == Some(s.result.value) && isAuthenticated)
        && (s.result.Err? ==> user == None && !isAuthenticated)
      ensures !loading && token == old(token) && error == old(error)
    {
      CurrentUserPending();
      var s := GetCurrentUser(storage, response);
      match s.result
      case Ok(u) => CurrentUserFulfilled(u);
      case Err(_) => CurrentUserRejected();
    }
  }
}
