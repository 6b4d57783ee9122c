/**
 * The client's session: the signed-in user and token, the status of the last
 * login and its error, and their copy in the browser's key-value storage,
 * which is read back once when the application starts. `JSON.stringify` and
 * `JSON.parse` of a user are parameters.
 */
module AuthSlice {
  import opened Base
  import opened UserEntity
  import opened SliceStatus
  import opened AuthController

  const AUTH_TOKEN_KEY := "auth_token"
  const AUTH_USER_KEY := "auth_user"
  const MSG_LOGIN_FAILED := "No se pudo iniciar sesión"

  /** The part of the session that survives a reload. */
  datatype Credentials = Credentials(token: Option<string>, user: Option<UserResponse>)

  /** A token is truthy unless it is absent or empty. */
  predicate TokenTruthy(token: Option<string>) {
    token.Some? && token.value != ""
  }

  /**
   * The storage `persistAuth` leaves: both keys written when there is a
   * truthy token and a user, both removed otherwise; no other key changes.
   */
  function Persisted(entries: map<string, string>, c: Credentials, stringify: UserResponse -> string): (r: map<string, string>)
    ensures AUTH_TOKEN_KEY in r <==> TokenTruthy(c.token) && c.user.Some?
    ensures AUTH_USER_KEY in r <==> TokenTruthy(c.token) && c.user.Some?
    ensures AUTH_TOKEN_KEY in r ==> r[AUTH_TOKEN_KEY] == c.token.value && r[AUTH_USER_KEY] == stringify(c.user.value)
    ensures forall k :: k != AUTH_TOKEN_KEY && k != AUTH_USER_KEY ==>
      (k in r <==> k in entries) && (k in r ==> r[k] == entries[k])
  {
    if TokenTruthy(c.token) && c.user.Some? then
      entries[AUTH_TOKEN_KEY := c.token.value][AUTH_USER_KEY := stringify(c.user.value)]
    else
      entries - {AUTH_TOKEN_KEY, AUTH_USER_KEY}
  }

  /**
   * `loadInitialState`: the stored token, and the stored user when there is
   * non-empty text under its key; text that does not parse discards both.
   */
  function LoadInitialState(entries: map<string, string>, parse: string -> Option<UserResponse>): (c: Credentials)
    ensures AUTH_USER_KEY in entries && entries[AUTH_USER_KEY] != "" && parse(entries[AUTH_USER_KEY]).None? ==>
      c == Credentials(None, None)
    ensures !(AUTH_USER_KEY in entries && entries[AUTH_USER_KEY] != "") ==> c.user.None?
    ensures c.token.Some? ==> AUTH_TOKEN_KEY in entries && c.token.value == entries[AUTH_TOKEN_KEY]
    ensures c.user.Some? ==> AUTH_USER_KEY in entries && parse(entries[AUTH_USER_KEY]) == c.user
  {
    var token := if AUTH_TOKEN_KEY in entries then Some(entries[AUTH_TOKEN_KEY]) else None;
    if AUTH_USER_KEY in entries && entries[AUTH_USER_KEY] != "" then
      match parse(entries[AUTH_USER_KEY])
      case None => Credentials(None, None)
      case Some(u) => Credentials(token, Some(u))
    else
      Credentials(token, None)
  }

  /**
   * A session persisted with a truthy token is what the next start reads
   * back, as long as parsing the stored text gives the user again.
   */
  lemma PersistThenLoad(entries: map<string, string>, token: string, user: UserResponse,
                        stringify: UserResponse -> string, parse: string -> Option<UserResponse>)
    requires token != "" && stringify(user) != "" && parse(stringify(user)) == Some(user)
    ensures LoadInitialState(Persisted(entries, Credentials(Some(token), Some(user)), stringify), parse)
         == Credentials(Some(token), Some(user))
  {
    var stored := Persisted(entries, Credentials(Some(token), Some(user)), stringify);
    assert AUTH_TOKEN_KEY in stored && stored[AUTH_TOKEN_KEY] == token;
    assert AUTH_USER_KEY in stored && stored[AUTH_USER_KEY] == stringify(user);
  }

  /** After a logout the next start has no session. */
  lemma LogoutThenLoad(entries: map<string, string>, stringify: UserResponse -> string, parse: string -> Option<UserResponse>)
    ensures LoadInitialState(Persisted(entries, Credentials(None, None), stringify), parse) == Credentials(None, None)
  {
    var stored := Persisted(entries, Credentials(None, None), stringify);
    assert AUTH_TOKEN_KEY !in stored && AUTH_USER_KEY !in stored;
  }

  /** The browser's `localStorage`. */
  class BrowserStorage {
    var entries: map<string, string>

    constructor (entries: map<string, string>)
      ensures this.entries == entries
    {
      this.entries := entries;
    }
  }

  /** `persistAuth`: writes or removes both keys as `Persisted` says. */
  method PersistAuth(storage: BrowserStorage, c: Credentials, stringify: UserResponse -> string)
    modifies storage
    ensures storage.entries == Persisted(old(storage.entries), c, stringify)
  {
    if TokenTruthy(c.token) && c.user.Some? {
      storage.entries := storage.entries[AUTH_TOKEN_KEY := c.token.value];
      storage.entries := storage.entries[AUTH_USER_KEY := stringify(c.user.value)];
    } else {
      storage.entries := storage.entries - {AUTH_TOKEN_KEY};
      storage.entries := storage.entries - {AUTH_USER_KEY};
    }
  }

  class AuthState {
    var user: Option<UserResponse>
    var token: Option<string>
    var status: LoadStatus
    var error: Option<string>
    const storage: BrowserStorage

    /** `initialState`: the credentials read back from storage, idle, no error. */
    constructor (storage: BrowserStorage, parse: string -> Option<UserResponse>)
      ensures this.storage == storage
      ensures Credentials(token, user) == LoadInitialState(storage.entries, parse)
      ensures status == Idle && error == None
    {
      this.storage := storage;
      var c := LoadInitialState(storage.entries, parse);
      token := c.token;
      user := c.user;
      status := Idle;
      error := None;
    }

    /** `logout`: no user, no token, idle, no error, and the stored session removed. */
    method Logout(stringify: UserResponse -> string)
      modifies this, storage
      ensures user == None && token == None && status == Idle && error == None
      ensures storage.entries == Persisted(old(storage.entries), Credentials(None, None), stringify)
    {
      user := None;
      token := None;
      status := Idle;
      error := None;
      PersistAuth(storage, Credentials(None, None), stringify);
    }

    /** `setCredentials`: the given session, persisted; status and error untouched. */
    method SetCredentials(response: LoginResponse, stringify: UserResponse -> string)
      modifies this, storage
      ensures user == Some(response.user) && token == Some(response.token)
      ensures status == old(status) && error == old(error)
      ensures storage.entries == Persisted(old(storage.entries), Credentials(token, user), stringify)
    {
      user := Some(response.user);
      token := Some(response.token);
      PersistAuth(storage, Credentials(token, user), stringify);
    }

    /** `loginThunk.pending`: loading, the error cleared; the session stays. */
    method LoginPending()
      modifies this
      ensures status == Loading && error == None
      ensures user == old(user) && token == old(token)
    {
      status := Loading;
      error := None;
    }

    /** `loginThunk.fulfilled`: succeeded, with the answer's user and token, persisted. */
    method LoginFulfilled(response: LoginResponse, stringify: UserResponse -> string)
      modifies this, storage
      ensures status == Succeeded && user == Some(response.user) && token == Some(response.token)
      ensures error == old(error)
      ensures storage.entries == Persisted(old(storage.entries), Credentials(token, user), stringify)
    {
      status := Succeeded;
      user := Some(response.user);
      token := Some(response.token);
      PersistAuth(storage, Credentials(token, user), stringify);
    }

    /** `loginThunk.rejected`: failed with the rejection's message or the fallback; the session stays. */
    method LoginRejected(payload: Option<string>)
      modifies this
      ensures status == Failed && error == Some(RejectedError(payload, MSG_LOGIN_FAILED))
      ensures user == old(user) && token == old(token)
    {
      status := Failed;
      error := Some(RejectedError(payload, MSG_LOGIN_FAILED));
    }
  }
}
