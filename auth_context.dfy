/**
 * The session store (src/components/context/AuthContext.tsx): the current user and the
 * loading flag, the two persisted entries `token` and `user`, and the HTTP client's
 * default headers, which every change of credential keeps in step.
 *
 * `JSON.stringify` and `JSON.parse` are parameters: `serialize` is total, `parse`
 * answers None where `JSON.parse` would throw.
 */
module AuthContext {
  import opened Types
  import opened Http
  import opened AuthToken

  const TokenKey := "token"
  const UserKey := "user"

  /** Everything the session store reads or writes, as one value. */
  datatype Session = Session(
    storage: map<string, string>,
    headers: map<string, string>,
    user: Option<User>,
    isLoading: bool)

  /** `localStorage.getItem`: the stored string, or None (null) for a missing key. */
  function Lookup(m: map<string, string>, key: string): (r: Option<string>)
    ensures r.Some? <==> key in m
    ensures r.Some? ==> r.value == m[key]
  {
    if key in m then Some(m[key]) else None
  }

  /**
   * A page load: the persisted entries survive, the provider starts over with no user
   * and the loading flag up, and a new HTTP client starts from its configured default
   * headers `defaults`.
   */
  function Reloaded(s: Session, defaults: map<string, string>): (r: Session)
    ensures r.storage == s.storage && r.headers == defaults
    ensures r.user.None? && r.isLoading
  {
    Session(s.storage, defaults, None, true)
  }

  /**
   * The mount effect. With a non-empty token and a non-empty stored user, the header is
   * set from the token and the stored user is parsed; a parse failure removes both
   * entries and clears the header again. Every branch ends with the flag down.
   */
  function Restored(s: Session, parse: string -> Option<User>): (r: Session)
    ensures !r.isLoading
    ensures r.storage == s.storage || r.storage == s.storage - {TokenKey, UserKey}
    ensures r.user != s.user ==>
      UserKey in s.storage && r.user == parse(s.storage[UserKey]) && Authorization in r.headers
    ensures r.headers - {Authorization} == s.headers - {Authorization}
  {
    var token := Lookup(s.storage, TokenKey);
    var stored := Lookup(s.storage, UserKey);
    if Truthy(token) && Truthy(stored) then
      var withHeader := WithToken(s.headers, token.value);
      match parse(stored.value)
      case Some(u) => s.(headers := withHeader, user := Some(u), isLoading := false)
      case None => s.(storage := s.storage - {TokenKey, UserKey}, headers := WithToken(withHeader, ""), isLoading := false)
    else
      s.(isLoading := false)
  }

  /** `login(token, userData)`: persist both, set the header, make the user current. */
  function LoggedIn(s: Session, token: string, u: User, serialize: User -> string): (r: Session)
    ensures r.isLoading == s.isLoading
    ensures token != "" ==> InStep(r)
  {
    s.(storage := s.storage[TokenKey := token][UserKey := serialize(u)],
       headers := WithToken(s.headers, token),
       user := Some(u))
  }

  /** `logout()`: both entries emptied and then removed, the header cleared, no user. */
  function LoggedOut(s: Session): (r: Session)
    ensures r.isLoading == s.isLoading
    ensures InStep(r)
  {
    s.(storage := s.storage[TokenKey := ""][UserKey := ""] - {TokenKey} - {UserKey},
       headers := WithToken(s.headers, ""),
       user := None)
  }

  /** The session is in step with the client: a user is current exactly when a bearer header goes out. */
  predicate InStep(s: Session)
  {
    s.user.Some? <==> Authorization in s.headers
  }

  /** Without a non-empty token and a non-empty stored user, the mount effect only lowers the flag. */
  lemma RestoreWithoutCredentials(s: Session, parse: string -> Option<User>)
    requires !Truthy(Lookup(s.storage, TokenKey)) || !Truthy(Lookup(s.storage, UserKey))
    ensures Restored(s, parse).storage == s.storage
    ensures Restored(s, parse).headers == s.headers
    ensures Restored(s, parse).user == s.user
    ensures !Restored(s, parse).isLoading
  {
  }

  /** A stored user that parses becomes the current user, and the header carries the stored token. */
  lemma RestoreParsed(s: Session, parse: string -> Option<User>)
    requires TokenKey in s.storage && s.storage[TokenKey] != ""
    requires UserKey in s.storage && s.storage[UserKey] != ""
    requires parse(s.storage[UserKey]).Some?
    ensures Restored(s, parse).user == parse(s.storage[UserKey])
    ensures Restored(s, parse).headers == WithToken(s.headers, s.storage[TokenKey])
    ensures Restored(s, parse).headers[Authorization] == Bearer + s.storage[TokenKey]
    ensures Restored(s, parse).storage == s.storage
    ensures !Restored(s, parse).isLoading
  {
  }

  /** A stored user that does not parse: both entries go, the header goes, no user is set. */
  lemma RestoreParseFailure(s: Session, parse: string -> Option<User>)
    requires TokenKey in s.storage && s.storage[TokenKey] != ""
    requires UserKey in s.storage && s.storage[UserKey] != ""
    requires parse(s.storage[UserKey]).None?
    ensures TokenKey !in Restored(s, parse).storage && UserKey !in Restored(s, parse).storage
    ensures forall k :: k != TokenKey && k != UserKey ==>
      Lookup(Restored(s, parse).storage, k) == Lookup(s.storage, k)
    ensures Authorization !in Restored(s, parse).headers
    ensures Restored(s, parse).headers == s.headers - {Authorization}
    ensures Restored(s, parse).user == s.user
    ensures !Restored(s, parse).isLoading
  {
  }

  /** `login` persists the token and the serialized user and sets both the header and the user. */
  lemma LoginEffects(s: Session, token: string, u: User, serialize: User -> string)
    ensures LoggedIn(s, token, u, serialize).storage[TokenKey] == token
    ensures LoggedIn(s, token, u, serialize).storage[UserKey] == serialize(u)
    ensures forall k :: k != TokenKey && k != UserKey ==>
      Lookup(LoggedIn(s, token, u, serialize).storage, k) == Lookup(s.storage, k)
    ensures LoggedIn(s, token, u, serialize).headers == WithToken(s.headers, token)
    ensures LoggedIn(s, token, u, serialize).user == Some(u)
  {
  }

  /** `logout` leaves neither entry, no header and no user, and keeps every other entry. */
  lemma LogoutEffects(s: Session)
    ensures TokenKey !in LoggedOut(s).storage && UserKey !in LoggedOut(s).storage
    ensures forall k :: k != TokenKey && k != UserKey ==>
      Lookup(LoggedOut(s).storage, k) == Lookup(s.storage, k)
    ensures LoggedOut(s).storage == s.storage - {TokenKey, UserKey}
    ensures Authorization !in LoggedOut(s).headers
    ensures LoggedOut(s).user.None?
  {
    assert LoggedOut(s).storage == s.storage - {TokenKey, UserKey};
  }

  /**
   * Round trip: log in with a non-empty token, reload the page, and the mount effect
   * brings back the same user and the same bearer header, provided parsing undoes
   * serializing (and serializing never gives the empty string, as `JSON.stringify`
   * of an object never does).
   */
  lemma LoginThenReload(s: Session, token: string, u: User, defaults: map<string, string>,
                        serialize: User -> string, parse: string -> Option<User>)
    requires token != ""
    requires serialize(u) != "" && parse(serialize(u)) == Some(u)
    ensures Restored(Reloaded(LoggedIn(s, token, u, serialize), defaults), parse).user == Some(u)
    ensures Restored(Reloaded(LoggedIn(s, token, u, serialize), defaults), parse).headers == WithToken(defaults, token)
    ensures Restored(Reloaded(LoggedIn(s, token, u, serialize), defaults), parse).storage == LoggedIn(s, token, u, serialize).storage
  {
    var after := LoggedIn(s, token, u, serialize);
    assert Lookup(after.storage, TokenKey) == Some(token);
    assert Lookup(after.storage, UserKey) == Some(serialize(u));
  }

  /**
   * Log out, reload the page: the mount effect finds no session, and the new client
   * keeps the default headers it was loaded with.
   */
  lemma LogoutThenReload(s: Session, defaults: map<string, string>, parse: string -> Option<User>)
    ensures Restored(Reloaded(LoggedOut(s), defaults), parse).user.None?
    ensures Restored(Reloaded(LoggedOut(s), defaults), parse).headers == defaults
  {
    LogoutEffects(s);
    RestoreWithoutCredentials(Reloaded(LoggedOut(s), defaults), parse);
  }

  /**
   * `login` with an empty token makes the user current for this page, but the stored
   * empty token is falsy, so a reload finds no session.
   */
  lemma LoginWithEmptyTokenIsNotRestored(s: Session, u: User, defaults: map<string, string>,
                                         serialize: User -> string, parse: string -> Option<User>)
    ensures LoggedIn(s, "", u, serialize).user == Some(u)
    ensures Authorization !in LoggedIn(s, "", u, serialize).headers
    ensures Restored(Reloaded(LoggedIn(s, "", u, serialize), defaults), parse).user.None?
  {
    var after := LoggedIn(s, "", u, serialize);
    assert Lookup(after.storage, TokenKey) == Some("");
  }

  /**
   * The credential and the identity stay in step through the mount effect: from a
   * mounted provider with no user and no bearer header, it leaves a user exactly when
   * a bearer header is set. (`LoggedIn` with a non-empty token and `LoggedOut` are in
   * step from any state, as their own contracts say.)
   */
  lemma RestoreStaysInStep(s: Session, parse: string -> Option<User>)
    requires s.user.None? && Authorization !in s.headers
    ensures InStep(Restored(s, parse))
  {
  }

  /** The browser's `localStorage`: a string-to-string map updated in place. */
  class LocalStorage {
    var entries: map<string, string>

    constructor (entries: map<string, string>)
      ensures this.entries == entries
    {
      this.entries := entries;
    }

    /** `getItem`: null for a missing key. */
    function GetItem(key: string): (r: Option<string>)
      reads this
      ensures r.Some? <==> key in entries
      ensures r.Some? ==> r.value == entries[key]
    {
      Lookup(entries, key)
    }

    method SetItem(key: string, value: string)
      modifies this
      ensures entries == old(entries)[key := value]
    {
      entries := entries[key := value];
    }

    method RemoveItem(key: string)
      modifies this
      ensures entries == old(entries) - {key}
    {
      entries := entries - {key};
    }
  }

  /** `AuthProvider`: its two state fields, and the storage and client it writes through. */
  class AuthProvider {
    var user: Option<User>
    var isLoading: bool
    const storage: LocalStorage
    const client: ApiClient

    function State(): Session
      reads this, storage, client
    {
      Session(storage.entries, client.headers, user, isLoading)
    }

    /** Mounting: no user yet, and the loading flag up until the mount effect has run. */
    constructor (storage: LocalStorage, client: ApiClient)
      ensures this.storage == storage && this.client == client
      ensures State() == Session(storage.entries, client.headers, None, true)
    {
      this.storage := storage;
      this.client := client;
      user := None;
      isLoading := true;
    }

    /** The mount effect, step by step; `parse` stands for `JSON.parse`. */
    method Init(parse: string -> Option<User>)
      modifies this, storage, client
      ensures State() == Restored(old(State()), parse)
    {
      var token := storage.GetItem(TokenKey);
      var stored := storage.GetItem(UserKey);
      if Truthy(token) && Truthy(stored) {
        client.SetAuthToken(token.value);
        var parsed := parse(stored.value);
        if parsed.Some? {
          user := parsed;
        } else {
          storage.RemoveItem(TokenKey);
          storage.RemoveItem(UserKey);
          client.SetAuthToken("");
          assert storage.entries == old(storage.entries) - {TokenKey, UserKey};
        }
      }
      isLoading := false;
    }

    /** `login`; `serialize` stands for `JSON.stringify`. */
    method Login(token: string, userData: User, serialize: User -> string)
      modifies this, storage, client
      ensures State() == LoggedIn(old(State()), token, userData, serialize)
    {
      storage.SetItem(TokenKey, token);
      storage.SetItem(UserKey, serialize(userData));
      client.SetAuthToken(token);
      user := Some(userData);
    }

    method Logout()
      modifies this, storage, client
      ensures State() == LoggedOut(old(State()))
    {
      storage.SetItem(TokenKey, "");
      storage.SetItem(UserKey, "");
      storage.RemoveItem(TokenKey);
      storage.RemoveItem(UserKey);
      client.SetAuthToken("");
      user := None;
    }
  }
}
