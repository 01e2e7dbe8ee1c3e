/** The process-wide session store: the current token and user, read from
    `localStorage` once when the store is created and cleared together with
    storage on logout. */
module AuthStore {
  import opened Wrappers
  import opened Json
  import opened BrowserStorage

  /** The storage keys the client uses for the session. */
  const TokenKey := "token"
  const UserKey := "user"

  datatype User = User(id: string, fullName: string, email: string, role: string)

  /** `JSON.stringify(user)` for a user whose fields come in the order the
      `User` interface lists them. */
  function EncodeUser(u: User): (r: string)
    ensures |r| > 1 && r[0] == '{' && r[|r| - 1] == '}'
  {
    "{\"id\":" + (Quote(u.id) + (",\"fullName\":" + (Quote(u.fullName)
      + (",\"email\":" + (Quote(u.email) + (",\"role\":" + (Quote(u.role) + "}")))))))
  }

  /** The rest of `s` after the literal `lit`, if `s` starts with it. */
  function Expect(lit: string, s: string): (r: Option<string>)
    ensures r.Some? ==> s == lit + r.value
  {
    if |lit| <= |s| && s[..|lit|] == lit then
      assert s == s[..|lit|] + s[|lit|..];
      Some(s[|lit|..])
    else None
  }

  /** A key literal followed by a string value. */
  function DecodeField(lit: string, s: string): Option<(string, string)>
  {
    match Expect(lit, s)
    case Some(t) => DecodeString(t)
    case None => None
  }

  /** `JSON.parse` of a stored user: an object with the four string fields
      in `EncodeUser`'s order and spacing, each value a JSON string literal
      with any of its escapes; None for any other text. */
  function DecodeUser(s: string): (r: Option<User>)
    ensures r.Some? ==> |s| > 0 && s[0] == '{'
  {
    match DecodeField("{\"id\":", s)
    case None => None
    case Some((id, s1)) =>
      match DecodeField(",\"fullName\":", s1)
      case None => None
      case Some((fullName, s2)) =>
        match DecodeField(",\"email\":", s2)
        case None => None
        case Some((email, s3)) =>
          match DecodeField(",\"role\":", s3)
          case None => None
          case Some((role, s4)) =>
            if s4 == "}" then Some(User(id, fullName, email, role)) else None
  }

  lemma ExpectLiteral(lit: string, t: string)
    ensures Expect(lit, lit + t) == Some(t)
  {
    assert (lit + t)[..|lit|] == lit;
    assert (lit + t)[|lit|..] == t;
  }

  lemma DecodeFieldOf(lit: string, x: string, rest: string)
    ensures DecodeField(lit, lit + (Quote(x) + rest)) == Some((x, rest))
  {
    ExpectLiteral(lit, Quote(x) + rest);
    QuoteRoundTrip(x, rest);
  }

  /** A stored user reads back as the same user. */
  lemma UserRoundTrip(u: User)
    ensures DecodeUser(EncodeUser(u)) == Some(u)
  {
    var tail4 := Quote(u.role) + "}";
    var tail3 := Quote(u.email) + (",\"role\":" + tail4);
    var tail2 := Quote(u.fullName) + (",\"email\":" + tail3);
    var tail1 := Quote(u.id) + (",\"fullName\":" + tail2);
    DecodeFieldOf("{\"id\":", u.id, ",\"fullName\":" + tail2);
    DecodeFieldOf(",\"fullName\":", u.fullName, ",\"email\":" + tail3);
    DecodeFieldOf(",\"email\":", u.email, ",\"role\":" + tail4);
    DecodeFieldOf(",\"role\":", u.role, "}");
  }

  datatype HydrationError = MalformedStoredUser(raw: string)

  /** `JSON.parse(raw)` where a user is expected: the text `null` is the
      absent user, a stored user is read back, any other text makes
      `JSON.parse` throw (or yields a value that is not a user). */
  function ParseStoredUser(raw: string): (r: Result<Option<User>, HydrationError>)
    ensures raw == "null" ==> r == Ok(None)
    ensures r.Err? <==> raw != "null" && DecodeUser(raw).None?
    ensures raw != "null" && r.Ok? ==> r.value == DecodeUser(raw)
    ensures r.Err? ==> r.error == MalformedStoredUser(raw)
  {
    if raw == "null" then Ok(None)
    else match DecodeUser(raw)
      case Some(u) => Ok(Some(u))
      case None => Err(MalformedStoredUser(raw))
  }

  datatype Session = Session(token: Option<string>, user: Option<User>)

  /** The store's initial state. Outside a browser both fields are null. In a
      browser the token is `getItem('token')` as it is, and the user is
      `JSON.parse(getItem('user') || 'null')`: an absent or empty entry gives
      no user, and a stored text that is not a user fails the store's creation. */
  function InitialSession(inBrowser: bool, items: map<string, string>): (r: Result<Session, HydrationError>)
    ensures !inBrowser ==> r == Ok(Session(None, None))
    ensures inBrowser && r.Ok? ==> r.value.token == Lookup(items, TokenKey)
    ensures inBrowser && (UserKey !in items || items[UserKey] == []) ==> r == Ok(Session(Lookup(items, TokenKey), None))
    ensures inBrowser && r.Ok? && r.value.user.Some? ==> UserKey in items && DecodeUser(items[UserKey]) == r.value.user
    ensures inBrowser && UserKey in items && items[UserKey] == "null" ==> r == Ok(Session(Lookup(items, TokenKey), None))
    ensures inBrowser && UserKey in items && DecodeUser(items[UserKey]).Some? ==>
      r == Ok(Session(Lookup(items, TokenKey), DecodeUser(items[UserKey])))
    ensures inBrowser && UserKey in items && items[UserKey] != [] && items[UserKey] != "null" && DecodeUser(items[UserKey]).None? ==>
      r == Err(MalformedStoredUser(items[UserKey]))
    ensures r.Err? <==> inBrowser && UserKey in items && items[UserKey] != [] && items[UserKey] != "null" && DecodeUser(items[UserKey]).None?
  {
    if !inBrowser then Ok(Session(None, None))
    else
      var raw := if UserKey in items && items[UserKey] != [] then items[UserKey] else "null";
      match ParseStoredUser(raw)
      case Ok(user) => Ok(Session(Lookup(items, TokenKey), user))
      case Err(e) => Err(e)
  }

  /** Storage after logout: both session keys gone, every other entry kept. */
  function ClearedStorage(items: map<string, string>): (r: map<string, string>)
    ensures r.Keys == items.Keys - {TokenKey, UserKey}
    ensures forall k :: k in r ==> r[k] == items[k]
  {
    items - {TokenKey, UserKey}
  }

  /** What login writes (the token and the serialized user) is what the store
      reads on its next creation: a reload restores the session. */
  lemma HydrateAfterLogin(items: map<string, string>, token: string, user: User)
    ensures InitialSession(true, items[TokenKey := token][UserKey := EncodeUser(user)])
         == Ok(Session(Some(token), Some(user)))
  {
    var stored := items[TokenKey := token][UserKey := EncodeUser(user)];
    var raw := EncodeUser(user);
    assert UserKey in stored && stored[UserKey] == raw;
    assert Lookup(stored, TokenKey) == Some(token);
    UserRoundTrip(user);
    assert raw != [] && raw != "null" by { assert raw[0] == '{'; }
    assert ParseStoredUser(raw) == Ok(Some(user));
  }

  /** After logout a reload starts with no session. */
  lemma HydrateAfterLogout(inBrowser: bool, items: map<string, string>)
    ensures InitialSession(inBrowser, ClearedStorage(items)) == Ok(Session(None, None))
  {
  }

  /** Logging out a second time changes nothing more. */
  lemma LogoutIdempotent(items: map<string, string>)
    ensures ClearedStorage(ClearedStorage(items)) == ClearedStorage(items)
  {
  }

  class SessionStore {
    var token: Option<string>
    var user: Option<User>

    constructor (s: Session)
      ensures token == s.token && user == s.user
    {
      token, user := s.token, s.user;
    }

    /** Creates the store as the module does when it is first loaded. */
    static method Hydrate(inBrowser: bool, storage: LocalStorage) returns (r: Result<SessionStore, HydrationError>)
      ensures InitialSession(inBrowser, storage.items).Err? ==> r == Err(InitialSession(inBrowser, storage.items).error)
      ensures InitialSession(inBrowser, storage.items).Ok? ==>
        r.Ok? && fresh(r.value)
        && r.value.token == InitialSession(inBrowser, storage.items).value.token
        && r.value.user == InitialSession(inBrowser, storage.items).value.user
    {
      match InitialSession(inBrowser, storage.items)
      case Err(e) =>
        r := Err(e);
      case Ok(s) =>
        var store := new SessionStore(s);
        r := Ok(store);
    }

    /** `setToken`: only the token changes; storage is not touched. */
    method SetToken(t: string)
      modifies this
      ensures token == Some(t) && user == old(user)
    {
      token := Some(t);
    }

    /** `setUser`: only the user changes; storage is not touched. */
    method SetUser(u: User)
      modifies this
      ensures user == Some(u) && token == old(token)
    {
      user := Some(u);
    }

    /** `logout`: both storage keys are removed, then both fields are cleared. */
    method Logout(storage: LocalStorage)
      modifies this, storage
      ensures storage.items == ClearedStorage(old(storage.items))
      ensures token == None && user == None
    {
      storage.RemoveItem(TokenKey);
      storage.RemoveItem(UserKey);
      token, user := None, None;
    }
  }

  /** Two logouts in a row leave store and storage as one does. */
  method LogoutTwice(store: SessionStore, storage: LocalStorage)
    modifies store, storage
    ensures storage.items == ClearedStorage(old(storage.items))
    ensures store.token == None && store.user == None
  {
    store.Logout(storage);
    store.Logout(storage);
    LogoutIdempotent(old(storage.items));
  }
}
