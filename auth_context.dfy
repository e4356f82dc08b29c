/** The session store of the client: the (user, token) pair held in memory
    and mirrored into `localStorage`, the hydration flags of the bootstrap,
    and the header decoration of `authFetch`. */
module AuthContext {
  import opened Base
  import Browser
  import Api

  const UserKey := "auth:user"
  const TokenKey := "auth:token"
  const AdminRole := "admin"

  datatype AuthUser = AuthUser(id: string, name: string, email: string, role: Option<string>)

  datatype AuthState = AuthState(user: Option<AuthUser>, token: Option<string>)

  /** `JSON.stringify` and `JSON.parse` on the stored user: `parse` gives
      None where `JSON.parse` throws. */
  datatype UserCodec = UserCodec(stringify: AuthUser -> string, parse: string -> Option<AuthUser>)

  /** What JSON guarantees of a stored object: it is never the empty string
      and it parses back to the same value. */
  ghost predicate Faithful(c: UserCodec)
  {
    (forall u :: c.parse(c.stringify(u)) == Some(u)) && (forall u :: c.stringify(u) != "")
  }

  /** The body of the login and register responses. */
  datatype AuthResponse = AuthResponse(user: Option<AuthUser>, token: Option<string>)

  /** `readStorage`: nothing outside a browser; otherwise the parsed user
      when the stored one is non-empty and the stored token as it is (an
      empty token is kept). A user that does not parse makes the `catch`
      return nothing at all. */
  function ReadStorage(hasWindow: bool, storage: map<string, string>, c: UserCodec): (r: AuthState)
    ensures !hasWindow ==> r == AuthState(None, None)
    ensures hasWindow && (UserKey !in storage || storage[UserKey] == "") ==>
      r == AuthState(None, if TokenKey in storage then Some(storage[TokenKey]) else None)
    ensures hasWindow && UserKey in storage && storage[UserKey] != "" && c.parse(storage[UserKey]).None? ==>
      r == AuthState(None, None)
    ensures hasWindow && UserKey in storage && storage[UserKey] != "" && c.parse(storage[UserKey]).Some? ==>
      r == AuthState(c.parse(storage[UserKey]), if TokenKey in storage then Some(storage[TokenKey]) else None)
  {
    if !hasWindow then AuthState(None, None)
    else
      var token := if TokenKey in storage then Some(storage[TokenKey]) else None;
      if UserKey in storage && storage[UserKey] != "" then
        var parsed := c.parse(storage[UserKey]);
        if parsed.None? then AuthState(None, None) else AuthState(parsed, token)
      else AuthState(None, token)
  }

  /** `writeStorage`: a user is stored, a missing one removed; a non-empty
      token is stored, a missing or empty one removed. No other key changes. */
  function Written(storage: map<string, string>, next: AuthState, c: UserCodec): (r: map<string, string>)
    ensures next.user.Some? ==> UserKey in r && r[UserKey] == c.stringify(next.user.value)
    ensures next.user.None? ==> UserKey !in r
    ensures Present(next.token) ==> TokenKey in r && r[TokenKey] == next.token.value
    ensures !Present(next.token) ==> TokenKey !in r
    ensures forall k :: k != UserKey && k != TokenKey ==> (k in r <==> k in storage) && (k in r ==> r[k] == storage[k])
  {
    var withUser := if next.user.Some? then storage[UserKey := c.stringify(next.user.value)] else storage - {UserKey};
    if Present(next.token) then withUser[TokenKey := next.token.value] else withUser - {TokenKey}
  }

  /** The pair a write leaves for the next read, as the reader sees it: an
      empty token is not stored, so it comes back as no token. */
  function Normalised(s: AuthState): AuthState
  {
    AuthState(s.user, if Present(s.token) then s.token else None)
  }

  /** Reading back what was written gives the pair written, up to the empty
      token, whatever else the storage held. */
  lemma ReadWritten(storage: map<string, string>, s: AuthState, c: UserCodec)
    requires Faithful(c)
    ensures ReadStorage(true, Written(storage, s, c), c) == Normalised(s)
  {
    var w := Written(storage, s, c);
    if s.user.Some? {
      assert c.parse(c.stringify(s.user.value)) == Some(s.user.value);
      assert c.stringify(s.user.value) != "";
    }
  }

  /** Clearing the session is removing the two keys. */
  lemma WrittenEmpty(storage: map<string, string>, c: UserCodec)
    ensures Written(storage, AuthState(None, None), c) == storage - {UserKey, TokenKey}
  {
    var r := Written(storage, AuthState(None, None), c);
    assert r.Keys == (storage - {UserKey, TokenKey}).Keys;
  }

  /** A 401 seen by the response interceptor of the shared api ends the
      session for the provider too: a reload finds neither user nor token, and
      the interceptor removed exactly what a logout removes. */
  lemma UnauthorizedSignsOut<T>(storage: map<string, string>, resp: Net<T>, c: UserCodec)
    requires resp.FailedWith(401)
    ensures ReadStorage(true, Api.SessionAfter(storage, resp), c) == AuthState(None, None)
    ensures Api.SessionAfter(storage, resp) == Written(storage, AuthState(None, None), c)
  {
    WrittenEmpty(storage, c);
  }

  /** The request options `authFetch` passes to `fetch`. */
  datatype FetchInit = FetchInit(headers: map<string, string>, credentials: string)

  /** `authFetch` on the headers of the call (header names in the lower case
      `Headers` stores them in): a non-empty in-memory token is added as a
      bearer header unless the caller set one; cookies are always sent. */
  function AuthFetchInit(token: Option<string>, headers: map<string, string>): (r: FetchInit)
    ensures r.credentials == "include"
    ensures Present(token) && "authorization" !in headers ==>
      r.headers == headers["authorization" := "Bearer " + token.value]
    ensures !Present(token) || "authorization" in headers ==> r.headers == headers
  {
    if Present(token) && "authorization" !in headers then FetchInit(headers["authorization" := "Bearer " + token.value], "include")
    else FetchInit(headers, "include")
  }

  /** A header set by the caller is never replaced, and no other header is
      touched. */
  lemma AuthFetchKeepsHeaders(token: Option<string>, headers: map<string, string>, k: string)
    requires k in headers
    ensures k in AuthFetchInit(token, headers).headers
    ensures AuthFetchInit(token, headers).headers[k] == headers[k]
  {
  }

  class AuthProvider {
    const browser: Browser.Browser
    const codec: UserCodec
    var user: Option<AuthUser>
    var token: Option<string>
    var isHydrated: bool
    var isChecking: bool

    /** The first render: the state is read from storage; neither flag is set. */
    constructor (b: Browser.Browser, c: UserCodec, hasWindow: bool)
      ensures browser == b && codec == c
      ensures AuthState(user, token) == ReadStorage(hasWindow, b.storage, c)
      ensures !isHydrated && !isChecking
    {
      browser := b;
      codec := c;
      var s := ReadStorage(hasWindow, b.storage, c);
      user := s.user;
      token := s.token;
      isHydrated := false;
      isChecking := false;
    }

    /** Derived flag: there is a user. */
    predicate IsAuthenticated()
      reads this
    {
      user.Some?
    }

    /** Derived flag: there is a user whose role is "admin". */
    predicate IsAdmin()
      reads this
    {
      user.Some? && user.value.role == Some(AdminRole)
    }

    /** `writeStorage` of the current client. */
    method WriteStorage(next: AuthState)
      modifies browser
      ensures browser.storage == Written(old(browser.storage), next, codec)
      ensures browser.redirects == old(browser.redirects)
    {
      if next.user.Some? {
        browser.SetItem(UserKey, codec.stringify(next.user.value));
      } else {
        browser.RemoveItem(UserKey);
      }
      if Present(next.token) {
        browser.SetItem(TokenKey, next.token.value);
      } else {
        browser.RemoveItem(TokenKey);
      }
    }

    /** `setAuth`: memory and storage both take the pair. */
    method SetAuth(u: Option<AuthUser>, t: Option<string>)
      modifies this, browser
      ensures user == u && token == t
      ensures browser.storage == Written(old(browser.storage), AuthState(u, t), codec)
      ensures browser.redirects == old(browser.redirects)
      ensures isHydrated == old(isHydrated) && isChecking == old(isChecking)
    {
      user := u;
      token := t;
      WriteStorage(AuthState(u, t));
    }

    /** The storage listener: an event on the user or the token key reloads
        the state from storage; any other key is ignored. */
    method OnStorage(key: Option<string>)
      modifies this
      ensures key == Some(UserKey) || key == Some(TokenKey) ==>
        AuthState(user, token) == ReadStorage(true, browser.storage, codec)
      ensures !(key == Some(UserKey) || key == Some(TokenKey)) ==> user == old(user) && token == old(token)
      ensures isHydrated == old(isHydrated) && isChecking == old(isChecking)
    {
      if key == Some(UserKey) || key == Some(TokenKey) {
        var s := ReadStorage(true, browser.storage, codec);
        user := s.user;
        token := s.token;
      }
    }

    /** The start of the bootstrap effect. */
    method StartBootstrap()
      modifies this
      ensures isChecking && isHydrated == old(isHydrated)
      ensures user == old(user) && token == old(token)
    {
      isChecking := true;
    }

    /** The bootstrap once `getMe` settles (`me` is its outcome; a rejection
        is caught): unless the effect was cancelled, a user is adopted with
        the current token, and the flags say the check is over. */
    method FinishBootstrap(me: Net<Option<AuthUser>>, cancelled: bool)
      modifies this, browser
      ensures !cancelled && me.Ok? && me.value.Some? ==>
        user == me.value && token == old(token) &&
        browser.storage == Written(old(browser.storage), AuthState(me.value, old(token)), codec)
      ensures cancelled || me.Fail? || me.value.None? ==>
        user == old(user) && token == old(token) && browser.storage == old(browser.storage)
      ensures !cancelled ==> !isChecking && isHydrated
      ensures cancelled ==> isChecking == old(isChecking) && isHydrated == old(isHydrated)
      ensures browser.redirects == old(browser.redirects)
    {
      if !cancelled && me.Ok? && me.value.Some? {
        SetAuth(me.value, token);
      }
      if !cancelled {
        isChecking := false;
        isHydrated := true;
      }
    }

    /** `login`: no response leaves everything as it was; a response is
        adopted as the session and its user is returned. */
    method Login(res: Option<AuthResponse>) returns (r: Option<AuthUser>)
      modifies this, browser
      ensures res.None? ==> r == None && user == old(user) && token == old(token) && browser.storage == old(browser.storage)
      ensures res.Some? ==>
        r == res.value.user && user == res.value.user && token == res.value.token &&
        browser.storage == Written(old(browser.storage), AuthState(res.value.user, res.value.token), codec)
      ensures browser.redirects == old(browser.redirects)
      ensures isHydrated == old(isHydrated) && isChecking == old(isChecking)
    {
      if res.None? {
        return None;
      }
      SetAuth(res.value.user, res.value.token);
      r := res.value.user;
    }

    /** `register`: like `login`, but the answer is whether the response
        carried a user or a non-empty token. */
    method Register(res: Option<AuthResponse>) returns (r: bool)
      modifies this, browser
      ensures res.None? ==> !r && user == old(user) && token == old(token) && browser.storage == old(browser.storage)
      ensures res.Some? ==> (r <==> res.value.user.Some? || Present(res.value.token))
      ensures res.Some? ==>
        user == res.value.user && token == res.value.token &&
        browser.storage == Written(old(browser.storage), AuthState(res.value.user, res.value.token), codec)
      ensures browser.redirects == old(browser.redirects)
      ensures isHydrated == old(isHydrated) && isChecking == old(isChecking)
    {
      if res.None? {
        return false;
      }
      SetAuth(res.value.user, res.value.token);
      r := res.value.user.Some? || Present(res.value.token);
    }

    /** `logout`: the session is cleared in memory and in storage first; the
        outcomes of the two logout requests that follow change nothing. */
    method Logout(jwtLogout: Net<()>, googleLogout: Net<bool>)
      modifies this, browser
      ensures user == None && token == None && !IsAuthenticated() && !IsAdmin()
      ensures browser.storage == old(browser.storage) - {UserKey, TokenKey}
      ensures browser.redirects == old(browser.redirects)
      ensures isHydrated == old(isHydrated) && isChecking == old(isChecking)
    {
      SetAuth(None, None);
      WrittenEmpty(old(browser.storage), codec);
      browser.RemoveItem(UserKey);
      browser.RemoveItem(TokenKey);
    }

    /** `authFetch` with the in-memory token. */
    function AuthFetch(headers: map<string, string>): (r: FetchInit)
      reads this
      ensures r == AuthFetchInit(token, headers)
    {
      AuthFetchInit(token, headers)
    }
  }

  /** After `setAuth`, a reload of the page reads the same session back
      (an empty token reads back as none). */
  method SetAuthSurvivesReload(b: Browser.Browser, c: UserCodec, u: Option<AuthUser>, t: Option<string>)
    returns (reloaded: AuthState)
    requires Faithful(c)
    modifies b
    ensures reloaded == Normalised(AuthState(u, t))
  {
    var provider := new AuthProvider(b, c, true);
    provider.SetAuth(u, t);
    ReadWritten(old(b.storage), AuthState(u, t), c);
    var again := new AuthProvider(b, c, true);
    reloaded := AuthState(again.user, again.token);
  }
}
