/** The shared axios instance: its base URL, the request interceptor that
    attaches a bearer token found in storage, and the response interceptor
    that ends the session on a 401. The service of the dashboard builds an
    instance with the same base URL and the same request interceptor. */
module Api {
  import opened Base
  import Browser

  const DefaultBaseUrl := "http://localhost:3000"
  const TokenKeys := ["auth:token", "token", "access_token"]

  /** `.replace(/\/+$/, '')`: the run of '/' at the end is removed. */
  function StripTrailingSlashes(s: string): (r: string)
    ensures |r| <= |s| && s[..|r|] == r
    ensures forall i :: |r| <= i < |s| ==> s[i] == '/'
    ensures |r| == 0 || r[|r| - 1] != '/'
    decreases |s|
  {
    if |s| > 0 && s[|s| - 1] == '/' then StripTrailingSlashes(s[..|s| - 1]) else s
  }

  /** Stripping twice is stripping once, and a URL that does not end in '/'
      is left alone. */
  lemma StripIdempotent(s: string)
    ensures StripTrailingSlashes(StripTrailingSlashes(s)) == StripTrailingSlashes(s)
    ensures |s| == 0 || s[|s| - 1] != '/' ==> StripTrailingSlashes(s) == s
  {
  }

  /** The base URL: the first non-empty of the two environment values, else
      the local default, with its trailing slashes removed. */
  function BaseUrl(baseUrlEnv: Option<string>, apiUrlEnv: Option<string>): (r: string)
    ensures |r| == 0 || r[|r| - 1] != '/'
    ensures Present(baseUrlEnv) ==> r == StripTrailingSlashes(baseUrlEnv.value)
    ensures !Present(baseUrlEnv) && Present(apiUrlEnv) ==> r == StripTrailingSlashes(apiUrlEnv.value)
    ensures !Present(baseUrlEnv) && !Present(apiUrlEnv) ==> r == DefaultBaseUrl
  {
    var chosen := if Present(baseUrlEnv) then baseUrlEnv.value
                  else if Present(apiUrlEnv) then apiUrlEnv.value
                  else DefaultBaseUrl;
    StripTrailingSlashes(chosen)
  }

  /** A value made only of slashes is still chosen, and strips to the empty
      base URL rather than to the default. */
  lemma SlashOnlyBaseIsEmpty(apiUrlEnv: Option<string>)
    ensures BaseUrl(Some("///"), apiUrlEnv) == ""
  {
    assert StripTrailingSlashes("///"[..2]) == "";
  }

  /** The token the request interceptor attaches: the first non-empty value
      stored under "auth:token", "token", "access_token". */
  function PickToken(storage: map<string, string>): (r: Option<string>)
    ensures r.Some? ==> r.value != "" && exists k :: k in TokenKeys && k in storage && storage[k] == r.value
    ensures r.None? <==> forall k :: k in TokenKeys ==> k !in storage || storage[k] == ""
    ensures "auth:token" in storage && storage["auth:token"] != "" ==> r == Some(storage["auth:token"])
  {
    if "auth:token" in storage && storage["auth:token"] != "" then Some(storage["auth:token"])
    else if "token" in storage && storage["token"] != "" then Some(storage["token"])
    else if "access_token" in storage && storage["access_token"] != "" then Some(storage["access_token"])
    else None
  }

  /** A later key is used only when every earlier key is missing or empty. */
  lemma PickTokenPrecedence(storage: map<string, string>)
    ensures (("auth:token" !in storage || storage["auth:token"] == "") &&
             "token" in storage && storage["token"] != "") ==> PickToken(storage) == Some(storage["token"])
    ensures (("auth:token" !in storage || storage["auth:token"] == "") &&
             ("token" !in storage || storage["token"] == "") &&
             "access_token" in storage && storage["access_token"] != "") ==> PickToken(storage) == Some(storage["access_token"])
  {
  }

  /** The request interceptor, on the headers of a request: in a browser with
      a stored token, `Authorization` becomes "Bearer <token>"; otherwise the
      headers are passed on untouched. */
  function DecorateRequest(hasWindow: bool, storage: map<string, string>, headers: map<string, string>): (r: map<string, string>)
    ensures !hasWindow || PickToken(storage).None? ==> r == headers
    ensures hasWindow && PickToken(storage).Some? ==>
      "Authorization" in r && r["Authorization"] == "Bearer " + PickToken(storage).value &&
      forall k :: k != "Authorization" ==> (k in r <==> k in headers) && (k in r ==> r[k] == headers[k])
  {
    var token := PickToken(storage);
    if hasWindow && token.Some? then headers["Authorization" := "Bearer " + token.value] else headers
  }

  /** The response interceptor: every outcome is passed on as it is (a
      failure is still rejected); a 401 in a browser first removes the
      stored session and sends the browser to /login. */
  method Settle<T>(b: Browser.Browser, hasWindow: bool, resp: Net<T>) returns (r: Net<T>)
    modifies b
    ensures r == resp
    ensures hasWindow && resp.FailedWith(401) ==>
      b.storage == old(b.storage) - {"auth:token", "auth:user"} && b.redirects == old(b.redirects) + ["/login"]
    ensures !(hasWindow && resp.FailedWith(401)) ==>
      b.storage == old(b.storage) && b.redirects == old(b.redirects)
  {
    if hasWindow && resp.FailedWith(401) {
      b.RemoveItem("auth:token");
      b.RemoveItem("auth:user");
      b.Navigate("/login");
    }
    r := resp;
  }

  /** The stored session once the interceptor has seen `resp` in a page: a
      401 removes "auth:token" and "auth:user", any other outcome leaves the
      storage as it was. */
  function SessionAfter<T>(storage: map<string, string>, resp: Net<T>): map<string, string>
  {
    if resp.FailedWith(401) then storage - {"auth:token", "auth:user"} else storage
  }

  /** The redirects once the interceptor has seen `resp` in a page: a 401
      sends the browser to /login, any other outcome sends it nowhere. */
  function RedirectsAfter<T>(redirects: seq<string>, resp: Net<T>): seq<string>
  {
    if resp.FailedWith(401) then redirects + ["/login"] else redirects
  }
}
