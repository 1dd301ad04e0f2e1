/** frontend/src/services/api.js: how the client derives the base URL of
    the backend from its build environment, and the Authorization header it
    adds to every request. The 401 interceptor (clearing storage and
    redirecting) is not part of this model. */
module ApiClient {
  import opened Base

  const DefaultBase: string := "http://localhost:5000/api"

  /** `import.meta.env.VITE_API_URL || default`: an unset or empty value
      falls back to the default. */
  function RawBase(env: Option<string>): (r: string)
    ensures Given(env) ==> r == env.value
    ensures !Given(env) ==> r == DefaultBase
  {
    if Given(env) then env.value else DefaultBase
  }

  /** `replace(/\/$/, '')`: at most one trailing slash is removed. */
  function StripSlash(s: string): (r: string)
    ensures EndsWith(s, "/") ==> r == s[..|s| - 1]
    ensures !EndsWith(s, "/") ==> r == s
  {
    if EndsWith(s, "/") then s[..|s| - 1] else s
  }

  /** The base URL always ends in `/api`: one that already does is kept,
      any other loses one trailing slash and gets `/api` appended. */
  function NormalizeBase(raw: string): (r: string)
    ensures EndsWith(r, "/api")
    ensures EndsWith(raw, "/api") ==> r == raw
    ensures !EndsWith(raw, "/api") ==> r == StripSlash(raw) + "/api"
  {
    if EndsWith(raw, "/api") then raw
    else
      var r := StripSlash(raw) + "/api";
      assert r[|r| - 4..] == "/api";
      r
  }

  /** Normalising a normalised base changes nothing. */
  lemma NormalizeIdempotent(raw: string)
    ensures NormalizeBase(NormalizeBase(raw)) == NormalizeBase(raw)
  {
  }

  /** A base ending in `/api/` does not end in `/api`: its slash is removed
      and `/api` appended again, so `/api` is doubled. */
  lemma TrailingSlashAfterApi(prefix: string)
    ensures NormalizeBase(prefix + "/api/") == prefix + "/api/api"
  {
    var raw := prefix + "/api/";
    assert raw[|raw| - 4..] == "api/" != "/api";
    assert raw[|raw| - 1..] == "/";
    assert raw[..|raw| - 1] == prefix + "/api";
  }

  /** Only one slash is removed: a base ending in `//` keeps one of them
      before the appended `/api`. */
  lemma OneSlashOnly(prefix: string)
    ensures NormalizeBase(prefix + "//") == prefix + "//api"
  {
    var raw := prefix + "//";
    assert raw[|raw| - 1] == '/';
    if |raw| >= 4 {
      assert raw[|raw| - 4..][3] == raw[|raw| - 1];
    }
    assert !EndsWith(raw, "/api");
    assert raw[|raw| - 1..] == "/";
    assert raw[..|raw| - 1] == prefix + "/";
  }

  /** `API_URL`: with no environment value the default is used unchanged. */
  function BaseUrl(env: Option<string>): (r: string)
    ensures EndsWith(r, "/api")
    ensures !Given(env) ==> r == DefaultBase
    ensures Given(env) && EndsWith(env.value, "/api") ==> r == env.value
  {
    assert DefaultBase[|DefaultBase| - 4..] == "/api";
    NormalizeBase(RawBase(env))
  }

  /** The request interceptor: the token from local storage, else from
      session storage; an empty token counts as none and adds no header. */
  function AuthHeader(local: Option<string>, session: Option<string>): (h: Option<string>)
    ensures h.Some? <==> Given(local) || Given(session)
    ensures Given(local) ==> h == Some("Bearer " + local.value)
    ensures !Given(local) && Given(session) ==> h == Some("Bearer " + session.value)
  {
    var token := if Given(local) then local else session;
    if Given(token) then Some("Bearer " + token.value) else None
  }
}
