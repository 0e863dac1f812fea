/** Redirect and URL string helpers (app/utils/index.ts). */
module UrlUtils {
  import opened Wrappers

  const DefaultRedirect: string := "/"
  const DefaultOrigin: string := "https://wking.dev"

  predicate StartsWith(s: string, prefix: string) {
    |prefix| <= |s| && s[..|prefix|] == prefix
  }

  predicate EndsWith(s: string, suffix: string) {
    |suffix| <= |s| && s[|s| - |suffix|..] == suffix
  }

  /** A form entry value, or the absence of one: string, uploaded file, null or undefined. */
  datatype RedirectTarget = Text(s: string) | File | Null | Undefined

  /**
   * `safeRedirect(to, defaultRedirect)`: the user-supplied target when it is a local path,
   * otherwise the default. `defaultRedirect` is None when the caller omits it.
   */
  function SafeRedirect(to: RedirectTarget, defaultRedirect: Option<string>): (r: string)
    // the result is the target or the default, never anything else
    ensures var d := defaultRedirect.GetOr(DefaultRedirect);
            r == d || (to.Text? && r == to.s)
    // a target is returned exactly when it is a string starting with one slash and not two
    ensures var d := defaultRedirect.GetOr(DefaultRedirect);
            (to.Text? && StartsWith(to.s, "/") && !StartsWith(to.s, "//")) ==> r == to.s
    ensures var d := defaultRedirect.GetOr(DefaultRedirect);
            !(to.Text? && StartsWith(to.s, "/") && !StartsWith(to.s, "//")) ==> r == d
  {
    var d := defaultRedirect.GetOr(DefaultRedirect);
    // `!to || typeof to !== 'string'`: null, undefined, a file and the empty string
    if !to.Text? || to.s == "" then d
    else if !(|to.s| >= 1 && to.s[0] == '/') || (|to.s| >= 2 && to.s[..2] == "//") then d
    else to.s
  }

  /** A returned value that is not the default is a local path: no network-path reference. */
  lemma SafeRedirectIsLocal(to: RedirectTarget, defaultRedirect: Option<string>)
    ensures var r := SafeRedirect(to, defaultRedirect);
            r != defaultRedirect.GetOr(DefaultRedirect) ==> StartsWith(r, "/") && !StartsWith(r, "//")
  {
  }

  /** `removeTrailingSlash`: drops one final "/" if there is one. */
  function RemoveTrailingSlash(s: string): (r: string)
    ensures EndsWith(s, "/") ==> r + "/" == s
    ensures !EndsWith(s, "/") ==> r == s
  {
    if |s| > 0 && s[|s| - 1] == '/' then s[..|s| - 1] else s
  }

  /** Removing one slash is not idempotent: "a//" becomes "a/" and then "a". */
  lemma RemoveTrailingSlashNotIdempotent()
    ensures RemoveTrailingSlash("a//") == "a/"
    ensures RemoveTrailingSlash(RemoveTrailingSlash("a//")) != RemoveTrailingSlash("a//")
  {
    assert "a//"[..2] == "a/";
    assert "a/"[..1] == "a";
  }

  /** The result has no trailing slash exactly when the input does not end in two. */
  lemma RemoveTrailingSlashResult(s: string)
    ensures EndsWith(RemoveTrailingSlash(s), "/") <==> EndsWith(s, "//")
  {
    var r := RemoveTrailingSlash(s);
    if EndsWith(s, "/") {
      assert r + "/" == s;
      if |r| > 0 {
        assert s[|s| - 2..] == [r[|r| - 1], '/'];
      }
    } else if |s| >= 2 {
      assert s[|s| - 2..][1] == s[|s| - 1];
    }
  }

  datatype RequestInfo = RequestInfo(origin: string, path: string)

  /** `getUrl(requestInfo?)`: origin then path, without one trailing slash. */
  function GetUrl(requestInfo: Option<RequestInfo>): (r: string)
    ensures var joined := if requestInfo.Some? then requestInfo.value.origin + requestInfo.value.path
                          else DefaultOrigin;
            r == RemoveTrailingSlash(joined)
  {
    var origin := if requestInfo.Some? then requestInfo.value.origin else DefaultOrigin;
    var path := if requestInfo.Some? then requestInfo.value.path else "";
    RemoveTrailingSlash(origin + path)
  }

  /** Without request information the URL is the default origin itself. */
  lemma GetUrlDefault()
    ensures GetUrl(None) == DefaultOrigin
  {
  }

  /** The result is a prefix of origin + path, at most one character shorter. */
  lemma GetUrlPrefix(info: RequestInfo)
    ensures var joined := info.origin + info.path;
            var r := GetUrl(Some(info));
            StartsWith(joined, r) && |joined| - 1 <= |r|
  {
  }

  /** `sub` occurs in `s` at position `j`. */
  predicate OccursAt(s: string, sub: string, j: nat) {
    j + |sub| <= |s| && s[j..j + |sub|] == sub
  }

  /** Whether `sub` occurs in `s` at or after position `i`, scanning left to right. */
  function IncludesFrom(s: string, sub: string, i: nat): (r: bool)
    requires i <= |s|
    ensures r <==> exists j: nat :: i <= j && OccursAt(s, sub, j)
    decreases |s| - i
  {
    if i + |sub| > |s| then false
    else if s[i..i + |sub|] == sub then assert OccursAt(s, sub, i); true
    else IncludesFrom(s, sub, i + 1)
  }

  /** String.prototype.includes. */
  function Includes(s: string, sub: string): (r: bool)
    ensures r <==> exists j: nat :: OccursAt(s, sub, j)
  {
    IncludesFrom(s, sub, 0)
  }

  /**
   * Request headers, as looked up by `Headers.get` (case-insensitive names are assumed to be
   * stored lower-cased). A header that is present may hold the empty string.
   */
  type Headers = map<string, string>

  function HeaderGet(headers: Headers, name: string): Option<string> {
    if name in headers then Some(headers[name]) else None
  }

  /** The URL built from a host name: http for hosts that mention localhost, else https. */
  function DomainUrlFor(host: string): string {
    (if Includes(host, "localhost") then "http" else "https") + "://" + host
  }

  /** `getDomainUrl`: the thrown "Could not determine domain URL." error is the Failure. */
  function GetDomainUrl(headers: Headers): (r: Result<string, string>)
    // X-Forwarded-Host wins whenever it is present, even over a usable host header
    ensures "x-forwarded-host" in headers && headers["x-forwarded-host"] != "" ==>
              r == Success(DomainUrlFor(headers["x-forwarded-host"]))
    ensures "x-forwarded-host" in headers && headers["x-forwarded-host"] == "" ==> r.Failure?
    // otherwise the host header is used
    ensures "x-forwarded-host" !in headers && "host" in headers && headers["host"] != "" ==>
              r == Success(DomainUrlFor(headers["host"]))
    ensures "x-forwarded-host" !in headers && ("host" !in headers || headers["host"] == "") ==> r.Failure?
  {
    var forwarded := HeaderGet(headers, "x-forwarded-host");
    // `??` falls back only on null, so an empty forwarded host is kept and then rejected
    var host := if forwarded.Some? then forwarded else HeaderGet(headers, "host");
    if host.None? || host.value == "" then Failure("Could not determine domain URL.")
    else
      var protocol := if Includes(host.value, "localhost") then "http" else "https";
      Success(protocol + "://" + host.value)
  }

  /** The protocol is plain http exactly for hosts that mention localhost. */
  lemma DomainUrlProtocol(host: string)
    ensures var u := DomainUrlFor(host);
            && (StartsWith(u, "http://") <==> Includes(host, "localhost"))
            && (StartsWith(u, "https://") <==> !Includes(host, "localhost"))
            && u[|u| - |host|..] == host
  {
    var u := DomainUrlFor(host);
    assert u[4] == ':' ==> !StartsWith(u, "https://");
    assert u[4] == 's' ==> !StartsWith(u, "http://");
  }
}
