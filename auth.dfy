/**
 * Bearer-token admission for one protected route: the layered settings
 * fallback, token extraction, the issuer and audience checks, the choice of
 * the key-set (JWKS) URL and the process-wide key-set cache, signature
 * verification, the optional ID token, the configured claim check and the
 * credentials that an admitted request carries.
 *
 * The JWT library and the key-set HTTP fetch are oracles: total functions
 * supplied by the caller (`Oracles`). A failing library call is `None`.
 */
module Auth {
  import opened Common

  // ------------------------------------------------------------ data model

  /**
   * A claim value of a decoded token payload: a string, an array of
   * strings (the audience may be either, section 4.1.3 of RFC 7519), or any
   * other JSON scalar, of which only its truthiness matters here.
   */
  datatype ClaimValue =
    | Str(text: string)
    | StrList(items: seq<string>)
    | Scalar(truthy: bool)

  /** Python truthiness of a claim value. */
  predicate ClaimTruthy(c: ClaimValue) {
    match c
    case Str(t) => t != ""
    case StrList(items) => |items| > 0
    case Scalar(t) => t
  }

  type Payload = map<string, ClaimValue>

  function Get(p: Payload, k: string): Option<ClaimValue> {
    if k in p then Some(p[k]) else None
  }

  /** A fetched key-set document, as opaque keys; an empty document is falsy. */
  datatype Jwks = Jwks(keys: seq<string>)

  predicate JwksTruthy(j: Jwks) {
    |j.keys| > 0
  }

  /** Per-route settings, with the defaults of its settings class. */
  datatype ApiAuthSettings = ApiAuthSettings(
    enabled: bool := false,
    issuers: Option<seq<string>> := None,
    audiences: Option<seq<string>> := None,
    jwksUrls: Option<seq<string>> := None,
    idTokenVerifyAtHash: Option<bool> := None)

  /**
   * The settings the admission reads. `apiSettings` maps a route name to
   * its `auth_api_<route name>` entry; a route without an entry has none.
   */
  datatype AuthConfig = AuthConfig(
    apiSettings: map<string, ApiAuthSettings>,
    authEnabled: bool := true,
    defaultIssuers: seq<string> := [],
    defaultAudiences: seq<string> := [],
    defaultJwksUrls: seq<string> := [],
    defaultIdTokenVerifyAtHash: Option<bool> := None,
    claimName: Option<string> := None,
    claimValues: Option<seq<string>> := None)

  /** The settings as shipped: authentication on, two routes protected, empty default lists. */
  const DefaultConfig: AuthConfig :=
    AuthConfig(map["get_profile" := ApiAuthSettings(enabled := true), "logout" := ApiAuthSettings(enabled := true)])

  /** What the admission reads from the request: its route name, headers and cookies. */
  datatype Request = Request(routeName: string, headers: map<string, string>, cookies: map<string, string>)

  function Lookup(m: map<string, string>, k: string): Option<string> {
    if k in m then Some(m[k]) else None
  }

  /**
   * The foreign calls: decoding without any verification, decoding with
   * signature verification against a key set, decoding an ID token against
   * a key set and its access token (the flag says whether `at_hash` is
   * checked), and the key-set HTTP fetch (`None` for a failed request, a
   * non-2xx status or a body that is not JSON).
   */
  datatype Oracles = Oracles(
    decodeUnverified: string -> Option<Payload>,
    verify: (string, Jwks) -> bool,
    decodeIdToken: (string, Jwks, string, bool) -> Option<Payload>,
    fetch: string -> Option<Jwks>)

  datatype UnauthorizedReason =
    | NoToken           // neither header nor cookie gives a non-empty token
    | UndecodableToken  // "Jwt expired": the unverified decode failed
    | UnknownIssuer
    | UnknownAudience
    | InvalidToken      // signature verification failed
    | InvalidIdToken

  datatype ForbiddenReason =
    | ClaimMissing      // "Claim(s) missing"
    | ClaimMismatch     // "Claim doesn't match" (string claim)
    | ClaimsMismatch    // "Claim(s) don't match" (any other claim)

  /** Exceptions the admission does not catch; they reach the framework as server errors. */
  datatype UnhandledReason =
    | MissingIssuer     // KeyError on the "iss" lookup
    | ClaimValuesUnset  // TypeError: the configured claim values are None
    | ClaimNotIterable  // TypeError: membership test on a scalar claim

  datatype AuthError =
    | Unauthorized(unauthorized: UnauthorizedReason)
    | Forbidden(forbidden: ForbiddenReason)
    | InternalServerError(code: string)
    | Unhandled(unhandled: UnhandledReason)

  const JwksFetchErrorCode: string := "G2P-AUT-500"

  /** No check made (the dependency returns nothing), admitted with these credentials, or refused. */
  datatype Admission =
    | Skipped
    | Admitted(credentials: Payload)
    | Refused(error: AuthError)

  /** The admission outcome, the key-set cache afterwards and the URL fetched, if any. */
  datatype Decision = Decision(result: Admission, cache: map<string, Jwks>, fetched: Option<string>)

  // ------------------------------------------------------ settings fallback

  predicate RouteProtected(cfg: AuthConfig, route: string) {
    cfg.authEnabled && route in cfg.apiSettings && cfg.apiSettings[route].enabled
  }

  /** A non-empty per-route list wins; a missing or empty one falls back to the default. */
  function EffectiveList(routeValue: Option<seq<string>>, default: seq<string>): (r: seq<string>)
    ensures routeValue.Some? && |routeValue.value| > 0 ==> r == routeValue.value
    ensures routeValue.None? || |routeValue.value| == 0 ==> r == default
  {
    if routeValue.Some? && |routeValue.value| > 0 then routeValue.value else default
  }

  function Issuers(cfg: AuthConfig, route: string): seq<string>
    requires route in cfg.apiSettings
  {
    EffectiveList(cfg.apiSettings[route].issuers, cfg.defaultIssuers)
  }

  function Audiences(cfg: AuthConfig, route: string): seq<string>
    requires route in cfg.apiSettings
  {
    EffectiveList(cfg.apiSettings[route].audiences, cfg.defaultAudiences)
  }

  function JwksUrls(cfg: AuthConfig, route: string): seq<string>
    requires route in cfg.apiSettings
  {
    EffectiveList(cfg.apiSettings[route].jwksUrls, cfg.defaultJwksUrls)
  }

  /** The `at_hash` flag: the route's own setting when present, else the global default, else true. */
  function VerifyAtHash(cfg: AuthConfig, api: ApiAuthSettings): (b: bool)
    ensures api.idTokenVerifyAtHash.Some? ==> b == api.idTokenVerifyAtHash.value
    ensures api.idTokenVerifyAtHash.None? && cfg.defaultIdTokenVerifyAtHash.Some? ==> b == cfg.defaultIdTokenVerifyAtHash.value
    ensures api.idTokenVerifyAtHash.None? && cfg.defaultIdTokenVerifyAtHash.None? ==> b
  {
    if api.idTokenVerifyAtHash.Some? then api.idTokenVerifyAtHash.value
    else if cfg.defaultIdTokenVerifyAtHash.Some? then cfg.defaultIdTokenVerifyAtHash.value
    else true
  }

  // ------------------------------------------------------ token extraction

  predicate StartsWith(s: string, p: string) {
    |p| <= |s| && s[..|p|] == p
  }

  /** `s` with one leading `p` removed, if it has one. */
  function RemovePrefix(s: string, p: string): (r: string)
    ensures StartsWith(s, p) ==> p + r == s
    ensures !StartsWith(s, p) ==> r == s
  {
    if StartsWith(s, p) then s[|p|..] else s
  }

  /** Removing a prefix leaves nothing from a non-empty string exactly when the string is the prefix. */
  lemma RemovePrefixEmpty(s: string, p: string)
    requires s != ""
    ensures RemovePrefix(s, p) == "" <==> s == p
  {
    if StartsWith(s, p) {
      assert s == p + RemovePrefix(s, p);
    }
  }

  const BearerPrefix: string := "Bearer "

  /**
   * The token: the Authorization header when it is present and non-empty,
   * else the X-Access-Token cookie, with one leading "Bearer " removed
   * (section 2.1 of RFC 6750); `None` when that leaves nothing.
   */
  function ExtractToken(req: Request): (r: Option<string>)
    ensures r.Some? ==> r.value != ""
    ensures Truthy(Lookup(req.headers, "Authorization")) ==>
      && (r.None? <==> req.headers["Authorization"] == BearerPrefix)
      && (r.Some? ==> r.value == RemovePrefix(req.headers["Authorization"], BearerPrefix))
    ensures !Truthy(Lookup(req.headers, "Authorization")) && Truthy(Lookup(req.cookies, "X-Access-Token")) ==>
      && (r.None? <==> req.cookies["X-Access-Token"] == BearerPrefix)
      && (r.Some? ==> r.value == RemovePrefix(req.cookies["X-Access-Token"], BearerPrefix))
    ensures !Truthy(Lookup(req.headers, "Authorization")) && !Truthy(Lookup(req.cookies, "X-Access-Token")) ==> r.None?
  {
    var header := Lookup(req.headers, "Authorization");
    var raw := if Truthy(header) then header else Lookup(req.cookies, "X-Access-Token");
    if !Truthy(raw) then None
    else
      var t := RemovePrefix(raw.value, BearerPrefix);
      RemovePrefixEmpty(raw.value, BearerPrefix);
      if t == "" then None else Some(t)
  }

  /** "Bearer t" in the header yields t, whatever the cookie holds. */
  lemma ExtractFromHeader(req: Request, t: string)
    requires Lookup(req.headers, "Authorization") == Some(BearerPrefix + t) && t != ""
    ensures ExtractToken(req) == Some(t)
  {
    assert (BearerPrefix + t)[..|BearerPrefix|] == BearerPrefix;
    assert (BearerPrefix + t)[|BearerPrefix|..] == t;
  }

  /** A header holding only "Bearer " is chosen over the cookie and leaves no token. */
  lemma BareBearerHidesCookie(req: Request)
    requires Lookup(req.headers, "Authorization") == Some(BearerPrefix)
    ensures ExtractToken(req) == None
  {
    assert BearerPrefix[|BearerPrefix|..] == "";
  }

  /** With no usable header, "Bearer t" in the X-Access-Token cookie yields t. */
  lemma ExtractFromCookie(req: Request, t: string)
    requires !Truthy(Lookup(req.headers, "Authorization"))
    requires Lookup(req.cookies, "X-Access-Token") == Some(BearerPrefix + t) && t != ""
    ensures ExtractToken(req) == Some(t)
  {
    assert (BearerPrefix + t)[..|BearerPrefix|] == BearerPrefix;
    assert (BearerPrefix + t)[|BearerPrefix|..] == t;
  }

  /** With neither a usable header nor a usable cookie there is no token. */
  lemma NoHeaderNoCookie(req: Request)
    requires !Truthy(Lookup(req.headers, "Authorization")) && !Truthy(Lookup(req.cookies, "X-Access-Token"))
    ensures ExtractToken(req) == None
  {
  }

  // ------------------------------------------------- issuer and audience

  predicate IssuerKnown(iss: ClaimValue, issuers: seq<string>) {
    iss.Str? && iss.text in issuers
  }

  /** Every configured value occurs among the items (`all(x in items for x in values)`). */
  predicate AllPresent(values: seq<string>, items: seq<string>) {
    forall i :: 0 <= i < |values| ==> values[i] in items
  }

  /** The element-wise test agrees with the set-inclusion test (`set(values).issubset(set(items))`). */
  lemma AllPresentIsSubset(values: seq<string>, items: seq<string>)
    ensures AllPresent(values, items) <==> (set x | x in values) <= (set x | x in items)
  {
    if AllPresent(values, items) {
      forall x | x in values ensures x in items {
        var i :| 0 <= i < |values| && values[i] == x;
      }
    } else {
      var i :| 0 <= i < |values| && values[i] !in items;
      var vs := set x | x in values;
      var its := set x | x in items;
      assert values[i] in vs && values[i] !in its;
      assert !(vs <= its);
    }
  }

  /**
   * The audience rule, applied only when the effective audience list is
   * non-empty: a missing or falsy `aud` fails, an array must contain every
   * configured audience, a string must be one of them; any other truthy
   * value passes.
   */
  function AudienceAccepted(aud: Option<ClaimValue>, audiences: seq<string>): (ok: bool)
    ensures |audiences| == 0 ==> ok
    ensures |audiences| > 0 ==>
      (ok <==> && aud.Some? && ClaimTruthy(aud.value)
               && (aud.value.StrList? ==> AllPresent(audiences, aud.value.items))
               && (aud.value.Str? ==> aud.value.text in audiences))
  {
    AllPresentIsSubset(audiences, if aud.Some? && aud.value.StrList? then aud.value.items else []);
    |audiences| == 0 ||
    (aud.Some? && ClaimTruthy(aud.value) &&
     match aud.value
     case StrList(items) => (set x | x in audiences) <= (set x | x in items)
     case Str(t) => t in audiences
     case Scalar(_) => true)
  }

  // ---------------------------------------------------------- key sets

  /** Position of the first occurrence of `x` in `s`. */
  function IndexOf(s: seq<string>, x: string): (i: nat)
    requires x in s
    ensures i < |s| && s[i] == x
    ensures forall j :: 0 <= j < i ==> s[j] != x
  {
    if s[0] == x then 0 else 1 + IndexOf(s[1..], x)
  }

  /** `s` with every trailing '/' removed. */
  function RStripSlash(s: string): (r: string)
    ensures |r| <= |s| && r == s[..|r|]
    ensures |r| == 0 || r[|r| - 1] != '/'
    ensures forall i :: |r| <= i < |s| ==> s[i] == '/'
  {
    if |s| > 0 && s[|s| - 1] == '/' then RStripSlash(s[..|s| - 1]) else s
  }

  const WellKnownJwksPath: string := "/.well-known/jwks.json"

  /**
   * The key-set URL of an issuer: the URL at the issuer's (first) position
   * in the effective issuer list when the URL list is that long, else the
   * issuer without trailing '/' followed by the well-known path.
   */
  function JwksUrl(iss: string, issuers: seq<string>, urls: seq<string>): (u: string)
    requires iss in issuers
    ensures IndexOf(issuers, iss) < |urls| ==> u == urls[IndexOf(issuers, iss)]
    ensures IndexOf(issuers, iss) >= |urls| ==> u == RStripSlash(iss) + WellKnownJwksPath
  {
    var i := IndexOf(issuers, iss);
    if i < |urls| then urls[i] else RStripSlash(iss) + WellKnownJwksPath
  }

  // --------------------------------------------------------- claim check

  predicate ClaimPresent(p: Payload, name: string) {
    name in p && ClaimTruthy(p[name])
  }

  /**
   * The claim check as the code writes it: the test on a non-string claim
   * refuses exactly when every configured value is present.
   */
  function ClaimCheckAsWritten(name: Option<string>, values: Option<seq<string>>, p: Payload): (r: Option<AuthError>)
    ensures !Truthy(name) ==> r == None
    ensures Truthy(name) && !ClaimPresent(p, name.value) ==> r == Some(Forbidden(ClaimMissing))
    ensures Truthy(name) && ClaimPresent(p, name.value) && values.Some? && p[name.value].Str? ==>
      (r == None <==> values.value == [p[name.value].text])
    ensures Truthy(name) && ClaimPresent(p, name.value) && values.Some? && p[name.value].StrList? ==>
      (r == None <==> !AllPresent(values.value, p[name.value].items))
  {
    if !Truthy(name) then None
    else if !ClaimPresent(p, name.value) then Some(Forbidden(ClaimMissing))
    else if values.None? then Some(Unhandled(ClaimValuesUnset))
    else
      var cv := values.value;
      match p[name.value]
      case Str(c) => if |cv| != 1 || cv[0] != c then Some(Forbidden(ClaimMismatch)) else None
      case StrList(items) => if AllPresent(cv, items) then Some(Forbidden(ClaimsMismatch)) else None
      case Scalar(_) => if |cv| == 0 then Some(Forbidden(ClaimsMismatch)) else Some(Unhandled(ClaimNotIterable))
  }

  /** A holder of the one configured role is refused as written, and admitted by the corrected check. */
  lemma ClaimCheckAsWrittenRefusesHolder()
    ensures ClaimCheckAsWritten(Some("roles"), Some(["admin"]), map["roles" := StrList(["admin"])]) == Some(Forbidden(ClaimsMismatch))
    ensures ClaimCheck(Some("roles"), Some(["admin"]), map["roles" := StrList(["admin"])]) == None
    ensures ClaimCheckAsWritten(Some("roles"), Some(["admin"]), map["roles" := StrList(["guest"])]) == None
  {
    assert AllPresent(["admin"], ["admin"]);
    assert !AllPresent(["admin"], ["guest"]) by { assert ["admin"][0] !in ["guest"]; }
  }

  /**
   * The corrected claim check: a non-string claim must contain every
   * configured value, as the audience rule demands of an audience array.
   */
  function ClaimCheck(name: Option<string>, values: Option<seq<string>>, p: Payload): (r: Option<AuthError>)
    ensures !Truthy(name) ==> r == None
    ensures Truthy(name) && !ClaimPresent(p, name.value) ==> r == Some(Forbidden(ClaimMissing))
    ensures Truthy(name) && ClaimPresent(p, name.value) && values.None? ==> r == Some(Unhandled(ClaimValuesUnset))
    ensures Truthy(name) && ClaimPresent(p, name.value) && values.Some? && p[name.value].Str? ==>
      (r == None <==> values.value == [p[name.value].text])
    ensures Truthy(name) && ClaimPresent(p, name.value) && values.Some? && p[name.value].StrList? ==>
      (r == None <==> AllPresent(values.value, p[name.value].items))
    ensures r.Some? ==> r.value.Forbidden? || r.value.Unhandled?
  {
    if !Truthy(name) then None
    else if !ClaimPresent(p, name.value) then Some(Forbidden(ClaimMissing))
    else if values.None? then Some(Unhandled(ClaimValuesUnset))
    else
      var cv := values.value;
      match p[name.value]
      case Str(c) => if |cv| != 1 || cv[0] != c then Some(Forbidden(ClaimMismatch)) else None
      case StrList(items) => if !AllPresent(cv, items) then Some(Forbidden(ClaimsMismatch)) else None
      case Scalar(_) => if |cv| == 0 then None else Some(Unhandled(ClaimNotIterable))
  }

  /** The two checks agree except on a claim that is neither missing nor a string. */
  lemma ClaimChecksAgreeOffLists(name: Option<string>, values: Option<seq<string>>, p: Payload)
    requires !Truthy(name) || !ClaimPresent(p, name.value) || values.None? || p[name.value].Str?
    ensures ClaimCheckAsWritten(name, values, p) == ClaimCheck(name, values, p)
  {
  }

  /** Which claim check an admission applies: the code's, or the corrected one. */
  datatype ClaimRule = AsWritten | Corrected

  function ClaimCheckBy(rule: ClaimRule, name: Option<string>, values: Option<seq<string>>, p: Payload): Option<AuthError> {
    match rule
    case AsWritten => ClaimCheckAsWritten(name, values, p)
    case Corrected => ClaimCheck(name, values, p)
  }

  // ---------------------------------------------------------- admission

  /** ID-token claims override the payload's; an empty result changes nothing. */
  function MergeClaims(p: Payload, res: Payload): (r: Payload)
    ensures r.Keys == p.Keys + res.Keys
    ensures forall k :: k in res ==> r[k] == res[k]
    ensures forall k :: k in p && k !in res ==> r[k] == p[k]
  {
    if |res| == 0 then p else p + res
  }

  /** The steps after a key set is at hand: verification, the ID token, the claim check, the credentials. */
  function AfterJwks(rule: ClaimRule, cfg: AuthConfig, api: ApiAuthSettings, req: Request, token: string, p: Payload, jwks: Jwks, o: Oracles): (r: Admission)
    ensures !r.Skipped?
    ensures r.Refused? ==> !r.error.InternalServerError?
    ensures !o.verify(token, jwks) ==> r == Refused(Unauthorized(InvalidToken))
    ensures r.Admitted? ==> o.verify(token, jwks) && "credentials" in r.credentials && r.credentials["credentials"] == Str(token)
    ensures r == Refused(Unauthorized(InvalidIdToken)) ==>
      Truthy(Lookup(req.cookies, "X-ID-Token")) && o.decodeIdToken(req.cookies["X-ID-Token"], jwks, token, VerifyAtHash(cfg, api)).None?
  {
    if !o.verify(token, jwks) then Refused(Unauthorized(InvalidToken))
    else
      var idToken := Lookup(req.cookies, "X-ID-Token");
      var res := if Truthy(idToken) then o.decodeIdToken(idToken.value, jwks, token, VerifyAtHash(cfg, api)) else Some(map[]);
      if res.None? then Refused(Unauthorized(InvalidIdToken))
      else
        var merged := MergeClaims(p, res.value);
        var claimError := ClaimCheckBy(rule, cfg.claimName, cfg.claimValues, merged);
        if claimError.Some? then Refused(claimError.value)
        else Admitted(merged["credentials" := Str(token)])
  }

  /**
   * The whole admission of one request against the cache it finds, under a
   * claim rule (`AsWritten` is the code's). The cache is written on a fetch
   * that succeeds, before the token is verified.
   */
  function Admit(rule: ClaimRule, cfg: AuthConfig, req: Request, cache: map<string, Jwks>, o: Oracles): (d: Decision)
    ensures d.result.Skipped? <==> !RouteProtected(cfg, req.routeName)
    ensures d.fetched.None? ==> d.cache == cache
    ensures d.result.Refused? && d.result.error.InternalServerError? ==> d.result.error.code == JwksFetchErrorCode && d.cache == cache
  {
    if !RouteProtected(cfg, req.routeName) then Decision(Skipped, cache, None)
    else
      var api := cfg.apiSettings[req.routeName];
      var issuers := Issuers(cfg, req.routeName);
      var token := ExtractToken(req);
      if token.None? then Decision(Refused(Unauthorized(NoToken)), cache, None)
      else
        var decoded := o.decodeUnverified(token.value);
        if decoded.None? then Decision(Refused(Unauthorized(UndecodableToken)), cache, None)
        else
          var p := decoded.value;
          if "iss" !in p then Decision(Refused(Unhandled(MissingIssuer)), cache, None)
          else if !IssuerKnown(p["iss"], issuers) then Decision(Refused(Unauthorized(UnknownIssuer)), cache, None)
          else if !AudienceAccepted(Get(p, "aud"), Audiences(cfg, req.routeName)) then
            Decision(Refused(Unauthorized(UnknownAudience)), cache, None)
          else
            var iss := p["iss"].text;
            WithKeySet(rule, cfg, api, req, token.value, p, iss, JwksUrl(iss, issuers, JwksUrls(cfg, req.routeName)), cache, o)
  }

  /**
   * Past the issuer and audience checks: the issuer's key set from the
   * cache when truthy there, else fetched from `url` and stored under the
   * issuer; a failed fetch is G2P-AUT-500.
   */
  function WithKeySet(rule: ClaimRule, cfg: AuthConfig, api: ApiAuthSettings, req: Request, token: string, p: Payload,
                      iss: string, url: string, cache: map<string, Jwks>, o: Oracles): (d: Decision)
    ensures !d.result.Skipped?
    ensures d.fetched.None? <==> iss in cache && JwksTruthy(cache[iss])
    ensures d.fetched.None? ==> d.cache == cache
    ensures d.fetched.Some? ==> d.fetched == Some(url) && (o.fetch(url).None? ==> d.cache == cache)
    ensures d.result.Refused? && d.result.error.InternalServerError? ==> d.result.error.code == JwksFetchErrorCode && d.cache == cache
  {
    if iss in cache && JwksTruthy(cache[iss]) then
      Decision(AfterJwks(rule, cfg, api, req, token, p, cache[iss], o), cache, None)
    else
      var doc := o.fetch(url);
      if doc.None? then Decision(Refused(InternalServerError(JwksFetchErrorCode)), cache, Some(url))
      else Decision(AfterJwks(rule, cfg, api, req, token, p, doc.value, o), cache[iss := doc.value], Some(url))
  }

  /** A protected route without a usable token is refused, with no decode, lookup or fetch. */
  lemma AdmitNeedsToken(rule: ClaimRule, cfg: AuthConfig, req: Request, cache: map<string, Jwks>, o: Oracles)
    requires RouteProtected(cfg, req.routeName) && ExtractToken(req).None?
    ensures Admit(rule, cfg, req, cache, o) == Decision(Refused(Unauthorized(NoToken)), cache, None)
  {
  }

  /** An issuer outside the effective issuer list is refused before any key-set lookup or fetch. */
  lemma AdmitUnknownIssuer(rule: ClaimRule, cfg: AuthConfig, req: Request, cache: map<string, Jwks>, o: Oracles, p: Payload)
    requires RouteProtected(cfg, req.routeName)
    requires ExtractToken(req).Some? && o.decodeUnverified(ExtractToken(req).value) == Some(p)
    requires "iss" in p && !IssuerKnown(p["iss"], Issuers(cfg, req.routeName))
    ensures Admit(rule, cfg, req, cache, o) == Decision(Refused(Unauthorized(UnknownIssuer)), cache, None)
  {
  }

  /**
   * A known issuer with a non-empty audience list is refused without any
   * fetch when `aud` is missing or falsy, is an array lacking a configured
   * audience, or is a string outside the list.
   */
  lemma AdmitUnknownAudience(rule: ClaimRule, cfg: AuthConfig, req: Request, cache: map<string, Jwks>, o: Oracles, p: Payload)
    requires RouteProtected(cfg, req.routeName)
    requires ExtractToken(req).Some? && o.decodeUnverified(ExtractToken(req).value) == Some(p)
    requires "iss" in p && IssuerKnown(p["iss"], Issuers(cfg, req.routeName))
    requires var auds := Audiences(cfg, req.routeName);
      |auds| > 0 &&
      ( "aud" !in p || !ClaimTruthy(p["aud"])
      || (p["aud"].StrList? && !AllPresent(auds, p["aud"].items))
      || (p["aud"].Str? && p["aud"].text !in auds))
    ensures Admit(rule, cfg, req, cache, o) == Decision(Refused(Unauthorized(UnknownAudience)), cache, None)
  {
  }

  /**
   * Past the issuer and audience checks, a key set found truthy in the cache
   * is used with no fetch and no cache change; otherwise the issuer's
   * key-set URL is fetched: a failure is G2P-AUT-500 and leaves the cache
   * alone, a success is stored under the issuer whatever verification then
   * decides.
   */
  lemma AdmitJwksLookup(rule: ClaimRule, cfg: AuthConfig, req: Request, cache: map<string, Jwks>, o: Oracles, p: Payload)
    requires RouteProtected(cfg, req.routeName)
    requires ExtractToken(req).Some? && o.decodeUnverified(ExtractToken(req).value) == Some(p)
    requires "iss" in p && IssuerKnown(p["iss"], Issuers(cfg, req.routeName))
    requires AudienceAccepted(Get(p, "aud"), Audiences(cfg, req.routeName))
    ensures var d := Admit(rule, cfg, req, cache, o);
      var iss := p["iss"].text;
      var url := JwksUrl(iss, Issuers(cfg, req.routeName), JwksUrls(cfg, req.routeName));
      && (iss in cache && JwksTruthy(cache[iss]) ==> d.fetched == None && d.cache == cache)
      && (!(iss in cache && JwksTruthy(cache[iss])) ==>
            && d.fetched == Some(url)
            && (o.fetch(url).None? ==> d.result == Refused(InternalServerError(JwksFetchErrorCode)) && d.cache == cache)
            && (o.fetch(url).Some? ==> d.cache == cache[iss := o.fetch(url).value]))
  {
  }

  /** The credentials built from a payload, the ID-token claims and the raw token. */
  lemma CredentialsOf(p: Payload, idClaims: Payload, token: string)
    ensures var c := MergeClaims(p, idClaims)["credentials" := Str(token)];
      && c.Keys == p.Keys + idClaims.Keys + {"credentials"}
      && c["credentials"] == Str(token)
      && (forall k :: k in idClaims && k != "credentials" ==> c[k] == idClaims[k])
      && (forall k :: k in p && k !in idClaims && k != "credentials" ==> c[k] == p[k])
  {
  }

  /**
   * Once a key set is at hand, an admission means the token verified under
   * it, the ID-token claims are those the ID-token decode returned (none
   * without an ID-token cookie), the rule's claim check passed on the merged
   * claims, and the credentials are those claims plus "credentials" holding
   * the raw token.
   */
  lemma AfterJwksAccepts(rule: ClaimRule, cfg: AuthConfig, api: ApiAuthSettings, req: Request, token: string, p: Payload, jwks: Jwks, o: Oracles)
    returns (idClaims: Payload)
    requires AfterJwks(rule, cfg, api, req, token, p, jwks, o).Admitted?
    ensures o.verify(token, jwks)
    ensures Truthy(Lookup(req.cookies, "X-ID-Token")) ==>
      o.decodeIdToken(req.cookies["X-ID-Token"], jwks, token, VerifyAtHash(cfg, api)) == Some(idClaims)
    ensures !Truthy(Lookup(req.cookies, "X-ID-Token")) ==> idClaims == map[]
    ensures rule == AsWritten ==> ClaimCheckAsWritten(cfg.claimName, cfg.claimValues, MergeClaims(p, idClaims)) == None
    ensures rule == Corrected ==> ClaimCheck(cfg.claimName, cfg.claimValues, MergeClaims(p, idClaims)) == None
    ensures var c := AfterJwks(rule, cfg, api, req, token, p, jwks, o).credentials;
      && c.Keys == p.Keys + idClaims.Keys + {"credentials"}
      && c["credentials"] == Str(token)
      && (forall k :: k in idClaims && k != "credentials" ==> c[k] == idClaims[k])
      && (forall k :: k in p && k !in idClaims && k != "credentials" ==> c[k] == p[k])
  {
    var idToken := Lookup(req.cookies, "X-ID-Token");
    if Truthy(idToken) {
      idClaims := o.decodeIdToken(idToken.value, jwks, token, VerifyAtHash(cfg, api)).value;
    } else {
      idClaims := map[];
    }
    assert AfterJwks(rule, cfg, api, req, token, p, jwks, o) == Admitted(MergeClaims(p, idClaims)["credentials" := Str(token)]);
    CredentialsOf(p, idClaims, token);
  }

  /**
   * An admitted request had a token that decoded, a known issuer, an
   * accepted audience, a key set (the cached one when truthy, else the one
   * fetched from the issuer's key-set URL) under which it verified, and
   * passed the rule's claim check; its credentials are the unverified
   * payload overridden by the ID-token claims, plus "credentials" holding
   * the raw token.
   */
  lemma AdmitAccepts(rule: ClaimRule, cfg: AuthConfig, req: Request, cache: map<string, Jwks>, o: Oracles)
    returns (token: string, p: Payload, idClaims: Payload, jwks: Jwks)
    requires Admit(rule, cfg, req, cache, o).result.Admitted?
    ensures RouteProtected(cfg, req.routeName)
    ensures ExtractToken(req) == Some(token) && o.decodeUnverified(token) == Some(p)
    ensures "iss" in p && IssuerKnown(p["iss"], Issuers(cfg, req.routeName))
    ensures AudienceAccepted(Get(p, "aud"), Audiences(cfg, req.routeName))
    ensures var iss := p["iss"].text;
      iss in cache && JwksTruthy(cache[iss]) ==> jwks == cache[iss]
    ensures var iss := p["iss"].text;
      !(iss in cache && JwksTruthy(cache[iss])) ==>
        o.fetch(JwksUrl(iss, Issuers(cfg, req.routeName), JwksUrls(cfg, req.routeName))) == Some(jwks)
    ensures o.verify(token, jwks)
    ensures Truthy(Lookup(req.cookies, "X-ID-Token")) ==>
      o.decodeIdToken(req.cookies["X-ID-Token"], jwks, token, VerifyAtHash(cfg, cfg.apiSettings[req.routeName])) == Some(idClaims)
    ensures !Truthy(Lookup(req.cookies, "X-ID-Token")) ==> idClaims == map[]
    ensures rule == AsWritten ==> ClaimCheckAsWritten(cfg.claimName, cfg.claimValues, MergeClaims(p, idClaims)) == None
    ensures rule == Corrected ==> ClaimCheck(cfg.claimName, cfg.claimValues, MergeClaims(p, idClaims)) == None
    ensures var c := Admit(rule, cfg, req, cache, o).result.credentials;
      && c.Keys == p.Keys + idClaims.Keys + {"credentials"}
      && c["credentials"] == Str(token)
      && (forall k :: k in idClaims && k != "credentials" ==> c[k] == idClaims[k])
      && (forall k :: k in p && k !in idClaims && k != "credentials" ==> c[k] == p[k])
  {
    token := ExtractToken(req).value;
    p := o.decodeUnverified(token).value;
    var api := cfg.apiSettings[req.routeName];
    var iss := p["iss"].text;
    if iss in cache && JwksTruthy(cache[iss]) {
      jwks := cache[iss];
    } else {
      jwks := o.fetch(JwksUrl(iss, Issuers(cfg, req.routeName), JwksUrls(cfg, req.routeName))).value;
    }
    assert Admit(rule, cfg, req, cache, o).result == AfterJwks(rule, cfg, api, req, token, p, jwks, o);
    idClaims := AfterJwksAccepts(rule, cfg, api, req, token, p, jwks, o);
  }

  /**
   * How two admissions of the same request can differ: the only difference
   * is that one admits and the other refuses with "Claim(s) don't match",
   * with both a claim name and claim values configured.
   */
  predicate DifferOnClaims(cfg: AuthConfig, a: Admission, c: Admission) {
    && Truthy(cfg.claimName) && cfg.claimValues.Some?
    && ((a.Admitted? && c == Refused(Forbidden(ClaimsMismatch)))
        || (c.Admitted? && a == Refused(Forbidden(ClaimsMismatch))))
  }

  /** The two claim checks differ only by one passing where the other says "Claim(s) don't match". */
  lemma ClaimChecksDiffer(name: Option<string>, values: Option<seq<string>>, p: Payload)
    ensures var a := ClaimCheckAsWritten(name, values, p);
      var c := ClaimCheck(name, values, p);
      a != c ==>
        && Truthy(name) && values.Some?
        && ((a == None && c == Some(Forbidden(ClaimsMismatch))) || (c == None && a == Some(Forbidden(ClaimsMismatch))))
  {
  }

  /** Past the key set, the code's admission and the corrected one differ only as `DifferOnClaims` says. */
  lemma AfterJwksRulesDiffer(cfg: AuthConfig, api: ApiAuthSettings, req: Request, token: string, p: Payload, jwks: Jwks, o: Oracles)
    ensures var a := AfterJwks(AsWritten, cfg, api, req, token, p, jwks, o);
      var c := AfterJwks(Corrected, cfg, api, req, token, p, jwks, o);
      a != c ==> DifferOnClaims(cfg, a, c)
  {
    var idToken := Lookup(req.cookies, "X-ID-Token");
    var res := if Truthy(idToken) then o.decodeIdToken(idToken.value, jwks, token, VerifyAtHash(cfg, api)) else Some(map[]);
    if o.verify(token, jwks) && res.Some? {
      var merged := MergeClaims(p, res.value);
      ClaimChecksDiffer(cfg.claimName, cfg.claimValues, merged);
    }
  }

  /**
   * The code's admission and the corrected one fetch the same URL and leave
   * the same cache; their outcomes are equal or differ as `DifferOnClaims`
   * says.
   */
  lemma AdmitRulesDiffer(cfg: AuthConfig, req: Request, cache: map<string, Jwks>, o: Oracles)
    ensures var a := Admit(AsWritten, cfg, req, cache, o);
      var c := Admit(Corrected, cfg, req, cache, o);
      && a.cache == c.cache && a.fetched == c.fetched
      && (a.result != c.result ==> DifferOnClaims(cfg, a.result, c.result))
  {
    if RouteProtected(cfg, req.routeName) && ExtractToken(req).Some? && o.decodeUnverified(ExtractToken(req).value).Some? {
      var token := ExtractToken(req).value;
      var p := o.decodeUnverified(token).value;
      var api := cfg.apiSettings[req.routeName];
      var issuers := Issuers(cfg, req.routeName);
      if "iss" in p && IssuerKnown(p["iss"], issuers) && AudienceAccepted(Get(p, "aud"), Audiences(cfg, req.routeName)) {
        var iss := p["iss"].text;
        if iss in cache && JwksTruthy(cache[iss]) {
          AfterJwksRulesDiffer(cfg, api, req, token, p, cache[iss], o);
        } else {
          var doc := o.fetch(JwksUrl(iss, issuers, JwksUrls(cfg, req.routeName)));
          if doc.Some? {
            AfterJwksRulesDiffer(cfg, api, req, token, p, doc.value, o);
          }
        }
      }
    }
  }

  /**
   * A role holder refused as written: with "roles" required to be "admin", a
   * verified token whose "roles" claim is ["admin"] is refused with
   * "Claim(s) don't match" by the code and admitted by the corrected check.
   */
  lemma AdmissionRefusesRoleHolder()
    ensures var cfg := AuthConfig(map["get_profile" := ApiAuthSettings(enabled := true, issuers := Some(["idp"]))],
                                  claimName := Some("roles"), claimValues := Some(["admin"]));
      var req := Request("get_profile", map["Authorization" := "Bearer tok"], map[]);
      var o := Oracles(t => Some(map["iss" := Str("idp"), "roles" := StrList(["admin"])]),
                       (t, j) => true, (t, j, a, v) => None, u => Some(Jwks(["key"])));
      && Admit(AsWritten, cfg, req, map[], o).result == Refused(Forbidden(ClaimsMismatch))
      && Admit(Corrected, cfg, req, map[], o).result.Admitted?
  {
    var req := Request("get_profile", map["Authorization" := "Bearer tok"], map[]);
    assert "Bearer tok" == BearerPrefix + "tok";
    ExtractFromHeader(req, "tok");
    assert AllPresent(["admin"], ["admin"]);
  }

  /** As shipped, only "get_profile" and "logout" are checked, and with no issuer configured nothing is admitted. */
  lemma DefaultConfigAdmitsNone(rule: ClaimRule, req: Request, cache: map<string, Jwks>, o: Oracles)
    ensures RouteProtected(DefaultConfig, req.routeName) <==> req.routeName == "get_profile" || req.routeName == "logout"
    ensures !Admit(rule, DefaultConfig, req, cache, o).result.Admitted?
  {
  }

  // --------------------------------------------------- imperative form

  /** The process-wide key-set cache, keyed by issuer. */
  class JwksCache {
    var entries: map<string, Jwks>

    constructor ()
      ensures entries == map[]
    {
      entries := map[];
    }
  }

  /**
   * The dependency's call, with the claim check as the code writes it: the
   * admission carried out step by step, writing
   * a freshly fetched key set into `cache` and building the credentials by
   * updating the payload in place.
   */
  method Authenticate(cache: JwksCache, cfg: AuthConfig, req: Request, o: Oracles) returns (result: Admission, fetched: Option<string>)
    modifies cache
    ensures var d := Admit(AsWritten, cfg, req, old(cache.entries), o);
      result == d.result && fetched == d.fetched && cache.entries == d.cache
  {
    fetched := None;
    if !cfg.authEnabled || req.routeName !in cfg.apiSettings || !cfg.apiSettings[req.routeName].enabled {
      return Skipped, None;
    }
    var api := cfg.apiSettings[req.routeName];
    var issuers := EffectiveList(api.issuers, cfg.defaultIssuers);
    var audiences := EffectiveList(api.audiences, cfg.defaultAudiences);
    var jwksUrls := EffectiveList(api.jwksUrls, cfg.defaultJwksUrls);
    var token := ExtractToken(req);
    if token.None? {
      return Refused(Unauthorized(NoToken)), None;
    }
    var decoded := o.decodeUnverified(token.value);
    if decoded.None? {
      return Refused(Unauthorized(UndecodableToken)), None;
    }
    var payload := decoded.value;
    if "iss" !in payload {
      return Refused(Unhandled(MissingIssuer)), None;
    }
    if !IssuerKnown(payload["iss"], issuers) {
      return Refused(Unauthorized(UnknownIssuer)), None;
    }
    if !AudienceAccepted(Get(payload, "aud"), audiences) {
      return Refused(Unauthorized(UnknownAudience)), None;
    }
    var iss := payload["iss"].text;
    var jwks: Jwks;
    if iss in cache.entries && JwksTruthy(cache.entries[iss]) {
      jwks := cache.entries[iss];
    } else {
      var url := JwksUrl(iss, issuers, jwksUrls);
      fetched := Some(url);
      var doc := o.fetch(url);
      if doc.None? {
        return Refused(InternalServerError(JwksFetchErrorCode)), fetched;
      }
      jwks := doc.value;
      cache.entries := cache.entries[iss := jwks];
    }
    if !o.verify(token.value, jwks) {
      return Refused(Unauthorized(InvalidToken)), fetched;
    }
    var idToken := Lookup(req.cookies, "X-ID-Token");
    if Truthy(idToken) {
      var res := o.decodeIdToken(idToken.value, jwks, token.value, VerifyAtHash(cfg, api));
      if res.None? {
        return Refused(Unauthorized(InvalidIdToken)), fetched;
      }
      if |res.value| > 0 {
        payload := payload + res.value;
      }
    }
    var claimError := ClaimCheckAsWritten(cfg.claimName, cfg.claimValues, payload);
    if claimError.Some? {
      return Refused(claimError.value), fetched;
    }
    payload := payload["credentials" := Str(token.value)];
    result := Admitted(payload);
  }
}
