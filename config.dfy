/**
 * The security configuration: the Content-Security-Policy table and its
 * header serialisation, the response headers, the CORS origins, the JWT
 * settings, the two-rule validation and the shallow update.
 */
module Config {
  import opened Common

  /** One CSP directive with its source list, as an entry of the policy object. */
  datatype Directive = Directive(name: string, sources: seq<string>)

  datatype Cors = Cors(origin: seq<string>, methods: seq<string>, allowedHeaders: seq<string>,
                       credentials: bool, maxAge: nat)

  datatype JwtSettings = JwtSettings(secret: string, expiresIn: string, refreshExpiresIn: string,
                                     issuer: string, audience: string)

  /** The sections of the configuration the modelled operations read. */
  datatype Settings = Settings(csp: seq<Directive>, cors: Cors, securityHeaders: map<string, string>,
                               jwt: JwtSettings)

  const DefaultJwtSecret: string := "your-super-secret-jwt-key-change-this-in-production"
  const CspHeaderName: string := "Content-Security-Policy"
  const WeakSecretError: string := "⚠️  请更改默认的JWT密钥"
  const OpenCorsError: string := "⚠️  CORS配置过于宽松，请指定具体的域名"

  /** The policy table in declaration order, the order its entries are walked. */
  const DefaultCsp: seq<Directive> := [
    Directive("default-src", ["'self'"]),
    Directive("script-src", ["'self'", "'unsafe-inline'", "'unsafe-eval'", "https://cdnjs.cloudflare.com"]),
    Directive("style-src", ["'self'", "'unsafe-inline'", "https://fonts.googleapis.com"]),
    Directive("img-src", ["'self'", "data:", "https:", "blob:"]),
    Directive("font-src", ["'self'", "https://fonts.gstatic.com"]),
    Directive("connect-src", ["'self'", "https://api.github.com"]),
    Directive("frame-src", ["'none'"]),
    Directive("object-src", ["'none'"]),
    Directive("base-uri", ["'self'"]),
    Directive("form-action", ["'self'"]),
    Directive("frame-ancestors", ["'none'"]),
    Directive("upgrade-insecure-requests", [])
  ]

  const DefaultCors: Cors := Cors(
    ["http://localhost:3000", "http://127.0.0.1:3000"],
    ["GET", "POST", "PUT", "DELETE", "OPTIONS"],
    ["Content-Type", "Authorization", "X-CSRF-Token"],
    true, 86400)

  const DefaultHeaders: map<string, string> := map[
    "X-Content-Type-Options" := "nosniff",
    "X-Frame-Options" := "DENY",
    "X-XSS-Protection" := "1; mode=block",
    "Strict-Transport-Security" := "max-age=31536000; includeSubDomains; preload",
    "Referrer-Policy" := "strict-origin-when-cross-origin",
    "Permissions-Policy" := "camera=(), microphone=(), geolocation=()",
    "Cache-Control" := "no-cache, no-store, must-revalidate",
    "Pragma" := "no-cache",
    "Expires" := "0"
  ]

  /** The configuration built at start-up, with the JWT_SECRET environment variable ("" when unset). */
  function DefaultSettings(envSecret: string): (r: Settings)
    ensures r.jwt.secret == if envSecret != "" then envSecret else DefaultJwtSecret
  {
    Settings(DefaultCsp, DefaultCors, DefaultHeaders,
      JwtSettings(if envSecret != "" then envSecret else DefaultJwtSecret, "1h", "7d",
                  "naegleria-fowleri-app", "naegleria-fowleri-users"))
  }

  // ------------------------------------------------------------ CSP header

  /** One directive as it appears in the header: its name alone, or its name and its sources. */
  function RenderDirective(d: Directive): (r: string)
    ensures StartsWith(r, d.name)
    ensures d.sources == [] ==> r == d.name
    ensures d.sources != [] ==> |r| > |d.name| && r[|d.name|] == ' '
  {
    if |d.sources| == 0 then d.name else d.name + " " + Join(d.sources, " ")
  }

  function RenderAll(csp: seq<Directive>): (r: seq<string>)
    ensures |r| == |csp|
    ensures forall i :: 0 <= i < |csp| ==> r[i] == RenderDirective(csp[i])
  {
    if csp == [] then [] else RenderAll(csp[..|csp| - 1]) + [RenderDirective(csp[|csp| - 1])]
  }

  /** getCSPHeader: the rendered directives in table order, separated by "; ". */
  function CspHeader(csp: seq<Directive>): string {
    Join(RenderAll(csp), "; ")
  }

  /** Adding a directive at the end of the table adds "; " and that directive at the end of the header. */
  lemma CspHeaderSnoc(csp: seq<Directive>, d: Directive)
    requires csp != []
    ensures CspHeader(csp + [d]) == CspHeader(csp) + "; " + RenderDirective(d)
  {
    assert (csp + [d])[..|csp|] == csp;
    assert RenderAll(csp + [d]) == RenderAll(csp) + [RenderDirective(d)];
    JoinSnoc(RenderAll(csp), "; ", RenderDirective(d));
  }

  /** A one-directive policy is that directive alone. */
  lemma CspHeaderSingle(d: Directive)
    ensures CspHeader([d]) == RenderDirective(d)
  {
    assert RenderAll([d]) == [RenderDirective(d)];
  }

  /** The header ends with "; " and the last directive of the table. */
  lemma HeaderEndsWithLast(csp: seq<Directive>)
    requires |csp| >= 2
    ensures EndsWith(CspHeader(csp), "; " + RenderDirective(csp[|csp| - 1]))
  {
    var init := csp[..|csp| - 1];
    var tail := "; " + RenderDirective(csp[|csp| - 1]);
    assert csp == init + [csp[|csp| - 1]];
    CspHeaderSnoc(init, csp[|csp| - 1]);
    assert CspHeader(csp) == CspHeader(init) + tail;
  }

  /**
   * Under the default table the last directive is the source-less upgrade
   * directive, so the header ends with it bare (by HeaderEndsWithLast).
   */
  lemma DefaultUpgradeIsBare()
    ensures |DefaultCsp| >= 2
    ensures RenderDirective(DefaultCsp[|DefaultCsp| - 1]) == "upgrade-insecure-requests"
  {
    assert DefaultCsp[|DefaultCsp| - 1] == Directive("upgrade-insecure-requests", []);
  }

  /** The header starts with the first directive of the table. */
  lemma {:induction false} HeaderStartsWithFirst(csp: seq<Directive>)
    requires csp != []
    ensures StartsWith(CspHeader(csp), RenderDirective(csp[0]))
    decreases |csp|
  {
    if |csp| == 1 {
      CspHeaderSingle(csp[0]);
    } else {
      var init := csp[..|csp| - 1];
      assert csp == init + [csp[|csp| - 1]];
      CspHeaderSnoc(init, csp[|csp| - 1]);
      HeaderStartsWithFirst(init);
      assert init[0] == csp[0];
      var p := RenderDirective(csp[0]);
      assert (CspHeader(init) + "; " + RenderDirective(csp[|csp| - 1]))[..|p|] == CspHeader(init)[..|p|];
    }
  }

  // ---------------------------------------------------- headers and checks

  /** getSecurityHeaders: the configured headers with the policy header set from the table. */
  function SecurityHeaders(s: Settings): (r: map<string, string>)
    ensures CspHeaderName in r && r[CspHeaderName] == CspHeader(s.csp)
    ensures forall h :: h != CspHeaderName ==> (h in r <==> h in s.securityHeaders)
    ensures forall h :: h in r && h != CspHeaderName ==> r[h] == s.securityHeaders[h]
  {
    s.securityHeaders[CspHeaderName := CspHeader(s.csp)]
  }

  datatype Validation = Validation(isValid: bool, errors: seq<string>)

  /** validate: one error for the shipped JWT secret, one for a wildcard CORS origin. */
  function Validate(s: Settings): (r: Validation)
    ensures r.isValid <==> r.errors == []
    ensures WeakSecretError in r.errors <==> s.jwt.secret == DefaultJwtSecret
    ensures OpenCorsError in r.errors <==> "*" in s.cors.origin
    ensures |r.errors| <= 2
  {
    var errors := (if s.jwt.secret == DefaultJwtSecret then [WeakSecretError] else []) +
                  (if "*" in s.cors.origin then [OpenCorsError] else []);
    Validation(errors == [], errors)
  }

  /** The start-up configuration is valid exactly when JWT_SECRET is set to something other than the shipped secret. */
  lemma DefaultSettingsValidIffSecretSet(envSecret: string)
    ensures Validate(DefaultSettings(envSecret)).isValid <==> envSecret != "" && envSecret != DefaultJwtSecret
  {
    assert "*" !in DefaultCors.origin;
  }

  /** The top-level sections a call to updateConfig supplies; an absent one keeps its value. */
  datatype Patch = Patch(csp: Option<seq<Directive>>, cors: Option<Cors>,
                         securityHeaders: Option<map<string, string>>, jwt: Option<JwtSettings>)

  /** `{ ...config, ...newConfig }`: each supplied section replaces the whole section. */
  function Merge(s: Settings, p: Patch): (r: Settings)
    ensures r.csp == (if p.csp.Some? then p.csp.value else s.csp)
    ensures r.cors == (if p.cors.Some? then p.cors.value else s.cors)
    ensures r.securityHeaders == (if p.securityHeaders.Some? then p.securityHeaders.value else s.securityHeaders)
    ensures r.jwt == (if p.jwt.Some? then p.jwt.value else s.jwt)
  {
    Settings(
      if p.csp.Some? then p.csp.value else s.csp,
      if p.cors.Some? then p.cors.value else s.cors,
      if p.securityHeaders.Some? then p.securityHeaders.value else s.securityHeaders,
      if p.jwt.Some? then p.jwt.value else s.jwt)
  }

  /** Merging is idempotent, and the empty patch changes nothing. */
  lemma MergeIdempotent(s: Settings, p: Patch)
    ensures Merge(Merge(s, p), p) == Merge(s, p)
    ensures Merge(s, Patch(None, None, None, None)) == s
  {
  }

  /** A later patch wins over an earlier one for every section it supplies. */
  lemma LaterPatchWins(s: Settings, p: Patch, q: Patch)
    ensures Merge(Merge(s, p), q) == Merge(s, Patch(
      if q.csp.Some? then q.csp else p.csp,
      if q.cors.Some? then q.cors else p.cors,
      if q.securityHeaders.Some? then q.securityHeaders else p.securityHeaders,
      if q.jwt.Some? then q.jwt else p.jwt))
  {
  }

  /** The configuration singleton. */
  class SecurityConfig {
    var settings: Settings

    constructor (envSecret: string)
      ensures settings == DefaultSettings(envSecret)
    {
      settings := DefaultSettings(envSecret);
    }

    /** getCSPHeader on the current table. */
    function GetCspHeader(): string
      reads this
    {
      CspHeader(settings.csp)
    }

    /** updateConfig: merge the patch into the configuration, then validate the result. */
    method UpdateConfig(p: Patch) returns (r: Validation)
      modifies this
      ensures settings == Merge(old(settings), p)
      ensures r == Validate(settings)
    {
      settings := Merge(settings, p);
      r := Validate(settings);
    }
  }
}
