/**
 * The CORS decision of internal/auth/middleware/cors_middleware.go: from
 * the configured origins, methods and headers and the request's Origin
 * header and method, the response headers it sets and whether it answers a
 * preflight request itself. The headers are a simplified subset of the
 * CORS response headers of section 3.2 of the WHATWG Fetch Standard;
 * only what the middleware does is modelled. Reading the configuration and
 * writing the response are left out: the configuration values are inputs
 * ("" when a key is missing) and the response is a value.
 */
module CorsMiddleware {
  import opened Common
  import opened GoLib

  const DefaultOrigins: string := "*"
  const DefaultMethods: string := "GET,POST,PUT,DELETE,OPTIONS"
  const DefaultHeaders: string := "Content-Type,Authorization,X-Requested-With"

  /** The three configuration values as read. */
  datatype CorsConfig = CorsConfig(allowOrigins: string, allowMethods: string, allowHeaders: string)

  /** The configuration with an empty value replaced by its default. */
  function WithDefaults(c: CorsConfig): (d: CorsConfig)
    ensures d.allowOrigins == (if c.allowOrigins == "" then DefaultOrigins else c.allowOrigins)
    ensures d.allowMethods == (if c.allowMethods == "" then DefaultMethods else c.allowMethods)
    ensures d.allowHeaders == (if c.allowHeaders == "" then DefaultHeaders else c.allowHeaders)
    ensures d.allowOrigins != "" && d.allowMethods != "" && d.allowHeaders != ""
  {
    CorsConfig(if c.allowOrigins == "" then DefaultOrigins else c.allowOrigins,
               if c.allowMethods == "" then DefaultMethods else c.allowMethods,
               if c.allowHeaders == "" then DefaultHeaders else c.allowHeaders)
  }

  /** Defaults are filled in once: filling them in again changes nothing. */
  lemma WithDefaultsIdempotent(c: CorsConfig)
    ensures WithDefaults(WithDefaults(c)) == WithDefaults(c)
  {
  }

  /** The response headers the middleware sets. */
  datatype HeaderName = AllowOrigin | AllowMethods | AllowHeaders | AllowCredentials | MaxAge

  function HeaderText(h: HeaderName): string
  {
    match h
    case AllowOrigin => "Access-Control-Allow-Origin"
    case AllowMethods => "Access-Control-Allow-Methods"
    case AllowHeaders => "Access-Control-Allow-Headers"
    case AllowCredentials => "Access-Control-Allow-Credentials"
    case MaxAge => "Access-Control-Max-Age"
  }

  /** What the middleware writes: the headers, and for a preflight request
      the status and body it answers with. */
  datatype CorsReply = CorsReply(headers: map<HeaderName, string>, preflight: Option<(int, string)>)

  /** Some comma-separated entry of the list, trimmed, is the origin. */
  predicate Listed(entries: seq<string>, origin: string)
  {
    exists i :: 0 <= i < |entries| && TrimSpace(entries[i]) == origin
  }

  /** The search loop of the middleware, which stops at the first match. */
  method OriginAllowed(allowOrigins: string, origin: string) returns (allowed: bool)
    ensures allowed <==> Listed(Split(allowOrigins, ','), origin)
  {
    var origins := Split(allowOrigins, ',');
    allowed := false;
    var i := 0;
    while i < |origins|
      invariant 0 <= i <= |origins|
      invariant !allowed ==> forall j :: 0 <= j < i ==> TrimSpace(origins[j]) != origin
      invariant allowed ==> Listed(origins, origin)
      decreases |origins| - i, !allowed
    {
      if TrimSpace(origins[i]) == origin {
        allowed := true;
        break;
      }
      i := i + 1;
    }
  }

  /** The Allow-Origin value, if any: with a specific origin list and an
      Origin header, the request's origin when it is listed and nothing
      otherwise; with "*" or without an Origin header, the configured value
      as it is. */
  function AllowOriginValue(allowOrigins: string, origin: string): Option<string>
  {
    if allowOrigins != "*" && origin != "" then
      (if Listed(Split(allowOrigins, ','), origin) then Some(origin) else None)
    else Some(allowOrigins)
  }

  /** The headers that are always set, written after Allow-Origin. */
  function WithFixedHeaders(headers: map<HeaderName, string>, d: CorsConfig): map<HeaderName, string>
  {
    headers[AllowMethods := d.allowMethods][AllowHeaders := d.allowHeaders][AllowCredentials := "true"][MaxAge := "86400"]
  }

  /** The reply of the middleware to a request. */
  function Reply(config: CorsConfig, origin: string, httpMethod: string): CorsReply
  {
    var d := WithDefaults(config);
    var allow := AllowOriginValue(d.allowOrigins, origin);
    CorsReply(WithFixedHeaders(if allow.Some? then map[AllowOrigin := allow.value] else map[], d),
              if httpMethod == "OPTIONS" then Some((200, "")) else None)
  }

  /** CORS, as a method with the search loop. */
  method Cors(config: CorsConfig, origin: string, httpMethod: string) returns (reply: CorsReply)
    ensures reply == Reply(config, origin, httpMethod)
  {
    var allowOrigins := config.allowOrigins;
    var allowMethods := config.allowMethods;
    var allowHeaders := config.allowHeaders;
    if allowOrigins == "" {
      allowOrigins := DefaultOrigins;
    }
    if allowMethods == "" {
      allowMethods := DefaultMethods;
    }
    if allowHeaders == "" {
      allowHeaders := DefaultHeaders;
    }
    var headers: map<HeaderName, string> := map[];
    if allowOrigins != "*" && origin != "" {
      var allowed := OriginAllowed(allowOrigins, origin);
      if allowed {
        headers := headers[AllowOrigin := origin];
      }
    } else {
      headers := headers[AllowOrigin := allowOrigins];
    }
    assert CorsConfig(allowOrigins, allowMethods, allowHeaders) == WithDefaults(config);
    assert headers == if AllowOriginValue(allowOrigins, origin).Some?
      then map[AllowOrigin := AllowOriginValue(allowOrigins, origin).value] else map[];
    headers := headers[AllowMethods := allowMethods][AllowHeaders := allowHeaders];
    headers := headers[AllowCredentials := "true"][MaxAge := "86400"];
    var preflight: Option<(int, string)> := None;
    if httpMethod == "OPTIONS" {
      preflight := Some((200, ""));
    }
    reply := CorsReply(headers, preflight);
  }

  /** The methods, headers, credentials and max-age headers are always set,
      to the configured (or default) values, "true" and "86400"; only a
      preflight request is answered with 200 and an empty body. */
  lemma ReplyFixedParts(config: CorsConfig, origin: string, httpMethod: string)
    ensures var r := Reply(config, origin, httpMethod);
      var d := WithDefaults(config);
      && AllowMethods in r.headers && r.headers[AllowMethods] == d.allowMethods
      && AllowHeaders in r.headers && r.headers[AllowHeaders] == d.allowHeaders
      && AllowCredentials in r.headers && r.headers[AllowCredentials] == "true"
      && MaxAge in r.headers && r.headers[MaxAge] == "86400"
      && (r.preflight.Some? <==> httpMethod == "OPTIONS")
      && (r.preflight.Some? ==> r.preflight.value == (200, ""))
  {
  }

  /** With a specific origin list and an Origin header, Allow-Origin is set
      exactly when the origin is listed, and then to the origin. */
  lemma ReplyListedOrigin(config: CorsConfig, origin: string, httpMethod: string)
    requires config.allowOrigins != "" && config.allowOrigins != "*" && origin != ""
    ensures var r := Reply(config, origin, httpMethod);
      && (AllowOrigin in r.headers <==> Listed(Split(config.allowOrigins, ','), origin))
      && (AllowOrigin in r.headers ==> r.headers[AllowOrigin] == origin)
  {
  }

  /** Otherwise, with "*" (or no configuration) or without an Origin header,
      Allow-Origin is the configured value verbatim. */
  lemma ReplyConfiguredOrigin(config: CorsConfig, origin: string, httpMethod: string)
    requires WithDefaults(config).allowOrigins == "*" || origin == ""
    ensures var r := Reply(config, origin, httpMethod);
      AllowOrigin in r.headers && r.headers[AllowOrigin] == WithDefaults(config).allowOrigins
  {
  }

  /** An origin list written as the comma-joined origins, none of which
      contains a comma or has white space at either end, lets through
      exactly those origins. */
  lemma JoinedListAllows(entries: seq<string>, origin: string)
    requires |entries| > 0
    requires forall e :: e in entries ==> ',' !in e && TrimSpace(e) == e
    ensures Listed(Split(Join(entries, ','), ','), origin) <==> origin in entries
  {
    SplitJoin(entries, ',');
    if origin in entries {
      var k :| 0 <= k < |entries| && entries[k] == origin;
      assert TrimSpace(entries[k]) == origin;
    }
  }
}
