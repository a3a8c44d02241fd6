/** Concrete requests against concrete policies, pinning the engine's behaviour as the code has it. */
module CorsExamples {
  import opened Wrappers
  import opened Http
  import opened Strings
  import opened CorsOptions
  import opened Cors
  import opened CorsProperties

  /** A policy that lists the given origins and is otherwise closed: no custom predicate, no credentials. */
  function ListPolicy(origins: seq<string>, methods: seq<string>, headers: seq<string>): (o: Options)
    ensures o.allowedOrigin == origins && o.allowedMethod == methods && o.allowedHeader == headers
    ensures o.allowOriginFunc.None? && !o.credentials && o.exposedHeader.None?
  {
    Options(headers, methods, origins, false, None, 0, false, None, false)
  }

  /** Origins are compared after lower-casing both sides: "https://A.COM" matches "https://a.com", "https://b.com" does not. */
  lemma OriginMatchingExample(r: Request)
    ensures IsAllowedOrigin(ListPolicy(["https://a.com"], ["GET"], []), r, "https://A.COM")
    ensures !IsAllowedOrigin(ListPolicy(["https://a.com"], ["GET"], []), r, "https://b.com")
  {
    var o := ListPolicy(["https://a.com"], ["GET"], []);
    assert ToLower(o.allowedOrigin[0]) == ToLower("https://A.COM");
    assert ToLower(o.allowedOrigin[0])[8] != ToLower("https://b.com")[8];
  }

  /** Any origin whatever, "https://evil.example" included, is granted Allow-Origin "*" by a wildcard list. */
  lemma WildcardExample()
    ensures var o := ListPolicy(["*"], ["GET"], []);
      var r := Request("GET", map[OriginKey := ["https://evil.example"]]);
      Entry(ActualHeaders(o, r, map[]), AllowOriginKey) == Some(["*"])
  {
    var o := ListPolicy(["*"], ["GET"], []);
    var r := Request("GET", map[OriginKey := ["https://evil.example"]]);
    assert ToUpper("GET") == "GET";
    assert ActualVerdict(o, r) == Granted;
    ActualGrantedHeaders(o, r, map[]);
  }

  /** Method entries are not folded: ["get"] admits neither "get" nor "GET", while ["GET"] admits "get". */
  lemma MethodMatchingExample()
    ensures !IsAllowedMethod(ListPolicy([], ["get"], []), "get")
    ensures !IsAllowedMethod(ListPolicy([], ["get"], []), "GET")
    ensures IsAllowedMethod(ListPolicy([], ["GET"], []), "get")
  {
    LowerCaseMethodEntryNeverMatches(ListPolicy([], ["get"], []), "get", 0, 0);
    LowerCaseMethodEntryNeverMatches(ListPolicy([], ["get"], []), "GET", 0, 0);
    assert ToUpper("get") == "GET";
  }

  /**
   * The request-headers test is inverted and unsplit: "X-Foo" against ["Content-Type"]
   * passes, "X-Foo" against ["X-Foo", "Content-Type"] aborts, and the single value
   * "X-Foo, Content-Type" passes against ["X-Foo", "Content-Type"].
   */
  lemma RequestHeadersExample(m: string)
    ensures !RequestHeadersRejected(ListPolicy([], [], ["Content-Type"]),
                                    Request(m, map[RequestHeadersKey := ["X-Foo"]]))
    ensures RequestHeadersRejected(ListPolicy([], [], ["X-Foo", "Content-Type"]),
                                   Request(m, map[RequestHeadersKey := ["X-Foo"]]))
    ensures !RequestHeadersRejected(ListPolicy([], [], ["X-Foo", "Content-Type"]),
                                    Request(m, map[RequestHeadersKey := ["X-Foo, Content-Type"]]))
  {
  }

  /** Max-Age 600 renders as "600"; 0 and negative values render as "0". */
  lemma MaxAgeExample()
    ensures MaxAgeValue(600) == "600"
    ensures MaxAgeValue(0) == "0" && MaxAgeValue(-5) == "0"
  {
    assert NatToDecimal(6) == "6";
    assert NatToDecimal(60) == "60";
  }

  /** A granted actual request receives the whole configured origin list, not the request's own origin. */
  lemma AllowOriginIsWholeList()
    ensures var o := ListPolicy(["https://a.com", "https://b.com"], ["GET"], []);
      var r := Request("GET", map[OriginKey := ["https://B.com"]]);
      ActualVerdict(o, r) == Granted
      && Entry(ActualHeaders(o, r, map[]), AllowOriginKey) == Some(["https://a.com", "https://b.com"])
  {
    var o := ListPolicy(["https://a.com", "https://b.com"], ["GET"], []);
    var r := Request("GET", map[OriginKey := ["https://B.com"]]);
    assert ToLower(o.allowedOrigin[1]) == ToLower("https://B.com");
    assert ToUpper("GET") == "GET";
    ActualGrantedHeaders(o, r, map[]);
  }

  /** The default policy aborts a preflight that asks for "Content-Type", a header it lists as allowed. */
  lemma DefaultRejectsListedRequestHeader()
    ensures var r := Request("OPTIONS", map[OriginKey := ["https://x.org"], RequestMethodKey := ["POST"],
                                           RequestHeadersKey := ["Content-Type"]]);
      IsPreflight(r) && PreflightVerdict(DefaultOptions(), r) == HeadersDenied
  {
    var r := Request("OPTIONS", map[OriginKey := ["https://x.org"], RequestMethodKey := ["POST"],
                                   RequestHeadersKey := ["Content-Type"]]);
    assert ToUpper("POST") == "POST";
  }

  /**
   * Under the default policy a preflight for "get" with no requested headers is
   * granted from any origin: Allow-Origin "*", credentials "true", Max-Age "0",
   * the request's (absent) expose list, status 204 and no call of `next`.
   */
  lemma DefaultGrantsSimplePreflight(origin: string)
    requires origin != ""
    ensures var r := Request("OPTIONS", map[OriginKey := [origin], RequestMethodKey := ["get"]]);
      var out := Dispatch(DefaultOptions(), r, map[]);
      && out.status == Some(StatusNoContent) && !out.nextCalled
      && Entry(out.header, AllowOriginKey) == Some(["*"])
      && Entry(out.header, AllowMethodsKey) == Some(["get"])
      && Entry(out.header, AllowHeadersKey) == None
      && Entry(out.header, AllowCredentialsKey) == Some(["true"])
      && Entry(out.header, MaxAgeKey) == Some(["0"])
      && Entry(out.header, ExposeHeadersKey) == Some([])
  {
    var r := Request("OPTIONS", map[OriginKey := [origin], RequestMethodKey := ["get"]]);
    assert ToUpper("get") == "GET";
    assert RequestHeadersKey !in r.header;
    assert PreflightVerdict(DefaultOptions(), r) == Granted;
    PreflightGrantedHeaders(DefaultOptions(), r, map[]);
  }
}
