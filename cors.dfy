/**
 * The CORS decision engine: request classification, the origin and method
 * predicates, the preflight and actual-request header rules as functions of the
 * request and the response's previous header map, and the `Cors` middleware whose
 * handlers change the response's header map in place step by step.
 */
module Cors {
  import opened Wrappers
  import opened Http
  import opened Strings
  import opened Utils
  import opened CorsOptions

  const VaryKey: string := "Vary"
  const OriginKey: string := "Origin"
  const RequestMethodKey: string := "Access-Control-Request-Method"
  const RequestHeadersKey: string := "Access-Control-Request-Headers"
  const ExposeHeadersKey: string := "Access-Control-Expose-Headers"
  const AllowOriginKey: string := "Access-Control-Allow-Origin"
  const AllowMethodsKey: string := "Access-Control-Allow-Methods"
  const AllowHeadersKey: string := "Access-Control-Allow-Headers"
  const AllowCredentialsKey: string := "Access-Control-Allow-Credentials"
  const MaxAgeKey: string := "Access-Control-Max-Age"

  /** The single Vary element a preflight appends (one string holding three names). */
  const PreflightVaryValue: string := "Origin, Access-Control-Request-Method, Access-Control-Request-Headers"
  /** The Vary element an actual request appends. */
  const ActualVaryValue: string := "Origin"

  /**
   * Handler/ServeHTTP's test: OPTIONS with a non-empty first Access-Control-Request-Method
   * and Origin. Stated on the raw header map: both keys are present with a first value
   * that is not "".
   */
  function IsPreflight(r: Request): (preflight: bool)
    ensures preflight <==>
      r.requestMethod == "OPTIONS"
      && RequestMethodKey in r.header && |r.header[RequestMethodKey]| > 0 && r.header[RequestMethodKey][0] != ""
      && OriginKey in r.header && |r.header[OriginKey]| > 0 && r.header[OriginKey][0] != ""
  {
    r.requestMethod == MethodOptions && Get(r.header, RequestMethodKey) != "" && Get(r.header, OriginKey) != ""
  }

  /**
   * `isAllowedMethod`: the upper-cased method is an exact member of the configured
   * list. The configured entries are not folded, so the entry that matches holds no
   * lower-case letter.
   */
  function IsAllowedMethod(o: Options, md: string): (allowed: bool)
    ensures allowed <==> exists i :: 0 <= i < |o.allowedMethod| && o.allowedMethod[i] == ToUpper(md)
    ensures allowed ==> exists i :: 0 <= i < |o.allowedMethod| && o.allowedMethod[i] == ToUpper(md) &&
                             forall c :: 0 <= c < |o.allowedMethod[i]| ==> !IsLowerChar(o.allowedMethod[i][c])
  {
    ToUpper(md) in o.allowedMethod
  }

  /** The configured list begins with the wildcard "*". */
  predicate IsWildcard(o: Options)
  {
    |o.allowedOrigin| > 0 && o.allowedOrigin[0] == "*"
  }

  /**
   * `isAllowedOrigin`: the custom predicate when one is configured; otherwise true
   * for a wildcard list, and else membership of the lower-cased origin in the
   * lower-cased list.
   */
  function IsAllowedOrigin(o: Options, r: Request, origin: string): (allowed: bool)
    ensures o.allowOriginFunc.Some? ==> (allowed <==> o.allowOriginFunc.value(r, origin))
    ensures o.allowOriginFunc.None? && IsWildcard(o) ==> allowed
    ensures o.allowOriginFunc.None? && !IsWildcard(o) ==>
      (allowed <==> exists i :: 0 <= i < |o.allowedOrigin| && ToLower(o.allowedOrigin[i]) == ToLower(origin))
  {
    match o.allowOriginFunc
    case Some(f) => f(r, origin)
    case None =>
      if IsWildcard(o) then true
      else
        MapSeqMember(o.allowedOrigin, ToLower, ToLower(origin));
        ToLower(origin) in MapSeq(o.allowedOrigin, ToLower)
  }

  /**
   * The preflight request-headers test as the code has it: it rejects exactly when
   * the request carries a non-empty Access-Control-Request-Headers list whose first
   * raw value is an exact member of the allowed list; the value is not split.
   */
  function RequestHeadersRejected(o: Options, r: Request): (rejected: bool)
    ensures rejected <==>
      RequestHeadersKey in r.header && |r.header[RequestHeadersKey]| > 0
      && r.header[RequestHeadersKey][0] in o.allowedHeader
  {
    var (reqHeaders, found) := GetHeaderFirst(r.header, RequestHeadersKey);
    assert found ==> (AllIn(o.allowedHeader, reqHeaders) <==> reqHeaders[0] in o.allowedHeader);
    found && AllIn(o.allowedHeader, reqHeaders)
  }

  /** What a handler decides: the check that stopped it, or Granted. */
  datatype Verdict =
    | NotOptions
    | EmptyOrigin
    | OriginDenied
    | MethodDenied
    | HeadersDenied
    | NoAllowedOrigin
    | Granted

  /**
   * The first failing check of `handlePreflight`, in the code's order. The handler
   * stops before Vary exactly for a non-OPTIONS method, and it grants exactly when
   * every check passes.
   */
  function PreflightVerdict(o: Options, r: Request): (v: Verdict)
    ensures v == NotOptions <==> r.requestMethod != MethodOptions
    ensures v == Granted <==>
      r.requestMethod == MethodOptions
      && Get(r.header, OriginKey) != ""
      && IsAllowedOrigin(o, r, Get(r.header, OriginKey))
      && IsAllowedMethod(o, Get(r.header, RequestMethodKey))
      && !(RequestHeadersKey in r.header && |r.header[RequestHeadersKey]| > 0
           && r.header[RequestHeadersKey][0] in o.allowedHeader)
      && |o.allowedOrigin| > 0
  {
    var origin := Get(r.header, OriginKey);
    if r.requestMethod != MethodOptions then NotOptions
    else if origin == "" then EmptyOrigin
    else if !IsAllowedOrigin(o, r, origin) then OriginDenied
    else if !IsAllowedMethod(o, Get(r.header, RequestMethodKey)) then MethodDenied
    else if RequestHeadersRejected(o, r) then HeadersDenied
    else if |o.allowedOrigin| == 0 then NoAllowedOrigin
    else Granted
  }

  /**
   * The first failing check of `handleActualRequest`, in the code's order. It grants
   * exactly when the origin and method checks pass and the origin list is non-empty.
   */
  function ActualVerdict(o: Options, r: Request): (v: Verdict)
    ensures v != NotOptions && v != HeadersDenied
    ensures v == Granted <==>
      Get(r.header, OriginKey) != ""
      && IsAllowedOrigin(o, r, Get(r.header, OriginKey))
      && IsAllowedMethod(o, r.requestMethod)
      && |o.allowedOrigin| > 0
  {
    var origin := Get(r.header, OriginKey);
    if origin == "" then EmptyOrigin
    else if !IsAllowedOrigin(o, r, origin) then OriginDenied
    else if !IsAllowedMethod(o, r.requestMethod) then MethodDenied
    else if |o.allowedOrigin| == 0 then NoAllowedOrigin
    else Granted
  }

  /** The Access-Control-Allow-Origin value on success: ["*"] for a wildcard list, else the whole list. */
  function AllowOriginValue(o: Options): seq<string>
  {
    if IsWildcard(o) then ["*"] else o.allowedOrigin
  }

  /** The Access-Control-Max-Age value: the decimal maxAge when positive, else "0". */
  function MaxAgeValue(maxAge: int): string
  {
    if maxAge > 0 then NatToDecimal(maxAge) else "0"
  }

  /** `h` with `key` set to `v` when `cond` holds, and `h` as it is otherwise. */
  function SetIf(h: Header, cond: bool, key: string, v: seq<string>): Header
  {
    if cond then h[key := v] else h
  }

  /** The preflight's success writes, applied after Vary to the header map `h`. */
  function PreflightGrant(o: Options, r: Request, h: Header): Header
  {
    var (reqHeaders, found) := GetHeaderFirst(r.header, RequestHeadersKey);
    var h1 := h[AllowOriginKey := AllowOriginValue(o)][AllowMethodsKey := Values(r.header, RequestMethodKey)];
    var h2 := SetIf(h1, found && |reqHeaders[0]| > 0, AllowHeadersKey, Values(r.header, RequestHeadersKey));
    var h3 := SetIf(h2, o.credentials, AllowCredentialsKey, ["true"]);
    var h4 := h3[MaxAgeKey := [MaxAgeValue(o.maxAge)]];
    SetIf(h4, o.exposedHeader.Some?, ExposeHeadersKey, Values(r.header, ExposeHeadersKey))
  }

  /**
   * The header map `handlePreflight` leaves behind, given the one it found. Past the
   * OPTIONS guard the old Vary values stay as a prefix and the one three-name element
   * is appended, whatever the later checks decide; before it nothing changes.
   */
  function PreflightHeaders(o: Options, r: Request, h: Header): (h': Header)
    ensures r.requestMethod == MethodOptions ==>
      VaryKey in h' && h'[VaryKey] == Values(h, VaryKey) + [PreflightVaryValue]
    ensures r.requestMethod != MethodOptions ==> h' == h
  {
    var v := PreflightVerdict(o, r);
    if v == NotOptions then h
    else
      var varied := h[VaryKey := Values(h, VaryKey) + [PreflightVaryValue]];
      if v == Granted then PreflightGrant(o, r, varied) else varied
  }

  /**
   * The header map `handleActualRequest` leaves behind, given the one it found. The old
   * Vary values stay as a prefix and "Origin" is appended, whatever the later checks decide.
   */
  function ActualHeaders(o: Options, r: Request, h: Header): (h': Header)
    ensures VaryKey in h' && h'[VaryKey] == Values(h, VaryKey) + [ActualVaryValue]
  {
    var varied := h[VaryKey := Values(h, VaryKey) + [ActualVaryValue]];
    if ActualVerdict(o, r) != Granted then varied
    else
      var h1 := varied[AllowOriginKey := AllowOriginValue(o)];
      SetIf(h1, o.credentials, AllowCredentialsKey, ["true"])
  }

  /** What one pass through the middleware produces: the header map, the status it writes, whether `next` runs. */
  datatype Outcome = Outcome(header: Header, status: Option<int>, nextCalled: bool)

  /**
   * `Handler` / `ServeHTTP`: classify, run the matching handler, then call `next` or
   * write 204. Exactly one of the two happens, and Vary gains the three-name element
   * for a preflight and "Origin" for any other request.
   */
  function Dispatch(o: Options, r: Request, h: Header): (out: Outcome)
    ensures out.nextCalled <==> out.status.None?
    ensures out.status.Some? ==> out.status == Some(StatusNoContent) && IsPreflight(r)
    ensures Values(out.header, VaryKey) ==
      Values(h, VaryKey) + [if IsPreflight(r) then PreflightVaryValue else ActualVaryValue]
  {
    if IsPreflight(r) then
      Outcome(PreflightHeaders(o, r, h),
              if o.preflightPass then None else Some(StatusNoContent),
              o.preflightPass)
    else
      Outcome(ActualHeaders(o, r, h), None, true)
  }

  /**
   * The policy `Default()` builds: every origin, five verbs, credentials on, a fixed
   * header list, a non-nil expose list, max-age 0, preflights answered with 204.
   * With the inverted header check, a preflight asking for one of the two listed
   * headers is the one that is rejected.
   */
  function DefaultOptions(): (o: Options)
    ensures forall r, origin :: IsAllowedOrigin(o, r, origin)
    ensures forall md :: IsAllowedMethod(o, md) <==> ToUpper(md) in ["GET", "POST", "PUT", "DELETE", "OPTIONS"]
    ensures forall r :: RequestHeadersRejected(o, r) <==>
      RequestHeadersKey in r.header && |r.header[RequestHeadersKey]| > 0
      && (r.header[RequestHeadersKey][0] == "Content-Type" || r.header[RequestHeadersKey][0] == "Authorization")
    ensures AllowOriginValue(o) == ["*"]
    ensures o.credentials && o.exposedHeader.Some? && MaxAgeValue(o.maxAge) == "0" && !o.preflightPass
  {
    Options(
      allowedHeader := ["Content-Type", "Authorization"],
      allowedMethod := ["GET", "POST", "PUT", "DELETE", "OPTIONS"],
      allowedOrigin := ["*"],
      credentials := true,
      exposedHeader := Some(["Content-Type", "Authorization"]),
      maxAge := 0,
      preflightPass := false,
      allowOriginFunc := None,
      debug := false)
  }

  /** The middleware: a policy and the fixed preflight Vary list. */
  class Cors {
    const options: Options
    const preflightVary: seq<string> := [PreflightVaryValue]

    /** `NewCors`. */
    constructor (options: Options)
      ensures this.options == options
    {
      this.options := options;
    }

    /** `handlePreflight`: extends Vary, runs the checks with early returns, then writes the success headers. */
    method HandlePreflight(w: ResponseWriter, r: Request)
      modifies w
      ensures w.header == PreflightHeaders(options, r, old(w.header))
      ensures w.status == old(w.status)
    {
      var header := w.header;
      var origin := Get(r.header, OriginKey);
      if r.requestMethod != MethodOptions {
        return;
      }
      if VaryKey in header {
        header := header[VaryKey := header[VaryKey] + preflightVary];
      } else {
        header := header[VaryKey := preflightVary];
        assert [] + preflightVary == preflightVary;
      }
      ghost var varied := header;
      assert varied == old(w.header)[VaryKey := Values(old(w.header), VaryKey) + [PreflightVaryValue]];
      if origin == "" {
        assert PreflightVerdict(options, r) == EmptyOrigin;
        w.header := header;
        return;
      }
      if !IsAllowedOrigin(options, r, origin) {
        assert PreflightVerdict(options, r) == OriginDenied;
        w.header := header;
        return;
      }
      if !IsAllowedMethod(options, Get(r.header, RequestMethodKey)) {
        assert PreflightVerdict(options, r) == MethodDenied;
        w.header := header;
        return;
      }
      var (reqHeaders, found) := GetHeaderFirst(r.header, RequestHeadersKey);
      if found {
        var contained := ContainerOtherAll(options.allowedHeader, reqHeaders);
        if contained {
          assert PreflightVerdict(options, r) == HeadersDenied;
          w.header := header;
          return;
        }
      }
      assert !RequestHeadersRejected(options, r);
      if |options.allowedOrigin| > 0 && options.allowedOrigin[0] == "*" {
        header := header[AllowOriginKey := ["*"]];
      } else if |options.allowedOrigin| > 0 {
        header := header[AllowOriginKey := options.allowedOrigin];
      } else {
        assert PreflightVerdict(options, r) == NoAllowedOrigin;
        w.header := header;
        return;
      }
      assert PreflightVerdict(options, r) == Granted;
      assert header == varied[AllowOriginKey := AllowOriginValue(options)];
      header := header[AllowMethodsKey := Values(r.header, RequestMethodKey)];
      ghost var h1 := header;
      if found && |reqHeaders[0]| > 0 {
        header := header[AllowHeadersKey := Values(r.header, RequestHeadersKey)];
      }
      assert header == SetIf(h1, found && |reqHeaders[0]| > 0, AllowHeadersKey, Values(r.header, RequestHeadersKey));
      ghost var h2 := header;
      if options.credentials {
        header := header[AllowCredentialsKey := ["true"]];
      }
      assert header == SetIf(h2, options.credentials, AllowCredentialsKey, ["true"]);
      if options.maxAge > 0 {
        header := header[MaxAgeKey := [NatToDecimal(options.maxAge)]];
      } else {
        header := header[MaxAgeKey := ["0"]];
      }
      ghost var h4 := header;
      if options.exposedHeader.Some? {
        header := header[ExposeHeadersKey := Values(r.header, ExposeHeadersKey)];
      }
      assert header == SetIf(h4, options.exposedHeader.Some?, ExposeHeadersKey, Values(r.header, ExposeHeadersKey));
      assert header == PreflightGrant(options, r, varied);
      w.header := header;
    }

    /** `handleActualRequest`: extends Vary, runs the checks with early returns, then writes Allow-Origin and Allow-Credentials. */
    method HandleActualRequest(w: ResponseWriter, r: Request)
      modifies w
      ensures w.header == ActualHeaders(options, r, old(w.header))
      ensures w.status == old(w.status)
    {
      var header := w.header;
      var origin := Get(r.header, OriginKey);
      if VaryKey !in header {
        header := header[VaryKey := [ActualVaryValue]];
        assert [] + [ActualVaryValue] == [ActualVaryValue];
      } else {
        header := header[VaryKey := header[VaryKey] + [ActualVaryValue]];
      }
      assert header == old(w.header)[VaryKey := Values(old(w.header), VaryKey) + [ActualVaryValue]];
      if origin == "" {
        w.header := header;
        return;
      }
      if !IsAllowedOrigin(options, r, origin) {
        w.header := header;
        return;
      }
      if !IsAllowedMethod(options, r.requestMethod) {
        w.header := header;
        return;
      }
      if |options.allowedOrigin| > 0 && options.allowedOrigin[0] == "*" {
        header := header[AllowOriginKey := ["*"]];
      } else if |options.allowedOrigin| > 0 {
        header := header[AllowOriginKey := options.allowedOrigin];
      } else {
        w.header := header;
        return;
      }
      if options.credentials {
        header := header[AllowCredentialsKey := ["true"]];
      }
      w.header := header;
    }

    /**
     * `ServeHTTP` (and the function `Handler` wraps): a preflight runs HandlePreflight and then
     * `next` or 204; anything else runs HandleActualRequest and then `next`. The call
     * of `next` is reported as `nextCalled`; what `next` does is not modelled.
     */
    method ServeHTTP(w: ResponseWriter, r: Request) returns (nextCalled: bool)
      modifies w
      ensures w.header == Dispatch(options, r, old(w.header)).header
      ensures nextCalled == Dispatch(options, r, old(w.header)).nextCalled
      ensures w.status == (if Dispatch(options, r, old(w.header)).status.Some?
                           then Dispatch(options, r, old(w.header)).status else old(w.status))
    {
      if r.requestMethod == MethodOptions && Get(r.header, RequestMethodKey) != "" && Get(r.header, OriginKey) != "" {
        HandlePreflight(w, r);
        if options.preflightPass {
          nextCalled := true;
        } else {
          w.WriteHeader(StatusNoContent);
          nextCalled := false;
        }
      } else {
        HandleActualRequest(w, r);
        nextCalled := true;
      }
    }
  }

  /** `Default()`: a middleware built on DefaultOptions. */
  method Default() returns (c: Cors)
    ensures fresh(c) && c.options == DefaultOptions()
  {
    c := new Cors(DefaultOptions());
  }
}
