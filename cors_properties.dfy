/** What the CORS decision engine guarantees, stated over the functions of module Cors. */
module CorsProperties {
  import opened Wrappers
  import opened Http
  import opened Strings
  import opened Utils
  import opened CorsOptions
  import opened Cors

  /** The keys a preflight may write. */
  predicate IsPreflightKey(k: string)
  {
    k == VaryKey || k == AllowOriginKey || k == AllowMethodsKey || k == AllowHeadersKey
    || k == AllowCredentialsKey || k == MaxAgeKey || k == ExposeHeadersKey
  }

  /** The keys an actual request may write. */
  predicate IsActualKey(k: string)
  {
    k == VaryKey || k == AllowOriginKey || k == AllowCredentialsKey
  }

  /** Two header maps with the same entry for every key are equal. */
  lemma EntryExtensional(a: Header, b: Header)
    requires forall k :: Entry(a, k) == Entry(b, k)
    ensures a == b
  {
    assert forall k :: k in a <==> Entry(a, k).Some?;
    assert a.Keys == b.Keys;
    forall k | k in a
      ensures a[k] == b[k]
    {
      assert Entry(a, k) == Entry(b, k);
    }
  }

  /** A conditional write changes only its own key, and only when its condition holds. */
  lemma SetIfEntry(h: Header, cond: bool, key: string, v: seq<string>, k: string)
    ensures Entry(SetIf(h, cond, key, v), k) == if cond && k == key then Some(v) else Entry(h, k)
  {
  }

  /** The entry the preflight success writes leave for one key: the last write to it, or the old entry. */
  lemma PreflightGrantEntry(o: Options, r: Request, h: Header, k: string)
    ensures Entry(PreflightGrant(o, r, h), k) ==
      if k == ExposeHeadersKey && o.exposedHeader.Some? then Some(Values(r.header, ExposeHeadersKey))
      else if k == MaxAgeKey then Some([MaxAgeValue(o.maxAge)])
      else if k == AllowCredentialsKey && o.credentials then Some(["true"])
      else if k == AllowHeadersKey && Get(r.header, RequestHeadersKey) != "" then Some(r.header[RequestHeadersKey])
      else if k == AllowMethodsKey then Some(Values(r.header, RequestMethodKey))
      else if k == AllowOriginKey then Some(AllowOriginValue(o))
      else Entry(h, k)
  {
    var (reqHeaders, found) := GetHeaderFirst(r.header, RequestHeadersKey);
    GetHeaderFirstAgreesWithGet(r.header, RequestHeadersKey);
    var h1 := h[AllowOriginKey := AllowOriginValue(o)][AllowMethodsKey := Values(r.header, RequestMethodKey)];
    var h2 := SetIf(h1, found && |reqHeaders[0]| > 0, AllowHeadersKey, Values(r.header, RequestHeadersKey));
    var h3 := SetIf(h2, o.credentials, AllowCredentialsKey, ["true"]);
    var h4 := h3[MaxAgeKey := [MaxAgeValue(o.maxAge)]];
    assert PreflightGrant(o, r, h) == SetIf(h4, o.exposedHeader.Some?, ExposeHeadersKey, Values(r.header, ExposeHeadersKey));
    SetIfEntry(h1, found && |reqHeaders[0]| > 0, AllowHeadersKey, Values(r.header, RequestHeadersKey), k);
    SetIfEntry(h2, o.credentials, AllowCredentialsKey, ["true"], k);
    SetIfEntry(h4, o.exposedHeader.Some?, ExposeHeadersKey, Values(r.header, ExposeHeadersKey), k);
  }

  // ---------------------------------------------------------------------------
  // Continuation

  /**
   * Dispatch takes the preflight path for preflights and the actual path for all
   * else. An actual request always calls `next` and writes no status; a preflight
   * calls `next` and writes no status when preflightPass is set, and otherwise
   * writes 204 and does not call `next`.
   */
  lemma DispatchContinuation(o: Options, r: Request, h: Header)
    ensures IsPreflight(r) ==> Dispatch(o, r, h).header == PreflightHeaders(o, r, h)
    ensures !IsPreflight(r) ==> Dispatch(o, r, h).header == ActualHeaders(o, r, h)
    ensures !IsPreflight(r) ==> Dispatch(o, r, h).nextCalled && Dispatch(o, r, h).status == None
    ensures IsPreflight(r) && o.preflightPass ==> Dispatch(o, r, h).nextCalled && Dispatch(o, r, h).status == None
    ensures IsPreflight(r) && !o.preflightPass ==> !Dispatch(o, r, h).nextCalled && Dispatch(o, r, h).status == Some(204)
  {
  }

  // ---------------------------------------------------------------------------
  // Rejections

  /** A rejected preflight changes Vary and no other key. */
  lemma PreflightRejectionChangesOnlyVary(o: Options, r: Request, h: Header)
    requires r.requestMethod == MethodOptions && PreflightVerdict(o, r) != Granted
    ensures PreflightHeaders(o, r, h) == h[VaryKey := Values(h, VaryKey) + [PreflightVaryValue]]
    ensures forall k :: k != VaryKey ==> Entry(PreflightHeaders(o, r, h), k) == Entry(h, k)
  {
  }

  /** A rejected actual request changes Vary and no other key. */
  lemma ActualRejectionChangesOnlyVary(o: Options, r: Request, h: Header)
    requires ActualVerdict(o, r) != Granted
    ensures ActualHeaders(o, r, h) == h[VaryKey := Values(h, VaryKey) + [ActualVaryValue]]
    ensures forall k :: k != VaryKey ==> Entry(ActualHeaders(o, r, h), k) == Entry(h, k)
  {
  }

  /** An empty Origin never earns Access-Control-Allow-Origin, on either path or through Dispatch. */
  lemma EmptyOriginNeverAllowed(o: Options, r: Request, h: Header)
    requires Get(r.header, OriginKey) == ""
    ensures Entry(PreflightHeaders(o, r, h), AllowOriginKey) == Entry(h, AllowOriginKey)
    ensures Entry(ActualHeaders(o, r, h), AllowOriginKey) == Entry(h, AllowOriginKey)
    ensures Entry(Dispatch(o, r, h).header, AllowOriginKey) == Entry(h, AllowOriginKey)
  {
  }

  // ---------------------------------------------------------------------------
  // What a success writes

  /**
   * A granted preflight writes, beside Vary: Allow-Origin ("*" or the whole
   * configured list), Allow-Methods (the request's whole
   * Access-Control-Request-Method list), Allow-Headers (the request's whole
   * Access-Control-Request-Headers list, only when its first value is non-empty),
   * Allow-Credentials ("true", only with credentials), Max-Age (always) and
   * Expose-Headers (the request's own list, only when the policy's is non-nil);
   * every other key is left as it was.
   */
  lemma PreflightGrantedHeaders(o: Options, r: Request, h: Header)
    requires PreflightVerdict(o, r) == Granted
    ensures Values(PreflightHeaders(o, r, h), VaryKey) == Values(h, VaryKey) + [PreflightVaryValue]
    ensures Entry(PreflightHeaders(o, r, h), AllowOriginKey) ==
      Some(if o.allowedOrigin[0] == "*" then ["*"] else o.allowedOrigin)
    ensures Entry(PreflightHeaders(o, r, h), AllowMethodsKey) == Some(Values(r.header, RequestMethodKey))
    ensures Entry(PreflightHeaders(o, r, h), AllowHeadersKey) ==
      if Get(r.header, RequestHeadersKey) != "" then Some(r.header[RequestHeadersKey])
      else Entry(h, AllowHeadersKey)
    ensures Entry(PreflightHeaders(o, r, h), AllowCredentialsKey) ==
      if o.credentials then Some(["true"]) else Entry(h, AllowCredentialsKey)
    ensures Entry(PreflightHeaders(o, r, h), MaxAgeKey) == Some([MaxAgeValue(o.maxAge)])
    ensures Entry(PreflightHeaders(o, r, h), ExposeHeadersKey) ==
      if o.exposedHeader.Some? then Some(Values(r.header, ExposeHeadersKey)) else Entry(h, ExposeHeadersKey)
    ensures forall k :: !IsPreflightKey(k) ==> Entry(PreflightHeaders(o, r, h), k) == Entry(h, k)
  {
    var varied := h[VaryKey := Values(h, VaryKey) + [PreflightVaryValue]];
    assert PreflightHeaders(o, r, h) == PreflightGrant(o, r, varied);
    PreflightGrantEntry(o, r, varied, VaryKey);
    PreflightGrantEntry(o, r, varied, AllowOriginKey);
    PreflightGrantEntry(o, r, varied, AllowMethodsKey);
    PreflightGrantEntry(o, r, varied, AllowHeadersKey);
    PreflightGrantEntry(o, r, varied, AllowCredentialsKey);
    PreflightGrantEntry(o, r, varied, MaxAgeKey);
    PreflightGrantEntry(o, r, varied, ExposeHeadersKey);
    forall k | !IsPreflightKey(k)
      ensures Entry(PreflightHeaders(o, r, h), k) == Entry(h, k)
    {
      PreflightGrantEntry(o, r, varied, k);
    }
  }

  /**
   * A granted actual request writes, beside Vary, Allow-Origin ("*" or the whole
   * configured list) and, with credentials, Allow-Credentials "true"; every other
   * key is left as it was.
   */
  lemma ActualGrantedHeaders(o: Options, r: Request, h: Header)
    requires ActualVerdict(o, r) == Granted
    ensures var h' := ActualHeaders(o, r, h);
      && Values(h', VaryKey) == Values(h, VaryKey) + [ActualVaryValue]
      && Entry(h', AllowOriginKey) == Some(if o.allowedOrigin[0] == "*" then ["*"] else o.allowedOrigin)
      && Entry(h', AllowCredentialsKey) == (if o.credentials then Some(["true"]) else Entry(h, AllowCredentialsKey))
      && forall k :: !IsActualKey(k) ==> Entry(h', k) == Entry(h, k)
  {
  }

  /** An actual request, granted or not, never writes Allow-Methods, Allow-Headers, Max-Age or Expose-Headers. */
  lemma ActualNeverWritesPreflightKeys(o: Options, r: Request, h: Header)
    ensures Entry(ActualHeaders(o, r, h), AllowMethodsKey) == Entry(h, AllowMethodsKey)
    ensures Entry(ActualHeaders(o, r, h), AllowHeadersKey) == Entry(h, AllowHeadersKey)
    ensures Entry(ActualHeaders(o, r, h), MaxAgeKey) == Entry(h, MaxAgeKey)
    ensures Entry(ActualHeaders(o, r, h), ExposeHeadersKey) == Entry(h, ExposeHeadersKey)
  {
    if ActualVerdict(o, r) == Granted {
      ActualGrantedHeaders(o, r, h);
    }
  }

  /** Without credentials, no path ever writes Access-Control-Allow-Credentials. */
  lemma CredentialsOffNeverWritten(o: Options, r: Request, h: Header)
    requires !o.credentials
    ensures Entry(PreflightHeaders(o, r, h), AllowCredentialsKey) == Entry(h, AllowCredentialsKey)
    ensures Entry(ActualHeaders(o, r, h), AllowCredentialsKey) == Entry(h, AllowCredentialsKey)
    ensures Entry(Dispatch(o, r, h).header, AllowCredentialsKey) == Entry(h, AllowCredentialsKey)
  {
    if PreflightVerdict(o, r) == Granted {
      PreflightGrantedHeaders(o, r, h);
    }
    if ActualVerdict(o, r) == Granted {
      ActualGrantedHeaders(o, r, h);
    }
  }

  /** The configured ExposedHeader contents are never read: only whether the slice is nil matters. */
  lemma ExposedContentsIgnored(o: Options, r: Request, h: Header, e1: seq<string>, e2: seq<string>)
    ensures PreflightHeaders(o.(exposedHeader := Some(e1)), r, h) == PreflightHeaders(o.(exposedHeader := Some(e2)), r, h)
    ensures ActualHeaders(o.(exposedHeader := Some(e1)), r, h) == ActualHeaders(o, r, h)
  {
    var o1, o2 := o.(exposedHeader := Some(e1)), o.(exposedHeader := Some(e2));
    var origin := Get(r.header, OriginKey);
    assert IsAllowedOrigin(o1, r, origin) == IsAllowedOrigin(o2, r, origin) == IsAllowedOrigin(o, r, origin);
    assert PreflightVerdict(o1, r) == PreflightVerdict(o2, r) by {
      assert IsAllowedMethod(o1, Get(r.header, RequestMethodKey)) == IsAllowedMethod(o2, Get(r.header, RequestMethodKey));
      assert RequestHeadersRejected(o1, r) == RequestHeadersRejected(o2, r);
    }
    var varied := h[VaryKey := Values(h, VaryKey) + [PreflightVaryValue]];
    assert PreflightGrant(o1, r, varied) == PreflightGrant(o2, r, varied) by {
      assert AllowOriginValue(o1) == AllowOriginValue(o2);
    }
    assert ActualVerdict(o1, r) == ActualVerdict(o, r) by {
      assert IsAllowedMethod(o1, r.requestMethod) == IsAllowedMethod(o, r.requestMethod);
    }
  }

  /** Max-Age is the decimal rendering of maxAge when it is positive and "0" otherwise; it reads back as max(maxAge, 0). */
  lemma MaxAgeRendering(maxAge: int)
    ensures MaxAgeValue(maxAge) == NatToDecimal(if maxAge > 0 then maxAge else 0)
    ensures IsDecimal(MaxAgeValue(maxAge)) && DecimalValue(MaxAgeValue(maxAge)) == (if maxAge > 0 then maxAge else 0)
  {
    DecimalRoundTrip(if maxAge > 0 then maxAge else 0);
  }

  // ---------------------------------------------------------------------------
  // Matching

  /** Origins that differ only in ASCII case get the same decision from the list. */
  lemma OriginCaseInsensitive(o: Options, r: Request, x: string, y: string)
    requires o.allowOriginFunc.None? && ToLower(x) == ToLower(y)
    ensures IsAllowedOrigin(o, r, x) == IsAllowedOrigin(o, r, y)
  {
  }

  /**
   * A custom predicate alone decides the origin check, whatever the configured
   * list holds; the list still decides Allow-Origin, and an empty list still
   * rejects on both paths.
   */
  lemma OriginFuncDecides(o: Options, r: Request, h: Header, origin: string, other: seq<string>)
    requires o.allowOriginFunc.Some?
    ensures IsAllowedOrigin(o.(allowedOrigin := other), r, origin) == IsAllowedOrigin(o, r, origin)
    ensures |o.allowedOrigin| == 0 ==> PreflightVerdict(o, r) != Granted && ActualVerdict(o, r) != Granted
    ensures |o.allowedOrigin| == 0 ==>
      Entry(Dispatch(o, r, h).header, AllowOriginKey) == Entry(h, AllowOriginKey)
  {
  }

  /** Methods that agree after upper-casing get the same decision. */
  lemma MethodCaseInsensitive(o: Options, x: string, y: string)
    requires ToUpper(x) == ToUpper(y)
    ensures IsAllowedMethod(o, x) == IsAllowedMethod(o, y)
  {
  }

  /** The configured method entries are not case-folded: an entry holding a lower-case letter never matches. */
  lemma LowerCaseMethodEntryNeverMatches(o: Options, md: string, j: nat, c: nat)
    requires j < |o.allowedMethod| && c < |o.allowedMethod[j]| && IsLowerChar(o.allowedMethod[j][c])
    ensures ToUpper(md) != o.allowedMethod[j]
    ensures IsAllowedMethod(o, md) ==> exists i :: 0 <= i < |o.allowedMethod| && i != j && o.allowedMethod[i] == ToUpper(md)
  {
    ToUpperNeverHasLower(md, o.allowedMethod[j], c);
  }

  // ---------------------------------------------------------------------------
  // Repeated invocation

  /** Running the actual-request handler twice leaves the same headers as once, with a second "Origin" in Vary. */
  lemma RepeatedActualAccumulatesVary(o: Options, r: Request, h: Header)
    ensures ActualHeaders(o, r, ActualHeaders(o, r, h)) ==
      ActualHeaders(o, r, h)[VaryKey := Values(h, VaryKey) + [ActualVaryValue, ActualVaryValue]]
  {
    var once := ActualHeaders(o, r, h);
    assert Values(once, VaryKey) + [ActualVaryValue] == Values(h, VaryKey) + [ActualVaryValue, ActualVaryValue];
  }

  /** Running the preflight handler twice leaves the same headers as once, with the Vary element doubled. */
  lemma RepeatedPreflightAccumulatesVary(o: Options, r: Request, h: Header)
    requires r.requestMethod == MethodOptions
    ensures PreflightHeaders(o, r, PreflightHeaders(o, r, h)) ==
      PreflightHeaders(o, r, h)[VaryKey := Values(h, VaryKey) + [PreflightVaryValue, PreflightVaryValue]]
  {
    var once := PreflightHeaders(o, r, h);
    var expected := once[VaryKey := Values(h, VaryKey) + [PreflightVaryValue, PreflightVaryValue]];
    assert Values(once, VaryKey) + [PreflightVaryValue] == Values(h, VaryKey) + [PreflightVaryValue, PreflightVaryValue];
    if PreflightVerdict(o, r) == Granted {
      var varied1 := h[VaryKey := Values(h, VaryKey) + [PreflightVaryValue]];
      var varied2 := once[VaryKey := Values(once, VaryKey) + [PreflightVaryValue]];
      forall k
        ensures Entry(PreflightHeaders(o, r, once), k) == Entry(expected, k)
      {
        PreflightGrantEntry(o, r, varied1, k);
        PreflightGrantEntry(o, r, varied2, k);
      }
      EntryExtensional(PreflightHeaders(o, r, once), expected);
    }
  }
}
