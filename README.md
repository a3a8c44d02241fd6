# CORS middleware: a verified model of its decision engine

This project models the CORS (Cross-Origin Resource Sharing) middleware of a small Go
HTTP library, and proves properties of that model. The core is `Cors`, which holds an
`Options` policy. For each request it does three things:

- it decides whether the request is a preflight (an `OPTIONS` probe that carries
  `Access-Control-Request-Method` and `Origin`) or an actual request;
- it runs the matching handler, which changes the response's header map in place:
  it first appends to `Vary`, then runs a fixed chain of checks that return early,
  and on success writes the `Access-Control-Allow-*` headers;
- it then calls the next handler, or ends a preflight with status 204.

Files and modules:

- `wrappers.dfy` (`Wrappers`): the `Option` datatype. It stands for Go's nil slices,
  nil function values and a status that was never written.
- `http.dfy` (`Http`): the part of `net/http` the middleware uses. It has the header
  map `map<string, seq<string>>`, a `Request` value (method and header map),
  `Header.Get` ("the first value, or empty"), and a `ResponseWriter` class. That class
  holds the mutable header map and the status written by `WriteHeader`.
- `strings.dfy` (`Strings`): ASCII `ToUpper`/`ToLower`, and a decimal rendering of
  naturals that stands in for `utils.IntToString`.
- `utils.dfy` (`Utils`): `HandleSlice` is a method that fills a fresh array in a loop,
  specified by the function `MapSeq`. `ContainerOtherAll` is a loop with an early
  return, specified by the predicate `AllIn`. `GetHeaderFirst` is a function.
- `option.dfy` (`CorsOptions`): the `Options` record of `internal/middlewire/cors/option.go:5-23`.
- `cors.dfy` (`Cors`): this module has two halves.
  - The pure half is the decision written as functions: `IsPreflight`,
    `IsAllowedMethod`, `IsAllowedOrigin`, `PreflightVerdict`/`ActualVerdict` (the first
    check that fails, in the code's order), `PreflightHeaders`/`ActualHeaders` (the
    header map each handler leaves, as a function of the one it found), and `Dispatch`.
    `DefaultOptions` is the policy that `Default()` builds.
  - The imperative half is the class `Cors`. Its methods `HandlePreflight`,
    `HandleActualRequest` and `ServeHTTP` follow the Go code statement by statement,
    and each is proved to leave exactly the state the matching function describes.
- `cors_properties.dfy` (`CorsProperties`): the guarantees, as lemmas over those functions.
- `cors_examples.dfy` (`CorsExamples`): concrete requests against concrete policies.

The model follows the code as written, including two behaviours that differ from the
CORS protocol (section 3.2 of the WHATWG Fetch Standard):

- **Request-headers check.** The preflight check on `Access-Control-Request-Headers` is
  inverted. The handler aborts when the first raw value IS in `AllowedHeader`, and
  goes on when it is not. The value is never split on commas and is compared
  case-sensitively.
- **Allow-Origin value.** `Access-Control-Allow-Origin` is `["*"]` for a wildcard
  list. Otherwise it is the whole configured `AllowedOrigin` list, never the
  request's own origin.

The CORS protocol expects the requested headers to be a case-insensitive subset of the
allowed headers, and methods to be matched without regard to case. The code does
neither. `isAllowedMethod` upper-cases only the
request's method, so a configured entry that holds a lower-case letter never matches.
The model follows the code. `CorsExamples.RequestHeadersExample`,
`CorsExamples.DefaultRejectsListedRequestHeader` and
`CorsExamples.MethodMatchingExample` pin these behaviours.

## Model

| member | source | states |
|---|---|---|
| `Http.Get` | internal/middlewire/cors/cors.go:55 | `Header.Get` gives the first stored value when the key holds one. It gives "" for an absent key or an empty list. A non-empty result means the key is present with a non-empty list. |
| `Strings.ToUpper` | internal/middlewire/cors/cors.go:191 | Upper-casing keeps the length. It raises each ASCII lower-case letter, keeps every other character, and leaves no lower-case letter. |
| `Strings.ToLower` | internal/middlewire/cors/cors.go:203 | Lower-casing keeps the length. It lowers each ASCII upper-case letter, keeps every other character, and leaves no upper-case letter. |
| `Strings.ToUpperNeverHasLower` | internal/middlewire/cors/cors.go:191-192 | A string that contains a lower-case letter is never the upper-casing of any string. |
| `Strings.NatToDecimal` | internal/middlewire/cors/cors.go:98 | The rendering of a natural has at least one character, all of them decimal digits. It has no leading zero unless the number is 0. |
| `Strings.DecimalRoundTrip` | internal/middlewire/cors/cors.go:98 | Reading the rendering back as a decimal number gives the original number. |
| `Utils.MapSeq` | utils/handleslice.go:5-11 | Mapping keeps the length, and element i of the result is `fn` applied to input element i. |
| `Utils.MapSeqMember` | utils/handleslice.go:7-9 | A value is in the mapped sequence exactly when it is `fn` of some input element (both directions). |
| `Utils.HandleSlice` | utils/handleslice.go:5-11 | The result is a freshly allocated array, so it never aliases the input. It has the input's length, and element i is `fn(slice[i])`. The input is not in the frame, so it is unchanged. |
| `Utils.ContainerOtherAll` | utils/handleslice.go:14-21 | The result is true exactly when every element of `st` is in `so` (so true for an empty `st`). It is false exactly when some element of `st` is missing from `so` while all earlier elements are present, which is where the loop returns early. |
| `Utils.GetHeaderFirst` | utils/getHeaderFirst.go:6-12 | The lookup uses the exact key. "Not found" holds exactly when the key is absent or its list is empty, and then the values are empty. Otherwise the values are the one-element list of the first stored value. |
| `Utils.GetHeaderFirstAgreesWithGet` | utils/getHeaderFirst.go:7-11 | When found, the one value is `Header.Get` of the key. When not found, `Header.Get` is "". A non-empty `Header.Get` implies found. |
| `CorsOptions.Options` | internal/middlewire/cors/option.go:5-23 | The policy record: three string lists, the credentials flag, an expose list that may be nil, the max-age, the pass-through flag, an optional origin predicate and the debug flag. |
| `Http.ResponseWriter.WriteHeader` | internal/middlewire/cors/cors.go:43 | Writing a status records that code and leaves the header map as it is. |
| `Cors.IsPreflight` | internal/middlewire/cors/cors.go:155 | A request is a preflight exactly when its method is "OPTIONS", and the raw header map holds a non-empty first value under both Access-Control-Request-Method and Origin. |
| `Cors.IsAllowedMethod` | internal/middlewire/cors/cors.go:190-193 | A method is allowed exactly when some configured entry equals its upper-casing. The entry that matches then holds no lower-case letter. |
| `Cors.IsAllowedOrigin` | internal/middlewire/cors/cors.go:196-206 | A configured AllowOriginFunc alone decides. Without one, a list whose first entry is "*" admits every origin. Otherwise an origin is allowed exactly when some listed origin equals it after both are lower-cased. |
| `Cors.RequestHeadersRejected` | internal/middlewire/cors/cors.go:77-81 | The header check aborts exactly when Access-Control-Request-Headers is present with a non-empty list and its first raw value is an exact (case-sensitive) member of AllowedHeader. |
| `Cors.PreflightVerdict` | internal/middlewire/cors/cors.go:56-89 | The preflight handler stops before Vary exactly for a non-OPTIONS method. It grants exactly when all of these hold: the method is OPTIONS, the origin is non-empty and allowed, the requested method is allowed, the header check does not abort, and AllowedOrigin is non-empty. |
| `Cors.ActualVerdict` | internal/middlewire/cors/cors.go:121-140 | The actual handler never stops on the method guard or the header check. It grants exactly when the origin is non-empty and allowed, the request's own method is allowed, and AllowedOrigin is non-empty. |
| `Cors.PreflightHeaders` | internal/middlewire/cors/cors.go:53-106 | Past the OPTIONS guard, the old Vary values are kept as a prefix and the single three-name element is appended, whatever the later checks decide. A non-OPTIONS request changes nothing. |
| `Cors.ActualHeaders` | internal/middlewire/cors/cors.go:108-145 | The old Vary values are kept as a prefix and "Origin" is appended, whatever the later checks decide. |
| `Cors.Dispatch` | internal/middlewire/cors/cors.go:154-169 | Exactly one of two things happens: `next` is called, or a status is written. A written status is always 204, and only for a preflight. Vary gains the three-name element exactly for preflights and "Origin" for every other request. |
| `Cors.DefaultOptions` | internal/middlewire/cors/cors.go:178-186 | The default policy admits every origin. It admits a method exactly when its upper-casing is GET, POST, PUT, DELETE or OPTIONS. It rejects a preflight exactly when the first requested header is "Content-Type" or "Authorization". Allow-Origin is ["*"], credentials are on, the expose list is non-nil, Max-Age renders as "0", and preflights are answered with 204. |
| `Cors.Cors.constructor` | internal/middlewire/cors/cors.go:24-32 | `NewCors` keeps the given policy. The preflight Vary list is the one element "Origin, Access-Control-Request-Method, Access-Control-Request-Headers". |
| `Cors.Cors.HandlePreflight` | internal/middlewire/cors/cors.go:53-106 | The in-place, step-by-step handler leaves exactly the header map `PreflightHeaders` gives for the old one, and it leaves the status alone. |
| `Cors.Cors.HandleActualRequest` | internal/middlewire/cors/cors.go:108-145 | The in-place handler leaves exactly the header map `ActualHeaders` gives for the old one, and it leaves the status alone. |
| `Cors.Cors.ServeHTTP` | internal/middlewire/cors/cors.go:154-169 | The header map, the report of whether `next` was called, and the status are exactly those of `Dispatch`. The status is unchanged when `Dispatch` writes none. |
| `Cors.Default` | internal/middlewire/cors/cors.go:177-188 | A freshly built middleware whose policy is `DefaultOptions`. |
| `CorsProperties.DispatchContinuation` | internal/middlewire/cors/cors.go:34-51 | A preflight gets the preflight header rules and anything else gets the actual ones. An actual request always calls `next` and writes no status. A preflight with PreflightPass calls `next` and writes no status. Without PreflightPass it writes 204 and does not call `next`. |
| `CorsProperties.PreflightRejectionChangesOnlyVary` | internal/middlewire/cors/cors.go:65-89 | A rejected preflight leaves the old map with only Vary extended. Every other key keeps its entry. |
| `CorsProperties.ActualRejectionChangesOnlyVary` | internal/middlewire/cors/cors.go:121-140 | A rejected actual request leaves the old map with only Vary extended. Every other key keeps its entry. |
| `CorsProperties.EmptyOriginNeverAllowed` | internal/middlewire/cors/cors.go:65-68 | An empty Origin never changes Access-Control-Allow-Origin: not in either handler and not through dispatch. |
| `CorsProperties.PreflightGrantedHeaders` | internal/middlewire/cors/cors.go:82-104 | On a granted preflight: Allow-Origin is ["*"] for a wildcard list, else the whole AllowedOrigin list. Allow-Methods is the request's whole Access-Control-Request-Method list. Allow-Headers is the request's whole Access-Control-Request-Headers list exactly when its first value is non-empty, and is left alone otherwise. Allow-Credentials is ["true"] with credentials and is left alone otherwise. Max-Age is always written. Expose-Headers is the request's own list exactly when ExposedHeader is non-nil. Every other key is untouched. |
| `CorsProperties.ActualGrantedHeaders` | internal/middlewire/cors/cors.go:133-143 | On a granted actual request, Allow-Origin is ["*"] or the whole list, and Allow-Credentials is ["true"] exactly with credentials. Only Vary, Allow-Origin and Allow-Credentials can change. |
| `CorsProperties.ActualNeverWritesPreflightKeys` | internal/middlewire/cors/cors.go:108-145 | An actual request, granted or not, never changes Allow-Methods, Allow-Headers, Max-Age or Expose-Headers. |
| `CorsProperties.CredentialsOffNeverWritten` | internal/middlewire/cors/cors.go:94-96 | Without credentials, Allow-Credentials is never written: not by either handler and not through dispatch. |
| `CorsProperties.ExposedContentsIgnored` | internal/middlewire/cors/cors.go:102-104 | Any two non-nil ExposedHeader lists give the same preflight headers. The actual path does not depend on ExposedHeader at all. |
| `CorsProperties.MaxAgeRendering` | internal/middlewire/cors/cors.go:97-101 | Max-Age is the decimal rendering of MaxAge when it is positive and "0" otherwise. It reads back as max(MaxAge, 0). |
| `CorsProperties.OriginCaseInsensitive` | internal/middlewire/cors/cors.go:200-205 | With no custom predicate, two origins that agree after lower-casing get the same decision. |
| `CorsProperties.OriginFuncDecides` | internal/middlewire/cors/option.go:15-17 | With a configured AllowOriginFunc, changing AllowedOrigin does not change the origin decision. An empty AllowedOrigin still rejects on both paths and leaves Allow-Origin unwritten. |
| `CorsProperties.MethodCaseInsensitive` | internal/middlewire/cors/cors.go:190-193 | Two methods that agree after upper-casing get the same decision. |
| `CorsProperties.LowerCaseMethodEntryNeverMatches` | internal/middlewire/cors/cors.go:190-193 | Configured methods are not folded. An entry holding a lower-case letter never equals an upper-cased method, so any match comes from another entry. |
| `CorsProperties.RepeatedActualAccumulatesVary` | internal/middlewire/cors/cors.go:108-145 | Running the actual handler twice leaves the same map as running it once, except that Vary carries a second "Origin". |
| `CorsProperties.RepeatedPreflightAccumulatesVary` | internal/middlewire/cors/cors.go:53-106 | For an OPTIONS request, running the preflight handler twice leaves the same map as running it once, except that Vary carries the three-name element twice. |
| `CorsExamples.OriginMatchingExample` | internal/middlewire/cors/cors.go:203-205 | Against ["https://a.com"], "https://A.COM" is allowed and "https://b.com" is not. |
| `CorsExamples.WildcardExample` | internal/middlewire/cors/cors.go:133-134 | With ["*"], the origin "https://evil.example" gets Allow-Origin ["*"]. |
| `CorsExamples.MethodMatchingExample` | internal/middlewire/cors/cors.go:190-193 | ["get"] admits neither "get" nor "GET". ["GET"] admits "get". |
| `CorsExamples.RequestHeadersExample` | internal/middlewire/cors/cors.go:77-81 | "X-Foo" passes against ["Content-Type"] and aborts against ["X-Foo", "Content-Type"]. The unsplit value "X-Foo, Content-Type" passes against ["X-Foo", "Content-Type"]. |
| `CorsExamples.MaxAgeExample` | internal/middlewire/cors/cors.go:97-101 | MaxAge 600 renders as "600". MaxAge 0 and MaxAge -5 render as "0". |
| `CorsExamples.AllowOriginIsWholeList` | internal/middlewire/cors/cors.go:133-136 | An actual request from "https://B.com" against ["https://a.com", "https://b.com"] is granted, and it receives the whole two-element list. |
| `CorsExamples.DefaultRejectsListedRequestHeader` | internal/middlewire/cors/cors.go:177-188 | Under the default policy, a preflight that asks for "Content-Type" (a listed header) is aborted by the header check. |
| `CorsExamples.DefaultGrantsSimplePreflight` | internal/middlewire/cors/cors.go:177-188 | Under the default policy, a preflight for "get" from any non-empty origin gets these results: status 204, no `next`, Allow-Origin ["*"], Allow-Methods ["get"], no Allow-Headers, Allow-Credentials ["true"], Max-Age ["0"], and an empty Expose-Headers list. |

## Left out

- Logging (`logf`, `DeBug`, `Logger`, `SetLog`, the logger defaulting in `NewCors`) is left out. It is diagnostic output that never affects control flow. The `debug` field is kept in `Options` but nothing reads it.
- extensions.go (the Gin adapter and the buffering response wrapper) and main.go (server start-up) are not part of this model.
- `utils.IntToString` is not part of this model. Max-Age uses `Strings.NatToDecimal`, the standard decimal rendering, and assumes that this is what `IntToString` returns for a positive `int`.
- Go's `int` is modelled as an unbounded integer. `MaxAge` never overflows here.
- `strings.ToUpper`/`strings.ToLower` are modelled as ASCII case maps. Unicode case mapping (including characters whose case forms differ in length) is not modelled.
- `AllowOriginFunc` is an opaque, total and deterministic predicate. It sees only the request's method and header map, not the whole `*http.Request` (URL, body, context). What a user-supplied body does (side effects, panics, state) is not modelled. `CorsProperties.RepeatedActualAccumulatesVary` and `CorsProperties.RepeatedPreflightAccumulatesVary` rely on this: a stateful Go predicate could answer differently on the second run.
- The next handler is not run. `ServeHTTP` reports whether it was called, and what it would write to the response is not modelled. `Handler` and `ServeHTTP` run the same body, so the model has one method, `ServeHTTP`.
- `Cors.Cors.HandlePreflight` and `Cors.Cors.HandleActualRequest`: Go edits the response's map through the alias `header := w.Header()`. The model copies the map into a local variable, edits that, and stores it back into the writer before every return. Slices that Go stores into the response by reference are modelled as values, so the aliasing they create is not modelled. These are the configured `AllowedOrigin` slice (cors.go:85 and cors.go:136), the middleware's shared `preflightVary` slice (cors.go:63), and the request's own Access-Control-Request-Method, Access-Control-Request-Headers and Access-Control-Expose-Headers slices (cors.go:90, 92 and 103). In Go, a later `append` or in-place edit through one of them can show up in the other.
- Go's nil slices and empty slices are not told apart in header maps. A request key that is absent reads as the empty list, so a preflight written with an absent `Access-Control-Expose-Headers` stores an empty list under that key.
- `WriteHeader` records the last status written. net/http's rule that only the first call takes effect is not modelled; the middleware calls it at most once.
- `net/http` key canonicalisation (`Header.Set`, `Header.Get`) is taken as the identity. The middleware only uses canonical literal keys.
- Concurrency and re-entrancy are not modelled. Nothing in the code enforces them.
