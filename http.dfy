/**
 * The part of Go's net/http that the CORS middleware touches: a header map from
 * canonical key to its list of values, a parsed request, `Header.Get`, and a
 * response writer whose header map and status the middleware changes in place.
 * Keys are the canonical literals the middleware uses, so key canonicalisation
 * is the identity here.
 */
module Http {
  import opened Wrappers

  type Header = map<string, seq<string>>

  /** An inbound request: its method (`Method`) and its header map. */
  datatype Request = Request(requestMethod: string, header: Header)

  const MethodOptions: string := "OPTIONS"
  const StatusNoContent: int := 204

  /** Go's `h[key]`: the stored value list, or the nil slice (empty) for an absent key. */
  function Values(h: Header, key: string): seq<string>
  {
    if key in h then h[key] else []
  }

  /** Go's `Header.Get(key)`: the first stored value, or "" when the key is absent or has no values. */
  function Get(h: Header, key: string): (v: string)
    ensures key in h && |h[key]| > 0 ==> v == h[key][0]
    ensures (key !in h || h[key] == []) ==> v == ""
    ensures v != "" ==> key in h && |h[key]| > 0
  {
    if key in h && |h[key]| > 0 then h[key][0] else ""
  }

  /** The entry a header map holds for a key, if any (a written key with a nil value is `Some([])`). */
  function Entry(h: Header, key: string): Option<seq<string>>
  {
    if key in h then Some(h[key]) else None
  }

  /**
   * The response side of a handler: the header map returned by `Header()`, which
   * handlers change in place, and the status code passed to `WriteHeader`, if any.
   */
  class ResponseWriter {
    var header: Header
    var status: Option<int>

    constructor (header: Header)
      ensures this.header == header && status == None
    {
      this.header := header;
      status := None;
    }

    /** `WriteHeader(code)`: records the status; the header map is left as it is. */
    method WriteHeader(code: int)
      modifies this
      ensures status == Some(code)
      ensures header == old(header)
    {
      status := Some(code);
    }
  }
}
