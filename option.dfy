/** The middleware's configuration record, `Options`. */
module CorsOptions {
  import opened Wrappers
  import opened Http

  /**
   * A CORS policy. The slices `AllowedHeader`, `AllowedMethod` and `AllowedOrigin`
   * are only ever read through their contents and length, so nil and empty agree
   * and they are plain sequences; `ExposedHeader` is read only for being nil, so it
   * is an Option (None is nil). `AllowOriginFunc` is an optional predicate on the
   * request and its origin. `debug` only switches diagnostics.
   */
  datatype Options = Options(
    allowedHeader: seq<string>,
    allowedMethod: seq<string>,
    allowedOrigin: seq<string>,
    credentials: bool,
    exposedHeader: Option<seq<string>>,
    maxAge: int,
    preflightPass: bool,
    allowOriginFunc: Option<(Request, string) -> bool>,
    debug: bool)
}
