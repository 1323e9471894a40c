/**
 * What the resilient-request layer (src/interceptor/api.ts) sees of a
 * request and of its failure: the request config with the `_retry` and
 * `_priority` extensions, an Axios error or a plain `Error`, and the reply
 * of the transport for one call.
 */
module Http {
  import opened Wrappers

  /** `ExtendedAxiosRequestConfig`: `_retry` absent reads as false. */
  datatype Config = Config(url: Option<string>, httpMethod: Option<string>, retry: bool, priority: Option<string>)

  datatype Response = Response(status: int)

  /**
   * A rejection reason: an `AxiosError` (its config, the status of its
   * response if there was one, its `code`) or a plain `new Error(message)`,
   * which has neither config nor response.
   */
  datatype Failure =
    | AxiosError(config: Option<Config>, status: Option<int>, code: Option<string>)
    | Plain(message: string)

  function ConfigOf(e: Failure): Option<Config> {
    if e.AxiosError? then e.config else None
  }

  function StatusOf(e: Failure): Option<int> {
    if e.AxiosError? then e.status else None
  }

  function CodeOf(e: Failure): Option<string> {
    if e.AxiosError? then e.code else None
  }

  /** What the transport answers for one call: a response, or a failure with an optional status and error code. */
  datatype Reply = Delivered(response: Response) | Failed(status: Option<int>, code: Option<string>)

  /** How a promise for a response settles. */
  datatype Outcome = Ok(response: Response) | Err(error: Failure)

  /** A call issued with `config`: a failed reply becomes an `AxiosError` carrying that config. */
  function Answer(reply: Reply, config: Config): (o: Outcome)
    ensures o.Err? ==> o.error.AxiosError? && o.error.config == Some(config)
    ensures reply.Delivered? <==> o.Ok?
    ensures reply.Delivered? ==> o == Ok(reply.response)
  {
    match reply
    case Delivered(r) => Ok(r)
    case Failed(status, code) => Err(AxiosError(Some(config), status, code))
  }

  /** `{ ...config, _retry: true }`. */
  function Retried(config: Config): Config {
    config.(retry := true)
  }
}
