/** The `/ready` readiness check. It looks only at local configuration:
    whether the runtime client exists and the endpoint name is non-empty. */
module Health {
  import opened Http

  /** The detail of a 503 from `/ready`: a status text and, optionally, the
      text of the exception that caused it. */
  datatype NotReadyDetail = NotReadyDetail(status: string, error: Option<string>)

  datatype ReadyReply =
    | Ready(endpoint: string)
    | NotReady(httpStatus: nat, detail: NotReadyDetail)

  /** What the body of the `try` block does: return the ready body, or
      raise an HTTPException with a status and a detail. */
  datatype TryOutcome =
    | Returned(endpoint: string)
    | Raised(status: nat, detail: NotReadyDetail)

  /** The text of an HTTPException whose detail is the dictionary
      `{"status": <statusText>}`: "<status>: <detail>", with the detail in
      Python's rendering. */
  function ExceptionText(status: nat, statusText: string): string {
    NatToString(status) + ": {'status': '" + statusText + "'}"
  }

  /** The `try` body: it returns the ready body, or raises 503 whose detail
      has no `error` field. */
  function TryReady(clientPresent: bool, endpointName: string): (t: TryOutcome)
    ensures t.Returned? <==> clientPresent && endpointName != ""
    ensures t.Returned? ==> t.endpoint == endpointName
    ensures t.Raised? ==> t.status == 503 && t.detail.status == "not ready" && t.detail.error.None?
  {
    if clientPresent && endpointName != "" then Returned(endpointName)
    else Raised(503, NotReadyDetail("not ready", None))
  }

  /** `ready()`: the exception raised inside the `try` is itself caught by
      `except Exception` and raised again with the inner exception's text
      as the `error` field. */
  function ReadyCheck(clientPresent: bool, endpointName: string): (r: ReadyReply)
    ensures r.Ready? <==> clientPresent && endpointName != ""
    ensures r.Ready? ==> r.endpoint == endpointName
    ensures r.NotReady? ==>
      r.httpStatus == 503 && r.detail.status == "not ready" && r.detail.error.Some? &&
      r.detail.error.value == ExceptionText(503, "not ready")
  {
    match TryReady(clientPresent, endpointName)
    case Returned(endpoint) => Ready(endpoint)
    case Raised(status, detail) => NotReady(503, NotReadyDetail("not ready", Some(ExceptionText(status, detail.status))))
  }
}
