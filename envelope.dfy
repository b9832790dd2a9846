/** `_response`: the envelope every return of the handler goes through, and the
    bodies the handler builds. */
module Envelope {
  import opened Common
  import opened Snapshots

  const TimeoutError: string := "Timed out waiting for instance_status_ok"

  /** The JSON bodies the handler returns, one constructor per distinct dictionary shape. */
  datatype Body =
    | MissingInstanceId   // {"ok": false, "error": "Missing INSTANCE_ID"}
    | Unauthorized        // {"ok": false, "error": "Unauthorized"}
    | Rebooted(region: string, instanceId: string, before: Snapshot, beforeChecks: Checks,
               after: Snapshot, afterChecks: Checks)
    // `afterRead` and `afterChecksRead` are None where the source leaves `{}`
    | TimedOut(region: string, instanceId: string, afterRead: Option<Snapshot>,
               afterChecksRead: Option<Checks>, details: string)
    | Failed(error: string, region: string, instanceId: string)
  {
    /** The body's "ok" field. */
    predicate Ok() {
      Rebooted?
    }

    /** The body's "error" field, absent on success. */
    function ErrorField(): Option<string> {
      match this
      case MissingInstanceId => Some("Missing INSTANCE_ID")
      case Unauthorized => Some("Unauthorized")
      case Rebooted(_, _, _, _, _, _) => None
      case TimedOut(_, _, _, _, _) => Some(TimeoutError)
      case Failed(e, _, _) => Some(e)
    }

    /** The body's "action" field, present on success only. */
    function Action(): Option<string> {
      if Rebooted? then Some("reboot") else None
    }
  }

  const JsonHeaders: map<string, string> := map["Content-Type" := "application/json"]

  datatype Response = Response(statusCode: int, headers: map<string, string>, body: Body)

  /** `_response`: the status code and body as given, under the JSON content type. */
  function MakeResponse(statusCode: int, body: Body): (r: Response)
    ensures r.statusCode == statusCode && r.body == body
    ensures r.headers.Keys == {"Content-Type"} && r.headers["Content-Type"] == "application/json"
  {
    Response(statusCode, JsonHeaders, body)
  }
}
