/** The /run endpoint, handleRun in main.go: reject what is not a POST with code
    in it, otherwise run the code and answer with a JSON object holding exactly
    one key, "error" or "output". */
module Handler {
  import opened GoStrings
  import opened Runner

  const StatusOK := 200
  const StatusBadRequest := 400
  const StatusMethodNotAllowed := 405

  const TextPlain := "text/plain; charset=utf-8"
  const ApplicationJson := "application/json"

  /** The parts of a request handleRun looks at: the method and the form value
      of "code" ("" when the field is absent). */
  datatype Request = Request(httpMethod: string, code: string)

  /** A response body: the plain text http.Error writes, or a JSON object as a
      list of key and string value. */
  datatype Body = Text(text: string) | Json(fields: seq<(string, string)>)

  datatype Response = Response(status: int, contentType: string, body: Body)

  /** http.Error: the message on its own line as plain text, with the status. */
  function HttpError(message: string, status: int): (resp: Response) {
    Response(status, TextPlain, Text(message + "\n"))
  }

  /** The checks before the runner is called (main.go:211-220): the client
      error to answer with, or None when the request goes to the runner. */
  function Gate(req: Request): (rejection: Option<Response>)
    ensures rejection.None? <==> req.httpMethod == "POST" && req.code != ""
    ensures rejection.Some? ==>
              && rejection.value.body.Text?
              && rejection.value.contentType == TextPlain
              && 400 <= rejection.value.status < 500
              && (rejection.value.status == StatusMethodNotAllowed <==> req.httpMethod != "POST")
              && (rejection.value.status == StatusBadRequest <==> req.httpMethod == "POST")
  {
    if req.httpMethod != "POST" then Some(HttpError("Method not allowed", StatusMethodNotAllowed))
    else if req.code == "" then Some(HttpError("No code provided", StatusBadRequest))
    else None
  }

  /** handleRun (main.go:210-231). A rejected request leaves the machine as it
      was: the runner is not invoked. An admitted one gets a JSON object with
      one key: "error" with the runner's error text when it failed, "output"
      with the assembled output otherwise. */
  method HandleRun(host: Host, req: Request, env: Environment) returns (resp: Response)
    requires host.Valid()
    modifies host
    ensures host.Valid()
    ensures host.live == old(host.live)
    ensures req.httpMethod != "POST" ==>
              resp == HttpError("Method not allowed", StatusMethodNotAllowed) && unchanged(host)
    ensures req.httpMethod == "POST" && req.code == "" ==>
              resp == HttpError("No code provided", StatusBadRequest) && unchanged(host)
    ensures req.httpMethod == "POST" && req.code != "" ==>
              && host.trace == old(host.trace) + Actions(req.code, env, old(host.nextDir))
              && resp.status == StatusOK
              && resp.contentType == ApplicationJson
              && resp.body.Json?
              && |resp.body.fields| == 1
              && (resp.body.fields[0].0 == "error" <==> Failure(env).Some?)
              && resp.body.fields[0] ==
                   match Failure(env)
                   case Some(msg) => ("error", msg)
                   case None => ("output", TrimSpace(Joined(env.goRun.stdout, env.goRun.stderr)))
  {
    var rejection := Gate(req);
    if rejection.Some? {
      return rejection.value;
    }
    var result, err := RunGoCode(host, req.code, env);
    if err.Some? {
      return Response(StatusOK, ApplicationJson, Json([("error", err.value)]));
    }
    resp := Response(StatusOK, ApplicationJson, Json([("output", result)]));
  }
}
