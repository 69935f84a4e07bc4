/** Failure notifications posted to the RevHealth API (and from there to Teams):
    the payload built from the Lambda event and the call's (always true) result. */
module RevHealthNotifications {
  import opened Base

  /** `requestContext.http`; `verb` is its `method` entry. */
  datatype Http = Http(path: string, verb: string)
  datatype RequestContext = RequestContext(domainName: string, http: Http)

  /** The parts of the Lambda event the payload reads. */
  datatype Event = Event(requestContext: RequestContext, headers: map<string, string>)

  /** The Lambda runtime's environment values. */
  datatype LambdaEnv = LambdaEnv(functionName: string, logStreamName: string)

  const BaseKeys: set<string> := {
    "lambda_name", "function_name", "description", "api_domain_name",
    "api_path", "api_method", "status", "log_stream"}

  /** Where the failing request came from: an `origin` header wins, otherwise a
      `postman-token` header means "postman", otherwise it is unknown. */
  function Origin(headers: map<string, string>): (r: Option<string>)
    ensures r.Some? <==> "origin" in headers || "postman-token" in headers
    ensures "origin" in headers ==> r == Some(headers["origin"])
    ensures "origin" !in headers && "postman-token" in headers ==> r == Some("postman")
  {
    if "origin" in headers then Some(headers["origin"])
    else if "postman-token" in headers then Some("postman")
    else None
  }

  /** The notification payload, stated with the origin as a precedence rule. */
  function FailurePayload(event: Event, env: LambdaEnv, functionName: string, description: string): (p: map<string, string>)
    ensures p.Keys == BaseKeys + (if Origin(event.headers).Some? then {"origin"} else {})
    ensures p["status"] == "failed"
    ensures p["function_name"] == functionName && p["description"] == description
    ensures p["lambda_name"] == env.functionName && p["log_stream"] == env.logStreamName
    ensures p["api_domain_name"] == event.requestContext.domainName
    ensures p["api_path"] == event.requestContext.http.path
    ensures p["api_method"] == event.requestContext.http.verb
    ensures Origin(event.headers).Some? ==> p["origin"] == Origin(event.headers).value
  {
    var base := map[
      "lambda_name" := env.functionName,
      "function_name" := functionName,
      "description" := description,
      "api_domain_name" := event.requestContext.domainName,
      "api_path" := event.requestContext.http.path,
      "api_method" := event.requestContext.http.verb,
      "status" := "failed",
      "log_stream" := env.logStreamName];
    match Origin(event.headers)
    case Some(o) => base["origin" := o]
    case None => base
  }

  /** The POST `send_notification` makes. */
  datatype Post = Post(endpoint: string, headers: map<string, string>, json: map<string, string>)

  class Notifications {
    const endpoint: string
    const event: Event
    var payload: Option<map<string, string>>

    constructor (endpoint: string, event: Event)
      ensures this.endpoint == endpoint && this.event == event && payload == None
    {
      this.endpoint := endpoint;
      this.event := event;
      payload := None;
    }

    /** `set_payload`: the base fields, then `origin` set from a `postman-token`
        header and overwritten from an `origin` header. */
    method SetPayload(functionName: string, description: string, env: LambdaEnv)
      modifies this`payload
      ensures payload == Some(FailurePayload(event, env, functionName, description))
    {
      var p := map[
        "lambda_name" := env.functionName,
        "function_name" := functionName,
        "description" := description,
        "api_domain_name" := event.requestContext.domainName,
        "api_path" := event.requestContext.http.path,
        "api_method" := event.requestContext.http.verb,
        "status" := "failed",
        "log_stream" := env.logStreamName];
      ghost var base := p;
      if "postman-token" in event.headers {
        p := p["origin" := "postman"];
      }
      if "origin" in event.headers {
        p := p["origin" := event.headers["origin"]];
        assert p == base["origin" := event.headers["origin"]];
      }
      payload := Some(p);
    }

    /** `send_notification`: rebuilds the payload, posts it, and returns True whether
        or not the post raised. */
    method SendNotification(functionName: string, description: string, env: LambdaEnv, raised: bool)
      returns (ok: bool, post: Post)
      modifies this`payload
      ensures payload == Some(FailurePayload(event, env, functionName, description))
      ensures post == Post(endpoint, map["contentType" := "application/json"], payload.value)
      ensures ok
    {
      SetPayload(functionName, description, env);
      post := Post(endpoint, map["contentType" := "application/json"], payload.value);
      ok := true;
    }
  }
}
