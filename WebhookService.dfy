/** The webhook execution endpoints (WebhookService.java). All three take the
    header map and the query map and declare no body; the installation id comes
    before the webhook id in every path. The annotations of the last two start
    with "/", which leaves the path relative to the host root, as the base URL
    has no path of its own. */
module WebhookService {
  import opened Base
  import opened Http

  datatype Call =
    | FindExecutionLogs(installationId: string, webhookId: string)
    | FetchExecutionLog(installationId: string, webhookId: string, executionId: string)
    | RetryExecution(installationId: string, webhookId: string, executionId: string)

  /** The request each interface method describes. */
  function Endpoint(c: Call, headers: map<string, string>, params: map<string, Value>): (r: RequestSpec)
    ensures r.headers == headers && r.query == Some(params) && r.body == None
    ensures r.verb == if c.RetryExecution? then POST else GET
    ensures |r.path| >= 5
    ensures r.path[..5] == [Lit("installations"), Param("installationId", Some(c.installationId)),
                            Lit("webhooks"), Param("webhookId", Some(c.webhookId)), Lit("executions")]
    ensures !c.FindExecutionLogs? ==> |r.path| >= 6 && r.path[5] == Param("executionId", Some(c.executionId))
  {
    var executions := [Lit("installations"), Param("installationId", Some(c.installationId)),
                       Lit("webhooks"), Param("webhookId", Some(c.webhookId)), Lit("executions")];
    match c
    case FindExecutionLogs(_, _) =>
      RequestSpec(GET, executions, headers, Some(params), None)
    case FetchExecutionLog(_, _, executionId) =>
      RequestSpec(GET, executions + [Param("executionId", Some(executionId))], headers, Some(params), None)
    case RetryExecution(_, _, executionId) =>
      RequestSpec(POST, executions + [Param("executionId", Some(executionId)), Lit("retry")],
                  headers, Some(params), None)
  }

  /** With slash-free ids, the URL segments are installations/{installationId}/
      webhooks/{webhookId}/executions, then the execution id, then "retry". */
  lemma {:induction false} ExecutionSegments(c: Call, headers: map<string, string>, params: map<string, Value>)
    requires NoSlash(c.installationId) && NoSlash(c.webhookId)
    requires !c.FindExecutionLogs? ==> NoSlash(c.executionId)
    ensures PathSegments(Endpoint(c, headers, params).path) == Some(
      ["installations", c.installationId, "webhooks", c.webhookId, "executions"] +
      match c
      case FindExecutionLogs(_, _) => []
      case FetchExecutionLog(_, _, e) => [e]
      case RetryExecution(_, _, e) => [e, "retry"])
  {
    var path := Endpoint(c, headers, params).path;
    var base := ["installations", c.installationId, "webhooks", c.webhookId, "executions"];
    var words := match c
      case FindExecutionLogs(_, _) => base
      case FetchExecutionLog(_, _, e) => base + [e]
      case RetryExecution(_, _, e) => base + [e, "retry"];
    assert |path| == |words|;
    forall i | 0 <= i < |path| ensures TextOf(path[i]) == Some(words[i]) && NoSlash(words[i]) {
      if i < 5 { assert path[i] == path[..5][i]; }
    }
    assert Texts(path) == words;
    PathSegmentsOfWords(path);
    match c
    case FindExecutionLogs(_, _) => assert words == base + [];
    case FetchExecutionLog(_, _, e) =>
    case RetryExecution(_, _, e) =>
  }
}
