/** The webhook execution-log request builder (Webhook.java). */
module Webhooks {
  import opened Base
  import opened Http
  import opened Constants
  import WebhookService

  const INSTALLATION_UID_REQUIRED := "installation uid is required"

  class Webhook {
    var headers: map<string, string>
    var params: map<string, Value>
    /** Not final in the source, though nothing reassigns it. */
    var webhookId: string
    /** Stored as given; checked by every request. */
    const installationId: Option<string>

    /** `new Webhook(client, organizationUid, webhookId, installationId)`: no check. */
    constructor (organizationUid: string, webhookId: string, installationId: Option<string>)
      ensures headers == map[ORGANIZATION_UID := organizationUid] && params == map[]
      ensures this.webhookId == webhookId && this.installationId == installationId
    {
      headers := map[ORGANIZATION_UID := organizationUid];
      params := map[];
      this.webhookId := webhookId;
      this.installationId := installationId;
    }

    /** GET installations/{installationId}/webhooks/{webhookId}/executions with
        the headers and the params. */
    method FindExecutionLogs() returns (r: Result<RequestSpec>)
      ensures installationId.None? ==> r == Failure(NullPointerException(Some(INSTALLATION_UID_REQUIRED)))
      ensures installationId.Some? ==> r == Success(RequestSpec(GET,
        [Lit("installations"), Param("installationId", installationId), Lit("webhooks"),
         Param("webhookId", Some(webhookId)), Lit("executions")],
        headers, Some(params), None))
    {
      if installationId.None? {
        return Failure(NullPointerException(Some(INSTALLATION_UID_REQUIRED)));
      }
      var spec := WebhookService.Endpoint(WebhookService.FindExecutionLogs(installationId.value, webhookId),
                                          headers, params);
      return Success(spec);
    }

    /** GET .../executions/{executionId} with the headers and the params. */
    method FetchExecutionLogs(executionId: string) returns (r: Result<RequestSpec>)
      ensures installationId.None? ==> r == Failure(NullPointerException(Some(INSTALLATION_UID_REQUIRED)))
      ensures installationId.Some? ==> r == Success(RequestSpec(GET,
        [Lit("installations"), Param("installationId", installationId), Lit("webhooks"),
         Param("webhookId", Some(webhookId)), Lit("executions"), Param("executionId", Some(executionId))],
        headers, Some(params), None))
    {
      if installationId.None? {
        return Failure(NullPointerException(Some(INSTALLATION_UID_REQUIRED)));
      }
      var spec := WebhookService.Endpoint(
        WebhookService.FetchExecutionLog(installationId.value, webhookId, executionId), headers, params);
      assert spec.path == [Lit("installations"), Param("installationId", installationId), Lit("webhooks"),
         Param("webhookId", Some(webhookId)), Lit("executions"), Param("executionId", Some(executionId))];
      return Success(spec);
    }

    /** POST .../executions/{executionId}/retry with the headers and the params. */
    method RetryExecution(executionId: string) returns (r: Result<RequestSpec>)
      ensures installationId.None? ==> r == Failure(NullPointerException(Some(INSTALLATION_UID_REQUIRED)))
      ensures installationId.Some? ==> r == Success(RequestSpec(POST,
        [Lit("installations"), Param("installationId", installationId), Lit("webhooks"),
         Param("webhookId", Some(webhookId)), Lit("executions"), Param("executionId", Some(executionId)),
         Lit("retry")],
        headers, Some(params), None))
    {
      if installationId.None? {
        return Failure(NullPointerException(Some(INSTALLATION_UID_REQUIRED)));
      }
      var spec := WebhookService.Endpoint(
        WebhookService.RetryExecution(installationId.value, webhookId, executionId), headers, params);
      assert spec.path == [Lit("installations"), Param("installationId", installationId), Lit("webhooks"),
         Param("webhookId", Some(webhookId)), Lit("executions"), Param("executionId", Some(executionId)),
         Lit("retry")];
      return Success(spec);
    }

    method AddParam(key: string, value: Value) returns (self: Webhook)
      modifies this`params
      ensures self == this && params == Put(old(params), key, value)
    {
      params := Put(params, key, value);
      return this;
    }

    method AddHeader(key: string, value: string) returns (self: Webhook)
      modifies this`headers
      ensures self == this && headers == Put(old(headers), key, value)
    {
      headers := Put(headers, key, value);
      return this;
    }

    method AddParams(other: map<string, Value>) returns (self: Webhook)
      modifies this`params
      ensures self == this && params == PutAll(old(params), other)
    {
      params := PutAll(params, other);
      return this;
    }

    method AddHeaders(other: map<string, string>) returns (self: Webhook)
      modifies this`headers
      ensures self == this && headers == PutAll(old(headers), other)
    {
      headers := PutAll(headers, other);
      return this;
    }
  }
}
