/** The hosting/deployment request builder of one app (Hosting.java). */
module Hostings {
  import opened Base
  import opened Http
  import opened Constants
  import HostingService

  const APP_ID_REQUIRED := "app id/manifest uid is required"
  const URL_REQUIRED := "Url is required to upload the file"
  const DEPLOYMENT_ID_REQUIRED := "deploymentId is required to get deployment"

  class Hosting {
    var headers: map<string, string>
    var params: map<string, Value>
    /** Final and checked non-null by the constructor, so the later
        `requireNonNull(this.appId, ...)` guards can never fire. */
    const appId: string

    /** The field assignments of the constructor, once both checks passed. */
    constructor Init(organizationId: string, appId: string)
      ensures this.appId == appId
      ensures headers == map[ORGANIZATION_UID := organizationId] && params == map[]
    {
      this.appId := appId;
      headers := map[ORGANIZATION_UID := organizationId];
      params := map[];
    }

    /** `new Hosting(client, organizationId, appId)`: the app id is checked
        first, then the organisation id. */
    static method New(organizationId: Option<string>, appId: Option<string>) returns (r: Result<Hosting>)
      ensures appId.None? ==> r == Failure(NullPointerException(Some(APP_ID_REQUIRED)))
      ensures appId.Some? && organizationId.None? ==> r == Failure(NullPointerException(Some(ERROR_NO_ORGANIZATION_UID)))
      ensures r.Success? <==> appId.Some? && organizationId.Some?
      ensures r.Success? ==> && fresh(r.value) && r.value.appId == appId.value
                             && r.value.headers == map[ORGANIZATION_UID := organizationId.value]
                             && r.value.params == map[]
    {
      if appId.None? {
        return Failure(NullPointerException(Some(APP_ID_REQUIRED)));
      }
      if organizationId.None? {
        return Failure(NullPointerException(Some(ERROR_NO_ORGANIZATION_UID)));
      }
      var h := new Hosting.Init(organizationId.value, appId.value);
      return Success(h);
    }

    /** GET manifests/{uid}/hosting with the headers and the params. */
    method FetchHosting() returns (r: RequestSpec)
      ensures r == RequestSpec(GET, [Lit("manifests"), Param("uid", Some(appId)), Lit("hosting")],
                               headers, Some(params), None)
    {
      r := HostingService.Endpoint(HostingService.GetHosting(Some(appId)), headers, params);
    }

    /** POST manifests/{uid}/hosting/signedUploadUrl with the headers only. */
    method CreateSignedUploadUrl() returns (r: RequestSpec)
      ensures r.verb == POST && r.headers == headers && r.query == None && r.body == None
      ensures r.path == [Lit("manifests"), Param("uid", Some(appId)), Lit("hosting"), Lit("signedUploadUrl")]
    {
      r := HostingService.Endpoint(HostingService.SignedUploadUrl(Some(appId)), headers, params);
    }

    /** POST to the given url itself, with the headers and the params; a null
        url is refused. */
    method UploadFile(url: Option<string>) returns (r: Result<RequestSpec>)
      ensures url.None? ==> r == Failure(NullPointerException(Some(URL_REQUIRED)))
      ensures url.Some? ==> r == Success(RequestSpec(POST, [Url(url.value)], headers, Some(params), None))
    {
      if url.None? {
        return Failure(NullPointerException(Some(URL_REQUIRED)));
      }
      r := Success(HostingService.Endpoint(HostingService.UploadFile(url.value), headers, params));
    }

    /** POST manifests/{appId}/hosting/deployments with the headers, the params
        and the body. */
    method CreateDeployment(body: JsonBody) returns (r: RequestSpec)
      ensures r == RequestSpec(POST, [Lit("manifests"), Param("appId", Some(appId)), Lit("hosting"), Lit("deployments")],
                               headers, Some(params), Some(body))
    {
      r := HostingService.Endpoint(HostingService.CreateDeployments(Some(appId), body), headers, params);
    }

    /** GET manifests/{appId}/hosting/deployments with the headers and the params. */
    method FindDeployments() returns (r: RequestSpec)
      ensures r == RequestSpec(GET, [Lit("manifests"), Param("appId", Some(appId)), Lit("hosting"), Lit("deployments")],
                               headers, Some(params), None)
    {
      r := HostingService.Endpoint(HostingService.FindDeployments(Some(appId)), headers, params);
    }

    /** GET manifests/{appId}/hosting/deployments/{deploymentId}; a null
        deployment id is refused. */
    method FetchDeployment(deploymentId: Option<string>) returns (r: Result<RequestSpec>)
      ensures deploymentId.None? ==> r == Failure(NullPointerException(Some(DEPLOYMENT_ID_REQUIRED)))
      ensures deploymentId.Some? ==> r == Success(RequestSpec(GET,
        [Lit("manifests"), Param("appId", Some(appId)), Lit("hosting"), Lit("deployments"), Param("deploymentId", deploymentId)],
        headers, Some(params), None))
    {
      if deploymentId.None? {
        return Failure(NullPointerException(Some(DEPLOYMENT_ID_REQUIRED)));
      }
      r := Success(HostingService.Endpoint(HostingService.FetchDeployment(Some(appId), deploymentId), headers, params));
    }

    /** GET manifests/{appId}/hosting/latestLiveDeployment with the headers and the params. */
    method GetLatestLiveDeployment() returns (r: RequestSpec)
      ensures r == RequestSpec(GET, [Lit("manifests"), Param("appId", Some(appId)), Lit("hosting"), Lit("latestLiveDeployment")],
                               headers, Some(params), None)
    {
      r := HostingService.Endpoint(HostingService.FetchLatestLiveDeployment(Some(appId)), headers, params);
    }

    /** GET manifests/{appId}/hosting/deployments/{deploymentId}/logs; the
        deployment id is not checked. */
    method FindDeploymentLogs(deploymentId: string) returns (r: RequestSpec)
      ensures r == RequestSpec(GET,
        [Lit("manifests"), Param("appId", Some(appId)), Lit("hosting"), Lit("deployments"),
         Param("deploymentId", Some(deploymentId)), Lit("logs")],
        headers, Some(params), None)
    {
      r := HostingService.Endpoint(HostingService.FindDeploymentLogs(Some(appId), Some(deploymentId)), headers, params);
    }

    /** POST manifests/{appId}/hosting/signedDownloadUrl with the headers and the params. */
    method CreateSignedDownloadUrl() returns (r: RequestSpec)
      ensures r == RequestSpec(POST, [Lit("manifests"), Param("appId", Some(appId)), Lit("hosting"), Lit("signedDownloadUrl")],
                               headers, Some(params), None)
    {
      r := HostingService.Endpoint(HostingService.CreateSignedDownloadUrl(Some(appId)), headers, params);
    }

    /** GET the given url itself, with the headers and the params. */
    method DownloadFile(url: string) returns (r: RequestSpec)
      ensures r == RequestSpec(GET, [Url(url)], headers, Some(params), None)
    {
      r := HostingService.Endpoint(HostingService.DownloadFile(url), headers, params);
    }

    /** PATCH manifests/{appId}/hosting/enable with the headers only. */
    method EnableToggleHosting() returns (r: RequestSpec)
      ensures r.verb == PATCH && r.headers == headers && r.query == None && r.body == None
      ensures r.path == [Lit("manifests"), Param("appId", Some(appId)), Lit("hosting"), Lit("enable")]
    {
      r := HostingService.Endpoint(HostingService.ToggleEnableHosting(Some(appId)), headers, params);
    }

    /** PATCH manifests/{appId}/hosting/disable with the headers only. */
    method DisableToggleHosting() returns (r: RequestSpec)
      ensures r.verb == PATCH && r.headers == headers && r.query == None && r.body == None
      ensures r.path == [Lit("manifests"), Param("appId", Some(appId)), Lit("hosting"), Lit("disable")]
    {
      r := HostingService.Endpoint(HostingService.ToggleDisableHosting(Some(appId)), headers, params);
    }

    method AddParam(key: string, value: Value) returns (self: Hosting)
      modifies this`params
      ensures self == this && params == Put(old(params), key, value)
    {
      params := Put(params, key, value);
      return this;
    }

    method AddHeader(key: string, value: string) returns (self: Hosting)
      modifies this`headers
      ensures self == this && headers == Put(old(headers), key, value)
    {
      headers := Put(headers, key, value);
      return this;
    }

    method AddParams(other: map<string, Value>) returns (self: Hosting)
      modifies this`params
      ensures self == this && params == PutAll(old(params), other)
    {
      params := PutAll(params, other);
      return this;
    }

    method AddHeaders(other: map<string, string>) returns (self: Hosting)
      modifies this`headers
      ensures self == this && headers == PutAll(old(headers), other)
    {
      headers := PutAll(headers, other);
      return this;
    }
  }
}
