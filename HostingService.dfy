/** The hosting and deployment endpoints (HostingService.java). Every method
    takes the header map. */
module HostingService {
  import opened Base
  import opened Http

  datatype Call =
    | ToggleDisableHosting(appId: Option<string>)
    | ToggleEnableHosting(appId: Option<string>)
      // The annotation has a leading space before its path; the model records
      // the normalised path manifests/{uid}/hosting/signedUploadUrl.
    | SignedUploadUrl(appId: Option<string>)
    | UploadFile(url: string)
    | CreateDeployments(appId: Option<string>, body: JsonBody)
    | CreateSignedDownloadUrl(appId: Option<string>)
    | GetHosting(appId: Option<string>)
    | FindDeployments(appId: Option<string>)
    | FetchDeployment(appId: Option<string>, deploymentId: Option<string>)
    | FetchLatestLiveDeployment(appId: Option<string>)
    | FindDeploymentLogs(appId: Option<string>, deploymentId: Option<string>)
    | DownloadFile(url: string)

  /** Whether the call addresses a caller-given url instead of a manifest. */
  predicate UrlAsPath(c: Call)
  {
    c.UploadFile? || c.DownloadFile?
  }

  /** Whether the interface method declares a @QueryMap. */
  predicate TakesQuery(c: Call)
  {
    !(c.ToggleDisableHosting? || c.ToggleEnableHosting? || c.SignedUploadUrl?)
  }

  /** The request each interface method describes. */
  function Endpoint(c: Call, headers: map<string, string>, params: map<string, Value>): (r: RequestSpec)
    ensures r.headers == headers
    ensures r.query == if TakesQuery(c) then Some(params) else None
    ensures r.body == if c.CreateDeployments? then Some(c.body) else None
    ensures r.verb == match c
      case ToggleDisableHosting(_) => PATCH
      case ToggleEnableHosting(_) => PATCH
      case SignedUploadUrl(_) => POST
      case UploadFile(_) => POST
      case CreateDeployments(_, _) => POST
      case CreateSignedDownloadUrl(_) => POST
      case _ => GET
    ensures UrlAsPath(c) ==> r.path == [Url(c.url)]
    ensures !UrlAsPath(c) ==> && |r.path| >= 3
                              && r.path[0] == Lit("manifests")
                              && r.path[1].Param? && r.path[1].value == c.appId
                              && r.path[2] == Lit("hosting")
  {
    match c
    case ToggleDisableHosting(appId) =>
      RequestSpec(PATCH, [Lit("manifests"), Param("appId", appId), Lit("hosting"), Lit("disable")],
                  headers, None, None)
    case ToggleEnableHosting(appId) =>
      RequestSpec(PATCH, [Lit("manifests"), Param("appId", appId), Lit("hosting"), Lit("enable")],
                  headers, None, None)
    case SignedUploadUrl(uid) =>
      RequestSpec(POST, [Lit("manifests"), Param("uid", uid), Lit("hosting"), Lit("signedUploadUrl")],
                  headers, None, None)
    case UploadFile(url) =>
      RequestSpec(POST, [Url(url)], headers, Some(params), None)
    case CreateDeployments(appId, body) =>
      RequestSpec(POST, [Lit("manifests"), Param("appId", appId), Lit("hosting"), Lit("deployments")],
                  headers, Some(params), Some(body))
    case CreateSignedDownloadUrl(appId) =>
      RequestSpec(POST, [Lit("manifests"), Param("appId", appId), Lit("hosting"), Lit("signedDownloadUrl")],
                  headers, Some(params), None)
    case GetHosting(uid) =>
      RequestSpec(GET, [Lit("manifests"), Param("uid", uid), Lit("hosting")], headers, Some(params), None)
    case FindDeployments(appId) =>
      RequestSpec(GET, [Lit("manifests"), Param("appId", appId), Lit("hosting"), Lit("deployments")],
                  headers, Some(params), None)
    case FetchDeployment(appId, deploymentId) =>
      RequestSpec(GET, [Lit("manifests"), Param("appId", appId), Lit("hosting"), Lit("deployments"),
                        Param("deploymentId", deploymentId)],
                  headers, Some(params), None)
    case FetchLatestLiveDeployment(appId) =>
      RequestSpec(GET, [Lit("manifests"), Param("appId", appId), Lit("hosting"), Lit("latestLiveDeployment")],
                  headers, Some(params), None)
    case FindDeploymentLogs(appId, deploymentId) =>
      RequestSpec(GET, [Lit("manifests"), Param("appId", appId), Lit("hosting"), Lit("deployments"),
                        Param("deploymentId", deploymentId), Lit("logs")],
                  headers, Some(params), None)
    case DownloadFile(url) =>
      RequestSpec(GET, [Url(url)], headers, Some(params), None)
  }

  /** Upload and download go to the url itself: its slashes are kept, so the
      URL has one segment per "/"-separated piece of it. */
  lemma UrlAsPathSegments(c: Call, headers: map<string, string>, params: map<string, Value>)
    requires UrlAsPath(c)
    ensures Render(Endpoint(c, headers, params).path) == Some(c.url)
    ensures PathSegments(Endpoint(c, headers, params).path) == Some(Split(c.url))
  {
  }

  /** Whether every id the call's template needs is bound. */
  predicate IdsBound(c: Call)
  {
    && !UrlAsPath(c) && c.appId.Some?
    && (c.FetchDeployment? || c.FindDeploymentLogs? ==> c.deploymentId.Some?)
  }

  /** The URL segments each template declares, with the ids in place. */
  function Words(c: Call): seq<string>
    requires IdsBound(c)
  {
    var a := c.appId.value;
    match c
    case ToggleDisableHosting(_) => ["manifests", a, "hosting", "disable"]
    case ToggleEnableHosting(_) => ["manifests", a, "hosting", "enable"]
    case SignedUploadUrl(_) => ["manifests", a, "hosting", "signedUploadUrl"]
    case CreateDeployments(_, _) => ["manifests", a, "hosting", "deployments"]
    case CreateSignedDownloadUrl(_) => ["manifests", a, "hosting", "signedDownloadUrl"]
    case GetHosting(_) => ["manifests", a, "hosting"]
    case FindDeployments(_) => ["manifests", a, "hosting", "deployments"]
    case FetchDeployment(_, d) => ["manifests", a, "hosting", "deployments", d.value]
    case FetchLatestLiveDeployment(_) => ["manifests", a, "hosting", "latestLiveDeployment"]
    case FindDeploymentLogs(_, d) => ["manifests", a, "hosting", "deployments", d.value, "logs"]
  }

  /** With slash-free ids, every other call goes to manifests/{appId}/hosting
      followed by the call's own words. */
  lemma {:induction false} HostingSegments(c: Call, headers: map<string, string>, params: map<string, Value>)
    requires IdsBound(c) && NoSlash(c.appId.value)
    requires c.FetchDeployment? || c.FindDeploymentLogs? ==> NoSlash(c.deploymentId.value)
    ensures PathSegments(Endpoint(c, headers, params).path) == Some(Words(c))
  {
    if c.FetchDeployment? || c.FindDeploymentLogs? {
      DeploymentSegments(c, headers, params);
    } else if c.GetHosting? || c.FindDeployments? || c.FetchLatestLiveDeployment? {
      ReadSegments(c, headers, params);
    } else if c.ToggleDisableHosting? || c.ToggleEnableHosting? {
      ToggleSegments(c, headers, params);
    } else {
      PostSegments(c, headers, params);
    }
  }

  /** HostingSegments for the two calls addressed to one deployment. */
  lemma {:induction false} DeploymentSegments(c: Call, headers: map<string, string>, params: map<string, Value>)
    requires c.FetchDeployment? || c.FindDeploymentLogs?
    requires c.appId.Some? && NoSlash(c.appId.value) && c.deploymentId.Some? && NoSlash(c.deploymentId.value)
    ensures PathSegments(Endpoint(c, headers, params).path) == Some(Words(c))
  {
    var path := Endpoint(c, headers, params).path;
    match c {
    case FetchDeployment(a, d) =>
      SegmentsOfTexts(path, ["manifests", a.value, "hosting", "deployments", d.value]);
    case FindDeploymentLogs(a, d) =>
      SegmentsOfTexts(path, ["manifests", a.value, "hosting", "deployments", d.value, "logs"]);
    }
  }

  /** HostingSegments for the other GET calls. */
  lemma {:induction false} ReadSegments(c: Call, headers: map<string, string>, params: map<string, Value>)
    requires c.GetHosting? || c.FindDeployments? || c.FetchLatestLiveDeployment?
    requires c.appId.Some? && NoSlash(c.appId.value)
    ensures PathSegments(Endpoint(c, headers, params).path) == Some(Words(c))
  {
    var path := Endpoint(c, headers, params).path;
    match c {
    case GetHosting(a) => SegmentsOfTexts(path, ["manifests", a.value, "hosting"]);
    case FindDeployments(a) => SegmentsOfTexts(path, ["manifests", a.value, "hosting", "deployments"]);
    case FetchLatestLiveDeployment(a) =>
      SegmentsOfTexts(path, ["manifests", a.value, "hosting", "latestLiveDeployment"]);
    }
  }

  /** HostingSegments for the two PATCH calls. */
  lemma {:induction false} ToggleSegments(c: Call, headers: map<string, string>, params: map<string, Value>)
    requires c.ToggleDisableHosting? || c.ToggleEnableHosting?
    requires c.appId.Some? && NoSlash(c.appId.value)
    ensures PathSegments(Endpoint(c, headers, params).path) == Some(Words(c))
  {
    var path := Endpoint(c, headers, params).path;
    match c {
    case ToggleDisableHosting(a) => SegmentsOfTexts(path, ["manifests", a.value, "hosting", "disable"]);
    case ToggleEnableHosting(a) => SegmentsOfTexts(path, ["manifests", a.value, "hosting", "enable"]);
    }
  }

  /** HostingSegments for the three POST calls. */
  lemma {:induction false} PostSegments(c: Call, headers: map<string, string>, params: map<string, Value>)
    requires c.SignedUploadUrl? || c.CreateDeployments? || c.CreateSignedDownloadUrl?
    requires c.appId.Some? && NoSlash(c.appId.value)
    ensures PathSegments(Endpoint(c, headers, params).path) == Some(Words(c))
  {
    var path := Endpoint(c, headers, params).path;
    match c {
    case SignedUploadUrl(a) => SegmentsOfTexts(path, ["manifests", a.value, "hosting", "signedUploadUrl"]);
    case CreateDeployments(a, _) => SegmentsOfTexts(path, ["manifests", a.value, "hosting", "deployments"]);
    case CreateSignedDownloadUrl(a) =>
      SegmentsOfTexts(path, ["manifests", a.value, "hosting", "signedDownloadUrl"]);
    }
  }
}
