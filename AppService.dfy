/** The manifest (app) endpoints (AppService.java). Every method takes the
    header map; the `{uid}` (or `{id}`) placeholder is bound to the app uid. */
module AppService {
  import opened Base
  import opened Http

  datatype Call =
    | CreateInstallation(uid: Option<string>, body: JsonBody)
    | UpdateVersion(uid: Option<string>, body: JsonBody)
    | FindAppAuthorizations(uid: Option<string>)
      // Both path arguments are declared as @Path("uid") on a template with two
      // `{uid}` placeholders; the second is named orgId in the interface.
    | DeleteAuthorization(uid: Option<string>, orgId: Option<string>)
    | ListAppInstallations(uid: Option<string>)
    | ListApps
    | CreateApp(body: JsonBody)
    | FetchApp(uid: Option<string>)
    | UpdateApp(uid: Option<string>, body: JsonBody)
    | Delete(uid: Option<string>)
    | ListAppRequests(uid: Option<string>)

  /** Whether the call is addressed to one manifest. */
  predicate IdScoped(c: Call)
  {
    !(c.ListApps? || c.CreateApp?)
  }

  /** Whether the interface method declares a @QueryMap. */
  predicate TakesQuery(c: Call)
  {
    !(c.DeleteAuthorization? || c.UpdateApp? || c.Delete?)
  }

  /** The request each interface method describes. */
  function Endpoint(c: Call, headers: map<string, string>, params: map<string, Value>): (r: RequestSpec)
    ensures r.headers == headers
    ensures r.query == if TakesQuery(c) then Some(params) else None
    ensures r.body.Some? <==> (c.CreateInstallation? || c.UpdateVersion? || c.CreateApp? || c.UpdateApp?)
    ensures r.body.Some? ==> r.body.value == c.body
    ensures r.verb == match c
      case CreateInstallation(_, _) => POST
      case CreateApp(_) => POST
      case UpdateVersion(_, _) => PUT
      case UpdateApp(_, _) => PUT
      case DeleteAuthorization(_, _) => DELETE
      case Delete(_) => DELETE
      case _ => GET
    ensures |r.path| >= 1 && r.path[0] == Lit("manifests")
    ensures IdScoped(c) <==> |r.path| > 1
    ensures IdScoped(c) ==> r.path[1].Param? && r.path[1].value == c.uid
  {
    match c
    case CreateInstallation(uid, body) =>
      RequestSpec(POST, [Lit("manifests"), Param("uid", uid), Lit("install")], headers, Some(params), Some(body))
    case UpdateVersion(id, body) =>
      RequestSpec(PUT, [Lit("manifests"), Param("id", id), Lit("reinstall")], headers, Some(params), Some(body))
    case FindAppAuthorizations(uid) =>
      RequestSpec(GET, [Lit("manifests"), Param("uid", uid), Lit("authorizations")], headers, Some(params), None)
    case DeleteAuthorization(uid, orgId) =>
      RequestSpec(DELETE, [Lit("manifests"), Param("uid", uid), Lit("authorizations"), Param("uid", orgId)],
                  headers, None, None)
    case ListAppInstallations(uid) =>
      RequestSpec(GET, [Lit("manifests"), Param("uid", uid), Lit("installations")], headers, Some(params), None)
    case ListApps =>
      RequestSpec(GET, [Lit("manifests")], headers, Some(params), None)
    case CreateApp(body) =>
      RequestSpec(POST, [Lit("manifests")], headers, Some(params), Some(body))
    case FetchApp(uid) =>
      RequestSpec(GET, [Lit("manifests"), Param("uid", uid)], headers, Some(params), None)
    case UpdateApp(uid, body) =>
      RequestSpec(PUT, [Lit("manifests"), Param("uid", uid)], headers, None, Some(body))
    case Delete(uid) =>
      RequestSpec(DELETE, [Lit("manifests"), Param("uid", uid)], headers, None, None)
    case ListAppRequests(uid) =>
      RequestSpec(GET, [Lit("manifests"), Param("uid", uid), Lit("requests")], headers, Some(params), None)
  }

  /** With slash-free ids, the URL segments are exactly the template's words
      with the app uid in second place (and the authorization uid fourth for
      deleteAuthorization). */
  lemma {:induction false} ManifestSegments(c: Call, headers: map<string, string>, params: map<string, Value>)
    requires IdScoped(c) ==> c.uid.Some? && NoSlash(c.uid.value)
    requires c.DeleteAuthorization? ==> c.orgId.Some? && NoSlash(c.orgId.value)
    ensures PathSegments(Endpoint(c, headers, params).path) == Some(match c
      case ListApps => ["manifests"]
      case CreateApp(_) => ["manifests"]
      case FetchApp(uid) => ["manifests", uid.value]
      case UpdateApp(uid, _) => ["manifests", uid.value]
      case Delete(uid) => ["manifests", uid.value]
      case CreateInstallation(uid, _) => ["manifests", uid.value, "install"]
      case UpdateVersion(id, _) => ["manifests", id.value, "reinstall"]
      case FindAppAuthorizations(uid) => ["manifests", uid.value, "authorizations"]
      case ListAppInstallations(uid) => ["manifests", uid.value, "installations"]
      case ListAppRequests(uid) => ["manifests", uid.value, "requests"]
      case DeleteAuthorization(uid, orgId) => ["manifests", uid.value, "authorizations", orgId.value])
  {
    var path := Endpoint(c, headers, params).path;
    match c {
    case ListApps => SegmentsOfTexts(path, ["manifests"]);
    case CreateApp(_) => SegmentsOfTexts(path, ["manifests"]);
    case FetchApp(uid) => SegmentsOfTexts(path, ["manifests", uid.value]);
    case UpdateApp(uid, _) => SegmentsOfTexts(path, ["manifests", uid.value]);
    case Delete(uid) => SegmentsOfTexts(path, ["manifests", uid.value]);
    case CreateInstallation(uid, _) => SegmentsOfTexts(path, ["manifests", uid.value, "install"]);
    case UpdateVersion(id, _) => SegmentsOfTexts(path, ["manifests", id.value, "reinstall"]);
    case FindAppAuthorizations(uid) => SegmentsOfTexts(path, ["manifests", uid.value, "authorizations"]);
    case ListAppInstallations(uid) => SegmentsOfTexts(path, ["manifests", uid.value, "installations"]);
    case ListAppRequests(uid) => SegmentsOfTexts(path, ["manifests", uid.value, "requests"]);
    case DeleteAuthorization(uid, orgId) =>
      SegmentsOfTexts(path, ["manifests", uid.value, "authorizations", orgId.value]);
    }
  }
}
