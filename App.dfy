/** The manifest (app) request builder (App.java). */
module Apps {
  import opened Base
  import opened Http
  import opened Constants
  import AppService
  import Clients
  import Oauths
  import Hostings

  const MANIFEST_UID_REQUIRED := "Manifest uid is required"

  class App {
    var headers: map<string, string>
    var params: map<string, Value>
    /** Null when the app was built without a uid; passed on unchecked. */
    var appUid: Option<string>
    const client: Clients.Retrofit

    /** The organisation header is set at construction, and the mutators only
        add or overwrite keys, so it is always there for oauth()/hosting(). */
    ghost predicate Valid()
      reads this
    {
      ORGANIZATION_UID in headers
    }

    /** The field assignments of both constructors, once their checks passed. */
    constructor Init(client: Clients.Retrofit, authtoken: Option<string>, organizationUid: string, uid: Option<string>)
      ensures Valid() && this.client == client
      ensures headers == OrganizationHeaders(organizationUid, authtoken) && params == map[] && appUid == uid
    {
      this.client := client;
      headers := OrganizationHeaders(organizationUid, authtoken);
      params := map[];
      appUid := uid;
    }

    /** `new App(client, authtoken, organizationUid)`: only a null organisation
        uid is refused; the app uid stays unset. */
    static method New(client: Clients.Retrofit, authtoken: Option<string>, organizationUid: Option<string>)
      returns (r: Result<App>)
      ensures r.Failure? <==> organizationUid.None?
      ensures r.Failure? ==> r.error == NullPointerException(Some(ERROR_NO_ORGANIZATION_UID))
      ensures r.Success? ==> && fresh(r.value) && r.value.Valid() && r.value.client == client
                             && r.value.headers == OrganizationHeaders(organizationUid.value, authtoken)
                             && r.value.params == map[] && r.value.appUid == None
    {
      if organizationUid.None? {
        return Failure(NullPointerException(Some(ERROR_NO_ORGANIZATION_UID)));
      }
      var a := new App.Init(client, authtoken, organizationUid.value, None);
      return Success(a);
    }

    /** `new App(client, authtoken, organizationUid, uid)`: the organisation
        uid is checked first, then the app uid, which is then stored. */
    static method NewWithUid(client: Clients.Retrofit, authtoken: Option<string>, organizationUid: Option<string>,
                             uid: Option<string>)
      returns (r: Result<App>)
      ensures organizationUid.None? ==> r == Failure(NullPointerException(Some(ERROR_NO_ORGANIZATION_UID)))
      ensures organizationUid.Some? && uid.None? ==> r == Failure(NullPointerException(Some(MANIFEST_UID_REQUIRED)))
      ensures r.Success? <==> organizationUid.Some? && uid.Some?
      ensures r.Success? ==> && fresh(r.value) && r.value.Valid() && r.value.client == client
                             && r.value.headers == OrganizationHeaders(organizationUid.value, authtoken)
                             && r.value.params == map[] && r.value.appUid == uid
    {
      if organizationUid.None? {
        return Failure(NullPointerException(Some(ERROR_NO_ORGANIZATION_UID)));
      }
      if uid.None? {
        return Failure(NullPointerException(Some(MANIFEST_UID_REQUIRED)));
      }
      var a := new App.Init(client, authtoken, organizationUid.value, uid);
      return Success(a);
    }

    method AddParam(key: string, value: Value) returns (self: App)
      modifies this`params
      ensures self == this && params == Put(old(params), key, value)
    {
      params := Put(params, key, value);
      return this;
    }

    method AddHeader(key: string, value: string) returns (self: App)
      requires Valid()
      modifies this`headers
      ensures Valid()
      ensures self == this && headers == Put(old(headers), key, value)
    {
      headers := Put(headers, key, value);
      return this;
    }

    method AddParams(other: map<string, Value>) returns (self: App)
      modifies this`params
      ensures self == this && params == PutAll(old(params), other)
    {
      params := PutAll(params, other);
      return this;
    }

    /** Right-biased: an `organization_uid` entry in the argument replaces the
        organisation header. */
    method AddHeaders(other: map<string, string>) returns (self: App)
      requires Valid()
      modifies this`headers
      ensures Valid()
      ensures self == this && headers == PutAll(old(headers), other)
    {
      headers := PutAll(headers, other);
      return this;
    }

    /** POST manifests/{uid}/install for the stored app uid, unchecked, with the
        headers, the params and the body. */
    method CreateInstallation(body: JsonBody) returns (r: RequestSpec)
      ensures r == RequestSpec(POST, [Lit("manifests"), Param("uid", appUid), Lit("install")],
                               headers, Some(params), Some(body))
    {
      r := AppService.Endpoint(AppService.CreateInstallation(appUid, body), headers, params);
    }

    /** PUT manifests/{id}/reinstall for the stored app uid, with the headers,
        the params and the body. */
    method UpdateVersion(body: JsonBody) returns (r: RequestSpec)
      ensures r == RequestSpec(PUT, [Lit("manifests"), Param("id", appUid), Lit("reinstall")],
                               headers, Some(params), Some(body))
    {
      r := AppService.Endpoint(AppService.UpdateVersion(appUid, body), headers, params);
    }

    /** GET manifests/{uid}/authorizations with the headers and the params. */
    method FindAppAuthorizations() returns (r: RequestSpec)
      ensures r == RequestSpec(GET, [Lit("manifests"), Param("uid", appUid), Lit("authorizations")],
                               headers, Some(params), None)
    {
      r := AppService.Endpoint(AppService.FindAppAuthorizations(appUid), headers, params);
    }

    /** DELETE manifests/{uid}/authorizations/{uid} with the headers only: the
        app uid and the authorization uid fill the two placeholders. */
    method DeleteAuthorization(authorizationUid: string) returns (r: RequestSpec)
      ensures r.verb == DELETE && r.headers == headers && r.query == None && r.body == None
      ensures r.path == [Lit("manifests"), Param("uid", appUid), Lit("authorizations"), Param("uid", Some(authorizationUid))]
    {
      r := AppService.Endpoint(AppService.DeleteAuthorization(appUid, Some(authorizationUid)), headers, params);
    }

    /** GET manifests/{uid}/installations with the headers and the params. */
    method FindAppInstallations() returns (r: RequestSpec)
      ensures r == RequestSpec(GET, [Lit("manifests"), Param("uid", appUid), Lit("installations")],
                               headers, Some(params), None)
    {
      r := AppService.Endpoint(AppService.ListAppInstallations(appUid), headers, params);
    }

    /** GET manifests with the headers and the params; the app uid is not used. */
    method FindApps() returns (r: RequestSpec)
      ensures r == RequestSpec(GET, [Lit("manifests")], headers, Some(params), None)
    {
      r := AppService.Endpoint(AppService.ListApps, headers, params);
    }

    /** POST manifests with the headers, the params and the body; the app uid
        is not used. */
    method CreateApp(body: JsonBody) returns (r: RequestSpec)
      ensures r == RequestSpec(POST, [Lit("manifests")], headers, Some(params), Some(body))
    {
      r := AppService.Endpoint(AppService.CreateApp(body), headers, params);
    }

    /** GET manifests/{uid} with the headers and the params. */
    method FetchApp() returns (r: RequestSpec)
      ensures r == RequestSpec(GET, [Lit("manifests"), Param("uid", appUid)], headers, Some(params), None)
    {
      r := AppService.Endpoint(AppService.FetchApp(appUid), headers, params);
    }

    /** PUT manifests/{uid} with the headers and the body, never the params. */
    method UpdateApp(body: JsonBody) returns (r: RequestSpec)
      ensures r.verb == PUT && r.headers == headers && r.query == None && r.body == Some(body)
      ensures r.path == [Lit("manifests"), Param("uid", appUid)]
    {
      r := AppService.Endpoint(AppService.UpdateApp(appUid, body), headers, params);
    }

    /** DELETE manifests/{uid} with the headers only. */
    method DeleteApp() returns (r: RequestSpec)
      ensures r.verb == DELETE && r.headers == headers && r.query == None && r.body == None
      ensures r.path == [Lit("manifests"), Param("uid", appUid)]
    {
      r := AppService.Endpoint(AppService.Delete(appUid), headers, params);
    }

    /** GET manifests/{uid}/requests with the headers and the params. */
    method FindAppRequests() returns (r: RequestSpec)
      ensures r == RequestSpec(GET, [Lit("manifests"), Param("uid", appUid), Lit("requests")],
                               headers, Some(params), None)
    {
      r := AppService.Endpoint(AppService.ListAppRequests(appUid), headers, params);
    }

    /** `oauth()`: a fresh Oauth for the organisation uid currently in the
        header map; the authtoken, other headers and params are not inherited. */
    method Oauth() returns (r: Oauths.Oauth)
      requires Valid()
      ensures fresh(r)
      ensures r.headers == map[ORGANIZATION_UID := headers[ORGANIZATION_UID]] && r.params == map[] && r.appId == None
    {
      r := new Oauths.Oauth(headers[ORGANIZATION_UID]);
    }

    /** `oauth(id)`: as `oauth()`, with the given app id, which Oauth refuses
        when null. */
    method OauthFor(id: Option<string>) returns (r: Result<Oauths.Oauth>)
      requires Valid()
      ensures id.None? ==> r == Failure(NullPointerException(Some(Oauths.APP_ID_REQUIRED)))
      ensures id.Some? ==> && r.Success? && fresh(r.value) && r.value.appId == id
                           && r.value.headers == map[ORGANIZATION_UID := headers[ORGANIZATION_UID]]
                           && r.value.params == map[]
    {
      r := Oauths.Oauth.New(Some(headers[ORGANIZATION_UID]), id);
    }

    /** `hosting()`: a fresh Hosting for the stored app uid and the organisation
        uid in the header map; fails when the app was built without a uid. */
    method Hosting() returns (r: Result<Hostings.Hosting>)
      requires Valid()
      ensures appUid.None? ==> r == Failure(NullPointerException(Some(Hostings.APP_ID_REQUIRED)))
      ensures appUid.Some? ==> && r.Success? && fresh(r.value) && r.value.appId == appUid.value
                               && r.value.headers == map[ORGANIZATION_UID := headers[ORGANIZATION_UID]]
                               && r.value.params == map[]
    {
      r := Hostings.Hosting.New(Some(headers[ORGANIZATION_UID]), appUid);
    }

    /** `hosting(appId)`: as `hosting()`, for the given app id. */
    method HostingFor(appId: Option<string>) returns (r: Result<Hostings.Hosting>)
      requires Valid()
      ensures appId.None? ==> r == Failure(NullPointerException(Some(Hostings.APP_ID_REQUIRED)))
      ensures appId.Some? ==> && r.Success? && fresh(r.value) && r.value.appId == appId.value
                              && r.value.headers == map[ORGANIZATION_UID := headers[ORGANIZATION_UID]]
                              && r.value.params == map[]
    {
      r := Hostings.Hosting.New(Some(headers[ORGANIZATION_UID]), appId);
    }
  }
}
