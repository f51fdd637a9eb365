/** The OAuth configuration request builder of one app (Oauth.java). No
    operation sends the param map, so addParam/addParams never reach a request. */
module Oauths {
  import opened Base
  import opened Http
  import opened Constants
  import OauthService

  const APP_ID_REQUIRED := "App Id is required"

  class Oauth {
    var headers: map<string, string>
    var params: map<string, Value>
    /** Not final: left null by the organisation-only constructor. */
    var appId: Option<string>

    /** `new Oauth(client, organizationId)`: no check, and no app id. */
    constructor (organizationId: string)
      ensures headers == map[ORGANIZATION_UID := organizationId] && params == map[] && appId == None
    {
      headers := map[ORGANIZATION_UID := organizationId];
      params := map[];
      appId := None;
    }

    /** The field assignments of the two-id constructor, once its checks passed. */
    constructor Init(organizationId: string, appId: string)
      ensures headers == map[ORGANIZATION_UID := organizationId] && params == map[] && this.appId == Some(appId)
    {
      headers := map[ORGANIZATION_UID := organizationId];
      params := map[];
      this.appId := Some(appId);
    }

    /** `new Oauth(client, organizationId, appId)`: the app id is checked
        first, then the organisation id. */
    static method New(organizationId: Option<string>, appId: Option<string>) returns (r: Result<Oauth>)
      ensures appId.None? ==> r == Failure(NullPointerException(Some(APP_ID_REQUIRED)))
      ensures appId.Some? && organizationId.None? ==> r == Failure(NullPointerException(Some(ERROR_NO_ORGANIZATION_UID)))
      ensures r.Success? <==> appId.Some? && organizationId.Some?
      ensures r.Success? ==> && fresh(r.value) && r.value.appId == appId
                             && r.value.headers == map[ORGANIZATION_UID := organizationId.value]
                             && r.value.params == map[]
    {
      if appId.None? {
        return Failure(NullPointerException(Some(APP_ID_REQUIRED)));
      }
      if organizationId.None? {
        return Failure(NullPointerException(Some(ERROR_NO_ORGANIZATION_UID)));
      }
      var o := new Oauth.Init(organizationId.value, appId.value);
      return Success(o);
    }

    /** GET manifests/{uid}/oauth for the ARGUMENT (not the stored app id),
        with the headers only. */
    method FetchOauthConfiguration(appId: string) returns (r: RequestSpec)
      ensures r == RequestSpec(GET, [Lit("manifests"), Param("uid", Some(appId)), Lit("oauth")], headers, None, None)
    {
      r := OauthService.Endpoint(OauthService.GetOauthConfiguration(Some(appId)), headers, params);
    }

    /** PUT manifests/{uid}/oauth for the stored app id (null if never set),
        with the headers and the body. */
    method UpdateOauthConfiguration(body: JsonBody) returns (r: RequestSpec)
      ensures r == RequestSpec(PUT, [Lit("manifests"), Param("uid", appId), Lit("oauth")], headers, None, Some(body))
    {
      r := OauthService.Endpoint(OauthService.UpdateOauthConfiguration(appId, body), headers, params);
    }

    /** GET manifests/oauth/scopes with the headers only. */
    method FindScopes() returns (r: RequestSpec)
      ensures r == RequestSpec(GET, [Lit("manifests"), Lit("oauth"), Lit("scopes")], headers, None, None)
    {
      r := OauthService.Endpoint(OauthService.FindScopes, headers, params);
    }

    method AddParam(key: string, value: Value) returns (self: Oauth)
      modifies this`params
      ensures self == this && params == Put(old(params), key, value)
    {
      params := Put(params, key, value);
      return this;
    }

    method AddHeader(key: string, value: string) returns (self: Oauth)
      modifies this`headers
      ensures self == this && headers == Put(old(headers), key, value)
    {
      headers := Put(headers, key, value);
      return this;
    }

    method AddParams(other: map<string, Value>) returns (self: Oauth)
      modifies this`params
      ensures self == this && params == PutAll(old(params), other)
    {
      params := PutAll(params, other);
      return this;
    }

    method AddHeaders(other: map<string, string>) returns (self: Oauth)
      modifies this`headers
      ensures self == this && headers == PutAll(old(headers), other)
    {
      headers := PutAll(headers, other);
      return this;
    }
  }
}
