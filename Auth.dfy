/** The authorized-apps request builder (Auth.java). */
module Auths {
  import opened Base
  import opened Http
  import opened Constants
  import AuthService

  class Auth {
    var headers: map<string, string>
    var params: map<string, Value>

    constructor Init(authtoken: Option<string>, organizationUid: string)
      ensures headers == OrganizationHeaders(organizationUid, authtoken) && params == map[]
    {
      headers := OrganizationHeaders(organizationUid, authtoken);
      params := map[];
    }

    /** `new Auth(client, authtoken, organizationUid)`: a null organisation uid
        is refused; the authtoken header is set only when one is given. */
    static method New(authtoken: Option<string>, organizationUid: Option<string>) returns (r: Result<Auth>)
      ensures r.Failure? <==> organizationUid.None?
      ensures r.Failure? ==> r.error == NullPointerException(Some(ERROR_NO_ORGANIZATION_UID))
      ensures r.Success? ==> && fresh(r.value) && r.value.params == map[]
                             && r.value.headers == OrganizationHeaders(organizationUid.value, authtoken)
    {
      if organizationUid.None? {
        return Failure(NullPointerException(Some(ERROR_NO_ORGANIZATION_UID)));
      }
      var a := new Auth.Init(authtoken, organizationUid.value);
      return Success(a);
    }

    /** GET authorized-apps with the headers and the params. */
    method FindAuthorizedApp() returns (r: RequestSpec)
      ensures r == RequestSpec(GET, [Lit("authorized-apps")], headers, Some(params), None)
    {
      r := AuthService.Endpoint(AuthService.FindAuthorizedApps, headers, params);
    }

    method AddParam(key: string, value: Value) returns (self: Auth)
      modifies this`params
      ensures self == this && params == Put(old(params), key, value)
    {
      params := Put(params, key, value);
      return this;
    }

    method AddHeader(key: string, value: string) returns (self: Auth)
      modifies this`headers
      ensures self == this && headers == Put(old(headers), key, value)
    {
      headers := Put(headers, key, value);
      return this;
    }

    method AddParams(other: map<string, Value>) returns (self: Auth)
      modifies this`params
      ensures self == this && params == PutAll(old(params), other)
    {
      params := PutAll(params, other);
      return this;
    }

    method AddHeaders(other: map<string, string>) returns (self: Auth)
      modifies this`headers
      ensures self == this && headers == PutAll(old(headers), other)
    {
      headers := PutAll(headers, other);
      return this;
    }
  }
}
