/** The app-request request builder (AppRequest.java). Its maps are `final`
    references whose contents the mutators change; here they are fields that
    the mutators reassign. */
module AppRequests {
  import opened Base
  import opened Http
  import opened Constants
  import RequestService

  class AppRequest {
    var headers: map<string, string>
    var params: map<string, Value>

    /** `new AppRequest(client, orgId)`: no check. */
    constructor (orgId: string)
      ensures headers == map[ORGANIZATION_UID := orgId] && params == map[]
    {
      headers := map[ORGANIZATION_UID := orgId];
      params := map[];
    }

    /** POST requests with the headers and the body; the params are not sent. */
    method Create(data: JsonBody) returns (r: RequestSpec)
      ensures r == RequestSpec(POST, [Lit("requests")], headers, None, Some(data))
    {
      r := RequestService.Endpoint(RequestService.Create(data), headers, params);
    }

    /** GET requests with the headers and the params. */
    method Find() returns (r: RequestSpec)
      ensures r == RequestSpec(GET, [Lit("requests")], headers, Some(params), None)
    {
      r := RequestService.Endpoint(RequestService.ListRequests, headers, params);
    }

    /** GET requests/view/stacks with the headers and the params. */
    method FindRequestedStacks() returns (r: RequestSpec)
      ensures r == RequestSpec(GET, [Lit("requests"), Lit("view"), Lit("stacks")], headers, Some(params), None)
    {
      r := RequestService.Endpoint(RequestService.ListRequestedStacks, headers, params);
    }

    /** DELETE requests/{uid} with the headers only. */
    method Delete(requestId: string) returns (r: RequestSpec)
      ensures r == RequestSpec(DELETE, [Lit("requests"), Param("uid", Some(requestId))], headers, None, None)
    {
      r := RequestService.Endpoint(RequestService.DeleteRequest(requestId), headers, params);
    }

    method AddParam(key: string, value: Value) returns (self: AppRequest)
      modifies this`params
      ensures self == this && params == Put(old(params), key, value)
    {
      params := Put(params, key, value);
      return this;
    }

    method AddHeader(key: string, value: string) returns (self: AppRequest)
      modifies this`headers
      ensures self == this && headers == Put(old(headers), key, value)
    {
      headers := Put(headers, key, value);
      return this;
    }

    method AddHeaders(other: map<string, string>) returns (self: AppRequest)
      modifies this`headers
      ensures self == this && headers == PutAll(old(headers), other)
    {
      headers := PutAll(headers, other);
      return this;
    }

    method AddParams(other: map<string, Value>) returns (self: AppRequest)
      modifies this`params
      ensures self == this && params == PutAll(old(params), other)
    {
      params := PutAll(params, other);
      return this;
    }
  }
}
