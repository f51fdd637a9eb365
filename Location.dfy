/** The installation location request builder (Location.java). */
module Locations {
  import opened Base
  import opened Http
  import opened Constants
  import LocationService

  const INSTALLATION_ID_REQUIRED := "Installation Id is required"

  class Location {
    var headers: map<string, string>
    var params: map<string, Value>
    /** Stored as given; checked only when a request is built. */
    const installationId: Option<string>

    /** `new Location(client, organizationUid, installationId)`: no check. */
    constructor (organizationUid: string, installationId: Option<string>)
      ensures headers == map[ORGANIZATION_UID := organizationUid] && params == map[]
      ensures this.installationId == installationId
    {
      headers := map[ORGANIZATION_UID := organizationUid];
      params := map[];
      this.installationId := installationId;
    }

    /** GET installations/{uid}/locations/configuration with the headers and
        the params; a null installation id is refused. */
    method FetchConfigurationLocation() returns (r: Result<RequestSpec>)
      ensures installationId.None? ==> r == Failure(NullPointerException(Some(INSTALLATION_ID_REQUIRED)))
      ensures installationId.Some? ==> r == Success(RequestSpec(GET,
        [Lit("installations"), Param("uid", installationId), Lit("locations"), Lit("configuration")],
        headers, Some(params), None))
    {
      if installationId.None? {
        return Failure(NullPointerException(Some(INSTALLATION_ID_REQUIRED)));
      }
      var spec := LocationService.Endpoint(LocationService.GetConfigurationLocation(installationId), headers, params);
      return Success(spec);
    }

    method AddParam(key: string, value: Value) returns (self: Location)
      modifies this`params
      ensures self == this && params == Put(old(params), key, value)
    {
      params := Put(params, key, value);
      return this;
    }

    method AddHeader(key: string, value: string) returns (self: Location)
      modifies this`headers
      ensures self == this && headers == Put(old(headers), key, value)
    {
      headers := Put(headers, key, value);
      return this;
    }

    method AddParams(other: map<string, Value>) returns (self: Location)
      modifies this`params
      ensures self == this && params == PutAll(old(params), other)
    {
      params := PutAll(params, other);
      return this;
    }

    method AddHeaders(other: map<string, string>) returns (self: Location)
      modifies this`headers
      ensures self == this && headers == PutAll(old(headers), other)
    {
      headers := PutAll(headers, other);
      return this;
    }
  }
}
