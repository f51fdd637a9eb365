/** The installation request builder (Installation.java), and the location and
    webhook builders it hands out. */
module Installations {
  import opened Base
  import opened Http
  import opened Constants
  import InstallationService
  import Locations
  import Webhooks

  const MISSING_ORG_ID := "organization uid is required"
  const INSTALLATION_ID_REQUIREMENT := "installationId is requirement"

  /** `checkOrganisationId`: `isEmpty()` on a null id throws the JVM's own
      NullPointerException (no message); an empty id throws one with a message. */
  function CheckOrganisationId(organisationId: Option<string>): (r: Outcome)
    ensures r.Pass? <==> organisationId.Some? && organisationId.value != ""
    ensures r.Fail? ==> r.error.NullPointerException?
    ensures r.Fail? ==> (r.error.message.Some? <==> organisationId.Some?)
    ensures r.Fail? && organisationId.Some? ==> r.error.message == Some(MISSING_ORG_ID)
  {
    match organisationId
    case None => Fail(NullPointerException(None))
    case Some(id) => if id == "" then Fail(NullPointerException(Some(MISSING_ORG_ID))) else Pass
  }

  /** `validateInstallationId`: a null or empty id is refused. */
  function ValidateInstallationId(installationId: Option<string>): (r: Outcome)
    ensures r.Pass? <==> installationId.Some? && |installationId.value| > 0
    ensures r.Fail? ==> r.error == IllegalArgumentException(Some(INSTALLATION_ID_REQUIREMENT))
  {
    if installationId.None? || installationId.value == "" then
      Fail(IllegalArgumentException(Some(INSTALLATION_ID_REQUIREMENT)))
    else
      Pass
  }

  class Installation {
    var headers: map<string, string>
    var params: map<string, Value>
    /** Null for an installation built from the organisation alone. */
    const installationId: Option<string>
    const organisationId: string

    /** `init`: the assignments both constructors end with. */
    constructor Init(organisationId: string, installationId: Option<string>)
      ensures headers == map[ORGANIZATION_UID := organisationId] && params == map[]
      ensures this.organisationId == organisationId && this.installationId == installationId
    {
      headers := map[ORGANIZATION_UID := organisationId];
      params := map[];
      this.organisationId := organisationId;
      this.installationId := installationId;
    }

    /** `new Installation(client, organisationId, installationId)`: the
        organisation id is checked; the installation id is stored unchecked. */
    static method New(organisationId: Option<string>, installationId: Option<string>) returns (r: Result<Installation>)
      ensures CheckOrganisationId(organisationId).Fail? ==> r == Failure(CheckOrganisationId(organisationId).error)
      ensures r.Success? <==> organisationId.Some? && organisationId.value != ""
      ensures r.Success? ==> && fresh(r.value) && r.value.params == map[]
                             && r.value.headers == map[ORGANIZATION_UID := organisationId.value]
                             && r.value.organisationId == organisationId.value
                             && r.value.installationId == installationId
    {
      var check := CheckOrganisationId(organisationId);
      if check.Fail? {
        return Failure(check.error);
      }
      var i := new Installation.Init(organisationId.value, installationId);
      return Success(i);
    }

    /** `new Installation(client, organisationId)`: as above, with no
        installation id. */
    static method NewForOrganisation(organisationId: Option<string>) returns (r: Result<Installation>)
      ensures CheckOrganisationId(organisationId).Fail? ==> r == Failure(CheckOrganisationId(organisationId).error)
      ensures r.Success? <==> organisationId.Some? && organisationId.value != ""
      ensures r.Success? ==> && fresh(r.value) && r.value.params == map[]
                             && r.value.headers == map[ORGANIZATION_UID := organisationId.value]
                             && r.value.organisationId == organisationId.value
                             && r.value.installationId == None
    {
      r := New(organisationId, None);
    }

    /** Whether the stored installation id passes `validateInstallationId`. */
    predicate HasId()
    {
      ValidateInstallationId(installationId).Pass?
    }

    /** The request of an id-scoped call, or the validation error. */
    function Scoped(call: string -> InstallationService.Call): (r: Result<RequestSpec>)
      reads this
      ensures !HasId() ==> r == Failure(IllegalArgumentException(Some(INSTALLATION_ID_REQUIREMENT)))
      ensures HasId() ==> r == Success(InstallationService.Endpoint(call(installationId.value), headers, params))
    {
      match ValidateInstallationId(installationId)
      case Fail(e) => Failure(e)
      case Pass => Success(InstallationService.Endpoint(call(installationId.value), headers, params))
    }

    /** GET installations/view/apps with the headers and the params. */
    method FindInstalledApps() returns (r: RequestSpec)
      ensures r == RequestSpec(GET, [Lit("installations"), Lit("view"), Lit("apps")], headers, Some(params), None)
    {
      r := InstallationService.Endpoint(InstallationService.ListInstalledApps, headers, params);
    }

    /** GET installations with the headers and the params. */
    method FindInstallations() returns (r: RequestSpec)
      ensures r == RequestSpec(GET, [Lit("installations")], headers, Some(params), None)
    {
      r := InstallationService.Endpoint(InstallationService.ListInstallations, headers, params);
    }

    /** GET installations/{id}; a null or empty installation id is refused. */
    method FetchInstallation() returns (r: Result<RequestSpec>)
      ensures !HasId() ==> r == Failure(IllegalArgumentException(Some(INSTALLATION_ID_REQUIREMENT)))
      ensures HasId() ==> r == Success(RequestSpec(GET, [Lit("installations"), Param("id", installationId)],
                                                   headers, Some(params), None))
    {
      r := Scoped(id => InstallationService.GetInstallations(id));
    }

    /** GET installations/{id}/installationData. */
    method FetchInstallationData() returns (r: Result<RequestSpec>)
      ensures !HasId() ==> r == Failure(IllegalArgumentException(Some(INSTALLATION_ID_REQUIREMENT)))
      ensures HasId() ==> r == Success(RequestSpec(GET,
        [Lit("installations"), Param("id", installationId), Lit("installationData")], headers, Some(params), None))
    {
      r := Scoped(id => InstallationService.GetInstallationData(id));
    }

    /** PUT installations/{id} with the body. */
    method UpdateInstallation(body: JsonBody) returns (r: Result<RequestSpec>)
      ensures !HasId() ==> r == Failure(IllegalArgumentException(Some(INSTALLATION_ID_REQUIREMENT)))
      ensures HasId() ==> r == Success(RequestSpec(PUT, [Lit("installations"), Param("id", installationId)],
                                                   headers, Some(params), Some(body)))
    {
      r := Scoped(id => InstallationService.UpdateInstallation(id, body));
    }

    /** GET installations/view/users with the headers and the params. */
    method FindInstalledUsers() returns (r: RequestSpec)
      ensures r == RequestSpec(GET, [Lit("installations"), Lit("view"), Lit("users")], headers, Some(params), None)
    {
      r := InstallationService.Endpoint(InstallationService.ListInstalledUsers, headers, params);
    }

    /** GET installations/view/stacks with the headers and the params. */
    method FindInstalledStacks() returns (r: RequestSpec)
      ensures r == RequestSpec(GET, [Lit("installations"), Lit("view"), Lit("stacks")], headers, Some(params), None)
    {
      r := InstallationService.Endpoint(InstallationService.ListInstalledStacks, headers, params);
    }

    /** DELETE installations/{id} with the headers only. */
    method Uninstall() returns (r: Result<RequestSpec>)
      ensures !HasId() ==> r == Failure(IllegalArgumentException(Some(INSTALLATION_ID_REQUIREMENT)))
      ensures HasId() ==> r == Success(RequestSpec(DELETE, [Lit("installations"), Param("id", installationId)],
                                                   headers, None, None))
    {
      r := Scoped(id => InstallationService.Uninstall(id));
    }

    /** GET installations/{id}/configuration. */
    method FetchAppConfiguration() returns (r: Result<RequestSpec>)
      ensures !HasId() ==> r == Failure(IllegalArgumentException(Some(INSTALLATION_ID_REQUIREMENT)))
      ensures HasId() ==> r == Success(RequestSpec(GET,
        [Lit("installations"), Param("id", installationId), Lit("configuration")], headers, Some(params), None))
    {
      r := Scoped(id => InstallationService.GetAppConfiguration(id));
    }

    /** GET installations/{id}/server-configuration. */
    method FetchServerConfiguration() returns (r: Result<RequestSpec>)
      ensures !HasId() ==> r == Failure(IllegalArgumentException(Some(INSTALLATION_ID_REQUIREMENT)))
      ensures HasId() ==> r == Success(RequestSpec(GET,
        [Lit("installations"), Param("id", installationId), Lit("server-configuration")], headers, Some(params), None))
    {
      r := Scoped(id => InstallationService.GetServerConfiguration(id));
    }

    /** PUT installations/{id}/server-configuration with the body. */
    method UpdateServerConfiguration(body: JsonBody) returns (r: Result<RequestSpec>)
      ensures !HasId() ==> r == Failure(IllegalArgumentException(Some(INSTALLATION_ID_REQUIREMENT)))
      ensures HasId() ==> r == Success(RequestSpec(PUT,
        [Lit("installations"), Param("id", installationId), Lit("server-configuration")],
        headers, Some(params), Some(body)))
    {
      r := Scoped(id => InstallationService.UpdateServerConfiguration(id, body));
    }

    /** PUT installations/{id}/configuration with the body. */
    method UpdateStackConfiguration(body: JsonBody) returns (r: Result<RequestSpec>)
      ensures !HasId() ==> r == Failure(IllegalArgumentException(Some(INSTALLATION_ID_REQUIREMENT)))
      ensures HasId() ==> r == Success(RequestSpec(PUT,
        [Lit("installations"), Param("id", installationId), Lit("configuration")],
        headers, Some(params), Some(body)))
    {
      r := Scoped(id => InstallationService.UpdateStackConfiguration(id, body));
    }

    /** POST installations/{id}/token. */
    method CreateInstallationToken() returns (r: Result<RequestSpec>)
      ensures !HasId() ==> r == Failure(IllegalArgumentException(Some(INSTALLATION_ID_REQUIREMENT)))
      ensures HasId() ==> r == Success(RequestSpec(POST,
        [Lit("installations"), Param("id", installationId), Lit("token")], headers, Some(params), None))
    {
      r := Scoped(id => InstallationService.CreateInstallationToken(id));
    }

    /** `location()`: a fresh Location for the organisation id and the
        validated installation id; headers and params are not inherited. */
    method Location() returns (r: Result<Locations.Location>)
      ensures !HasId() ==> r == Failure(IllegalArgumentException(Some(INSTALLATION_ID_REQUIREMENT)))
      ensures HasId() ==> && r.Success? && fresh(r.value) && r.value.installationId == installationId
                          && r.value.headers == map[ORGANIZATION_UID := organisationId] && r.value.params == map[]
    {
      if !HasId() {
        return Failure(IllegalArgumentException(Some(INSTALLATION_ID_REQUIREMENT)));
      }
      var l := new Locations.Location(organisationId, installationId);
      return Success(l);
    }

    /** `webhook(webhookId)`: a fresh Webhook for the organisation id, the
        given webhook id and the validated installation id. */
    method Webhook(webhookId: string) returns (r: Result<Webhooks.Webhook>)
      ensures !HasId() ==> r == Failure(IllegalArgumentException(Some(INSTALLATION_ID_REQUIREMENT)))
      ensures HasId() ==> && r.Success? && fresh(r.value) && r.value.installationId == installationId
                          && r.value.webhookId == webhookId
                          && r.value.headers == map[ORGANIZATION_UID := organisationId] && r.value.params == map[]
    {
      if !HasId() {
        return Failure(IllegalArgumentException(Some(INSTALLATION_ID_REQUIREMENT)));
      }
      var w := new Webhooks.Webhook(organisationId, webhookId, installationId);
      return Success(w);
    }

    method AddParam(key: string, value: Value) returns (self: Installation)
      modifies this`params
      ensures self == this && params == Put(old(params), key, value)
    {
      params := Put(params, key, value);
      return this;
    }

    method AddHeader(key: string, value: string) returns (self: Installation)
      modifies this`headers
      ensures self == this && headers == Put(old(headers), key, value)
    {
      headers := Put(headers, key, value);
      return this;
    }

    method AddParams(other: map<string, Value>) returns (self: Installation)
      modifies this`params
      ensures self == this && params == PutAll(old(params), other)
    {
      params := PutAll(params, other);
      return this;
    }

    method AddHeaders(other: map<string, string>) returns (self: Installation)
      modifies this`headers
      ensures self == this && headers == PutAll(old(headers), other)
    {
      headers := PutAll(headers, other);
      return this;
    }
  }
}
