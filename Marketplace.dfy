/**
 * The SDK entry point (Marketplace.java): a builder for the organisation uid,
 * host, region and authtoken; host resolution when the marketplace is built;
 * and the factories that hand out the resource builders.
 */
module Marketplaces {
  import opened Base
  import opened Constants
  import opened Regions
  import Clients
  import Apps
  import Auths
  import Installations

  const DEFAULT_HOST := "developerhub-api.contentstack.com"
  const EMPTY_FIELDS := "Empty fields are not allowed"

  /** Java's string conversion of a possibly-null string in a concatenation. */
  function JavaText(s: Option<string>): string
  {
    if s.None? then "null" else s.value
  }

  /** The host the private constructor settles on. With a region, its prefix
      goes in front of the host (a null host reads "null"); then an empty
      result becomes the default host. Without a region, a null host throws
      from `isEmpty()`. */
  function ResolveHost(host: Option<string>, region: Option<Region>): (r: Result<string>)
    ensures r.Failure? <==> region.None? && host.None?
    ensures r.Failure? ==> r.error == NullPointerException(None)
    ensures r.Success? ==> r.value != ""
    ensures region.Some? ==> r.Success? && |r.value| >= |Prefix(region.value)|
                             && r.value[..|Prefix(region.value)|] == Prefix(region.value)
                             && r.value[|Prefix(region.value)|..] == JavaText(host)
    ensures region.None? && host.Some? ==> r == Success(if host.value == "" then DEFAULT_HOST else host.value)
  {
    var prefixed := if region.Some? then Some(Prefix(region.value) + JavaText(host)) else host;
    match prefixed
    case None => Failure(NullPointerException(None))
    case Some(h) => Success(if h == "" then DEFAULT_HOST else h)
  }

  /** With a region the prefixed host is never empty, so the default host is
      never chosen, whatever host was given. */
  lemma RegionNeverDefault(host: Option<string>, region: Region)
    ensures ResolveHost(host, Some(region)).Success?
    ensures ResolveHost(host, Some(region)).value != DEFAULT_HOST
  {
    var h := ResolveHost(host, Some(region)).value;
    PrefixSpelling(region);
    assert h[0] == h[..|Prefix(region)|][0] == LowerName(region)[0];
    assert DEFAULT_HOST[0] == 'd';
  }

  /** `setCredentials`: email and password, and the two-factor token only
      when a third argument is given. */
  function SetCredentials(arguments: seq<string>): (r: map<string, string>)
    requires |arguments| >= 2
    ensures r.Keys == {"email", "password"} + (if |arguments| > 2 then {"tfa_token"} else {})
    ensures r["email"] == arguments[0] && r["password"] == arguments[1]
    ensures |arguments| > 2 ==> r["tfa_token"] == arguments[2]
  {
    var credentials := map["email" := arguments[0], "password" := arguments[1]];
    if |arguments| > 2 then credentials["tfa_token" := arguments[2]] else credentials
  }

  /** `loginHeader`: the JSON content type and nothing else. */
  function LoginHeader(): (r: map<string, string>)
    ensures r.Keys == {"Content-Type"} && r["Content-Type"] == "application/json"
  {
    map["Content-Type" := "application/json"]
  }

  /** `Marketplace.Builder`: the organisation uid is fixed; the other three
      settings start null and each setter overwrites its own. */
  class Builder {
    const orgId: string
    var host: Option<string>
    var region: Option<Region>
    var authtoken: Option<string>

    constructor Init(organizationUid: string)
      ensures orgId == organizationUid && host == None && region == None && authtoken == None
    {
      orgId := organizationUid;
      host := None;
      region := None;
      authtoken := None;
    }

    /** `new Builder(organizationUid)`: an empty uid is refused. */
    static method New(organizationUid: string) returns (r: Result<Builder>)
      ensures r.Failure? <==> organizationUid == ""
      ensures r.Failure? ==> r.error == NullPointerException(Some(EMPTY_FIELDS))
      ensures r.Success? ==> && fresh(r.value) && r.value.orgId == organizationUid
                             && r.value.host == None && r.value.region == None && r.value.authtoken == None
    {
      if organizationUid == "" {
        return Failure(NullPointerException(Some(EMPTY_FIELDS)));
      }
      var b := new Builder.Init(organizationUid);
      return Success(b);
    }

    method Host(customHost: Option<string>) returns (self: Builder)
      modifies this`host
      ensures self == this && host == customHost
    {
      host := customHost;
      return this;
    }

    method Region(stackRegion: Option<Region>) returns (self: Builder)
      modifies this`region
      ensures self == this && region == stackRegion
    {
      region := stackRegion;
      return this;
    }

    method Authtoken(authtoken: Option<string>) returns (self: Builder)
      modifies this`authtoken
      ensures self == this && this.authtoken == authtoken
    {
      this.authtoken := authtoken;
      return this;
    }

    /** `build()`: resolve the host, then take the shared client for it. The
        shared client is created here only if no earlier build created it. */
    method Build(client: Clients.Client) returns (r: Result<Marketplace>)
      modifies client
      ensures ResolveHost(host, region).Failure? ==>
                r == Failure(ResolveHost(host, region).error) && client.instance == old(client.instance)
      ensures ResolveHost(host, region).Success? ==>
                && r.Success? && fresh(r.value)
                && r.value.orgId == orgId && r.value.authtoken == authtoken
                && r.value.host == ResolveHost(host, region).value
                && client.instance == Some(r.value.client)
                && (old(client.instance).Some? ==> r.value.client == old(client.instance).value)
                && (old(client.instance).None? ==> r.value.client.baseUrl == Clients.BaseUrl(r.value.host))
    {
      var resolved := ResolveHost(host, region);
      if resolved.Failure? {
        return Failure(resolved.error);
      }
      var retrofit := client.GetInstance(resolved.value);
      var m := new Marketplace(authtoken, orgId, resolved.value, retrofit);
      return Success(m);
    }
  }

  class Marketplace {
    const client: Clients.Retrofit
    const orgId: string
    const host: string
    const authtoken: Option<string>

    constructor (authtoken: Option<string>, organizationUid: string, host: string, client: Clients.Retrofit)
      ensures this.authtoken == authtoken && orgId == organizationUid && this.host == host && this.client == client
    {
      this.authtoken := authtoken;
      orgId := organizationUid;
      this.host := host;
      this.client := client;
    }

    /** `app()`: an App with this marketplace's authtoken and organisation uid. */
    method App() returns (r: Apps.App)
      ensures fresh(r) && r.Valid() && r.client == client && r.appUid == None
      ensures r.headers == OrganizationHeaders(orgId, authtoken) && r.params == map[]
    {
      var a := Apps.App.New(client, authtoken, Some(orgId));
      r := a.value;
    }

    /** `app(uid)`: as `app()`, for one app; a null uid is refused by App. */
    method AppWithUid(uid: Option<string>) returns (r: Result<Apps.App>)
      ensures uid.None? ==> r == Failure(NullPointerException(Some(Apps.MANIFEST_UID_REQUIRED)))
      ensures uid.Some? ==> && r.Success? && fresh(r.value) && r.value.Valid() && r.value.client == client
                            && r.value.appUid == uid && r.value.params == map[]
                            && r.value.headers == OrganizationHeaders(orgId, authtoken)
    {
      r := Apps.App.NewWithUid(client, authtoken, Some(orgId), uid);
    }

    /** `authorizations()`: an Auth with this marketplace's authtoken and
        organisation uid. */
    method Authorizations() returns (r: Auths.Auth)
      ensures fresh(r) && r.headers == OrganizationHeaders(orgId, authtoken) && r.params == map[]
    {
      var a := Auths.Auth.New(authtoken, Some(orgId));
      r := a.value;
    }

    /** `installation()` as written: the three-argument constructor receives
        the authtoken as the organisation id and the organisation uid as the
        installation id. */
    method Installation() returns (r: Result<Installations.Installation>)
      ensures Installations.CheckOrganisationId(authtoken).Fail? ==>
                r == Failure(Installations.CheckOrganisationId(authtoken).error)
      ensures Installations.CheckOrganisationId(authtoken).Pass? ==>
                && r.Success? && fresh(r.value)
                && r.value.headers == map[ORGANIZATION_UID := authtoken.value]
                && r.value.organisationId == authtoken.value
                && r.value.installationId == Some(orgId)
    {
      r := Installations.Installation.New(authtoken, Some(orgId));
    }

    /** `installation()` as its documentation describes it: an installation
        of this organisation, with no installation id, and never a failure. */
    method OrganisationInstallation() returns (r: Result<Installations.Installation>)
      requires orgId != ""
      ensures && r.Success? && fresh(r.value)
              && r.value.headers == map[ORGANIZATION_UID := orgId]
              && r.value.organisationId == orgId
              && r.value.installationId == None
    {
      r := Installations.Installation.NewForOrganisation(Some(orgId));
    }
  }

  /** With an authtoken set, the installation built as written carries the
      authtoken as its organisation header, where the corrected one carries
      the organisation uid. */
  method InstallationHeaderMismatch() returns (asWritten: Installations.Installation, corrected: Installations.Installation)
    ensures asWritten.headers == map[ORGANIZATION_UID := "token"] && asWritten.installationId == Some("org")
    ensures corrected.headers == map[ORGANIZATION_UID := "org"] && corrected.installationId == None
  {
    var c := new Clients.Retrofit(Clients.BaseUrl(DEFAULT_HOST));
    var m := new Marketplace(Some("token"), "org", DEFAULT_HOST, c);
    var w := m.Installation();
    asWritten := w.value;
    var k := m.OrganisationInstallation();
    corrected := k.value;
  }

  /** Two marketplaces built one after the other share one HTTP client, whose
      base URL is the first marketplace's host, whatever the second resolved. */
  method SharedClient(client: Clients.Client, first: Builder, second: Builder)
    returns (m1: Marketplace, m2: Marketplace)
    requires client.instance.None?
    requires ResolveHost(first.host, first.region).Success?
    requires ResolveHost(second.host, second.region).Success?
    modifies client
    ensures m1.client == m2.client
    ensures m2.client.baseUrl == Clients.BaseUrl(m1.host)
    ensures m2.host == ResolveHost(second.host, second.region).value
  {
    var r1 := first.Build(client);
    m1 := r1.value;
    var r2 := second.Build(client);
    m2 := r2.value;
  }
}
