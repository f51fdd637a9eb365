/** The header names and messages shared by the marketplace wrappers
    (Constants.java). */
module Constants {
  import opened Base

  const ERROR_NO_ORGANIZATION_UID := "Organization uid could not be empty"
  const ORGANIZATION_UID := "organization_uid"
  const AUTHTOKEN := "authtoken"

  /** The header map a wrapper starts with when it is given an organisation uid
      and an optional authtoken (App and Auth constructors). */
  function OrganizationHeaders(organizationUid: string, authtoken: Option<string>): (r: map<string, string>)
    ensures r.Keys == if authtoken.Some? then {ORGANIZATION_UID, AUTHTOKEN} else {ORGANIZATION_UID}
    ensures r[ORGANIZATION_UID] == organizationUid
    ensures authtoken.Some? ==> r[AUTHTOKEN] == authtoken.value
  {
    var base := map[ORGANIZATION_UID := organizationUid];
    if authtoken.Some? then Put(base, AUTHTOKEN, authtoken.value) else base
  }
}
