/** The authorized-apps endpoint (AuthService.java). */
module AuthService {
  import opened Base
  import opened Http

  datatype Call = FindAuthorizedApps

  /** GET authorized-apps, with the header map and the query map and without
      a body. */
  function Endpoint(c: Call, headers: map<string, string>, params: map<string, Value>): (r: RequestSpec)
    ensures r.verb == GET
    ensures r.headers == headers && r.query == Some(params) && r.body == None
  {
    RequestSpec(GET, [Lit("authorized-apps")], headers, Some(params), None)
  }

  /** The URL path is the single segment "authorized-apps". */
  lemma AuthorizedAppsSegments(headers: map<string, string>, params: map<string, Value>)
    ensures PathSegments(Endpoint(FindAuthorizedApps, headers, params).path) == Some(["authorized-apps"])
  {
    var path := Endpoint(FindAuthorizedApps, headers, params).path;
    PathSegmentsOfWords(path);
    assert Texts(path) == ["authorized-apps"];
  }
}
