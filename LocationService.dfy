/** The location endpoint (LocationService.java). */
module LocationService {
  import opened Base
  import opened Http

  datatype Call = GetConfigurationLocation(uid: Option<string>)

  /** GET installations/{uid}/locations/configuration, with the header map and
      the query map and without a body. */
  function Endpoint(c: Call, headers: map<string, string>, params: map<string, Value>): (r: RequestSpec)
    ensures r.verb == GET
    ensures r.headers == headers && r.query == Some(params) && r.body == None
    ensures |r.path| == 4 && r.path[1] == Param("uid", c.uid)
  {
    RequestSpec(GET, [Lit("installations"), Param("uid", c.uid), Lit("locations"), Lit("configuration")],
                headers, Some(params), None)
  }

  /** The URL has four segments with the installation id at index 1. */
  lemma ConfigurationLocationSegments(id: string, headers: map<string, string>, params: map<string, Value>)
    requires NoSlash(id)
    ensures PathSegments(Endpoint(GetConfigurationLocation(Some(id)), headers, params).path)
         == Some(["installations", id, "locations", "configuration"])
  {
    var path := Endpoint(GetConfigurationLocation(Some(id)), headers, params).path;
    PathSegmentsOfWords(path);
    assert Texts(path) == ["installations", id, "locations", "configuration"];
  }
}
