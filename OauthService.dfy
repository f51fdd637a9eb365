/** The OAuth configuration endpoints (OauthService.java). None of them
    declares a query map. */
module OauthService {
  import opened Base
  import opened Http

  datatype Call =
    | GetOauthConfiguration(uid: Option<string>)
    | FindScopes
    | UpdateOauthConfiguration(uid: Option<string>, body: JsonBody)

  /** The request each interface method describes. */
  function Endpoint(c: Call, headers: map<string, string>, params: map<string, Value>): (r: RequestSpec)
    ensures r.headers == headers && r.query == None
    ensures r.body == if c.UpdateOauthConfiguration? then Some(c.body) else None
    ensures r.verb == if c.UpdateOauthConfiguration? then PUT else GET
    ensures |r.path| == 3 && r.path[0] == Lit("manifests")
    ensures c.FindScopes? ==> r.path[1..] == [Lit("oauth"), Lit("scopes")]
    ensures !c.FindScopes? ==> r.path[1..] == [Param("uid", c.uid), Lit("oauth")]
  {
    match c
    case GetOauthConfiguration(uid) =>
      RequestSpec(GET, [Lit("manifests"), Param("uid", uid), Lit("oauth")], headers, None, None)
    case FindScopes =>
      RequestSpec(GET, [Lit("manifests"), Lit("oauth"), Lit("scopes")], headers, None, None)
    case UpdateOauthConfiguration(uid, body) =>
      RequestSpec(PUT, [Lit("manifests"), Param("uid", uid), Lit("oauth")], headers, None, Some(body))
  }

  /** The rendered paths: an empty uid leaves an empty segment ("manifests//oauth"),
      and the scopes path is fixed. */
  lemma {:induction false} OauthPaths(c: Call, headers: map<string, string>, params: map<string, Value>)
    requires !c.FindScopes? ==> c.uid.Some?
    ensures Render(Endpoint(c, headers, params).path) == Some(
      if c.FindScopes? then "manifests/oauth/scopes" else "manifests/" + c.uid.value + "/oauth")
  {
    var path := Endpoint(c, headers, params).path;
    var ws := if c.FindScopes? then ["manifests", "oauth", "scopes"] else ["manifests", c.uid.value, "oauth"];
    assert Texts(path) == ws;
    assert Join(ws[2..]) == ws[2];
    assert Join(ws[1..]) == ws[1] + "/" + ws[2] by { assert ws[1..][1..] == ws[2..]; }
    assert Join(ws) == ws[0] + "/" + ws[1] + "/" + ws[2];
    if c.FindScopes? {
      assert "manifests" + "/" + "oauth" + "/" + "scopes" == "manifests/oauth/scopes";
    } else {
      var u := c.uid.value;
      assert "manifests" + "/" + u + "/" + "oauth" == "manifests/" + u + "/oauth";
    }
  }
}
