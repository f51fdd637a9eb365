/** The app-request endpoints (RequestService.java). */
module RequestService {
  import opened Base
  import opened Http

  datatype Call =
    | Create(body: JsonBody)
    | ListRequests
    | ListRequestedStacks
    | DeleteRequest(uid: string)

  /** The request each interface method describes: every one takes the header
      map; only the two listings take the query map; only `create` has a body. */
  function Endpoint(c: Call, headers: map<string, string>, params: map<string, Value>): (r: RequestSpec)
    ensures r.headers == headers
    ensures r.query == if c.ListRequests? || c.ListRequestedStacks? then Some(params) else None
    ensures r.body == if c.Create? then Some(c.body) else None
    ensures r.verb == match c
      case Create(_) => POST
      case DeleteRequest(_) => DELETE
      case _ => GET
    ensures |r.path| >= 1 && r.path[0] == Lit("requests")
  {
    match c
    case Create(body) => RequestSpec(POST, [Lit("requests")], headers, None, Some(body))
    case ListRequests => RequestSpec(GET, [Lit("requests")], headers, Some(params), None)
    case ListRequestedStacks =>
      RequestSpec(GET, [Lit("requests"), Lit("view"), Lit("stacks")], headers, Some(params), None)
    case DeleteRequest(uid) =>
      RequestSpec(DELETE, [Lit("requests"), Param("uid", Some(uid))], headers, None, None)
  }

  /** The URL segments: `requests`, `requests/view/stacks` and `requests/{uid}`. */
  lemma {:induction false} RequestSegments(c: Call, headers: map<string, string>, params: map<string, Value>)
    requires c.DeleteRequest? ==> NoSlash(c.uid)
    ensures PathSegments(Endpoint(c, headers, params).path) == Some(
      match c
      case DeleteRequest(uid) => ["requests", uid]
      case ListRequestedStacks => ["requests", "view", "stacks"]
      case _ => ["requests"])
  {
    var path := Endpoint(c, headers, params).path;
    PathSegmentsOfWords(path);
    match c
    case DeleteRequest(uid) => assert Texts(path) == ["requests", uid];
    case ListRequestedStacks => assert Texts(path) == ["requests", "view", "stacks"];
    case _ => assert Texts(path) == ["requests"];
  }
}
