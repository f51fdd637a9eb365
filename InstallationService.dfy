/** The installation endpoints (InstallationService.java). Every method takes
    the header map; the `{id}` placeholder is bound to the installation id. */
module InstallationService {
  import opened Base
  import opened Http

  datatype Call =
    | ListInstalledApps
    | ListInstallations
    | GetInstallations(id: string)
    | GetInstallationData(id: string)
    | UpdateInstallation(id: string, body: JsonBody)
    | ListInstalledUsers
    | ListInstalledStacks
    | Uninstall(id: string)
    | GetAppConfiguration(id: string)
    | GetServerConfiguration(id: string)
    | UpdateServerConfiguration(id: string, body: JsonBody)
    | UpdateStackConfiguration(id: string, body: JsonBody)
    | CreateInstallationToken(id: string)

  /** Whether the call is addressed to one installation. */
  predicate IdScoped(c: Call)
  {
    !(c.ListInstalledApps? || c.ListInstallations? || c.ListInstalledUsers? || c.ListInstalledStacks?)
  }

  /** Whether the interface method declares a @Body. */
  predicate TakesBody(c: Call)
  {
    c.UpdateInstallation? || c.UpdateServerConfiguration? || c.UpdateStackConfiguration?
  }

  /** The request each interface method describes. */
  function Endpoint(c: Call, headers: map<string, string>, params: map<string, Value>): (r: RequestSpec)
    ensures r.headers == headers
    ensures r.query == if c.Uninstall? then None else Some(params)
    ensures r.body == if TakesBody(c) then Some(c.body) else None
    ensures r.verb == if TakesBody(c) then PUT else if c.Uninstall? then DELETE
                      else if c.CreateInstallationToken? then POST else GET
    ensures |r.path| >= 1 && r.path[0] == Lit("installations")
    ensures IdScoped(c) ==> |r.path| >= 2 && r.path[1] == Param("id", Some(c.id))
    ensures !IdScoped(c) ==> (c.ListInstallations? <==> |r.path| == 1) && forall i :: 0 <= i < |r.path| ==> r.path[i].Lit?
  {
    match c
    case ListInstalledApps =>
      RequestSpec(GET, [Lit("installations"), Lit("view"), Lit("apps")], headers, Some(params), None)
    case ListInstallations =>
      RequestSpec(GET, [Lit("installations")], headers, Some(params), None)
    case GetInstallations(id) =>
      RequestSpec(GET, [Lit("installations"), Param("id", Some(id))], headers, Some(params), None)
    case GetInstallationData(id) =>
      RequestSpec(GET, [Lit("installations"), Param("id", Some(id)), Lit("installationData")],
                  headers, Some(params), None)
    case UpdateInstallation(id, body) =>
      RequestSpec(PUT, [Lit("installations"), Param("id", Some(id))], headers, Some(params), Some(body))
    case ListInstalledUsers =>
      RequestSpec(GET, [Lit("installations"), Lit("view"), Lit("users")], headers, Some(params), None)
    case ListInstalledStacks =>
      RequestSpec(GET, [Lit("installations"), Lit("view"), Lit("stacks")], headers, Some(params), None)
    case Uninstall(id) =>
      RequestSpec(DELETE, [Lit("installations"), Param("id", Some(id))], headers, None, None)
    case GetAppConfiguration(id) =>
      RequestSpec(GET, [Lit("installations"), Param("id", Some(id)), Lit("configuration")],
                  headers, Some(params), None)
    case GetServerConfiguration(id) =>
      RequestSpec(GET, [Lit("installations"), Param("id", Some(id)), Lit("server-configuration")],
                  headers, Some(params), None)
    case UpdateServerConfiguration(id, body) =>
      RequestSpec(PUT, [Lit("installations"), Param("id", Some(id)), Lit("server-configuration")],
                  headers, Some(params), Some(body))
    case UpdateStackConfiguration(id, body) =>
      RequestSpec(PUT, [Lit("installations"), Param("id", Some(id)), Lit("configuration")],
                  headers, Some(params), Some(body))
    case CreateInstallationToken(id) =>
      RequestSpec(POST, [Lit("installations"), Param("id", Some(id)), Lit("token")],
                  headers, Some(params), None)
  }

  /** The word after the id, if any, in an id-scoped URL. */
  function Suffix(c: Call): seq<string>
    requires IdScoped(c)
  {
    match c
    case GetInstallationData(_) => ["installationData"]
    case GetAppConfiguration(_) => ["configuration"]
    case UpdateStackConfiguration(_, _) => ["configuration"]
    case GetServerConfiguration(_) => ["server-configuration"]
    case UpdateServerConfiguration(_, _) => ["server-configuration"]
    case CreateInstallationToken(_) => ["token"]
    case _ => []
  }

  /** With a slash-free id, an id-scoped URL is installations/{id} followed by
      the call's own word: the id is always the second segment. */
  lemma {:induction false} InstallationSegments(c: Call, headers: map<string, string>, params: map<string, Value>)
    requires IdScoped(c) && NoSlash(c.id)
    ensures PathSegments(Endpoint(c, headers, params).path) == Some(["installations", c.id] + Suffix(c))
  {
    var path := Endpoint(c, headers, params).path;
    var head := [Lit("installations"), Param("id", Some(c.id))];
    var tail := seq(|Suffix(c)|, i requires 0 <= i < |Suffix(c)| => Lit(Suffix(c)[i]));
    assert path == head + tail;
    assert Texts(path) == ["installations", c.id] + Suffix(c);
    PathSegmentsOfWords(path);
  }

  /** The listing URLs: `installations` and `installations/view/apps|users|stacks`. */
  lemma {:induction false} ListingSegments(c: Call, headers: map<string, string>, params: map<string, Value>)
    requires !IdScoped(c)
    ensures PathSegments(Endpoint(c, headers, params).path) == Some(
      match c
      case ListInstalledApps => ["installations", "view", "apps"]
      case ListInstalledUsers => ["installations", "view", "users"]
      case ListInstalledStacks => ["installations", "view", "stacks"]
      case _ => ["installations"])
  {
    var path := Endpoint(c, headers, params).path;
    PathSegmentsOfWords(path);
    match c
    case ListInstalledApps => assert Texts(path) == ["installations", "view", "apps"];
    case ListInstalledUsers => assert Texts(path) == ["installations", "view", "users"];
    case ListInstalledStacks => assert Texts(path) == ["installations", "view", "stacks"];
    case ListInstallations => assert Texts(path) == ["installations"];
  }
}
