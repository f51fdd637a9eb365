/**
 * The abstract request a service-interface method describes: the HTTP verb,
 * the path (its fixed parts and the values bound to its placeholders), the
 * header map, the query map when the method declares one, and the JSON body
 * when it declares one. How the HTTP library encodes and sends it is not
 * modelled.
 */
module Http {
  import opened Base

  datatype Verb = GET | POST | PUT | PATCH | DELETE

  /** One part of a path template: a fixed word, a `{name}` placeholder with
      the (possibly null) value bound to it, or the whole `{url}` of the
      encoded url-as-path endpoints, whose slashes are kept. */
  datatype Segment =
    | Lit(text: string)
    | Param(name: string, value: Option<string>)
    | Url(url: string)

  datatype RequestSpec = RequestSpec(
    verb: Verb,
    path: seq<Segment>,
    headers: map<string, string>,
    query: Option<map<string, Value>>,
    body: Option<JsonBody>)

  /** The text a segment stands for, or null for a placeholder bound to null. */
  function TextOf(s: Segment): Option<string>
  {
    match s
    case Lit(t) => Some(t)
    case Param(_, v) => v
    case Url(u) => Some(u)
  }

  /** Whether every placeholder of the path is bound to a non-null value. */
  predicate Bound(path: seq<Segment>)
  {
    forall i :: 0 <= i < |path| ==> TextOf(path[i]).Some?
  }

  /** The texts of the segments, when every placeholder is bound. */
  function Texts(path: seq<Segment>): (r: seq<string>)
    requires Bound(path)
    ensures |r| == |path|
    ensures forall i :: 0 <= i < |path| ==> Some(r[i]) == TextOf(path[i])
  {
    seq(|path|, i requires 0 <= i < |path| => TextOf(path[i]).value)
  }

  /** `xs` joined with "/" between consecutive elements. */
  function Join(xs: seq<string>): string
    requires |xs| >= 1
  {
    if |xs| == 1 then xs[0] else xs[0] + "/" + Join(xs[1..])
  }

  /** `s` cut at every "/"; there is always at least one (possibly empty) piece. */
  function Split(s: string): (r: seq<string>)
    ensures |r| >= 1
  {
    if s == [] then [""]
    else if s[0] == '/' then [""] + Split(s[1..])
    else
      var rest := Split(s[1..]);
      [[s[0]] + rest[0]] + rest[1..]
  }

  /** The path a request is sent to (relative to the base URL), or null when a
      placeholder is bound to null. */
  function Render(path: seq<Segment>): (r: Option<string>)
    requires |path| >= 1
    ensures r.Some? <==> Bound(path)
  {
    if Bound(path) then Some(Join(Texts(path))) else None
  }

  /** The path segments of the request URL, as the unit tests inspect them. */
  function PathSegments(path: seq<Segment>): (r: Option<seq<string>>)
    requires |path| >= 1
    ensures r.Some? <==> Bound(path)
  {
    match Render(path)
    case Some(p) => Some(Split(p))
    case None => None
  }

  predicate NoSlash(s: string)
  {
    forall i :: 0 <= i < |s| ==> s[i] != '/'
  }

  /** Splitting a slash-free word followed by anything keeps the word at the
      head of the first piece. */
  lemma {:induction false} SplitAfterWord(a: string, t: string)
    requires NoSlash(a)
    ensures Split(a + t) == [a + Split(t)[0]] + Split(t)[1..]
    decreases |a|
  {
    if a == [] {
      var r := Split(t);
      assert a + t == t && a + r[0] == r[0];
      assert [r[0]] + r[1..] == r;
    } else {
      var s := a + t;
      assert s[0] == a[0] && s[1..] == a[1..] + t;
      SplitAfterWord(a[1..], t);
      assert [a[0]] + (a[1..] + Split(t)[0]) == a + Split(t)[0];
    }
  }

  /** Every placeholder is bound to a non-null value and no segment holds a
      "/": the path's URL segments are then exactly its segments. */
  predicate Words(path: seq<Segment>)
  {
    Bound(path) && forall i :: 0 <= i < |path| ==> NoSlash(TextOf(path[i]).value)
  }

  /** Joining slash-free words and splitting the result gives the words back. */
  lemma {:induction false} SplitJoin(xs: seq<string>)
    requires |xs| >= 1
    requires forall i :: 0 <= i < |xs| ==> NoSlash(xs[i])
    ensures Split(Join(xs)) == xs
    decreases |xs|
  {
    if |xs| == 1 {
      SplitAfterWord(xs[0], "");
      assert xs[0] + "" == xs[0];
    } else {
      var tail := Join(xs[1..]);
      SplitJoin(xs[1..]);
      SplitAfterWord(xs[0], "/" + tail);
      assert ("/" + tail)[0] == '/' && ("/" + tail)[1..] == tail;
      assert Split("/" + tail) == [""] + Split(tail);
      assert Join(xs) == xs[0] + ("/" + tail);
      assert xs[0] + "" == xs[0];
      assert [xs[0]] + xs[1..] == xs;
    }
  }

  /** When every segment stands for a slash-free word, the URL has exactly the
      template's segments, in order, with each placeholder replaced by its value. */
  lemma PathSegmentsOfWords(path: seq<Segment>)
    requires |path| >= 1
    requires Words(path)
    ensures PathSegments(path) == Some(Texts(path))
  {
    SplitJoin(Texts(path));
  }

  /** An encoded url-as-path request is sent to the url itself, slashes kept. */
  /** A path whose segments stand for the given slash-free words has exactly
      those words as its URL segments. */
  lemma SegmentsOfTexts(path: seq<Segment>, words: seq<string>)
    requires |path| == |words| >= 1
    requires forall i :: 0 <= i < |path| ==> TextOf(path[i]) == Some(words[i]) && NoSlash(words[i])
    ensures PathSegments(path) == Some(words)
  {
    assert Texts(path) == words;
    PathSegmentsOfWords(path);
  }

  lemma UrlAsPath(url: string)
    ensures Render([Url(url)]) == Some(url)
  {
  }
}
