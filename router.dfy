/** Express's choice of handler: a router tries its routes in the order they
    were registered and runs the first one whose path pattern matches the
    request path. Paths are given as their segments; case-insensitive
    matching and trailing slashes are not modelled. */
module Router {
  import opened Common

  /** One segment of a route path: fixed text, or a `:name` parameter, which
      matches any one non-empty segment. */
  datatype Segment = Literal(text: string) | Param

  predicate SegmentMatches(pattern: Segment, segment: string) {
    if pattern.Literal? then pattern.text == segment else segment != ""
  }

  predicate Matches(pattern: seq<Segment>, path: seq<string>) {
    |pattern| == |path| && forall i :: 0 <= i < |path| ==> SegmentMatches(pattern[i], path[i])
  }

  /** The index of the route that handles `path`, if any route matches. */
  function FirstMatch(routes: seq<seq<Segment>>, path: seq<string>): (r: Option<nat>)
    ensures r.Some? ==> r.value < |routes| && Matches(routes[r.value], path)
    ensures r.Some? ==> forall j :: 0 <= j < r.value ==> !Matches(routes[j], path)
    ensures r.None? <==> forall j :: 0 <= j < |routes| ==> !Matches(routes[j], path)
  {
    if |routes| == 0 then None
    else if Matches(routes[0], path) then Some(0)
    else
      var rest := FirstMatch(routes[1..], path);
      if rest.Some? then Some(rest.value + 1) else None
  }

  /** A pattern `general` covers `specific` when it matches every path that
      `specific` matches. */
  predicate Covers(general: seq<Segment>, specific: seq<Segment>) {
    && |general| == |specific|
    && forall i :: 0 <= i < |general| ==>
         general[i].Param? || (specific[i].Literal? && general[i].text == specific[i].text)
  }

  /** A route registered after one that covers it never runs; this does not
      hold for the empty literal segment, which no path of ours has. */
  lemma CoveredRouteNeverRuns(routes: seq<seq<Segment>>, j: nat, k: nat, path: seq<string>)
    requires j < k < |routes| && Covers(routes[j], routes[k])
    requires forall i :: 0 <= i < |routes[k]| ==> routes[k][i].Literal? ==> routes[k][i].text != ""
    ensures FirstMatch(routes, path) != Some(k)
  {
    if Matches(routes[k], path) {
      forall i | 0 <= i < |path|
        ensures SegmentMatches(routes[j][i], path[i])
      {
        assert SegmentMatches(routes[k][i], path[i]);
      }
      assert Matches(routes[j], path);
    }
  }

  /** Whether Mongoose can cast a path parameter to an ObjectId: 12 characters,
      or 24 hexadecimal digits. A parameter that cannot be cast makes
      `findById` throw. */
  predicate IsObjectIdText(s: string) {
    |s| == 12 || (|s| == 24 && forall i :: 0 <= i < 24 ==> '0' <= s[i] <= '9' || 'a' <= s[i] <= 'f' || 'A' <= s[i] <= 'F')
  }
}
