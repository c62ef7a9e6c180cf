/**
 * The proxy (api/sleeper.py): each route builds one upstream path,
 * `sleeper_get` joins it to the fixed base URL, performs the request and
 * maps the outcome to what the client receives. The request itself is
 * abstracted as a function from URL to outcome.
 */
module Sleeper {
  import opened Optional
  import PathSegments

  const SleeperBaseUrl: string := "https://api.sleeper.app/v1"

  /** The status the proxy answers with when the upstream cannot be reached. */
  const BadGateway: int := 502

  /**
   * What the GET to the upstream produced: a transport error (DNS,
   * connection, timeout) with its message, or a response with its status,
   * its raw text and, when that text is JSON, the decoded value.
   */
  datatype Outcome<J> =
    | TransportFailure(error: string)
    | Response(status: int, text: string, json: Option<J>)

  /**
   * What the client receives: the decoded upstream body; an HTTP error with
   * status and detail; or, when a body with status below 400 is not JSON,
   * the decoding error that escapes the handler.
   */
  datatype Reply<J> =
    | Body(json: J)
    | HttpError(status: int, detail: string)
    | UndecodableBody(text: string)

  /** The four upstream-forwarding routes, with their parameters in declaration order. */
  datatype Route =
    | GetUser(userId: string)
    | GetUserLeagues(userId: string, season: string, sport: string)
    | GetLeague(leagueId: string)
    | GetLeagueRosters(leagueId: string)

  /** `f"{SLEEPER_BASE_URL}{path}"`: the base, then the path, nothing in between. */
  function UpstreamUrl(path: string): (url: string)
    ensures |url| == |SleeperBaseUrl| + |path|
    ensures url[..|SleeperBaseUrl|] == SleeperBaseUrl && url[|SleeperBaseUrl|..] == path
  {
    SleeperBaseUrl + path
  }

  /** The detail text of the 502 error. */
  function TransportDetail(error: string): string {
    "Could not reach Sleeper: " + error
  }

  /**
   * The branches of `sleeper_get` after the request: a transport error
   * becomes 502; a status of 400 or more is passed through with the raw
   * text; anything else returns the decoded body.
   */
  function Classify<J>(outcome: Outcome<J>): (r: Reply<J>)
    ensures r.HttpError? ==> r.status >= 400
    ensures outcome.TransportFailure? ==> r == HttpError(BadGateway, TransportDetail(outcome.error))
    ensures outcome.Response? ==> (r.HttpError? <==> outcome.status >= 400)
    ensures outcome.Response? && outcome.status >= 400 ==> r == HttpError(outcome.status, outcome.text)
    ensures r.Body? <==> outcome.Response? && outcome.status < 400 && outcome.json.Some?
    ensures r.Body? ==> r.json == outcome.json.value
  {
    match outcome
    case TransportFailure(e) => HttpError(BadGateway, TransportDetail(e))
    case Response(status, text, json) =>
      if status >= 400 then HttpError(status, text)
      else if json.Some? then Body(json.value)
      else UndecodableBody(text)
  }

  /**
   * `sleeper_get(path)`, with `upstream` standing for the GET of a URL: one
   * request, to the base URL followed by `path`, whose outcome decides the
   * reply.
   */
  function SleeperGet<J>(path: string, upstream: string -> Outcome<J>): (r: Reply<J>)
    ensures var o := upstream("https://api.sleeper.app/v1" + path);
      && (o.TransportFailure? ==> r == HttpError(502, "Could not reach Sleeper: " + o.error))
      && (o.Response? && o.status >= 400 ==> r == HttpError(o.status, o.text))
      && (o.Response? && o.status < 400 && o.json.Some? ==> r == Body(o.json.value))
      && (o.Response? && o.status < 400 && o.json.None? ==> r == UndecodableBody(o.text))
  {
    Classify(upstream(UpstreamUrl(path)))
  }

  /**
   * The f-string each handler passes to `sleeper_get`: the route's literal
   * segments joined by '/', parameters substituted in place.
   */
  function UpstreamPath(route: Route): (path: string)
    ensures path == PathSegments.Join(RouteSegments(route))
  {
    match route
    case GetUser(userId) =>
      ThreeSegmentPath("user", userId);
      "/user/" + userId
    case GetUserLeagues(userId, season, sport) =>
      UserLeaguesTemplate(userId, season, sport);
      "/user/" + userId + "/leagues/" + sport + "/" + season
    case GetLeague(leagueId) =>
      ThreeSegmentPath("league", leagueId);
      "/league/" + leagueId
    case GetLeagueRosters(leagueId) =>
      RostersTemplate(leagueId);
      "/league/" + leagueId + "/rosters"
  }

  /**
   * Serving `route`: one upstream request for its path, its outcome mapped
   * to the reply. Whatever the route, an error reply carries a status of
   * 400 or more, and an unreachable upstream gives 502.
   */
  function Handle<J>(route: Route, upstream: string -> Outcome<J>): (r: Reply<J>)
    ensures r.HttpError? ==> r.status >= 400
    ensures var o := upstream(UpstreamUrl(UpstreamPath(route)));
      o.TransportFailure? ==> r == HttpError(502, "Could not reach Sleeper: " + o.error)
  {
    SleeperGet(UpstreamPath(route), upstream)
  }

  /** Every parameter of the route is a single path segment. */
  predicate ParametersAreSegments(route: Route) {
    match route
    case GetUser(userId) => PathSegments.IsSegment(userId)
    case GetUserLeagues(userId, season, sport) =>
      PathSegments.IsSegment(userId) && PathSegments.IsSegment(season) && PathSegments.IsSegment(sport)
    case GetLeague(leagueId) => PathSegments.IsSegment(leagueId)
    case GetLeagueRosters(leagueId) => PathSegments.IsSegment(leagueId)
  }

  /** Reads the route back from an upstream path: the inverse of `UpstreamPath`. */
  function ParseUpstreamPath(path: string): Option<Route> {
    var s := PathSegments.Split(path);
    if |s| == 3 && s[0] == "" && s[1] == "user" then Some(GetUser(s[2]))
    else if |s| == 6 && s[0] == "" && s[1] == "user" && s[3] == "leagues" then Some(GetUserLeagues(s[2], s[5], s[4]))
    else if |s| == 3 && s[0] == "" && s[1] == "league" then Some(GetLeague(s[2]))
    else if |s| == 4 && s[0] == "" && s[1] == "league" && s[3] == "rosters" then Some(GetLeagueRosters(s[2]))
    else None
  }

  /** The segments each route's upstream path is made of, in order. */
  function RouteSegments(route: Route): (segs: seq<string>)
    ensures |segs| >= 1
  {
    match route
    case GetUser(userId) => ["", "user", userId]
    case GetUserLeagues(userId, season, sport) => ["", "user", userId, "leagues", sport, season]
    case GetLeague(leagueId) => ["", "league", leagueId]
    case GetLeagueRosters(leagueId) => ["", "league", leagueId, "rosters"]
  }

  /** `"/" + name + "/" + id` is the join of `["", name, id]`. */
  lemma ThreeSegmentPath(name: string, id: string)
    ensures "/" + name + "/" + id == PathSegments.Join(["", name, id])
  {
    JoinStep("", [name, id]);
    JoinStep(name, [id]);
    assert "/" + name + "/" + id == "" + "/" + (name + "/" + id);
  }

  /** The league-list template is the join of its six segments, sport before season. */
  lemma UserLeaguesTemplate(u: string, season: string, sport: string)
    ensures "/user/" + u + "/leagues/" + sport + "/" + season
         == PathSegments.Join(["", "user", u, "leagues", sport, season])
  {
    JoinStep("", ["user", u, "leagues", sport, season]);
    JoinStep("user", [u, "leagues", sport, season]);
    JoinStep(u, ["leagues", sport, season]);
    JoinStep("leagues", [sport, season]);
    JoinStep(sport, [season]);
    assert "/user/" + u + "/leagues/" + sport + "/" + season
        == "" + "/" + ("user" + "/" + (u + "/" + ("leagues" + "/" + (sport + "/" + season))));
  }

  /** The rosters template is the join of its four segments. */
  lemma RostersTemplate(l: string)
    ensures "/league/" + l + "/rosters" == PathSegments.Join(["", "league", l, "rosters"])
  {
    JoinStep("", ["league", l, "rosters"]);
    JoinStep("league", [l, "rosters"]);
    JoinStep(l, ["rosters"]);
    assert "/league/" + l + "/rosters" == "" + "/" + ("league" + "/" + (l + "/" + "rosters"));
  }

  /**
   * The league-list route puts sport before season, although the handler
   * declares season first: swapping two different values changes the path.
   */
  lemma UserLeaguesPathOrder(u: string, season: string, sport: string)
    ensures UpstreamPath(GetUserLeagues(u, season, sport)) == "/user/" + u + "/leagues/" + sport + "/" + season
    ensures ParametersAreSegments(GetUserLeagues(u, season, sport)) && season != sport ==>
      UpstreamPath(GetUserLeagues(u, season, sport)) != UpstreamPath(GetUserLeagues(u, sport, season))
  {
    if ParametersAreSegments(GetUserLeagues(u, season, sport)) {
      UpstreamPathRoundTrip(GetUserLeagues(u, season, sport));
      UpstreamPathRoundTrip(GetUserLeagues(u, sport, season));
    }
  }

  /** One step of `Join`: the first segment, a '/', then the rest joined. */
  lemma JoinStep(first: string, rest: seq<string>)
    requires |rest| >= 1
    ensures PathSegments.Join([first] + rest) == first + "/" + PathSegments.Join(rest)
  {
    assert ([first] + rest)[1..] == rest;
  }

  /** The upstream path determines the route and its parameters. */
  lemma UpstreamPathRoundTrip(route: Route)
    requires ParametersAreSegments(route)
    ensures ParseUpstreamPath(UpstreamPath(route)) == Some(route)
  {
    PathSegments.SplitJoin(RouteSegments(route));
  }

  /**
   * Distinct routes never build the same upstream path text. (How the HTTP
   * client later parses that text into a request is not part of this model.)
   */
  lemma UpstreamPathInjective(r1: Route, r2: Route)
    requires ParametersAreSegments(r1) && ParametersAreSegments(r2)
    requires UpstreamPath(r1) == UpstreamPath(r2)
    ensures r1 == r2
  {
    UpstreamPathRoundTrip(r1);
    UpstreamPathRoundTrip(r2);
  }

  /** Whatever the route, an unreachable upstream yields 502 with the transport message. */
  lemma UnreachableIsBadGateway<J>(route: Route, upstream: string -> Outcome<J>, error: string)
    requires upstream(UpstreamUrl(UpstreamPath(route))) == TransportFailure(error)
    ensures Handle(route, upstream) == HttpError(502, "Could not reach Sleeper: " + error)
  {
  }

  /** An upstream error status, 4xx or 5xx alike, reaches the client with the raw body as detail. */
  lemma UpstreamErrorPassesThrough<J>(route: Route, upstream: string -> Outcome<J>, status: int, text: string, json: Option<J>)
    requires status >= 400
    requires upstream(UpstreamUrl(UpstreamPath(route))) == Response(status, text, json)
    ensures Handle(route, upstream) == HttpError(status, text)
  {
  }

  /** A status below 400 with a JSON body returns exactly that body. */
  lemma UpstreamSuccessReturnsBody<J>(route: Route, upstream: string -> Outcome<J>, status: int, text: string, body: J)
    requires status < 400
    requires upstream(UpstreamUrl(UpstreamPath(route))) == Response(status, text, Some(body))
    ensures Handle(route, upstream) == Body(body)
  {
  }

  /** The rosters route asks for the league's rosters and nothing else. */
  lemma RostersRequestUrl<J>(leagueId: string, upstream: string -> Outcome<J>)
    ensures Handle(GetLeagueRosters(leagueId), upstream)
         == Classify(upstream("https://api.sleeper.app/v1/league/" + leagueId + "/rosters"))
  {
    assert UpstreamUrl(UpstreamPath(GetLeagueRosters(leagueId)))
        == "https://api.sleeper.app/v1/league/" + leagueId + "/rosters";
  }
}
