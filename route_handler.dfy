/**
  The `GET` handler of the Warcraft Logs route: credential validation, the
  token, guild and class-catalog requests, the error responses, and the
  module-level cache that serves a leaderboard again for thirty minutes.

  The network is not modelled: each upstream request's outcome is an
  input (`Upstream`), and the handler reports which requests it issued, in
  order. The clock is an input too: `now` is the time of the freshness
  check and `doneAt` the time at which a fresh leaderboard is stored.
*/
module RouteHandler {
  import opened Wrappers
  import opened Text
  import opened Sorting
  import opened Aggregator

  /** Thirty minutes, in milliseconds. */
  const CacheDuration: int := 30 * 60 * 1000

  const DefaultGuildName: string := "Roddan"
  const DefaultRealmName: string := "your_realm_name"
  const DefaultRegion: string := "eu"

  const MissingCredentialsMessage: string :=
    "Please configure WARCRAFT_LOGS_CLIENT_ID and WARCRAFT_LOGS_CLIENT_SECRET in your environment variables"

  /** The environment variables the handler reads; "" stands for unset. */
  datatype Env = Env(guildName: string, realmName: string, region: string,
                     clientId: string, clientSecret: string)

  /** The guild coordinates sent upstream. */
  datatype Settings = Settings(guildName: string, serverSlug: string, region: string)

  /** The outcome of one upstream request: its decoded payload, or the message of the error it raised. */
  datatype Reply<T> = Ok(value: T) | Failed(message: string)

  /** The decoded guild query: top-level GraphQL errors, no guild, or the guild's member list. */
  datatype GuildReply = GraphQLErrors(errors: seq<string>) | NoGuild | Guild(members: seq<Member>)

  datatype Upstream = Upstream(token: Reply<string>, guild: Reply<GuildReply>,
                               classes: Reply<seq<GameClass>>, rankingFor: Member -> RankOutcome)

  /** The upstream requests, in the order the handler issues them. */
  datatype Request =
    | TokenRequest
    | GuildQuery(settings: Settings)
    | CatalogQuery
    | RankingsQuery(member: Member)

  /** What goes into the JSON body besides `error`. */
  datatype Detail = Message(text: string) | Errors(errors: seq<string>)

  datatype Response =
    | Leaderboard(entries: seq<Entry>)
    | Failure(status: int, error: string, detail: Detail)

  /** A JavaScript `value || fallback` on strings. */
  function OrDefault(value: string, fallback: string): (r: string)
    ensures r == value || r == fallback
    ensures r == "" ==> fallback == ""
  {
    if value == "" then fallback else value
  }

  function SettingsOf(env: Env): (s: Settings)
    ensures s.guildName != "" && s.region != ""
    ensures NoWhitespace(s.serverSlug) && NoUpperAscii(s.serverSlug)
  {
    var realm := OrDefault(env.realmName, DefaultRealmName);
    ServerSlugNormal(realm);
    Settings(OrDefault(env.guildName, DefaultGuildName), ServerSlug(realm), OrDefault(env.region, DefaultRegion))
  }

  function ApiFailure(message: string): Response {
    Failure(500, "API request failed", Message(message))
  }

  function NotFoundMessage(s: Settings): string {
    "Could not find guild \"" + s.guildName + "\" on " + s.serverSlug + "-" + s.region
  }

  function Missing(env: Env): bool {
    env.clientId == "" || env.clientSecret == ""
  }

  /**
    What one uncached pass of the handler answers and which requests it
    issues. The failure of any of the first three requests ends the pass
    with a 500; the leaderboard is the expected entries sorted by score.
  */
  ghost predicate Handled(env: Env, up: Upstream, resp: Response, requests: seq<Request>) {
    var s := SettingsOf(env);
    if Missing(env) then
      resp == Failure(500, "Missing API credentials", Message(MissingCredentialsMessage)) && requests == []
    else if up.token.Failed? then
      resp == ApiFailure(up.token.message) && requests == [TokenRequest]
    else if up.guild.Failed? then
      resp == ApiFailure(up.guild.message) && requests == [TokenRequest, GuildQuery(s)]
    else if up.guild.value.GraphQLErrors? then
      resp == Failure(200, "GraphQL error", Errors(up.guild.value.errors)) && requests == [TokenRequest, GuildQuery(s)]
    else if up.guild.value.NoGuild? then
      resp == Failure(404, "Guild not found", Message(NotFoundMessage(s))) && requests == [TokenRequest, GuildQuery(s)]
    else if up.classes.Failed? then
      resp == ApiFailure(up.classes.message) && requests == [TokenRequest, GuildQuery(s), CatalogQuery]
    else
      && resp.Leaderboard?
      && Aggregated(up.guild.value.members, up.classes.value, up.rankingFor, resp.entries)
      && requests == [TokenRequest, GuildQuery(s), CatalogQuery] + RankingsQueries(up.guild.value.members)
  }

  /** The leaderboard of a roster: its expected entries, sorted by score. */
  ghost predicate Aggregated(roster: seq<Member>, catalog: seq<GameClass>, rankingFor: Member -> RankOutcome,
                             entries: seq<Entry>) {
    && multiset(entries) == multiset(ExpectedEntries(roster, ClassMapOf(catalog), rankingFor))
    && SortedByScore(entries)
  }

  /** One rankings request per fetched member: the first `MaxCharacters` visible ones. */
  function RankingsQueries(roster: seq<Member>): seq<Request> {
    var visible := Visible(roster);
    MapSeq(visible[..Min(|visible|, MaxCharacters)], m => RankingsQuery(m))
  }

  /** One uncached pass of the handler. */
  method Compute(env: Env, up: Upstream) returns (resp: Response, requests: seq<Request>)
    ensures Handled(env, up, resp, requests)
  {
    var settings := SettingsOf(env);
    if Missing(env) {
      return Failure(500, "Missing API credentials", Message(MissingCredentialsMessage)), [];
    }
    requests := [TokenRequest];
    if up.token.Failed? {
      return ApiFailure(up.token.message), requests;
    }
    requests := requests + [GuildQuery(settings)];
    if up.guild.Failed? {
      return ApiFailure(up.guild.message), requests;
    }
    match up.guild.value
    case GraphQLErrors(errors) =>
      return Failure(200, "GraphQL error", Errors(errors)), requests;
    case NoGuild =>
      return Failure(404, "Guild not found", Message(NotFoundMessage(settings))), requests;
    case Guild(roster) =>
      requests := requests + [CatalogQuery];
      if up.classes.Failed? {
        return ApiFailure(up.classes.message), requests;
      }
      assert requests == [TokenRequest, GuildQuery(settings), CatalogQuery];
      var leaderboard, queries := BuildLeaderboard(roster, up.classes.value, up.rankingFor);
      return Leaderboard(leaderboard), requests + queries;
  }

  /** The aggregation step of a pass whose three fixed requests succeeded. */
  method BuildLeaderboard(roster: seq<Member>, catalog: seq<GameClass>, rankingFor: Member -> RankOutcome)
    returns (leaderboard: seq<Entry>, queries: seq<Request>)
    ensures Aggregated(roster, catalog, rankingFor, leaderboard)
    ensures queries == RankingsQueries(roster)
  {
    var queried;
    leaderboard, queried := Aggregate(roster, catalog, rankingFor);
    queries := MapSeq(queried, m => RankingsQuery(m));
  }

  /** `searchParams.get('refresh') === 'true'`. */
  function ForceRefresh(refresh: Option<string>): bool {
    refresh == Some("true")
  }

  /** The cache test: not forced, data present, a truthy timestamp, and younger than the duration. */
  function CacheHit(cachedData: Option<seq<Entry>>, cacheTimestamp: Option<int>, now: int, force: bool): bool {
    && !force && cachedData.Some? && cacheTimestamp.Some? && cacheTimestamp.value != 0
    && now - cacheTimestamp.value < CacheDuration
  }

  /** The module-level cache: the last leaderboard served and when it was stored. */
  class LeaderboardCache {
    var cachedData: Option<seq<Entry>>
    var cacheTimestamp: Option<int>

    constructor()
      ensures cachedData == None && cacheTimestamp == None
    {
      cachedData := None;
      cacheTimestamp := None;
    }

    predicate Serves(now: int, force: bool)
      reads this
    {
      CacheHit(cachedData, cacheTimestamp, now, force)
    }

    /**
      The handler. A cache hit answers the stored leaderboard with no
      request and no change; otherwise one pass runs, and only a
      leaderboard replaces the cache, stamped `doneAt`.
    */
    method Get(refresh: Option<string>, now: int, doneAt: int, env: Env, up: Upstream)
      returns (resp: Response, requests: seq<Request>)
      modifies this
      ensures old(Serves(now, ForceRefresh(refresh))) ==>
                resp == Leaderboard(old(cachedData).value) && requests == [] && unchanged(this)
      ensures !old(Serves(now, ForceRefresh(refresh))) ==>
                && Handled(env, up, resp, requests)
                && (resp.Leaderboard? ==> cachedData == Some(resp.entries) && cacheTimestamp == Some(doneAt))
                && (!resp.Leaderboard? ==> unchanged(this))
    {
      var forceRefresh := ForceRefresh(refresh);
      if Serves(now, forceRefresh) {
        return Leaderboard(cachedData.value), [];
      }
      resp, requests := Compute(env, up);
      if resp.Leaderboard? {
        cachedData := Some(resp.entries);
        cacheTimestamp := Some(doneAt);
      }
    }
  }

  /**
    Two requests within the cache duration: when the first pass produced a
    leaderboard and the second is not forced, the second answers the same
    leaderboard without any upstream request.
  */
  method ServeTwice(cache: LeaderboardCache, first: int, doneAt: int, second: int, env: Env, up: Upstream)
    returns (r1: Response, r2: Response, q2: seq<Request>)
    requires doneAt != 0 && second - doneAt < CacheDuration
    modifies cache
    ensures r1.Leaderboard? ==> r2 == r1 && q2 == []
  {
    var q1;
    r1, q1 := cache.Get(Some("true"), first, doneAt, env, up);
    r2, q2 := cache.Get(None, second, doneAt, env, up);
  }

  // ---------------------------------------------------------------------
  // Properties of the handler

  /** Within the duration and unforced, a stored leaderboard is served; a forced refresh or an expired one is not. */
  lemma {:induction false} CacheWindow(entries: seq<Entry>, stamp: int, now: int, force: bool)
    requires stamp != 0
    ensures CacheHit(Some(entries), Some(stamp), now, force) <==> !force && now < stamp + CacheDuration
  {
  }

  /** A leaderboard is answered exactly when the credentials are set, the three fixed requests succeed and the guild is found. */
  lemma LeaderboardIffSuccess(env: Env, up: Upstream, resp: Response, requests: seq<Request>)
    requires Handled(env, up, resp, requests)
    ensures resp.Leaderboard? <==>
              !Missing(env) && up.token.Ok? && up.guild.Ok? && up.guild.value.Guild? && up.classes.Ok?
  {
  }

  /**
    The handler never issues more than the three fixed requests and one
    rankings request per member it fetches, and fetches at most
    `MaxCharacters` members.
  */
  lemma RequestBudget(env: Env, up: Upstream, resp: Response, requests: seq<Request>)
    requires Handled(env, up, resp, requests)
    ensures |requests| <= 3 + MaxCharacters
    ensures resp.Leaderboard? ==>
              |requests| == 3 + Min(|Visible(up.guild.value.members)|, MaxCharacters)
    ensures forall k :: 0 <= k < |requests| && requests[k].RankingsQuery? ==>
              k >= 3 && requests[k].member in up.guild.value.members && !requests[k].member.hidden
  {
    if resp.Leaderboard? {
      RankingsQueriesFromVisible(up.guild.value.members);
    }
  }

  /** The rankings requests go to members of the roster that are not hidden, at most `MaxCharacters` of them. */
  lemma RankingsQueriesFromVisible(roster: seq<Member>)
    ensures |RankingsQueries(roster)| == Min(|Visible(roster)|, MaxCharacters)
    ensures forall q :: q in RankingsQueries(roster) ==>
              q.RankingsQuery? && q.member in roster && !q.member.hidden
  {
    var visible := Visible(roster);
    var capped := visible[..Min(|visible|, MaxCharacters)];
    forall q | q in RankingsQueries(roster)
      ensures q.RankingsQuery? && q.member in roster && !q.member.hidden
    {
      var k :| 0 <= k < |capped| && RankingsQueries(roster)[k] == q;
      assert q == RankingsQuery(capped[k]);
      assert capped[k] in multiset(visible);
    }
  }

  /**
    The answer of an uncached pass is determined by its inputs, except for
    the order of leaderboard entries with equal scores.
  */
  lemma HandledDeterministic(env: Env, up: Upstream, r1: Response, q1: seq<Request>, r2: Response, q2: seq<Request>)
    requires Handled(env, up, r1, q1) && Handled(env, up, r2, q2)
    ensures q1 == q2
    ensures r1.Leaderboard? <==> r2.Leaderboard?
    ensures !r1.Leaderboard? ==> r1 == r2
    ensures r1.Leaderboard? ==>
              && multiset(r1.entries) == multiset(r2.entries)
              && |r1.entries| == |r2.entries|
              && forall i :: 0 <= i < |r1.entries| ==> r1.entries[i].score == r2.entries[i].score
  {
    if r1.Leaderboard? {
      LeaderboardScoresUnique(r1.entries, r2.entries);
    }
  }

  /** Every error response carries status 200, 404 or 500, with a nonempty error name. */
  lemma FailureStatuses(env: Env, up: Upstream, resp: Response, requests: seq<Request>)
    requires Handled(env, up, resp, requests)
    ensures resp.Failure? ==> resp.status in {200, 404, 500} && resp.error != ""
    ensures resp.Failure? && resp.status == 404 ==> resp.error == "Guild not found"
  {
  }
}
