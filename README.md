# Guild leaderboard: aggregation, cache and page statistics

This project models the core of a small Next.js guild leaderboard for Warcraft Logs.

The `GET` handler of `app/api/warcraftlogs/route.js` does the following:
- checks the OAuth credentials;
- asks the Warcraft Logs API for the guild roster and the class catalog;
- builds a class/spec map and drops hidden members;
- fetches zone rankings for the first 25 visible members, five at a time;
- decodes each reply into a leaderboard row with defaults for every missing field;
- adds a degraded row for a member whose request failed, and a "Not fetched" row for each member past the cap;
- sorts the rows by score and keeps the result in a module-level cache for thirty minutes.

The page, `app/page.js`, derives statistics from that list: the search and class filter, the per-boss summary and its order, the class list, the guild averages and the colour tiers.

The model is split into seven modules:

- `Wrappers`: the `Option` datatype.
- `Text`: ASCII lower-casing, the `/\s+/g` to `-` replacement, the two slug orders, substring search, the decimal text of a number, and a lexicographic order on `char` values that stands for the default string order of `sort()`.
- `Rounding`: `Math.round` as `floor(x + 0.5)` on reals, and the exact integer form of a rounded mean.
- `Sorting`: an insertion sort parameterised by a total-preorder comparator, proved to give a sorted permutation.
- `Aggregator`: the aggregation.
  - `BuildClassMap`, `ScanRankings`, `ProcessMember`, `FetchBatch`, `FetchInBatches` and `Aggregate` are methods with the source's loops and mutable locals.
  - Each is proved against a specification function: `ClassMapOf`, `BossScoresOf`/`PerformancesOf`, `FetchedEntry`, `FetchedEntries` and `ExpectedEntries`.
  - Lemmas state the properties of those functions.
- `RouteHandler`: the control flow of one uncached pass (`Compute`, specified by `Handled`) and the cache, as a class `LeaderboardCache` whose `Get` method updates `cachedData` and `cacheTimestamp` in place.
- `Display`: the page's statistics. `bossSummary`, which mutates a `Set` and an object in `forEach`, is a method with loops. The expression chains are functions.

Network replies are inputs:
- the token, guild and catalog replies are fields of `Upstream`;
- each member's rankings reply is `rankingFor(member)`, which is `RequestFailed`, or `Answered` with the decoded `zoneRankings` (or `None`), the `specRankings` spec and the item level.

The handler reports the upstream requests it issues, in order. `Date.now()` is a parameter: `now` at the freshness check, `doneAt` at the cache write.

JavaScript's falsy values (`undefined`, `null`, `0`, `""`) are written as the zero of the field's type. The progress counts are the exception: an absent count is `None`, and a `null` count is not modelled (see "## Left out"). Upstream floating-point numbers are exact reals.

Within a batch, rows are pushed in the order the promises settle, so the source leaves open the order of equal-score rows from the same batch. The rest of the order is fixed: `sort` is stable, the batches are pushed one after another, and the "Not fetched" rows come last. The model specifies the leaderboard as a permutation of the expected rows that is sorted by score, and does not state the fixed part of the tie order. `Aggregator.LeaderboardScoresUnique` shows that the score at every position is still determined.

A failed class-catalog request is fatal: the awaited request throws into the outer `catch`, and the handler answers 500 "API request failed" (route.js:137-141, 370-376).

## Model

| member | source | states |
|---|---|---|
| Aggregator.BuildClassMap | app/api/warcraftlogs/route.js:146-162 | the nested loops leave exactly the class map `ClassMapOf(catalog)`, where later classes and specs with the same id overwrite earlier ones |
| Aggregator.ClassMapKeys | app/api/warcraftlogs/route.js:147-152 | an id is a key of the class map exactly when some catalog class has that id |
| Aggregator.ClassMapLast | app/api/warcraftlogs/route.js:147-152 | a class whose id does not occur later in the catalog is the one the map holds for that id |
| Aggregator.SpecMapKeys | app/api/warcraftlogs/route.js:154-160 | an id is a key of a class's spec map exactly when one of its specs has it |
| Aggregator.SpecMapLast | app/api/warcraftlogs/route.js:154-160 | the last spec with a given id is the one the map holds |
| Aggregator.WalkLength | app/api/warcraftlogs/route.js:235-246 | the rankings walk stops at the first ranking with a truthy `rankPercent` and no encounter, because reading its name throws; no earlier ranking throws |
| Aggregator.ScanRankings | app/api/warcraftlogs/route.js:234-247 | the loop's `bossScores` and `bestPerformances` are those of the rankings walked before the throw |
| Aggregator.PerformancesOfRecorded | app/api/warcraftlogs/route.js:235-246 | a performance is recorded exactly when some ranking with a truthy `rankPercent` and an encounter produced it |
| Aggregator.BossScoresKeys | app/api/warcraftlogs/route.js:236-237 | a boss is a key of `bossScores` exactly when a recorded ranking names it |
| Aggregator.BossScoresLast | app/api/warcraftlogs/route.js:237 | the last recorded ranking of a boss sets its score, rounded with `Math.round` |
| Aggregator.TopPerformances | app/api/warcraftlogs/route.js:306 | the kept performances number min(3, n), are non-increasing in score, form a sub-multiset of the performances, and none left out scores higher than one kept |
| Aggregator.TopOfSorted | app/api/warcraftlogs/route.js:306 | any prefix of the score-sorted performances is sorted, comes from the performances, and dominates the rest |
| Aggregator.PerformanceOrder | app/api/warcraftlogs/route.js:306 | the comparator `b.score - a.score` is a total preorder |
| Aggregator.FetchedEntry | app/api/warcraftlogs/route.js:207-307 | the row of one member's rankings reply; its fields are stated by Aggregator.FailedRequestEntry, Aggregator.UndecodableRankingsEntry, Aggregator.SpecResolution, Aggregator.ProgressField, Aggregator.ScoreInRange and Aggregator.EntryPerformances |
| Aggregator.ProcessMember | app/api/warcraftlogs/route.js:207-307 | the try block's sequence of updates to `score`, `spec`, `specId`, `progress`, `bossScores` and `bestPerformances` yields the row `FetchedEntry` |
| Aggregator.TopFromRecorded | app/api/warcraftlogs/route.js:234-247 | every kept performance comes from a recorded ranking |
| Aggregator.EntryPerformances | app/api/warcraftlogs/route.js:234-247 | a row has at most three best performances, non-increasing in score, each produced by a ranking with a truthy `rankPercent` |
| Aggregator.FailedRequestEntry | app/api/warcraftlogs/route.js:308-328 | a failed rankings request gives spec "Unknown"/"unknown", score 0, item level 0, progress "0/9", no boss scores and no performances, with the member's id, name and server |
| Aggregator.UndecodableRankingsEntry | app/api/warcraftlogs/route.js:207-251 | a reply without zone rankings or spec rankings keeps every default: score 0, spec "Unknown"/"unknown", progress "0/9", nothing recorded, and the reply's item level |
| Aggregator.UnknownSlug | app/api/warcraftlogs/route.js:286 | the fallback slug of the spec "Unknown" is "unknown" |
| Aggregator.ClassOf | app/api/warcraftlogs/route.js:285 | `classMap[member.classID]` or the "Unknown" class; stated by Aggregator.UnknownClassEntry and Aggregator.ClassMapKeys |
| Aggregator.ResolveSpec | app/api/warcraftlogs/route.js:286-291 | the catalog spec for a truthy known id, else the raw spec and its slug; stated by Aggregator.SpecResolution |
| Aggregator.UnknownClassEntry | app/api/warcraftlogs/route.js:285 | a class id missing from the map gives class "Unknown" with slug "unknown", both for fetched and for "Not fetched" rows |
| Aggregator.SpecResolution | app/api/warcraftlogs/route.js:224-291 | the spec is the catalog spec when the spec id is truthy and known to the class; otherwise it is the ranked spec, then the spec-rankings spec, then "Unknown", with a slug that is lower-cased, hyphenated and free of whitespace |
| Aggregator.ProgressField | app/api/warcraftlogs/route.js:210-231 | progress is "kills/bosses" when both counts are defined, else "0/9" |
| Aggregator.ScoreInRange | app/api/warcraftlogs/route.js:224-301 | a best-performance average in [0, 100] gives an integer score in [0, 100] |
| Aggregator.Visible | app/api/warcraftlogs/route.js:168 | the visible members are the roster with every hidden member removed, each other member kept as often as it occurs |
| Aggregator.FetchBatch | app/api/warcraftlogs/route.js:180-330 | one batch requests the rankings of exactly its members and produces their rows |
| Aggregator.FetchInBatches | app/api/warcraftlogs/route.js:172-336 | the batch loop requests every capped member once, in order, and produces their rows |
| Aggregator.FetchedEntriesConcat | app/api/warcraftlogs/route.js:179-180 | the rows of two consecutive slices are the rows of their concatenation |
| Aggregator.ExpectedEntriesSplit | app/api/warcraftlogs/route.js:172-173 | the expected rows are the fetched rows of the first 25 visible members followed by "Not fetched" rows for the rest |
| Aggregator.Aggregate | app/api/warcraftlogs/route.js:146-363 | the leaderboard is a permutation of the expected rows sorted non-increasing by score, and rankings are requested for exactly the first 25 visible members |
| Aggregator.EntryOrder | app/api/warcraftlogs/route.js:363 | the comparator of the final sort is a total preorder |
| Aggregator.ExpectedIds | app/api/warcraftlogs/route.js:168-360 | the expected rows carry the visible members' ids, in order |
| Aggregator.ExpectedEntryIdentity | app/api/warcraftlogs/route.js:293-358 | every row carries its member's id and name |
| Aggregator.ExpectedFromVisible | app/api/warcraftlogs/route.js:168-360 | every expected row belongs to a non-hidden roster member |
| Aggregator.LeaderboardMembers | app/api/warcraftlogs/route.js:168-363 | the leaderboard has one row per visible member, its ids are exactly the visible members' ids, and no row comes from a hidden member |
| Aggregator.PastCapEntries | app/api/warcraftlogs/route.js:339-360 | a visible member at index 25 or later gets spec "Not fetched"/"not-fetched", score 0, item level 0, progress "0/9" and no boss scores or performances |
| Aggregator.LeaderboardPerformances | app/api/warcraftlogs/route.js:306-363 | every leaderboard row holds at most three performances, non-increasing in score |
| Aggregator.LeaderboardScoresUnique | app/api/warcraftlogs/route.js:363 | two score-sorted permutations of the same rows have the same score at every position |
| Aggregator.ExampleClassMapBuilt | app/api/warcraftlogs/route.js:146-162 | a one-class catalog with one spec gives the expected map |
| Aggregator.ExampleRankingsScanned | app/api/warcraftlogs/route.js:234-247 | a single 87.6 % ranking of "Boss1" records the score 88 |
| Aggregator.ExampleTopPerformances | app/api/warcraftlogs/route.js:306 | one performance is kept as is |
| Aggregator.ExampleProgress | app/api/warcraftlogs/route.js:229-231 | 7 kills of 9 bosses read "7/9" |
| Aggregator.ExampleEntryBuilt | app/api/warcraftlogs/route.js:207-307 | a frost mage's reply gives the expected row, field by field |
| Aggregator.ExampleExpected | app/api/warcraftlogs/route.js:168-360 | a roster of that one member expects exactly that row |
| Aggregator.FrostMageExample | app/api/warcraftlogs/route.js:146-363 | the leaderboard of that roster is exactly that row |
| Text.Lower | app/api/warcraftlogs/route.js:64 | `toLowerCase` keeps the length and lower-cases each character |
| Text.ReplaceWhitespaceRuns | app/api/warcraftlogs/route.js:64 | replacing whitespace runs with `-` leaves no whitespace and never lengthens the text |
| Text.ServerSlug | app/api/warcraftlogs/route.js:64 | the realm slug (hyphenate whitespace runs, then lower-case) has no whitespace and no ASCII upper-case letter |
| Text.SpecSlug | app/api/warcraftlogs/route.js:286 | the fallback spec slug (lower-case, then hyphenate whitespace runs) has no whitespace and no ASCII upper-case letter |
| Text.LowerNormal | app/api/warcraftlogs/route.js:64 | lower-casing text without whitespace leaves no whitespace and no ASCII upper-case letter |
| Text.ReplaceWithoutWhitespace | app/api/warcraftlogs/route.js:64 | text without whitespace is left alone by the replacement |
| Text.LowerIdempotent | app/api/warcraftlogs/route.js:64 | lower-casing twice is lower-casing once |
| Text.SkipWhitespaceLower | app/api/warcraftlogs/route.js:64 | skipping leading whitespace commutes with lower-casing |
| Text.LowerReplaceCommute | app/api/warcraftlogs/route.js:64 | lower-casing commutes with the whitespace replacement |
| Text.SlugsAgree | app/api/warcraftlogs/route.js:64-286 | the realm slug (replace, then lower) equals the spec slug (lower, then replace) |
| Text.ServerSlugNormal | app/api/warcraftlogs/route.js:64 | the server slug has no whitespace and no ASCII upper-case letter, and slugging it again changes nothing |
| Text.DecimalString | app/api/warcraftlogs/route.js:230 | a count is written as a nonempty string of decimal digits |
| Text.DecimalRoundTrip | app/api/warcraftlogs/route.js:230 | reading back the digits of a count gives the count |
| Text.ProgressTextInjective | app/api/warcraftlogs/route.js:230 | the progress text determines both the kill count and the boss count |
| Text.ContainsEmpty | app/page.js:76-77 | every text contains the empty search term |
| Text.LexTotal | app/page.js:121 | any two strings are ordered by the default sort order |
| Text.LexTransitive | app/page.js:121 | the default sort order is transitive |
| Text.LexAntisymmetric | app/page.js:121 | strings ordered both ways are equal |
| Rounding.JsRound | app/api/warcraftlogs/route.js:237 | `Math.round(x)` is the integer within half of x, taking the upper one at a tie |
| Rounding.RoundDiv | app/page.js:125 | the integer form `(2*sum + n) / (2*n)` is `Math.round(sum / n)` |
| Rounding.RoundDivIsRound | app/page.js:125 | the integer quotient formula rounds the exact mean |
| Rounding.FloorOfQuotient | app/page.js:125 | the floor of an exact quotient is the integer quotient |
| Rounding.JsRoundMonotone | app/page.js:106 | rounding never reverses an order |
| Rounding.JsRoundInteger | app/api/warcraftlogs/route.js:301 | rounding an integer returns it |
| Rounding.JsRoundWithin | app/page.js:106 | a value between two integers rounds to a value between them |
| Rounding.RoundDivWithin | app/page.js:125 | the rounded mean of a sum bounded by n·lo and n·hi lies in [lo, hi] |
| Sorting.SortBy | app/api/warcraftlogs/route.js:363 | the sort returns a permutation of its input |
| Sorting.InsertSorted | app/api/warcraftlogs/route.js:363 | inserting into a sorted sequence keeps it sorted under a total preorder |
| Sorting.SortBySorted | app/api/warcraftlogs/route.js:363 | the sort's result is sorted under a total preorder |
| Sorting.PrefixDominates | app/api/warcraftlogs/route.js:306 | in a sorted sequence, every element of a prefix is at least every element after it |
| Sorting.DistinctPermutation | app/page.js:117 | a permutation of a sequence without repeats has no repeats |
| Sorting.DistinctCount | app/page.js:117 | in a sequence without repeats, an element occurs at most once |
| Sorting.MapSeq | app/api/warcraftlogs/route.js:183 | mapping keeps the length and applies the function at each index |
| Sorting.MapPermutation | app/api/warcraftlogs/route.js:363 | mapping permutations gives permutations |
| Sorting.MapConcat | app/api/warcraftlogs/route.js:179-180 | mapping distributes over concatenation |
| Sorting.NonIncreasingUnique | app/api/warcraftlogs/route.js:363 | two non-increasing permutations of the same numbers are equal |
| RouteHandler.OrDefault | app/api/warcraftlogs/route.js:33-35 | `value or fallback` is the value or the fallback, and is empty only when the fallback is |
| RouteHandler.SettingsOf | app/api/warcraftlogs/route.js:33-64 | the guild name and region are never empty, and the server slug has no whitespace or ASCII upper-case letter |
| RouteHandler.Compute | app/api/warcraftlogs/route.js:33-376 | one uncached pass answers as `Handled` requires, for each branch and with the exact list of upstream requests |
| RouteHandler.BuildLeaderboard | app/api/warcraftlogs/route.js:143-363 | the aggregation step answers the sorted permutation of the expected rows and one rankings request per capped visible member |
| RouteHandler.LeaderboardIffSuccess | app/api/warcraftlogs/route.js:43-117 | a leaderboard is answered exactly when the credentials are set, the token, guild and catalog requests succeed, and the guild is found |
| RouteHandler.RequestBudget | app/api/warcraftlogs/route.js:53-183 | a pass issues at most 28 requests, exactly 3 + min(visible, 25) on success, and rankings requests come after the three fixed ones, only for non-hidden roster members |
| RouteHandler.RankingsQueriesFromVisible | app/api/warcraftlogs/route.js:168-183 | the rankings requests are min(visible, 25) in number and target only non-hidden roster members |
| RouteHandler.HandledDeterministic | app/api/warcraftlogs/route.js:33-376 | a pass's requests and error answer are determined by its inputs, and so is the leaderboard up to the order of equal scores |
| RouteHandler.FailureStatuses | app/api/warcraftlogs/route.js:43-117 | an error answer has status 200 (GraphQL errors), 404 ("Guild not found") or 500, and a nonempty error name |
| RouteHandler.CacheHit | app/api/warcraftlogs/route.js:19 | the cache test: not forced, data present, a truthy stamp, and younger than thirty minutes; stated by RouteHandler.CacheWindow and RouteHandler.LeaderboardCache.Get |
| RouteHandler.CacheWindow | app/api/warcraftlogs/route.js:19 | an unforced request is served from a stored list with a truthy stamp exactly while `now` is less than the stamp plus thirty minutes |
| RouteHandler.LeaderboardCache.constructor | app/api/warcraftlogs/route.js:6-7 | the cache starts empty |
| RouteHandler.LeaderboardCache.Get | app/api/warcraftlogs/route.js:13-22 | a hit (not forced, data and a truthy stamp, younger than thirty minutes) answers the stored list with no request and no state change; a miss runs one pass, and only a leaderboard replaces the cache, stamped at `doneAt` |
| RouteHandler.ServeTwice | app/api/warcraftlogs/route.js:19-22 | after a forced refresh that produced a leaderboard, an unforced request within thirty minutes of the write answers the same leaderboard without any upstream request |
| Display.FilterPlayers | app/page.js:72-83 | a player is kept, as often as it occurs, exactly when the term is empty or the name or spec contains it ignoring case, and the class filter is empty or equals its class |
| Display.FilteredAndSortedPlayers | app/page.js:72-84 | the shown list is the kept players, sorted non-increasing by score |
| Display.NoFilterShowsAll | app/page.js:72-84 | with both filters empty every player is shown |
| Display.SearchIgnoresCase | app/page.js:75-77 | the search term's case does not matter |
| Display.ScoresFor | app/page.js:99-101 | every collected score of a boss is nonzero and is some player's truthy score for it, there are at most as many as players, and there are none exactly when no player has one |
| Display.BossKeys | app/page.js:91-94 | the boss names are exactly the keys of some player's boss scores |
| Display.CollectBosses | app/page.js:91-94 | the loop collects exactly those boss names |
| Display.SummarizeBosses | app/page.js:97-110 | the loop keeps a boss exactly when it has a truthy score, with that boss's count and rounded mean |
| Display.BossSummary | app/page.js:87-113 | the summary has a boss exactly when some player has a truthy score for it; its count is the number of those scores and its average their rounded mean |
| Display.SumWithin | app/page.js:104 | a sum of n values in [lo, hi] lies in [n·lo, n·hi] |
| Display.ScoresForWithin | app/page.js:99-101 | bounds on players' scores for a boss bound every collected score |
| Display.BossAverageWithin | app/page.js:104-106 | a boss's rounded average lies within any bounds on its scores |
| Display.AverageOrder | app/page.js:117 | comparing bosses by average is a total preorder |
| Display.SortedBossNames | app/page.js:116-118 | the names are the summary's keys, each once, non-increasing in average |
| Display.Distinct | app/page.js:121 | the `Set` keeps exactly the given names, each once |
| Display.LexOrder | app/page.js:121 | the default sort order is a total preorder |
| Display.ClassNamesOf | app/page.js:121 | the mapped class names are exactly the players' classes |
| Display.UniqueClasses | app/page.js:121 | the class list holds exactly the players' classes, each once, in ascending order |
| Display.AverageScore | app/page.js:124-126 | the guild average is 0 for no players, else the rounded mean of all scores |
| Display.AverageScoreWithin | app/page.js:124-126 | the guild average lies within any bounds on the scores |
| Display.Equipped | app/page.js:130 | the filter keeps exactly the players with a truthy item level |
| Display.TotalOverEquipped | app/page.js:130 | players without an item level add nothing to the total |
| Display.EquippedNonEmpty | app/page.js:129-130 | when some player has an item level, the divisor is positive |
| Display.AverageItemLevel | app/page.js:129-131 | the guild item-level average; stated by Display.AverageItemLevelMean and Display.AverageItemLevelWithin |
| Display.AverageItemLevelMean | app/page.js:129-131 | the item-level average is 0 when nobody has an item level, else the rounded mean over those who have one |
| Display.TotalAtLeast | app/page.js:130 | n item levels at least lo total at least n·lo |
| Display.TotalAtMost | app/page.js:130 | n item levels at most hi total at most n·hi |
| Display.MeanWithin | app/page.js:130 | a total between n·lo and n·hi has a mean between lo and hi |
| Display.RoundedMeanWithin | app/page.js:130 | the rounded mean of item levels in [lo, hi] lies in [lo, hi] |
| Display.AverageItemLevelWithin | app/page.js:129-131 | the item-level average lies within any bounds on the truthy item levels |
| Display.ThresholdsReached | app/page.js:446-461 | a score reaches at most as many thresholds as there are |
| Display.RankTier | app/page.js:446-461 | the tier is one of the five colours |
| Display.RankColor | app/page.js:446-452 | the text colour of a score; its tiers are stated by Display.RankColorsByTier and Display.RankTierMonotone |
| Display.RankColorClass | app/page.js:455-461 | the background colour of a score; its tiers are stated by Display.RankColorsByTier and Display.RankTierMonotone |
| Display.RankColorsByTier | app/page.js:446-461 | both colour helpers choose the colour of the same tier, with thresholds 95, 75, 50 and 25 |
| Display.ThresholdsMonotone | app/page.js:446-461 | a higher score reaches at least as many thresholds |
| Display.RankTierMonotone | app/page.js:446-461 | a higher score never gets a lower tier |
| Display.ClassColor | app/page.js:415-433 | the table colour of a class, else the default grey; stated by Display.ClassColorFallback and Display.UnknownClassColor |
| Display.ClassColorFallback | app/page.js:415-433 | the default grey goes to exactly the classes outside the table and to "Priest" |
| Display.UnknownClassColor | app/page.js:415-433 | the "Unknown" class of unmapped rows is drawn in the default grey |

## Left out

- The HTTP requests are not modelled: the OAuth 2.0 client-credentials grant (section 4.4 of RFC 6749), the GraphQL POSTs and their query texts. Their outcomes are inputs, and the model records only which requests are issued and in what order.
- `JSON.parse` of upstream strings is not modelled. A `zoneRankings`, `specRankings` or `gameData` field that is absent or does not decode is an absent value in `RankOutcome`.
- The `error.response?.data?.error` or `error.message` choice of the 500 message is not modelled. Each failed request carries its final message.
- `Promise.all` fan-out is modelled sequentially, in batch order. The order in which a batch's promises settle only affects the order of that batch's rows with equal scores.
- The half-second `setTimeout` between batches is timing only.
- The mock-data branch and `generateMockData` are not modelled. `useMockData` is the constant `false`, and the generator depends on `Math.random`.
- `parseInt` of the zone id and difficulty, and the per-member region fallback, only feed the query text of a request whose outcome is an input.
- `member.server` is assumed present, and the model gives every member a server name. In the source, a fetched member without a server throws in the per-member `try`, and its `catch` reads `member.server.name` again (route.js:324). That throw rejects `Promise.all` (route.js:183), so the handler answers 500 "API request failed" (route.js:370-376). A member past the cap without a server throws at route.js:354, with the same 500.
- `app/api/config/route.js`, the React state, effects, JSX and the icon URL builders are UI and are not modelled. So are all `console` calls.
- Floating point is not modelled. Upstream numbers are exact reals, and `Math.round` is `floor(x + 0.5)`, which is exact for the values involved.
- Lower-casing is ASCII only; non-ASCII case mapping is not modelled. Whitespace is the full `\s` class of JavaScript regular expressions.
- The default string sort compares UTF-16 code units. The model compares `char` values.
- Objects with inherited or special keys (`__proto__`, numeric-string key order) are not modelled. Maps stand for plain objects.
- Aggregator.Aggregate: the order of rows with equal scores is not stated. The source leaves open only the order of equal-score rows within one batch. Under the stable sort, rows from different batches keep batch order, and every "Not fetched" row follows every fetched row with score 0. The model does not state this.
- RouteHandler.Compute: the leaderboard is stated up to the order of rows with equal scores, as in Aggregator.Aggregate, including the part of that order the source fixes.
- RouteHandler.LeaderboardCache.Get: the freshness check and the write use two separate times, `now` and `doneAt`. No clock relates them.
- Aggregator.ProgressField: a `null` count is not modelled. The source tests `!== undefined` (route.js:229), so a `null` count is written "null" in the progress text. `totalKills` and `totalBosses` are `Option<nat>`, which has room only for a count or `undefined`.
- Display.SortedBossNames: bosses with equal averages are not ordered. In the source they keep the insertion order of `Object.keys` (app/page.js:117), which is fixed. The method picks the keys of the summary in no stated order.
- Each member's rankings reply is `rankingFor(member)`, a function of the member record. So two identical roster records get the same reply, while the source sends two independent requests for them.
