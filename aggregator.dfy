/**
  The leaderboard aggregation inside the `GET` handler of the Warcraft Logs
  route: the class/spec map built from the class catalog, the hidden-member
  filter, the capped batch loop that decodes each member's zone rankings,
  the degraded and "Not fetched" entries, and the final sort by score.

  The upstream replies are inputs. `rankingFor(m)` is the reply to the
  character-rankings request for member `m`; a reply that failed in
  transport is `RequestFailed`. JavaScript's falsy values (`undefined`,
  `null`, `0`, `""`) are written as the zero of the field's type.
*/
module Aggregator {
  import opened Wrappers
  import opened Text
  import opened Rounding
  import opened Sorting

  /** Only this many visible members receive a live rankings request. */
  const MaxCharacters: nat := 25
  /** Members whose requests are issued together. */
  const BatchSize: nat := 5
  const DefaultProgress: string := "0/9"

  // ---------------------------------------------------------------------
  // Data model

  /** A roster member, with `server.name` as `server`. */
  datatype Member = Member(id: int, name: string, classId: int, hidden: bool, server: string)

  /** One class of the game-data catalog, with its specs. */
  datatype GameSpec = GameSpec(id: int, name: string, slug: string)
  datatype GameClass = GameClass(id: int, name: string, slug: string, specs: seq<GameSpec>)

  /** The values of `classMap` and of its `specs` maps. */
  datatype SpecInfo = SpecInfo(name: string, slug: string)
  datatype ClassInfo = ClassInfo(name: string, slug: string, specs: map<int, SpecInfo>)

  /** One element of `zoneRankings.rankings`; `encounter` is `None` when the field is missing. */
  datatype Ranking = Ranking(encounter: Option<string>, rankPercent: real, reportId: string, fightId: int)

  /** A decoded `zoneRankings` object. A missing count is `None` (`undefined`). */
  datatype ZoneRankings = ZoneRankings(
    bestPerformanceAverage: real,
    spec: string,
    specId: int,
    totalKills: Option<nat>,
    totalBosses: Option<nat>,
    rankings: seq<Ranking>)

  /**
    The reply to one member's rankings request. `zoneRankings` is `None` when
    the field is absent or does not decode to an object; `specRankingsSpec` is
    the `spec` of the `specRankings` field ("" when absent or undecodable);
    `itemLevel` is `gameData.itemLevel` (0 when absent or undecodable).
  */
  datatype RankOutcome =
    | RequestFailed
    | Answered(zoneRankings: Option<ZoneRankings>, specRankingsSpec: string, itemLevel: real)

  datatype Performance = Performance(boss: string, score: int, reportId: string, fightId: int)

  /** One row of the leaderboard, as the route returns it. */
  datatype Entry = Entry(
    id: int,
    name: string,
    className: string,
    classId: int,
    classSlug: string,
    spec: string,
    specSlug: string,
    score: int,
    itemLevel: real,
    server: string,
    progress: string,
    bossScores: map<string, int>,
    bestPerformances: seq<Performance>)

  function Min(a: int, b: int): int {
    if a <= b then a else b
  }

  // ---------------------------------------------------------------------
  // The class/spec map

  /** The `specs` map of one class: later specs with the same id overwrite earlier ones. */
  function SpecMapOf(specs: seq<GameSpec>): map<int, SpecInfo> {
    if specs == [] then map[]
    else
      var spec := specs[|specs| - 1];
      SpecMapOf(specs[..|specs| - 1])[spec.id := SpecInfo(spec.name, spec.slug)]
  }

  function ClassInfoOf(gameClass: GameClass): ClassInfo {
    ClassInfo(gameClass.name, gameClass.slug, SpecMapOf(gameClass.specs))
  }

  /** `classMap`: later classes with the same id overwrite earlier ones. */
  function ClassMapOf(catalog: seq<GameClass>): map<int, ClassInfo> {
    if catalog == [] then map[]
    else
      var gameClass := catalog[|catalog| - 1];
      ClassMapOf(catalog[..|catalog| - 1])[gameClass.id := ClassInfoOf(gameClass)]
  }

  /** The nested `forEach` that fills `classMap`. */
  method BuildClassMap(catalog: seq<GameClass>) returns (classMap: map<int, ClassInfo>)
    ensures classMap == ClassMapOf(catalog)
  {
    classMap := map[];
    for i := 0 to |catalog|
      invariant classMap == ClassMapOf(catalog[..i])
    {
      var gameClass := catalog[i];
      assert catalog[..i + 1][..i] == catalog[..i];
      classMap := classMap[gameClass.id := ClassInfo(gameClass.name, gameClass.slug, map[])];
      for j := 0 to |gameClass.specs|
        invariant gameClass.id in classMap
        invariant classMap == ClassMapOf(catalog[..i])[gameClass.id :=
                    ClassInfo(gameClass.name, gameClass.slug, SpecMapOf(gameClass.specs[..j]))]
      {
        var spec := gameClass.specs[j];
        assert gameClass.specs[..j + 1][..j] == gameClass.specs[..j];
        var info := classMap[gameClass.id];
        classMap := classMap[gameClass.id := info.(specs := info.specs[spec.id := SpecInfo(spec.name, spec.slug)])];
      }
      assert gameClass.specs[..|gameClass.specs|] == gameClass.specs;
    }
    assert catalog[..|catalog|] == catalog;
  }

  /** A class id is in the map exactly when some catalog class has it. */
  lemma {:induction false} ClassMapKeys(catalog: seq<GameClass>, id: int)
    ensures id in ClassMapOf(catalog) <==> exists i :: 0 <= i < |catalog| && catalog[i].id == id
  {
    if catalog != [] {
      var init := catalog[..|catalog| - 1];
      ClassMapKeys(init, id);
      assert forall i :: 0 <= i < |init| ==> init[i] == catalog[i];
    }
  }

  /** A class id maps to the last catalog class that has it. */
  lemma {:induction false} ClassMapLast(catalog: seq<GameClass>, i: nat)
    requires i < |catalog|
    requires forall j :: i < j < |catalog| ==> catalog[j].id != catalog[i].id
    ensures catalog[i].id in ClassMapOf(catalog)
    ensures ClassMapOf(catalog)[catalog[i].id] == ClassInfoOf(catalog[i])
  {
    if i < |catalog| - 1 {
      var init := catalog[..|catalog| - 1];
      ClassMapLast(init, i);
    }
  }

  /** A spec id is in a class's spec map exactly when some spec of the class has it. */
  lemma {:induction false} SpecMapKeys(specs: seq<GameSpec>, id: int)
    ensures id in SpecMapOf(specs) <==> exists i :: 0 <= i < |specs| && specs[i].id == id
  {
    if specs != [] {
      var init := specs[..|specs| - 1];
      SpecMapKeys(init, id);
      assert forall i :: 0 <= i < |init| ==> init[i] == specs[i];
    }
  }

  /** A spec id maps to the last spec of the class that has it. */
  lemma {:induction false} SpecMapLast(specs: seq<GameSpec>, i: nat)
    requires i < |specs|
    requires forall j :: i < j < |specs| ==> specs[j].id != specs[i].id
    ensures specs[i].id in SpecMapOf(specs)
    ensures SpecMapOf(specs)[specs[i].id] == SpecInfo(specs[i].name, specs[i].slug)
  {
    if i < |specs| - 1 {
      var init := specs[..|specs| - 1];
      SpecMapLast(init, i);
    }
  }

  // ---------------------------------------------------------------------
  // Class and spec resolution

  const UnknownClass: ClassInfo := ClassInfo("Unknown", "unknown", map[])

  /** `classMap[member.classID] || { name: 'Unknown', slug: 'unknown', specs: {} }`. */
  function ClassOf(classMap: map<int, ClassInfo>, classId: int): ClassInfo {
    if classId in classMap then classMap[classId] else UnknownClass
  }

  /** The catalog's spec when the id is truthy and known to the class, else the raw name and its slug. */
  function ResolveSpec(classInfo: ClassInfo, spec: string, specId: int): SpecInfo {
    if specId != 0 && specId in classInfo.specs then classInfo.specs[specId]
    else SpecInfo(spec, SpecSlug(spec))
  }

  // ---------------------------------------------------------------------
  // Decoding one member's rankings

  /** A ranking the `forEach` records: its `rankPercent` is truthy. */
  predicate Counted(r: Ranking) {
    r.rankPercent != 0.0
  }

  /** Reading `encounter.name` of a recorded ranking without an encounter throws. */
  predicate Throws(r: Ranking) {
    Counted(r) && r.encounter.None?
  }

  /** How many rankings the `forEach` walks before a throw ends it (the catch keeps what was recorded). */
  function WalkLength(rankings: seq<Ranking>): (n: nat)
    ensures n <= |rankings|
    ensures forall k :: 0 <= k < n ==> !Throws(rankings[k])
    ensures n < |rankings| ==> Throws(rankings[n])
  {
    if rankings == [] || Throws(rankings[0]) then 0
    else 1 + WalkLength(rankings[1..])
  }

  function Walked(rankings: seq<Ranking>): seq<Ranking> {
    rankings[..WalkLength(rankings)]
  }

  function PerformanceOf(r: Ranking): Performance
    requires r.encounter.Some?
  {
    Performance(r.encounter.value, JsRound(r.rankPercent), r.reportId, r.fightId)
  }

  /** `bossScores` after recording `rankings`: one key per encounter, the last recorded score wins. */
  function BossScoresOf(rankings: seq<Ranking>): map<string, int> {
    if rankings == [] then map[]
    else
      var r := rankings[|rankings| - 1];
      var prior := BossScoresOf(rankings[..|rankings| - 1]);
      if Recorded(r) then prior[r.encounter.value := JsRound(r.rankPercent)] else prior
  }

  /** `bestPerformances` after recording `rankings`, before the sort. */
  function PerformancesOf(rankings: seq<Ranking>): seq<Performance> {
    if rankings == [] then []
    else
      var r := rankings[|rankings| - 1];
      var prior := PerformancesOf(rankings[..|rankings| - 1]);
      if Recorded(r) then prior + [PerformanceOf(r)] else prior
  }

  /** The loop over `rankings` that fills `bossScores` and `bestPerformances`. */
  method ScanRankings(rankings: seq<Ranking>) returns (bossScores: map<string, int>, performances: seq<Performance>)
    ensures bossScores == BossScoresOf(Walked(rankings))
    ensures performances == PerformancesOf(Walked(rankings))
  {
    bossScores := map[];
    performances := [];
    var i := 0;
    while i < |rankings|
      invariant i <= WalkLength(rankings)
      invariant bossScores == BossScoresOf(rankings[..i])
      invariant performances == PerformancesOf(rankings[..i])
    {
      var ranking := rankings[i];
      assert rankings[..i + 1][..i] == rankings[..i];
      if Counted(ranking) {
        if ranking.encounter.None? {
          // TypeError on `ranking.encounter.name`: the catch abandons the remaining rankings
          break;
        }
        bossScores := bossScores[ranking.encounter.value := JsRound(ranking.rankPercent)];
        performances := performances + [PerformanceOf(ranking)];
      }
      i := i + 1;
    }
  }

  function PerformanceAtLeast(a: Performance, b: Performance): bool {
    a.score >= b.score
  }

  lemma PerformanceOrder()
    ensures TotalPreorder(PerformanceAtLeast)
  {
  }

  /** `bestPerformances.sort((a, b) => b.score - a.score).slice(0, 3)`. */
  function TopPerformances(performances: seq<Performance>): (top: seq<Performance>)
    ensures |top| == Min(3, |performances|)
    ensures forall i, j :: 0 <= i < j < |top| ==> top[i].score >= top[j].score
    ensures multiset(top) <= multiset(performances)
    ensures forall p, q :: p in multiset(performances) - multiset(top) && q in top ==> q.score >= p.score
  {
    var sorted := SortBy(performances, PerformanceAtLeast);
    var k := Min(3, |sorted|);
    TopOfSorted(performances, sorted, k);
    sorted[..k]
  }

  lemma TopOfSorted(performances: seq<Performance>, sorted: seq<Performance>, k: nat)
    requires sorted == SortBy(performances, PerformanceAtLeast) && k <= |sorted|
    ensures forall i, j :: 0 <= i < j < k ==> sorted[i].score >= sorted[j].score
    ensures multiset(sorted[..k]) <= multiset(performances)
    ensures forall p, q :: p in multiset(performances) - multiset(sorted[..k]) && q in sorted[..k]
                           ==> q.score >= p.score
  {
    PerformanceOrder();
    SortBySorted(performances, PerformanceAtLeast);
    assert multiset(sorted) == multiset(sorted[..k]) + multiset(sorted[k..]) by {
      assert sorted == sorted[..k] + sorted[k..];
    }
    PrefixDominates(sorted, k, PerformanceAtLeast);
  }

  // ---------------------------------------------------------------------
  // One leaderboard entry

  /** The entry pushed when no rankings are available: zero score and item level, default progress, no bosses. */
  function PlaceholderEntry(m: Member, classMap: map<int, ClassInfo>, spec: string, specSlug: string): Entry {
    var classInfo := ClassOf(classMap, m.classId);
    Entry(m.id, m.name, classInfo.name, m.classId, classInfo.slug, spec, specSlug,
          0, 0.0, m.server, DefaultProgress, map[], [])
  }

  /** The entry of the catch block: the rankings request failed. */
  function DegradedEntry(m: Member, classMap: map<int, ClassInfo>): Entry {
    PlaceholderEntry(m, classMap, "Unknown", "unknown")
  }

  /** The entry of a visible member past the processing cap. */
  function NotFetchedEntry(m: Member, classMap: map<int, ClassInfo>): Entry {
    PlaceholderEntry(m, classMap, "Not fetched", "not-fetched")
  }

  /** The entry built from a member's rankings reply. */
  function FetchedEntry(m: Member, reply: RankOutcome, classMap: map<int, ClassInfo>): Entry {
    match reply
    case RequestFailed => DegradedEntry(m, classMap)
    case Answered(zone, specRankingsSpec, itemLevel) =>
      var score := if zone.Some? then zone.value.bestPerformanceAverage else 0.0;
      var rankedSpec := if zone.Some? && zone.value.spec != "" then zone.value.spec else "Unknown";
      var spec := if rankedSpec == "Unknown" && specRankingsSpec != "" then specRankingsSpec else rankedSpec;
      var specId := if zone.Some? then zone.value.specId else 0;
      var progress :=
        if zone.Some? && zone.value.totalKills.Some? && zone.value.totalBosses.Some?
        then ProgressText(zone.value.totalKills.value, zone.value.totalBosses.value)
        else DefaultProgress;
      var walked := if zone.Some? then Walked(zone.value.rankings) else [];
      var classInfo := ClassOf(classMap, m.classId);
      var specInfo := ResolveSpec(classInfo, spec, specId);
      Entry(m.id, m.name, classInfo.name, m.classId, classInfo.slug, specInfo.name, specInfo.slug,
            JsRound(score), itemLevel, m.server, progress,
            BossScoresOf(walked), TopPerformances(PerformancesOf(walked)))
  }

  /** The body of the `try` block for one member, with its mutable locals. */
  method ProcessMember(m: Member, reply: RankOutcome, classMap: map<int, ClassInfo>) returns (entry: Entry)
    ensures entry == FetchedEntry(m, reply, classMap)
  {
    if reply.RequestFailed? {
      return DegradedEntry(m, classMap);
    }
    var score := 0.0;
    var spec := "Unknown";
    var specId := 0;
    var progress := DefaultProgress;
    var bossScores: map<string, int> := map[];
    var bestPerformances: seq<Performance> := [];
    if reply.zoneRankings.Some? {
      var parsedRanks := reply.zoneRankings.value;
      score := parsedRanks.bestPerformanceAverage;
      spec := if parsedRanks.spec != "" then parsedRanks.spec else "Unknown";
      specId := parsedRanks.specId;
      if parsedRanks.totalKills.Some? && parsedRanks.totalBosses.Some? {
        progress := ProgressText(parsedRanks.totalKills.value, parsedRanks.totalBosses.value);
      }
      bossScores, bestPerformances := ScanRankings(parsedRanks.rankings);
    }
    if spec == "" || spec == "Unknown" {
      if reply.specRankingsSpec != "" {
        spec := reply.specRankingsSpec;
      }
    }
    var itemLevel := reply.itemLevel;
    var classInfo := ClassOf(classMap, m.classId);
    var specInfo := SpecInfo(spec, SpecSlug(spec));
    if specId != 0 && specId in classInfo.specs {
      specInfo := classInfo.specs[specId];
    }
    entry := Entry(m.id, m.name, classInfo.name, m.classId, classInfo.slug, specInfo.name, specInfo.slug,
                   JsRound(score), itemLevel, m.server, progress, bossScores, TopPerformances(bestPerformances));
  }

  // ---------------------------------------------------------------------
  // The whole leaderboard

  /** `members.filter(m => !m.hidden)`. */
  function Visible(roster: seq<Member>): (visible: seq<Member>)
    ensures |visible| <= |roster|
    ensures forall m :: multiset(visible)[m] == if m.hidden then 0 else multiset(roster)[m]
  {
    if roster == [] then []
    else
      assert roster == [roster[0]] + roster[1..];
      if roster[0].hidden then Visible(roster[1..]) else [roster[0]] + Visible(roster[1..])
  }

  /** The entry the pass produces for the `i`-th visible member. */
  function ExpectedEntry(visible: seq<Member>, i: nat, classMap: map<int, ClassInfo>,
                         rankingFor: Member -> RankOutcome): Entry
    requires i < |visible|
  {
    if i < MaxCharacters then FetchedEntry(visible[i], rankingFor(visible[i]), classMap)
    else NotFetchedEntry(visible[i], classMap)
  }

  /** One entry per visible member, in roster order (before the sort). */
  function ExpectedEntries(roster: seq<Member>, classMap: map<int, ClassInfo>,
                           rankingFor: Member -> RankOutcome): seq<Entry>
  {
    var visible := Visible(roster);
    seq(|visible|, i requires 0 <= i < |visible| => ExpectedEntry(visible, i, classMap, rankingFor))
  }

  function EntryAtLeast(a: Entry, b: Entry): bool {
    a.score >= b.score
  }

  lemma EntryOrder()
    ensures TotalPreorder(EntryAtLeast)
  {
  }

  predicate SortedByScore(entries: seq<Entry>) {
    forall i, j :: 0 <= i < j < |entries| ==> entries[i].score >= entries[j].score
  }

  /** The entries of members that received a live rankings request, in request order. */
  function FetchedEntries(members: seq<Member>, classMap: map<int, ClassInfo>,
                          rankingFor: Member -> RankOutcome): (entries: seq<Entry>)
    ensures |entries| == |members|
  {
    seq(|members|, i requires 0 <= i < |members| => FetchedEntry(members[i], rankingFor(members[i]), classMap))
  }

  /** The entries of members past the cap. */
  function NotFetchedEntries(members: seq<Member>, classMap: map<int, ClassInfo>): (entries: seq<Entry>)
    ensures |entries| == |members|
  {
    seq(|members|, i requires 0 <= i < |members| => NotFetchedEntry(members[i], classMap))
  }

  lemma ExpectedEntriesSplit(roster: seq<Member>, classMap: map<int, ClassInfo>, rankingFor: Member -> RankOutcome)
    ensures var visible := Visible(roster);
            var cap := Min(|visible|, MaxCharacters);
            ExpectedEntries(roster, classMap, rankingFor)
            == FetchedEntries(visible[..cap], classMap, rankingFor) + NotFetchedEntries(visible[cap..], classMap)
  {
    var visible := Visible(roster);
    var cap := Min(|visible|, MaxCharacters);
    var expected := ExpectedEntries(roster, classMap, rankingFor);
    var fetched := FetchedEntries(visible[..cap], classMap, rankingFor);
    var notFetched := NotFetchedEntries(visible[cap..], classMap);
    assert |expected| == |fetched + notFetched|;
    forall i | 0 <= i < |expected|
      ensures expected[i] == (fetched + notFetched)[i]
    {
      var m := visible[i];
      if i < cap {
        assert visible[..cap][i] == m;
        calc {
          (fetched + notFetched)[i];
          fetched[i];
          FetchedEntry(m, rankingFor(m), classMap);
          ExpectedEntry(visible, i, classMap, rankingFor);
        }
      } else {
        assert visible[cap..][i - cap] == m;
        calc {
          (fetched + notFetched)[i];
          notFetched[i - cap];
          NotFetchedEntry(m, classMap);
          ExpectedEntry(visible, i, classMap, rankingFor);
        }
      }
    }
  }

  /** Entries of consecutive members are the concatenation of their entries. */
  lemma FetchedEntriesConcat(a: seq<Member>, b: seq<Member>, classMap: map<int, ClassInfo>,
                             rankingFor: Member -> RankOutcome)
    ensures FetchedEntries(a + b, classMap, rankingFor)
         == FetchedEntries(a, classMap, rankingFor) + FetchedEntries(b, classMap, rankingFor)
  {
    var whole := FetchedEntries(a + b, classMap, rankingFor);
    var parts := FetchedEntries(a, classMap, rankingFor) + FetchedEntries(b, classMap, rankingFor);
    assert |whole| == |parts|;
    forall i | 0 <= i < |whole|
      ensures whole[i] == parts[i]
    {
      if i < |a| {
        assert (a + b)[i] == a[i];
      } else {
        assert (a + b)[i] == b[i - |a|];
      }
    }
  }

  /**
    One batch, `Promise.all(batch.map(...))`: a rankings request per member and
    one entry per reply. The requests run concurrently in the source; here
    they run in batch order. `requested` lists the members whose rankings
    were requested.
  */
  method FetchBatch(batch: seq<Member>, classMap: map<int, ClassInfo>, rankingFor: Member -> RankOutcome)
    returns (entries: seq<Entry>, requested: seq<Member>)
    ensures requested == batch
    ensures entries == FetchedEntries(batch, classMap, rankingFor)
  {
    entries, requested := [], [];
    for j := 0 to |batch|
      invariant requested == batch[..j]
      invariant entries == FetchedEntries(batch[..j], classMap, rankingFor)
    {
      var member := batch[j];
      var reply := rankingFor(member);
      requested := requested + [member];
      var entry := ProcessMember(member, reply, classMap);
      FetchedEntriesConcat(batch[..j], [member], classMap, rankingFor);
      assert batch[..j + 1] == batch[..j] + [member];
      entries := entries + [entry];
    }
    assert batch[..|batch|] == batch;
  }

  /**
    The batch loop: the first members are fetched `BatchSize` at a time.
    `queried` lists the members whose rankings were requested, in request order.
  */
  method FetchInBatches(limited: seq<Member>, classMap: map<int, ClassInfo>, rankingFor: Member -> RankOutcome)
    returns (processed: seq<Entry>, queried: seq<Member>)
    ensures queried == limited
    ensures processed == FetchedEntries(limited, classMap, rankingFor)
  {
    processed, queried := [], [];
    var i := 0;
    while i < |limited|
      invariant |queried| == Min(i, |limited|)
      invariant queried == limited[..|queried|]
      invariant processed == FetchedEntries(queried, classMap, rankingFor)
      decreases |limited| - i
    {
      var batch := limited[i..Min(i + BatchSize, |limited|)];
      var entries, requested := FetchBatch(batch, classMap, rankingFor);
      FetchedEntriesConcat(queried, requested, classMap, rankingFor);
      assert limited[..Min(i + BatchSize, |limited|)] == limited[..i] + batch;
      processed := processed + entries;
      queried := queried + requested;
      i := i + BatchSize;
    }
    assert limited[..|limited|] == limited;
  }

  /**
    The aggregation: build the class map, drop hidden members, fetch the
    first `MaxCharacters` visible members batch by batch, append "Not
    fetched" entries for the rest, and sort by score. `queried` lists the
    members whose rankings were requested, in request order.
  */
  method Aggregate(roster: seq<Member>, catalog: seq<GameClass>, rankingFor: Member -> RankOutcome)
    returns (leaderboard: seq<Entry>, queried: seq<Member>)
    ensures queried == Visible(roster)[..Min(|Visible(roster)|, MaxCharacters)]
    ensures multiset(leaderboard) == multiset(ExpectedEntries(roster, ClassMapOf(catalog), rankingFor))
    ensures SortedByScore(leaderboard)
  {
    var classMap := BuildClassMap(catalog);
    var membersToProcess := Visible(roster);
    var limitedMembersToProcess := membersToProcess[..Min(|membersToProcess|, MaxCharacters)];
    var processedMembers;
    processedMembers, queried := FetchInBatches(limitedMembersToProcess, classMap, rankingFor);
    if |membersToProcess| > MaxCharacters {
      var remainingMembers := membersToProcess[MaxCharacters..];
      ghost var fetched := processedMembers;
      for k := 0 to |remainingMembers|
        invariant processedMembers == fetched + NotFetchedEntries(remainingMembers[..k], classMap)
      {
        processedMembers := processedMembers + [NotFetchedEntry(remainingMembers[k], classMap)];
        assert NotFetchedEntries(remainingMembers[..k + 1], classMap)
            == NotFetchedEntries(remainingMembers[..k], classMap) + [NotFetchedEntry(remainingMembers[k], classMap)];
      }
      assert remainingMembers[..|remainingMembers|] == remainingMembers;
    } else {
      assert membersToProcess[Min(|membersToProcess|, MaxCharacters)..] == [];
    }
    ExpectedEntriesSplit(roster, classMap, rankingFor);
    assert processedMembers == ExpectedEntries(roster, classMap, rankingFor);
    leaderboard := SortBy(processedMembers, EntryAtLeast);
    EntryOrder();
    SortBySorted(processedMembers, EntryAtLeast);
  }

  // ---------------------------------------------------------------------
  // Properties of the decoded rankings

  /** A ranking that lands in `bossScores` and `bestPerformances`. */
  predicate Recorded(r: Ranking) {
    Counted(r) && r.encounter.Some?
  }

  /** The performances are exactly those of the recorded rankings. */
  lemma {:induction false} PerformancesOfRecorded(rankings: seq<Ranking>)
    ensures forall p :: p in PerformancesOf(rankings) <==>
              exists k :: 0 <= k < |rankings| && Recorded(rankings[k]) && p == PerformanceOf(rankings[k])
  {
    if rankings != [] {
      var init := rankings[..|rankings| - 1];
      PerformancesOfRecorded(init);
      assert forall k :: 0 <= k < |init| ==> init[k] == rankings[k];
    }
  }

  /** `bossScores` has a key for a boss exactly when a recorded ranking names that boss. */
  lemma {:induction false} BossScoresKeys(rankings: seq<Ranking>, boss: string)
    ensures boss in BossScoresOf(rankings) <==>
              exists k :: 0 <= k < |rankings| && Recorded(rankings[k]) && rankings[k].encounter.value == boss
  {
    if rankings != [] {
      var init := rankings[..|rankings| - 1];
      BossScoresKeys(init, boss);
      assert forall k :: 0 <= k < |init| ==> init[k] == rankings[k];
    }
  }

  /** A boss's score is the rounded percentile of the last recorded ranking that names it. */
  lemma {:induction false} BossScoresLast(rankings: seq<Ranking>, k: nat)
    requires k < |rankings| && Recorded(rankings[k])
    requires forall j :: k < j < |rankings| && Recorded(rankings[j]) ==>
               rankings[j].encounter.value != rankings[k].encounter.value
    ensures rankings[k].encounter.value in BossScoresOf(rankings)
    ensures BossScoresOf(rankings)[rankings[k].encounter.value] == JsRound(rankings[k].rankPercent)
  {
    if k < |rankings| - 1 {
      BossScoresLast(rankings[..|rankings| - 1], k);
    }
  }

  // ---------------------------------------------------------------------
  // Properties of one entry

  /** The zeroed fields shared by the degraded and the "Not fetched" entries. */
  predicate Zeroed(e: Entry) {
    && e.score == 0 && e.itemLevel == 0.0 && e.progress == DefaultProgress
    && e.bossScores == map[] && e.bestPerformances == []
  }

  /** The rankings a reply contributes to its entry. */
  function RankingsOf(reply: RankOutcome): seq<Ranking> {
    if reply.Answered? && reply.zoneRankings.Some? then reply.zoneRankings.value.rankings else []
  }

  /** The kept performances all come from recorded rankings of the walked prefix. */
  lemma TopFromRecorded(rankings: seq<Ranking>)
    ensures forall p :: p in TopPerformances(PerformancesOf(Walked(rankings))) ==>
              exists r :: r in rankings && Recorded(r) && p == PerformanceOf(r)
  {
    var walked := Walked(rankings);
    var all := PerformancesOf(walked);
    var top := TopPerformances(all);
    forall p | p in top
      ensures exists r :: r in rankings && Recorded(r) && p == PerformanceOf(r)
    {
      assert p in all by {
        assert multiset(top)[p] > 0;
      }
      PerformancesOfRecorded(walked);
      var k :| 0 <= k < |walked| && Recorded(walked[k]) && p == PerformanceOf(walked[k]);
      assert walked[k] == rankings[k];
    }
  }

  /**
    At most three best performances, in non-increasing score order, each
    taken from a ranking with a truthy `rankPercent` and an encounter.
  */
  lemma EntryPerformances(m: Member, reply: RankOutcome, classMap: map<int, ClassInfo>)
    ensures var e := FetchedEntry(m, reply, classMap);
            && |e.bestPerformances| <= 3
            && (forall i, j :: 0 <= i < j < |e.bestPerformances| ==>
                  e.bestPerformances[i].score >= e.bestPerformances[j].score)
            && (forall p :: p in e.bestPerformances ==>
                  exists r :: r in RankingsOf(reply) && Recorded(r) && p == PerformanceOf(r))
  {
    if reply.Answered? && reply.zoneRankings.Some? {
      var rankings := reply.zoneRankings.value.rankings;
      assert FetchedEntry(m, reply, classMap).bestPerformances == TopPerformances(PerformancesOf(Walked(rankings)));
      TopFromRecorded(rankings);
    }
  }

  /** A failed request yields spec "Unknown"/"unknown" and zeroed fields. */
  lemma FailedRequestEntry(m: Member, classMap: map<int, ClassInfo>)
    ensures var e := FetchedEntry(m, RequestFailed, classMap);
            e.spec == "Unknown" && e.specSlug == "unknown" && Zeroed(e)
            && e.id == m.id && e.name == m.name && e.server == m.server
  {
  }

  /**
    A reply whose rankings are missing or undecodable, with no spec in
    `specRankings`, yields score 0, spec "Unknown"/"unknown", progress "0/9"
    and no boss scores or performances.
  */
  lemma UndecodableRankingsEntry(m: Member, itemLevel: real, classMap: map<int, ClassInfo>)
    ensures var e := FetchedEntry(m, Answered(None, "", itemLevel), classMap);
            && e.score == 0 && e.spec == "Unknown" && e.specSlug == "unknown"
            && e.progress == DefaultProgress && e.bossScores == map[] && e.bestPerformances == []
            && e.itemLevel == itemLevel
  {
    UnknownSlug();
  }

  /** The slug of the fallback spec name. */
  lemma UnknownSlug()
    ensures SpecSlug("Unknown") == "unknown"
  {
    var lowered := Lower("Unknown");
    assert LowerChar('U') == 'u';
    assert forall i :: 0 <= i < 7 ==> lowered[i] == "unknown"[i];
    assert lowered == "unknown";
    ReplaceWithoutWhitespace("unknown");
  }

  /** An unknown class id yields class "Unknown"/"unknown", whatever the reply. */
  lemma UnknownClassEntry(m: Member, reply: RankOutcome, classMap: map<int, ClassInfo>)
    requires m.classId !in classMap
    ensures var e := FetchedEntry(m, reply, classMap);
            e.className == "Unknown" && e.classSlug == "unknown"
    ensures var e := NotFetchedEntry(m, classMap);
            e.className == "Unknown" && e.classSlug == "unknown"
  {
  }

  /**
    Spec resolution: the catalog's spec when the reply's spec id is truthy
    and known to the member's class; otherwise the reply's spec name, with
    a slug that has no whitespace and no upper-case letter.
  */
  lemma SpecResolution(m: Member, zone: ZoneRankings, specRankingsSpec: string, itemLevel: real,
                       classMap: map<int, ClassInfo>)
    ensures var e := FetchedEntry(m, Answered(Some(zone), specRankingsSpec, itemLevel), classMap);
            var specs := ClassOf(classMap, m.classId).specs;
            if zone.specId != 0 && zone.specId in specs then
              e.spec == specs[zone.specId].name && e.specSlug == specs[zone.specId].slug
            else
              && e.spec == (if zone.spec != "" && zone.spec != "Unknown" then zone.spec
                            else if specRankingsSpec != "" then specRankingsSpec else "Unknown")
              && e.specSlug == ServerSlug(e.spec)
              && NoWhitespace(e.specSlug) && NoUpperAscii(e.specSlug)
  {
    var e := FetchedEntry(m, Answered(Some(zone), specRankingsSpec, itemLevel), classMap);
    SlugsAgree(e.spec);
    ServerSlugNormal(e.spec);
  }

  /** Progress is `kills/bosses` when both counts are present, else "0/9", the text of 0 of 9. */
  lemma ProgressField(m: Member, zone: ZoneRankings, specRankingsSpec: string, itemLevel: real,
                      classMap: map<int, ClassInfo>)
    ensures var e := FetchedEntry(m, Answered(Some(zone), specRankingsSpec, itemLevel), classMap);
            e.progress == if zone.totalKills.Some? && zone.totalBosses.Some?
                          then ProgressText(zone.totalKills.value, zone.totalBosses.value)
                          else ProgressText(0, 9)
  {
    assert DecimalString(0) == "0" && DecimalString(9) == "9";
  }

  /** A percentile average in [0, 100] gives an integer score in [0, 100]. */
  lemma ScoreInRange(m: Member, zone: ZoneRankings, specRankingsSpec: string, itemLevel: real,
                     classMap: map<int, ClassInfo>)
    requires 0.0 <= zone.bestPerformanceAverage <= 100.0
    ensures var e := FetchedEntry(m, Answered(Some(zone), specRankingsSpec, itemLevel), classMap);
            0 <= e.score <= 100
  {
    JsRoundWithin(zone.bestPerformanceAverage, 0, 100);
  }

  // ---------------------------------------------------------------------
  // Properties of the whole leaderboard

  function EntryId(e: Entry): int {
    e.id
  }

  function MemberId(m: Member): int {
    m.id
  }

  /** The expected entries carry the visible members' ids, in order. */
  lemma ExpectedIds(roster: seq<Member>, classMap: map<int, ClassInfo>, rankingFor: Member -> RankOutcome)
    ensures MapSeq(ExpectedEntries(roster, classMap, rankingFor), EntryId) == MapSeq(Visible(roster), MemberId)
  {
    var expected := ExpectedEntries(roster, classMap, rankingFor);
    var visible := Visible(roster);
    var ids := MapSeq(expected, EntryId);
    var memberIds := MapSeq(visible, MemberId);
    assert |ids| == |memberIds|;
    forall i | 0 <= i < |visible|
      ensures ids[i] == memberIds[i]
    {
      assert expected[i] == ExpectedEntry(visible, i, classMap, rankingFor);
      ExpectedEntryIdentity(visible, i, classMap, rankingFor);
    }
    assert ids == memberIds;
  }

  lemma ExpectedEntryIdentity(visible: seq<Member>, i: nat, classMap: map<int, ClassInfo>,
                              rankingFor: Member -> RankOutcome)
    requires i < |visible|
    ensures ExpectedEntry(visible, i, classMap, rankingFor).id == visible[i].id
    ensures ExpectedEntry(visible, i, classMap, rankingFor).name == visible[i].name
  {
  }

  /** Each expected entry carries the id and name of a member that is not hidden. */
  lemma ExpectedFromVisible(roster: seq<Member>, classMap: map<int, ClassInfo>,
                            rankingFor: Member -> RankOutcome, e: Entry)
    requires e in ExpectedEntries(roster, classMap, rankingFor)
    ensures exists m :: m in roster && !m.hidden && e.id == m.id && e.name == m.name
  {
    var visible := Visible(roster);
    var expected := ExpectedEntries(roster, classMap, rankingFor);
    var i :| 0 <= i < |expected| && expected[i] == e;
    var m := visible[i];
    assert multiset(visible)[m] > 0;
    assert multiset(roster)[m] > 0 && !m.hidden;
    ExpectedEntryIdentity(visible, i, classMap, rankingFor);
  }

  /**
    Any rearrangement of the expected entries has one entry per visible
    member: the ids match the visible members' ids with multiplicity, and
    every entry carries the id and name of a member that is not hidden.
  */
  lemma LeaderboardMembers(roster: seq<Member>, classMap: map<int, ClassInfo>,
                           rankingFor: Member -> RankOutcome, board: seq<Entry>)
    requires multiset(board) == multiset(ExpectedEntries(roster, classMap, rankingFor))
    ensures |board| == |Visible(roster)|
    ensures multiset(MapSeq(board, EntryId)) == multiset(MapSeq(Visible(roster), MemberId))
    ensures forall e :: e in board ==>
              exists m :: m in roster && !m.hidden && e.id == m.id && e.name == m.name
  {
    var expected := ExpectedEntries(roster, classMap, rankingFor);
    assert |board| == |multiset(board)| == |multiset(expected)| == |expected|;
    MapPermutation(board, expected, EntryId);
    ExpectedIds(roster, classMap, rankingFor);
    forall e | e in board
      ensures exists m :: m in roster && !m.hidden && e.id == m.id && e.name == m.name
    {
      assert e in multiset(expected);
      ExpectedFromVisible(roster, classMap, rankingFor, e);
    }
  }

  /** Visible members past the cap get the "Not fetched" placeholder. */
  lemma PastCapEntries(roster: seq<Member>, classMap: map<int, ClassInfo>,
                       rankingFor: Member -> RankOutcome, i: nat)
    requires MaxCharacters <= i < |Visible(roster)|
    ensures var e := ExpectedEntries(roster, classMap, rankingFor)[i];
            && e.spec == "Not fetched" && e.specSlug == "not-fetched" && Zeroed(e)
            && e.id == Visible(roster)[i].id && e.name == Visible(roster)[i].name
  {
  }

  /** Every entry of the leaderboard has at most three best performances, best first. */
  lemma LeaderboardPerformances(roster: seq<Member>, classMap: map<int, ClassInfo>,
                                rankingFor: Member -> RankOutcome, board: seq<Entry>)
    requires multiset(board) == multiset(ExpectedEntries(roster, classMap, rankingFor))
    ensures forall e :: e in board ==>
              && |e.bestPerformances| <= 3
              && forall i, j :: 0 <= i < j < |e.bestPerformances| ==>
                   e.bestPerformances[i].score >= e.bestPerformances[j].score
  {
    var visible := Visible(roster);
    var expected := ExpectedEntries(roster, classMap, rankingFor);
    forall e | e in board
      ensures |e.bestPerformances| <= 3
      ensures forall i, j :: 0 <= i < j < |e.bestPerformances| ==>
                e.bestPerformances[i].score >= e.bestPerformances[j].score
    {
      assert e in multiset(expected);
      var k :| 0 <= k < |expected| && expected[k] == e;
      if k < MaxCharacters {
        EntryPerformances(visible[k], rankingFor(visible[k]), classMap);
      }
    }
  }

  // The worked example: one Frost mage with one boss kill.

  const ExampleMember: Member := Member(1, "Foo", 8, false, "X")
  const ExampleCatalog: seq<GameClass> := [GameClass(8, "Mage", "mage", [GameSpec(64, "Frost", "frost")])]
  const ExampleClassMap: map<int, ClassInfo> := map[8 := ClassInfo("Mage", "mage", map[64 := SpecInfo("Frost", "frost")])]
  const ExampleRankings: seq<Ranking> := [Ranking(Some("Boss1"), 87.6, "r1", 2)]
  const ExampleReply: RankOutcome := Answered(Some(ZoneRankings(87.6, "Frost", 64, Some(7), Some(9), ExampleRankings)), "", 0.0)
  const ExamplePerformance: Performance := Performance("Boss1", 88, "r1", 2)
  const ExampleEntry: Entry := Entry(1, "Foo", "Mage", 8, "mage", "Frost", "frost", 88, 0.0, "X", "7/9",
                                     map["Boss1" := 88], [ExamplePerformance])

  lemma ExampleClassMapBuilt()
    ensures ClassMapOf(ExampleCatalog) == ExampleClassMap
  {
    assert SpecMapOf([GameSpec(64, "Frost", "frost")]) == map[64 := SpecInfo("Frost", "frost")];
  }

  lemma ExampleRankingsScanned()
    ensures Walked(ExampleRankings) == ExampleRankings
    ensures BossScoresOf(ExampleRankings) == map["Boss1" := 88]
    ensures PerformancesOf(ExampleRankings) == [ExamplePerformance]
  {
    var r := ExampleRankings;
    assert r[..0] == [];
    assert WalkLength(r) == 1;
    assert JsRound(87.6) == 88;
  }

  lemma ExampleTopPerformances()
    ensures TopPerformances([ExamplePerformance]) == [ExamplePerformance]
  {
    var ps := [ExamplePerformance];
    var top := TopPerformances(ps);
    assert |top| == 1 && multiset(top) <= multiset(ps);
    assert top[0] in multiset(ps);
  }

  lemma ExampleEntryBuilt()
    ensures FetchedEntry(ExampleMember, ExampleReply, ExampleClassMap) == ExampleEntry
  {
    var e := FetchedEntry(ExampleMember, ExampleReply, ExampleClassMap);
    assert e.bossScores == map["Boss1" := 88] && e.bestPerformances == [ExamplePerformance] by {
      ExampleRankingsScanned();
      ExampleTopPerformances();
    }
    assert e.progress == "7/9" by {
      ExampleProgress();
    }
    assert e.spec == "Frost" && e.specSlug == "frost";
    assert e.score == 88;
  }

  lemma ExampleProgress()
    ensures ProgressText(7, 9) == "7/9"
  {
    assert DecimalString(7) == "7" && DecimalString(9) == "9";
  }

  /** The worked example: the whole leaderboard is that one entry, with score 88 and progress "7/9". */
  lemma FrostMageExample(rankingFor: Member -> RankOutcome, board: seq<Entry>)
    requires rankingFor(ExampleMember) == ExampleReply
    requires multiset(board) == multiset(ExpectedEntries([ExampleMember], ClassMapOf(ExampleCatalog), rankingFor))
    ensures board == [ExampleEntry]
  {
    ExampleClassMapBuilt();
    ExampleExpected(rankingFor);
    assert |board| == |multiset(board)| == 1;
    assert board[0] in multiset([ExampleEntry]);
  }

  lemma ExampleExpected(rankingFor: Member -> RankOutcome)
    requires rankingFor(ExampleMember) == ExampleReply
    ensures ExpectedEntries([ExampleMember], ExampleClassMap, rankingFor) == [ExampleEntry]
  {
    var roster := [ExampleMember];
    assert Visible(roster) == roster by {
      assert roster[1..] == [];
    }
    var expected := ExpectedEntries(roster, ExampleClassMap, rankingFor);
    assert |expected| == 1;
    calc {
      expected[0];
      ExpectedEntry(roster, 0, ExampleClassMap, rankingFor);
      FetchedEntry(ExampleMember, rankingFor(ExampleMember), ExampleClassMap);
      FetchedEntry(ExampleMember, ExampleReply, ExampleClassMap);
      { ExampleEntryBuilt(); }
      ExampleEntry;
    }
  }

  function EntryScore(e: Entry): int {
    e.score
  }

  /**
    The final sort fixes the scores position by position: two leaderboards
    that hold the same entries and are both sorted by score differ at most
    in the order of entries with equal scores.
  */
  lemma LeaderboardScoresUnique(a: seq<Entry>, b: seq<Entry>)
    requires multiset(a) == multiset(b)
    requires SortedByScore(a) && SortedByScore(b)
    ensures |a| == |b|
    ensures forall i :: 0 <= i < |a| ==> a[i].score == b[i].score
  {
    MapPermutation(a, b, EntryScore);
    var sa, sb := MapSeq(a, EntryScore), MapSeq(b, EntryScore);
    assert NonIncreasing(sa) && NonIncreasing(sb);
    NonIncreasingUnique(sa, sb);
  }
}
