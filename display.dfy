/**
  The statistics the leaderboard page derives from the list the route
  answers: the search and class filter with the score sort, the per-boss
  summary and its ordering, the class list for the filter, the guild
  averages, and the colour helpers.
*/
module Display {
  import opened Text
  import opened Rounding
  import opened Sorting
  import opened Aggregator

  // ---------------------------------------------------------------------
  // Search and class filter, sorted by score

  /** An empty term matches; otherwise the name or the spec contains it, ignoring case. */
  predicate MatchesSearch(p: Entry, searchTerm: string) {
    || searchTerm == ""
    || Contains(Lower(p.name), Lower(searchTerm))
    || Contains(Lower(p.spec), Lower(searchTerm))
  }

  /** An empty filter matches; otherwise the class name must be equal. */
  predicate MatchesClass(p: Entry, classFilter: string) {
    classFilter == "" || p.className == classFilter
  }

  predicate Shown(p: Entry, searchTerm: string, classFilter: string) {
    MatchesSearch(p, searchTerm) && MatchesClass(p, classFilter)
  }

  /** The players that pass both filters, in their original order. */
  function FilterPlayers(players: seq<Entry>, searchTerm: string, classFilter: string): (kept: seq<Entry>)
    ensures forall p :: multiset(kept)[p] == if Shown(p, searchTerm, classFilter) then multiset(players)[p] else 0
  {
    if players == [] then []
    else
      var init, last := players[..|players| - 1], players[|players| - 1];
      assert players == init + [last];
      FilterPlayers(init, searchTerm, classFilter) + (if Shown(last, searchTerm, classFilter) then [last] else [])
  }

  /**
    The table's rows: exactly the players that pass both filters, each as
    often as in the input, ordered by non-increasing score.
  */
  function FilteredAndSortedPlayers(players: seq<Entry>, searchTerm: string, classFilter: string): (shown: seq<Entry>)
    ensures SortedByScore(shown)
    ensures forall p :: multiset(shown)[p] == if Shown(p, searchTerm, classFilter) then multiset(players)[p] else 0
  {
    var kept := FilterPlayers(players, searchTerm, classFilter);
    EntryOrder();
    SortBySorted(kept, EntryAtLeast);
    SortBy(kept, EntryAtLeast)
  }

  /** With both filters empty every player is shown. */
  lemma NoFilterShowsAll(players: seq<Entry>)
    ensures multiset(FilteredAndSortedPlayers(players, "", "")) == multiset(players)
  {
    var shown := FilteredAndSortedPlayers(players, "", "");
    forall p
      ensures multiset(shown)[p] == multiset(players)[p]
    {
      assert Shown(p, "", "");
    }
  }

  /** The search ignores the case of the term. */
  lemma SearchIgnoresCase(p: Entry, searchTerm: string, classFilter: string)
    ensures Shown(p, Lower(searchTerm), classFilter) == Shown(p, searchTerm, classFilter)
  {
    LowerIdempotent(searchTerm);
  }

  // ---------------------------------------------------------------------
  // Per-boss summary

  datatype BossStat = BossStat(average: int, count: nat)

  /** The player has a truthy score for the boss. */
  predicate HasScore(p: Entry, boss: string) {
    boss in p.bossScores && p.bossScores[boss] != 0
  }

  /** The truthy scores of the players for one boss, in list order. */
  function ScoresFor(players: seq<Entry>, boss: string): (scores: seq<int>)
    ensures |scores| <= |players|
    ensures |scores| == 0 <==> forall p :: p in players ==> !HasScore(p, boss)
    ensures forall k :: 0 <= k < |scores| ==> scores[k] != 0
    ensures forall k :: 0 <= k < |scores| ==>
              exists p :: p in players && HasScore(p, boss) && scores[k] == p.bossScores[boss]
  {
    if players == [] then []
    else
      var init, last := players[..|players| - 1], players[|players| - 1];
      assert players == init + [last];
      ScoresFor(init, boss) + (if HasScore(last, boss) then [last.bossScores[boss]] else [])
  }

  function Sum(s: seq<int>): int {
    if s == [] then 0 else Sum(s[..|s| - 1]) + s[|s| - 1]
  }

  /** Every boss that appears in some player's boss scores. */
  function BossKeys(players: seq<Entry>): (bosses: set<string>)
    ensures forall b :: b in bosses <==> exists p :: p in players && b in p.bossScores
  {
    if players == [] then {}
    else
      var init, last := players[..|players| - 1], players[|players| - 1];
      assert players == init + [last];
      BossKeys(init) + last.bossScores.Keys
  }

  /** The summary entry of a boss with at least one truthy score: the count and the rounded mean. */
  function StatFor(players: seq<Entry>, boss: string): BossStat
    requires |ScoresFor(players, boss)| > 0
  {
    var scores := ScoresFor(players, boss);
    BossStat(RoundDiv(Sum(scores), |scores|), |scores|)
  }

  /** The set of all boss names, gathered player by player. */
  method CollectBosses(guildData: seq<Entry>) returns (allBosses: set<string>)
    ensures allBosses == BossKeys(guildData)
  {
    allBosses := {};
    for i := 0 to |guildData|
      invariant allBosses == BossKeys(guildData[..i])
    {
      assert guildData[..i + 1][..i] == guildData[..i];
      allBosses := allBosses + guildData[i].bossScores.Keys;
    }
    assert guildData[..|guildData|] == guildData;
  }

  /** One summary entry per boss of `bosses` that has a truthy score. */
  method SummarizeBosses(guildData: seq<Entry>, bosses: set<string>) returns (summary: map<string, BossStat>)
    ensures forall b :: b in summary <==> b in bosses && |ScoresFor(guildData, b)| > 0
    ensures forall b :: b in summary ==> summary[b] == StatFor(guildData, b)
  {
    summary := map[];
    var rest := bosses;
    while rest != {}
      invariant rest <= bosses
      invariant forall b :: b in summary <==> b in bosses && b !in rest && |ScoresFor(guildData, b)| > 0
      invariant forall b :: b in summary ==> summary[b] == StatFor(guildData, b)
      decreases rest
    {
      var boss :| boss in rest;
      var scores := ScoresFor(guildData, boss);
      if |scores| > 0 {
        var average := RoundDiv(Sum(scores), |scores|);
        summary := summary[boss := BossStat(average, |scores|)];
      }
      rest := rest - {boss};
    }
  }

  /**
    The boss summary: a key for each boss some player has a truthy score
    for, with the number of such scores and their rounded mean.
  */
  method BossSummary(guildData: seq<Entry>) returns (summary: map<string, BossStat>)
    ensures forall boss :: boss in summary <==> exists p :: p in guildData && HasScore(p, boss)
    ensures forall boss :: boss in summary ==>
              var scores := ScoresFor(guildData, boss);
              && summary[boss].count == |scores|
              && summary[boss].average == JsRound(Sum(scores) as real / |scores| as real)
  {
    if |guildData| == 0 {
      return map[];
    }
    var allBosses := CollectBosses(guildData);
    summary := SummarizeBosses(guildData, allBosses);
    forall boss
      ensures boss in summary <==> exists p :: p in guildData && HasScore(p, boss)
    {
      if p :| p in guildData && HasScore(p, boss) {
        assert boss in allBosses;
      }
    }
  }

  /** A sum of integers in [lo, hi] lies between `n * lo` and `n * hi`. */
  lemma {:induction false} SumWithin(s: seq<int>, lo: int, hi: int)
    requires forall k :: 0 <= k < |s| ==> lo <= s[k] <= hi
    ensures |s| * lo <= Sum(s) <= |s| * hi
  {
    if s != [] {
      SumWithin(s[..|s| - 1], lo, hi);
    }
  }

  /** Each of the truthy scores for a boss lies within bounds every player's score obeys. */
  lemma {:induction false} ScoresForWithin(players: seq<Entry>, boss: string, lo: int, hi: int)
    requires forall p :: p in players && HasScore(p, boss) ==> lo <= p.bossScores[boss] <= hi
    ensures forall k :: 0 <= k < |ScoresFor(players, boss)| ==> lo <= ScoresFor(players, boss)[k] <= hi
  {
    if players != [] {
      var init := players[..|players| - 1];
      assert forall p :: p in init ==> p in players;
      ScoresForWithin(init, boss, lo, hi);
    }
  }

  /** With all per-boss scores in [lo, hi], so is a boss's summary average. */
  lemma BossAverageWithin(guildData: seq<Entry>, boss: string, lo: int, hi: int)
    requires exists p :: p in guildData && HasScore(p, boss)
    requires forall p :: p in guildData && HasScore(p, boss) ==> lo <= p.bossScores[boss] <= hi
    ensures var scores := ScoresFor(guildData, boss);
            lo <= JsRound(Sum(scores) as real / |scores| as real) <= hi
  {
    var scores := ScoresFor(guildData, boss);
    ScoresForWithin(guildData, boss, lo, hi);
    SumWithin(scores, lo, hi);
    RoundDivWithin(Sum(scores), |scores|, lo, hi);
  }

  // ---------------------------------------------------------------------
  // Boss ordering

  /** A boss's average, 0 for a boss the summary does not list. */
  function AverageOf(summary: map<string, BossStat>, boss: string): int {
    if boss in summary then summary[boss].average else 0
  }

  function ByAverage(summary: map<string, BossStat>): (string, string) -> bool {
    (a, b) => AverageOf(summary, a) >= AverageOf(summary, b)
  }

  lemma AverageOrder(summary: map<string, BossStat>)
    ensures TotalPreorder(ByAverage(summary))
  {
  }

  /** The summary's bosses, each once, by non-increasing average. */
  method SortedBossNames(summary: map<string, BossStat>) returns (names: seq<string>)
    ensures forall b :: b in names <==> b in summary
    ensures forall i, j :: 0 <= i < j < |names| ==> names[i] != names[j]
    ensures forall i, j :: 0 <= i < j < |names| ==> summary[names[i]].average >= summary[names[j]].average
  {
    var keys: seq<string> := [];
    var rest := summary.Keys;
    while rest != {}
      invariant rest <= summary.Keys
      invariant forall b :: b in keys <==> b in summary && b !in rest
      invariant forall i, j :: 0 <= i < j < |keys| ==> keys[i] != keys[j]
      decreases rest
    {
      var b :| b in rest;
      keys := keys + [b];
      rest := rest - {b};
    }
    names := SortBy(keys, ByAverage(summary));
    AverageOrder(summary);
    SortBySorted(keys, ByAverage(summary));
    DistinctPermutation(keys, names);
    forall b
      ensures b in names <==> b in keys
    {
      assert b in names <==> b in multiset(names);
    }
  }

  // ---------------------------------------------------------------------
  // Class list

  /** The elements of `s`, each at its first occurrence. */
  function Distinct(s: seq<string>): (r: seq<string>)
    ensures forall x :: x in r <==> x in s
    ensures forall i, j :: 0 <= i < j < |r| ==> r[i] != r[j]
  {
    if s == [] then []
    else
      var init, last := s[..|s| - 1], s[|s| - 1];
      assert s == init + [last];
      var rest := Distinct(init);
      if last in rest then rest else rest + [last]
  }

  lemma LexOrder()
    ensures TotalPreorder(LexLessEq)
  {
    forall a, b
      ensures LexLessEq(a, b) || LexLessEq(b, a)
    {
      LexTotal(a, b);
    }
    forall a, b, c | LexLessEq(a, b) && LexLessEq(b, c)
      ensures LexLessEq(a, c)
    {
      LexTransitive(a, b, c);
    }
  }

  function ClassNameOf(p: Entry): string {
    p.className
  }

  /** The class names of the players, each once, in ascending order. */
  function UniqueClasses(players: seq<Entry>): (classes: seq<string>)
    ensures forall c :: c in classes <==> exists p :: p in players && p.className == c
    ensures forall i, j :: 0 <= i < j < |classes| ==> classes[i] != classes[j]
    ensures forall i, j :: 0 <= i < j < |classes| ==> LexLessEq(classes[i], classes[j])
  {
    var names := MapSeq(players, ClassNameOf);
    var distinct := Distinct(names);
    var sorted := SortBy(distinct, LexLessEq);
    LexOrder();
    SortBySorted(distinct, LexLessEq);
    DistinctPermutation(distinct, sorted);
    ClassNamesOf(players);
    assert forall c :: c in sorted <==> c in distinct by {
      forall c
        ensures c in sorted <==> c in distinct
      {
        assert c in sorted <==> c in multiset(sorted);
        assert c in distinct <==> c in multiset(distinct);
      }
    }
    sorted
  }

  lemma ClassNamesOf(players: seq<Entry>)
    ensures forall c :: c in MapSeq(players, ClassNameOf) <==> exists p :: p in players && p.className == c
  {
    var names := MapSeq(players, ClassNameOf);
    forall c | c in names
      ensures exists p :: p in players && p.className == c
    {
      var k :| 0 <= k < |names| && names[k] == c;
      assert players[k] in players;
    }
    forall c | exists p :: p in players && p.className == c
      ensures c in names
    {
      var p :| p in players && p.className == c;
      var k :| 0 <= k < |players| && players[k] == p;
      assert names[k] == c;
    }
  }

  // ---------------------------------------------------------------------
  // Guild averages

  function EntryScores(players: seq<Entry>): seq<int> {
    MapSeq(players, EntryScore)
  }

  /** The rounded mean of all scores, 0 for an empty list. */
  function AverageScore(players: seq<Entry>): (average: int)
    ensures players == [] ==> average == 0
    ensures players != [] ==> average == JsRound(Sum(EntryScores(players)) as real / |players| as real)
  {
    if |players| > 0 then RoundDiv(Sum(EntryScores(players)), |players|) else 0
  }

  /** With every score in [lo, hi], so is the guild's average score. */
  lemma AverageScoreWithin(players: seq<Entry>, lo: int, hi: int)
    requires players != []
    requires forall p :: p in players ==> lo <= p.score <= hi
    ensures lo <= AverageScore(players) <= hi
  {
    var scores := EntryScores(players);
    assert forall k :: 0 <= k < |scores| ==> scores[k] == players[k].score;
    SumWithin(scores, lo, hi);
    RoundDivWithin(Sum(scores), |players|, lo, hi);
  }

  /** The sum of the item levels, an unset one counting as 0. */
  function TotalItemLevel(players: seq<Entry>): real {
    if players == [] then 0.0
    else TotalItemLevel(players[..|players| - 1]) + players[|players| - 1].itemLevel
  }

  /** The players with a truthy item level. */
  function Equipped(players: seq<Entry>): (equipped: seq<Entry>)
    ensures |equipped| <= |players|
    ensures forall p :: p in equipped <==> p in players && p.itemLevel != 0.0
  {
    if players == [] then []
    else
      var init, last := players[..|players| - 1], players[|players| - 1];
      assert players == init + [last];
      Equipped(init) + (if last.itemLevel != 0.0 then [last] else [])
  }

  /** Players without an item level add nothing to the total. */
  lemma {:induction false} TotalOverEquipped(players: seq<Entry>)
    ensures TotalItemLevel(players) == TotalItemLevel(Equipped(players))
  {
    if players != [] {
      var init, last := players[..|players| - 1], players[|players| - 1];
      TotalOverEquipped(init);
      var e := Equipped(init);
      assert TotalItemLevel(players) == TotalItemLevel(init) + last.itemLevel;
      if last.itemLevel != 0.0 {
        assert Equipped(players) == e + [last];
        assert (e + [last])[..|e|] == e;
        assert TotalItemLevel(e + [last]) == TotalItemLevel(e) + last.itemLevel;
      } else {
        assert Equipped(players) == e;
      }
    }
  }

  /** The guild's average item level, over the players that have one. */
  function AverageItemLevel(players: seq<Entry>): int {
    if |players| > 0 && exists p :: p in players && p.itemLevel != 0.0 then
      EquippedNonEmpty(players);
      JsRound(TotalItemLevel(players) / |Equipped(players)| as real)
    else 0
  }

  lemma EquippedNonEmpty(players: seq<Entry>)
    requires exists p :: p in players && p.itemLevel != 0.0
    ensures |Equipped(players)| > 0
  {
    var p :| p in players && p.itemLevel != 0.0;
    assert p in Equipped(players);
  }

  /**
    The average item level is 0 when no player has one, and otherwise the
    rounded mean over only the players that have one.
  */
  lemma AverageItemLevelMean(players: seq<Entry>)
    ensures (forall p :: p in players ==> p.itemLevel == 0.0) ==> AverageItemLevel(players) == 0
    ensures (exists p :: p in players && p.itemLevel != 0.0) ==>
              && |Equipped(players)| > 0
              && AverageItemLevel(players) == JsRound(TotalItemLevel(Equipped(players)) / |Equipped(players)| as real)
  {
    TotalOverEquipped(players);
  }

  /** A total of item levels of at least `lo` each is at least `n * lo`. */
  lemma {:induction false} TotalAtLeast(players: seq<Entry>, lo: real)
    requires forall k :: 0 <= k < |players| ==> lo <= players[k].itemLevel
    ensures |players| as real * lo <= TotalItemLevel(players)
  {
    if players != [] {
      TotalAtLeast(players[..|players| - 1], lo);
    }
  }

  /** A total of item levels of at most `hi` each is at most `n * hi`. */
  lemma {:induction false} TotalAtMost(players: seq<Entry>, hi: real)
    requires forall k :: 0 <= k < |players| ==> players[k].itemLevel <= hi
    ensures TotalItemLevel(players) <= |players| as real * hi
  {
    if players != [] {
      TotalAtMost(players[..|players| - 1], hi);
    }
  }

  /** With every item level that is set in [lo, hi], so is the guild's average item level. */
  lemma AverageItemLevelWithin(players: seq<Entry>, lo: int, hi: int)
    requires exists p :: p in players && p.itemLevel != 0.0
    requires forall p :: p in players && p.itemLevel != 0.0 ==> lo as real <= p.itemLevel <= hi as real
    ensures lo <= AverageItemLevel(players) <= hi
  {
    var equipped := Equipped(players);
    EquippedNonEmpty(players);
    forall k | 0 <= k < |equipped|
      ensures lo as real <= equipped[k].itemLevel <= hi as real
    {
      assert equipped[k] in equipped;
    }
    RoundedMeanWithin(equipped, lo, hi);
    AverageItemLevelMean(players);
  }

  /** The rounded mean item level of players whose item levels lie in [lo, hi] lies in [lo, hi]. */
  lemma RoundedMeanWithin(players: seq<Entry>, lo: int, hi: int)
    requires |players| > 0
    requires forall k :: 0 <= k < |players| ==> lo as real <= players[k].itemLevel <= hi as real
    ensures lo <= JsRound(TotalItemLevel(players) / |players| as real) <= hi
  {
    TotalAtLeast(players, lo as real);
    TotalAtMost(players, hi as real);
    MeanWithin(TotalItemLevel(players), |players| as real, lo as real, hi as real);
    JsRoundWithin(TotalItemLevel(players) / |players| as real, lo, hi);
  }

  /** A mean of values in [lo, hi] lies in [lo, hi]. */
  lemma MeanWithin(total: real, n: real, lo: real, hi: real)
    requires n > 0.0 && n * lo <= total <= n * hi
    ensures lo <= total / n <= hi
  {
    assert (total / n) * n == total;
    if total / n < lo {
      MulStrict(total / n, lo, n);
    }
    if total / n > hi {
      MulStrict(hi, total / n, n);
    }
  }

  // ---------------------------------------------------------------------
  // Colours

  /** The score thresholds of the rank tiers, lowest first. */
  const TierThresholds: seq<int> := [25, 50, 75, 95]

  const RankTextColors: seq<string> :=
    ["text-gray-400", "text-green-400", "text-blue-400", "text-purple-400", "text-orange-400"]

  const RankBackgroundColors: seq<string> :=
    ["bg-gray-400", "bg-green-400", "bg-blue-400", "bg-purple-400", "bg-orange-400"]

  /** The number of thresholds a score reaches: its tier. */
  function ThresholdsReached(score: int, thresholds: seq<int>): (n: nat)
    ensures n <= |thresholds|
  {
    if thresholds == [] then 0
    else (if thresholds[0] <= score then 1 else 0) + ThresholdsReached(score, thresholds[1..])
  }

  function RankTier(score: int): (tier: nat)
    ensures tier < |RankTextColors|
  {
    ThresholdsReached(score, TierThresholds)
  }

  function RankColor(score: int): string {
    if score >= 95 then "text-orange-400"
    else if score >= 75 then "text-purple-400"
    else if score >= 50 then "text-blue-400"
    else if score >= 25 then "text-green-400"
    else "text-gray-400"
  }

  function RankColorClass(score: int): string {
    if score >= 95 then "bg-orange-400"
    else if score >= 75 then "bg-purple-400"
    else if score >= 50 then "bg-blue-400"
    else if score >= 25 then "bg-green-400"
    else "bg-gray-400"
  }

  /** Both colour helpers pick the colour of the score's tier: the same thresholds. */
  lemma RankColorsByTier(score: int)
    ensures RankColor(score) == RankTextColors[RankTier(score)]
    ensures RankColorClass(score) == RankBackgroundColors[RankTier(score)]
  {
    var t := TierThresholds;
    assert t[1..] == [50, 75, 95] && t[1..][1..] == [75, 95] && t[1..][1..][1..] == [95];
    assert ThresholdsReached(score, [95]) == if score >= 95 then 1 else 0;
    assert ThresholdsReached(score, [75, 95]) == (if score >= 75 then 1 else 0) + ThresholdsReached(score, [95]);
    assert ThresholdsReached(score, [50, 75, 95]) == (if score >= 50 then 1 else 0) + ThresholdsReached(score, [75, 95]);
    assert RankTier(score) == (if score >= 25 then 1 else 0) + ThresholdsReached(score, [50, 75, 95]);
  }

  /** A higher score never has a lower tier. */
  lemma {:induction false} ThresholdsMonotone(s1: int, s2: int, thresholds: seq<int>)
    requires s1 <= s2
    ensures ThresholdsReached(s1, thresholds) <= ThresholdsReached(s2, thresholds)
  {
    if thresholds != [] {
      ThresholdsMonotone(s1, s2, thresholds[1..]);
    }
  }

  lemma RankTierMonotone(s1: int, s2: int)
    requires s1 <= s2
    ensures RankTier(s1) <= RankTier(s2)
  {
    ThresholdsMonotone(s1, s2, TierThresholds);
  }

  const DefaultClassColor: string := "text-gray-200"

  const ClassColors: map<string, string> := map[
    "Death Knight" := "text-red-400",
    "Demon Hunter" := "text-purple-400",
    "Druid" := "text-orange-400",
    "Hunter" := "text-green-400",
    "Mage" := "text-blue-400",
    "Monk" := "text-teal-400",
    "Paladin" := "text-pink-400",
    "Priest" := "text-gray-200",
    "Rogue" := "text-yellow-400",
    "Shaman" := "text-blue-300",
    "Warlock" := "text-purple-300",
    "Warrior" := "text-amber-700",
    "Evoker" := "text-emerald-400"
  ]

  function ClassColor(className: string): string {
    if className in ClassColors then ClassColors[className] else DefaultClassColor
  }

  /** The fallback grey goes to every class outside the table, and inside it only to priests. */
  lemma ClassColorFallback(className: string)
    ensures ClassColor(className) == DefaultClassColor <==> className !in ClassColors || className == "Priest"
  {
  }

  /** The aggregator's fallback class gets the fallback colour. */
  lemma UnknownClassColor()
    ensures ClassColor(UnknownClass.name) == DefaultClassColor
  {
    assert UnknownClass.name !in ClassColors;
  }
}

