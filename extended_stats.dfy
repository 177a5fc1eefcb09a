/**
 * Career statistics over a match history (calculateExtendedStats,
 * initializeExtendedStats, initializeSeasonStats, updateExtendedStats and
 * finalizeExtendedStats in src/player/info.ts).
 *
 * The source mutates bucket objects held in three dictionaries and one
 * "last 20 matches" bucket inside a forEach loop. Here a bucket is a value,
 * the dictionaries are maps the loop reassigns, and the loop is proved equal
 * to the left fold `Aggregate`; the lemmas then say what each bucket holds.
 */
module ExtendedStats {
  import opened Wrappers
  import opened Season
  import opened MatchNormalizer

  // ------------------------------------------------------------------ numbers

  /** A JavaScript number that arises from dividing integers: exact, or non-finite. */
  datatype Num = Finite(value: real) | NaN | PositiveInfinity | NegativeInfinity

  /** `n / d`: exact when `d != 0`; 0/0 is NaN, x/0 an infinity of x's sign. */
  function Divide(n: int, d: int): (q: Num)
    ensures d != 0 ==> q.Finite? && q.value * (d as real) == n as real
    ensures d == 0 ==> (q.NaN? <==> n == 0)
    ensures d == 0 ==> (q == PositiveInfinity <==> n > 0) && (q == NegativeInfinity <==> n < 0)
  {
    if d != 0 then Finite(n as real / d as real)
    else if n == 0 then NaN
    else if n > 0 then PositiveInfinity
    else NegativeInfinity
  }

  /** `q * 100`. */
  function Hundredfold(q: Num): (r: Num)
    ensures q.Finite? ==> r == Finite(q.value * 100.0)
    ensures !q.Finite? ==> r == q
  {
    if q.Finite? then Finite(q.value * 100.0) else q
  }

  // ------------------------------------------------------------------ buckets

  /**
   * What distinguishes the bucket shapes: a plain bucket (map buckets and the
   * last-20 bucket), a season bucket with its peak rating, a sponsor bucket.
   */
  datatype Kind =
    | Plain
    | SeasonKind(season: string, topRankId: string, topRankRating: int)
    | SponsorKind(sponsorId: string, sponsorName: string)

  datatype Bucket = Bucket(
    kind: Kind,
    totalKills: int,
    totalAssists: int,
    totalDeaths: int,
    totalDamageDealt: int,
    totalWins: int,
    totalLosses: int,
    totalDraws: int,
    totalRoundsPlayed: int,
    topDamageDealt: int,
    topKills: int,
    topAssists: int,
    topDeaths: int,
    averageWinPercentage: Num,
    averageDamagePerRound: Num,
    averageKillsPerRound: Num,
    averageAssistsPerRound: Num,
    averageDeathsPerRound: Num)

  /** initializeExtendedStats: every counter and average 0. */
  function InitializeExtendedStats(): (b: Bucket)
    ensures b.kind == Plain && Untouched(b)
  {
    Bucket(Plain, 0, 0, 0, 0, 0, 0, 0, 0, 0, 0, 0, 0,
           Finite(0.0), Finite(0.0), Finite(0.0), Finite(0.0), Finite(0.0))
  }

  /** A bucket holding no match yet. */
  predicate Untouched(b: Bucket) {
    && b.totalKills == 0 && b.totalAssists == 0 && b.totalDeaths == 0 && b.totalDamageDealt == 0
    && b.totalWins == 0 && b.totalLosses == 0 && b.totalDraws == 0 && b.totalRoundsPlayed == 0
    && b.topDamageDealt == 0 && b.topKills == 0 && b.topAssists == 0 && b.topDeaths == 0
  }

  /** initializeSeasonStats: a fresh "Beta" bucket starts with top_rank_id "Beta", any other with "". */
  function InitializeSeasonStats(season: string): (b: Bucket)
    ensures Untouched(b)
    ensures b.kind == SeasonKind(season, if season == "Beta" then "Beta" else "", 0)
  {
    InitializeExtendedStats().(kind := SeasonKind(season, if season == "Beta" then "Beta" else "", 0))
  }

  /** `{ ...initializeExtendedStats(), sponsor_id, sponsor_name }`. */
  function InitializeSponsorStats(sponsorId: string, sponsorName: string): (b: Bucket)
    ensures Untouched(b) && b.kind == SponsorKind(sponsorId, sponsorName)
  {
    InitializeExtendedStats().(kind := SponsorKind(sponsorId, sponsorName))
  }

  function Max(a: int, b: int): int {
    if a >= b then a else b
  }

  /** updateExtendedStats: fold one match's stat line into a bucket. */
  function UpdateExtendedStats(b: Bucket, p: PlayerSnapshot, m: MatchRecord): (r: Bucket)
    ensures r.totalKills == b.totalKills + p.kills
    ensures r.totalAssists == b.totalAssists + p.assists
    ensures r.totalDeaths == b.totalDeaths + p.deaths
    ensures r.totalDamageDealt == b.totalDamageDealt + p.damageDealt
    ensures r.totalRoundsPlayed == b.totalRoundsPlayed + m.rounds
    ensures m.winner == 1 ==> r.totalWins == b.totalWins + 1 && r.totalLosses == b.totalLosses && r.totalDraws == b.totalDraws
    ensures m.winner == 0 ==> r.totalWins == b.totalWins && r.totalLosses == b.totalLosses + 1 && r.totalDraws == b.totalDraws
    ensures m.winner != 0 && m.winner != 1 ==>
              r.totalWins == b.totalWins && r.totalLosses == b.totalLosses && r.totalDraws == b.totalDraws + 1
    ensures r.topDamageDealt >= b.topDamageDealt && r.topDamageDealt >= p.damageDealt
    ensures r.topDamageDealt == b.topDamageDealt || r.topDamageDealt == p.damageDealt
    ensures r.topKills >= b.topKills && r.topKills >= p.kills && (r.topKills == b.topKills || r.topKills == p.kills)
    ensures r.topAssists >= b.topAssists && r.topAssists >= p.assists && (r.topAssists == b.topAssists || r.topAssists == p.assists)
    ensures r.topDeaths >= b.topDeaths && r.topDeaths >= p.deaths && (r.topDeaths == b.topDeaths || r.topDeaths == p.deaths)
    ensures b.kind.SeasonKind? && b.kind.season != "Beta" && p.rankedRating > b.kind.topRankRating
            ==> r.kind == SeasonKind(b.kind.season, p.rankId, p.rankedRating)
    ensures !(b.kind.SeasonKind? && b.kind.season != "Beta" && p.rankedRating > b.kind.topRankRating)
            ==> r.kind == b.kind
    ensures r.averageWinPercentage == b.averageWinPercentage && r.averageDamagePerRound == b.averageDamagePerRound
    ensures r.averageKillsPerRound == b.averageKillsPerRound && r.averageAssistsPerRound == b.averageAssistsPerRound
    ensures r.averageDeathsPerRound == b.averageDeathsPerRound
  {
    var kind :=
      if b.kind.SeasonKind? && b.kind.season != "Beta" && p.rankedRating > b.kind.topRankRating
      then SeasonKind(b.kind.season, p.rankId, p.rankedRating)
      else b.kind;
    b.(kind := kind,
       totalKills := b.totalKills + p.kills,
       totalAssists := b.totalAssists + p.assists,
       totalDeaths := b.totalDeaths + p.deaths,
       totalDamageDealt := b.totalDamageDealt + p.damageDealt,
       totalRoundsPlayed := b.totalRoundsPlayed + m.rounds,
       totalWins := if m.winner == 1 then b.totalWins + 1 else b.totalWins,
       totalLosses := if m.winner == 0 then b.totalLosses + 1 else b.totalLosses,
       totalDraws := if m.winner != 1 && m.winner != 0 then b.totalDraws + 1 else b.totalDraws,
       topDamageDealt := Max(b.topDamageDealt, p.damageDealt),
       topKills := Max(b.topKills, p.kills),
       topAssists := Max(b.topAssists, p.assists),
       topDeaths := Max(b.topDeaths, p.deaths))
  }

  /** finalizeStats: the averages from the totals; zero denominators give NaN or an infinity. */
  function FinalizeStats(b: Bucket): (r: Bucket)
    ensures r.kind == b.kind
    ensures r.(averageWinPercentage := b.averageWinPercentage, averageDamagePerRound := b.averageDamagePerRound,
               averageKillsPerRound := b.averageKillsPerRound, averageAssistsPerRound := b.averageAssistsPerRound,
               averageDeathsPerRound := b.averageDeathsPerRound) == b
    ensures r.averageWinPercentage == Hundredfold(Divide(b.totalWins, b.totalWins + b.totalLosses + b.totalDraws))
    ensures r.averageDamagePerRound == Divide(b.totalDamageDealt, b.totalRoundsPlayed)
    ensures r.averageKillsPerRound == Divide(b.totalKills, b.totalRoundsPlayed)
    ensures r.averageAssistsPerRound == Divide(b.totalAssists, b.totalRoundsPlayed)
    ensures r.averageDeathsPerRound == Divide(b.totalDeaths, b.totalRoundsPlayed)
  {
    var totalMatches := b.totalWins + b.totalLosses + b.totalDraws;
    b.(averageWinPercentage := Hundredfold(Divide(b.totalWins, totalMatches)),
       averageDamagePerRound := Divide(b.totalDamageDealt, b.totalRoundsPlayed),
       averageKillsPerRound := Divide(b.totalKills, b.totalRoundsPlayed),
       averageAssistsPerRound := Divide(b.totalAssists, b.totalRoundsPlayed),
       averageDeathsPerRound := Divide(b.totalDeaths, b.totalRoundsPlayed))
  }

  // ------------------------------------------------------------------- report

  /** The extended_stats object of a full profile. */
  datatype Report = Report(
    seasonStats: map<string, Bucket>,
    last20MatchesAvgStats: Bucket,
    mapStats: map<string, Bucket>,
    sponsorStats: map<string, Bucket>)

  function EmptyReport(): Report {
    Report(map[], InitializeExtendedStats(), map[], map[])
  }

  /** How a map name becomes a property key: JavaScript spells a null key "null". */
  function MapKey(gameMap: Option<string>): string {
    match gameMap
    case Some(name) => name
    case None => "null"
  }

  /** `players.find(p => p.id === playerId)`: the first snapshot with that id. */
  function FindPlayer(players: seq<PlayerSnapshot>, playerId: string): (r: Option<PlayerSnapshot>)
    ensures r.Some? ==> r.value in players && r.value.id == playerId
    ensures r.None? <==> forall p :: p in players ==> p.id != playerId
  {
    if players == [] then None
    else if players[0].id == playerId then Some(players[0])
    else FindPlayer(players[1..], playerId)
  }

  /** The snapshot found is the earliest one carrying the id. */
  lemma {:induction false} FindPlayerFirst(players: seq<PlayerSnapshot>, playerId: string, k: nat)
    requires k < |players| && players[k].id == playerId
    requires forall j :: 0 <= j < k ==> players[j].id != playerId
    ensures FindPlayer(players, playerId) == Some(players[k])
  {
    if k > 0 {
      FindPlayerFirst(players[1..], playerId, k - 1);
    }
  }

  /** Get-or-create the bucket under `key` (with `initial` when missing), then fold the match into it. */
  function Upsert(stats: map<string, Bucket>, key: string, initial: Bucket, p: PlayerSnapshot, m: MatchRecord): map<string, Bucket> {
    stats[key := UpdateExtendedStats(if key in stats then stats[key] else initial, p, m)]
  }

  /** What one match does to the season dictionary: its season's bucket takes the subject's line. */
  function SeasonsAfter(seasons: map<string, Bucket>, m: MatchRecord, playerId: string): map<string, Bucket> {
    match FindPlayer(m.playerTeam.players, playerId)
    case None => seasons
    case Some(p) =>
      var season := GetSeason(m.matchDate);
      Upsert(seasons, season, InitializeSeasonStats(season), p, m)
  }

  /** What one match does to the map dictionary. */
  function MapsAfter(maps: map<string, Bucket>, m: MatchRecord, playerId: string): map<string, Bucket> {
    match FindPlayer(m.playerTeam.players, playerId)
    case None => maps
    case Some(p) => Upsert(maps, MapKey(m.gameMap), InitializeExtendedStats(), p, m)
  }

  /** What one match does to the sponsor dictionary: nothing when the subject picked no sponsor. */
  function SponsorsAfter(sponsors: map<string, Bucket>, m: MatchRecord, playerId: string): map<string, Bucket> {
    match FindPlayer(m.playerTeam.players, playerId)
    case None => sponsors
    case Some(p) =>
      if p.sponsorId == "" then sponsors
      else Upsert(sponsors, p.sponsorId, InitializeSponsorStats(p.sponsorId, p.sponsorName), p, m)
  }

  /** What the match at `index` does to the last-20 bucket: only the first 20 matches count. */
  function Last20After(b: Bucket, index: int, m: MatchRecord, playerId: string): Bucket {
    match FindPlayer(m.playerTeam.players, playerId)
    case None => b
    case Some(p) => if index < 20 then UpdateExtendedStats(b, p, m) else b
  }

  /** One iteration of the forEach in calculateExtendedStats, for the match at `index`. */
  function Step(r: Report, index: int, m: MatchRecord, playerId: string): Report {
    Report(SeasonsAfter(r.seasonStats, m, playerId),
           Last20After(r.last20MatchesAvgStats, index, m, playerId),
           MapsAfter(r.mapStats, m, playerId),
           SponsorsAfter(r.sponsorStats, m, playerId))
  }

  /** The buckets after folding `matches` in order, before finalisation. */
  function Aggregate(matches: seq<MatchRecord>, playerId: string): Report
    decreases |matches|
  {
    if matches == [] then EmptyReport()
    else Step(Aggregate(matches[..|matches| - 1], playerId), |matches| - 1, matches[|matches| - 1], playerId)
  }

  function FinalizeMap(m: map<string, Bucket>): (r: map<string, Bucket>)
    ensures r.Keys == m.Keys
  {
    map k | k in m :: FinalizeStats(m[k])
  }

  /** finalizeExtendedStats over every bucket of the report. */
  function FinalizeReport(r: Report): Report {
    Report(FinalizeMap(r.seasonStats), FinalizeStats(r.last20MatchesAvgStats),
           FinalizeMap(r.mapStats), FinalizeMap(r.sponsorStats))
  }

  // ----------------------------------------------- what the buckets hold

  /** A match the subject took part in, with the subject's snapshot in it. */
  datatype Line = Line(player: PlayerSnapshot, game: MatchRecord)

  /** The stat line one match adds: the subject's snapshot in it, if the subject is on `player_team`. */
  function LineOf(m: MatchRecord, playerId: string): (r: seq<Line>)
    ensures |r| <= 1
  {
    match FindPlayer(m.playerTeam.players, playerId)
    case Some(p) => [Line(p, m)]
    case None => []
  }

  /** The stat lines the fold sees: matches whose `player_team` holds the subject, in order. */
  function Contributions(matches: seq<MatchRecord>, playerId: string): (lines: seq<Line>)
    ensures |lines| <= |matches|
    decreases |matches|
  {
    if matches == [] then []
    else Contributions(matches[..|matches| - 1], playerId) + LineOf(matches[|matches| - 1], playerId)
  }

  /** The lines whose match falls in season `season`. */
  function SeasonLines(lines: seq<Line>, season: string): seq<Line> {
    if lines == [] then []
    else
      var earlier := SeasonLines(lines[..|lines| - 1], season);
      var l := lines[|lines| - 1];
      if GetSeason(l.game.matchDate) == season then earlier + [l] else earlier
  }

  /** The lines whose match was played on the map keyed `key`. */
  function MapLines(lines: seq<Line>, key: string): seq<Line> {
    if lines == [] then []
    else
      var earlier := MapLines(lines[..|lines| - 1], key);
      var l := lines[|lines| - 1];
      if MapKey(l.game.gameMap) == key then earlier + [l] else earlier
  }

  /** The lines in which the subject picked sponsor `sponsorId`. */
  function SponsorLines(lines: seq<Line>, sponsorId: string): (r: seq<Line>)
    ensures forall l :: l in r ==> l.player.sponsorId == sponsorId
  {
    if lines == [] then []
    else
      var earlier := SponsorLines(lines[..|lines| - 1], sponsorId);
      var l := lines[|lines| - 1];
      if l.player.sponsorId == sponsorId then earlier + [l] else earlier
  }

  /** Repeated updateExtendedStats, oldest line first. */
  function FoldLines(b: Bucket, lines: seq<Line>): Bucket {
    if lines == [] then b
    else
      var l := lines[|lines| - 1];
      UpdateExtendedStats(FoldLines(b, lines[..|lines| - 1]), l.player, l.game)
  }

  /** The season dictionary of `r` agrees with the lines `lines` at key `season`. */
  ghost predicate SeasonAgrees(seasons: map<string, Bucket>, lines: seq<Line>, season: string) {
    && (season in seasons <==> SeasonLines(lines, season) != [])
    && (season in seasons ==> seasons[season] == FoldLines(InitializeSeasonStats(season), SeasonLines(lines, season)))
  }

  ghost predicate MapAgrees(maps: map<string, Bucket>, lines: seq<Line>, key: string) {
    && (key in maps <==> MapLines(lines, key) != [])
    && (key in maps ==> maps[key] == FoldLines(InitializeExtendedStats(), MapLines(lines, key)))
  }

  ghost predicate SponsorAgrees(sponsors: map<string, Bucket>, lines: seq<Line>, sponsorId: string) {
    && (sponsorId in sponsors <==> sponsorId != "" && SponsorLines(lines, sponsorId) != [])
    && (sponsorId in sponsors ==>
          sponsors[sponsorId]
          == FoldLines(InitializeSponsorStats(sponsorId, SponsorLines(lines, sponsorId)[0].player.sponsorName),
                       SponsorLines(lines, sponsorId)))
  }

  lemma SeasonStep(seasons: map<string, Bucket>, m: MatchRecord, playerId: string, lines: seq<Line>, k: string)
    requires SeasonAgrees(seasons, lines, k)
    ensures SeasonAgrees(SeasonsAfter(seasons, m, playerId), lines + LineOf(m, playerId), k)
  {
    match FindPlayer(m.playerTeam.players, playerId)
    case None =>
      assert lines + LineOf(m, playerId) == lines;
    case Some(p) =>
      var season := GetSeason(m.matchDate);
      if season == k {
        SeasonHit(seasons, Line(p, m), lines, k);
      } else {
        SeasonMiss(seasons, season, Line(p, m), lines, k);
      }
  }

  /** A line of season `k` extends the fold in bucket `k`. */
  lemma SeasonHit(seasons: map<string, Bucket>, l: Line, lines: seq<Line>, k: string)
    requires GetSeason(l.game.matchDate) == k && SeasonAgrees(seasons, lines, k)
    ensures SeasonAgrees(Upsert(seasons, k, InitializeSeasonStats(k), l.player, l.game), lines + [l], k)
  {
    assert (lines + [l])[..|lines|] == lines;
    var before := SeasonLines(lines, k);
    assert SeasonLines(lines + [l], k) == before + [l];
    assert (before + [l])[..|before|] == before;
    assert FoldLines(InitializeSeasonStats(k), before + [l])
           == UpdateExtendedStats(FoldLines(InitializeSeasonStats(k), before), l.player, l.game);
  }

  /** A line of another season leaves bucket `k` as it was. */
  lemma SeasonMiss(seasons: map<string, Bucket>, season: string, l: Line, lines: seq<Line>, k: string)
    requires GetSeason(l.game.matchDate) == season != k && SeasonAgrees(seasons, lines, k)
    ensures SeasonAgrees(Upsert(seasons, season, InitializeSeasonStats(season), l.player, l.game), lines + [l], k)
  {
    assert (lines + [l])[..|lines|] == lines;
    assert SeasonLines(lines + [l], k) == SeasonLines(lines, k);
  }

  lemma MapStep(maps: map<string, Bucket>, m: MatchRecord, playerId: string, lines: seq<Line>, k: string)
    requires MapAgrees(maps, lines, k)
    ensures MapAgrees(MapsAfter(maps, m, playerId), lines + LineOf(m, playerId), k)
  {
    match FindPlayer(m.playerTeam.players, playerId)
    case None =>
      assert lines + LineOf(m, playerId) == lines;
    case Some(p) =>
      var l := Line(p, m);
      assert (lines + [l])[..|lines|] == lines;
      var after := MapsAfter(maps, m, playerId);
      if MapKey(m.gameMap) == k {
        assert MapLines(lines + [l], k) == MapLines(lines, k) + [l];
      } else {
        assert MapLines(lines + [l], k) == MapLines(lines, k);
        assert k in after <==> k in maps;
        assert k in after ==> after[k] == maps[k];
      }
  }

  lemma SponsorStep(sponsors: map<string, Bucket>, m: MatchRecord, playerId: string, lines: seq<Line>, sponsorId: string)
    requires SponsorAgrees(sponsors, lines, sponsorId)
    ensures SponsorAgrees(SponsorsAfter(sponsors, m, playerId), lines + LineOf(m, playerId), sponsorId)
  {
    match FindPlayer(m.playerTeam.players, playerId)
    case None =>
      assert lines + LineOf(m, playerId) == lines;
    case Some(p) =>
      var l := Line(p, m);
      assert (lines + [l])[..|lines|] == lines;
      var before := SponsorLines(lines, sponsorId);
      var after := SponsorsAfter(sponsors, m, playerId);
      if p.sponsorId != sponsorId {
        assert SponsorLines(lines + [l], sponsorId) == before;
        assert sponsorId in after <==> sponsorId in sponsors;
        assert sponsorId in after ==> after[sponsorId] == sponsors[sponsorId];
      } else {
        assert SponsorLines(lines + [l], sponsorId) == before + [l];
        if before != [] {
          assert (before + [l])[0] == before[0];
        }
      }
  }

  /**
   * A season bucket exists exactly when some contributing match falls in that
   * season, and it is the fold of exactly those matches into a fresh season bucket.
   */
  lemma {:induction false} SeasonBucketIsFoldOfItsMatches(matches: seq<MatchRecord>, playerId: string, season: string)
    ensures var lines := SeasonLines(Contributions(matches, playerId), season);
            && (season in Aggregate(matches, playerId).seasonStats <==> lines != [])
            && (season in Aggregate(matches, playerId).seasonStats ==>
                  Aggregate(matches, playerId).seasonStats[season] == FoldLines(InitializeSeasonStats(season), lines))
    decreases |matches|
  {
    if matches != [] {
      var pre := matches[..|matches| - 1];
      SeasonBucketIsFoldOfItsMatches(pre, playerId, season);
      SeasonStep(Aggregate(pre, playerId).seasonStats, matches[|matches| - 1], playerId, Contributions(pre, playerId), season);
    }
  }

  /** A map bucket exists exactly when some contributing match was played on
      that map, and it is the fold of exactly those matches. */
  lemma {:induction false} MapBucketIsFoldOfItsMatches(matches: seq<MatchRecord>, playerId: string, key: string)
    ensures var lines := MapLines(Contributions(matches, playerId), key);
            && (key in Aggregate(matches, playerId).mapStats <==> lines != [])
            && (key in Aggregate(matches, playerId).mapStats ==>
                  Aggregate(matches, playerId).mapStats[key] == FoldLines(InitializeExtendedStats(), lines))
    decreases |matches|
  {
    if matches != [] {
      var pre := matches[..|matches| - 1];
      MapBucketIsFoldOfItsMatches(pre, playerId, key);
      MapStep(Aggregate(pre, playerId).mapStats, matches[|matches| - 1], playerId, Contributions(pre, playerId), key);
    }
  }

  /**
   * A sponsor bucket exists exactly for a non-empty sponsor id the subject
   * picked in some contributing match; its name is the one recorded in the
   * first such match, and its totals fold exactly those matches.
   */
  lemma {:induction false} SponsorBucketIsFoldOfItsMatches(matches: seq<MatchRecord>, playerId: string, sponsorId: string)
    ensures var lines := SponsorLines(Contributions(matches, playerId), sponsorId);
            && (sponsorId in Aggregate(matches, playerId).sponsorStats <==> sponsorId != "" && lines != [])
            && (sponsorId in Aggregate(matches, playerId).sponsorStats ==>
                  Aggregate(matches, playerId).sponsorStats[sponsorId]
                  == FoldLines(InitializeSponsorStats(sponsorId, lines[0].player.sponsorName), lines))
    decreases |matches|
  {
    if matches != [] {
      var pre := matches[..|matches| - 1];
      SponsorBucketIsFoldOfItsMatches(pre, playerId, sponsorId);
      SponsorStep(Aggregate(pre, playerId).sponsorStats, matches[|matches| - 1], playerId, Contributions(pre, playerId), sponsorId);
    }
  }

  /** The last-20 bucket is the fold of the contributing matches among the first 20. */
  lemma {:induction false} Last20IsFoldOfFirstTwenty(matches: seq<MatchRecord>, playerId: string)
    ensures Aggregate(matches, playerId).last20MatchesAvgStats
            == FoldLines(InitializeExtendedStats(), Contributions(matches[..Min(20, |matches|)], playerId))
    decreases |matches|
  {
    if matches != [] {
      var pre := matches[..|matches| - 1];
      Last20IsFoldOfFirstTwenty(pre, playerId);
      if |matches| <= 20 {
        assert matches[..|matches|] == matches;
        assert pre[..|pre|] == pre;
        Last20Early(matches, playerId);
      } else {
        Last20Late(matches, playerId);
      }
    }
  }

  lemma Last20Early(matches: seq<MatchRecord>, playerId: string)
    requires 0 < |matches| <= 20
    requires var pre := matches[..|matches| - 1];
             Aggregate(pre, playerId).last20MatchesAvgStats == FoldLines(InitializeExtendedStats(), Contributions(pre, playerId))
    ensures Aggregate(matches, playerId).last20MatchesAvgStats == FoldLines(InitializeExtendedStats(), Contributions(matches, playerId))
  {
    var pre := matches[..|matches| - 1];
    var m := matches[|matches| - 1];
    assert Aggregate(matches, playerId).last20MatchesAvgStats
           == Last20After(Aggregate(pre, playerId).last20MatchesAvgStats, |matches| - 1, m, playerId);
    assert Contributions(matches, playerId) == Contributions(pre, playerId) + LineOf(m, playerId);
    Last20Step(Aggregate(pre, playerId).last20MatchesAvgStats, |matches| - 1, m, playerId, Contributions(pre, playerId));
  }

  lemma Last20Late(matches: seq<MatchRecord>, playerId: string)
    requires |matches| > 20
    requires var pre := matches[..|matches| - 1];
             Aggregate(pre, playerId).last20MatchesAvgStats
             == FoldLines(InitializeExtendedStats(), Contributions(pre[..Min(20, |pre|)], playerId))
    ensures Aggregate(matches, playerId).last20MatchesAvgStats
            == FoldLines(InitializeExtendedStats(), Contributions(matches[..Min(20, |matches|)], playerId))
  {
    var pre := matches[..|matches| - 1];
    assert pre[..20] == matches[..20];
  }

  lemma Last20Step(b: Bucket, index: int, m: MatchRecord, playerId: string, lines: seq<Line>)
    requires index < 20 && b == FoldLines(InitializeExtendedStats(), lines)
    ensures Last20After(b, index, m, playerId) == FoldLines(InitializeExtendedStats(), lines + LineOf(m, playerId))
  {
    match FindPlayer(m.playerTeam.players, playerId)
    case None =>
      assert lines + LineOf(m, playerId) == lines;
    case Some(p) =>
      assert (lines + [Line(p, m)])[..|lines|] == lines;
  }

  function Min(a: int, b: int): int {
    if a <= b then a else b
  }

  // ------------------------------------------------------- fold arithmetic

  function Sum(lines: seq<Line>, f: Line -> int): int {
    if lines == [] then 0 else Sum(lines[..|lines| - 1], f) + f(lines[|lines| - 1])
  }

  function KillsOf(l: Line): int { l.player.kills }
  function AssistsOf(l: Line): int { l.player.assists }
  function DeathsOf(l: Line): int { l.player.deaths }
  function DamageOf(l: Line): int { l.player.damageDealt }
  function RoundsOf(l: Line): int { l.game.rounds }
  function WinOf(l: Line): int { if l.game.winner == 1 then 1 else 0 }
  function LossOf(l: Line): int { if l.game.winner == 0 then 1 else 0 }
  function DrawOf(l: Line): int { if l.game.winner != 0 && l.game.winner != 1 then 1 else 0 }

  /** Every total is the starting value plus the sum over the folded lines;
      each line counts as exactly one win, loss or draw. */
  lemma {:induction false} FoldTotals(b: Bucket, lines: seq<Line>)
    ensures FoldLines(b, lines).totalKills == b.totalKills + Sum(lines, KillsOf)
    ensures FoldLines(b, lines).totalAssists == b.totalAssists + Sum(lines, AssistsOf)
    ensures FoldLines(b, lines).totalDeaths == b.totalDeaths + Sum(lines, DeathsOf)
    ensures FoldLines(b, lines).totalDamageDealt == b.totalDamageDealt + Sum(lines, DamageOf)
    ensures FoldLines(b, lines).totalRoundsPlayed == b.totalRoundsPlayed + Sum(lines, RoundsOf)
    ensures FoldLines(b, lines).totalWins == b.totalWins + Sum(lines, WinOf)
    ensures FoldLines(b, lines).totalLosses == b.totalLosses + Sum(lines, LossOf)
    ensures FoldLines(b, lines).totalDraws == b.totalDraws + Sum(lines, DrawOf)
    ensures FoldLines(b, lines).totalWins + FoldLines(b, lines).totalLosses + FoldLines(b, lines).totalDraws
            == b.totalWins + b.totalLosses + b.totalDraws + |lines|
  {
    if lines != [] {
      FoldTotals(b, lines[..|lines| - 1]);
    }
  }

  /** The four peak fields of a bucket. */
  datatype Stat = Kills | Damage | Assists | Deaths

  function Top(b: Bucket, s: Stat): int {
    match s
    case Kills => b.topKills
    case Damage => b.topDamageDealt
    case Assists => b.topAssists
    case Deaths => b.topDeaths
  }

  function Value(l: Line, s: Stat): int {
    match s
    case Kills => l.player.kills
    case Damage => l.player.damageDealt
    case Assists => l.player.assists
    case Deaths => l.player.deaths
  }

  /** One update raises a peak to the larger of itself and the line's value. */
  lemma UpdatePeak(c: Bucket, l: Line, s: Stat)
    ensures Top(UpdateExtendedStats(c, l.player, l.game), s) == Max(Top(c, s), Value(l, s))
  {
  }

  /** A peak ends the fold at the largest of its starting value and the lines' values. */
  lemma {:induction false} FoldPeak(b: Bucket, lines: seq<Line>, s: Stat)
    ensures var r := FoldLines(b, lines);
            && Top(r, s) >= Top(b, s) && (forall l :: l in lines ==> Top(r, s) >= Value(l, s))
            && (Top(r, s) == Top(b, s) || exists l :: l in lines && Top(r, s) == Value(l, s))
  {
    if lines != [] {
      var pre := lines[..|lines| - 1];
      var last := lines[|lines| - 1];
      FoldPeak(b, pre, s);
      assert lines == pre + [last];
      var r0 := FoldLines(b, pre);
      UpdatePeak(r0, last, s);
      if Top(FoldLines(b, lines), s) == Value(last, s) {
        assert last in lines;
      }
    }
  }

  /** Each peak is the largest of its starting value and the folded lines' values. */
  lemma FoldPeaks(b: Bucket, lines: seq<Line>)
    ensures var r := FoldLines(b, lines);
            && r.topKills >= b.topKills && (forall l :: l in lines ==> r.topKills >= l.player.kills)
            && (r.topKills == b.topKills || exists l :: l in lines && r.topKills == l.player.kills)
            && r.topDamageDealt >= b.topDamageDealt && (forall l :: l in lines ==> r.topDamageDealt >= l.player.damageDealt)
            && (r.topDamageDealt == b.topDamageDealt || exists l :: l in lines && r.topDamageDealt == l.player.damageDealt)
            && r.topAssists >= b.topAssists && (forall l :: l in lines ==> r.topAssists >= l.player.assists)
            && (r.topAssists == b.topAssists || exists l :: l in lines && r.topAssists == l.player.assists)
            && r.topDeaths >= b.topDeaths && (forall l :: l in lines ==> r.topDeaths >= l.player.deaths)
            && (r.topDeaths == b.topDeaths || exists l :: l in lines && r.topDeaths == l.player.deaths)
  {
    FoldPeak(b, lines, Kills);
    FoldPeak(b, lines, Damage);
    FoldPeak(b, lines, Assists);
    FoldPeak(b, lines, Deaths);
  }

  /**
   * A season other than "Beta" tracks the highest rating seen (never below 0)
   * and the rank id recorded with it; the "Beta" bucket keeps its initial
   * peak fields untouched.
   */
  lemma {:induction false} FoldSeasonPeak(season: string, lines: seq<Line>)
    ensures var k := FoldLines(InitializeSeasonStats(season), lines).kind;
            && k.SeasonKind? && k.season == season
            && (season == "Beta" ==> k == SeasonKind("Beta", "Beta", 0))
            && (season != "Beta" ==>
                  && k.topRankRating >= 0
                  && (forall l :: l in lines ==> k.topRankRating >= l.player.rankedRating)
                  && ((k.topRankRating == 0 && k.topRankId == "")
                      || exists l :: l in lines && k.topRankRating == l.player.rankedRating && k.topRankId == l.player.rankId))
  {
    if lines != [] {
      var pre := lines[..|lines| - 1];
      FoldSeasonPeak(season, pre);
      assert lines == pre + [lines[|lines| - 1]];
    }
  }

  /** Once any match is folded in, the finalised win percentage is a number between 0 and 100. */
  lemma WinPercentageInRange(b: Bucket, lines: seq<Line>)
    requires Untouched(b) && lines != []
    ensures FinalizeStats(FoldLines(b, lines)).averageWinPercentage.Finite?
    ensures 0.0 <= FinalizeStats(FoldLines(b, lines)).averageWinPercentage.value <= 100.0
  {
    FoldTotals(b, lines);
    SumOfIndicatorsBounded(lines);
    var r := FoldLines(b, lines);
    PercentageInRange(r.totalWins, r.totalWins + r.totalLosses + r.totalDraws);
  }

  lemma PercentageInRange(part: int, whole: int)
    requires 0 <= part <= whole && whole > 0
    ensures Hundredfold(Divide(part, whole)).Finite?
    ensures 0.0 <= Hundredfold(Divide(part, whole)).value <= 100.0
  {
    var q := part as real / whole as real;
    assert q * whole as real == part as real;
    assert 0.0 <= q <= 1.0;
  }

  lemma {:induction false} SumOfIndicatorsBounded(lines: seq<Line>)
    ensures Sum(lines, WinOf) >= 0 && Sum(lines, LossOf) >= 0 && Sum(lines, DrawOf) >= 0
  {
    if lines != [] {
      SumOfIndicatorsBounded(lines[..|lines| - 1]);
    }
  }

  /** 3 wins, 1 loss and no draw give 75 percent. */
  lemma WinPercentageExample(b: Bucket)
    requires b.totalWins == 3 && b.totalLosses == 1 && b.totalDraws == 0
    ensures FinalizeStats(b).averageWinPercentage == Finite(75.0)
  {
  }

  // ------------------------------------------------------------- the methods

  /** The dictionary while finalisation runs: the keys in `pending` are not finalised yet. */
  function Finalizing(m: map<string, Bucket>, pending: set<string>): (r: map<string, Bucket>)
    ensures r.Keys == m.Keys
  {
    map k | k in m :: if k in pending then m[k] else FinalizeStats(m[k])
  }

  lemma FinalizingStep(m: map<string, Bucket>, pending: set<string>, k: string)
    requires k in pending && k in m
    ensures Finalizing(m, pending - {k}) == Finalizing(m, pending)[k := FinalizeStats(m[k])]
  {
  }

  /** `Object.values(stats).forEach(finalizeStats)`: finalise every bucket of one dictionary. */
  method FinalizeAll(m: map<string, Bucket>) returns (r: map<string, Bucket>)
    ensures r.Keys == m.Keys
    ensures forall k :: k in m ==> r[k] == FinalizeStats(m[k])
    ensures r == FinalizeMap(m)
  {
    r := m;
    var pending := m.Keys;
    assert r == Finalizing(m, pending);
    while pending != {}
      invariant pending <= m.Keys
      invariant r == Finalizing(m, pending)
      decreases |pending|
    {
      var k :| k in pending;
      FinalizingStep(m, pending, k);
      r := r[k := FinalizeStats(m[k])];
      pending := pending - {k};
    }
    assert r == FinalizeMap(m);
  }

  /** Get-or-create the bucket under `key` (with `initial` when missing), then fold the match into it. */
  method GetOrCreateAndUpdate(stats: map<string, Bucket>, key: string, initial: Bucket, p: PlayerSnapshot, m: MatchRecord)
    returns (r: map<string, Bucket>)
    ensures r == Upsert(stats, key, initial, p, m)
  {
    r := stats;
    if key !in r {
      r := r[key := initial];
    }
    r := r[key := UpdateExtendedStats(r[key], p, m)];
  }

  /** The body of the forEach in calculateExtendedStats, for the match at `index`. */
  method FoldMatch(stats: Report, index: int, m: MatchRecord, playerId: string) returns (r: Report)
    ensures r == Step(stats, index, m, playerId)
  {
    r := stats;
    var found := FindPlayer(m.playerTeam.players, playerId);
    if found.Some? {
      var p := found.value;
      var season := GetSeason(m.matchDate);
      var seasonStats := GetOrCreateAndUpdate(r.seasonStats, season, InitializeSeasonStats(season), p, m);
      var mapStats := GetOrCreateAndUpdate(r.mapStats, MapKey(m.gameMap), InitializeExtendedStats(), p, m);
      var sponsorStats := r.sponsorStats;
      if p.sponsorId != "" {
        sponsorStats := GetOrCreateAndUpdate(sponsorStats, p.sponsorId, InitializeSponsorStats(p.sponsorId, p.sponsorName), p, m);
      }
      var last20 := r.last20MatchesAvgStats;
      if index < 20 {
        last20 := UpdateExtendedStats(last20, p, m);
      }
      r := Report(seasonStats, last20, mapStats, sponsorStats);
    }
  }

  /** One more match folds one more step. */
  lemma AggregatePrefix(matches: seq<MatchRecord>, index: nat, playerId: string)
    requires index < |matches|
    ensures Aggregate(matches[..index + 1], playerId) == Step(Aggregate(matches[..index], playerId), index, matches[index], playerId)
  {
    assert matches[..index + 1][..index] == matches[..index];
  }

  /** The forEach of calculateExtendedStats: fold every match into the buckets, in order. */
  method AggregateAll(matches: seq<MatchRecord>, playerId: string) returns (stats: Report)
    ensures stats == Aggregate(matches, playerId)
  {
    stats := EmptyReport();
    var index := 0;
    while index < |matches|
      invariant 0 <= index <= |matches|
      invariant stats == Aggregate(matches[..index], playerId)
    {
      stats := FoldMatch(stats, index, matches[index], playerId);
      AggregatePrefix(matches, index, playerId);
      index := index + 1;
    }
    assert matches[..index] == matches;
  }

  /** calculateExtendedStats followed by finalizeExtendedStats. */
  method CalculateExtendedStats(matches: seq<MatchRecord>, playerId: string) returns (r: Report)
    ensures r == FinalizeReport(Aggregate(matches, playerId))
  {
    var stats := AggregateAll(matches, playerId);
    var seasons := FinalizeAll(stats.seasonStats);
    var maps := FinalizeAll(stats.mapStats);
    var sponsors := FinalizeAll(stats.sponsorStats);
    r := Report(seasons, FinalizeStats(stats.last20MatchesAvgStats), maps, sponsors);
  }

}
