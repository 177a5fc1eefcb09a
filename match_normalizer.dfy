/**
 * Normalisation of one raw participation row into a match record
 * (processMatch, calculateWinner, processTeam, calculateXpEarned,
 * calculateFansEarned and processPlayer in src/player/info.ts).
 *
 * Raw columns that may be null are `Option`s; where the code reads them with
 * `x || d` or tests them with `&&`, `Some(0)` and `Some("")` behave like `None`.
 */
module MatchNormalizer {
  import opened Wrappers
  import opened Text
  import opened Season

  /** A spectre_match_player row as fetched. */
  datatype RawPlayer = RawPlayer(
    player: Option<string>,
    savedPlayerName: Option<string>,
    numKills: Option<int>,
    numAssists: Option<int>,
    numDeaths: Option<int>,
    totalDamageDone: Option<int>,
    teammateIndex: Option<int>,
    selectedSponsor: Option<string>,
    savedSponsorName: Option<string>,
    currentRankedRating: Option<int>,
    previousRankedRating: Option<int>,
    rankedRatingDelta: Option<int>,
    currentRankId: Option<int>,
    previousRankId: Option<int>,
    selectedBannerCatalogId: Option<string>,
    crewScore: Option<int>,
    crew: Option<string>,
    team: Option<string>,
    division: Option<string>,
    numRankedMatches: Option<int>,
    isAnonymousPlayer: Option<bool>)

  /** A spectre_match_team row with its nested player rows (absent when the relation is missing). */
  datatype RawTeam = RawTeam(
    id: string,
    team: Option<string>,
    teamIndex: int,
    roundsWon: int,
    roundsPlayed: int,
    xpPerRound: Option<int>,
    xpPerRoundWon: Option<int>,
    fansPerRound: Option<int>,
    fansPerRoundWon: Option<int>,
    usedTeamRank: bool,
    currentRankId: Option<int>,
    previousRankId: Option<int>,
    numRankedMatches: Option<int>,
    currentRankedRating: Option<int>,
    rankedRatingDelta: Option<int>,
    previousRankedRating: Option<int>,
    isFullTeamInParty: bool,
    players: Option<seq<RawPlayer>>)

  /** A spectre_match row with every team of the match nested in it. */
  datatype RawMatch = RawMatch(
    id: string,
    region: Option<string>,
    isRanked: bool,
    queueName: Option<string>,
    queueGameMap: Option<string>,
    queueGameMode: Option<string>,
    surrenderedTeam: Option<int>,
    isAbandonedMatch: bool,
    matchDate: Option<DateTime>,
    teams: Option<seq<RawTeam>>)

  /** The match-team a participation row points at, and the match that team points at. */
  datatype RawTeamRef = RawTeamRef(spectreMatch: Option<RawMatch>)

  /** One row of the subject's spectre_match_player relation. */
  datatype RawParticipation = RawParticipation(matchTeam: Option<RawTeamRef>)

  datatype PlayerSnapshot = PlayerSnapshot(
    id: string,
    name: string,
    kills: int,
    assists: int,
    deaths: int,
    damageDealt: int,
    teammateIndex: int,
    sponsorId: string,
    sponsorName: string,
    rankedRating: int,
    previousRankedRating: int,
    rankedRatingDelta: int,
    rankId: string,
    previousRankId: string,
    bannerId: string,
    crewScore: int,
    crewId: string,
    teamId: string,
    divisionId: string,
    numRankedMatches: int,
    isAnonymous: bool)

  datatype TeamSnapshot = TeamSnapshot(
    id: string,
    teamId: Option<string>,
    teamIndex: int,
    roundsWon: int,
    roundsPlayed: int,
    xpEarned: int,
    fansEarned: int,
    usedTeamRank: bool,
    teamRank: Option<int>,
    previousTeamRank: Option<int>,
    numRankedMatches: Option<int>,
    rankedRating: Option<int>,
    rankedRatingDelta: Option<int>,
    previousRankedRating: Option<int>,
    isFullParty: bool,
    players: seq<PlayerSnapshot>)

  datatype MatchRecord = MatchRecord(
    id: string,
    region: Option<string>,
    isRanked: bool,
    queueName: Option<string>,
    gameMap: Option<string>,
    gameMode: Option<string>,
    surrenderedTeam: Option<int>,
    isAbandoned: bool,
    matchDate: DateTime,
    rounds: int,
    winner: int,
    playerTeam: TeamSnapshot,
    opponentTeam: Option<TeamSnapshot>)

  /** `new Date(null)` reads as the Unix epoch. */
  const Epoch: DateTime := DateTime(1970, 0, 1, 0)

  // ------------------------------------------------------------ processPlayer

  /** `rank || ''` for a numeric rank id: the rank's decimal text when it is set and not 0,
      the empty string otherwise. */
  function RankText(rank: Option<int>): (r: string)
    ensures r == "" <==> !TruthyInt(rank)
    ensures TruthyInt(rank) ==> r == IntToString(rank.value)
  {
    if TruthyInt(rank) then IntToString(rank.value) else ""
  }

  /** Distinct set rank ids keep distinct texts, and every unset form (null, 0) gives the same one. */
  lemma RankTextInjective(x: Option<int>, y: Option<int>)
    requires RankText(x) == RankText(y)
    ensures IntOr(x, 0) == IntOr(y, 0)
  {
    if TruthyInt(x) {
      IntToStringInjective(x.value, y.value);
    }
  }

  /** processPlayer: no snapshot for a row without a player id; defaults otherwise. */
  function ProcessPlayer(raw: RawPlayer): (r: Option<PlayerSnapshot>)
    ensures r.None? <==> !TruthyStr(raw.player)
    ensures r.Some? ==> r.value.id == raw.player.value && r.value.id != ""
    ensures r.Some? ==> r.value.name == StrOr(raw.savedPlayerName, "Unknown")
    ensures r.Some? ==> (r.value.kills == IntOr(raw.numKills, 0)
                         && r.value.assists == IntOr(raw.numAssists, 0)
                         && r.value.deaths == IntOr(raw.numDeaths, 0)
                         && r.value.damageDealt == IntOr(raw.totalDamageDone, 0))
    ensures r.Some? ==> (r.value.sponsorId == StrOr(raw.selectedSponsor, "")
                         && r.value.sponsorName == StrOr(raw.savedSponsorName, ""))
    ensures r.Some? ==> r.value.teammateIndex == IntOr(raw.teammateIndex, 0)
    ensures r.Some? ==> (r.value.rankedRating == IntOr(raw.currentRankedRating, 0)
                         && r.value.previousRankedRating == IntOr(raw.previousRankedRating, 0))
    ensures r.Some? ==> r.value.rankedRatingDelta == r.value.rankedRating - r.value.previousRankedRating
    ensures r.Some? ==> (r.value.rankId == RankText(raw.currentRankId)
                         && r.value.previousRankId == RankText(raw.previousRankId))
    ensures r.Some? ==> (r.value.bannerId == StrOr(raw.selectedBannerCatalogId, "")
                         && r.value.crewScore == IntOr(raw.crewScore, 0)
                         && r.value.crewId == StrOr(raw.crew, "")
                         && r.value.teamId == StrOr(raw.team, "")
                         && r.value.divisionId == StrOr(raw.division, ""))
    ensures r.Some? ==> (r.value.numRankedMatches == IntOr(raw.numRankedMatches, 0)
                         && r.value.isAnonymous == (raw.isAnonymousPlayer == Some(true)))
  {
    if !TruthyStr(raw.player) then None
    else
      // `cur - prev` with a null operand coerces it to 0; `|| 0` then leaves the difference as is.
      var current := raw.currentRankedRating.GetOr(0);
      var previous := raw.previousRankedRating.GetOr(0);
      Some(PlayerSnapshot(
        id := raw.player.value,
        name := StrOr(raw.savedPlayerName, "Unknown"),
        kills := IntOr(raw.numKills, 0),
        assists := IntOr(raw.numAssists, 0),
        deaths := IntOr(raw.numDeaths, 0),
        damageDealt := IntOr(raw.totalDamageDone, 0),
        teammateIndex := IntOr(raw.teammateIndex, 0),
        sponsorId := StrOr(raw.selectedSponsor, ""),
        sponsorName := StrOr(raw.savedSponsorName, ""),
        rankedRating := IntOr(raw.currentRankedRating, 0),
        previousRankedRating := IntOr(raw.previousRankedRating, 0),
        rankedRatingDelta := current - previous,
        rankId := RankText(raw.currentRankId),
        previousRankId := RankText(raw.previousRankId),
        bannerId := StrOr(raw.selectedBannerCatalogId, ""),
        crewScore := IntOr(raw.crewScore, 0),
        crewId := StrOr(raw.crew, ""),
        teamId := StrOr(raw.team, ""),
        divisionId := StrOr(raw.division, ""),
        numRankedMatches := IntOr(raw.numRankedMatches, 0),
        isAnonymous := raw.isAnonymousPlayer.GetOr(false)))
  }

  /** A row rated 1200 after the match and 1000 before it gains 200; a row with no ratings at all
      reads as 0 everywhere, and an unranked row (rank id 0) has an empty rank text. */
  lemma ProcessPlayerExample(raw: RawPlayer)
    requires raw.player == Some("p1")
    ensures var p := ProcessPlayer(raw.(currentRankedRating := Some(1200), previousRankedRating := Some(1000)));
            p.Some? && p.value.rankedRating == 1200 && p.value.previousRankedRating == 1000
            && p.value.rankedRatingDelta == 200
    ensures var p := ProcessPlayer(raw.(currentRankedRating := None, previousRankedRating := None));
            p.Some? && p.value.rankedRating == 0 && p.value.previousRankedRating == 0
            && p.value.rankedRatingDelta == 0
    ensures var p := ProcessPlayer(raw.(currentRankId := Some(0), previousRankId := None));
            p.Some? && p.value.rankId == "" && p.value.previousRankId == ""
  {
  }

  /** The raw row's own ranked_rating_delta never reaches the snapshot. */
  lemma RawDeltaIgnored(raw: RawPlayer, delta: Option<int>)
    requires TruthyStr(raw.player)
    ensures ProcessPlayer(raw.(rankedRatingDelta := delta)) == ProcessPlayer(raw)
  {
  }

  /** Number of raw player rows that carry a player id. */
  function CountWithId(rows: seq<RawPlayer>): nat {
    if rows == [] then 0
    else (if TruthyStr(rows[0].player) then 1 else 0) + CountWithId(rows[1..])
  }

  /** `rows.map(processPlayer).filter(Boolean)`. */
  function ProcessPlayers(rows: seq<RawPlayer>): (r: seq<PlayerSnapshot>)
    ensures |r| == CountWithId(rows)
    ensures forall i :: 0 <= i < |r| ==> r[i].id != ""
  {
    if rows == [] then []
    else
      var rest := ProcessPlayers(rows[1..]);
      match ProcessPlayer(rows[0])
      case Some(p) => [p] + rest
      case None => rest
  }

  /** Dropping rows is local: the list of a concatenation is the concatenation of the lists,
      so the kept players stay in their original order. */
  lemma {:induction false} ProcessPlayersAppend(a: seq<RawPlayer>, b: seq<RawPlayer>)
    ensures ProcessPlayers(a + b) == ProcessPlayers(a) + ProcessPlayers(b)
  {
    if a != [] {
      assert (a + b)[1..] == a[1..] + b;
      ProcessPlayersAppend(a[1..], b);
    } else {
      assert a + b == b;
    }
  }

  /** A single row contributes exactly its own snapshot, or nothing. */
  lemma ProcessPlayersSingle(row: RawPlayer)
    ensures ProcessPlayers([row]) == if TruthyStr(row.player) then [ProcessPlayer(row).value] else []
  {
    assert [row][1..] == [];
  }

  // --------------------------------------------------------------- processTeam

  /** `a && b && c && d ? a*b + c*d : 0`: earned amount from a per-round and a per-round-won rate. */
  function Earned(perRound: Option<int>, roundsPlayed: int, perRoundWon: Option<int>, roundsWon: int): int {
    if TruthyInt(perRound) && roundsPlayed != 0 && TruthyInt(perRoundWon) && roundsWon != 0
    then perRound.value * roundsPlayed + perRoundWon.value * roundsWon
    else 0
  }

  /** calculateXpEarned. */
  function XpEarned(t: RawTeam): (xp: int)
    ensures TruthyInt(t.xpPerRound) && t.roundsPlayed != 0 && TruthyInt(t.xpPerRoundWon) && t.roundsWon != 0
            ==> xp == t.xpPerRound.value * t.roundsPlayed + t.xpPerRoundWon.value * t.roundsWon
    ensures !(TruthyInt(t.xpPerRound) && t.roundsPlayed != 0 && TruthyInt(t.xpPerRoundWon) && t.roundsWon != 0)
            ==> xp == 0
  {
    Earned(t.xpPerRound, t.roundsPlayed, t.xpPerRoundWon, t.roundsWon)
  }

  /** calculateFansEarned. */
  function FansEarned(t: RawTeam): (fans: int)
    ensures TruthyInt(t.fansPerRound) && t.roundsPlayed != 0 && TruthyInt(t.fansPerRoundWon) && t.roundsWon != 0
            ==> fans == t.fansPerRound.value * t.roundsPlayed + t.fansPerRoundWon.value * t.roundsWon
    ensures !(TruthyInt(t.fansPerRound) && t.roundsPlayed != 0 && TruthyInt(t.fansPerRoundWon) && t.roundsWon != 0)
            ==> fans == 0
  {
    Earned(t.fansPerRound, t.roundsPlayed, t.fansPerRoundWon, t.roundsWon)
  }

  /** A present-but-zero rate earns nothing, exactly like a missing one. */
  lemma ZeroRateEarnsNothing(t: RawTeam)
    requires t.xpPerRound == Some(0) || t.xpPerRoundWon == Some(0)
    ensures XpEarned(t) == 0
    ensures XpEarned(t.(xpPerRound := None)) == 0 && XpEarned(t.(xpPerRoundWon := None)) == 0
  {
  }

  /** processTeam. */
  function ProcessTeam(t: RawTeam): (r: TeamSnapshot)
    ensures r.id == t.id && r.teamIndex == t.teamIndex
    ensures r.roundsWon == t.roundsWon && r.roundsPlayed == t.roundsPlayed
    ensures r.xpEarned == XpEarned(t) && r.fansEarned == FansEarned(t)
    ensures r.rankedRatingDelta == t.rankedRatingDelta
    ensures r.players == ProcessPlayers(t.players.GetOr([]))
    // Unlike a player's, the team's rank columns are passed on with their nulls, not defaulted.
    ensures && r.teamId == t.team && r.usedTeamRank == t.usedTeamRank
            && r.teamRank == t.currentRankId && r.previousTeamRank == t.previousRankId
            && r.numRankedMatches == t.numRankedMatches
            && r.rankedRating == t.currentRankedRating && r.previousRankedRating == t.previousRankedRating
            && r.isFullParty == t.isFullTeamInParty
  {
    TeamSnapshot(
      id := t.id,
      teamId := t.team,
      teamIndex := t.teamIndex,
      roundsWon := t.roundsWon,
      roundsPlayed := t.roundsPlayed,
      xpEarned := XpEarned(t),
      fansEarned := FansEarned(t),
      usedTeamRank := t.usedTeamRank,
      teamRank := t.currentRankId,
      previousTeamRank := t.previousRankId,
      numRankedMatches := t.numRankedMatches,
      rankedRating := t.currentRankedRating,
      rankedRatingDelta := t.rankedRatingDelta,
      previousRankedRating := t.previousRankedRating,
      isFullParty := t.isFullTeamInParty,
      players := ProcessPlayers(t.players.GetOr([])))
  }

  // ----------------------------------------------------------- calculateWinner

  /**
   * calculateWinner: 1 win, 0 loss, -1 draw. Any surrender value other than
   * exactly -1 (null included) decides alone; only -1 compares rounds.
   */
  function CalculateWinner(surrendered: Option<int>, playerRounds: int, opponentRounds: Option<int>): (w: int)
    ensures surrendered.None? ==> w == 1
    ensures surrendered.Some? && surrendered.value != -1 ==> w == surrendered.value
    ensures surrendered == Some(-1) && opponentRounds.None? ==> w == 1
    ensures surrendered == Some(-1) && opponentRounds.Some? ==>
              (w == 1 <==> playerRounds > opponentRounds.value)
              && (w == 0 <==> playerRounds < opponentRounds.value)
              && (w == -1 <==> playerRounds == opponentRounds.value)
  {
    if surrendered != Some(-1) then surrendered.GetOr(1)
    else if opponentRounds.None? then 1
    else if playerRounds > opponentRounds.value then 1
    else if playerRounds < opponentRounds.value then 0
    else -1
  }

  /** The winner stays in {-1, 0, 1} whenever the surrender column does. */
  lemma WinnerInDomain(surrendered: Option<int>, playerRounds: int, opponentRounds: Option<int>)
    requires surrendered.None? || surrendered.value in {-1, 0, 1}
    ensures CalculateWinner(surrendered, playerRounds, opponentRounds) in {-1, 0, 1}
  {
  }

  // -------------------------------------------------------------- processMatch

  /** The nested match of a participation row, if both links are present. */
  function NestedMatch(row: RawParticipation): Option<RawMatch> {
    if row.matchTeam.Some? then row.matchTeam.value.spectreMatch else None
  }

  /** processMatch: team 0 of the embedded list is the subject's team, team 1 (if any) the opponent. */
  function ProcessMatch(row: RawParticipation): (r: Option<MatchRecord>)
    ensures r.None? <==> NestedMatch(row).None? || NestedMatch(row).value.teams.None?
                          || |NestedMatch(row).value.teams.value| == 0
    ensures r.Some? ==>
              var m := NestedMatch(row).value;
              var teams := m.teams.value;
              && r.value.id == m.id
              && r.value.region == m.region && r.value.isRanked == m.isRanked
              && r.value.queueName == m.queueName && r.value.gameMode == m.queueGameMode
              && r.value.isAbandoned == m.isAbandonedMatch
              && r.value.gameMap == m.queueGameMap
              && r.value.surrenderedTeam == m.surrenderedTeam
              && r.value.matchDate == m.matchDate.GetOr(Epoch)
              && r.value.playerTeam == ProcessTeam(teams[0])
              && (|teams| == 1 ==> r.value.opponentTeam.None?
                                   && r.value.rounds == teams[0].roundsWon)
              && (|teams| > 1 ==> r.value.opponentTeam == Some(ProcessTeam(teams[1]))
                                  && r.value.rounds >= teams[0].roundsWon
                                  && r.value.rounds >= teams[1].roundsWon
                                  && (r.value.rounds == teams[0].roundsWon || r.value.rounds == teams[1].roundsWon))
              && r.value.winner == CalculateWinner(m.surrenderedTeam, teams[0].roundsWon,
                                                   if |teams| > 1 then Some(teams[1].roundsWon) else None)
  {
    match NestedMatch(row)
    case None => None
    case Some(m) =>
      if m.teams.None? || |m.teams.value| == 0 then None
      else
        var teams := m.teams.value;
        var own := teams[0];
        var opponent := if |teams| > 1 then Some(teams[1]) else None;
        var rounds := if opponent.Some? then Max(own.roundsWon, opponent.value.roundsWon) else own.roundsWon;
        var winner := CalculateWinner(m.surrenderedTeam, own.roundsWon,
                                      if opponent.Some? then Some(opponent.value.roundsWon) else None);
        Some(MatchRecord(
          id := m.id,
          region := m.region,
          isRanked := m.isRanked,
          queueName := m.queueName,
          gameMap := m.queueGameMap,
          gameMode := m.queueGameMode,
          surrenderedTeam := m.surrenderedTeam,
          isAbandoned := m.isAbandonedMatch,
          matchDate := m.matchDate.GetOr(Epoch),
          rounds := rounds,
          winner := winner,
          playerTeam := ProcessTeam(own),
          opponentTeam := if opponent.Some? then Some(ProcessTeam(opponent.value)) else None))
  }

  function Max(a: int, b: int): int {
    if a >= b then a else b
  }

  /** A match with a single embedded team has no opponent and, unless a
      surrender value other than -1 says otherwise, is a win. */
  lemma SingleTeamIsWin(row: RawParticipation)
    requires NestedMatch(row).Some? && NestedMatch(row).value.teams.Some?
    requires |NestedMatch(row).value.teams.value| == 1
    requires NestedMatch(row).value.surrenderedTeam in {None, Some(-1), Some(1)}
    ensures ProcessMatch(row).Some?
    ensures ProcessMatch(row).value.opponentTeam.None?
    ensures ProcessMatch(row).value.winner == 1
  {
  }

  /** `rows.map(processMatch).filter(m => m !== undefined)`. */
  function ProcessAll(rows: seq<RawParticipation>): (r: seq<MatchRecord>)
    ensures |r| <= |rows|
    ensures forall m :: m in r ==> exists row :: row in rows && ProcessMatch(row) == Some(m)
    ensures forall row :: row in rows && ProcessMatch(row).Some? ==> ProcessMatch(row).value in r
  {
    if rows == [] then []
    else
      var rest := ProcessAll(rows[1..]);
      match ProcessMatch(rows[0])
      case Some(m) => [m] + rest
      case None => rest
  }

  /** Dropping rows is local: the records of a concatenation are the concatenation of the records,
      so the kept matches stay in the order of their rows. */
  lemma {:induction false} ProcessAllAppend(a: seq<RawParticipation>, b: seq<RawParticipation>)
    ensures ProcessAll(a + b) == ProcessAll(a) + ProcessAll(b)
  {
    if a != [] {
      var head := ProcessMatch(a[0]);
      var kept := if head.Some? then [head.value] else [];
      assert (a + b)[0] == a[0] && (a + b)[1..] == a[1..] + b;
      assert ProcessAll(a + b) == kept + ProcessAll(a[1..] + b);
      assert ProcessAll(a) == kept + ProcessAll(a[1..]);
      ProcessAllAppend(a[1..], b);
    } else {
      assert a + b == b;
    }
  }

  /** A single row contributes exactly its own record, or nothing. */
  lemma ProcessAllSingle(row: RawParticipation)
    ensures ProcessAll([row]) == if ProcessMatch(row).Some? then [ProcessMatch(row).value] else []
  {
    assert [row][1..] == [];
  }
}
