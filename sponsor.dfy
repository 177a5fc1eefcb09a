/**
 * The in-memory part of getGlobalSponsorStats (src/sponsor/sponsor.ts):
 * distinct players, grouping of match-player rows by sponsor, batching of
 * ids into chunks of 100, and the win/loss/draw rule per row.
 *
 * The three database reads become inputs: the player rows as a query result,
 * and the team and match reads as functions from one batch of ids to that
 * batch's answer (an error, or rows).
 */
module SponsorStats {
  import opened Wrappers
  import opened Text

  /** A spectre_match_player row (selected_sponsor is never null: the query filters nulls out). */
  datatype PlayerRow = PlayerRow(
    player: Option<string>,
    team: Option<string>,
    selectedSponsor: string,
    savedSponsorName: Option<string>,
    numKills: Option<int>,
    numDeaths: Option<int>,
    numAssists: Option<int>)

  /** A spectre_match_team row: id, match, team_index, rounds_won. */
  datatype TeamRow = TeamRow(id: string, matchId: Option<string>, teamIndex: int, roundsWon: int)

  /** A spectre_match row: id, surrendered_team. */
  datatype MatchRow = MatchRow(id: string, surrenderedTeam: Option<int>)

  /** The answer to one batched read. A null data list adds nothing, like an empty one. */
  datatype BatchResult<T> = BatchFailed | BatchOk(rows: Option<seq<T>>)

  datatype SponsorRecord = SponsorRecord(
    sponsorId: string,
    sponsorName: string,
    picks: nat,
    totalKills: int,
    totalDeaths: int,
    totalAssists: int,
    totalWins: nat,
    totalLosses: nat,
    totalDraws: nat)

  datatype GlobalSponsorStats = GlobalSponsorStats(totalPlayers: nat, sponsors: seq<SponsorRecord>)

  /** The player read: an error (whose message may be empty), or the (possibly null) rows. */
  datatype PlayerQuery = PlayerQueryFailed(message: Option<string>) | PlayerQueryOk(data: Option<seq<PlayerRow>>)

  datatype Response = Failure(error: string) | Success(stats: GlobalSponsorStats)

  const BatchSize: nat := 100

  // ------------------------------------------------------------ distinct players

  /** The truthy player ids among the rows: the contents of `uniquePlayers`. */
  function DistinctPlayers(rows: seq<PlayerRow>): set<string> {
    set r | r in rows && TruthyStr(r.player) :: r.player.value
  }

  /** There are never more distinct players than rows. */
  lemma {:induction false} DistinctPlayersBounded(rows: seq<PlayerRow>)
    ensures |DistinctPlayers(rows)| <= |rows|
  {
    if rows != [] {
      var pre := rows[..|rows| - 1];
      var last := rows[|rows| - 1];
      DistinctPlayersBounded(pre);
      assert rows == pre + [last];
      if TruthyStr(last.player) {
        assert DistinctPlayers(rows) == DistinctPlayers(pre) + {last.player.value};
      } else {
        assert DistinctPlayers(rows) == DistinctPlayers(pre);
      }
    }
  }

  // ------------------------------------------------------------ insertion order

  /** The distinct elements of `s` in order of first occurrence: `Array.from(new Set(s))`. */
  function FirstSeen<T(==,!new)>(s: seq<T>): (r: seq<T>)
    ensures forall x :: x in r <==> x in s
    ensures forall i, j :: 0 <= i < j < |r| ==> r[i] != r[j]
    ensures |r| <= |s|
  {
    if s == [] then []
    else
      var earlier := FirstSeen(s[..|s| - 1]);
      if s[|s| - 1] in earlier then earlier else earlier + [s[|s| - 1]]
  }

  /** The first occurrences come in order: if `x` first occurs before `y` does, `x` is listed first. */
  lemma {:induction false} FirstSeenOrder<T(!new)>(s: seq<T>, i: nat, j: nat)
    requires i < j < |s| && s[i] != s[j]
    requires forall k :: 0 <= k < i ==> s[k] != s[i]
    requires forall k :: 0 <= k < j ==> s[k] != s[j]
    ensures exists p, q :: 0 <= p < q < |FirstSeen(s)| && FirstSeen(s)[p] == s[i] && FirstSeen(s)[q] == s[j]
  {
    var pre := s[..|s| - 1];
    if j < |s| - 1 {
      FirstSeenOrder(pre, i, j);
      var p, q :| 0 <= p < q < |FirstSeen(pre)| && FirstSeen(pre)[p] == s[i] && FirstSeen(pre)[q] == s[j];
      var r := FirstSeen(s);
      assert r == FirstSeen(pre) || r == FirstSeen(pre) + [s[|s| - 1]];
      assert r[p] == s[i] && r[q] == s[j];
    } else {
      assert s[j] !in pre;
      assert s[i] == pre[i];
      var r := FirstSeen(pre);
      assert s[i] in pre;
      assert s[i] in r;
      var p :| 0 <= p < |r| && r[p] == s[i];
      assert FirstSeen(s) == r + [s[j]];
      assert FirstSeen(s)[p] == s[i] && FirstSeen(s)[|r|] == s[j];
    }
  }

  // --------------------------------------------------------- grouping by sponsor

  /** The selected_sponsor of every row, in row order. */
  function SponsorIds(rows: seq<PlayerRow>): (r: seq<string>)
    ensures |r| == |rows| && forall i :: 0 <= i < |rows| ==> r[i] == rows[i].selectedSponsor
  {
    if rows == [] then [] else SponsorIds(rows[..|rows| - 1]) + [rows[|rows| - 1].selectedSponsor]
  }

  /** The truthy team ids of the rows, in row order (duplicates kept). */
  function TeamRefs(rows: seq<PlayerRow>): (r: seq<string>)
  {
    if rows == [] then []
    else
      var earlier := TeamRefs(rows[..|rows| - 1]);
      var row := rows[|rows| - 1];
      if TruthyStr(row.team) then earlier + [row.team.value] else earlier
  }

  /** The rows that picked sponsor `sid`, in order. */
  function RowsOf(rows: seq<PlayerRow>, sid: string): (r: seq<PlayerRow>)
    ensures |r| <= |rows|
  {
    if rows == [] then []
    else
      var earlier := RowsOf(rows[..|rows| - 1], sid);
      var row := rows[|rows| - 1];
      if row.selectedSponsor == sid then earlier + [row] else earlier
  }

  /** The rows of a sponsor are exactly the rows that picked it. */
  lemma {:induction false} RowsOfMembers(rows: seq<PlayerRow>, sid: string)
    ensures forall i :: 0 <= i < |RowsOf(rows, sid)| ==> RowsOf(rows, sid)[i].selectedSponsor == sid
    ensures forall row :: row in RowsOf(rows, sid) <==> row in rows && row.selectedSponsor == sid
  {
    if rows != [] {
      var pre := rows[..|rows| - 1];
      RowsOfMembers(pre, sid);
      assert rows == pre + [rows[|rows| - 1]];
    }
  }

  /** `Σ (x || 0)` over a column of rows. */
  function SumKills(rows: seq<PlayerRow>): int {
    if rows == [] then 0 else SumKills(rows[..|rows| - 1]) + IntOr(rows[|rows| - 1].numKills, 0)
  }

  function SumDeaths(rows: seq<PlayerRow>): int {
    if rows == [] then 0 else SumDeaths(rows[..|rows| - 1]) + IntOr(rows[|rows| - 1].numDeaths, 0)
  }

  function SumAssists(rows: seq<PlayerRow>): int {
    if rows == [] then 0 else SumAssists(rows[..|rows| - 1]) + IntOr(rows[|rows| - 1].numAssists, 0)
  }

  /** The sponsor name fixed by the first row that picked `sid` (`saved_sponsor_name || 'Unknown'`). */
  function NameOf(rows: seq<PlayerRow>, sid: string): string {
    var mine := RowsOf(rows, sid);
    if mine == [] then "Unknown" else StrOr(mine[0].savedSponsorName, "Unknown")
  }

  /** The record of sponsor `sid` before any outcome is counted. */
  function Tally(rows: seq<PlayerRow>, sid: string): (r: SponsorRecord)
    ensures r.sponsorId == sid && r.picks == |RowsOf(rows, sid)|
    ensures r.totalWins == 0 && r.totalLosses == 0 && r.totalDraws == 0
  {
    var mine := RowsOf(rows, sid);
    SponsorRecord(sid, NameOf(rows, sid), |mine|, SumKills(mine), SumDeaths(mine), SumAssists(mine), 0, 0, 0)
  }

  /** The name is the one of the earliest row with that sponsor, 'Unknown' when that row has none. */
  lemma {:induction false} NameFromFirstRow(rows: seq<PlayerRow>, sid: string, k: nat)
    requires k < |rows| && rows[k].selectedSponsor == sid
    requires forall j :: 0 <= j < k ==> rows[j].selectedSponsor != sid
    ensures NameOf(rows, sid) == StrOr(rows[k].savedSponsorName, "Unknown")
  {
    RowsOfFirst(rows, sid, k);
  }

  lemma {:induction false} RowsOfFirst(rows: seq<PlayerRow>, sid: string, k: nat)
    requires k < |rows| && rows[k].selectedSponsor == sid
    requires forall j :: 0 <= j < k ==> rows[j].selectedSponsor != sid
    ensures RowsOf(rows, sid) != [] && RowsOf(rows, sid)[0] == rows[k]
  {
    var pre := rows[..|rows| - 1];
    if k < |rows| - 1 {
      RowsOfFirst(pre, sid, k);
    } else {
      NoRowsOf(pre, sid);
    }
  }

  lemma {:induction false} NoRowsOf(rows: seq<PlayerRow>, sid: string)
    requires forall j :: 0 <= j < |rows| ==> rows[j].selectedSponsor != sid
    ensures RowsOf(rows, sid) == []
  {
    if rows != [] {
      NoRowsOf(rows[..|rows| - 1], sid);
    }
  }

  // ------------------------------------------------------------------ batching

  /** `ids` cut into consecutive slices of `BatchSize`, the last one possibly shorter. */
  function Chunks<T>(ids: seq<T>): (r: seq<seq<T>>)
    ensures |r| == (|ids| + BatchSize - 1) / BatchSize
    ensures forall i :: 0 <= i < |r| ==> 0 < |r[i]| <= BatchSize
    decreases |ids|
  {
    if |ids| == 0 then []
    else if |ids| <= BatchSize then [ids]
    else [ids[..BatchSize]] + Chunks(ids[BatchSize..])
  }

  function Flatten<T>(batches: seq<seq<T>>): seq<T> {
    if batches == [] then [] else batches[0] + Flatten(batches[1..])
  }

  /** Batching loses, repeats and reorders nothing. */
  lemma {:induction false} ChunksFlatten<T>(ids: seq<T>)
    ensures Flatten(Chunks(ids)) == ids
    decreases |ids|
  {
    if |ids| == 0 {
    } else if |ids| <= BatchSize {
      assert Flatten([ids]) == ids + Flatten([ids][1..]);
      assert [ids][1..] == [];
    } else {
      ChunksFlatten(ids[BatchSize..]);
      var r := [ids[..BatchSize]] + Chunks(ids[BatchSize..]);
      assert r[1..] == Chunks(ids[BatchSize..]);
      assert ids == ids[..BatchSize] + ids[BatchSize..];
    }
  }

  /** Batch `i` is the slice `ids[100*i .. min(100*i + 100, |ids|)]` (`BatchSize` is 100). */
  lemma {:induction false} ChunksSlices<T>(ids: seq<T>, i: nat)
    requires i < |Chunks(ids)|
    ensures 100 * i < |ids|
    ensures Chunks(ids)[i] == ids[100 * i .. if 100 * i + 100 <= |ids| then 100 * i + 100 else |ids|]
    decreases |ids|
  {
    if |ids| <= BatchSize {
      assert |ids| != 0 && Chunks(ids) == [ids];
    } else if i > 0 {
      var rest := ids[100..];
      assert Chunks(ids)[i] == Chunks(rest)[i - 1];
      ChunksSlices(rest, i - 1);
      var lo := 100 * (i - 1);
      var hi := if lo + 100 <= |rest| then lo + 100 else |rest|;
      assert rest[lo..hi] == ids[lo + 100..hi + 100];
    }
  }

  /** Whether some batch's read failed. */
  predicate AnyFailed<T>(batches: seq<seq<string>>, db: seq<string> -> BatchResult<T>) {
    exists b :: b in batches && db(b).BatchFailed?
  }

  /** The rows of the successful batches, in batch order. */
  function Collected<T>(batches: seq<seq<string>>, db: seq<string> -> BatchResult<T>): seq<T> {
    if batches == [] then []
    else
      var earlier := Collected(batches[..|batches| - 1], db);
      match db(batches[|batches| - 1])
      case BatchOk(Some(rows)) => earlier + rows
      case _ => earlier
  }

  // ----------------------------------------------------------------- lookups

  /** `map.set(key(row), row)` for every row in order: the last row with a key wins. */
  function LastIndex<T>(rows: seq<T>, key: T -> string): map<string, T> {
    if rows == [] then map[]
    else LastIndex(rows[..|rows| - 1], key)[key(rows[|rows| - 1]) := rows[|rows| - 1]]
  }

  /** A key is present exactly when some row has it, and it maps to the last such row. */
  lemma {:induction false} LastIndexIsLast<T>(rows: seq<T>, key: T -> string, id: string)
    ensures id in LastIndex(rows, key) <==> exists k :: 0 <= k < |rows| && key(rows[k]) == id
    ensures id in LastIndex(rows, key) ==>
              exists k :: 0 <= k < |rows| && key(rows[k]) == id && LastIndex(rows, key)[id] == rows[k]
                          && forall j :: k < j < |rows| ==> key(rows[j]) != id
  {
    if rows != [] {
      var pre := rows[..|rows| - 1];
      LastIndexIsLast(pre, key, id);
      if key(rows[|rows| - 1]) != id && id in LastIndex(rows, key) {
        var k :| 0 <= k < |pre| && key(pre[k]) == id && LastIndex(pre, key)[id] == pre[k]
                 && forall j :: k < j < |pre| ==> key(pre[j]) != id;
        assert rows[k] == pre[k];
      }
      if key(rows[|rows| - 1]) != id && id !in LastIndex(rows, key) {
        forall k | 0 <= k < |rows|
          ensures key(rows[k]) != id
        {
          if k < |pre| {
            assert rows[k] == pre[k];
          }
        }
      }
    }
  }

  function TeamRowId(t: TeamRow): string { t.id }

  function MatchRowId(m: MatchRow): string { m.id }

  /** The truthy match ids of the teams, in order (duplicates kept). */
  function MatchRefs(teams: seq<TeamRow>): (r: seq<string>)
  {
    if teams == [] then []
    else
      var earlier := MatchRefs(teams[..|teams| - 1]);
      var t := teams[|teams| - 1];
      if TruthyStr(t.matchId) then earlier + [t.matchId.value] else earlier
  }

  /** The teams whose match column is `matchId`, in order. */
  function TeamsOfMatch(teams: seq<TeamRow>, matchId: Option<string>): (r: seq<TeamRow>)
  {
    if teams == [] then []
    else
      var earlier := TeamsOfMatch(teams[..|teams| - 1], matchId);
      var t := teams[|teams| - 1];
      if t.matchId == matchId then earlier + [t] else earlier
  }

  /** matchTeamsMap: every match column value that occurs, with its teams in order. */
  function ByMatch(teams: seq<TeamRow>): map<Option<string>, seq<TeamRow>> {
    map k | k in (set t | t in teams :: t.matchId) :: TeamsOfMatch(teams, k)
  }

  /** surrenderMap: match id to the surrendered_team of the last row with that id. */
  function Surrenders(matches: seq<MatchRow>): (r: map<string, Option<int>>)
    ensures r.Keys == LastIndex(matches, MatchRowId).Keys
  {
    var index := LastIndex(matches, MatchRowId);
    map id | id in index :: index[id].surrenderedTeam
  }

  /** The teams of a match whose index differs from `teamIndex`, in order. */
  function Opposing(teams: seq<TeamRow>, teamIndex: int): (r: seq<TeamRow>)
  {
    if teams == [] then []
    else
      var earlier := Opposing(teams[..|teams| - 1], teamIndex);
      var t := teams[|teams| - 1];
      if t.teamIndex != teamIndex then earlier + [t] else earlier
  }

  /** Exactly the teams of another index are kept. */
  lemma {:induction false} OpposingMembers(teams: seq<TeamRow>, teamIndex: int)
    ensures forall t :: t in Opposing(teams, teamIndex) <==> t in teams && t.teamIndex != teamIndex
  {
    if teams != [] {
      var pre := teams[..|teams| - 1];
      OpposingMembers(pre, teamIndex);
      assert teams == pre + [teams[|teams| - 1]];
    }
  }

  // ------------------------------------------------------------------ outcomes

  datatype Outcome = Skipped | Won | Lost | Drawn

  /** The lookup tables the outcome loop reads. */
  datatype Lookups = Lookups(
    teamMap: map<string, TeamRow>,
    matchTeams: map<Option<string>, seq<TeamRow>>,
    surrenders: map<string, Option<int>>)

  /** The team a row refers to, when the row has a team id that was fetched and that team has a match. */
  function TeamOf(row: PlayerRow, l: Lookups): (r: Option<TeamRow>)
    ensures r.Some? <==> TruthyStr(row.team) && row.team.value in l.teamMap
                         && TruthyStr(l.teamMap[row.team.value].matchId)
    ensures r.Some? ==> r.value == l.teamMap[row.team.value]
  {
    if TruthyStr(row.team) && row.team.value in l.teamMap && TruthyStr(l.teamMap[row.team.value].matchId)
    then Some(l.teamMap[row.team.value])
    else None
  }

  /** The result one row adds to its sponsor. */
  function OutcomeOf(row: PlayerRow, l: Lookups): (o: Outcome)
    ensures o != Skipped <==>
              && TeamOf(row, l).Some?
              && TeamOf(row, l).value.matchId in l.matchTeams
              && |l.matchTeams[TeamOf(row, l).value.matchId]| >= 2
              && exists t :: t in l.matchTeams[TeamOf(row, l).value.matchId] && t.teamIndex != TeamOf(row, l).value.teamIndex
  {
    match TeamOf(row, l)
    case None => Skipped
    case Some(team) =>
      if team.matchId !in l.matchTeams || |l.matchTeams[team.matchId]| < 2 then Skipped
      else
        OpposingMembers(l.matchTeams[team.matchId], team.teamIndex);
        var opposing := Opposing(l.matchTeams[team.matchId], team.teamIndex);
        if opposing == [] then Skipped
        else
          assert opposing[0] in opposing;
          var surrendered := if team.matchId.value in l.surrenders then l.surrenders[team.matchId.value] else None;
          if surrendered.Some? then (if surrendered.value == team.teamIndex then Lost else Won)
          else if team.roundsWon > opposing[0].roundsWon then Won
          else if team.roundsWon < opposing[0].roundsWon then Lost
          else Drawn
  }

  /** A recorded surrender decides alone: a loss for the surrendering index, a win for any other, -1 included. */
  lemma SurrenderDecides(row: PlayerRow, l: Lookups)
    requires OutcomeOf(row, l) != Skipped
    requires var m := TeamOf(row, l).value.matchId.value; m in l.surrenders && l.surrenders[m].Some?
    ensures var team := TeamOf(row, l).value;
            OutcomeOf(row, l) == if l.surrenders[team.matchId.value].value == team.teamIndex then Lost else Won
  {
  }

  /** Without a surrender, the rounds won are compared with the first team of another index. */
  lemma RoundsDecide(row: PlayerRow, l: Lookups)
    requires OutcomeOf(row, l) != Skipped
    requires var m := TeamOf(row, l).value.matchId.value; m !in l.surrenders || l.surrenders[m].None?
    ensures var team := TeamOf(row, l).value;
            var other := Opposing(l.matchTeams[team.matchId], team.teamIndex)[0];
            && (OutcomeOf(row, l) == Won <==> team.roundsWon > other.roundsWon)
            && (OutcomeOf(row, l) == Lost <==> team.roundsWon < other.roundsWon)
            && (OutcomeOf(row, l) == Drawn <==> team.roundsWon == other.roundsWon)
  {
  }

  /** The rows of `rows` with outcome `o`. */
  function CountOutcome(rows: seq<PlayerRow>, l: Lookups, o: Outcome): (n: nat)
    ensures n <= |rows|
  {
    if rows == [] then 0
    else CountOutcome(rows[..|rows| - 1], l, o) + (if OutcomeOf(rows[|rows| - 1], l) == o then 1 else 0)
  }

  /** Wins, losses and draws together never exceed the rows counted: each row adds at most one. */
  lemma {:induction false} OutcomesAtMostOnePerRow(rows: seq<PlayerRow>, l: Lookups)
    ensures CountOutcome(rows, l, Won) + CountOutcome(rows, l, Lost) + CountOutcome(rows, l, Drawn) <= |rows|
  {
    if rows != [] {
      OutcomesAtMostOnePerRow(rows[..|rows| - 1], l);
    }
  }

  /** Sponsor `sid`'s record once the outcome loop has run over `rows` (or not at all, for `None`). */
  function Record(rows: seq<PlayerRow>, sid: string, l: Option<Lookups>): (r: SponsorRecord)
    ensures l.None? ==> r == Tally(rows, sid)
  {
    match l
    case None => Tally(rows, sid)
    case Some(lookups) =>
      var mine := RowsOf(rows, sid);
      Tally(rows, sid).(totalWins := CountOutcome(mine, lookups, Won),
                        totalLosses := CountOutcome(mine, lookups, Lost),
                        totalDraws := CountOutcome(mine, lookups, Drawn))
  }

  /** Every sponsor's wins, losses and draws together are at most its picks. */
  lemma OutcomesBoundedByPicks(rows: seq<PlayerRow>, sid: string, l: Option<Lookups>)
    ensures Record(rows, sid, l).totalWins + Record(rows, sid, l).totalLosses + Record(rows, sid, l).totalDraws
            <= Record(rows, sid, l).picks
  {
    if l.Some? {
      OutcomesAtMostOnePerRow(RowsOf(rows, sid), l.value);
    }
  }

  // ------------------------------------------------------------ the pipeline

  /**
   * The lookups the outcome loop runs with, or `None` when it does not run:
   * no team id at all, a failed team batch, or no team row fetched. A failed
   * match batch leaves the surrender table empty.
   */
  function OutcomePhase(rows: seq<PlayerRow>, teamsDb: seq<string> -> BatchResult<TeamRow>,
                        matchesDb: seq<string> -> BatchResult<MatchRow>): Option<Lookups>
  {
    var teamIds := FirstSeen(TeamRefs(rows));
    var teamBatches := Chunks(teamIds);
    var teams := Collected(teamBatches, teamsDb);
    if |teamIds| == 0 || AnyFailed(teamBatches, teamsDb) || |teams| == 0 then None
    else
      var matchBatches := Chunks(FirstSeen(MatchRefs(teams)));
      var surrenders := if AnyFailed(matchBatches, matchesDb) then map[]
                        else Surrenders(Collected(matchBatches, matchesDb));
      Some(Lookups(LastIndex(teams, TeamRowId), ByMatch(teams), surrenders))
  }

  /** The sponsor list: one record per distinct selected_sponsor, in first-seen order. */
  function ExpectedSponsors(rows: seq<PlayerRow>, l: Option<Lookups>): (r: seq<SponsorRecord>)
    ensures |r| == |FirstSeen(SponsorIds(rows))|
    ensures forall i :: 0 <= i < |r| ==> r[i] == Record(rows, FirstSeen(SponsorIds(rows))[i], l)
  {
    var order := FirstSeen(SponsorIds(rows));
    seq(|order|, i requires 0 <= i < |order| => Record(rows, order[i], l))
  }

  /** A failed team batch means no sponsor gets any win, loss or draw. */
  lemma TeamErrorMeansNoOutcomes(rows: seq<PlayerRow>, teamsDb: seq<string> -> BatchResult<TeamRow>,
                                 matchesDb: seq<string> -> BatchResult<MatchRow>)
    requires AnyFailed(Chunks(FirstSeen(TeamRefs(rows))), teamsDb)
    ensures forall r :: r in ExpectedSponsors(rows, OutcomePhase(rows, teamsDb, matchesDb)) ==>
              r.totalWins == 0 && r.totalLosses == 0 && r.totalDraws == 0
  {
  }

  /** A failed match batch means no surrender is known, so only rounds decide. */
  lemma MatchErrorIgnoresSurrenders(rows: seq<PlayerRow>, teamsDb: seq<string> -> BatchResult<TeamRow>,
                                    matchesDb: seq<string> -> BatchResult<MatchRow>)
    requires OutcomePhase(rows, teamsDb, matchesDb).Some?
    requires AnyFailed(Chunks(FirstSeen(MatchRefs(Collected(Chunks(FirstSeen(TeamRefs(rows))), teamsDb)))), matchesDb)
    ensures OutcomePhase(rows, teamsDb, matchesDb).value.surrenders == map[]
  {
  }

  // ------------------------------------------------------------- the methods

  /** The first forEach: collect every truthy player id into `uniquePlayers`. */
  method UniquePlayers(rows: seq<PlayerRow>) returns (players: set<string>)
    ensures players == DistinctPlayers(rows)
  {
    players := {};
    var i := 0;
    while i < |rows|
      invariant 0 <= i <= |rows|
      invariant players == DistinctPlayers(rows[..i])
    {
      assert rows[..i + 1] == rows[..i] + [rows[i]];
      if TruthyStr(rows[i].player) {
        players := players + {rows[i].player.value};
      }
      i := i + 1;
    }
    assert rows[..i] == rows;
  }

  /** One row's picks and summed stat columns added to its sponsor's record. */
  function Bump(r: SponsorRecord, row: PlayerRow): SponsorRecord {
    r.(picks := r.picks + 1,
       totalKills := r.totalKills + IntOr(row.numKills, 0),
       totalDeaths := r.totalDeaths + IntOr(row.numDeaths, 0),
       totalAssists := r.totalAssists + IntOr(row.numAssists, 0))
  }

  /** The summed columns of one more row. */
  lemma SumsStep(xs: seq<PlayerRow>, row: PlayerRow)
    ensures SumKills(xs + [row]) == SumKills(xs) + IntOr(row.numKills, 0)
    ensures SumDeaths(xs + [row]) == SumDeaths(xs) + IntOr(row.numDeaths, 0)
    ensures SumAssists(xs + [row]) == SumAssists(xs) + IntOr(row.numAssists, 0)
  {
    assert (xs + [row])[..|xs|] == xs;
  }

  /** How one more row changes each sponsor's tally. */
  lemma TallyStep(pre: seq<PlayerRow>, row: PlayerRow, sid: string)
    ensures RowsOf(pre + [row], sid) != [] <==> RowsOf(pre, sid) != [] || row.selectedSponsor == sid
    ensures row.selectedSponsor != sid ==> Tally(pre + [row], sid) == Tally(pre, sid)
    ensures row.selectedSponsor == sid && RowsOf(pre, sid) == [] ==>
              Tally(pre + [row], sid) == Bump(SponsorRecord(sid, StrOr(row.savedSponsorName, "Unknown"), 0, 0, 0, 0, 0, 0, 0), row)
    ensures row.selectedSponsor == sid && RowsOf(pre, sid) != [] ==> Tally(pre + [row], sid) == Bump(Tally(pre, sid), row)
  {
    var rows := pre + [row];
    assert rows[..|rows| - 1] == pre;
    var before := RowsOf(pre, sid);
    assert RowsOf(rows, sid) == if row.selectedSponsor == sid then before + [row] else before;
    if row.selectedSponsor == sid {
      assert RowsOf(rows, sid) == before + [row];
      SumsStep(before, row);
      if before != [] {
        assert (before + [row])[0] == before[0];
      } else {
        assert before + [row] == [row];
      }
    }
  }

  /** The body of the grouping forEach for one row. */
  method GroupRow(order: seq<string>, records: map<string, SponsorRecord>, teamIds: seq<string>, row: PlayerRow)
    returns (order': seq<string>, records': map<string, SponsorRecord>, teamIds': seq<string>)
    ensures order' == if row.selectedSponsor in records then order else order + [row.selectedSponsor]
    ensures records' == records[row.selectedSponsor := Bump(
              if row.selectedSponsor in records then records[row.selectedSponsor]
              else SponsorRecord(row.selectedSponsor, StrOr(row.savedSponsorName, "Unknown"), 0, 0, 0, 0, 0, 0, 0), row)]
    ensures teamIds' == if TruthyStr(row.team) && row.team.value !in teamIds then teamIds + [row.team.value] else teamIds
  {
    var sid := row.selectedSponsor;
    order', records' := order, records;
    if sid !in records' {
      records' := records'[sid := SponsorRecord(sid, StrOr(row.savedSponsorName, "Unknown"), 0, 0, 0, 0, 0, 0, 0)];
      order' := order' + [sid];
    }
    records' := records'[sid := Bump(records'[sid], row)];
    teamIds' := teamIds;
    if TruthyStr(row.team) && row.team.value !in teamIds' {
      teamIds' := teamIds' + [row.team.value];
    }
  }

  /** What the grouping forEach has built after visiting `rows`. */
  ghost predicate Grouped(rows: seq<PlayerRow>, order: seq<string>, records: map<string, SponsorRecord>, teamIds: seq<string>) {
    && order == FirstSeen(SponsorIds(rows))
    && teamIds == FirstSeen(TeamRefs(rows))
    && (forall sid :: sid in records <==> sid in order)
    && (forall sid :: sid in records <==> RowsOf(rows, sid) != [])
    && (forall sid :: sid in records ==> records[sid] == Tally(rows, sid))
  }

  lemma GroupedStep(pre: seq<PlayerRow>, row: PlayerRow,
                    order: seq<string>, records: map<string, SponsorRecord>, teamIds: seq<string>,
                    order': seq<string>, records': map<string, SponsorRecord>, teamIds': seq<string>)
    requires Grouped(pre, order, records, teamIds)
    requires order' == if row.selectedSponsor in records then order else order + [row.selectedSponsor]
    requires records' == records[row.selectedSponsor := Bump(
              if row.selectedSponsor in records then records[row.selectedSponsor]
              else SponsorRecord(row.selectedSponsor, StrOr(row.savedSponsorName, "Unknown"), 0, 0, 0, 0, 0, 0, 0), row)]
    requires teamIds' == if TruthyStr(row.team) && row.team.value !in teamIds then teamIds + [row.team.value] else teamIds
    ensures Grouped(pre + [row], order', records', teamIds')
  {
    assert records'.Keys == records.Keys + {row.selectedSponsor};
    OrderStep(pre, row, order, records.Keys, order', records'.Keys);
    TeamRefsStep(pre, row, teamIds, teamIds');
    RecordsStep(pre, row, records, records');
  }

  /** The sponsor order grows exactly when a new sponsor appears, in step with the dictionary's keys. */
  lemma OrderStep(pre: seq<PlayerRow>, row: PlayerRow, order: seq<string>, keys: set<string>, order': seq<string>, keys': set<string>)
    requires order == FirstSeen(SponsorIds(pre)) && (forall sid :: sid in keys <==> sid in order)
    requires order' == (if row.selectedSponsor in keys then order else order + [row.selectedSponsor])
    requires keys' == keys + {row.selectedSponsor}
    ensures order' == FirstSeen(SponsorIds(pre + [row]))
    ensures forall sid :: sid in keys' <==> sid in order'
  {
    var rows := pre + [row];
    assert rows[..|pre|] == pre;
    assert SponsorIds(rows) == SponsorIds(pre) + [row.selectedSponsor];
    FirstSeenStep(SponsorIds(pre), row.selectedSponsor);
  }

  lemma TeamRefsStep(pre: seq<PlayerRow>, row: PlayerRow, teamIds: seq<string>, teamIds': seq<string>)
    requires teamIds == FirstSeen(TeamRefs(pre))
    requires teamIds' == if TruthyStr(row.team) && row.team.value !in teamIds then teamIds + [row.team.value] else teamIds
    ensures teamIds' == FirstSeen(TeamRefs(pre + [row]))
  {
    var rows := pre + [row];
    assert rows[..|pre|] == pre;
    if TruthyStr(row.team) {
      assert TeamRefs(rows) == TeamRefs(pre) + [row.team.value];
      FirstSeenStep(TeamRefs(pre), row.team.value);
    } else {
      assert TeamRefs(rows) == TeamRefs(pre);
    }
  }

  /** Seeing one more element appends it exactly when it is new. */
  lemma FirstSeenStep<T(!new)>(s: seq<T>, x: T)
    ensures FirstSeen(s + [x]) == if x in FirstSeen(s) then FirstSeen(s) else FirstSeen(s) + [x]
  {
    assert (s + [x])[..|s|] == s;
  }

  lemma RecordsStep(pre: seq<PlayerRow>, row: PlayerRow, records: map<string, SponsorRecord>, records': map<string, SponsorRecord>)
    requires forall sid :: sid in records <==> RowsOf(pre, sid) != []
    requires forall sid :: sid in records ==> records[sid] == Tally(pre, sid)
    requires records' == records[row.selectedSponsor := Bump(
              if row.selectedSponsor in records then records[row.selectedSponsor]
              else SponsorRecord(row.selectedSponsor, StrOr(row.savedSponsorName, "Unknown"), 0, 0, 0, 0, 0, 0, 0), row)]
    ensures forall sid :: sid in records' <==> RowsOf(pre + [row], sid) != []
    ensures forall sid :: sid in records' ==> records'[sid] == Tally(pre + [row], sid)
  {
    forall sid | true
      ensures sid in records' <==> RowsOf(pre + [row], sid) != []
      ensures sid in records' ==> records'[sid] == Tally(pre + [row], sid)
    {
      TallyStep(pre, row, sid);
    }
  }

  /**
   * The grouping forEach: one record per sponsor id in first-seen order, with
   * its picks and summed columns, and the distinct team ids in first-seen order.
   */
  method GroupBySponsor(rows: seq<PlayerRow>) returns (order: seq<string>, records: map<string, SponsorRecord>, teamIds: seq<string>)
    ensures order == FirstSeen(SponsorIds(rows))
    ensures forall sid :: sid in records <==> sid in order
    ensures forall sid :: sid in records ==> records[sid] == Tally(rows, sid)
    ensures teamIds == FirstSeen(TeamRefs(rows))
  {
    order, records, teamIds := [], map[], [];
    var i := 0;
    while i < |rows|
      invariant 0 <= i <= |rows|
      invariant Grouped(rows[..i], order, records, teamIds)
    {
      assert rows[..i + 1] == rows[..i] + [rows[i]];
      var order', records', teamIds' := GroupRow(order, records, teamIds, rows[i]);
      GroupedStep(rows[..i], rows[i], order, records, teamIds, order', records', teamIds');
      order, records, teamIds := order', records', teamIds';
      i := i + 1;
    }
    assert rows[..i] == rows;
  }

  /** The batching for loop: push `ids.slice(i, i + 100)` for i = 0, 100, 200, ... */
  method MakeBatches<T>(ids: seq<T>) returns (batches: seq<seq<T>>)
    ensures batches == Chunks(ids)
  {
    batches := [];
    var i := 0;
    while i < |ids|
      invariant 0 <= i
      invariant batches + Chunks(ids[if i <= |ids| then i else |ids|..]) == Chunks(ids)
      decreases |ids| - i
    {
      var rest := ids[i..];
      if |rest| > BatchSize {
        assert rest[BatchSize..] == ids[i + BatchSize..];
        assert Chunks(rest) == [rest[..BatchSize]] + Chunks(rest[BatchSize..]);
        assert rest[..BatchSize] == ids[i..i + BatchSize];
        batches := batches + [ids[i..i + BatchSize]];
      } else {
        assert Chunks(ids[|ids|..]) == [];
        batches := batches + [ids[i..]];
      }
      i := i + BatchSize;
    }
  }

  /** The batch read loop: keep the rows of every successful batch, and flag any failure. */
  method FetchBatches<T>(batches: seq<seq<string>>, db: seq<string> -> BatchResult<T>) returns (data: seq<T>, failed: bool)
    ensures data == Collected(batches, db)
    ensures failed == AnyFailed(batches, db)
  {
    data, failed := [], false;
    var i := 0;
    while i < |batches|
      invariant 0 <= i <= |batches|
      invariant data == Collected(batches[..i], db)
      invariant failed == AnyFailed(batches[..i], db)
    {
      assert batches[..i + 1] == batches[..i] + [batches[i]];
      assert batches[..i + 1][..i] == batches[..i];
      match db(batches[i]) {
        case BatchFailed =>
          failed := true;
        case BatchOk(rows) =>
          if rows.Some? {
            data := data + rows.value;
          }
      }
      i := i + 1;
    }
    assert batches[..i] == batches;
  }

  /** The teamsData forEach: index the teams by id and collect the distinct truthy match ids. */
  method IndexTeams(teams: seq<TeamRow>) returns (teamMap: map<string, TeamRow>, matchIds: seq<string>)
    ensures teamMap == LastIndex(teams, TeamRowId)
    ensures matchIds == FirstSeen(MatchRefs(teams))
  {
    teamMap, matchIds := map[], [];
    var i := 0;
    while i < |teams|
      invariant 0 <= i <= |teams|
      invariant teamMap == LastIndex(teams[..i], TeamRowId)
      invariant matchIds == FirstSeen(MatchRefs(teams[..i]))
    {
      var t := teams[i];
      assert teams[..i + 1] == teams[..i] + [t];
      assert teams[..i + 1][..i] == teams[..i];
      teamMap := teamMap[t.id := t];
      if TruthyStr(t.matchId) && t.matchId.value !in matchIds {
        matchIds := matchIds + [t.matchId.value];
      }
      i := i + 1;
    }
    assert teams[..i] == teams;
  }

  /** Adding one more match row updates exactly that row's id. */
  lemma SurrendersStep(pre: seq<MatchRow>, m: MatchRow)
    ensures Surrenders(pre + [m]) == Surrenders(pre)[m.id := m.surrenderedTeam]
  {
    assert (pre + [m])[..|pre|] == pre;
  }

  /** The surrender forEach: `surrenderMap.set(match.id, match.surrendered_team)`. */
  method IndexSurrenders(matches: seq<MatchRow>) returns (surrenders: map<string, Option<int>>)
    ensures surrenders == Surrenders(matches)
  {
    surrenders := map[];
    var i := 0;
    while i < |matches|
      invariant 0 <= i <= |matches|
      invariant surrenders == Surrenders(matches[..i])
    {
      assert matches[..i + 1] == matches[..i] + [matches[i]];
      SurrendersStep(matches[..i], matches[i]);
      surrenders := surrenders[matches[i].id := matches[i].surrenderedTeam];
      i := i + 1;
    }
    assert matches[..i] == matches;
  }

  /** A match column value no team has gets no teams. */
  lemma {:induction false} NoTeamsOfMatch(teams: seq<TeamRow>, matchId: Option<string>)
    requires forall u :: u in teams ==> u.matchId != matchId
    ensures TeamsOfMatch(teams, matchId) == []
  {
    if teams != [] {
      NoTeamsOfMatch(teams[..|teams| - 1], matchId);
    }
  }

  /** Adding one more team appends it to its match's list and touches no other list. */
  lemma ByMatchStep(pre: seq<TeamRow>, t: TeamRow)
    ensures ByMatch(pre + [t]) == ByMatch(pre)[t.matchId := (if t.matchId in ByMatch(pre) then ByMatch(pre)[t.matchId] else []) + [t]]
  {
    var teams := pre + [t];
    assert teams[..|teams| - 1] == pre;
    var before := ByMatch(pre);
    var after := ByMatch(teams);
    var expected := before[t.matchId := (if t.matchId in before then before[t.matchId] else []) + [t]];
    assert (set u | u in teams :: u.matchId) == (set u | u in pre :: u.matchId) + {t.matchId};
    forall k | k in after
      ensures after[k] == expected[k]
    {
      assert after[k] == TeamsOfMatch(teams, k);
      if k != t.matchId {
        assert k in before;
        assert TeamsOfMatch(teams, k) == TeamsOfMatch(pre, k);
      } else {
        assert TeamsOfMatch(teams, k) == TeamsOfMatch(pre, k) + [t];
        if k !in before {
          NoTeamsOfMatch(pre, k);
        }
      }
    }
    assert after == expected;
  }

  /** One step of the matchTeamsMap forEach: start the team's list if needed, then append the team. */
  method AddTeam(matchTeams: map<Option<string>, seq<TeamRow>>, t: TeamRow) returns (m: map<Option<string>, seq<TeamRow>>)
    ensures m == matchTeams[t.matchId := (if t.matchId in matchTeams then matchTeams[t.matchId] else []) + [t]]
  {
    m := matchTeams;
    if t.matchId !in m {
      m := m[t.matchId := []];
    }
    m := m[t.matchId := m[t.matchId] + [t]];
  }

  /** The matchTeamsMap forEach: group the teams by their match column, in order. */
  method GroupTeamsByMatch(teams: seq<TeamRow>) returns (matchTeams: map<Option<string>, seq<TeamRow>>)
    ensures matchTeams == ByMatch(teams)
  {
    matchTeams := map[];
    var i := 0;
    while i < |teams|
      invariant 0 <= i <= |teams|
      invariant matchTeams == ByMatch(teams[..i])
    {
      assert teams[..i + 1] == teams[..i] + [teams[i]];
      ByMatchStep(teams[..i], teams[i]);
      matchTeams := AddTeam(matchTeams, teams[i]);
      i := i + 1;
    }
    assert teams[..i] == teams;
  }

  /** Sponsor `sid`'s record once the outcome loop has visited `done`. */
  function Partial(rows: seq<PlayerRow>, done: seq<PlayerRow>, sid: string, l: Lookups): SponsorRecord {
    var mine := RowsOf(done, sid);
    Tally(rows, sid).(totalWins := CountOutcome(mine, l, Won),
                      totalLosses := CountOutcome(mine, l, Lost),
                      totalDraws := CountOutcome(mine, l, Drawn))
  }

  /** How one more visited row changes each sponsor's outcome counts. */
  lemma PartialStep(rows: seq<PlayerRow>, done: seq<PlayerRow>, row: PlayerRow, sid: string, l: Lookups)
    ensures row.selectedSponsor != sid ==> Partial(rows, done + [row], sid, l) == Partial(rows, done, sid, l)
    ensures row.selectedSponsor == sid ==>
              Partial(rows, done + [row], sid, l) == Credit(Partial(rows, done, sid, l), OutcomeOf(row, l))
  {
    var all := done + [row];
    assert all[..|all| - 1] == done;
    if row.selectedSponsor == sid {
      var mine := RowsOf(done, sid) + [row];
      assert mine[..|mine| - 1] == RowsOf(done, sid);
    }
  }

  /** One outcome added to a record: a win, loss or draw counts once; a skipped row changes nothing. */
  function Credit(r: SponsorRecord, o: Outcome): (c: SponsorRecord)
    ensures c.totalWins + c.totalLosses + c.totalDraws == r.totalWins + r.totalLosses + r.totalDraws + (if o == Skipped then 0 else 1)
  {
    r.(totalWins := r.totalWins + (if o == Won then 1 else 0),
       totalLosses := r.totalLosses + (if o == Lost then 1 else 0),
       totalDraws := r.totalDraws + (if o == Drawn then 1 else 0))
  }

  /** Before the loop every record is its tally; after it, its full record. */
  lemma PartialEnds(rows: seq<PlayerRow>, sid: string, l: Lookups)
    ensures Partial(rows, [], sid, l) == Tally(rows, sid)
    ensures Partial(rows, rows, sid, l) == Record(rows, sid, Some(l))
  {
    assert RowsOf([], sid) == [];
  }

  /** Every sponsor's record once the outcome loop has visited `done`. */
  function Progress(rows: seq<PlayerRow>, done: seq<PlayerRow>, sponsors: set<string>, l: Lookups): (r: map<string, SponsorRecord>)
    ensures r.Keys == sponsors
  {
    map sid | sid in sponsors :: Partial(rows, done, sid, l)
  }

  /** Before the loop, records holding their tallies are the progress over no rows. */
  lemma ProgressStart(rows: seq<PlayerRow>, records: map<string, SponsorRecord>, l: Lookups)
    requires forall sid :: sid in records ==> records[sid] == Tally(rows, sid)
    ensures records == Progress(rows, rows[..0], records.Keys, l)
  {
    assert rows[..0] == [];
    forall sid | sid in records {
      PartialEnds(rows, sid, l);
    }
  }

  /** After the loop, the progress over every row is each sponsor's full record. */
  lemma ProgressEnd(rows: seq<PlayerRow>, sponsors: set<string>, l: Lookups)
    ensures forall sid :: sid in sponsors ==> Progress(rows, rows[..|rows|], sponsors, l)[sid] == Record(rows, sid, Some(l))
  {
    assert rows[..|rows|] == rows;
    forall sid | sid in sponsors {
      PartialEnds(rows, sid, l);
    }
  }

  lemma OutcomeLoopStep(rows: seq<PlayerRow>, i: nat, sponsors: set<string>, l: Lookups)
    requires i < |rows| && rows[i].selectedSponsor in sponsors
    ensures var before := Progress(rows, rows[..i], sponsors, l);
            var sid := rows[i].selectedSponsor;
            Progress(rows, rows[..i + 1], sponsors, l) == before[sid := Credit(before[sid], OutcomeOf(rows[i], l))]
  {
    assert rows[..i + 1] == rows[..i] + [rows[i]];
    forall sid | sid in sponsors
      ensures Partial(rows, rows[..i + 1], sid, l)
              == (if sid == rows[i].selectedSponsor then Credit(Partial(rows, rows[..i], sid, l), OutcomeOf(rows[i], l))
                  else Partial(rows, rows[..i], sid, l))
    {
      PartialStep(rows, rows[..i], rows[i], sid, l);
    }
  }

  /** The body of the outcome loop: count the row's outcome on its sponsor's record. */
  method CreditRow(records: map<string, SponsorRecord>, row: PlayerRow, outcome: Outcome)
    returns (records': map<string, SponsorRecord>)
    requires row.selectedSponsor in records
    ensures records' == records[row.selectedSponsor := Credit(records[row.selectedSponsor], outcome)]
  {
    var sponsor := records[row.selectedSponsor];
    match outcome {
      case Won => sponsor := sponsor.(totalWins := sponsor.totalWins + 1);
      case Lost => sponsor := sponsor.(totalLosses := sponsor.totalLosses + 1);
      case Drawn => sponsor := sponsor.(totalDraws := sponsor.totalDraws + 1);
      case Skipped =>
    }
    records' := records[row.selectedSponsor := sponsor];
  }

  /** The outcome for-of loop: add each row's win, loss or draw to its sponsor. */
  method ApplyOutcomes(rows: seq<PlayerRow>, records: map<string, SponsorRecord>, l: Lookups)
    returns (records': map<string, SponsorRecord>)
    requires forall row :: row in rows ==> row.selectedSponsor in records
    requires forall sid :: sid in records ==> records[sid] == Tally(rows, sid)
    ensures records'.Keys == records.Keys
    ensures forall sid :: sid in records' ==> records'[sid] == Record(rows, sid, Some(l))
  {
    records' := records;
    var i := 0;
    ProgressStart(rows, records, l);
    while i < |rows|
      invariant 0 <= i <= |rows|
      invariant records' == Progress(rows, rows[..i], records.Keys, l)
    {
      OutcomeLoopStep(rows, i, records.Keys, l);
      records' := CreditRow(records', rows[i], OutcomeOf(rows[i], l));
      i := i + 1;
    }
    ProgressEnd(rows, records.Keys, l);
  }

  /**
   * Everything after the grouping forEach up to the final object: the batched
   * team and match reads, the lookup tables, and the outcome loop, each run
   * only when the source gets that far.
   */
  method RunOutcomePhase(rows: seq<PlayerRow>, records: map<string, SponsorRecord>, teamIds: seq<string>,
                         teamsDb: seq<string> -> BatchResult<TeamRow>, matchesDb: seq<string> -> BatchResult<MatchRow>)
    returns (records': map<string, SponsorRecord>)
    requires teamIds == FirstSeen(TeamRefs(rows))
    requires forall row :: row in rows ==> row.selectedSponsor in records
    requires forall sid :: sid in records ==> records[sid] == Tally(rows, sid)
    ensures records'.Keys == records.Keys
    ensures forall sid :: sid in records' ==> records'[sid] == Record(rows, sid, OutcomePhase(rows, teamsDb, matchesDb))
  {
    records' := records;
    if |teamIds| > 0 {
      var batches := MakeBatches(teamIds);
      var teams, teamsFailed := FetchBatches(batches, teamsDb);
      if !teamsFailed && |teams| > 0 {
        var teamMap, matchIds := IndexTeams(teams);
        var matchBatches := MakeBatches(matchIds);
        var matchRows, matchesFailed := FetchBatches(matchBatches, matchesDb);
        var surrenders := map[];
        if !matchesFailed {
          surrenders := IndexSurrenders(matchRows);
        }
        var matchTeams := GroupTeamsByMatch(teams);
        records' := ApplyOutcomes(rows, records, Lookups(teamMap, matchTeams, surrenders));
      }
    }
  }

  /** `Array.from(sponsorMap.values())`: the records in the order their keys were first set. */
  function InsertionOrder(order: seq<string>, records: map<string, SponsorRecord>): (r: seq<SponsorRecord>)
    requires forall sid :: sid in order ==> sid in records
    ensures |r| == |order| && forall i :: 0 <= i < |order| ==> r[i] == records[order[i]]
  {
    seq(|order|, i requires 0 <= i < |order| => records[order[i]])
  }

  lemma SponsorsAsExpected(rows: seq<PlayerRow>, order: seq<string>, records: map<string, SponsorRecord>, l: Option<Lookups>)
    requires order == FirstSeen(SponsorIds(rows))
    requires forall sid :: sid in records <==> sid in order
    requires forall sid :: sid in records ==> records[sid] == Record(rows, sid, l)
    ensures InsertionOrder(order, records) == ExpectedSponsors(rows, l)
  {
  }

  /**
   * getGlobalSponsorStats without its cache: a failed player read gives its
   * message; no rows give no players and no sponsors; otherwise the distinct
   * player count and one record per sponsor in first-seen order.
   */
  method GetGlobalSponsorStats(query: PlayerQuery, teamsDb: seq<string> -> BatchResult<TeamRow>,
                               matchesDb: seq<string> -> BatchResult<MatchRow>)
    returns (r: Response)
    ensures query.PlayerQueryFailed? ==> r == Failure(StrOr(query.message, "Failed to retrieve player data"))
    ensures query.PlayerQueryOk? && (query.data.None? || |query.data.value| == 0)
            ==> r == Success(GlobalSponsorStats(0, []))
    ensures query.PlayerQueryOk? && query.data.Some? && |query.data.value| > 0 ==>
              var rows := query.data.value;
              r == Success(GlobalSponsorStats(|DistinctPlayers(rows)|,
                                              ExpectedSponsors(rows, OutcomePhase(rows, teamsDb, matchesDb))))
  {
    if query.PlayerQueryFailed? {
      return Failure(StrOr(query.message, "Failed to retrieve player data"));
    }
    if query.data.None? || |query.data.value| == 0 {
      return Success(GlobalSponsorStats(0, []));
    }
    var rows := query.data.value;
    var players := UniquePlayers(rows);
    var order, records, teamIds := GroupBySponsor(rows);
    forall row | row in rows
      ensures row.selectedSponsor in records
    {
      var k :| 0 <= k < |rows| && rows[k] == row;
      assert SponsorIds(rows)[k] == row.selectedSponsor;
    }
    records := RunOutcomePhase(rows, records, teamIds, teamsDb, matchesDb);
    var sponsors := InsertionOrder(order, records);
    SponsorsAsExpected(rows, order, records, OutcomePhase(rows, teamsDb, matchesDb));
    r := Success(GlobalSponsorStats(|players|, sponsors));
  }
}
