/**
 * Tournament data and its keyed store (src/tournament/tournament.data.ts):
 * the default data, createDefaultPlayer and createDefaultMatch, the match
 * list edits behind addMatch, updateMatch and deleteMatch, and the store
 * operations fetchTournament, updateTournament and resetTournamentData.
 *
 * The Redis store becomes the map `entries` of a `TournamentStore`, keyed
 * by tournament id; the admin check is the boolean parameter `admin`; the
 * random avatar number of createDefaultPlayer is the parameter `portrait`.
 */
module Tournament {
  import opened Wrappers
  import opened Text

  datatype PlayerStats = PlayerStats(
    id: string,
    name: string,
    handle: string,
    sponsor: string,
    kills: int,
    deaths: int,
    assists: int,
    kd: real,
    avatarUrl: Option<string>,
    socialLink: Option<string>)

  datatype Team = Team(name: string, score: int, players: seq<PlayerStats>)

  datatype Status = Upcoming | Live | Completed

  datatype MatchStats = MatchStats(
    id: string,
    team1: Team,
    team2: Team,
    status: Status,
    round: string,
    gameMap: Option<string>,
    scheduledTime: Option<string>)

  datatype TournamentData = TournamentData(id: string, name: string, streamUrl: string, matches: seq<MatchStats>)

  datatype Outcome = Ok(data: TournamentData) | Err(error: string)

  const Unauthorized: string := "Unauthorized: Admin authentication required"

  // ---------------------------------------------------------------- defaults

  /** createDefaultPlayer; `portrait` stands for `Math.floor(Math.random() * 70)`. */
  function CreateDefaultPlayer(id: string, name: string, handle: string, sponsor: string, portrait: nat): (p: PlayerStats)
    requires portrait < 70
    ensures p.id == id && p.name == name && p.handle == handle && p.sponsor == sponsor
    ensures p.kills == 0 && p.deaths == 0 && p.assists == 0 && p.kd == 0.0
    ensures p.socialLink == Some("https://twitter.com/" + ToLower(handle))
  {
    PlayerStats(id, name, handle, sponsor, 0, 0, 0, 0.0,
                Some("https://randomuser.me/api/portraits/men/" + NatToString(portrait) + ".jpg"),
                Some("https://twitter.com/" + ToLower(handle)))
  }

  /** The id of default player `n` of team `t`: `${id}_t{t}p{n}`. */
  function DefaultPlayerId(matchId: string, t: char, n: char): string {
    matchId + "_t" + [t] + "p" + [n]
  }

  /** Default player `n` of team `t`: "Player n", handle "Playern". */
  function DefaultSlot(matchId: string, t: char, n: char, sponsor: string, portrait: nat): (p: PlayerStats)
    requires portrait < 70
    ensures p.id == DefaultPlayerId(matchId, t, n) && p.sponsor == sponsor
    ensures p.kills == 0 && p.deaths == 0 && p.assists == 0
  {
    CreateDefaultPlayer(DefaultPlayerId(matchId, t, n), "Player " + [n], "Player" + [n], sponsor, portrait)
  }

  /** A team of three default players `${id}_t{t}p1..3`, named "Player 1".."Player 3", with zero score. */
  function DefaultTeam(matchId: string, t: char, name: string, sponsors: seq<string>, portraits: seq<nat>): (team: Team)
    requires |sponsors| == 3 && |portraits| == 3 && forall i :: 0 <= i < 3 ==> portraits[i] < 70
    ensures team.name == name && team.score == 0 && |team.players| == 3
    ensures forall k :: 0 <= k < 3 ==>
              && team.players[k].id == DefaultPlayerId(matchId, t, "123"[k])
              && team.players[k].sponsor == sponsors[k]
              && team.players[k].kills == 0 && team.players[k].deaths == 0 && team.players[k].assists == 0
  {
    Team(name, 0, [
      DefaultSlot(matchId, t, '1', sponsors[0], portraits[0]),
      DefaultSlot(matchId, t, '2', sponsors[1], portraits[1]),
      DefaultSlot(matchId, t, '3', sponsors[2], portraits[2])])
  }

  /** createDefaultMatch; `portraits` stands for the six random avatar numbers. */
  function CreateDefaultMatch(id: string, round: string, portraits: seq<nat>): (m: MatchStats)
    requires |portraits| == 6 && forall i :: 0 <= i < 6 ==> portraits[i] < 70
    ensures m.id == id && m.round == round && m.status == Upcoming
    ensures m.gameMap == Some("Canal") && m.scheduledTime == Some("TBD")
    ensures m.team1 == DefaultTeam(id, '1', "TBD Team 1", ["Monark", "Vector", "Bloom"], portraits[..3])
    ensures m.team2 == DefaultTeam(id, '2', "TBD Team 2", ["Ghostlink", "Morrgen", "Umbra"], portraits[3..])
  {
    MatchStats(
      id,
      DefaultTeam(id, '1', "TBD Team 1", ["Monark", "Vector", "Bloom"], portraits[..3]),
      DefaultTeam(id, '2', "TBD Team 2", ["Ghostlink", "Morrgen", "Umbra"], portraits[3..]),
      Upcoming, round, Some("Canal"), Some("TBD"))
  }

  /** The six players of a default match have six different ids. */
  lemma DefaultPlayerIdsDistinct(id: string, t: char, n: char, t': char, n': char)
    requires DefaultPlayerId(id, t, n) == DefaultPlayerId(id, t', n')
    ensures t == t' && n == n'
  {
    var a := DefaultPlayerId(id, t, n);
    var b := DefaultPlayerId(id, t', n');
    assert a[|id| + 2] == t && b[|id| + 2] == t';
    assert a[|id| + 4] == n && b[|id| + 4] == n';
  }

  /** The six players of a fresh default match carry six different ids. */
  lemma DefaultMatchPlayerIdsDistinct(id: string, round: string, portraits: seq<nat>)
    requires |portraits| == 6 && forall i :: 0 <= i < 6 ==> portraits[i] < 70
    ensures var m := CreateDefaultMatch(id, round, portraits);
            && (forall k, l :: 0 <= k < 3 && 0 <= l < 3 ==> m.team1.players[k].id != m.team2.players[l].id)
            && (forall k, l :: 0 <= k < l < 3 ==> m.team1.players[k].id != m.team1.players[l].id)
            && (forall k, l :: 0 <= k < l < 3 ==> m.team2.players[k].id != m.team2.players[l].id)
  {
    var m := CreateDefaultMatch(id, round, portraits);
    forall k, l | 0 <= k < 3 && 0 <= l < 3
      ensures m.team1.players[k].id != m.team2.players[l].id
    {
      SlotIdsDiffer(id, '1', k, '2', l);
    }
    forall k, l | 0 <= k < l < 3
      ensures m.team1.players[k].id != m.team1.players[l].id
    {
      SlotIdsDiffer(id, '1', k, '1', l);
    }
    forall k, l | 0 <= k < l < 3
      ensures m.team2.players[k].id != m.team2.players[l].id
    {
      SlotIdsDiffer(id, '2', k, '2', l);
    }
  }

  lemma SlotIdsDiffer(id: string, t: char, k: nat, t': char, l: nat)
    requires k < 3 && l < 3 && (t != t' || k != l)
    ensures DefaultPlayerId(id, t, "123"[k]) != DefaultPlayerId(id, t', "123"[l])
  {
    if DefaultPlayerId(id, t, "123"[k]) == DefaultPlayerId(id, t', "123"[l]) {
      DefaultPlayerIdsDistinct(id, t, "123"[k], t', "123"[l]);
    }
  }

  function Player(id: string, name: string, handle: string, sponsor: string, kills: int, deaths: int, assists: int,
                  kd: real, portrait: string, social: string): PlayerStats {
    PlayerStats(id, name, handle, sponsor, kills, deaths, assists, kd,
                Some("https://randomuser.me/api/portraits/men/" + portrait + ".jpg"), Some("https://twitter.com/" + social))
  }

  function Tbd(id: string): PlayerStats {
    PlayerStats(id, "TBD", "TBD", "tbd", 0, 0, 0, 0.0, None, None)
  }

  /** defaultTournamentData: three matches of the 3v3 tournament. */
  const DefaultTournamentData: TournamentData := TournamentData(
    "default",
    "Optic Gaming 3v3 Tournament",
    "https://www.youtube.com/embed/gUxWaHvGAuU?autoplay=1&mute=1",
    [
      MatchStats("match1",
        Team("Team Scump", 13, [
          Player("player1", "Seth Abner", "Scump", "Monark", 24, 12, 8, 2.0, "32", "scump"),
          Player("player2", "Jordan Kaplan", "JKap", "Vector", 18, 14, 6, 1.29, "41", "jkap"),
          Player("player3", "Thomas Wilson", "Tempo", "Bloom", 16, 15, 10, 1.07, "55", "tempo")]),
        Team("Team Shotzzy", 7, [
          Player("player5", "Anthony Cuevas-Castro", "Shotzzy", "Ghostlink", 19, 16, 5, 1.19, "22", "shotzzy"),
          Player("player6", "Brandon Green", "Dashy", "Morrgen", 15, 18, 7, 0.83, "28", "dashy"),
          Player("player7", "Dylan Henderson", "Envoy", "Umbra", 12, 19, 9, 0.63, "36", "envoy")]),
        Completed, "Quarter Finals", Some("Canal"), None),
      MatchStats("match2",
        Team("Team FormaL", 9, [
          Player("player9", "Matthew Piper", "FormaL", "Pinnacle", 22, 18, 6, 1.22, "52", "formal"),
          Player("player10", "Ian Porter", "Crimsix", "Muu", 19, 16, 8, 1.19, "57", "crimsix"),
          Player("player11", "Alec Sanderson", "Arcitys", "Ryker", 17, 15, 9, 1.13, "62", "arcitys")]),
        Team("Team Scump", 9, [
          Player("player1", "Seth Abner", "Scump", "Monark", 21, 17, 7, 1.24, "32", "scump"),
          Player("player2", "Jordan Kaplan", "JKap", "Vector", 18, 18, 6, 1.0, "41", "jkap"),
          Player("player3", "Thomas Wilson", "Tempo", "Bloom", 16, 19, 8, 0.84, "55", "tempo")]),
        Live, "Semi Finals", Some("Highrise"), None),
      MatchStats("match3",
        Team("Team Shotzzy", 0, [
          Player("player5", "Anthony Cuevas-Castro", "Shotzzy", "Ghostlink", 0, 0, 0, 0.0, "22", "shotzzy"),
          Player("player6", "Brandon Green", "Dashy", "Morrgen", 0, 0, 0, 0.0, "28", "dashy"),
          Player("player7", "Dylan Henderson", "Envoy", "Umbra", 0, 0, 0, 0.0, "36", "envoy")]),
        Team("Winner of Semi Finals", 0, [Tbd("tbd1"), Tbd("tbd2"), Tbd("tbd3")]),
        Upcoming, "Finals", Some("Rust"), None)
    ])

  // ------------------------------------------------------------- list edits

  /** `matches.findIndex(m => m.id === matchId)`: the first index with that id, or -1. */
  function FindIndex(matches: seq<MatchStats>, matchId: string): (k: int)
    ensures -1 <= k < |matches|
    ensures k == -1 <==> forall m :: m in matches ==> m.id != matchId
    ensures k >= 0 ==> matches[k].id == matchId && forall j :: 0 <= j < k ==> matches[j].id != matchId
  {
    if matches == [] then -1
    else if matches[0].id == matchId then 0
    else
      var k := FindIndex(matches[1..], matchId);
      if k == -1 then -1 else k + 1
  }

  /** The list updateMatch saves: the first match with `matchId` replaced by `updated`, keeping the id. */
  function ReplaceFirst(matches: seq<MatchStats>, matchId: string, updated: MatchStats): (r: seq<MatchStats>)
    requires FindIndex(matches, matchId) >= 0
    ensures |r| == |matches|
    ensures var k := FindIndex(matches, matchId);
            && r[k] == updated.(id := matchId)
            && forall j :: 0 <= j < |matches| && j != k ==> r[j] == matches[j]
  {
    matches[FindIndex(matches, matchId) := updated.(id := matchId)]
  }

  /** `matches.filter(match => match.id !== matchId)`. */
  function RemoveAll(matches: seq<MatchStats>, matchId: string): (r: seq<MatchStats>)
    ensures |r| <= |matches|
    ensures forall m :: m in r <==> m in matches && m.id != matchId
  {
    if matches == [] then []
    else
      var rest := RemoveAll(matches[1..], matchId);
      assert matches == [matches[0]] + matches[1..];
      if matches[0].id == matchId then rest else [matches[0]] + rest
  }

  /** Some match in the list has id `matchId`. */
  predicate HasMatch(matches: seq<MatchStats>, matchId: string) {
    exists m :: m in matches && m.id == matchId
  }

  /** The filter removes something exactly when some match has the id: the "not found" test is sound. */
  lemma {:induction false} RemoveAllShrinks(matches: seq<MatchStats>, matchId: string)
    ensures |RemoveAll(matches, matchId)| == |matches| <==> !HasMatch(matches, matchId)
  {
    if matches != [] {
      RemoveAllShrinks(matches[1..], matchId);
      assert matches == [matches[0]] + matches[1..];
    }
  }

  /** Deleting keeps the survivors in their original order: the kept list is a subsequence. */
  lemma {:induction false} RemoveAllKeepsOrder(matches: seq<MatchStats>, matchId: string, other: seq<MatchStats>)
    ensures RemoveAll(matches + other, matchId) == RemoveAll(matches, matchId) + RemoveAll(other, matchId)
  {
    if matches != [] {
      assert (matches + other)[1..] == matches[1..] + other;
      RemoveAllKeepsOrder(matches[1..], matchId, other);
    } else {
      assert matches + other == other;
    }
  }

  // ------------------------------------------------------------------ store

  /** Every stored tournament carries its own key as its id, which the id forcing on each write keeps true. */
  predicate KeyedById(entries: map<string, TournamentData>) {
    forall k :: k in entries ==> entries[k].id == k
  }

  /** What fetchTournament hands back for `tournamentId` from `entries`, falling back on `defaults`. */
  function Current(entries: map<string, TournamentData>, tournamentId: string, defaults: TournamentData): (d: TournamentData)
    ensures KeyedById(entries) ==> d.id == tournamentId
    ensures tournamentId in entries ==> d == entries[tournamentId]
    ensures tournamentId !in entries ==> d == defaults.(id := tournamentId)
  {
    if tournamentId in entries then entries[tournamentId] else defaults.(id := tournamentId)
  }

  class TournamentStore {
    /** The stored tournaments, by id. */
    var entries: map<string, TournamentData>
    /** The module's defaultTournamentData. */
    const defaultData: TournamentData

    constructor()
      ensures entries == map[] && defaultData == DefaultTournamentData
      ensures KeyedById(entries)
    {
      entries := map[];
      defaultData := DefaultTournamentData;
    }

    /** fetchTournament: a stored entry as is; otherwise the default data under the requested id, stored. */
    method FetchTournament(tournamentId: string) returns (r: Outcome)
      modifies this
      ensures r == Ok(Current(old(entries), tournamentId, defaultData))
      ensures entries == old(entries)[tournamentId := Current(old(entries), tournamentId, defaultData)]
      ensures KeyedById(old(entries)) ==> KeyedById(entries)
    {
      if tournamentId in entries {
        return Ok(entries[tournamentId]);
      }
      var seeded := defaultData.(id := tournamentId);
      entries := entries[tournamentId := seeded];
      r := Ok(seeded);
    }

    /** updateTournament: store `data` with its id forced to `tournamentId`. */
    method UpdateTournament(tournamentId: string, data: TournamentData) returns (r: Outcome)
      modifies this
      ensures r == Ok(data.(id := tournamentId))
      ensures entries == old(entries)[tournamentId := data.(id := tournamentId)]
      ensures KeyedById(old(entries)) ==> KeyedById(entries)
    {
      var tournamentData := data.(id := tournamentId);
      entries := entries[tournamentId := tournamentData];
      r := Ok(tournamentData);
    }

    /** addMatch: append `newMatch` to the current match list. */
    method AddMatch(admin: bool, tournamentId: string, newMatch: MatchStats) returns (r: Outcome)
      modifies this
      ensures !admin ==> r == Err(Unauthorized) && entries == old(entries)
      ensures admin ==>
                var d := Current(old(entries), tournamentId, defaultData);
                var saved := d.(id := tournamentId, matches := d.matches + [newMatch]);
                r == Ok(saved) && entries == old(entries)[tournamentId := saved]
      ensures KeyedById(old(entries)) ==> KeyedById(entries)
    {
      if !admin {
        return Err(Unauthorized);
      }
      var fetched := FetchTournament(tournamentId);
      var data := fetched.data;
      r := UpdateTournament(tournamentId, data.(matches := data.matches + [newMatch]));
    }

    /** updateMatch: replace the first match with id `matchId`; "not found" when there is none. */
    method UpdateMatch(admin: bool, tournamentId: string, matchId: string, updated: MatchStats) returns (r: Outcome)
      modifies this
      ensures !admin ==> r == Err(Unauthorized) && entries == old(entries)
      ensures admin && FindIndex(Current(old(entries), tournamentId, defaultData).matches, matchId) == -1 ==>
                && r == Err("Match with ID " + matchId + " not found")
                && entries == old(entries)[tournamentId := Current(old(entries), tournamentId, defaultData)]
      ensures admin && FindIndex(Current(old(entries), tournamentId, defaultData).matches, matchId) >= 0 ==>
                var d := Current(old(entries), tournamentId, defaultData);
                var saved := d.(id := tournamentId, matches := ReplaceFirst(d.matches, matchId, updated));
                r == Ok(saved) && entries == old(entries)[tournamentId := saved]
      ensures KeyedById(old(entries)) ==> KeyedById(entries)
    {
      if !admin {
        return Err(Unauthorized);
      }
      var fetched := FetchTournament(tournamentId);
      var data := fetched.data;
      var matchIndex := FindIndex(data.matches, matchId);
      if matchIndex == -1 {
        return Err("Match with ID " + matchId + " not found");
      }
      var updatedMatches := data.matches[matchIndex := updated.(id := matchId)];
      r := UpdateTournament(tournamentId, data.(matches := updatedMatches));
    }

    /** deleteMatch: drop every match with id `matchId`; "not found" when none was dropped. */
    method DeleteMatch(admin: bool, tournamentId: string, matchId: string) returns (r: Outcome)
      modifies this
      ensures !admin ==> r == Err(Unauthorized) && entries == old(entries)
      ensures admin && !HasMatch(Current(old(entries), tournamentId, defaultData).matches, matchId) ==>
                && r == Err("Match with ID " + matchId + " not found")
                && entries == old(entries)[tournamentId := Current(old(entries), tournamentId, defaultData)]
      ensures admin && HasMatch(Current(old(entries), tournamentId, defaultData).matches, matchId) ==>
                var d := Current(old(entries), tournamentId, defaultData);
                var saved := d.(id := tournamentId, matches := RemoveAll(d.matches, matchId));
                r == Ok(saved) && entries == old(entries)[tournamentId := saved]
      ensures KeyedById(old(entries)) ==> KeyedById(entries)
    {
      if !admin {
        return Err(Unauthorized);
      }
      var fetched := FetchTournament(tournamentId);
      var data := fetched.data;
      var updatedMatches := RemoveAll(data.matches, matchId);
      RemoveAllShrinks(data.matches, matchId);
      if |updatedMatches| == |data.matches| {
        return Err("Match with ID " + matchId + " not found");
      }
      r := UpdateTournament(tournamentId, data.(matches := updatedMatches));
    }

    /** resetTournamentData: store the default data under `tournamentId`. */
    method ResetTournamentData(admin: bool, tournamentId: string) returns (r: Outcome)
      modifies this
      ensures !admin ==> r == Err(Unauthorized) && entries == old(entries)
      ensures admin ==> && r == Ok(defaultData.(id := tournamentId))
                        && entries == old(entries)[tournamentId := defaultData.(id := tournamentId)]
      ensures KeyedById(old(entries)) ==> KeyedById(entries)
    {
      if !admin {
        return Err(Unauthorized);
      }
      var seeded := defaultData.(id := tournamentId);
      entries := entries[tournamentId := seeded];
      r := Ok(seeded);
    }
  }

  /** Updating a match keeps the list's length and every other match, and the result still holds `matchId`. */
  lemma ReplaceFirstKeepsId(matches: seq<MatchStats>, matchId: string, updated: MatchStats)
    requires FindIndex(matches, matchId) >= 0
    ensures FindIndex(ReplaceFirst(matches, matchId, updated), matchId) == FindIndex(matches, matchId)
  {
    var k := FindIndex(matches, matchId);
    var r := ReplaceFirst(matches, matchId, updated);
    FindIndexAt(r, matchId, k);
  }

  lemma {:induction false} FindIndexAt(matches: seq<MatchStats>, matchId: string, k: nat)
    requires k < |matches| && matches[k].id == matchId
    requires forall j :: 0 <= j < k ==> matches[j].id != matchId
    ensures FindIndex(matches, matchId) == k
  {
    if k > 0 {
      FindIndexAt(matches[1..], matchId, k - 1);
    }
  }

  /** After a delete no match with that id is left, and deleting again finds nothing. */
  lemma DeleteIsIdempotent(matches: seq<MatchStats>, matchId: string)
    ensures RemoveAll(RemoveAll(matches, matchId), matchId) == RemoveAll(matches, matchId)
  {
    RemoveAllNoop(RemoveAll(matches, matchId), matchId);
  }

  lemma {:induction false} RemoveAllNoop(matches: seq<MatchStats>, matchId: string)
    requires forall m :: m in matches ==> m.id != matchId
    ensures RemoveAll(matches, matchId) == matches
  {
    if matches != [] {
      assert matches[0] in matches;
      RemoveAllNoop(matches[1..], matchId);
      assert matches == [matches[0]] + matches[1..];
    }
  }

  /** Deleting a match just added under a fresh id gives back the list as it was. */
  lemma AddThenDeleteRestores(matches: seq<MatchStats>, added: MatchStats)
    requires forall m :: m in matches ==> m.id != added.id
    ensures RemoveAll(matches + [added], added.id) == matches
  {
    RemoveAllKeepsOrder(matches, added.id, [added]);
    RemoveAllNoop(matches, added.id);
    assert RemoveAll([added], added.id) == [];
  }
}
