/**
 * Match ids and the match service calls (src/match/match.ts): the unanchored
 * UUID pattern of validMatchId and the early-return chains of getMatch,
 * checkMatch and addMatch. The database query and the two HTTP services are
 * functions passed in, applied to the id the source sends them.
 */
module MatchService {
  import opened Wrappers
  import opened Text

  /** One position of the pattern: `[a-f0-9]`, a literal character, or a bracket class such as `[89ab]`. */
  datatype CharClass = Hex | Lit(c: char) | OneOf(chars: seq<char>)

  predicate IsHexLower(c: char) {
    ('0' <= c <= '9') || ('a' <= c <= 'f')
  }

  predicate Fits(c: char, cls: CharClass) {
    match cls
    case Hex => IsHexLower(c)
    case Lit(l) => c == l
    case OneOf(chars) => c in chars
  }

  function Repeat(cls: CharClass, n: nat): (r: seq<CharClass>)
    ensures |r| == n && forall k :: 0 <= k < n ==> r[k] == cls
  {
    if n == 0 then [] else [cls] + Repeat(cls, n - 1)
  }

  /** `[a-f0-9]{8}-[a-f0-9]{4}-4[a-f0-9]{3}-[89ab][a-f0-9]{3}-[a-f0-9]{12}` */
  const UuidPattern: seq<CharClass> :=
    Repeat(Hex, 8) + [Lit('-')] + Repeat(Hex, 4) + [Lit('-'), Lit('4')] + Repeat(Hex, 3)
    + [Lit('-'), OneOf("89ab")] + Repeat(Hex, 3) + [Lit('-')] + Repeat(Hex, 12)

  /** Whether `pattern` matches `s` starting at index `i`, one position at a time. */
  function MatchAt(s: string, i: nat, pattern: seq<CharClass>): bool
    decreases |pattern|
  {
    pattern == [] || (i < |s| && Fits(s[i], pattern[0]) && MatchAt(s, i + 1, pattern[1..]))
  }

  /** `RegExp.prototype.test` without anchors: try every start from `start` on. */
  function SearchFrom(s: string, start: nat, pattern: seq<CharClass>): bool
    decreases |s| + 1 - start
  {
    if start > |s| then false
    else MatchAt(s, start, pattern) || SearchFrom(s, start + 1, pattern)
  }

  /** validMatchId: does a UUID-shaped substring occur anywhere in `matchId`. */
  function ValidMatchId(matchId: string): bool {
    SearchFrom(matchId, 0, UuidPattern)
  }

  /** The UUID shape at index `i`, group by group. */
  ghost predicate UuidAt(s: string, i: nat) {
    && i + 36 <= |s|
    && (forall k :: i <= k < i + 8 ==> IsHexLower(s[k]))
    && s[i + 8] == '-'
    && (forall k :: i + 9 <= k < i + 13 ==> IsHexLower(s[k]))
    && s[i + 13] == '-'
    && s[i + 14] == '4'
    && (forall k :: i + 15 <= k < i + 18 ==> IsHexLower(s[k]))
    && s[i + 18] == '-'
    && s[i + 19] in "89ab"
    && (forall k :: i + 20 <= k < i + 23 ==> IsHexLower(s[k]))
    && s[i + 23] == '-'
    && (forall k :: i + 24 <= k < i + 36 ==> IsHexLower(s[k]))
  }

  /** Matching a pattern at `i` is fitting each of its positions in turn. */
  lemma {:induction false} MatchAtPositions(s: string, i: nat, pattern: seq<CharClass>)
    requires i <= |s|
    ensures MatchAt(s, i, pattern) <==>
              i + |pattern| <= |s| && forall k :: 0 <= k < |pattern| ==> Fits(s[i + k], pattern[k])
    decreases |pattern|
  {
    if pattern != [] && i < |s| {
      var rest := pattern[1..];
      MatchAtPositions(s, i + 1, rest);
      if MatchAt(s, i, pattern) {
        assert i < |s| && Fits(s[i], pattern[0]) && MatchAt(s, i + 1, rest);
        forall k | 0 <= k < |pattern|
          ensures Fits(s[i + k], pattern[k])
        {
          if k > 0 {
            assert Fits(s[(i + 1) + (k - 1)], rest[k - 1]);
          }
        }
        assert i + |pattern| <= |s|;
      } else if i + |pattern| <= |s| {
        if Fits(s[i], pattern[0]) {
          var k :| 0 <= k < |rest| && !Fits(s[(i + 1) + k], rest[k]);
          assert !Fits(s[i + (k + 1)], pattern[k + 1]);
        } else {
          assert !Fits(s[i + 0], pattern[0]);
        }
        assert !(forall k :: 0 <= k < |pattern| ==> Fits(s[i + k], pattern[k]));
      }
    }
  }

  /** The pattern's positions, group by group. */
  lemma UuidPatternShape()
    ensures var p := UuidPattern;
            && |p| == 36
            && (forall k :: 0 <= k < 8 ==> p[k] == Hex)
            && p[8] == Lit('-')
            && (forall k :: 9 <= k < 13 ==> p[k] == Hex)
            && p[13] == Lit('-') && p[14] == Lit('4')
            && (forall k :: 15 <= k < 18 ==> p[k] == Hex)
            && p[18] == Lit('-') && p[19] == OneOf("89ab")
            && (forall k :: 20 <= k < 23 ==> p[k] == Hex)
            && p[23] == Lit('-')
            && (forall k :: 24 <= k < 36 ==> p[k] == Hex)
  {
  }

  /** Every position of the pattern fits the 36 characters from `i`. */
  ghost predicate FitsFrom(s: string, i: nat, pattern: seq<CharClass>)
    requires i + |pattern| <= |s|
  {
    forall k :: 0 <= k < |pattern| ==> Fits(s[i + k], pattern[k])
  }

  lemma UuidAtFits(s: string, i: nat)
    requires UuidAt(s, i)
    ensures |UuidPattern| == 36 && FitsFrom(s, i, UuidPattern)
  {
    UuidPatternShape();
    var p := UuidPattern;
    forall k | 0 <= k < 36
      ensures Fits(s[i + k], p[k])
    {
      if k < 8 || 9 <= k < 13 || 15 <= k < 18 || 20 <= k < 23 || 24 <= k {
        assert p[k] == Hex && IsHexLower(s[i + k]);
      }
    }
  }

  lemma FitsUuidAt(s: string, i: nat)
    requires i + 36 <= |s| && |UuidPattern| == 36 && FitsFrom(s, i, UuidPattern)
    ensures UuidAt(s, i)
  {
    UuidPatternShape();
    var p := UuidPattern;
    assert forall k :: i <= k < i + 36 ==> Fits(s[k], p[k - i]) by {
      forall k | i <= k < i + 36
        ensures Fits(s[k], p[k - i])
      {
        assert Fits(s[i + (k - i)], p[k - i]);
      }
    }
  }

  /** The pattern, position by position, is the UUID shape. */
  lemma UuidPatternIsUuidAt(s: string, i: nat)
    requires i <= |s|
    ensures MatchAt(s, i, UuidPattern) <==> UuidAt(s, i)
  {
    MatchAtPositions(s, i, UuidPattern);
    UuidPatternShape();
    if UuidAt(s, i) {
      UuidAtFits(s, i);
    }
    if MatchAt(s, i, UuidPattern) {
      FitsUuidAt(s, i);
    }
  }

  /** An unanchored search succeeds exactly when some start from `start` on matches. */
  lemma {:induction false} SearchFromFinds(s: string, start: nat, pattern: seq<CharClass>)
    ensures SearchFrom(s, start, pattern) <==> exists i :: start <= i <= |s| && MatchAt(s, i, pattern)
    decreases |s| + 1 - start
  {
    if start <= |s| {
      SearchFromFinds(s, start + 1, pattern);
      if MatchAt(s, start, pattern) {
        assert start <= start <= |s| && MatchAt(s, start, pattern);
        assert exists i :: start <= i <= |s| && MatchAt(s, i, pattern);
      } else if SearchFrom(s, start + 1, pattern) {
        var j :| start + 1 <= j <= |s| && MatchAt(s, j, pattern);
        assert start <= j <= |s| && MatchAt(s, j, pattern);
        assert exists i :: start <= i <= |s| && MatchAt(s, i, pattern);
      } else {
        forall j | start <= j <= |s|
          ensures !MatchAt(s, j, pattern)
        {
          if j != start {
            assert !(start + 1 <= j <= |s| && MatchAt(s, j, pattern));
          }
        }
      }
    }
  }

  /** validMatchId holds exactly when a UUID-shaped 36-character window occurs somewhere in the id. */
  lemma ValidMatchIdSpec(matchId: string)
    ensures ValidMatchId(matchId) <==> exists i :: 0 <= i && i + 36 <= |matchId| && UuidAt(matchId, i)
  {
    SearchFromFinds(matchId, 0, UuidPattern);
    if ValidMatchId(matchId) {
      var i :| 0 <= i <= |matchId| && MatchAt(matchId, i, UuidPattern);
      UuidPatternIsUuidAt(matchId, i);
    }
    if exists i :: 0 <= i && i + 36 <= |matchId| && UuidAt(matchId, i) {
      var i :| 0 <= i && i + 36 <= |matchId| && UuidAt(matchId, i);
      UuidPatternIsUuidAt(matchId, i);
    }
  }

  /** No id shorter than a UUID is valid. */
  lemma ShortIdsAreInvalid(matchId: string)
    requires |matchId| < 36
    ensures !ValidMatchId(matchId)
  {
    ValidMatchIdSpec(matchId);
  }

  /** Text around the UUID does not matter: the pattern is not anchored. */
  lemma SurroundedUuidIsValid(prefix: string, uuid: string, suffix: string)
    requires UuidAt(uuid, 0)
    ensures ValidMatchId(prefix + uuid + suffix)
  {
    var s := prefix + uuid + suffix;
    assert forall k :: 0 <= k < |uuid| ==> s[|prefix| + k] == uuid[k];
    assert UuidAt(s, |prefix|);
    ValidMatchIdSpec(s);
  }

  /** A UUID of another version is refused: its only window has '1', not '4', at offset 14. */
  lemma VersionOneIsInvalid()
    ensures !ValidMatchId("3f2b8c1e-9a4d-1e7b-8c21-5d6f7a8b9c0d")
  {
    var bad := "3f2b8c1e-9a4d-1e7b-8c21-5d6f7a8b9c0d";
    assert |bad| == 36 && bad[14] == '1';
    ValidMatchIdSpec(bad);
  }

  // ------------------------------------------------------------ responses

  /** The outcome of a Supabase query: an error, or the rows. */
  datatype Query<T> = QueryError | Rows(rows: seq<T>)

  datatype MatchResponse<T> = MatchFailed(error: string) | MatchFound(matchRow: Option<T>)

  /** getMatch: `query` is the `spectre_match` select filtered on the id it is given. */
  function GetMatch<T>(matchId: string, query: string -> Query<T>): (r: MatchResponse<T>)
    ensures !ValidMatchId(ToLower(matchId)) ==> r == MatchFailed("Invalid match id")
    ensures ValidMatchId(ToLower(matchId)) && query(ToLower(matchId)).QueryError? ==>
              r == MatchFailed("Failed to fetch match data")
    ensures ValidMatchId(ToLower(matchId)) && query(ToLower(matchId)).Rows? ==>
              var rows := query(ToLower(matchId)).rows;
              r == MatchFound(if rows == [] then None else Some(rows[0]))
  {
    var id := ToLower(matchId);
    if !ValidMatchId(id) then MatchFailed("Invalid match id")
    else match query(id)
         case QueryError => MatchFailed("Failed to fetch match data")
         case Rows(rows) => MatchFound(if rows == [] then None else Some(rows[0]))
  }

  /** The parts of the game service's match-data reply the source reads. */
  datatype GameServiceReply = GameServiceReply(error: Option<string>, queueName: string)

  datatype CheckResponse = CheckFailed(error: string) | Ready(reply: GameServiceReply)

  /** checkMatch: `gameService` answers `/game-service/match-data/<id>`. */
  function CheckMatch(matchId: string, gameService: string -> GameServiceReply): (r: CheckResponse)
    ensures !ValidMatchId(ToLower(matchId)) ==> r == CheckFailed("Invalid match id")
    ensures ValidMatchId(ToLower(matchId)) ==>
              var reply := gameService(ToLower(matchId));
              && (TruthyStr(reply.error) ==> r == CheckFailed("Failed to fetch match data"))
              && (!TruthyStr(reply.error) && reply.queueName == "PLACEHOLDER" ==>
                    r == CheckFailed("Match is not ready for processing"))
              && (!TruthyStr(reply.error) && reply.queueName != "PLACEHOLDER" ==> r == Ready(reply))
    ensures r.CheckFailed? ==> r.error != ""
  {
    var id := ToLower(matchId);
    if !ValidMatchId(id) then CheckFailed("Invalid match id")
    else
      var reply := gameService(id);
      if TruthyStr(reply.error) then CheckFailed("Failed to fetch match data")
      else if reply.queueName == "PLACEHOLDER" then CheckFailed("Match is not ready for processing")
      else Ready(reply)
  }

  /** The data-dump service's reply to `/data-dump-service/dump-match/<id>`. */
  datatype DumpServiceReply = DumpServiceReply(error: Option<string>)

  datatype AddResponse = AddFailed(error: string) | Added(reply: DumpServiceReply)

  /** addMatch: validate, check with the game service, then ask the dump service to store the match. */
  function AddMatch(matchId: string, gameService: string -> GameServiceReply, dumpService: string -> DumpServiceReply): (r: AddResponse)
    ensures !ValidMatchId(ToLower(matchId)) ==> r == AddFailed("Invalid match id")
    ensures ValidMatchId(ToLower(matchId)) && CheckMatch(matchId, gameService).CheckFailed? ==>
              r == AddFailed(CheckMatch(matchId, gameService).error)
    ensures ValidMatchId(ToLower(matchId)) && CheckMatch(matchId, gameService).Ready? ==>
              var reply := dumpService(ToLower(matchId));
              && (TruthyStr(reply.error) ==> r == AddFailed("Failed to add match"))
              && (!TruthyStr(reply.error) ==> r == Added(reply))
  {
    var id := ToLower(matchId);
    if !ValidMatchId(id) then AddFailed("Invalid match id")
    else
      var check := CheckMatch(id, gameService);
      ToLowerIdempotent(matchId);
      if check.CheckFailed? then
        if check.error != "" then AddFailed(check.error) else AddFailed("Match does not exist in game service")
      else
        var reply := dumpService(id);
        if TruthyStr(reply.error) then AddFailed("Failed to add match") else Added(reply)
  }

  /** addMatch succeeds only for a valid id whose match the game service reports ready. */
  lemma AddedMeansChecked(matchId: string, gameService: string -> GameServiceReply, dumpService: string -> DumpServiceReply)
    requires AddMatch(matchId, gameService, dumpService).Added?
    ensures ValidMatchId(ToLower(matchId))
    ensures !TruthyStr(gameService(ToLower(matchId)).error)
    ensures gameService(ToLower(matchId)).queueName != "PLACEHOLDER"
  {
  }
}
