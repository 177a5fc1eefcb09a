/**
 * Steam id resolution (src/steam/steam.ts): the anchored SteamID64 check and
 * the early-return chain of getPlayerIdFromSteamId. The identity service is a
 * function passed in, applied to the Steam id.
 */
module SteamLookup {
  import opened Wrappers
  import opened Text

  /** Number of digits in a SteamID64. */
  const SteamIdLength: nat := 17

  /** `\d*` anchored at both ends: every character is an ASCII digit. */
  function AllDigits(s: string): (b: bool)
    ensures b <==> forall i :: 0 <= i < |s| ==> IsDigit(s[i])
  {
    s == [] || (IsDigit(s[0]) && AllDigits(s[1..]))
  }

  /** isValidSteamId: `^(\d{17})$`. */
  function IsValidSteamId(steamId: string): (b: bool)
    ensures b <==> |steamId| == SteamIdLength && forall i :: 0 <= i < |steamId| ==> IsDigit(steamId[i])
  {
    |steamId| == SteamIdLength && AllDigits(steamId)
  }

  /** The fields of the identity service's JSON reply that the source reads. */
  datatype IdentityReply = IdentityReply(error: Option<string>, playerId: Option<string>)

  datatype SteamResponse = SteamFailed(error: string) | SteamOk(playerId: string)

  /** getPlayerIdFromSteamId: `identity` answers `getPlayerIdentityFromPlatform/STEAM/<id>`. */
  function GetPlayerIdFromSteamId(steamId: string, identity: string -> IdentityReply): (r: SteamResponse)
    ensures !IsValidSteamId(steamId) ==> r == SteamFailed("Invalid Steam ID")
    ensures IsValidSteamId(steamId) ==>
              var reply := identity(steamId);
              && (TruthyStr(reply.error) ==> r == SteamFailed(reply.error.value))
              && (!TruthyStr(reply.error) && !TruthyStr(reply.playerId) ==> r == SteamFailed("Player ID not found"))
              && (!TruthyStr(reply.error) && TruthyStr(reply.playerId) && reply.playerId.value == "ERROR" ==>
                    r == SteamFailed("Player not found"))
              && (!TruthyStr(reply.error) && TruthyStr(reply.playerId) && reply.playerId.value != "ERROR" ==>
                    r == SteamOk(reply.playerId.value))
  {
    if !IsValidSteamId(steamId) then SteamFailed("Invalid Steam ID")
    else
      var reply := identity(steamId);
      if TruthyStr(reply.error) then SteamFailed(reply.error.value)
      else if !TruthyStr(reply.playerId) then SteamFailed("Player ID not found")
      else if reply.playerId.value == "ERROR" then SteamFailed("Player not found")
      else SteamOk(reply.playerId.value)
  }

  /** A resolved player id is never empty and never the service's "ERROR" marker, and came from a valid Steam id. */
  lemma ResolvedIdIsReal(steamId: string, identity: string -> IdentityReply)
    requires GetPlayerIdFromSteamId(steamId, identity).SteamOk?
    ensures IsValidSteamId(steamId)
    ensures var id := GetPlayerIdFromSteamId(steamId, identity).playerId;
            id != "" && id != "ERROR" && identity(steamId).playerId == Some(id)
  {
  }

  /** A reply error wins over whatever player id came with it. */
  lemma ErrorBeforePlayerId(steamId: string, identity: string -> IdentityReply)
    requires IsValidSteamId(steamId) && TruthyStr(identity(steamId).error)
    ensures GetPlayerIdFromSteamId(steamId, identity) == SteamFailed(identity(steamId).error.value)
  {
  }

  /** Ids of any other length, or with a non-digit, are refused. */
  lemma SteamIdExamples()
    ensures !IsValidSteamId("7656119800000000")
    ensures !IsValidSteamId("7656119800000000x")
  {
    assert !IsDigit("7656119800000000x"[16]);
  }
}
