/**
 * The match-history part of getPlayerFullProfile (src/player/info.ts):
 * normalise every participation row, drop the ones that yield no match, sort
 * the list in place newest first, and fold the sorted list into the extended
 * statistics.
 */
module FullProfile {
  import opened Wrappers
  import opened Season
  import opened MatchNormalizer
  import opened ExtendedStats

  /** The sort key: `match_date.getTime()`. */
  function Key(m: MatchRecord): int {
    Instant(m.matchDate)
  }

  /** Newest first: no match is followed by a later one. */
  predicate NewestFirst(s: seq<MatchRecord>) {
    forall i, j :: 0 <= i < j < |s| ==> Key(s[j]) <= Key(s[i])
  }

  /**
   * `t` with `x` placed after every match at least as new as it: `x` moves
   * left only past strictly older matches, so among equal dates the earlier
   * element stays first.
   */
  function Place(t: seq<MatchRecord>, x: MatchRecord): seq<MatchRecord> {
    if t == [] || Key(x) <= Key(t[|t| - 1]) then t + [x]
    else Place(t[..|t| - 1], x) + [t[|t| - 1]]
  }

  /** The stable newest-first order: each element in turn placed into the ordered list of those before it. */
  function StableNewestFirst(s: seq<MatchRecord>): seq<MatchRecord> {
    if s == [] then []
    else Place(StableNewestFirst(s[..|s| - 1]), s[|s| - 1])
  }

  /** Placing a match adds exactly that match. */
  lemma {:induction false} PlacePermutes(t: seq<MatchRecord>, x: MatchRecord)
    ensures multiset(Place(t, x)) == multiset(t) + multiset{x}
  {
    if t != [] && Key(t[|t| - 1]) < Key(x) {
      assert t == t[..|t| - 1] + [t[|t| - 1]];
      PlacePermutes(t[..|t| - 1], x);
    }
  }

  /** The stable order is a permutation. */
  lemma {:induction false} StableNewestFirstPermutes(s: seq<MatchRecord>)
    ensures multiset(StableNewestFirst(s)) == multiset(s)
  {
    if s != [] {
      assert s == s[..|s| - 1] + [s[|s| - 1]];
      StableNewestFirstPermutes(s[..|s| - 1]);
      PlacePermutes(StableNewestFirst(s[..|s| - 1]), s[|s| - 1]);
    }
  }

  /** A match no newer than every element of a newest-first list may follow it. */
  lemma AppendOlder(p: seq<MatchRecord>, y: MatchRecord)
    requires NewestFirst(p)
    requires forall z :: z in p ==> Key(y) <= Key(z)
    ensures NewestFirst(p + [y])
  {
    var r := p + [y];
    forall i, j | 0 <= i < j < |r|
      ensures Key(r[j]) <= Key(r[i])
    {
      assert r[i] == p[i] && r[i] in p;
    }
  }

  /** Placing an element into a newest-first list keeps it newest first. */
  lemma {:induction false} PlaceNewestFirst(t: seq<MatchRecord>, x: MatchRecord)
    requires NewestFirst(t)
    ensures NewestFirst(Place(t, x))
  {
    if t == [] || Key(x) <= Key(t[|t| - 1]) {
      forall z | z in t
        ensures Key(x) <= Key(z)
      {
        var k :| 0 <= k < |t| && t[k] == z;
      }
      AppendOlder(t, x);
    } else {
      var u, last := t[..|t| - 1], t[|t| - 1];
      assert NewestFirst(u);
      PlaceNewestFirst(u, x);
      var p := Place(u, x);
      PlacePermutes(u, x);
      forall z | z in p
        ensures Key(last) <= Key(z)
      {
        assert z in multiset(p);
        if z != x {
          assert z in multiset(u);
          var k :| 0 <= k < |u| && u[k] == z;
          assert t[k] == z;
        }
      }
      AppendOlder(p, last);
    }
  }

  lemma {:induction false} StableNewestFirstIsNewestFirst(s: seq<MatchRecord>)
    ensures NewestFirst(StableNewestFirst(s))
  {
    if s != [] {
      StableNewestFirstIsNewestFirst(s[..|s| - 1]);
      PlaceNewestFirst(StableNewestFirst(s[..|s| - 1]), s[|s| - 1]);
    }
  }

  /** `[y]` when `y` is dated `k`, nothing otherwise. */
  function OfDate(y: MatchRecord, k: int): seq<MatchRecord> {
    if Key(y) == k then [y] else []
  }

  /** The matches of `s` whose date is `k`, in their order in `s`. */
  function DatedAt(s: seq<MatchRecord>, k: int): seq<MatchRecord> {
    if s == [] then [] else DatedAt(s[..|s| - 1], k) + OfDate(s[|s| - 1], k)
  }

  lemma DatedAtAppend(s: seq<MatchRecord>, x: MatchRecord, k: int)
    ensures DatedAt(s + [x], k) == DatedAt(s, k) + OfDate(x, k)
  {
    assert (s + [x])[..|s|] == s;
  }

  /** Placing `x` does not reorder it relative to the matches of its own date already in the list. */
  lemma {:induction false} PlaceKeepsTies(t: seq<MatchRecord>, x: MatchRecord, k: int)
    ensures DatedAt(Place(t, x), k) == DatedAt(t, k) + OfDate(x, k)
  {
    if t == [] || Key(x) <= Key(t[|t| - 1]) {
      DatedAtAppend(t, x, k);
    } else {
      var u, last := t[..|t| - 1], t[|t| - 1];
      var p := Place(u, x);
      assert Place(t, x) == p + [last];
      PlaceKeepsTies(u, x, k);
      DatedAtAppend(p, last, k);
      assert DatedAt(t, k) == DatedAt(u, k) + OfDate(last, k);
      if Key(x) == k {
        assert OfDate(last, k) == [];
        assert DatedAt(t, k) == DatedAt(u, k);
        assert DatedAt(p + [last], k) == DatedAt(p, k);
      } else {
        assert OfDate(x, k) == [];
        assert DatedAt(p, k) == DatedAt(u, k);
      }
    }
  }

  /** Stability: for every date, the matches of that date keep their relative order. */
  lemma {:induction false} StableNewestFirstIsStable(s: seq<MatchRecord>, k: int)
    ensures DatedAt(StableNewestFirst(s), k) == DatedAt(s, k)
  {
    if s != [] {
      var p, last := s[..|s| - 1], s[|s| - 1];
      StableNewestFirstIsStable(p, k);
      PlaceKeepsTies(StableNewestFirst(p), last, k);
    }
  }

  /**
   * Insertion of `x` into `prefix` is under way in `s`: `x` sits at `j`, and
   * placing it into what lies before it, followed by what lies behind it up
   * to `i`, is the finished insertion.
   */
  ghost predicate Inserting(s: seq<MatchRecord>, prefix: seq<MatchRecord>, x: MatchRecord, i: int, j: int) {
    && 0 <= j <= i < |s|
    && s[j] == x
    && Place(prefix, x) == Place(s[..j], x) + s[j + 1..i + 1]
  }

  /** `x` moves past a strictly older last element. */
  lemma PlacePast(s: seq<MatchRecord>, j: int, x: MatchRecord)
    requires 0 < j <= |s| && Key(s[j - 1]) < Key(x)
    ensures Place(s[..j], x) == Place(s[..j - 1], x) + [s[j - 1]]
  {
    assert s[..j][..j - 1] == s[..j - 1];
  }

  /** What exchanging `s[j - 1]` and `s[j]` does to the slices around them. */
  lemma SwapSlices(s: seq<MatchRecord>, j: int, i: int)
    requires 0 < j <= i < |s|
    ensures var u := s[j - 1 := s[j]][j := s[j - 1]];
            && u[j - 1] == s[j]
            && u[..j - 1] == s[..j - 1]
            && u[j..i + 1] == [s[j - 1]] + s[j + 1..i + 1]
            && u[i + 1..] == s[i + 1..]
  {
  }

  /** Exchanging `x` with a strictly older neighbour keeps the insertion under way, one slot to the left. */
  lemma InsertingStep(s: seq<MatchRecord>, prefix: seq<MatchRecord>, x: MatchRecord, i: int, j: int)
    requires Inserting(s, prefix, x, i, j) && j > 0 && Key(s[j - 1]) < Key(s[j])
    ensures Inserting(s[j - 1 := s[j]][j := s[j - 1]], prefix, x, i, j - 1)
    ensures s[j - 1 := s[j]][j := s[j - 1]][i + 1..] == s[i + 1..]
  {
    PlacePast(s, j, x);
    SwapSlices(s, j, i);
    assert Place(s[..j], x) + s[j + 1..i + 1] == Place(s[..j - 1], x) + ([s[j - 1]] + s[j + 1..i + 1]);
  }

  /** Once `x` is behind a match at least as new, or at the front, the insertion is finished. */
  lemma InsertingDone(s: seq<MatchRecord>, prefix: seq<MatchRecord>, x: MatchRecord, i: int, j: int)
    requires Inserting(s, prefix, x, i, j) && (j == 0 || Key(s[j]) <= Key(s[j - 1]))
    ensures s[..i + 1] == Place(prefix, x)
  {
    assert Place(s[..j], x) == s[..j] + [x];
    assert s[..i + 1] == s[..j] + [x] + s[j + 1..i + 1];
  }

  /**
   * Insert `a[i]` into the ordered prefix `a[..i]` by swapping it leftwards
   * past every strictly older match.
   */
  method InsertNewestFirst(a: array<MatchRecord>, i: int)
    requires 0 <= i < a.Length
    modifies a
    ensures a[..i + 1] == Place(old(a[..i]), old(a[i]))
    ensures a[i + 1..] == old(a[i + 1..])
  {
    ghost var prefix := a[..i];
    ghost var x := a[i];
    var j := i;
    assert a[..i] == prefix && a[i + 1..i + 1] == [];
    assert Inserting(a[..], prefix, x, i, j);
    while j > 0 && Key(a[j - 1]) < Key(a[j])
      invariant a[i + 1..] == old(a[i + 1..])
      invariant Inserting(a[..], prefix, x, i, j)
    {
      InsertingStep(a[..], prefix, x, i, j);
      Swap(a, j);
      j := j - 1;
    }
    InsertingDone(a[..], prefix, x, i, j);
  }

  /** Exchange `a[j - 1]` and `a[j]`. */
  method Swap(a: array<MatchRecord>, j: int)
    requires 0 < j < a.Length
    modifies a
    ensures a[..] == old(a[..])[j - 1 := old(a[j])][j := old(a[j - 1])]
  {
    a[j - 1], a[j] := a[j], a[j - 1];
  }

  /** The stable order of a longer prefix places its last element into that of the shorter one. */
  lemma StableNewestFirstStep(s: seq<MatchRecord>, i: int)
    requires 0 <= i < |s|
    ensures StableNewestFirst(s[..i + 1]) == Place(StableNewestFirst(s[..i]), s[i])
  {
    assert s[..i + 1][..i] == s[..i];
  }

  /**
   * One pass of the outer loop: if `s` holds the stable order of the first `i`
   * elements of `original` followed by the rest of it, inserting `s[i]` gives
   * `t`, holding the stable order of the first `i + 1` followed by the rest.
   */
  lemma SortingStep(original: seq<MatchRecord>, s: seq<MatchRecord>, t: seq<MatchRecord>, i: int)
    requires 0 <= i < |s| == |original| == |t|
    requires s[..i] == StableNewestFirst(original[..i]) && s[i..] == original[i..]
    requires t[..i + 1] == Place(s[..i], s[i]) && t[i + 1..] == s[i + 1..]
    ensures t[..i + 1] == StableNewestFirst(original[..i + 1]) && t[i + 1..] == original[i + 1..]
  {
    assert s[i] == s[i..][0] == original[i];
    assert s[i + 1..] == s[i..][1..];
    StableNewestFirstStep(original, i);
  }

  /** `matches.sort((a, b) => b.match_date.getTime() - a.match_date.getTime())`. */
  method SortNewestFirst(a: array<MatchRecord>)
    modifies a
    ensures a[..] == StableNewestFirst(old(a[..]))
    ensures NewestFirst(a[..])
    ensures multiset(a[..]) == multiset(old(a[..]))
  {
    ghost var original := a[..];
    var i := 0;
    while i < a.Length
      invariant 0 <= i <= a.Length
      invariant a[..i] == StableNewestFirst(original[..i])
      invariant a[i..] == original[i..]
    {
      ghost var s := a[..];
      assert a[..i] == s[..i] && a[i + 1..] == s[i + 1..];
      InsertNewestFirst(a, i);
      SortingStep(original, s, a[..], i);
      i := i + 1;
    }
    assert a[..a.Length] == a[..];
    assert original[..a.Length] == original;
    StableNewestFirstIsNewestFirst(original);
    StableNewestFirstPermutes(original);
  }

  // ------------------------------------------------------ the whole pipeline

  /** What getPlayerProfile answered: an error object, or the profile itself. */
  datatype ProfileLookup<P> = LookupFailed(error: string) | Found(profile: P)

  /** A spectre_player row with its nested spectre_match_player relation. */
  datatype PlayerRow = PlayerRow(matchPlayers: Option<seq<RawParticipation>>)

  /** The nested query's answer: an error, or the (possibly null) list of player rows. */
  datatype Query = QueryFailed(message: string) | QueryOk(data: Option<seq<PlayerRow>>)

  /** The full profile, or the error object returned in its place. */
  datatype FullProfileResult<P> =
    | ProfileError(error: string)
    | Profile(profile: P, matches: seq<MatchRecord>, extendedStats: Option<Report>)

  /** `data[0]?.spectre_match_player`, kept only when it is a non-empty list. */
  function Participations(data: Option<seq<PlayerRow>>): (r: Option<seq<RawParticipation>>)
    ensures r.Some? <==> data.Some? && |data.value| > 0 && data.value[0].matchPlayers.Some?
                         && |data.value[0].matchPlayers.value| > 0
    ensures r.Some? ==> r.value == data.value[0].matchPlayers.value
  {
    if data.None? || |data.value| == 0 then None
    else if data.value[0].matchPlayers.None? || |data.value[0].matchPlayers.value| == 0 then None
    else data.value[0].matchPlayers
  }

  /**
   * getPlayerFullProfile: errors are passed through; a player without match
   * rows gets an empty history and no extended statistics; otherwise the
   * history is every normalisable row, newest first, and the statistics fold
   * that sorted history.
   */
  method GetPlayerFullProfile<P>(playerId: string, lookup: ProfileLookup<P>, query: Query)
    returns (r: FullProfileResult<P>)
    ensures lookup.LookupFailed? ==> r == ProfileError(lookup.error)
    ensures lookup.Found? && query.QueryFailed? ==> r == ProfileError(query.message)
    ensures lookup.Found? && query.QueryOk? && Participations(query.data).None?
            ==> r == Profile(lookup.profile, [], None)
    ensures lookup.Found? && query.QueryOk? && Participations(query.data).Some? ==>
              && r.Profile? && r.profile == lookup.profile
              && r.matches == StableNewestFirst(ProcessAll(Participations(query.data).value))
              && NewestFirst(r.matches)
              && multiset(r.matches) == multiset(ProcessAll(Participations(query.data).value))
              && r.extendedStats == Some(FinalizeReport(Aggregate(r.matches, playerId)))
  {
    if lookup.LookupFailed? {
      return ProfileError(lookup.error);
    }
    if query.QueryFailed? {
      return ProfileError(query.message);
    }
    var rows := Participations(query.data);
    if rows.None? {
      return Profile(lookup.profile, [], None);
    }
    var processed := ProcessAll(rows.value);
    var a := new MatchRecord[|processed|](i requires 0 <= i < |processed| => processed[i]);
    assert a[..] == processed;
    SortNewestFirst(a);
    var stats := CalculateExtendedStats(a[..], playerId);
    r := Profile(lookup.profile, a[..], Some(stats));
  }

  /** In a newest-first list, each of the first `k` matches is no older than any match after them;
      so the twenty matches the last-20 bucket draws its lines from are no older than any match
      left out of it (whether or not each of them holds a line of the subject). */
  lemma NewestFirstSplit(s: seq<MatchRecord>, k: nat)
    requires NewestFirst(s) && k <= |s|
    ensures forall x, y :: x in s[..k] && y in s[k..] ==> Key(y) <= Key(x)
  {
    forall x, y | x in s[..k] && y in s[k..]
      ensures Key(y) <= Key(x)
    {
      var i :| 0 <= i < k && s[i] == x;
      var j :| k <= j < |s| && s[j] == y;
    }
  }
}
