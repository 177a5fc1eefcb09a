/**
 * Dump-queue admission and status (dumpPlayer and getDumpStatus in
 * src/dump/dump.ts).
 *
 * The two Redis lists become the sequences `queue` and `priorityQueue`, the
 * per-player cache keys `wv:player_dump:<id>` become the map `cache` keyed by
 * the id, the clock is the parameter `now`, and validPlayerId is a predicate
 * passed in.
 */
module DumpQueue {
  import opened Wrappers
  import opened Text

  /** The cached `{ id, last_updated, initially_dumped }` object. */
  datatype CacheEntry = CacheEntry(id: string, lastUpdated: int, initiallyDumped: bool)

  datatype DumpResult =
    | Rejected(error: string, errorCode: Option<string>)
    | Queued(message: string, queuePosition: int, isPriority: bool)

  datatype DumpStatus = DumpStatus(isPriority: bool, queuePosition: int, initiallyDumped: bool, inProgress: bool)

  /** Milliseconds a player who was never initially dumped must wait between dumps. */
  const RegularCooldown: int := 1800000

  /** Milliseconds an initially dumped player must wait between dumps. */
  const PriorityCooldown: int := 600000

  /** Whether a cache entry still blocks a new request at time `now`. */
  predicate CoolingDown(entry: CacheEntry, now: int) {
    if entry.initiallyDumped then now - entry.lastUpdated < PriorityCooldown
    else now - entry.lastUpdated < RegularCooldown
  }

  /** An initially dumped player is blocked for a shorter time than any other. */
  lemma PriorityWaitsLess(entry: CacheEntry, now: int)
    requires entry.initiallyDumped && CoolingDown(entry, now)
    ensures CoolingDown(entry.(initiallyDumped := false), now)
  {
  }

  /** `LPOS list x`: the index of the first occurrence of `x`, if any. */
  function IndexOf(list: seq<string>, x: string): (r: Option<nat>)
    ensures r.None? <==> x !in list
    ensures r.Some? ==> r.value < |list| && list[r.value] == x && forall j :: 0 <= j < r.value ==> list[j] != x
  {
    if list == [] then None
    else if list[0] == x then Some(0)
    else match IndexOf(list[1..], x)
         case None => None
         case Some(k) => Some(k + 1)
  }

  predicate NoUpper(s: string) {
    forall i :: 0 <= i < |s| ==> !IsUpper(s[i])
  }

  predicate Distinct(s: seq<string>) {
    forall i, j :: 0 <= i < j < |s| ==> s[i] != s[j]
  }

  class DumpState {
    var queue: seq<string>
    var priorityQueue: seq<string>
    var cache: map<string, CacheEntry>

    /**
     * What a sequence of non-overlapping dumpPlayer calls keeps true: no id
     * is queued twice, in one queue or across both, every queued id is
     * lower-case, and every queued id has a cache entry.
     */
    ghost predicate Valid()
      reads this
    {
      && Distinct(queue) && Distinct(priorityQueue)
      && (forall id :: id in queue ==> id !in priorityQueue)
      && (forall id :: id in queue ==> NoUpper(id) && id in cache)
      && (forall id :: id in priorityQueue ==> NoUpper(id) && id in cache)
    }

    constructor()
      ensures queue == [] && priorityQueue == [] && cache == map[]
      ensures Valid()
    {
      queue, priorityQueue, cache := [], [], map[];
    }

    /**
     * dumpPlayer: lower-case the id; reject an invalid id, an id already in
     * either queue, or an id still cooling down; otherwise append it to the
     * priority queue when its cache entry says it was initially dumped and to
     * the regular queue otherwise, and stamp its cache entry with `now`.
     */
    method DumpPlayer(playerId: string, now: int, validPlayerId: string -> bool) returns (r: DumpResult)
      requires Valid()
      modifies this
      ensures Valid()
      ensures var id := ToLower(playerId);
              !validPlayerId(id) ==> r == Rejected("Invalid player id", None) && unchanged(this)
      ensures var id := ToLower(playerId);
              validPlayerId(id) && (id in old(priorityQueue) || id in old(queue)) ==>
                r == Rejected("Player is already in the dump queue!", Some("IN_QUEUE")) && unchanged(this)
      ensures var id := ToLower(playerId);
              validPlayerId(id) && id !in old(priorityQueue) && id !in old(queue)
              && id in old(cache) && CoolingDown(old(cache)[id], now) ==>
                r == Rejected("Player already dumped recently!", None) && unchanged(this)
      ensures var id := ToLower(playerId);
              var priority := id in old(cache) && old(cache)[id].initiallyDumped;
              validPlayerId(id) && id !in old(priorityQueue) && id !in old(queue)
              && !(id in old(cache) && CoolingDown(old(cache)[id], now)) ==>
                && cache == old(cache)[id := CacheEntry(id, now, priority)]
                && (priority ==> && priorityQueue == old(priorityQueue) + [id] && queue == old(queue)
                                 && r == Queued("Player added to priority dump queue.", |old(priorityQueue)| + 1, true))
                && (!priority ==> && queue == old(queue) + [id] && priorityQueue == old(priorityQueue)
                                  && r == Queued("Player added to dump queue.", |old(queue)| + 1, false))
    {
      var id := ToLower(playerId);
      if !validPlayerId(id) {
        return Rejected("Invalid player id", None);
      }
      var cached := if id in cache then Some(cache[id]) else None;
      if IndexOf(priorityQueue, id).Some? || IndexOf(queue, id).Some? {
        return Rejected("Player is already in the dump queue!", Some("IN_QUEUE"));
      }
      if cached.Some? {
        if now - cached.value.lastUpdated < RegularCooldown && !cached.value.initiallyDumped {
          return Rejected("Player already dumped recently!", None);
        }
        if now - cached.value.lastUpdated < PriorityCooldown && cached.value.initiallyDumped {
          return Rejected("Player already dumped recently!", None);
        }
      }
      assert NoUpper(id);
      r := Admit(id, now, cached.Some? && cached.value.initiallyDumped);
    }

    /** The admission step of dumpPlayer: queue the id, stamp its cache entry, report its 1-based position. */
    method Admit(id: string, now: int, priority: bool) returns (r: DumpResult)
      requires Valid() && NoUpper(id) && id !in queue && id !in priorityQueue
      modifies this
      ensures Valid()
      ensures cache == old(cache)[id := CacheEntry(id, now, priority)]
      ensures priority ==> && priorityQueue == old(priorityQueue) + [id] && queue == old(queue)
                           && r == Queued("Player added to priority dump queue.", |old(priorityQueue)| + 1, true)
      ensures !priority ==> && queue == old(queue) + [id] && priorityQueue == old(priorityQueue)
                            && r == Queued("Player added to dump queue.", |old(queue)| + 1, false)
    {
      var queuePosition;
      if priority {
        queuePosition := |priorityQueue|;
        priorityQueue := priorityQueue + [id];
      } else {
        queuePosition := |queue|;
        queue := queue + [id];
      }
      cache := cache[id := CacheEntry(id, now, priority)];
      r := Queued(if priority then "Player added to priority dump queue." else "Player added to dump queue.",
                  queuePosition + 1, priority);
    }

    /**
     * getDumpStatus as written: the regular queue alone is searched, and
     * `queue_position ? queue_position + 1 : -1` treats index 0 like absence.
     */
    function GetDumpStatusAsWritten(playerId: string): (s: DumpStatus)
      reads this
      ensures var id := ToLower(playerId);
              && s.inProgress == (id in queue)
              && s.isPriority == s.initiallyDumped == (id in cache && cache[id].initiallyDumped)
              && (IndexOf(queue, id) == Some(0) || id !in queue <==> s.queuePosition == -1)
              && (forall k :: IndexOf(queue, id) == Some(k) && k > 0 ==> s.queuePosition == k + 1)
    {
      var id := ToLower(playerId);
      var flag := id in cache && cache[id].initiallyDumped;
      var position := IndexOf(queue, id);
      DumpStatus(flag, if position.Some? && position.value != 0 then position.value + 1 else -1, flag, position.Some?)
    }

    /** getDumpStatus as evidently intended: a queued player reports its 1-based position. */
    function GetDumpStatus(playerId: string): (s: DumpStatus)
      reads this
      ensures var id := ToLower(playerId);
              && s.inProgress == (id in queue)
              && s.isPriority == s.initiallyDumped == (id in cache && cache[id].initiallyDumped)
              && (id !in queue ==> s.queuePosition == -1)
              && (id in queue ==> 1 <= s.queuePosition <= |queue| && queue[s.queuePosition - 1] == id)
              && (id in queue ==> s.queuePosition == IndexOf(queue, id).value + 1
                                  && forall j :: 0 <= j < s.queuePosition - 1 ==> queue[j] != id)
    {
      var id := ToLower(playerId);
      var flag := id in cache && cache[id].initiallyDumped;
      var position := IndexOf(queue, id);
      DumpStatus(flag, if position.Some? then position.value + 1 else -1, flag, position.Some?)
    }

    /** The two readings differ exactly for the player at the head of the regular queue. */
    lemma HeadOfQueueReportsMinusOne(playerId: string)
      requires |queue| > 0 && queue[0] == ToLower(playerId)
      ensures GetDumpStatusAsWritten(playerId).inProgress
      ensures GetDumpStatusAsWritten(playerId).queuePosition == -1
      ensures GetDumpStatus(playerId).queuePosition == 1
    {
    }

    /** A player the regular dump accepted is reported in progress, at the position it was given. */
    lemma AcceptedIsReported(playerId: string, position: int)
      requires Valid()
      requires ToLower(playerId) in queue && queue[|queue| - 1] == ToLower(playerId) && position == |queue|
      ensures GetDumpStatus(playerId).inProgress
      ensures GetDumpStatus(playerId).queuePosition == position
    {
      var id := ToLower(playerId);
      var k := IndexOf(queue, id).value;
      assert queue[k] == queue[|queue| - 1];
    }
  }
}
