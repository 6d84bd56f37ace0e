/** The shared table of flood counters: immutable states behind pointers, an update loop that
    replaces a pointer only if nobody else did, and the cleaning pass. */
module AntifloodTable {
  import opened Wrappers
  import opened Antiflood

  datatype Key = Key(chat: int, user: int)

  /** A published counter. Nothing in it is ever assigned again, the ID list included: an
      update copies the list before it appends to it. */
  class FloodControl {
    const userId: int
    const messageCount: nat
    const messageIDs: array<int>
    const lastActivity: int

    constructor (userId: int, messageCount: nat, messageIDs: array<int>, lastActivity: int)
      ensures this.userId == userId && this.messageCount == messageCount
      ensures this.messageIDs == messageIDs && this.lastActivity == lastActivity
    {
      this.userId, this.messageCount := userId, messageCount;
      this.messageIDs, this.lastActivity := messageIDs, lastActivity;
    }

    function Value(): Flood
      reads messageIDs
    {
      Flood(userId, messageCount, messageIDs[..], lastActivity)
    }
  }

  /** What other goroutines do to the table between a load and the swap after it: nothing, or
      whatever leaves it with these entries. */
  datatype Rival = Quiet | Left(entries: map<Key, FloodControl>)

  /** The table right before swap number `n`. */
  function TableAt(start: map<Key, FloodControl>, rivals: seq<Rival>, n: nat): map<Key, FloodControl>
    requires n <= |rivals|
    decreases n
  {
    var before := if n == 0 then start else TableAt(start, rivals, n - 1);
    if n < |rivals| && rivals[n].Left? then rivals[n].entries else before
  }

  function Held(entries: map<Key, FloodControl>, key: Key): Option<FloodControl> {
    if key in entries then Some(entries[key]) else None
  }

  /** Attempt `k` lost: what the table held for the key changed between its load and its swap. */
  predicate LostTo(start: map<Key, FloodControl>, rivals: seq<Rival>, k: nat, key: Key) {
    && k < |rivals|
    && Held(TableAt(start, rivals, k), key) != Held(if k == 0 then start else TableAt(start, rivals, k - 1), key)
  }

  /** The list an update publishes: a copy of the old one with the message appended, cut to
      its newest `most` IDs. */
  method Appended(ids: array<int>, msg: int, most: nat) returns (next: array<int>)
    ensures fresh(next)
    ensures next[..] == KeepLast(ids[..] + [msg], most)
    ensures ids.Length < most ==> next[..] == ids[..] + [msg]
    ensures ids.Length >= most > 0 ==> next[..] == ids[ids.Length - most + 1..] + [msg]
  {
    var n := ids.Length;
    next := new int[n + 1];
    forall i | 0 <= i < n {
      next[i] := ids[i];
    }
    next[n] := msg;
    assert next[..] == ids[..] + [msg];
    if next.Length > most {
      var tail := new int[most];
      forall i | 0 <= i < most {
        tail[i] := next[next.Length - most + i];
      }
      assert tail[..] == next[..][next.Length - most..];
      assert tail[..] == KeepLast(ids[..] + [msg], most);
      next := tail;
    } else {
      assert next[..] == KeepLast(ids[..] + [msg], most);
    }
  }

  function ValueOf(loaded: Option<FloodControl>): Option<Flood>
    reads if loaded.Some? then {loaded.value.messageIDs} else {}
  {
    if loaded.Some? then Some(loaded.value.Value()) else None
  }

  /** The state one attempt computes from what it loaded, in a new object with a new list. */
  method NextState(loaded: Option<FloodControl>, user: int, msg: int, limit: nat, now: int)
    returns (stored: FloodControl, punish: bool, current: Flood)
    ensures fresh(stored) && fresh(stored.messageIDs)
    ensures Update(stored.Value(), punish, current) == Step(ValueOf(loaded), user, msg, limit, now)
  {
    var none := new int[0];
    var keep := loaded.Some? && now - loaded.value.lastActivity <= IDLE && loaded.value.userId != 0;
    var ids := Appended(if keep then loaded.value.messageIDs else none, msg, limit + SLACK);
    var userId := if keep then loaded.value.userId else user;
    var count := (if keep then loaded.value.messageCount else 0) + 1;
    current := Flood(userId, count, ids[..], now);
    punish := count > limit;
    if punish {
      stored := new FloodControl(0, 0, none, now);
    } else {
      stored := new FloodControl(userId, count, ids, now);
    }
  }

  class FloodTable {
    var entries: map<Key, FloodControl>

    constructor ()
      ensures entries == map[]
    {
      entries := map[];
    }

    /** Counts one message; a limit of 0 counts nothing. Attempt `tries` wins: it swaps in
        exactly the next state of the counter it finds there, every attempt before it lost to
        a rival that changed this very key, and no state published earlier is touched. */
    method UpdateFlood(key: Key, msg: int, limit: nat, now: int, rivals: seq<Rival>)
      returns (punish: bool, burst: Flood, tries: nat)
      modifies this
      ensures limit == 0 ==> !punish && entries == old(entries)
      ensures tries <= |rivals|
      ensures forall k :: 0 <= k < tries ==> LostTo(old(entries), rivals, k, key)
      ensures limit != 0 ==>
              var at := TableAt(old(entries), rivals, tries);
              && key in entries && entries == at[key := entries[key]] && fresh(entries[key])
              && Update(entries[key].Value(), punish, burst) == Step(ValueOf(Held(at, key)), key.user, msg, limit, now)
      ensures tries > 0 ==> rivals[tries - 1].Left?
      ensures limit != 0 ==>
                var at := if tries < |rivals| && rivals[tries].Left? then rivals[tries].entries
                          else if tries == 0 then old(entries) else rivals[tries - 1].entries;
                entries == at[key := entries[key]]
    {
      tries := 0;
      if limit == 0 {
        return false, Flood(0, 0, [], 0), 0;
      }
      while true
        invariant tries <= |rivals|
        invariant entries == if tries == 0 then old(entries) else TableAt(old(entries), rivals, tries - 1)
        invariant tries > 0 ==> rivals[tries - 1].Left?
        invariant forall k :: 0 <= k < tries ==> LostTo(old(entries), rivals, k, key)
        decreases |rivals| - tries
      {
        var loaded := Held(entries, key);
        var stored;
        stored, punish, burst := NextState(loaded, key.user, msg, limit, now);
        if tries < |rivals| && rivals[tries].Left? {
          entries := rivals[tries].entries;
        }
        if Held(entries, key) == loaded {
          entries := entries[key := stored];
          return;
        }
        tries := tries + 1;
      }
    }

    /** Drops exactly the counters that have been silent for more than ten minutes. */
    method CleanupOnce(now: int)
      modifies this
      ensures entries == map k | k in old(entries) && now - old(entries)[k].lastActivity <= 600 :: old(entries)[k]
    {
      var keys := entries.Keys;
      while keys != {}
        invariant keys <= old(entries).Keys
        invariant entries == map k | k in old(entries) &&
                                     (k in keys || !(now - old(entries)[k].lastActivity > STALE)) :: old(entries)[k]
        decreases |keys|
      {
        var key :| key in keys;
        if now - entries[key].lastActivity > STALE {
          entries := entries - {key};
        }
        keys := keys - {key};
      }
    }
  }
}
