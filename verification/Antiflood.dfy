/** The flood counter of one member of one chat: a counter with the IDs of the messages it
    counted, reset by a punishment and by an idle minute, and dropped by a cleaner once it is
    ten minutes old. */
module Antiflood {
  import opened Wrappers

  datatype Flood = Flood(userId: int, count: int, ids: seq<int>, last: int)

  /** What one update stores, whether it punishes, and the state it hands to its caller. */
  datatype Update = Update(stored: Flood, punish: bool, current: Flood)

  const IDLE := 60
  const STALE := 600
  const SLACK: nat := 5
  /** How long an update may take between reading its clock and taking effect before a cleaner
      can come in between and be noticed. */
  const STALL := STALE - IDLE

  function KeepLast(ids: seq<int>, most: nat): seq<int> {
    if |ids| > most then ids[|ids| - most..] else ids
  }

  /** The state an update counts on from: the stored one, or a new one after an idle minute or
      a punishment. */
  function Base(entry: Option<Flood>, userId: int, now: int): Flood {
    if entry.Some? && now - entry.value.last <= IDLE && entry.value.userId != 0
    then entry.value else Flood(userId, 0, [], now)
  }

  function Step(entry: Option<Flood>, userId: int, msg: int, limit: nat, now: int): Update {
    Count(Base(entry, userId, now), msg, limit, now)
  }

  function Count(base: Flood, msg: int, limit: nat, now: int): Update {
    var current := Flood(base.userId, base.count + 1, KeepLast(base.ids + [msg], limit + SLACK), now);
    if current.count > limit then Update(Flood(0, 0, [], now), true, current) else Update(current, false, current)
  }

  /** What reached a counter, in the order it took effect: an update by call `who`, or a
      cleaner's deletion. */
  datatype Op = Hit(who: nat, msg: int, limit: nat, now: int) | Clear(now: int)

  predicate Stale(entry: Option<Flood>, now: int) {
    entry.Some? && now - entry.value.last > STALE
  }

  /** A limit of 0 turns the counter off. */
  function After(entry: Option<Flood>, userId: int, op: Op): Option<Flood> {
    match op
    case Hit(_, msg, limit, now) => if limit == 0 then entry else Some(Step(entry, userId, msg, limit, now).stored)
    case Clear(now) => if Stale(entry, now) then None else entry
  }

  predicate Punishes(entry: Option<Flood>, userId: int, op: Op) {
    op.Hit? && op.limit != 0 && Step(entry, userId, op.msg, op.limit, op.now).punish
  }

  /** What a log leaves: the stored counter, the message lists handed out by punishing updates,
      and every message in order. */
  datatype Trace = Trace(entry: Option<Flood>, bursts: seq<seq<int>>, msgs: seq<int>)

  const START := Trace(None, [], [])

  function Advance(userId: int, t: Trace, op: Op): Trace {
    Trace(After(t.entry, userId, op),
          if Punishes(t.entry, userId, op)
          then t.bursts + [Step(t.entry, userId, op.msg, op.limit, op.now).current.ids] else t.bursts,
          if op.Hit? then t.msgs + [op.msg] else t.msgs)
  }

  function Run(userId: int, log: seq<Op>): Trace {
    if log == [] then START else Advance(userId, Run(userId, log[..|log| - 1]), log[|log| - 1])
  }

  lemma RunOneMore(userId: int, before: seq<Op>, op: Op)
    ensures Run(userId, before + [op]) == Advance(userId, Run(userId, before), op)
  {
    assert (before + [op])[..|before|] == before;
  }

  // The reference: the messages counted since the last reset or idle gap.

  datatype Window = Window(msgs: seq<int>, last: Option<int>, limit: nat)

  /** The messages an update at `now` adds its own to. */
  function Counting(w: Window, now: int): seq<int> {
    if w.last.Some? && now - w.last.value <= IDLE then w.msgs else []
  }

  function Slide(w: Window, op: Op): Window {
    match op
    case Hit(_, msg, limit, now) =>
      if limit == 0 then w
      else
        var msgs := Counting(w, now) + [msg];
        Window(if |msgs| > limit then [] else msgs, Some(now), limit)
    case Clear(now) =>
      if w.last.Some? && now - w.last.value > STALE then Window([], None, 0) else w
  }

  function Reference(log: seq<Op>): Window {
    if log == [] then Window([], None, 0) else Slide(Reference(log[..|log| - 1]), log[|log| - 1])
  }

  predicate Suffix(ids: seq<int>, msgs: seq<int>) {
    |ids| <= |msgs| && ids == msgs[|msgs| - |ids|..]
  }

  /** The stored counter is the number of messages in the window, and its list is a suffix of
      them no longer than the limit and five more. */
  predicate Tracks(userId: int, entry: Option<Flood>, w: Window) {
    match entry
    case None => w.last == None && w.msgs == []
    case Some(f) =>
      && w.last == Some(f.last)
      && f.count == |w.msgs|
      && Suffix(f.ids, w.msgs)
      && |f.ids| <= w.limit + SLACK
      && f.userId == if w.msgs == [] then 0 else userId
  }

  lemma SuffixGrows(ids: seq<int>, msgs: seq<int>, msg: int, most: nat)
    requires Suffix(ids, msgs)
    ensures Suffix(KeepLast(ids + [msg], most), msgs + [msg]) && |KeepLast(ids + [msg], most)| <= most
  {
    assert forall k :: 0 <= k < |ids| ==> ids[k] == msgs[|msgs| - |ids| + k];
  }

  lemma BaseTracks(userId: int, entry: Option<Flood>, w: Window, now: int)
    requires userId != 0 && Tracks(userId, entry, w)
    ensures var base := Base(entry, userId, now);
            base.userId == userId && base.count == |Counting(w, now)| && Suffix(base.ids, Counting(w, now))
  {
  }

  lemma CountTracks(userId: int, base: Flood, msgs: seq<int>, msg: int, limit: nat, now: int)
    requires userId != 0 && base.userId == userId && base.count == |msgs| && Suffix(base.ids, msgs)
    ensures var window := msgs + [msg];
            Tracks(userId, Some(Count(base, msg, limit, now).stored),
                   Window(if |window| > limit then [] else window, Some(now), limit))
  {
    var window := msgs + [msg];
    SuffixGrows(base.ids, msgs, msg, limit + SLACK);
    var u := Count(base, msg, limit, now);
    assert u.current.count == |window|;
    if |window| > limit {
      assert u.stored == Flood(0, 0, [], now);
    } else {
      assert u.stored == u.current && window != [];
    }
  }

  lemma HitTracks(userId: int, entry: Option<Flood>, w: Window, op: Op)
    requires userId != 0 && Tracks(userId, entry, w) && op.Hit?
    ensures Tracks(userId, After(entry, userId, op), Slide(w, op))
  {
    BaseTracks(userId, entry, w, op.now);
    CountTracks(userId, Base(entry, userId, op.now), Counting(w, op.now), op.msg, op.limit, op.now);
  }

  /** For every sequence of limits, clocks, gaps and cleanings the counter tracks the
      window. */
  lemma {:induction false} CounterIsTheWindow(userId: int, log: seq<Op>)
    requires userId != 0
    ensures Tracks(userId, Run(userId, log).entry, Reference(log))
  {
    if log != [] {
      var before := log[..|log| - 1];
      CounterIsTheWindow(userId, before);
      if log[|log| - 1].Hit? {
        HitTracks(userId, Run(userId, before).entry, Reference(before), log[|log| - 1]);
      }
    }
  }

  function StoredIds(entry: Option<Flood>): seq<int> {
    if entry == None then [] else entry.value.ids
  }

  /** A punishing update hands out a suffix of the window that overran its limit: all of it
      when the stored list held the whole window so far. */
  lemma PunishmentHandsOutTheWindow(userId: int, entry: Option<Flood>, w: Window, op: Op)
    requires userId != 0 && Tracks(userId, entry, w) && op.Hit? && op.limit != 0
    ensures var u, window := Step(entry, userId, op.msg, op.limit, op.now), Counting(w, op.now) + [op.msg];
            && (u.punish <==> |window| > op.limit)
            && u.current.count == |window|
            && Suffix(u.current.ids, window)
            && (|window| <= op.limit + SLACK && StoredIds(entry) == w.msgs ==> u.current.ids == window)
  {
    BaseTracks(userId, entry, w, op.now);
    SuffixGrows(Base(entry, userId, op.now).ids, Counting(w, op.now), op.msg, op.limit + SLACK);
  }

  /** The list is cut to the newest five more than the limit, and never shorter than that. */
  lemma ListIsAsLongAsItMay(userId: int, entry: Option<Flood>, w: Window, op: Op)
    requires userId != 0 && Tracks(userId, entry, w) && op.Hit?
    ensures var had := if Counting(w, op.now) == [] then 0 else |StoredIds(entry)|;
            |Step(entry, userId, op.msg, op.limit, op.now).current.ids|
            == if had + 1 > op.limit + 5 then op.limit + 5 else had + 1
  {
    BaseTracks(userId, entry, w, op.now);
  }

  /** A limit of 0 turns the counter off: nothing is stored and nobody is punished. */
  lemma NoLimitCountsNothing(userId: int, t: Trace, who: nat, msg: int, now: int)
    ensures Advance(userId, t, Hit(who, msg, 0, now)) == t.(msgs := t.msgs + [msg])
  {
  }

  /** Every update has the limit. */
  predicate OneLimit(log: seq<Op>, limit: nat) {
    forall i :: 0 <= i < |log| && log[i].Hit? ==> log[i].limit == limit
  }

  /** The stored list is the whole window, which never outgrows the limit. */
  predicate FullWindow(userId: int, limit: nat, t: Trace, w: Window) {
    && Tracks(userId, t.entry, w)
    && StoredIds(t.entry) == w.msgs && |w.msgs| <= limit
    && (forall b :: b in t.bursts ==> |b| == limit + 1)
  }

  lemma HitKeepsFullWindow(userId: int, limit: nat, t: Trace, w: Window, op: Op)
    requires userId != 0 && limit > 0 && FullWindow(userId, limit, t, w) && op.Hit? && op.limit == limit
    ensures FullWindow(userId, limit, Advance(userId, t, op), Slide(w, op))
  {
    HitTracks(userId, t.entry, w, op);
    PunishmentHandsOutTheWindow(userId, t.entry, w, op);
    var u, window := Step(t.entry, userId, op.msg, op.limit, op.now), Counting(w, op.now) + [op.msg];
    assert u.current.ids == window;
  }

  /** With one limit L, whatever the gaps, the clocks and the cleanings: the stored list is the
      whole window, and every burst handed out has exactly L + 1 messages. */
  lemma {:induction false} BurstsAreExact(userId: int, limit: nat, log: seq<Op>)
    requires userId != 0 && limit > 0 && OneLimit(log, limit)
    ensures FullWindow(userId, limit, Run(userId, log), Reference(log))
  {
    if log != [] {
      var before, op := log[..|log| - 1], log[|log| - 1];
      assert forall i :: 0 <= i < |before| ==> before[i] == log[i];
      BurstsAreExact(userId, limit, before);
      if op.Hit? {
        HitKeepsFullWindow(userId, limit, Run(userId, before), Reference(before), op);
      }
    }
  }

  /** A flood counter never accumulates for the user ID 0: no limit is ever exceeded. */
  lemma UserZeroNeverFloods(entry: Option<Flood>, msg: int, limit: nat, now: int)
    requires limit > 0
    requires entry.Some? ==> entry.value.userId == 0
    ensures var u := Step(entry, 0, msg, limit, now); !u.punish && u.stored.userId == 0 && u.stored.count == 1
  {
  }

  // The counting law.

  /** Updates with one limit, each at most an idle minute after the one before it. */
  predicate Steady(log: seq<Op>, limit: nat) {
    && (forall i :: 0 <= i < |log| ==> log[i].Hit? && log[i].limit == limit)
    && (forall i :: 0 < i < |log| ==> log[i].now - log[i - 1].now <= IDLE)
  }

  function Flatten(lists: seq<seq<int>>): seq<int> {
    if lists == [] then [] else Flatten(lists[..|lists| - 1]) + lists[|lists| - 1]
  }

  lemma DivMod(x: nat, m: nat, q: nat, r: nat)
    requires r < m && x == m * q + r
    ensures x / m == q && x % m == r
  {
    var q1, r1 := x / m, x % m;
    assert x == m * q1 + r1;
    if q1 < q {
      assert m * (q - q1) >= m by { Multiple(m, q - q1); }
      assert false;
    } else if q1 > q {
      assert m * (q1 - q) >= m by { Multiple(m, q1 - q); }
      assert false;
    }
  }

  lemma Multiple(m: nat, k: nat)
    requires k >= 1
    ensures m * k >= m
  {
  }

  lemma NextDivMod(n: nat, m: nat)
    requires m > 0
    ensures n % m < m - 1 ==> (n + 1) / m == n / m && (n + 1) % m == n % m + 1
    ensures n % m == m - 1 ==> (n + 1) / m == n / m + 1 && (n + 1) % m == 0
  {
    var q, r := n / m, n % m;
    assert n == m * q + r;
    if r < m - 1 {
      DivMod(n + 1, m, q, r + 1);
    } else {
      assert m * (q + 1) == m * q + m;
      DivMod(n + 1, m, q + 1, 0);
    }
  }

  /** The counter after some steady updates, the last `stored` of which it still holds. */
  predicate Counted(userId: int, entry: Option<Flood>, any: bool, stored: nat, last: int) {
    match entry
    case None => !any && stored == 0
    case Some(f) =>
      && any && f.last == last
      && f.count == |f.ids| == stored
      && f.userId == if f.count == 0 then 0 else userId
  }

  lemma CountedStep(userId: int, limit: nat, entry: Option<Flood>, any: bool, stored: nat, last: int, msg: int,
                    now: int)
    requires userId != 0 && stored <= limit && limit > 0 && Counted(userId, entry, any, stored, last)
    requires any ==> now - last <= IDLE
    ensures var u := Step(entry, userId, msg, limit, now);
            && u.current.ids == StoredIds(entry) + [msg]
            && (u.punish <==> stored == limit)
            && u.stored.ids == (if u.punish then [] else u.current.ids)
            && Counted(userId, Some(u.stored), true, if stored == limit then 0 else stored + 1, now)
  {
  }

  lemma FlattenOneMore(lists: seq<seq<int>>, list: seq<int>)
    ensures Flatten(lists + [list]) == Flatten(lists) + list
  {
    assert (lists + [list])[..|lists|] == lists;
  }

  /** Every message is in a burst or stored, once and in order. */
  predicate NothingLost(bursts: seq<seq<int>>, stored: seq<int>, msgs: seq<int>) {
    Flatten(bursts) + stored == msgs
  }

  lemma NothingLostStep(bursts: seq<seq<int>>, stored: seq<int>, msgs: seq<int>, msg: int)
    requires NothingLost(bursts, stored, msgs)
    ensures NothingLost(bursts, stored + [msg], msgs + [msg])
    ensures NothingLost(bursts + [stored + [msg]], [], msgs + [msg])
  {
    FlattenOneMore(bursts, stored + [msg]);
    assert Flatten(bursts) + (stored + [msg]) == (Flatten(bursts) + stored) + [msg];
  }

  /** `n` updates with one limit L: there are n div (L + 1) bursts of exactly L + 1 messages
      each, n mod (L + 1) messages are stored, and together they are every message in order. */
  predicate Tallied(userId: int, limit: nat, t: Trace, n: nat, last: int) {
    && Counted(userId, t.entry, n > 0, n % (limit + 1), last)
    && |t.bursts| == n / (limit + 1)
    && (forall b :: b in t.bursts ==> |b| == limit + 1)
    && |t.msgs| == n
    && NothingLost(t.bursts, StoredIds(t.entry), t.msgs)
  }

  /** N updates with a constant limit L and no idle gap: the bursts handed out and the stored
      list hold every message exactly once and in order, every burst has exactly L + 1 of them,
      and there are N div (L + 1) bursts and N mod (L + 1) stored messages. */
  lemma {:induction false} CountingLaw(userId: int, limit: nat, log: seq<Op>)
    requires userId != 0 && limit > 0 && Steady(log, limit)
    ensures Tallied(userId, limit, Run(userId, log), |log|, LastClock(log))
  {
    if log == [] {
      DivMod(0, limit + 1, 0, 0);
    } else {
      var before, op := log[..|log| - 1], log[|log| - 1];
      SteadyBefore(log, limit);
      CountingLaw(userId, limit, before);
      CountingStep(userId, limit, Run(userId, before), |before|, LastClock(before), op);
      assert Run(userId, log) == Advance(userId, Run(userId, before), op);
    }
  }

  lemma SteadyBefore(log: seq<Op>, limit: nat)
    requires log != [] && Steady(log, limit)
    ensures Steady(log[..|log| - 1], limit)
    ensures |log| > 1 ==> log[|log| - 1].now - LastClock(log[..|log| - 1]) <= IDLE
  {
    assert forall i :: 0 <= i < |log| - 1 ==> log[..|log| - 1][i] == log[i];
  }

  function LastClock(log: seq<Op>): int {
    if log == [] then 0 else log[|log| - 1].now
  }

  lemma CountingStep(userId: int, limit: nat, t: Trace, n: nat, last: int, op: Op)
    requires userId != 0 && limit > 0 && op.Hit? && op.limit == limit && (n > 0 ==> op.now - last <= IDLE)
    requires Tallied(userId, limit, t, n, last)
    ensures Tallied(userId, limit, Advance(userId, t, op), n + 1, op.now)
  {
    var stored := n % (limit + 1);
    NextDivMod(n, limit + 1);
    CountedStep(userId, limit, t.entry, n > 0, stored, last, op.msg, op.now);
    NothingLostStep(t.bursts, StoredIds(t.entry), t.msgs, op.msg);
    var u, burst := Advance(userId, t, op), StoredIds(t.entry) + [op.msg];
    if stored == limit {
      assert u.bursts == t.bursts + [burst] && StoredIds(u.entry) == [];
    } else {
      assert u.bursts == t.bursts && StoredIds(u.entry) == burst;
    }
  }

  // The cleaner.

  function Hits(log: seq<Op>): (hits: seq<Op>)
    ensures forall op :: op in hits ==> op.Hit?
    ensures |hits| <= |log|
  {
    if log == [] then []
    else Hits(log[..|log| - 1]) + (if log[|log| - 1].Hit? then [log[|log| - 1]] else [])
  }

  /** No update takes effect after a deletion whose clock is so far past the update's own. */
  predicate NobodyStalls(log: seq<Op>) {
    forall i, j :: 0 <= i < j < |log| && log[i].Clear? && log[j].Hit? ==> log[j].now >= log[i].now - STALL
  }

  /** The counter with cleanings against the counter without: the same, or gone while the
      other one is too old for anybody to count on. */
  ghost predicate OnlyStaleLost(cleaned: Option<Flood>, kept: Option<Flood>, log: seq<Op>) {
    || cleaned == kept
    || (cleaned == None && kept.Some? && exists i :: 0 <= i < |log| && log[i].Clear? && Stale(kept, log[i].now))
  }

  lemma HitHidesTheLoss(userId: int, cleaned: Option<Flood>, kept: Option<Flood>, log: seq<Op>, op: Op)
    requires userId != 0 && op.Hit? && OnlyStaleLost(cleaned, kept, log)
    requires forall i :: 0 <= i < |log| && log[i].Clear? ==> op.now >= log[i].now - STALL
    ensures op.limit != 0 ==>
              Step(cleaned, userId, op.msg, op.limit, op.now) == Step(kept, userId, op.msg, op.limit, op.now)
    ensures OnlyStaleLost(After(cleaned, userId, op), After(kept, userId, op), log)
  {
    if cleaned != kept {
      var i :| 0 <= i < |log| && log[i].Clear? && Stale(kept, log[i].now);
      assert op.now - kept.value.last > IDLE;
      assert Base(cleaned, userId, op.now) == Base(kept, userId, op.now);
    }
  }

  lemma LossStaysStale(cleaned: Option<Flood>, kept: Option<Flood>, log: seq<Op>, op: Op)
    requires OnlyStaleLost(cleaned, kept, log)
    ensures OnlyStaleLost(cleaned, kept, log + [op])
    ensures op.Clear? ==> OnlyStaleLost(After(cleaned, 0, op), kept, log + [op])
  {
    assert (log + [op])[|log|] == op;
    assert forall i :: 0 <= i < |log| ==> (log + [op])[i] == log[i];
  }

  /** The two counters have handed out the same, and differ only by a stale loss. */
  ghost predicate SameSoFar(cleaned: Trace, kept: Trace, log: seq<Op>) {
    cleaned.bursts == kept.bursts && cleaned.msgs == kept.msgs && OnlyStaleLost(cleaned.entry, kept.entry, log)
  }

  lemma HitStaysSame(userId: int, cleaned: Trace, kept: Trace, log: seq<Op>, op: Op)
    requires userId != 0 && op.Hit? && SameSoFar(cleaned, kept, log)
    requires forall i :: 0 <= i < |log| && log[i].Clear? ==> op.now >= log[i].now - STALL
    ensures SameSoFar(Advance(userId, cleaned, op), Advance(userId, kept, op), log + [op])
  {
    HitHidesTheLoss(userId, cleaned.entry, kept.entry, log, op);
    LossStaysStale(After(cleaned.entry, userId, op), After(kept.entry, userId, op), log, op);
  }

  lemma ClearStaysSame(userId: int, cleaned: Trace, kept: Trace, log: seq<Op>, op: Op)
    requires op.Clear? && SameSoFar(cleaned, kept, log)
    ensures SameSoFar(Advance(userId, cleaned, op), kept, log + [op])
  {
    LossStaysStale(cleaned.entry, kept.entry, log, op);
  }

  /** With a cleaner at work, in any number of passes and on any clock, every punishment and
      every burst is the one the counter hands out without it. */
  lemma {:induction false} CleanerIsInvisible(userId: int, log: seq<Op>)
    requires userId != 0 && NobodyStalls(log)
    ensures SameSoFar(Run(userId, log), Run(userId, Hits(log)), log)
  {
    if log != [] {
      var before, op := log[..|log| - 1], log[|log| - 1];
      assert forall i :: 0 <= i < |before| ==> before[i] == log[i];
      CleanerIsInvisible(userId, before);
      assert Run(userId, log) == Advance(userId, Run(userId, before), op);
      if op.Hit? {
        assert Hits(log) == Hits(before) + [op];
        RunOneMore(userId, Hits(before), op);
        HitStaysSame(userId, Run(userId, before), Run(userId, Hits(before)), before, op);
      } else {
        assert Hits(log) == Hits(before) + [] == Hits(before);
        ClearStaysSame(userId, Run(userId, before), Run(userId, Hits(before)), before, op);
      }
      assert before + [op] == log;
    }
  }

  /** Exactly when one deletion is noticed by the update after it: the deleted counter was
      running and the update read its clock within the idle minute after it, which takes an
      update more than nine minutes behind the cleaner. */
  lemma DeletionIsNoticedExactly(f: Flood, userId: int, msg: int, limit: nat, now: int, cleaned: int)
    requires f.userId == userId != 0 && f.count >= 1
    ensures After(Some(f), userId, Clear(cleaned)) == None <==> cleaned - f.last > 600
    ensures Step(None, userId, msg, limit, now) != Step(Some(f), userId, msg, limit, now) <==> now - f.last <= 60
    ensures now - f.last <= 60 && cleaned - f.last > 600 ==> cleaned - now > 540
  {
    if now - f.last <= IDLE {
      assert Step(None, userId, msg, limit, now).current.count == 1;
      assert Step(Some(f), userId, msg, limit, now).current.count == f.count + 1;
    } else {
      assert Base(None, userId, now) == Base(Some(f), userId, now);
    }
  }
}
