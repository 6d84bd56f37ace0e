/** Concurrent updates and cleaning passes on one flood counter, which they share through a
    pointer and change only by compare-and-swap: each call loads the pointer, computes the next
    state and swaps it in if the pointer is still the one it loaded, and starts over if not. */
module AntifloodRace {
  import opened Wrappers
  import opened Antiflood

  /** A published state never changes, so a pointer stands for its value. */
  datatype Slot = Slot(ptr: nat, value: Flood)

  /** A call in flight: `seen` is what it loaded, and `since` how much had taken effect then. */
  datatype Call = Call(msg: int, limit: nat, now: int, seen: Option<Option<Slot>>, since: nat)

  datatype Cleaner = Cleaner(ptr: nat, now: int)

  /** `log` lists what took effect, in order, and `at` says where each finished call is in it. */
  datatype System = System(
    slot: Option<Slot>, nextPtr: nat, calls: map<nat, Call>, cleaners: map<nat, Cleaner>,
    results: map<nat, Update>, at: map<nat, nat>, log: seq<Op>)

  datatype Event =
    | Start(who: nat, msg: int, limit: nat, now: int)
    | Load(who: nat)
    | Swap(who: nat)
    | CleanLook(c: nat, now: int)
    | CleanDelete(c: nat)

  function Entry(slot: Option<Slot>): Option<Flood> {
    if slot == None then None else Some(slot.value.value)
  }

  predicate SamePointer(slot: Option<Slot>, seen: Option<Slot>) {
    (slot == None && seen == None) || (slot.Some? && seen.Some? && slot.value.ptr == seen.value.ptr)
  }

  function Swapped(s: System, who: nat, c: Call, u: Update): System {
    s.(slot := Some(Slot(s.nextPtr, u.stored)), nextPtr := s.nextPtr + 1, calls := s.calls - {who},
       results := s.results[who := u], at := s.at[who := |s.log|],
       log := s.log + [Hit(who, c.msg, c.limit, c.now)])
  }

  function CallNext(userId: int, s: System, e: Event): System {
    match e
    case Start(who, msg, limit, now) =>
      if who in s.calls || who in s.results || limit == 0 then s
      else s.(calls := s.calls[who := Call(msg, limit, now, None, 0)])
    case Load(who) =>
      if who !in s.calls then s
      else s.(calls := s.calls[who := s.calls[who].(seen := Some(s.slot), since := |s.log|)])
    case Swap(who) =>
      if who !in s.calls || s.calls[who].seen == None then s
      else
        var c := s.calls[who];
        if !SamePointer(s.slot, c.seen.value) then s.(calls := s.calls[who := c.(seen := None)])
        else Swapped(s, who, c, Step(Entry(c.seen.value), userId, c.msg, c.limit, c.now))
    case _ => s
  }

  function CleanNext(s: System, e: Event): System {
    match e
    case CleanLook(c, now) =>
      if c in s.cleaners || !Stale(Entry(s.slot), now) then s
      else s.(cleaners := s.cleaners[c := Cleaner(s.slot.value.ptr, now)])
    case CleanDelete(c) =>
      if c !in s.cleaners then s
      else if s.slot.Some? && s.slot.value.ptr == s.cleaners[c].ptr then
        s.(slot := None, cleaners := s.cleaners - {c}, log := s.log + [Clear(s.cleaners[c].now)])
      else s.(cleaners := s.cleaners - {c})
    case _ => s
  }

  function Next(userId: int, s: System, e: Event): System {
    if e.CleanLook? || e.CleanDelete? then CleanNext(s, e) else CallNext(userId, s, e)
  }

  function Execute(userId: int, s: System, events: seq<Event>): System
    decreases |events|
  {
    if events == [] then s else Execute(userId, Next(userId, s, events[0]), events[1..])
  }

  const EMPTY := System(None, 0, map[], map[], map[], map[], [])

  ghost predicate PointersMeanValues(s: System) {
    && (s.slot.Some? ==> s.slot.value.ptr < s.nextPtr)
    && (forall w :: w in s.calls && s.calls[w].seen.Some? ==> SeenIsTrue(s, s.calls[w]))
    && (forall c :: c in s.cleaners ==> CleanerIsTrue(s, s.cleaners[c]))
  }

  /** A pointer loaded earlier still means the value loaded with it, and if nothing has taken
      effect since, it is the one in the table. */
  ghost predicate SeenIsTrue(s: System, c: Call)
    requires c.seen.Some?
  {
    && (c.seen.value.Some? ==>
          c.seen.value.value.ptr < s.nextPtr && (SamePointer(s.slot, c.seen.value) ==> s.slot == c.seen.value))
    && c.since <= |s.log| && (c.since == |s.log| ==> c.seen.value == s.slot)
  }

  ghost predicate CleanerIsTrue(s: System, c: Cleaner) {
    c.ptr < s.nextPtr && (s.slot.Some? && s.slot.value.ptr == c.ptr ==> Stale(Entry(s.slot), c.now))
  }

  /** Every finished call is in the log exactly once, with the result the sequential counter
      gives at that place; the shared state is what the log leaves. */
  ghost predicate Linear(userId: int, s: System) {
    && Entry(s.slot) == Run(userId, s.log).entry
    && s.results.Keys == s.at.Keys
    && (forall w :: w in s.calls ==> w !in s.at && s.calls[w].limit != 0)
    && Indexed(s.log, s.at)
    && AllPlaced(userId, s.log, s.at, s.results)
  }

  ghost predicate Indexed(log: seq<Op>, at: map<nat, nat>) {
    forall i :: 0 <= i < |log| && log[i].Hit? ==> log[i].who in at && at[log[i].who] == i
  }

  ghost predicate AllPlaced(userId: int, log: seq<Op>, at: map<nat, nat>, results: map<nat, Update>) {
    forall w :: w in at && w in results ==> Placed(userId, log, w, at[w], results[w])
  }

  ghost predicate Placed(userId: int, log: seq<Op>, who: nat, i: nat, result: Update) {
    i < |log| && log[i].Hit? && log[i].who == who && ResultAt(userId, log, i) == result
  }

  ghost function ResultAt(userId: int, log: seq<Op>, i: nat): Update
    requires i < |log| && log[i].Hit?
  {
    Step(Run(userId, log[..i]).entry, userId, log[i].msg, log[i].limit, log[i].now)
  }

  lemma CallKeepsPointers(userId: int, s: System, e: Event)
    requires PointersMeanValues(s)
    ensures PointersMeanValues(CallNext(userId, s, e))
  {
  }

  lemma CleanKeepsPointers(s: System, e: Event)
    requires PointersMeanValues(s)
    ensures PointersMeanValues(CleanNext(s, e))
  {
  }

  lemma PointersStep(userId: int, s: System, e: Event)
    requires PointersMeanValues(s)
    ensures PointersMeanValues(Next(userId, s, e))
  {
    CallKeepsPointers(userId, s, e);
    CleanKeepsPointers(s, e);
  }

  lemma PlacesStay(userId: int, log: seq<Op>, op: Op, who: nat, i: nat, result: Update)
    requires Placed(userId, log, who, i, result)
    ensures Placed(userId, log + [op], who, i, result)
  {
    assert (log + [op])[..i] == log[..i];
  }

  lemma NewPlace(userId: int, log: seq<Op>, op: Op)
    requires op.Hit?
    ensures Placed(userId, log + [op], op.who, |log|, Step(Run(userId, log).entry, userId, op.msg, op.limit, op.now))
  {
    assert (log + [op])[..|log|] == log;
  }

  lemma AllPlacedGrow(userId: int, log: seq<Op>, op: Op, at: map<nat, nat>, results: map<nat, Update>)
    requires AllPlaced(userId, log, at, results)
    ensures AllPlaced(userId, log + [op], at, results)
  {
    forall w | w in at && w in results
      ensures Placed(userId, log + [op], w, at[w], results[w])
    {
      PlacesStay(userId, log, op, w, at[w], results[w]);
    }
  }

  lemma IndexedGrow(log: seq<Op>, op: Op, at: map<nat, nat>)
    requires Indexed(log, at)
    ensures op.Clear? ==> Indexed(log + [op], at)
    ensures op.Hit? && op.who !in at ==> Indexed(log + [op], at[op.who := |log|])
  {
  }

  lemma HitLeaves(userId: int, log: seq<Op>, op: Op, entry: Option<Flood>, u: Update)
    requires op.Hit? && op.limit != 0 && entry == Run(userId, log).entry
    requires u == Step(entry, userId, op.msg, op.limit, op.now)
    ensures Run(userId, log + [op]).entry == Some(u.stored)
    ensures Placed(userId, log + [op], op.who, |log|, u)
  {
    RunOneMore(userId, log, op);
    NewPlace(userId, log, op);
  }

  lemma SwappedIsLinear(userId: int, s: System, who: nat, c: Call, u: Update)
    requires Linear(userId, s) && who in s.calls && s.calls[who] == c
    requires var log := s.log + [Hit(who, c.msg, c.limit, c.now)];
             Run(userId, log).entry == Some(u.stored) && Placed(userId, log, who, |s.log|, u)
    ensures Linear(userId, Swapped(s, who, c, u))
  {
    var op := Hit(who, c.msg, c.limit, c.now);
    IndexedGrow(s.log, op, s.at);
    AllPlacedGrow(userId, s.log, op, s.at, s.results);
    OneMorePlaced(userId, s.log + [op], s.at, s.results, who, |s.log|, u);
  }

  lemma OneMorePlaced(userId: int, log: seq<Op>, at: map<nat, nat>, results: map<nat, Update>, who: nat, i: nat,
                      u: Update)
    requires AllPlaced(userId, log, at, results) && Placed(userId, log, who, i, u)
    ensures AllPlaced(userId, log, at[who := i], results[who := u])
  {
  }

  lemma DeletedIsLinear(userId: int, s: System, op: Op, t: System)
    requires Linear(userId, s) && op.Clear? && Stale(Entry(s.slot), op.now)
    requires t.slot == None && t.log == s.log + [op] && t.calls == s.calls && t.at == s.at && t.results == s.results
    ensures Linear(userId, t)
  {
    RunOneMore(userId, s.log, op);
    IndexedGrow(s.log, op, s.at);
    AllPlacedGrow(userId, s.log, op, s.at, s.results);
  }

  predicate Swaps(s: System, e: Event) {
    e.Swap? && e.who in s.calls && s.calls[e.who].seen.Some? && SamePointer(s.slot, s.calls[e.who].seen.value)
  }

  predicate Deletes(s: System, e: Event) {
    e.CleanDelete? && e.c in s.cleaners && s.slot.Some? && s.slot.value.ptr == s.cleaners[e.c].ptr
  }

  /** A step that leaves nothing behind only drops or moves calls. */
  lemma OthersStayLinear(userId: int, s: System, t: System)
    requires Linear(userId, s)
    requires t.slot == s.slot && t.log == s.log && t.at == s.at && t.results == s.results
    requires forall w :: w in t.calls ==> w !in s.at && t.calls[w].limit != 0
    ensures Linear(userId, t)
  {
  }

  lemma QuietStep(userId: int, s: System, e: Event)
    requires !Swaps(s, e) && !Deletes(s, e)
    requires forall w :: w in s.calls ==> w !in s.at && s.calls[w].limit != 0
    requires s.results.Keys == s.at.Keys
    ensures var t := Next(userId, s, e);
            && t.slot == s.slot && t.log == s.log && t.at == s.at && t.results == s.results
            && forall w :: w in t.calls ==> w !in s.at && t.calls[w].limit != 0
  {
  }

  lemma SwapIsLinear(userId: int, s: System, e: Event, t: System)
    requires PointersMeanValues(s) && Linear(userId, s) && t == Next(userId, s, e) && Swaps(s, e)
    ensures Linear(userId, t)
  {
    var c := s.calls[e.who];
    assert SeenIsTrue(s, c);
    var u := Step(Entry(s.slot), userId, c.msg, c.limit, c.now);
    HitLeaves(userId, s.log, Hit(e.who, c.msg, c.limit, c.now), Entry(s.slot), u);
    SwappedIsLinear(userId, s, e.who, c, u);
  }

  lemma DeleteIsLinear(userId: int, s: System, e: Event, t: System)
    requires PointersMeanValues(s) && Linear(userId, s) && t == Next(userId, s, e) && Deletes(s, e)
    ensures Linear(userId, t)
  {
    assert CleanerIsTrue(s, s.cleaners[e.c]);
    DeletedIsLinear(userId, s, Clear(s.cleaners[e.c].now), t);
  }

  lemma StepIsLinear(userId: int, s: System, e: Event, t: System)
    requires PointersMeanValues(s) && Linear(userId, s) && t == Next(userId, s, e)
    ensures Linear(userId, t)
  {
    if Swaps(s, e) {
      SwapIsLinear(userId, s, e, t);
    } else if Deletes(s, e) {
      DeleteIsLinear(userId, s, e, t);
    } else {
      QuietStep(userId, s, e);
      OthersStayLinear(userId, s, t);
    }
  }

  /** Over every interleaving of any number of updates and cleaning passes: no update is lost
      or counted twice, and each one gets the result of the sequential counter at its place. */
  lemma {:induction false} Linearizable(userId: int, s: System, events: seq<Event>)
    requires PointersMeanValues(s) && Linear(userId, s)
    ensures PointersMeanValues(Execute(userId, s, events)) && Linear(userId, Execute(userId, s, events))
    decreases |events|
  {
    if events != [] {
      var e := events[0];
      PointersStep(userId, s, e);
      StepIsLinear(userId, s, e, Next(userId, s, e));
      Linearizable(userId, Next(userId, s, e), events[1..]);
    }
  }

  /** A swap that fails means somebody else's update or deletion took effect on this counter
      since the call loaded it; so of all calls in flight one always gets on. */
  lemma FailedSwapMeansProgress(userId: int, s: System, who: nat)
    requires PointersMeanValues(s) && who in s.calls && s.calls[who].seen.Some?
    ensures who !in Next(userId, s, Swap(who)).results && who !in s.results ==> |s.log| > s.calls[who].since
    ensures |s.log| == s.calls[who].since ==> who in Next(userId, s, Swap(who)).results
  {
  }

  // The counting law under concurrency.

  ghost function Punished(results: map<nat, Update>): set<nat> {
    set w | w in results && results[w].punish
  }

  /** As many hits in the log as finished calls, and as many bursts as punished ones. */
  ghost predicate Tally(userId: int, log: seq<Op>, results: map<nat, Update>) {
    |Hits(log)| == |results| && |Run(userId, log).bursts| == |Punished(results)|
  }

  lemma HitsOneMore(log: seq<Op>, op: Op)
    ensures Hits(log + [op]) == if op.Hit? then Hits(log) + [op] else Hits(log)
  {
    assert (log + [op])[..|log|] == log;
  }

  lemma OneMoreResult(results: map<nat, Update>, who: nat, u: Update)
    requires who !in results
    ensures |results[who := u]| == |results| + 1
    ensures |Punished(results[who := u])| == |Punished(results)| + (if u.punish then 1 else 0)
  {
    var more := results[who := u];
    assert more.Keys == results.Keys + {who};
    assert |more| == |more.Keys| && |results| == |results.Keys|;
    OneMorePunished(results, who, u);
  }

  lemma OneMorePunished(results: map<nat, Update>, who: nat, u: Update)
    requires who !in results
    ensures |Punished(results[who := u])| == |Punished(results)| + (if u.punish then 1 else 0)
  {
    var before, after := Punished(results), Punished(results[who := u]);
    assert who !in before;
    if u.punish {
      assert after == before + {who};
    } else {
      assert after == before;
    }
  }

  lemma HitKeepsTally(userId: int, log: seq<Op>, op: Op, results: map<nat, Update>, u: Update)
    requires Tally(userId, log, results) && op.Hit? && op.limit != 0 && op.who !in results
    requires u == Step(Run(userId, log).entry, userId, op.msg, op.limit, op.now)
    ensures Tally(userId, log + [op], results[op.who := u])
  {
    RunOneMore(userId, log, op);
    HitsOneMore(log, op);
    OneMoreResult(results, op.who, u);
  }

  lemma ClearKeepsTally(userId: int, log: seq<Op>, op: Op, results: map<nat, Update>)
    requires Tally(userId, log, results) && op.Clear?
    ensures Tally(userId, log + [op], results)
  {
    RunOneMore(userId, log, op);
    HitsOneMore(log, op);
  }

  /** Only a winning swap and a winning deletion leave anything behind. */
  lemma OnlyWinnersCount(userId: int, s: System, e: Event)
    requires PointersMeanValues(s)
    ensures var t := Next(userId, s, e);
            if Swaps(s, e) then
              var c := s.calls[e.who];
              && t.log == s.log + [Hit(e.who, c.msg, c.limit, c.now)]
              && t.results == s.results[e.who := Step(Entry(s.slot), userId, c.msg, c.limit, c.now)]
            else if Deletes(s, e) then t.log == s.log + [Clear(s.cleaners[e.c].now)] && t.results == s.results
            else t.log == s.log && t.results == s.results
  {
  }

  lemma StepKeepsTally(userId: int, s: System, e: Event, t: System)
    requires PointersMeanValues(s) && Linear(userId, s) && Tally(userId, s.log, s.results) && t == Next(userId, s, e)
    ensures Tally(userId, t.log, t.results)
  {
    OnlyWinnersCount(userId, s, e);
    if Swaps(s, e) {
      var c := s.calls[e.who];
      HitKeepsTally(userId, s.log, Hit(e.who, c.msg, c.limit, c.now), s.results, t.results[e.who]);
    } else if Deletes(s, e) {
      ClearKeepsTally(userId, s.log, Clear(s.cleaners[e.c].now), s.results);
    }
  }

  lemma {:induction false} TallyHolds(userId: int, s: System, events: seq<Event>)
    requires PointersMeanValues(s) && Linear(userId, s) && Tally(userId, s.log, s.results)
    ensures Tally(userId, Execute(userId, s, events).log, Execute(userId, s, events).results)
    decreases |events|
  {
    if events != [] {
      var e := events[0];
      PointersStep(userId, s, e);
      StepIsLinear(userId, s, e, Next(userId, s, e));
      StepKeepsTally(userId, s, e, Next(userId, s, e));
      TallyHolds(userId, Next(userId, s, e), events[1..]);
    }
  }

  /** N finished updates of one counter with one limit L, in any interleaving with each other
      and with the cleaner: exactly N div (L + 1) of them punish. The updates' clocks are at most
      an idle minute apart in the order they took effect, and none is overtaken by a cleaning
      pass as far ahead of its own clock as the cleaner needs to be noticed. */
  lemma ConcurrentCountingLaw(userId: int, limit: nat, events: seq<Event>)
    requires userId != 0 && limit > 0
    requires var log := Execute(userId, EMPTY, events).log; Steady(Hits(log), limit) && NobodyStalls(log)
    ensures var t := Execute(userId, EMPTY, events);
            |Punished(t.results)| == |t.results| / (limit + 1)
            && Tallied(userId, limit, Run(userId, Hits(t.log)), |t.results|, LastClock(Hits(t.log)))
  {
    assert EMPTY.results.Keys == EMPTY.at.Keys;
    assert Punished(EMPTY.results) == {};
    TallyHolds(userId, EMPTY, events);
    var log := Execute(userId, EMPTY, events).log;
    CleanerIsInvisible(userId, log);
    CountingLaw(userId, limit, Hits(log));
  }

  // What the calls achieve.

  /** A call that nobody disturbs takes effect: the shared counter takes its step, under a new
      pointer, and the call is at the end of the log with its result. */
  lemma LoneCallTakesEffect(userId: int, s: System, who: nat, msg: int, limit: nat, now: int)
    requires who !in s.calls && who !in s.results
    ensures var t := Next(userId, Next(userId, Next(userId, s, Start(who, msg, limit, now)), Load(who)), Swap(who));
            var u := Step(if s.slot == None then None else Some(s.slot.value.value), userId, msg, limit, now);
            t == if limit == 0 then s
                 else s.(slot := Some(Slot(s.nextPtr, u.stored)), nextPtr := s.nextPtr + 1,
                         results := s.results[who := u], at := s.at[who := |s.log|],
                         log := s.log + [Hit(who, msg, limit, now)])
  {
    if limit != 0 {
      var started := Next(userId, s, Start(who, msg, limit, now));
      var loaded := Next(userId, started, Load(who));
      assert loaded == s.(calls := s.calls[who := Call(msg, limit, now, Some(s.slot), |s.log|)]);
      assert loaded.calls - {who} == s.calls;
    }
  }

  /** A call that lost its swap changes nothing and loads again; one that ended or is in flight is
      not started over. */
  lemma LosersLoadAgain(userId: int, s: System, who: nat, msg: int, limit: nat, now: int)
    requires who in s.calls
    ensures var c := s.calls[who];
            c.seen.Some? && !SamePointer(s.slot, c.seen.value) ==>
              && Next(userId, s, Swap(who)) == s.(calls := s.calls[who := c.(seen := None)])
              && Next(userId, Next(userId, s, Swap(who)), Load(who))
                 == s.(calls := s.calls[who := c.(seen := Some(s.slot), since := |s.log|)])
    ensures Next(userId, s, Start(who, msg, limit, now)) == s
    ensures s.calls[who].seen == None ==> Next(userId, s, Swap(who)) == s
  {
    var c := s.calls[who];
    assert s.calls[who := c.(seen := None)][who := c.(seen := Some(s.slot), since := |s.log|)]
           == s.calls[who := c.(seen := Some(s.slot), since := |s.log|)];
  }

  /** A cleaner that nobody disturbs deletes exactly a counter silent for more than ten minutes, and
      one whose counter was replaced meanwhile deletes nothing. */
  lemma CleanerDeletesTheSilent(userId: int, s: System, c: nat, now: int)
    ensures c !in s.cleaners ==>
              Next(userId, Next(userId, s, CleanLook(c, now)), CleanDelete(c))
              == if s.slot.Some? && now - s.slot.value.value.last > 600
                 then s.(slot := None, log := s.log + [Clear(now)]) else s
    ensures c in s.cleaners && !(s.slot.Some? && s.slot.value.ptr == s.cleaners[c].ptr) ==>
              Next(userId, s, CleanDelete(c)) == s.(cleaners := s.cleaners - {c})
  {
    var looked := Next(userId, s, CleanLook(c, now));
    assert c !in s.cleaners ==> looked.cleaners - {c} == s.cleaners;
  }
}
