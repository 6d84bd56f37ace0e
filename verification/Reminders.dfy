/** The hourly reminders of a lockdown nobody lifted: numbered by the whole hours since its
    alert, planned once per destination by whichever replica comes first, checked against the
    current number and then sent, with any time in between. */
module Reminders {
  import opened Wrappers

  const EVERY := 60 * 60
  const MAX_ATTEMPTS: nat := 3

  /** The number of the reminder due after `elapsed` seconds. */
  function SeqAfter(elapsed: int): nat {
    if elapsed < 0 then 0 else elapsed / EVERY
  }

  /** The number never falls, and it is the n-th reminder's for exactly the n-th hour. */
  lemma SeqIsMonotone(a: int, b: int)
    ensures a <= b ==> SeqAfter(a) <= SeqAfter(b)
    ensures a >= 0 ==>
              (SeqAfter(a) == SeqAfter(b) <==>
                 SeqAfter(a) * EVERY <= b < (SeqAfter(a) + 1) * EVERY || (b < 0 && SeqAfter(a) == 0))
  {
  }

  /** One copy: a reminder number and a destination. */
  datatype Key = Key(number: nat, dest: nat)

  datatype SlotState = Pending | Posting | Posted | Failed
  datatype Slot = Slot(state: SlotState, attempts: nat)

  /** A worker that claimed a copy, then one that checked its number against the clock. */
  datatype Worker = Claimed(key: Key) | Checked(key: Key, at: int)

  /** A message that reached its destination: when its number was checked, and when it landed. */
  datatype Sent = Sent(key: Key, checkedAt: int, landedAt: int)

  datatype Answer = Done | RetryFree | Fails

  /** Whether the destination still takes the copy: it does, its link cannot be read, it is no
      longer linked, or its log channel takes no such posts just now. */
  datatype Route = Reaches | Unreadable | Unlinked | Silent

  /** Times count from the lockdown's alert. */
  datatype System = System(
    clock: nat, active: bool, slots: map<Key, Slot>, planned: seq<Key>,
    planners: map<nat, nat>, workers: map<nat, Worker>, sent: seq<Sent>)

  datatype Event =
    | Pass(seconds: nat)
    | End
    | PlanRead(p: nat)
    | PlanInsert(p: nat, dest: nat)
    | Claim(w: nat, key: Key)
    | Check(w: nat, route: Route, writes: bool)
    | Send(w: nat, lands: bool, answer: Answer, writes: bool)
    | Crash(id: nat)
    | ReleaseStale(key: Key)

  function SetState(s: System, key: Key, to: SlotState): System
    requires key in s.slots
  {
    s.(slots := s.slots[key := s.slots[key].(state := to)])
  }

  /** A failed try that counts, the last of which ends the copy. */
  function Tried(slot: Slot): Slot {
    Slot(if slot.attempts + 1 >= MAX_ATTEMPTS then Failed else Pending, slot.attempts + 1)
  }

  predicate MayGoOut(number: nat, clock: nat, active: bool, route: Route) {
    active && number >= SeqAfter(clock) && route == Reaches
  }

  /** The copy after a check that does not let it out. */
  function Held(slot: Slot, number: nat, clock: nat, active: bool, route: Route): Slot {
    if !active then slot.(state := Pending)
    else if number < SeqAfter(clock) || route == Unlinked then Slot(Failed, slot.attempts + 1)
    else if route == Unreadable then slot.(state := Pending)
    else Tried(slot)
  }

  /** The copy after a send. */
  function Answered(slot: Slot, answer: Answer): Slot {
    match answer
    case Done => slot.(state := Posted)
    case RetryFree => slot.(state := Pending)
    case Fails => Tried(slot)
  }

  function PlanNext(s: System, e: Event): System {
    match e
    case Pass(seconds) => s.(clock := s.clock + seconds)
    case End => s.(active := false)
    case PlanRead(p) =>
      if p in s.planners || SeqAfter(s.clock) < 1 then s
      else s.(planners := s.planners[p := SeqAfter(s.clock)])
    case PlanInsert(p, dest) =>
      if p !in s.planners || !s.active || Key(s.planners[p], dest) in s.slots then s
      else
        var key := Key(s.planners[p], dest);
        s.(slots := s.slots[key := Slot(Pending, 0)], planned := s.planned + [key])
    case Crash(id) => s.(planners := s.planners - {id}, workers := s.workers - {id})
    case ReleaseStale(key) =>
      if key in s.slots && s.slots[key].state == Posting then SetState(s, key, Pending) else s
    case _ => s
  }

  function PostNext(s: System, e: Event): System {
    match e
    case Claim(w, key) =>
      if w in s.workers || key !in s.slots || s.slots[key].state != Pending then s
      else SetState(s, key, Posting).(workers := s.workers[w := Claimed(key)])
    case Check(w, route, writes) =>
      if w !in s.workers || !s.workers[w].Claimed? || s.workers[w].key !in s.slots then s
      else
        var key := s.workers[w].key;
        var left := s.(workers := s.workers - {w});
        if MayGoOut(key.number, s.clock, s.active, route) then s.(workers := s.workers[w := Checked(key, s.clock)])
        else if s.slots[key].state != Posting || !writes then left
        else left.(slots := s.slots[key := Held(s.slots[key], key.number, s.clock, s.active, route)])
    case Send(w, lands, answer, writes) =>
      if w !in s.workers || !s.workers[w].Checked? || s.workers[w].key !in s.slots || (answer == Done && !lands) then s
      else
        var key := s.workers[w].key;
        var left := s.(workers := s.workers - {w},
                       sent := if lands then s.sent + [Sent(key, s.workers[w].at, s.clock)] else s.sent);
        if s.slots[key].state != Posting || !writes then left
        else left.(slots := s.slots[key := Answered(s.slots[key], answer)])
    case _ => s
  }

  function Next(s: System, e: Event): System {
    if e.Claim? || e.Check? || e.Send? then PostNext(s, e) else PlanNext(s, e)
  }

  function Execute(s: System, events: seq<Event>): System
    decreases |events|
  {
    if events == [] then s else Execute(Next(s, events[0]), events[1..])
  }

  const EMPTY := System(0, true, map[], [], map[], map[], [])

  /** Nothing is ahead of the clock, every sent number was the current one when it was checked,
      and every copy was planned once. */
  ghost predicate Current(s: System) {
    && (forall p :: p in s.planners ==> 1 <= s.planners[p] <= SeqAfter(s.clock))
    && (forall key :: key in s.slots ==> 1 <= key.number <= SeqAfter(s.clock))
    && (forall w :: w in s.workers ==> s.workers[w].key in s.slots)
    && (forall w :: w in s.workers && s.workers[w].Checked? ==>
          s.workers[w].at <= s.clock && s.workers[w].key.number == SeqAfter(s.workers[w].at))
  }

  ghost predicate SentCurrent(s: System) {
    && (forall i :: 0 <= i < |s.sent| ==>
          s.sent[i].key.number == SeqAfter(s.sent[i].checkedAt) && s.sent[i].checkedAt <= s.sent[i].landedAt <= s.clock)
    && (forall i, j :: 0 <= i < j < |s.sent| ==> s.sent[i].landedAt <= s.sent[j].landedAt)
  }

  ghost predicate PlannedOnce(s: System) {
    && (forall i :: 0 <= i < |s.planned| ==> s.planned[i] in s.slots)
    && (forall i, j :: 0 <= i < j < |s.planned| ==> s.planned[i] != s.planned[j])
  }

  ghost predicate Good(s: System) {
    Current(s) && SentCurrent(s) && PlannedOnce(s)
  }

  lemma PlanStaysGood(s: System, e: Event)
    requires Good(s)
    ensures Good(PlanNext(s, e))
  {
    if e.Pass? {
      SeqIsMonotone(s.clock, s.clock + e.seconds);
    }
  }

  /** What a posting step leaves alone, and the one message it may add. */
  lemma PostShape(s: System, e: Event)
    requires forall w :: w in s.workers ==> s.workers[w].key in s.slots
    ensures var t := PostNext(s, e);
            && t.slots.Keys == s.slots.Keys && t.planned == s.planned && t.planners == s.planners && t.clock == s.clock
            && (t.sent == s.sent || (e.Send? && e.w in s.workers && s.workers[e.w].Checked? &&
                                     t.sent == s.sent + [Sent(s.workers[e.w].key, s.workers[e.w].at, s.clock)]))
  {
  }

  lemma PostShapeOfWorkers(s: System, e: Event)
    ensures var t := PostNext(s, e);
            forall w :: w in t.workers ==>
              || (w in s.workers && t.workers[w] == s.workers[w])
              || (e.Claim? && t.workers[w] == Claimed(e.key) && e.key in s.slots)
              || (e.Check? && w in s.workers && t.workers[w] == Checked(s.workers[w].key, s.clock)
                  && s.workers[w].key.number >= SeqAfter(s.clock))
  {
  }

  lemma PostStaysGood(s: System, e: Event)
    requires Good(s)
    ensures Good(PostNext(s, e))
  {
    var t := PostNext(s, e);
    PostShape(s, e);
    PostShapeOfWorkers(s, e);
    assert forall w :: w in t.workers ==> t.workers[w].key in t.slots.Keys;
    assert Current(t);
    assert SentCurrent(t);
    assert PlannedOnce(t) by {
      assert forall i :: 0 <= i < |t.planned| ==> t.planned[i] in t.slots.Keys;
    }
  }

  /** Over every run, with any number of replicas, delays and crashes: each number is planned
      at most once per destination, and every reminder that reaches anybody carries the number
      that was current at its check. */
  lemma {:induction false} RemindersAreCurrent(s: System, events: seq<Event>)
    requires Good(s)
    ensures Good(Execute(s, events))
    decreases |events|
  {
    if events != [] {
      PlanStaysGood(s, events[0]);
      PostStaysGood(s, events[0]);
      RemindersAreCurrent(Next(s, events[0]), events[1..]);
    }
  }

  lemma {:induction false} ExecuteThen(s: System, e: Event, rest: seq<Event>)
    ensures Execute(s, [e] + rest) == Execute(Next(s, e), rest)
  {
    assert ([e] + rest)[1..] == rest;
  }

  ghost predicate CanPost(s: System, w: nat, key: Key) {
    && s.active && w !in s.workers && key in s.slots && s.slots[key].state == Pending
    && key.number == SeqAfter(s.clock)
  }

  /** A current pending copy goes out in three steps of one worker. */
  lemma CurrentCopyGoesOut(s: System, w: nat, key: Key)
    requires CanPost(s, w, key)
    ensures var t := Execute(s, [Claim(w, key), Check(w, Reaches, true), Send(w, true, Done, true)]);
            && t.sent == s.sent + [Sent(key, s.clock, s.clock)]
            && t.clock == s.clock && t.workers == s.workers && t.slots.Keys == s.slots.Keys
  {
    var claimed := Next(s, Claim(w, key));
    assert claimed.workers[w] == Claimed(key) && claimed.slots[key].state == Posting;
    var checked := Next(claimed, Check(w, Reaches, true));
    assert checked.workers[w] == Checked(key, s.clock) && checked.slots[key].state == Posting;
    ExecuteThen(s, Claim(w, key), [Check(w, Reaches, true), Send(w, true, Done, true)]);
    ExecuteThen(claimed, Check(w, Reaches, true), [Send(w, true, Done, true)]);
    ExecuteThen(checked, Send(w, true, Done, true), []);
    assert Next(checked, Send(w, true, Done, true)).workers == s.workers;
  }

  /** An hour passes and the next number is planned. */
  lemma NextHourIsPlanned(s: System, p: nat, key: Key)
    requires Good(s) && s.active && p !in s.planners && key.number == SeqAfter(s.clock) + 1
    ensures var t := Execute(s, [Pass(EVERY), PlanRead(p), PlanInsert(p, key.dest)]);
            && key in t.slots && t.slots[key].state == Pending && key.number == SeqAfter(t.clock)
            && t.sent == s.sent && t.workers == s.workers && t.active && s.slots.Keys <= t.slots.Keys
  {
    var later := Next(s, Pass(EVERY));
    assert SeqAfter(later.clock) == key.number;
    assert key !in s.slots;
    var read := Next(later, PlanRead(p));
    ExecuteThen(s, Pass(EVERY), [PlanRead(p), PlanInsert(p, key.dest)]);
    ExecuteThen(later, PlanRead(p), [PlanInsert(p, key.dest)]);
    ExecuteThen(read, PlanInsert(p, key.dest), []);
  }

  lemma CheckedLands(s: System, w: nat)
    requires w in s.workers && s.workers[w].Checked? && s.workers[w].key in s.slots
    ensures Execute(s, [Send(w, true, Done, true)]).sent == s.sent + [Sent(s.workers[w].key, s.workers[w].at, s.clock)]
  {
    var last := Send(w, true, Done, true);
    ExecuteThen(s, last, []);
    assert [last] + [] == [last];
  }

  // When the numbers sent go backwards.

  /** Some destination got a reminder and later one with a smaller number. */
  ghost predicate WentBackwards(s: System) {
    exists i, j :: 0 <= i < j < |s.sent| && Inverted(s.sent[i], s.sent[j])
  }

  predicate Inverted(first: Sent, second: Sent) {
    first.key.dest == second.key.dest && first.key.number > second.key.number
  }

  /** An hour of an active lockdown ends while a worker holds a reminder it has checked and not
      sent yet. */
  ghost predicate Overruns(s: System, e: Event) {
    && e.Pass? && s.active && SeqAfter(s.clock + e.seconds) > SeqAfter(s.clock)
    && exists w :: w in s.workers && s.workers[w].Checked?
  }

  ghost predicate NeverOverruns(s: System, events: seq<Event>)
    decreases |events|
  {
    events == [] || (!Overruns(s, events[0]) && NeverOverruns(Next(s, events[0]), events[1..]))
  }

  /** Checked reminders carry the current number while the lockdown is active, and one number
      that nothing sent exceeds after its end. */
  ghost predicate CheckedInTime(s: System) {
    && (forall w :: w in s.workers && s.workers[w].Checked? && s.active ==>
          s.workers[w].key.number == SeqAfter(s.clock))
    && (forall v, w :: v in s.workers && w in s.workers && s.workers[v].Checked? && s.workers[w].Checked? ==>
          s.workers[v].key.number == s.workers[w].key.number)
    && (forall w, i :: w in s.workers && s.workers[w].Checked? && 0 <= i < |s.sent| ==>
          s.sent[i].key.number <= s.workers[w].key.number)
  }

  ghost predicate InTime(s: System) {
    Good(s) && CheckedInTime(s) && !WentBackwards(s)
  }

  lemma SentAreNotAhead(s: System, i: nat)
    requires Good(s) && i < |s.sent|
    ensures s.sent[i].key.number <= SeqAfter(s.clock)
  {
    SeqIsMonotone(s.sent[i].checkedAt, s.clock);
  }

  lemma PlanStaysInTime(s: System, e: Event)
    requires InTime(s) && !Overruns(s, e)
    ensures CheckedInTime(PlanNext(s, e)) && !WentBackwards(PlanNext(s, e))
  {
    if e.Pass? {
      SeqIsMonotone(s.clock, s.clock + e.seconds);
    }
  }

  lemma CheckStaysInTime(s: System, e: Event)
    requires InTime(s) && (e.Claim? || e.Check?)
    ensures CheckedInTime(PostNext(s, e)) && !WentBackwards(PostNext(s, e))
  {
    var t := PostNext(s, e);
    assert t.sent == s.sent && t.active == s.active && t.clock == s.clock;
    if e.Check? && t != s && e.w in t.workers {
      assert s.workers[e.w].key in s.slots && s.active;
      assert t.workers == s.workers[e.w := Checked(s.workers[e.w].key, s.clock)];
      forall i | 0 <= i < |t.sent|
        ensures t.sent[i].key.number <= SeqAfter(t.clock)
      {
        SentAreNotAhead(s, i);
      }
    }
  }

  lemma SendStaysInTime(s: System, e: Event)
    requires InTime(s) && e.Send?
    ensures CheckedInTime(PostNext(s, e)) && !WentBackwards(PostNext(s, e))
  {
    var t := PostNext(s, e);
    PostShape(s, e);
    assert t.active == s.active;
    assert forall w :: w in t.workers ==> w in s.workers && t.workers[w] == s.workers[w];
  }

  lemma NextStaysInTime(s: System, e: Event)
    requires InTime(s) && !Overruns(s, e)
    ensures InTime(Next(s, e))
  {
    PlanStaysGood(s, e);
    PostStaysGood(s, e);
    if e.Send? {
      SendStaysInTime(s, e);
    } else if e.Claim? || e.Check? {
      CheckStaysInTime(s, e);
    } else {
      PlanStaysInTime(s, e);
    }
  }

  lemma {:induction false} StaysInTime(s: System, events: seq<Event>)
    requires InTime(s) && NeverOverruns(s, events)
    ensures InTime(Execute(s, events))
    decreases |events|
  {
    if events != [] {
      NextStaysInTime(s, events[0]);
      StaysInTime(Next(s, events[0]), events[1..]);
    }
  }

  ghost predicate Inverts(s: System, events: seq<Event>) {
    NeverOverruns(s, events) && WentBackwards(Execute(s, events))
  }

  /** Some run from here, in which nothing overruns any more, sends numbers backwards. */
  ghost predicate Doomed(s: System) {
    exists events :: Inverts(s, events)
  }

  lemma {:induction false} DoomedBefore(s: System, first: seq<Event>)
    requires (forall i :: 0 <= i < |first| ==> !first[i].Pass?) && Doomed(Execute(s, first))
    ensures Doomed(s)
    decreases |first|
  {
    if first != [] {
      DoomedBefore(Next(s, first[0]), first[1..]);
      var events :| Inverts(Next(s, first[0]), events);
      assert ([first[0]] + events)[1..] == events;
      assert Inverts(s, [first[0]] + events);
    }
  }

  /** The number that is due now is planned and sent. */
  ghost function PlanAndSend(s: System, fast: nat, key: Key): System {
    var planned := Execute(s, [Crash(fast), PlanRead(fast), PlanInsert(fast, key.dest)]);
    Execute(planned, [Claim(fast, key), Check(fast, Reaches, true), Send(fast, true, Done, true)])
  }

  lemma DueIsPlanned(s: System, fast: nat, key: Key)
    requires s.active && key.number == SeqAfter(s.clock) >= 1 && key !in s.slots
    ensures var t := Execute(s, [Crash(fast), PlanRead(fast), PlanInsert(fast, key.dest)]);
            && t.slots == s.slots[key := Slot(Pending, 0)] && t.workers == s.workers - {fast}
            && t.sent == s.sent && t.clock == s.clock && t.active
  {
    var crashed := Next(s, Crash(fast));
    var read := Next(crashed, PlanRead(fast));
    ExecuteThen(s, Crash(fast), [PlanRead(fast), PlanInsert(fast, key.dest)]);
    ExecuteThen(crashed, PlanRead(fast), [PlanInsert(fast, key.dest)]);
    ExecuteThen(read, PlanInsert(fast, key.dest), []);
  }

  lemma DueIsSent(s: System, fast: nat, key: Key)
    requires s.active && key.number == SeqAfter(s.clock) >= 1 && key !in s.slots
    ensures var t := PlanAndSend(s, fast, key);
            && t.sent == s.sent + [Sent(key, s.clock, s.clock)]
            && t.workers == s.workers - {fast} && s.slots.Keys <= t.slots.Keys
  {
    DueIsPlanned(s, fast, key);
    CurrentCopyGoesOut(Execute(s, [Crash(fast), PlanRead(fast), PlanInsert(fast, key.dest)]), fast, key);
  }

  lemma CheckedComesLate(s: System, slow: nat, i: nat)
    requires slow in s.workers && s.workers[slow].Checked? && s.workers[slow].key in s.slots
    requires i < |s.sent| && s.sent[i].key.dest == s.workers[slow].key.dest
    requires s.sent[i].key.number > s.workers[slow].key.number
    ensures Doomed(s)
  {
    CheckedLands(s, slow);
    var last := Execute(s, [Send(slow, true, Done, true)]);
    assert Inverted(last.sent[i], last.sent[|s.sent|]);
    assert Execute(last, []) == last && Inverts(last, []);
    DoomedBefore(s, [Send(slow, true, Done, true)]);
  }

  /** Once the hour is over, the next number can be sent before the one that was checked. */
  lemma OverrunDooms(s: System, e: Event)
    requires Good(s) && CheckedInTime(s) && Overruns(s, e)
    ensures Doomed(Next(s, e))
  {
    var late := Next(s, e);
    var slow :| slow in s.workers && s.workers[slow].Checked?;
    var fast: nat := if slow == 0 then 1 else 0;
    var key := s.workers[slow].key;
    var next := Key(SeqAfter(late.clock), key.dest);
    DueIsSent(late, fast, next);
    var overtaken := PlanAndSend(late, fast, next);
    CheckedComesLate(overtaken, slow, |s.sent|);
    var planned := Execute(late, [Crash(fast), PlanRead(fast), PlanInsert(fast, next.dest)]);
    DoomedBefore(planned, [Claim(fast, next), Check(fast, Reaches, true), Send(fast, true, Done, true)]);
    DoomedBefore(late, [Crash(fast), PlanRead(fast), PlanInsert(fast, next.dest)]);
  }

  /** The exact condition: a step leads to a run that sends numbers backwards to a destination,
      with nothing overrunning any more, if and only if it ends an hour of an active lockdown
      while some worker holds a checked reminder. */
  lemma BackwardsExactlyByOverruns(s: System, e: Event)
    requires InTime(s)
    ensures Doomed(Next(s, e)) <==> Overruns(s, e)
  {
    if Overruns(s, e) {
      OverrunDooms(s, e);
    } else {
      NextStaysInTime(s, e);
      forall events | NeverOverruns(Next(s, e), events)
        ensures !Inverts(Next(s, e), events)
      {
        StaysInTime(Next(s, e), events);
      }
    }
  }

  ghost predicate LeadsBackwards(s: System) {
    exists events :: WentBackwards(Execute(s, events))
  }

  lemma {:induction false} LeadsBackwardsAfter(s: System, first: seq<Event>)
    requires LeadsBackwards(Execute(s, first))
    ensures LeadsBackwards(s)
    decreases |first|
  {
    if first != [] {
      LeadsBackwardsAfter(Next(s, first[0]), first[1..]);
      var events :| WentBackwards(Execute(Next(s, first[0]), events));
      ExecuteThen(s, first[0], events);
      assert WentBackwards(Execute(s, [first[0]] + events));
    }
  }

  lemma OverrunLeadsBackwards(s: System, e: Event)
    requires Good(s) && CheckedInTime(s) && Overruns(s, e)
    ensures LeadsBackwards(s)
  {
    OverrunDooms(s, e);
    var events :| Inverts(Next(s, e), events);
    ExecuteThen(s, e, events);
    assert WentBackwards(Execute(s, [e] + events));
  }

  lemma HoldingTheFirstBack(s: System, key: Key)
    requires Good(s) && CanPost(s, 0, key) && s.workers == map[] && s.sent == []
    ensures LeadsBackwards(s)
  {
    var first := [Claim(0, key), Check(0, Reaches, true)];
    ExecuteThen(s, Claim(0, key), [Check(0, Reaches, true)]);
    ExecuteThen(Next(s, Claim(0, key)), Check(0, Reaches, true), []);
    CheckedOnce(s, key, Reaches, true);
    RemindersAreCurrent(s, first);
    var checked := Execute(s, first);
    assert checked.workers == map[0 := Checked(key, s.clock)] && checked.sent == [] && checked.clock == s.clock;
    OverrunLeadsBackwards(checked, Pass(EVERY));
    LeadsBackwardsAfter(s, first);
  }

  /** A lockdown whose workers are idle is in time, and has a run that sends numbers backwards
      all the same. */
  lemma NumbersCanGoBackwards(s: System, dest: nat)
    requires Good(s) && s.active && s.planners == map[] && s.workers == map[] && s.sent == []
    ensures InTime(s) && LeadsBackwards(s)
  {
    var key, plan := Key(SeqAfter(s.clock) + 1, dest), [Pass(EVERY), PlanRead(0), PlanInsert(0, dest)];
    NextHourIsPlanned(s, 0, key);
    RemindersAreCurrent(s, plan);
    HoldingTheFirstBack(Execute(s, plan), key);
    LeadsBackwardsAfter(s, plan);
  }

  // The table of copies, as one replica works on it.

  /** What one undisturbed posting leaves of a claimed copy: still claimed when the last write
      fails. */
  function AfterPosting(slot: Slot, number: nat, clock: nat, active: bool, route: Route, answer: Answer,
                        writes: bool): Slot {
    if !writes then slot
    else if MayGoOut(number, clock, active, route) then Answered(slot, answer)
    else Held(slot, number, clock, active, route)
  }

  function SlotAfter(s: System, key: Key, route: Route, answer: Answer, writes: bool): Slot
    requires key in s.slots
  {
    AfterPosting(s.slots[key].(state := Posting), key.number, s.clock, s.active, route, answer, writes)
  }

  ghost predicate Posts(s: System, key: Key) {
    key in s.slots && s.slots[key].state == Pending && s.workers == map[]
  }

  function PostingSteps(key: Key, check: Event, send: Event): seq<Event> {
    [Claim(0, key), check, send]
  }

  lemma ThreeSteps(s: System, key: Key, check: Event, send: Event)
    ensures Execute(s, PostingSteps(key, check, send)) == Next(Next(Next(s, Claim(0, key)), check), send)
  {
    ExecuteThen(s, Claim(0, key), [check, send]);
    ExecuteThen(Next(s, Claim(0, key)), check, [send]);
    ExecuteThen(Next(Next(s, Claim(0, key)), check), send, []);
  }

  lemma ClaimedOnce(s: System, key: Key)
    requires Posts(s, key)
    ensures Next(s, Claim(0, key))
            == s.(slots := s.slots[key := s.slots[key].(state := Posting)], workers := map[0 := Claimed(key)])
  {
  }

  lemma PostingStops(s: System, key: Key, route: Route, send: Event, writes: bool)
    requires s.workers == map[] && send.Send? && send.w == 0
    requires !Posts(s, key) || !MayGoOut(key.number, s.clock, s.active, route)
    ensures Execute(s, PostingSteps(key, Check(0, route, writes), send))
            == if Posts(s, key)
               then s.(slots := s.slots[key := SlotAfter(s, key, route, send.answer, writes)])
               else s
  {
    ThreeSteps(s, key, Check(0, route, writes), send);
    if Posts(s, key) {
      ClaimedOnce(s, key);
      var checked := Next(Next(s, Claim(0, key)), Check(0, route, writes));
      assert checked.workers == map[];
      assert checked.slots == s.slots[key := SlotAfter(s, key, route, send.answer, writes)];
    }
  }

  lemma CheckedOnce(s: System, key: Key, route: Route, writes: bool)
    requires Posts(s, key) && MayGoOut(key.number, s.clock, s.active, route)
    ensures Next(Next(s, Claim(0, key)), Check(0, route, writes))
            == s.(slots := s.slots[key := s.slots[key].(state := Posting)], workers := map[0 := Checked(key, s.clock)])
  {
    ClaimedOnce(s, key);
  }

  lemma PostingSends(s: System, key: Key, route: Route, send: Event)
    requires Posts(s, key) && MayGoOut(key.number, s.clock, s.active, route)
    requires send.Send? && send.w == 0 && (send.answer == Done ==> send.lands)
    ensures Execute(s, PostingSteps(key, Check(0, route, send.writes), send))
            == s.(slots := s.slots[key := SlotAfter(s, key, route, send.answer, send.writes)],
                  sent := if send.lands then s.sent + [Sent(key, s.clock, s.clock)] else s.sent)
  {
    ThreeSteps(s, key, Check(0, route, send.writes), send);
    CheckedOnce(s, key, route, send.writes);
    var done := Execute(s, PostingSteps(key, Check(0, route, send.writes), send));
    assert done.workers == map[];
    assert done.slots == s.slots[key := SlotAfter(s, key, route, send.answer, send.writes)];
  }

  lemma PostingLeaves(s: System, key: Key, route: Route, send: Event)
    requires s.workers == map[] && send.Send? && send.w == 0 && (send.answer == Done ==> send.lands)
    ensures Execute(s, PostingSteps(key, Check(0, route, send.writes), send))
            == if key !in s.slots || s.slots[key].state != Pending then s
               else
                 s.(slots := s.slots[key := SlotAfter(s, key, route, send.answer, send.writes)],
                    sent := if send.lands && MayGoOut(key.number, s.clock, s.active, route)
                            then s.sent + [Sent(key, s.clock, s.clock)] else s.sent)
  {
    if Posts(s, key) && MayGoOut(key.number, s.clock, s.active, route) {
      PostingSends(s, key, route, send);
    } else {
      PostingStops(s, key, route, send, send.writes);
    }
  }

  lemma HeldEndsAs(slot: Slot, number: nat, clock: nat, active: bool, route: Route)
    requires !active || clock >= 3600 * (number + 1) || route != Reaches
    ensures !MayGoOut(number, clock, active, route)
    ensures Held(slot, number, clock, active, route)
            == if !active then Slot(Pending, slot.attempts)
               else if clock >= 3600 * (number + 1) || route == Unlinked then Slot(Failed, slot.attempts + 1)
               else if route == Unreadable then Slot(Pending, slot.attempts)
               else Slot(if slot.attempts < 2 then Pending else Failed, slot.attempts + 1)
  {
  }

  /** What an undisturbed posting makes of a pending copy that does not go out. A superseded or
      unlinked copy ends, a silent destination takes one of three attempts, and a lockdown that
      is over or a link that cannot be read costs none. */
  lemma HeldCopyEndsAs(s: System, key: Key, route: Route, send: Event) returns (left: Slot)
    requires Posts(s, key) && send.Send? && send.w == 0 && (send.answer == Done ==> send.lands)
    requires !s.active || s.clock >= 3600 * (key.number + 1) || route != Reaches
    ensures Execute(s, PostingSteps(key, Check(0, route, true), send)) == s.(slots := s.slots[key := left])
    ensures var n := s.slots[key].attempts;
            left == (if !s.active then Slot(Pending, n)
                     else if s.clock >= 3600 * (key.number + 1) || route == Unlinked then Slot(Failed, n + 1)
                     else if route == Unreadable then Slot(Pending, n)
                     else Slot(if n < 2 then Pending else Failed, n + 1))
  {
    HeldEndsAs(s.slots[key].(state := Posting), key.number, s.clock, s.active, route);
    PostingStops(s, key, route, send, true);
    left := SlotAfter(s, key, route, send.answer, true);
  }

  /** A current copy whose destination takes it goes out: it is posted once its send is
      recorded, kept for free after a wait, and given three attempts otherwise. */
  lemma SentCopyEndsAs(s: System, key: Key, send: Event)
    requires Posts(s, key) && send.Send? && send.w == 0 && (send.answer == Done ==> send.lands) && send.writes
    requires s.active && s.clock < 3600 * (key.number + 1)
    ensures var n, t := s.slots[key].attempts, Execute(s, PostingSteps(key, Check(0, Reaches, true), send));
            && t.sent == (if send.lands then s.sent + [Sent(key, s.clock, s.clock)] else s.sent)
            && t.slots == (match send.answer
                           case Done => s.slots[key := Slot(Posted, n)]
                           case RetryFree => s.slots
                           case Fails => s.slots[key := Slot(if n < 2 then Pending else Failed, n + 1)])
  {
    PostingSends(s, key, Reaches, send);
    assert s.slots[key := s.slots[key]] == s.slots;
  }

  /** A write that fails leaves the copy claimed, whatever was sent. */
  lemma UnwrittenCopyStaysClaimed(s: System, key: Key, route: Route, lands: bool, answer: Answer)
    requires Posts(s, key) && (answer == Done ==> lands)
    ensures Execute(s, PostingSteps(key, Check(0, route, false), Send(0, lands, answer, false))).slots
            == s.slots[key := Slot(Posting, s.slots[key].attempts)]
  {
    PostingLeaves(s, key, route, Send(0, lands, answer, false));
  }

  /** A copy whose worker crashed is given back as it was; one that was not pending is not claimed. */
  lemma CrashedCopyIsGivenBack(s: System, w: nat, key: Key)
    requires w !in s.workers && w !in s.planners && key in s.slots && s.slots[key].state != Posting
    ensures s.slots[key].state == Pending ==> Next(s, Claim(w, key)).slots[key].state == Posting
    ensures Execute(s, [Claim(w, key), Crash(w), ReleaseStale(key)]) == s
  {
    var claimed := Next(s, Claim(w, key));
    var crashed := Next(claimed, Crash(w));
    ExecuteThen(s, Claim(w, key), [Crash(w), ReleaseStale(key)]);
    ExecuteThen(claimed, Crash(w), [ReleaseStale(key)]);
    ExecuteThen(crashed, ReleaseStale(key), []);
    assert crashed.workers == s.workers && crashed.planners == s.planners;
    assert Next(crashed, ReleaseStale(key)).slots == s.slots;
  }

  /** A worker whose claim was given back meanwhile changes the copy no more: its check and its
      answer are written on a claimed copy only, and it is done with the copy either way. */
  lemma LateWorkerKeepsTheCopy(s: System, e: Event)
    requires e.Check? || e.Send?
    requires e.w in s.workers && s.workers[e.w].key in s.slots && s.slots[s.workers[e.w].key].state != Posting
    ensures Next(s, e).slots == s.slots && Next(s, e).planned == s.planned
    ensures e.Send? && s.workers[e.w].Checked? && (e.answer == Done ==> e.lands) ==>
              Next(s, e).workers == s.workers - {e.w}
              && (!e.lands ==> Next(s, e).sent == s.sent)
  {
  }

  /** Nothing is planned in the first hour, for a lockdown that is over, or twice. */
  lemma PlansOnlyWhatIsMissing(s: System, p: nat, dest: nat)
    requires Good(s) && p !in s.planners
    ensures var t := Execute(s, [PlanRead(p), PlanInsert(p, dest)]);
            var key := Key(SeqAfter(s.clock), dest);
            && (s.clock < 3600 ==> t == s)
            && (s.clock >= 3600 && (!s.active || key in s.slots) ==> t == s.(planners := t.planners))
            && (s.clock >= 3600 && s.active && key !in s.slots ==>
                  t == s.(planners := t.planners, slots := s.slots[key := Slot(Pending, 0)],
                          planned := s.planned + [key]))
  {
    var read := Next(s, PlanRead(p));
    ExecuteThen(s, PlanRead(p), [PlanInsert(p, dest)]);
    ExecuteThen(read, PlanInsert(p, dest), []);
  }

  /** The copies added: one for each destination that had none. */
  ghost predicate OnePerDest(start: map<Key, Slot>, added: seq<Key>, number: nat, dests: seq<nat>) {
    && (forall key :: key in added <==> key.number == number && key.dest in dests && key !in start)
    && (forall i, j :: 0 <= i < j < |added| ==> added[i] != added[j])
  }

  ghost function WithCopies(start: map<Key, Slot>, added: seq<Key>): map<Key, Slot> {
    start + map key | key in added :: Slot(Pending, 0)
  }

  /** The table after planning a number for some destinations: what was there stays. */
  ghost predicate PlannedFor(start: map<Key, Slot>, here: map<Key, Slot>, added: seq<Key>, number: nat,
                             dests: seq<nat>) {
    here == WithCopies(start, added) && OnePerDest(start, added, number, dests)
  }

  lemma OneMoreCopy(start: map<Key, Slot>, added: seq<Key>, key: Key)
    ensures WithCopies(start, added + [key]) == WithCopies(start, added)[key := Slot(Pending, 0)]
  {
  }

  lemma PlannedOneMore(start: map<Key, Slot>, here: map<Key, Slot>, added: seq<Key>, number: nat, dests: seq<nat>,
                       dest: nat)
    requires PlannedFor(start, here, added, number, dests)
    ensures var key := Key(number, dest);
            if key in here then PlannedFor(start, here, added, number, dests + [dest])
            else PlannedFor(start, here[key := Slot(Pending, 0)], added + [key], number, dests + [dest])
  {
    var key := Key(number, dest);
    if key !in here {
      OneMoreCopy(start, added, key);
      assert OnePerDest(start, added + [key], number, dests + [dest]);
    } else {
      assert OnePerDest(start, added, number, dests + [dest]);
    }
  }

  lemma PlannedUpTo(start: map<Key, Slot>, here: map<Key, Slot>, added: seq<Key>, number: nat, dests: seq<nat>, i: nat)
    requires i < |dests| && PlannedFor(start, here, added, number, dests[..i])
    ensures var key := Key(number, dests[i]);
            if key in here then PlannedFor(start, here, added, number, dests[..i + 1])
            else PlannedFor(start, here[key := Slot(Pending, 0)], added + [key], number, dests[..i + 1])
  {
    PlannedOneMore(start, here, added, number, dests[..i], dests[i]);
    assert dests[..i] + [dests[i]] == dests[..i + 1];
  }

  function Released(slot: Slot, countAttempt: bool): Slot {
    Slot(Pending, slot.attempts + if countAttempt then 1 else 0)
  }

  class AlertTable {
    var slots: map<Key, Slot>
    var planned: seq<Key>
    var sent: seq<Sent>

    constructor ()
      ensures State(0, true) == EMPTY
    {
      slots, planned, sent := map[], [], [];
    }

    /** The system with no other call in flight. */
    function State(clock: nat, active: bool): System
      reads this
    {
      System(clock, active, slots, planned, map[], map[], sent)
    }

    /** Inserts one pending copy for each destination that has none for this number, and
        nothing at all when the lockdown is no longer active. */
    method PlanReminderSlots(number: nat, dests: seq<nat>, active: bool) returns (inserted: nat, ghost added: seq<Key>)
      modifies this
      ensures forall key :: key in added <==>
                active && key.number == number && key.dest in dests && key !in old(slots)
      ensures slots == old(slots) + map key | key in added :: Slot(Pending, 0)
      ensures forall i, j :: 0 <= i < j < |added| ==> added[i] != added[j]
      ensures planned == old(planned) + added && inserted == |added| && sent == old(sent)
    {
      inserted, added := 0, [];
      if !active {
        return;
      }
      for i := 0 to |dests|
        invariant planned == old(planned) + added && inserted == |added| && sent == old(sent)
        invariant PlannedFor(old(slots), slots, added, number, dests[..i])
      {
        PlannedUpTo(old(slots), slots, added, number, dests, i);
        var key := Key(number, dests[i]);
        if key !in slots {
          slots := slots[key := Slot(Pending, 0)];
          planned := planned + [key];
          inserted := inserted + 1;
          added := added + [key];
        }
      }
      assert dests[..|dests|] == dests;
    }

    /** Plans the reminder that is due: nothing in the first hour, nothing when any copy of
        this number exists, and otherwise one pending copy for each destination that can be
        reached now and that the alert went to. `kinds` is where the alert went and `dests`
        the destinations resolved again, None where they could not be read. */
    method PlanReminder(clock: nat, kinds: Option<set<nat>>, dests: Option<seq<nat>>, active: bool)
      returns (inserted: nat, ghost added: seq<Key>)
      modifies this
      ensures planned == old(planned) + added && inserted == |added| && sent == old(sent)
      ensures var due := clock >= 3600 && !exists key :: key in old(slots) && key.number == SeqAfter(clock);
              forall key :: key in added <==>
                && due && active && kinds.Some? && dests.Some?
                && key.number == SeqAfter(clock) && key.dest in dests.value && key.dest in kinds.value
      ensures slots == old(slots) + map key | key in added :: Slot(Pending, 0)
      ensures forall i, j :: 0 <= i < j < |added| ==> added[i] != added[j]
    {
      var number := SeqAfter(clock);
      if number < 1 || exists key :: key in slots && key.number == number {
        return 0, [];
      }
      if kinds == None || kinds.value == {} || dests == None {
        return 0, [];
      }
      var plan := [];
      for i := 0 to |dests.value|
        invariant forall d :: d in plan <==> d in dests.value[..i] && d in kinds.value
      {
        assert dests.value[..i + 1] == dests.value[..i] + [dests.value[i]];
        if dests.value[i] in kinds.value {
          plan := plan + [dests.value[i]];
        }
      }
      assert dests.value[..|dests.value|] == dests.value;
      if |plan| == 0 {
        return 0, [];
      }
      inserted, added := PlanReminderSlots(number, plan, active);
    }

    method Release(key: Key, countAttempt: bool, writes: bool)
      requires key in slots
      modifies this`slots
      ensures slots == if writes then old(slots)[key := Released(old(slots)[key], countAttempt)] else old(slots)
    {
      if writes {
        slots := slots[key := Released(slots[key], countAttempt)];
      }
    }

    /** Ends a copy for good. */
    method Fail(key: Key, writes: bool) returns (ended: bool)
      requires key in slots
      modifies this`slots
      ensures ended == writes
      ensures slots == if writes then old(slots)[key := Slot(Failed, old(slots)[key].attempts + 1)] else old(slots)
    {
      if writes {
        slots := slots[key := Slot(Failed, slots[key].attempts + 1)];
      }
      return writes;
    }

    /** Gives a copy back for another try, or ends it when that was the last one. */
    method CountedRelease(key: Key, writes: bool) returns (ended: bool)
      requires key in slots
      modifies this`slots
      ensures ended <==> writes && old(slots)[key].attempts + 1 >= MAX_ATTEMPTS
      ensures slots == if !writes then old(slots)
                       else old(slots)[key := Slot(if ended then Failed else Pending, old(slots)[key].attempts + 1)]
    {
      if slots[key].attempts + 1 >= MAX_ATTEMPTS {
        ended := Fail(key, writes);
        return;
      }
      Release(key, true, writes);
      return false;
    }

    /** The check, the destination's own checks and the send. */
    method PostClaimed(key: Key, clock: nat, active: bool, route: Route, lands: bool, answer: Answer, writes: bool)
      returns (progress: bool)
      requires key in slots && slots[key].state == Posting
      requires answer == Done ==> lands
      modifies this`slots, this`sent
      ensures slots == old(slots)[key := AfterPosting(old(slots)[key], key.number, clock, active, route, answer,
                                                      writes)]
      ensures sent == if lands && MayGoOut(key.number, clock, active, route) then old(sent) + [Sent(key, clock, clock)]
                      else old(sent)
      ensures progress <==> slots[key].state in {Posted, Failed}
    {
      if !active {
        Release(key, false, writes);
        return false;
      }
      if key.number < SeqAfter(clock) {
        progress := Fail(key, writes);
        return;
      }
      match route {
        case Silent =>
          progress := CountedRelease(key, writes);
          return;
        case Unreadable =>
          Release(key, false, writes);
          return false;
        case Unlinked =>
          progress := Fail(key, writes);
          return;
        case Reaches =>
      }
      if lands {
        sent := sent + [Sent(key, clock, clock)];
      }
      match answer {
        case Done =>
          if writes {
            slots := slots[key := slots[key].(state := Posted)];
          }
          return writes;
        case RetryFree =>
          Release(key, false, writes);
          return false;
        case Fails =>
          progress := CountedRelease(key, writes);
      }
    }

    /** Claims, checks and posts one copy: exactly the three steps of a worker that nobody
        interrupts. It reports whether the copy was posted or ended. */
    method PostAlertSlot(key: Key, clock: nat, active: bool, route: Route, lands: bool, answer: Answer, writes: bool)
      returns (progress: bool)
      requires answer == Done ==> lands
      modifies this
      ensures State(clock, active) ==
                Execute(old(State(clock, active)),
                        PostingSteps(key, Check(0, route, writes), Send(0, lands, answer, writes)))
      ensures progress <==> key in slots && slots != old(slots) && slots[key].state in {Posted, Failed}
    {
      PostingLeaves(State(clock, active), key, route, Send(0, lands, answer, writes));
      if key !in slots || slots[key].state != Pending {
        return false;
      }
      slots := slots[key := slots[key].(state := Posting)];
      progress := PostClaimed(key, clock, active, route, lands, answer, writes);
    }
  }
}
