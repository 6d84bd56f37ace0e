/** The race between the join guard and the end of a lockdown. A guard call reads the lockdown
    as active, writes a pending row some time later and then re-reads the lockdown to find out
    whether it still holds anybody; the lift, the worker, the ban run and other guard calls
    move in between. A pending row of a lifted lockdown is a joiner nobody will ever handle. */
module LockdownGuardRace {
  import opened LockdownRows

  /** A row at rest, or held by the worker, the ban run or the lift. The holder of a row that
      was pending may put it back for another attempt. A user whose row was deleted gets a new
      row with a new ID. */
  datatype Row = At(id: nat, state: JoinerState) | Held(id: nat, wasPending: bool)

  /** A guard call withdraws the row it wrote, known by its ID. */
  datatype Guard =
    | Entered
    | Wrote(user: int, id: nat, reclaimed: bool)
    | Withdrawing(user: int, id: nat, reclaimed: bool)

  datatype System = System(ld: LockdownState, rows: map<int, Row>, nextId: nat, guards: map<nat, Guard>)

  datatype Event =
    | Enter(g: nat)
    | Write(g: nat, user: int)
    | Leave(g: nat)
    | Reread(g: nat, fails: bool)
    | Withdraw(g: nat, fails: bool)
    | Crash(g: nat)
    | Exempted(user: int)
    | Claim(user: int)
    | Settle(user: int, to: JoinerState)
    | ReleaseStale(user: int, request: bool)
    | BeginLift
    | CancelPending
    | FinishLift

  predicate Open(r: Row) {
    r.Held? || Unfinished(r.state)
  }

  predicate IsPending(r: Row) {
    r.At? && r.state == Pending
  }

  /** The guard call will look at the very row the user has now. */
  predicate Looks(s: System, g: nat, user: int) {
    && g in s.guards && !s.guards[g].Entered? && s.guards[g].user == user
    && user in s.rows && s.rows[user].id == s.guards[g].id
  }

  ghost predicate InFlight(s: System, user: int) {
    exists g :: Looks(s, g, user)
  }

  ghost function Without(s: System, g: nat): System {
    s.(guards := s.guards - {g})
  }

  ghost function GuardNext(s: System, e: Event): System {
    match e
    case Enter(g) =>
      if s.ld == Active && g !in s.guards then s.(guards := s.guards[g := Entered]) else s
    case Write(g, user) =>
      if g !in s.guards || !s.guards[g].Entered? then s
      else if user !in s.rows then
        s.(rows := s.rows[user := At(s.nextId, Pending)], nextId := s.nextId + 1,
           guards := s.guards[g := Wrote(user, s.nextId, false)])
      else if s.rows[user].At? && Reclaimable(s.rows[user].state) then
        s.(rows := s.rows[user := At(s.rows[user].id, Pending)],
           guards := s.guards[g := Wrote(user, s.rows[user].id, true)])
      else s
    case Leave(g) =>
      if g in s.guards && s.guards[g].Entered? then Without(s, g) else s
    case Reread(g, fails) =>
      if g !in s.guards || !s.guards[g].Wrote? then s
      else if fails || s.ld == Active then Without(s, g)
      else s.(guards := s.guards[g := Withdrawing(s.guards[g].user, s.guards[g].id, s.guards[g].reclaimed)])
    case Withdraw(g, fails) =>
      if g !in s.guards || !s.guards[g].Withdrawing? then s
      else
        var user, id := s.guards[g].user, s.guards[g].id;
        if !fails && user in s.rows && s.rows[user] == At(id, Pending) then
          Without(s, g).(rows := if s.guards[g].reclaimed then s.rows[user := At(id, Cancelled)] else s.rows - {user})
        else Without(s, g)
    case Crash(g) =>
      if g in s.guards then Without(s, g) else s
    case Exempted(user) =>
      if user in s.rows && IsPending(s.rows[user])
      then s.(rows := s.rows[user := At(s.rows[user].id, Exempt)]) else s
    case _ => s
  }

  /** A claim names the state its caller saw, so it succeeds whatever the lockdown's state is
      by then; only the lists the claims are taken from look at the lockdown. */
  ghost function RowNext(s: System, e: Event): System {
    match e
    case Claim(user) =>
      if user in s.rows && s.rows[user].At? && RunClaimable(s.rows[user].state)
      then s.(rows := s.rows[user := Held(s.rows[user].id, s.rows[user].state == Pending)]) else s
    case Settle(user, to) =>
      if user in s.rows && s.rows[user].Held? && to !in {Acting, Unbanning}
          && (to == Pending ==> s.rows[user].wasPending)
      then s.(rows := s.rows[user := At(s.rows[user].id, to)]) else s
    case ReleaseStale(user, request) =>
      if user in s.rows && s.rows[user].Held? && s.ld != Lifted
      then
        var to := if s.ld == Active then Pending else if request then Cancelled else Banned;
        s.(rows := s.rows[user := At(s.rows[user].id, to)])
      else s
    case _ => s
  }

  ghost function LiftNext(s: System, e: Event): System {
    match e
    case BeginLift => if s.ld == Active then s.(ld := Lifting) else s
    case CancelPending =>
      if s.ld != Active
      then s.(rows := map u | u in s.rows :: if IsPending(s.rows[u]) then At(s.rows[u].id, Cancelled) else s.rows[u])
      else s
    case FinishLift =>
      if s.ld == Lifting && (forall u :: u in s.rows ==> !Open(s.rows[u])) then s.(ld := Lifted) else s
    case _ => s
  }

  ghost function Next(s: System, e: Event): System {
    if e.BeginLift? || e.CancelPending? || e.FinishLift? then LiftNext(s, e)
    else if e.Claim? || e.Settle? || e.ReleaseStale? then RowNext(s, e)
    else GuardNext(s, e)
  }

  ghost function Execute(s: System, events: seq<Event>): System
    decreases |events|
  {
    if events == [] then s else Execute(Next(s, events[0]), events[1..])
  }

  ghost predicate Fresh(s: System) {
    && s.ld == Active && s.guards == map[]
    && forall u :: u in s.rows ==> s.rows[u].id < s.nextId
  }

  /** A row that is pending, or that its holder may make pending again. */
  predicate Waits(r: Row) {
    IsPending(r) || (r.Held? && r.wasPending)
  }

  /** If the user's row still waits after the lift, it is at rest and a guard call that has not
      returned will look at it. */
  ghost predicate Answered(s: System, u: int) {
    s.ld == Lifted && u in s.rows && Waits(s.rows[u]) ==> s.rows[u].At? && InFlight(s, u)
  }

  /** The only guard call that will look at the user's row. */
  ghost predicate Last(s: System, g: nat, u: int) {
    Looks(s, g, u) && forall h :: Looks(s, h, u) ==> h == g
  }

  /** A mishap for a user whose row is pending although the lockdown is over: the last guard
      call that could still take the row back cannot re-read the lockdown, cannot withdraw, or
      crashes, or somebody claims the row. Before the lift is finished none of these hurts. */
  ghost predicate Mishap(s: System, e: Event, u: int) {
    && s.ld == Lifted && u in s.rows && IsPending(s.rows[u])
    && match e
       case Reread(g, fails) => fails && Last(s, g, u) && s.guards[g].Wrote?
       case Withdraw(g, fails) => fails && Last(s, g, u) && s.guards[g].Withdrawing?
       case Crash(g) => Last(s, g, u)
       case Claim(user) => user == u
       case _ => false
  }

  ghost predicate Smooth(s: System, events: seq<Event>, u: int)
    decreases |events|
  {
    events == [] || (!Mishap(s, events[0], u) && Smooth(Next(s, events[0]), events[1..], u))
  }

  // The theorem.

  /** Unless it is the last one, another guard call stays in flight for the user. */
  lemma GuardStaysAnswered(s: System, e: Event, u: int)
    requires Answered(s, u) && !Mishap(s, e, u)
    ensures Answered(GuardNext(s, e), u)
  {
    var t := GuardNext(s, e);
    if t.ld == Lifted && u in t.rows && Waits(t.rows[u]) {
      if e.Write? && t != s && u == e.user {
        assert Looks(t, e.g, u);
      } else {
        assert u in s.rows && s.rows[u] == t.rows[u];
        var g :| Looks(s, g, u) && (g in t.guards || Last(s, g, u));
        assert Looks(t, g, u);
      }
    }
  }

  lemma RowStaysAnswered(s: System, e: Event, u: int)
    requires Answered(s, u) && !Mishap(s, e, u)
    ensures Answered(RowNext(s, e), u)
  {
    var t := RowNext(s, e);
    if t.ld == Lifted && u in t.rows && Waits(t.rows[u]) {
      assert t.rows[u] == s.rows[u] && t.guards == s.guards;
      var g :| Looks(s, g, u);
      assert Looks(t, g, u);
    }
  }

  lemma NextStaysAnswered(s: System, e: Event, u: int)
    requires Answered(s, u) && !Mishap(s, e, u)
    ensures Answered(Next(s, e), u)
  {
    GuardStaysAnswered(s, e, u);
    RowStaysAnswered(s, e, u);
  }

  /** Over every run with no mishap for the user: if the user's row still waits once the lift is
      finished, a guard call is still in flight for it; none waits once all calls returned. */
  lemma {:induction false} LiftedIsAnswered(s: System, events: seq<Event>, u: int)
    requires Answered(s, u) && Smooth(s, events, u)
    ensures Answered(Execute(s, events), u)
    ensures var t := Execute(s, events);
            t.ld == Lifted && t.guards == map[] && u in t.rows ==> !Waits(t.rows[u])
    decreases |events|
  {
    if events != [] {
      NextStaysAnswered(s, events[0], u);
      LiftedIsAnswered(Next(s, events[0]), events[1..], u);
    }
  }

  ghost predicate Clean(s: System) {
    s.ld == Lifted && s.guards == map[] && forall u :: u in s.rows ==> !Waits(s.rows[u])
  }

  /** Once a lifted lockdown has no guard call in flight and no waiting row, no step of any
      actor ever brings one back. */
  lemma {:induction false} LiftedStaysClean(s: System, events: seq<Event>)
    requires Clean(s)
    ensures Clean(Execute(s, events))
    decreases |events|
  {
    if events != [] {
      assert Clean(Next(s, events[0]));
      LiftedStaysClean(Next(s, events[0]), events[1..]);
    }
  }

  /** The promise of the write-then-re-read order, for every run of a lockdown that has no
      mishap for the user, whatever goes wrong before the lift is finished. */
  lemma SmoothLiftLeavesNobodyPending(s: System, events: seq<Event>, u: int)
    requires Fresh(s) && Smooth(s, events, u)
    ensures var t := Execute(s, events);
            t.ld == Lifted && u in t.rows && Waits(t.rows[u]) ==> InFlight(t, u)
    ensures var t := Execute(s, events);
            t.ld == Lifted && t.guards == map[] && u in t.rows ==> !Waits(t.rows[u])
  {
    LiftedIsAnswered(s, events, u);
  }

  // The mishaps are exactly what the promise depends on.

  /** A row that waits in a lifted lockdown and that no guard call will look at. */
  ghost predicate Orphaned(s: System, u: int) {
    s.ld == Lifted && u in s.rows && Waits(s.rows[u]) && !InFlight(s, u)
  }

  ghost predicate Orphans(s: System, events: seq<Event>, u: int) {
    Smooth(s, events, u) && Orphaned(Execute(s, events), u)
  }

  /** Some run from here, with no further mishap, orphans the user's row. */
  ghost predicate Doomed(s: System, u: int) {
    exists events :: Orphans(s, events, u)
  }

  lemma OrphanedIsDoomed(s: System, u: int)
    requires Orphaned(s, u)
    ensures Doomed(s, u)
  {
    assert Orphans(s, [], u);
  }

  lemma DoomedBefore(s: System, e: Event, u: int)
    requires !Mishap(s, e, u) && Doomed(Next(s, e), u)
    ensures Doomed(s, u)
  {
    var events :| Orphans(Next(s, e), events, u);
    assert ([e] + events)[1..] == events;
    assert Orphans(s, [e] + events, u);
  }

  /** Guard calls find a claimed row not pending, and return without it. */
  lemma {:induction false} ClaimedIsDoomed(s: System, u: int)
    requires s.ld == Lifted && u in s.rows && s.rows[u].Held? && s.rows[u].wasPending
    ensures Doomed(s, u)
    decreases s.guards.Keys
  {
    if g :| Looks(s, g, u) {
      var returned := Without(s, g);
      assert returned.guards.Keys == s.guards.Keys - {g};
      ClaimedIsDoomed(returned, u);
      var must := if s.guards[g].Wrote? then Next(s, Reread(g, false)) else s;
      assert Next(must, Withdraw(g, false)).guards == returned.guards;
      DoomedBefore(must, Withdraw(g, false), u);
      if s.guards[g].Wrote? {
        DoomedBefore(s, Reread(g, false), u);
      }
    } else {
      OrphanedIsDoomed(s, u);
    }
  }

  lemma MishapDooms(s: System, e: Event, u: int)
    requires Mishap(s, e, u)
    ensures Doomed(Next(s, e), u)
  {
    if e.Claim? {
      ClaimedIsDoomed(Next(s, e), u);
    } else {
      assert Next(s, e) == Without(s, e.g);
      assert forall h :: Looks(Next(s, e), h, u) ==> Looks(s, h, u);
      OrphanedIsDoomed(Next(s, e), u);
    }
  }

  /** The exact condition: a step leads to a run that orphans the user's row, with no further
      mishap, if and only if the step is a mishap for that user. */
  lemma OrphanedExactlyByMishaps(s: System, e: Event, u: int)
    requires Answered(s, u)
    ensures Doomed(Next(s, e), u) <==> Mishap(s, e, u)
  {
    if Mishap(s, e, u) {
      MishapDooms(s, e, u);
    } else {
      NextStaysAnswered(s, e, u);
      forall events | Smooth(Next(s, e), events, u)
        ensures !Orphans(Next(s, e), events, u)
      {
        LiftedIsAnswered(Next(s, e), events, u);
      }
    }
  }

  // Each mishap can strand a row.

  datatype Strand = RereadFailed | WithdrawFailed | GuardCrashed | ClaimedLate

  function StrandEvents(how: Strand, g: nat, user: int): seq<Event> {
    match how
    case RereadFailed => [Write(g, user), Reread(g, true)]
    case WithdrawFailed => [Write(g, user), Reread(g, false), Withdraw(g, true)]
    case GuardCrashed => [Write(g, user), Crash(g)]
    case ClaimedLate => [Write(g, user), Claim(user), Reread(g, false), Withdraw(g, false), Settle(user, Pending)]
  }

  lemma {:induction false} ExecuteThen(s: System, a: Event, rest: seq<Event>)
    ensures Execute(s, [a] + rest) == Execute(Next(s, a), rest)
  {
    assert ([a] + rest)[1..] == rest;
  }

  ghost predicate Stranded(s: System, user: int) {
    s.ld == Lifted && s.guards == map[] && user in s.rows && IsPending(s.rows[user])
  }

  /** A lifted lockdown right after a guard call inserted its row. */
  ghost predicate JustWrote(w: System, g: nat, user: int, id: nat) {
    w.ld == Lifted && w.guards == map[g := Wrote(user, id, false)] && user in w.rows && w.rows[user] == At(id, Pending)
  }

  lemma FailuresStrand(w: System, how: Strand, g: nat, user: int, id: nat)
    requires !how.ClaimedLate? && JustWrote(w, g, user, id)
    ensures Stranded(Execute(w, StrandEvents(how, g, user)[1..]), user)
  {
    match how {
      case RereadFailed =>
        ExecuteThen(w, Reread(g, true), []);
      case WithdrawFailed =>
        var r := w.(guards := map[g := Withdrawing(user, id, false)]);
        assert Next(w, Reread(g, false)) == r;
        ExecuteThen(w, Reread(g, false), [Withdraw(g, true)]);
        ExecuteThen(r, Withdraw(g, true), []);
      case GuardCrashed =>
        ExecuteThen(w, Crash(g), []);
    }
  }

  lemma GuardLeavesClaimed(c: System, g: nat, user: int, id: nat)
    requires c.ld == Lifted && c.guards == map[g := Wrote(user, id, false)]
    requires user in c.rows && c.rows[user] == Held(id, true)
    ensures Execute(c, [Reread(g, false), Withdraw(g, false), Settle(user, Pending)])
            == Execute(c.(guards := map[]), [Settle(user, Pending)])
  {
    var r := c.(guards := map[g := Withdrawing(user, id, false)]);
    assert Next(c, Reread(g, false)) == r;
    assert Next(r, Withdraw(g, false)) == c.(guards := map[]);
    ExecuteThen(c, Reread(g, false), [Withdraw(g, false), Settle(user, Pending)]);
    ExecuteThen(r, Withdraw(g, false), [Settle(user, Pending)]);
  }

  lemma LateClaimStrands(w: System, g: nat, user: int, id: nat)
    requires JustWrote(w, g, user, id)
    ensures Stranded(Execute(w, StrandEvents(ClaimedLate, g, user)[1..]), user)
  {
    var c := w.(rows := w.rows[user := Held(id, true)]);
    assert Next(w, Claim(user)) == c;
    ExecuteThen(w, Claim(user), [Reread(g, false), Withdraw(g, false), Settle(user, Pending)]);
    GuardLeavesClaimed(c, g, user, id);
    ExecuteThen(c.(guards := map[]), Settle(user, Pending), []);
  }

  /** From any lifted lockdown with a guard call that entered before it was over, each mishap
      leaves a pending row that belongs to no guard call; the last one is a worker or a ban run
      that saw the row while it was pending, claims it under the guard's withdrawal and puts it
      back. */
  lemma MishapsStrand(s: System, how: Strand, g: nat, user: int)
    requires s.ld == Lifted && s.guards == map[g := Entered] && user !in s.rows
    ensures Stranded(Execute(s, StrandEvents(how, g, user)), user)
  {
    var w := Next(s, Write(g, user));
    assert JustWrote(w, g, user, s.nextId);
    var events := StrandEvents(how, g, user);
    assert events == [Write(g, user)] + events[1..];
    ExecuteThen(s, Write(g, user), events[1..]);
    if how == ClaimedLate {
      LateClaimStrands(w, g, user, s.nextId);
    } else {
      FailuresStrand(w, how, g, user, s.nextId);
    }
  }

  /** Such a lockdown exists: a guard call enters, and the lift begins and finishes before the
      call writes its row. */
  lemma GuardOutlivesTheLift(s: System, g: nat)
    requires Fresh(s) && forall u :: u in s.rows ==> !Open(s.rows[u])
    ensures var t := Execute(s, [Enter(g), BeginLift, FinishLift]);
            t.ld == Lifted && t.guards == map[g := Entered] && t.rows == s.rows
  {
    var entered := Next(s, Enter(g));
    var lifting := Next(entered, BeginLift);
    ExecuteThen(s, Enter(g), [BeginLift, FinishLift]);
    ExecuteThen(entered, BeginLift, [FinishLift]);
    ExecuteThen(lifting, FinishLift, []);
  }

  /** The ID the row of the user has once a guard call wrote it. */
  function WrittenId(s: System, user: int): nat {
    if user in s.rows then s.rows[user].id else s.nextId
  }

  /** The system once a guard call that entered at an active lockdown wrote its row. */
  function Written(s: System, g: nat, user: int): System {
    s.(rows := s.rows[user := At(WrittenId(s, user), Pending)],
       nextId := if user in s.rows then s.nextId else s.nextId + 1,
       guards := s.guards[g := Wrote(user, WrittenId(s, user), user in s.rows)])
  }

  ghost predicate MayWrite(s: System, g: nat, user: int) {
    && s.ld == Active && g !in s.guards
    && (user in s.rows ==> s.rows[user].At? && Reclaimable(s.rows[user].state))
  }

  lemma GuardWrote(s: System, g: nat, user: int)
    requires MayWrite(s, g, user)
    ensures Next(Next(s, Enter(g)), Write(g, user)) == Written(s, g, user)
  {
    var entered := Next(s, Enter(g));
    assert entered.guards == s.guards[g := Entered];
  }

  lemma GuardWrites(s: System, g: nat, user: int, last: Event)
    requires MayWrite(s, g, user)
    ensures Execute(s, [Enter(g), Write(g, user), last]) == Next(Written(s, g, user), last)
  {
    ExecuteThen(s, Enter(g), [Write(g, user), last]);
    ExecuteThen(Next(s, Enter(g)), Write(g, user), [last]);
    GuardWrote(s, g, user);
    ExecuteThen(Written(s, g, user), last, []);
  }

  /** On an active lockdown a guard call ends with the joiner's row pending, its ID kept if it
      had one, and nothing else changed. */
  lemma GuardHolds(s: System, g: nat, user: int)
    requires MayWrite(s, g, user)
    ensures var t := Execute(s, [Enter(g), Write(g, user), Reread(g, false)]);
            && t.rows == s.rows[user := At(if user in s.rows then s.rows[user].id else s.nextId, Pending)]
            && t.guards == s.guards && t.ld == s.ld
  {
    GuardWrites(s, g, user, Reread(g, false));
    assert Next(Written(s, g, user), Reread(g, false)).guards == s.guards;
  }

  lemma OvertakenGuardWithdraws(s: System, g: nat, user: int, id: nat, reclaimed: bool)
    requires s.ld == Lifting && g in s.guards && s.guards[g] == Wrote(user, id, reclaimed)
    requires user in s.rows && s.rows[user] == At(id, Pending)
    ensures Execute(s, [Reread(g, false), Withdraw(g, false)])
            == s.(rows := if reclaimed then s.rows[user := At(id, Cancelled)] else s.rows - {user},
                  guards := s.guards - {g})
  {
    var must := s.(guards := s.guards[g := Withdrawing(user, id, reclaimed)]);
    assert Next(s, Reread(g, false)) == must;
    ExecuteThen(s, Reread(g, false), [Withdraw(g, false)]);
    ExecuteThen(must, Withdraw(g, false), []);
    assert must.guards - {g} == s.guards - {g};
  }

  /** When a lift begins between the write and the re-read, the guard takes its row back: a new
      row is gone, a reclaimed one is cancelled. */
  lemma GuardWithdraws(s: System, g: nat, user: int)
    requires MayWrite(s, g, user)
    ensures var t := Execute(Execute(s, [Enter(g), Write(g, user), BeginLift]), [Reread(g, false), Withdraw(g, false)]);
            && t.rows == (if user in s.rows then s.rows[user := At(s.rows[user].id, Cancelled)] else s.rows)
            && t.guards == s.guards && t.ld == Lifting
  {
    GuardWrites(s, g, user, BeginLift);
    var lifting := Written(s, g, user).(ld := Lifting);
    OvertakenGuardWithdraws(lifting, g, user, WrittenId(s, user), user in s.rows);
    assert lifting.guards - {g} == s.guards;
    assert user !in s.rows ==> lifting.rows - {user} == s.rows;
  }

  // What the single steps do.

  /** The lift begins once, cancels every pending row and no other, and ends once no row is held,
      pending, acting, banned or being unbanned. */
  lemma LiftDoes(s: System)
    ensures Next(s, BeginLift) == if s.ld == Active then s.(ld := Lifting) else s
    ensures var t := Next(s, CancelPending);
            if s.ld == Active then t == s
            else
              && t == s.(rows := t.rows) && t.rows.Keys == s.rows.Keys
              && forall u :: u in s.rows ==>
                   t.rows[u] == match s.rows[u]
                                case At(id, Pending) => At(id, Cancelled)
                                case _ => s.rows[u]
    ensures Next(s, FinishLift) ==
            if s.ld == Lifting
               && (forall u :: u in s.rows ==>
                     s.rows[u].At? && s.rows[u].state !in {Pending, Acting, Banned, Unbanning})
            then s.(ld := Lifted) else s
  {
  }

  /** A claim holds a row at rest in a state somebody may claim; its holder may end it anyhow but
      put it back only when it was pending. */
  lemma HoldersDo(s: System, u: int, id: nat, state: JoinerState, wasPending: bool, to: JoinerState)
    ensures u in s.rows && s.rows[u] == At(id, state) ==>
              Next(s, Claim(u)) ==
              if state in {Pending, Banned, BanFailed, Declined, DeclineFailed, Kept, Cancelled}
              then s.(rows := s.rows[u := Held(id, state == Pending)]) else s
    ensures u in s.rows && s.rows[u] == Held(id, wasPending) ==>
              Next(s, Settle(u, to)) ==
              if to in {Acting, Unbanning} || (to == Pending && !wasPending) then s
              else s.(rows := s.rows[u := At(id, to)])
    ensures u !in s.rows || s.rows[u].Held? ==> Next(s, Claim(u)) == s
    ensures u !in s.rows || s.rows[u].At? ==> Next(s, Settle(u, to)) == s
  {
  }

  /** A row whose holder is gone waits again under an active lockdown; once the lift has begun, a
      request is cancelled and anybody else counts as banned; once it is over nothing happens. */
  lemma ReleaseDoes(s: System, u: int, id: nat, wasPending: bool, request: bool)
    requires u in s.rows && s.rows[u] == Held(id, wasPending)
    ensures Next(s, ReleaseStale(u, request)) ==
            match s.ld
            case Active => s.(rows := s.rows[u := At(id, Pending)])
            case Lifting => s.(rows := s.rows[u := At(id, if request then Cancelled else Banned)])
            case Lifted => s
  {
  }

  /** A guard call begins only under an active lockdown, and one that wrote nothing may leave. */
  lemma GuardsComeAndGo(s: System, g: nat)
    ensures g !in s.guards ==>
              Next(s, Enter(g)) == if s.ld == Active then s.(guards := s.guards[g := Entered]) else s
    ensures g in s.guards ==>
              && Next(s, Enter(g)) == s
              && Next(s, Leave(g)) == (if s.guards[g] == Entered then s.(guards := s.guards - {g}) else s)
              && Next(s, Crash(g)) == s.(guards := s.guards - {g})
  {
  }
}
