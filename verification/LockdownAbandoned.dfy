/** The other half of the lift's promise: from every good state, each step that abandons an
    account can be followed by a run, itself abandoning nobody, that ends with the lift
    finished, the account still under the lockdown's own ban, and no failed unban recorded. */
module LockdownAbandoned {
  import opened Wrappers
  import opened LockdownRows
  import opened LockdownProtocol
  import opened LockdownGiveBack

  function Only(ld: LockdownState, u: int, a: Account): System {
    System(ld, map[u := a])
  }

  ghost predicate Broken(s: System, u: int) {
    s.ld == Lifted && u in s.accounts && Marked(s.accounts[u]) && !InState(s.accounts[u], UnbanFailed)
  }

  ghost predicate Breaks(s: System, events: seq<Event>, u: int) {
    NobodyAbandoned(s, events) && Broken(Execute(s, events), u)
  }

  /** Some run from here breaks the promise to the account, with no further step that abandons
      anybody. */
  ghost predicate Doomed(ld: LockdownState, u: int, a: Account) {
    exists events :: Breaks(Only(ld, u, a), events, u)
  }

  lemma BrokenIsDoomed(u: int, a: Account)
    requires Marked(a) && !InState(a, UnbanFailed)
    ensures Doomed(Lifted, u, a)
  {
    assert Execute(Only(Lifted, u, a), []) == Only(Lifted, u, a);
    assert Breaks(Only(Lifted, u, a), [], u);
  }

  lemma DoomedBefore(ld: LockdownState, u: int, a: Account, e: Event, next: LockdownState, b: Account)
    requires Keeps(Only(ld, u, a), e) && Next(Only(ld, u, a), e) == Only(next, u, b) && Doomed(next, u, b)
    ensures Doomed(ld, u, a)
  {
    var events :| Breaks(Only(next, u, b), events, u);
    assert ([e] + events)[1..] == events;
    assert Execute(Only(ld, u, a), [e] + events) == Execute(Only(next, u, b), events);
    assert Breaks(Only(ld, u, a), [e] + events, u);
  }

  /** A step of some actor leads to doom. */
  lemma Via(ld: LockdownState, u: int, a: Account, step: Step, b: Account)
    requires !Abandons(ld, a, step) && Apply(ld, a, step) == b && Doomed(ld, u, b)
    ensures Doomed(ld, u, a)
  {
    assert Next(Only(ld, u, a), At(u, step)) == Only(ld, u, b);
    DoomedBefore(ld, u, a, At(u, step), ld, b);
  }

  lemma ViaLift(u: int, a: Account)
    requires Doomed(Lifting, u, a)
    ensures Doomed(Active, u, a)
  {
    DoomedBefore(Active, u, a, BeginLift, Lifting, a);
  }

  /** The lift has nothing left to do for the account, and finishes. */
  lemma StrandedIsDoomed(ld: LockdownState, u: int, a: Account)
    requires Marked(a) && !InState(a, UnbanFailed) && (a.joiner.Some? ==> !Unfinished(a.joiner.value.state))
    ensures Doomed(ld, u, a)
  {
    BrokenIsDoomed(u, a);
    DoomedBefore(Lifting, u, a, FinishLift, Lifted, a);
    ViaLift(u, a);
  }

  /** An actor that settles a marked account's row where no lift looks. */
  lemma SettledIsDoomed(ld: LockdownState, u: int, a: Account, x: nat, to: JoinerState)
    requires Marked(a) && x in a.actors && a.actors[x].Settled? && a.actors[x].to == to
    requires InState(a, a.actors[x].held) && !Unfinished(to) && to != UnbanFailed
    ensures Doomed(ld, u, a)
  {
    var b := Apply(ld, a, Move(x));
    StrandedIsDoomed(ld, u, b);
    Via(ld, u, a, Move(x), b);
  }

  lemma FailureAbandons(ld: LockdownState, u: int, a: Account, step: Step)
    requires Good(ld, a) && Abandons(ld, a, step)
    requires step.WorkerBan? || step.WorkerBanHangs? || step.WorkerLookFails?
    ensures Doomed(ld, u, Apply(ld, a, step))
  {
    assert InState(a, HeldState(a.actors[step.a]));
    SettledIsDoomed(ld, u, Apply(ld, a, step), step.a, BanFailed);
  }

  /** The lift takes its own ban for somebody else's. */
  lemma LiftMistakes(ld: LockdownState, u: int, a: Account, x: nat)
    requires Marked(a) && InState(a, Unbanning) && x in a.actors && a.actors[x].LiftClaimed?
    requires !IsLockdownBan(a.live, a.actors[x].banUntil)
    ensures Doomed(ld, u, a)
  {
    var looked := Apply(ld, a, LiftLook(x, 0));
    SettledIsDoomed(ld, u, looked, x, Kept);
    Via(ld, u, a, LiftLook(x, 0), looked);
  }

  /** The worker does. */
  lemma WorkerMistakes(ld: LockdownState, u: int, a: Account, x: nat)
    requires Marked(a) && a.live.status == Kicked && InState(a, Acting) && x in a.actors
    requires a.actors[x].WorkerClaimed? && !a.actors[x].request && !IsLockdownBan(a.live, a.actors[x].banUntil)
    ensures Doomed(ld, u, a)
  {
    var looked := Apply(ld, a, WorkerLook(x));
    SettledIsDoomed(ld, u, looked, x, Kept);
    Via(ld, u, a, WorkerLook(x), looked);
  }

  /** The worker declines the request of somebody who is banned. */
  lemma WorkerDeclinesBanned(ld: LockdownState, u: int, a: Account, x: nat)
    requires Marked(a) && InState(a, Acting) && x in a.actors && a.actors[x].WorkerClaimed? && a.actors[x].request
    ensures Doomed(ld, u, a)
  {
    var declined := Apply(ld, a, WorkerDecline(x, Declined));
    SettledIsDoomed(ld, u, declined, x, Declined);
    Via(ld, u, a, WorkerDecline(x, Declined), declined);
  }

  /** A join that rewrote the row leaves a claim on the row's own values that forgets the ban. */
  lemma RewrittenIsDoomed(ld: LockdownState, u: int, a: Account)
    requires ld != Lifted && Marked(a) && a.live.status == Kicked && InState(a, Pending) && 0 !in a.actors
    requires a.joiner.value.request || !IsLockdownBan(a.live, a.joiner.value.banUntil)
    ensures Doomed(ld, u, a)
  {
    var row := a.joiner.value;
    var claim := WorkerClaim(0, row.banUntil, row.request);
    var claimed := Apply(ld, a, claim);
    assert claimed.actors[0] == WorkerClaimed(row.banUntil, row.request);
    if row.request {
      WorkerDeclinesBanned(ld, u, claimed, 0);
    } else {
      WorkerMistakes(ld, u, claimed, 0);
    }
    Via(ld, u, a, claim, claimed);
  }

  // One lemma for each kind of abandoning step.

  lemma ReclaimAbandons(ld: LockdownState, u: int, a: Account, row: JoinerRow)
    requires Good(ld, a) && Abandons(ld, a, Reclaim(row))
    ensures Doomed(ld, u, Apply(ld, a, Reclaim(row)))
  {
    var b := Apply(ld, a, Reclaim(row));
    if row.state == Exempt {
      StrandedIsDoomed(ld, u, b);
    } else {
      RewrittenIsDoomed(ld, u, Gone(b, 0));
      Via(ld, u, b, Crash(0), Gone(b, 0));
    }
  }

  lemma GuardAbandons(ld: LockdownState, u: int, a: Account, step: Step)
    requires Good(ld, a) && Abandons(ld, a, step) && (step.CancelPending? || step.Withdraw? || step.MakeExempt?)
    ensures Doomed(ld, u, Apply(ld, a, step))
  {
    StrandedIsDoomed(ld, u, Apply(ld, a, step));
  }

  /** The account once its claimed worker has banned it, whoever it was before. */
  function JustBanned(a: Account, x: nat, until: int): Account {
    Now(a.(live := BannedUntil(until), hand := ByWorker(until)), x, Settled(Acting, Banned, ""))
  }

  lemma WorkerBansMember(ld: LockdownState, u: int, a: Account, x: nat)
    requires a.live == ChatMember(Member, 0) && x in a.actors && a.actors[x].WorkerClaimed? && !a.actors[x].request
    requires Doomed(ld, u, JustBanned(a, x, a.actors[x].banUntil))
    ensures Doomed(ld, u, a)
  {
    var until := a.actors[x].banUntil;
    var cleared := Now(a, x, WorkerCleared(until));
    var banned := JustBanned(a, x, until);
    assert cleared.actors[x := banned.actors[x]] == banned.actors;
    Via(ld, u, cleared, WorkerBan(x, true, Banned), banned);
    Via(ld, u, a, WorkerLook(x), cleared);
  }

  lemma WorkerGoesOnToBan(ld: LockdownState, u: int, a: Account, x: nat)
    requires InState(a, Acting) && x in a.actors && a.actors[x].WorkerClaimed? && !a.actors[x].request
    requires Doomed(ld, u, JustBanned(a, x, a.actors[x].banUntil))
    ensures Doomed(ld, u, a)
  {
    var back := a.(live := ChatMember(Member, 0), hand := Outside);
    WorkerBansMember(ld, u, back, x);
    Via(ld, u, a, External(ChatMember(Member, 0)), back);
  }

  /** A join request's row that was banned is cancelled when its claim dies during the lift. */
  lemma RequestIsForgotten(ld: LockdownState, u: int, a: Account, x: nat)
    requires ld != Lifted && Marked(a) && InState(a, Acting) && a.joiner.value.request
    requires forall y :: y in a.actors && y != x ==> !Holds(a.actors[y])
    ensures Doomed(ld, u, a)
  {
    var gone := Gone(a, x);
    assert forall y :: y in gone.actors ==> !Holds(gone.actors[y]);
    OwnerlessRequestIsForgotten(u, gone);
    ViaLift(u, gone);
    Via(ld, u, a, Crash(x), gone);
  }

  lemma OwnerlessRequestIsForgotten(u: int, a: Account)
    requires Marked(a) && InState(a, Acting) && a.joiner.value.request
    requires forall y :: y in a.actors ==> !Holds(a.actors[y])
    ensures Doomed(Lifting, u, a)
  {
    var cancelled := WithRow(a, Cancelled);
    StrandedIsDoomed(Lifting, u, cancelled);
    Via(Lifting, u, a, ReleaseStale, cancelled);
  }

  /** A ban on another date than the row's is taken for somebody else's by the lift. */
  lemma OtherDateIsForgotten(ld: LockdownState, u: int, a: Account, x: nat, until: int)
    requires InState(a, Acting) && x in a.actors && !IsLockdownBan(BannedUntil(until), a.joiner.value.banUntil)
    ensures Doomed(ld, u, JustBanned(a, x, until))
  {
    var banned := JustBanned(a, x, until);
    var moved := Apply(ld, banned, Move(x));
    assert InState(moved, Banned) && x !in moved.actors && moved.live == BannedUntil(until);
    var date := moved.joiner.value.banUntil;
    var claimed := Apply(ld, moved, LiftClaim(x, date));
    assert claimed.actors[x] == LiftClaimed(date);
    LiftMistakes(ld, u, claimed, x);
    Via(ld, u, moved, LiftClaim(x, date), claimed);
    Via(ld, u, banned, Move(x), moved);
  }

  lemma WorkerClaimAbandons(ld: LockdownState, u: int, a: Account, x: nat, banUntil: int, request: bool)
    requires Good(ld, a) && Abandons(ld, a, WorkerClaim(x, banUntil, request))
    ensures Doomed(ld, u, Apply(ld, a, WorkerClaim(x, banUntil, request)))
  {
    var b := Apply(ld, a, WorkerClaim(x, banUntil, request));
    assert InState(b, Acting) && b.actors[x] == WorkerClaimed(banUntil, request);
    assert forall y :: y in a.actors && Holds(a.actors[y]) ==> InState(a, HeldState(a.actors[y]));
    if request {
      WorkerDeclinesBanned(ld, u, b, x);
    } else if Marked(a) && !IsLockdownBan(a.live, banUntil) {
      WorkerMistakes(ld, u, b, x);
    } else {
      if ld == Lifted {
        BrokenIsDoomed(u, JustBanned(b, x, banUntil));
      } else if a.joiner.value.request {
        RequestIsForgotten(ld, u, JustBanned(b, x, banUntil), x);
      } else {
        OtherDateIsForgotten(ld, u, b, x, banUntil);
      }
      WorkerGoesOnToBan(ld, u, b, x);
    }
  }

  lemma LiftClaimAbandons(ld: LockdownState, u: int, a: Account, x: nat, banUntil: int)
    requires Good(ld, a) && Abandons(ld, a, LiftClaim(x, banUntil))
    ensures Doomed(ld, u, Apply(ld, a, LiftClaim(x, banUntil)))
  {
    LiftMistakes(ld, u, Apply(ld, a, LiftClaim(x, banUntil)), x);
  }

  // A marker ban that lands after its row went on.

  ghost predicate NobodyHolds(a: Account) {
    forall x :: x in a.actors ==> !Holds(a.actors[x])
  }

  /** The account is under the lockdown's ban, and its row does not recognise it. */
  predicate Misrowed(a: Account) {
    && Marked(a) && a.live.status == Kicked && a.joiner.Some?
    && (a.joiner.value.request || !IsLockdownBan(a.live, a.joiner.value.banUntil))
  }

  lemma MisrowedPendingIsDoomed(ld: LockdownState, u: int, a: Account)
    requires ld != Lifted && Misrowed(a) && InState(a, Pending)
    ensures Doomed(ld, u, a)
  {
    RewrittenIsDoomed(ld, u, Gone(a, 0));
    Via(ld, u, a, Crash(0), Gone(a, 0));
  }

  /** The lift takes the ban for somebody else's, or a run claims the row of a request and stops. */
  lemma MisrowedBannedIsDoomed(ld: LockdownState, u: int, a: Account)
    requires ld != Lifted && Misrowed(a) && InState(a, Banned) && NobodyHolds(a)
    ensures Doomed(ld, u, a)
  {
    var free, row := Gone(a, 0), a.joiner.value;
    if row.request {
      RunStopsOnRequest(ld, u, free);
    } else {
      var claimed := Apply(ld, free, LiftClaim(0, row.banUntil));
      assert claimed.actors[0] == LiftClaimed(row.banUntil);
      LiftMistakes(ld, u, claimed, 0);
      Via(ld, u, free, LiftClaim(0, row.banUntil), claimed);
    }
    Via(ld, u, a, Crash(0), free);
  }

  lemma RunStopsOnRequest(ld: LockdownState, u: int, a: Account)
    requires ld != Lifted && Marked(a) && InState(a, Banned) && a.joiner.value.request
    requires NobodyHolds(a) && 0 !in a.actors
    ensures Doomed(ld, u, a)
  {
    var row := a.joiner.value;
    var seen := Now(a, 0, RunSeen(row));
    var claimed := Now(WithRow(seen, Acting), 0, RunReady(row.banUntil, Some((row.state, row.detail))));
    RequestIsForgotten(ld, u, claimed, 0);
    Via(ld, u, seen, RunClaim(0), claimed);
    Via(ld, u, a, RunSee(0), seen);
  }

  /** A claim that dies goes back to where the lift or the worker looks at the row again. */
  lemma MisrowedHeldIsDoomed(ld: LockdownState, u: int, a: Account)
    requires ld != Lifted && Misrowed(a) && NobodyHolds(a) && (InState(a, Acting) || InState(a, Unbanning))
    ensures Doomed(ld, u, a)
  {
    if InState(a, Acting) && a.joiner.value.request {
      RequestIsForgotten(ld, u, a, 0);
    } else {
      var released := Apply(ld, a, ReleaseStale);
      if InState(released, Pending) {
        MisrowedPendingIsDoomed(ld, u, released);
      } else {
        MisrowedBannedIsDoomed(ld, u, released);
      }
      Via(ld, u, a, ReleaseStale, released);
    }
  }

  lemma MisrowedAloneIsDoomed(ld: LockdownState, u: int, a: Account)
    requires ld != Lifted && Misrowed(a) && NobodyHolds(a) && Unfinished(a.joiner.value.state)
    ensures Doomed(ld, u, a)
  {
    match a.joiner.value.state
    case Pending => MisrowedPendingIsDoomed(ld, u, a);
    case Banned => MisrowedBannedIsDoomed(ld, u, a);
    case _ => MisrowedHeldIsDoomed(ld, u, a);
  }

  lemma MisrowedIsDoomed(ld: LockdownState, u: int, a: Account)
    requires ld != Lifted && Exclusive(a) && Misrowed(a) && Unfinished(a.joiner.value.state)
    ensures Doomed(ld, u, a)
  {
    if x :| x in a.actors && Holds(a.actors[x]) {
      assert NobodyHolds(Gone(a, x));
      MisrowedAloneIsDoomed(ld, u, Gone(a, x));
      Via(ld, u, a, Crash(x), Gone(a, x));
    } else {
      MisrowedAloneIsDoomed(ld, u, a);
    }
  }

  /** The step in which a run stops once the lockdown is no longer active. */
  function GivesUp(p: Phase, x: nat): Step {
    if p.RunReady? then RunLook(x, true) else if p.RunCleared? then RunReread(x) else RunBan(x, false, false)
  }

  /** A run that claimed a finished row puts it back when it gives up. */
  lemma RunGivesUpIsDoomed(ld: LockdownState, u: int, a: Account, x: nat)
    requires ld != Lifted && Exclusive(a) && AllRelease(a) && Marked(a) && x in a.actors
    requires BackOf(a.actors[x]).Some? && BackOf(a.actors[x]).value.0 !in {Pending, Banned}
    ensures Doomed(ld, u, a)
  {
    var p := a.actors[x];
    var back := BackOf(p).value;
    assert Releases(p) && Holds(p) && HeldState(p) == Acting;
    var stopped := RunEnds(a, x, BackOf(p));
    SettledIsDoomed(Lifting, u, stopped, x, back.0);
    Via(Lifting, u, a, GivesUp(p, x), stopped);
    ViaLift(u, a);
  }

  /** Somebody on the row is about to leave it where no lift looks. */
  lemma BlockedIsDoomed(ld: LockdownState, u: int, a: Account, x: nat)
    requires ld != Lifted && Exclusive(a) && AllRelease(a) && Marked(a) && a.live.status == Kicked && a.joiner.Some?
    requires x in a.actors && !PassesOn(a.live, a.actors[x])
    ensures Doomed(ld, u, a)
  {
    var p := a.actors[x];
    if BackOf(p).Some? {
      RunGivesUpIsDoomed(ld, u, a, x);
    } else {
      assert Releases(p) && InState(a, HeldState(p));
      match p {
        case WorkerClaimed(_, request) =>
          if request {
            WorkerDeclinesBanned(ld, u, a, x);
          } else {
            WorkerMistakes(ld, u, a, x);
          }
        case LiftClaimed(_) => LiftMistakes(ld, u, a, x);
        case Settled(_, to, _) => SettledIsDoomed(ld, u, a, x, to);
      }
    }
  }

  lemma LandingAbandons(ld: LockdownState, u: int, a: Account, call: Call)
    requires Good(ld, a) && Abandons(ld, a, Lands(call))
    ensures Doomed(ld, u, Apply(ld, a, Lands(call)))
  {
    var b := Apply(ld, a, Lands(call));
    assert Exclusive(b) && AllRelease(b) && b.live == BannedUntil(call.until);
    if ld == Lifted {
      BrokenIsDoomed(u, b);
    } else if b.joiner.None? || !Unfinished(b.joiner.value.state) {
      StrandedIsDoomed(ld, u, b);
    } else if Misrowed(b) {
      MisrowedIsDoomed(ld, u, b);
    } else {
      var x :| x in b.actors && !PassesOn(b.live, b.actors[x]);
      BlockedIsDoomed(ld, u, b, x);
    }
  }

  // The theorem.

  lemma AbandoningDooms(ld: LockdownState, u: int, a: Account, step: Step)
    requires Good(ld, a) && Abandons(ld, a, step)
    ensures Doomed(ld, u, Apply(ld, a, step))
  {
    match step
    case WorkerClaim(x, banUntil, request) => WorkerClaimAbandons(ld, u, a, x, banUntil, request);
    case LiftClaim(x, banUntil) => LiftClaimAbandons(ld, u, a, x, banUntil);
    case Reclaim(row) => ReclaimAbandons(ld, u, a, row);
    case Lands(call) => LandingAbandons(ld, u, a, call);
    case WorkerBan(_, _, _) => FailureAbandons(ld, u, a, step);
    case WorkerBanHangs(_, _) => FailureAbandons(ld, u, a, step);
    case WorkerLookFails(_, _) => FailureAbandons(ld, u, a, step);
    case _ => GuardAbandons(ld, u, a, step);
  }

  lemma GoodIsNotDoomed(ld: LockdownState, u: int, a: Account)
    requires Good(ld, a)
    ensures !Doomed(ld, u, a)
  {
    forall events | NobodyAbandoned(Only(ld, u, a), events)
      ensures !Breaks(Only(ld, u, a), events, u)
    {
      LiftGivesBack(Only(ld, u, a), events);
    }
  }

  /** The exact condition of the lift's promise: a step from a good state leads to a run that
      breaks it, with nobody abandoned any more on the way, if and only if the step abandons the
      account; after every other step no such run exists. */
  lemma PromiseBreaksExactlyByAbandoning(ld: LockdownState, u: int, a: Account, step: Step)
    requires Good(ld, a)
    ensures Doomed(ld, u, Apply(ld, a, step)) <==> Abandons(ld, a, step)
  {
    if Abandons(ld, a, step) {
      AbandoningDooms(ld, u, a, step);
    } else {
      StaysGood(ld, a, step);
      GoodIsNotDoomed(ld, u, Apply(ld, a, step));
    }
  }
}
