/** Runs of the joiner protocol, from a single member whom no row describes yet, into a broken
    promise: five in which everyday failures end in a step that abandons the account, and one
    in which a permanent ban is overwritten. */
module LockdownWitness {
  import opened Wrappers
  import opened LockdownRows
  import opened LockdownProtocol

  const JOINED := JoinerRow(Pending, false, 1000, 0, "")
  const STRANGER := Account(None, ChatMember(Member, 0), Outside, map[], multiset{})
  const FRESH := Alone(Active, STRANGER)

  function Alone(ld: LockdownState, a: Account): System {
    System(ld, map[7 := a])
  }

  function Joined(row: JoinerState, actors: map<nat, Phase>): Account {
    STRANGER.(joiner := Some(JOINED.(state := row)), actors := actors)
  }

  /** The account under the lockdown's own ban, with its row in the given state. */
  function Removed(row: JoinerState, actors: map<nat, Phase>): Account {
    Account(Some(JOINED.(state := row)), ChatMember(Kicked, 1000), ByWorker(1000), actors, multiset{})
  }

  ghost predicate Reachable(t: System) {
    Leads(FRESH, t)
  }

  lemma Onward(t: System, e: Event)
    requires Reachable(t)
    ensures Reachable(Next(t, e))
  {
    LeadsOn(FRESH, t, e);
  }

  lemma Then(ld: LockdownState, a: Account, step: Step, b: Account)
    requires Reachable(Alone(ld, a)) && Apply(ld, a, step) == b
    ensures Reachable(Alone(ld, b))
  {
    Onward(Alone(ld, a), At(7, step));
    assert Next(Alone(ld, a), At(7, step)) == Alone(ld, b);
  }

  lemma FreshIsReachable()
    ensures Start(FRESH) && Reachable(FRESH)
  {
    LeadsNowhere(FRESH);
  }

  lemma WorkerLooks(ld: LockdownState)
    requires Reachable(Alone(ld, Joined(Pending, map[])))
    ensures Reachable(Alone(ld, Joined(Acting, map[1 := WorkerCleared(1000)])))
  {
    Then(ld, Joined(Pending, map[]), WorkerClaim(1, 1000, false), Joined(Acting, map[1 := WorkerClaimed(1000, false)]));
    Then(ld, Joined(Acting, map[1 := WorkerClaimed(1000, false)]), WorkerLook(1),
         Joined(Acting, map[1 := WorkerCleared(1000)]));
  }

  lemma WorkerRemoves(ld: LockdownState, to: JoinerState)
    requires Reachable(Alone(ld, Joined(Pending, map[]))) && to in {Pending, Banned}
    ensures Reachable(Alone(ld, Removed(Acting, map[1 := Settled(Acting, to, "")])))
    ensures Reachable(Alone(ld, Removed(to, map[])))
  {
    WorkerLooks(ld);
    WorkerBans(ld, to);
    MovedIs(to);
    Then(ld, Removed(Acting, map[1 := Settled(Acting, to, "")]), Move(1), Removed(to, map[]));
  }

  lemma WorkerBans(ld: LockdownState, to: JoinerState)
    requires Reachable(Alone(ld, Joined(Acting, map[1 := WorkerCleared(1000)]))) && to in {Pending, Banned}
    ensures Reachable(Alone(ld, Removed(Acting, map[1 := Settled(Acting, to, "")])))
  {
    var cleared: map<nat, Phase> := map[1 := WorkerCleared(1000)];
    assert cleared[1 := Settled(Acting, to, "")] == map[1 := Settled(Acting, to, "")];
    Then(ld, Joined(Acting, cleared), WorkerBan(1, true, to), Removed(Acting, map[1 := Settled(Acting, to, "")]));
  }

  lemma MovedIs(to: JoinerState)
    ensures var settled: map<nat, Phase> := map[1 := Settled(Acting, to, "")];
            settled - {1} == map[] && Moved(JOINED.(state := Acting), to, "", false) == JOINED.(state := to)
  {
  }

  lemma LiftForgetsPending()
    requires Reachable(Alone(Active, Removed(Pending, map[])))
    ensures Reachable(Alone(Lifted, Removed(Cancelled, map[])))
  {
    Onward(Alone(Active, Removed(Pending, map[])), BeginLift);
    Then(Lifting, Removed(Pending, map[]), CancelPending, Removed(Cancelled, map[]));
    Onward(Alone(Lifting, Removed(Cancelled, map[])), FinishLift);
  }

  /** A ban that landed but whose answer was lost goes back to pending, and a lift that starts
      before the retry cancels the row: the ban stays after the lift is finished. */
  lemma LostAnswerStrands()
    ensures Reachable(Alone(Lifted, Removed(Cancelled, map[])))
  {
    FreshIsReachable();
    Then(Active, STRANGER, Record(JOINED), Joined(Pending, map[]));
    WorkerRemoves(Active, Pending);
    LiftForgetsPending();
  }

  /** So does the claim of a worker that stopped between its ban and the row move: on an
      active lockdown the release returns the row to pending. */
  lemma CrashStrands()
    ensures Reachable(Alone(Lifted, Removed(Cancelled, map[])))
  {
    FreshIsReachable();
    Then(Active, STRANGER, Record(JOINED), Joined(Pending, map[]));
    WorkerRemoves(Active, Banned);
    Then(Active, Removed(Acting, map[1 := Settled(Acting, Banned, "")]), Crash(1), Removed(Acting, map[]));
    Then(Active, Removed(Acting, map[]), ReleaseStale, Removed(Pending, map[]));
    LiftForgetsPending();
  }

  /** So does a ban call that is given up and takes effect only after the lift is finished. */
  lemma LateLandingStrands()
    ensures Reachable(Alone(Lifted, Removed(Cancelled, map[])))
  {
    FreshIsReachable();
    Then(Active, STRANGER, Record(JOINED), Joined(Pending, map[]));
    WorkerLooks(Active);
    var late := multiset{MarkerBan(1000)};
    var hanging := Joined(Acting, map[1 := Settled(Acting, Pending, "")]).(late := late);
    Then(Active, Joined(Acting, map[1 := WorkerCleared(1000)]), WorkerBanHangs(1, Pending), hanging);
    Then(Active, hanging, Move(1), Joined(Pending, map[]).(late := late));
    Onward(Alone(Active, Joined(Pending, map[]).(late := late)), BeginLift);
    LateLandingAfterLift(late);
  }

  lemma LateLandingAfterLift(late: multiset<Call>)
    requires late == multiset{MarkerBan(1000)} && Reachable(Alone(Lifting, Joined(Pending, map[]).(late := late)))
    ensures Reachable(Alone(Lifted, Removed(Cancelled, map[])))
  {
    var cancelled := Joined(Cancelled, map[]).(late := late);
    Then(Lifting, Joined(Pending, map[]).(late := late), CancelPending, cancelled);
    Onward(Alone(Lifting, cancelled), FinishLift);
    Then(Lifted, cancelled, Lands(MarkerBan(1000)), Removed(Cancelled, map[]));
  }

  /** A join delivered again after the dedupe window rewrites the row's end date, so the
      worker takes the lockdown's own ban for somebody else's and keeps it. */
  lemma LateDeliveryStrands()
    ensures exists row: JoinerRow :: row.state == Kept &&
              Reachable(Alone(Lifted, Removed(Kept, map[]).(joiner := Some(row))))
  {
    FreshIsReachable();
    Then(Active, STRANGER, Record(JOINED), Joined(Pending, map[]));
    WorkerRemoves(Active, Banned);
    var again := JOINED.(banUntil := 2000);
    var a := Removed(Pending, map[]).(joiner := Some(again));
    var held := Some(again.(state := Acting));
    var kept := Some(again.(state := Kept));
    Then(Active, Removed(Banned, map[]), Reclaim(again), a);
    Then(Active, a, WorkerClaim(1, 2000, false), a.(joiner := held, actors := map[1 := WorkerClaimed(2000, false)]));
    Then(Active, a.(joiner := held, actors := map[1 := WorkerClaimed(2000, false)]), WorkerLook(1),
         a.(joiner := held, actors := map[1 := Settled(Acting, Kept, "")]));
    Then(Active, a.(joiner := held, actors := map[1 := Settled(Acting, Kept, "")]), Move(1), a.(joiner := kept));
    Onward(Alone(Active, a.(joiner := kept)), BeginLift);
    Onward(Alone(Lifting, a.(joiner := kept)), FinishLift);
    assert Removed(Kept, map[]).(joiner := kept) == a.(joiner := kept);
  }

  /** A worker that listed the row before the lift and claims it after a guard call still in
      flight took the row back bans somebody whom no lift will ever unban. */
  lemma LateClaimStrands()
    ensures Reachable(Alone(Lifted, Removed(Banned, map[])))
  {
    FreshIsReachable();
    Then(Active, STRANGER, Record(JOINED), Joined(Pending, map[]));
    Onward(Alone(Active, Joined(Pending, map[])), BeginLift);
    Then(Lifting, Joined(Pending, map[]), CancelPending, Joined(Cancelled, map[]));
    Onward(Alone(Lifting, Joined(Cancelled, map[])), FinishLift);
    Then(Lifted, Joined(Cancelled, map[]), Reclaim(JOINED), Joined(Pending, map[]));
    WorkerRemoves(Lifted, Banned);
  }

  lemma RunFindsNoRow()
    ensures Reachable(Alone(Active, STRANGER.(actors := map[2 := RunArmed(None)])))
  {
    FreshIsReachable();
    RunLooks();
    Then(Active, STRANGER.(actors := map[2 := RunCleared(None)]), RunReread(2),
         STRANGER.(actors := map[2 := RunArmed(None)]));
  }

  lemma RunLooks()
    requires Reachable(FRESH)
    ensures Reachable(Alone(Active, STRANGER.(actors := map[2 := RunCleared(None)])))
  {
    var ready, cleared := STRANGER.(actors := map[2 := RunReady(0, None)]),
        STRANGER.(actors := map[2 := RunCleared(None)]);
    Then(Active, STRANGER, RunSee(2), ready);
    Then(Active, ready, RunLook(2, false), cleared);
  }

  lemma WorkerClaimsBesideRun(run: Phase)
    requires Reachable(Alone(Active, STRANGER.(actors := map[2 := run])))
    ensures Reachable(Alone(Active, Joined(Acting, map[1 := WorkerClaimed(1000, false), 2 := run])))
  {
    Then(Active, STRANGER.(actors := map[2 := run]), Record(JOINED), Joined(Pending, map[2 := run]));
    Then(Active, Joined(Pending, map[2 := run]), WorkerClaim(1, 1000, false),
         Joined(Acting, map[1 := WorkerClaimed(1000, false), 2 := run]));
  }

  lemma RunMeetsWorker()
    ensures Reachable(Alone(Active, Joined(Acting, map[1 := WorkerCleared(1000), 2 := RunArmed(None)])))
  {
    RunFindsNoRow();
    var run := RunArmed(None);
    WorkerClaimsBesideRun(run);
    Then(Active, Joined(Acting, map[1 := WorkerClaimed(1000, false), 2 := run]), WorkerLook(1),
         Joined(Acting, map[1 := WorkerCleared(1000), 2 := run]));
  }

  /** A run that read "no joiner row" before the guard wrote one can ban between a worker's
      look and its ban, and then the permanent ban is replaced by one the lift takes back. */
  lemma UnclaimedRunCanBeOverwritten()
    ensures exists a: Account :: a.hand == ByRun && a.live == Forever && Reachable(Alone(Active, a))
    ensures Reachable(Alone(Active, Removed(Acting, map[1 := Settled(Acting, Banned, "")])))
  {
    RunMeetsWorker();
    var raced := Joined(Acting, map[1 := WorkerCleared(1000), 2 := RunArmed(None)]);
    var banned := raced.(live := Forever, hand := ByRun, actors := map[1 := WorkerCleared(1000)]);
    Then(Active, raced, RunBan(2, true, true), banned);
    Then(Active, banned, WorkerBan(1, true, Banned), Removed(Acting, map[1 := Settled(Acting, Banned, "")]));
  }
}
