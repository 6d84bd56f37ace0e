/** What the lift owes the people it removed: every account still under the lockdown's own
    ban when the lift is recorded as finished is one the lift tried to unban and could not.
    Lost answers, crashes and stale claims never break that promise by themselves; a run
    breaks it only through a step that abandons an account, and every such step can. */
module LockdownGiveBack {
  import opened Wrappers
  import opened LockdownRows
  import opened LockdownProtocol

  /** The account's live status was put there by the worker's ban. */
  predicate Marked(a: Account) {
    a.hand.ByWorker?
  }

  function BannedUntil(until: int): ChatMember {
    ChatMember(Kicked, until)
  }

  predicate MarkedPending(a: Account) {
    Marked(a) && InState(a, Pending)
  }

  /** A worker's claim after the lockdown is over, or made on what an earlier listing said which
      a later join has changed: the request flag is not the row's own, or the date is not and
      tells the worker's own ban apart from the row's. */
  predicate ClaimsAmiss(ld: LockdownState, a: Account, banUntil: int, request: bool)
    requires a.joiner.Some?
  {
    var row := a.joiner.value;
    if request then Marked(a) && !row.request
    else
      || ld == Lifted || row.request
      || (banUntil != row.banUntil
          && (!IsLockdownBan(BannedUntil(banUntil), row.banUntil) || (Marked(a) && !IsLockdownBan(a.live, banUntil))))
  }

  /** A join that rewrites the row of somebody the worker removed, so that the row no longer
      recognises the ban. */
  predicate Rewrites(a: Account, row: JoinerRow) {
    Marked(a) && (row.state == Exempt || row.request || !IsLockdownBan(a.live, row.banUntil))
  }

  /** Where a run's claimed row goes back to. */
  function BackOf(p: Phase): Option<(JoinerState, string)> {
    match p
    case RunReady(_, back) => back
    case RunCleared(back) => back
    case RunArmed(back) => back
    case _ => None
  }

  /** What the actor does to the row of an account with this live status ends at pending, banned
      or failed to unban: the states from which the lift or its tally still names it. */
  predicate PassesOn(live: ChatMember, p: Phase) {
    match p
    case WorkerClaimed(banUntil, request) => !request && IsLockdownBan(live, banUntil)
    case LiftClaimed(banUntil) => IsLockdownBan(live, banUntil)
    case Settled(_, to, _) => to in {Pending, Banned, UnbanFailed}
    case _ => BackOf(p).Some? ==> BackOf(p).value.0 in {Pending, Banned}
  }

  /** The row recognises the ban by its date, a lift will still look at it, and so will whoever
      holds it. */
  ghost predicate LeadsToUnban(a: Account, live: ChatMember)
    requires a.joiner.Some?
  {
    var row := a.joiner.value;
    && !row.request && IsLockdownBan(live, row.banUntil) && Unfinished(row.state)
    && forall x :: x in a.actors ==> PassesOn(live, a.actors[x])
  }

  /** A marker ban that was given up takes effect when the row no longer leads to an unban. */
  ghost predicate LandsAmiss(ld: LockdownState, a: Account, until: int) {
    || a.joiner.None?
    || (a.joiner.value.state != UnbanFailed && (ld == Lifted || !LeadsToUnban(a, BannedUntil(until))))
  }

  /** The steps that abandon an account: its row, or the actor that will write its row next, no
      longer leads to an unban. */
  ghost predicate Abandons(ld: LockdownState, a: Account, step: Step) {
    match step
    case CancelPending => ld != Active && MarkedPending(a)
    case Withdraw(_) => MarkedPending(a)
    case MakeExempt => MarkedPending(a)
    case Reclaim(row) =>
      a.joiner.Some? && Reclaimable(a.joiner.value.state) && GuardRow(row) && Rewrites(a, row)
    case WorkerBan(x, lands, to) =>
      x in a.actors && a.actors[x].WorkerCleared? && (lands || Marked(a)) && to == BanFailed
    case WorkerBanHangs(x, to) => x in a.actors && a.actors[x].WorkerCleared? && Marked(a) && to == BanFailed
    case WorkerLookFails(x, to) =>
      Marked(a) && x in a.actors && a.actors[x].WorkerClaimed? && !a.actors[x].request && to == BanFailed
    case WorkerClaim(x, banUntil, request) =>
      x !in a.actors && InState(a, Pending) && ClaimsAmiss(ld, a, banUntil, request)
    case LiftClaim(x, banUntil) =>
      && x !in a.actors && InState(a, Banned) && Marked(a)
      && banUntil != a.joiner.value.banUntil && !IsLockdownBan(a.live, banUntil)
    case Lands(call) => call in a.late && call.MarkerBan? && LandsAmiss(ld, a, call.until)
    case _ => false
  }

  /** A marked account is recognised by its row's date, and its row and every actor on it lead to
      an unban, or its unban is recorded as failed. */
  ghost predicate OnTheWay(a: Account) {
    Marked(a) ==> a.joiner.Some? && (a.joiner.value.state == UnbanFailed || LeadsToUnban(a, a.live))
  }

  /** A worker about to ban will ban on its row's own date. */
  predicate BansOnItsDate(a: Account, p: Phase) {
    (p.WorkerClaimed? && !p.request) || p.WorkerCleared? ==>
      a.joiner.Some? && !a.joiner.value.request && IsLockdownBan(BannedUntil(p.banUntil), a.joiner.value.banUntil)
  }

  ghost predicate BansFit(a: Account) {
    forall x :: x in a.actors ==> BansOnItsDate(a, a.actors[x])
  }

  predicate StillBans(p: Phase) {
    (p.WorkerClaimed? && !p.request) || p.WorkerCleared?
  }

  /** A row a worker may claim carries an end date, unless it is a request's. */
  predicate Dated(a: Account) {
    a.joiner.Some? && a.joiner.value.state != Exempt && !a.joiner.value.request ==> a.joiner.value.banUntil > 0
  }

  /** No actor leaves the row claimed, and a run puts it back in a state it may be claimed from. */
  predicate Releases(p: Phase) {
    && (p.Settled? ==> p.to !in {Acting, Unbanning})
    && (BackOf(p).Some? ==> RunClaimable(BackOf(p).value.0))
  }

  ghost predicate AllRelease(a: Account) {
    forall x :: x in a.actors ==> Releases(a.actors[x])
  }

  ghost predicate Finished(ld: LockdownState, a: Account) {
    ld == Lifted ==>
      && (Marked(a) ==> InState(a, UnbanFailed))
      && forall x :: x in a.actors ==> !StillBans(a.actors[x])
  }

  ghost predicate Good(ld: LockdownState, a: Account) {
    Exclusive(a) && AllRelease(a) && Dated(a) && BansFit(a) && OnTheWay(a) && Finished(ld, a)
  }

  // Every step that abandons nobody keeps the promise within reach.

  lemma GuardStaysGood(ld: LockdownState, a: Account, step: Step)
    requires Good(ld, a) && !Abandons(ld, a, step)
    ensures Good(ld, GuardStep(a, step))
  {
    GuardKeepsClaims(a, step);
  }

  lemma WorkerStaysReleasing(ld: LockdownState, a: Account, step: Step)
    requires Exclusive(a) && AllRelease(a)
    ensures AllRelease(WorkerStep(a, step))
  {
  }

  lemma RunStaysReleasing(ld: LockdownState, a: Account, step: Step)
    requires Exclusive(a) && AllRelease(a)
    ensures AllRelease(RunStep(ld, a, step))
  {
  }

  lemma LiftStaysReleasing(ld: LockdownState, a: Account, step: Step)
    requires Exclusive(a) && AllRelease(a)
    ensures AllRelease(LiftStep(ld, a, step))
  {
  }

  lemma CommonStaysReleasing(ld: LockdownState, a: Account, step: Step)
    requires Exclusive(a) && AllRelease(a)
    ensures AllRelease(CommonStep(ld, a, step))
  {
  }

  lemma StaysReleasing(ld: LockdownState, a: Account, step: Step)
    requires Exclusive(a) && AllRelease(a)
    ensures AllRelease(Apply(ld, a, step))
  {
    WorkerStaysReleasing(ld, a, step);
    RunStaysReleasing(ld, a, step);
    LiftStaysReleasing(ld, a, step);
    CommonStaysReleasing(ld, a, step);
    assert GuardStep(a, step).actors == a.actors;
  }

  lemma StaysDated(ld: LockdownState, a: Account, step: Step)
    requires Exclusive(a) && Dated(a)
    ensures Dated(Apply(ld, a, step))
  {
  }

  lemma WorkerKeepsBansFit(ld: LockdownState, a: Account, step: Step)
    requires Good(ld, a) && !Abandons(ld, a, step)
    ensures BansFit(WorkerStep(a, step)) && Finished(ld, WorkerStep(a, step))
  {
  }

  lemma WorkerStaysOnTheWay(ld: LockdownState, a: Account, step: Step)
    requires Good(ld, a) && !Abandons(ld, a, step)
    ensures OnTheWay(WorkerStep(a, step))
  {
  }

  lemma RunKeepsBansFit(ld: LockdownState, a: Account, step: Step)
    requires Good(ld, a)
    ensures BansFit(RunStep(ld, a, step))
  {
  }

  lemma RunStaysFinished(ld: LockdownState, a: Account, step: Step)
    requires Good(ld, a)
    ensures Finished(ld, RunStep(ld, a, step))
  {
  }

  lemma RunClaimStaysOnTheWay(ld: LockdownState, a: Account, step: Step)
    requires Good(ld, a) && (step.RunSee? || step.RunClaim?)
    ensures OnTheWay(RunStep(ld, a, step))
  {
  }

  lemma RunStaysOnTheWay(ld: LockdownState, a: Account, step: Step)
    requires Good(ld, a) && !step.RunSee? && !step.RunClaim?
    ensures OnTheWay(RunStep(ld, a, step))
  {
  }

  lemma RunStaysGood(ld: LockdownState, a: Account, step: Step)
    requires Good(ld, a)
    ensures BansFit(RunStep(ld, a, step)) && OnTheWay(RunStep(ld, a, step)) && Finished(ld, RunStep(ld, a, step))
  {
    RunKeepsBansFit(ld, a, step);
    RunStaysFinished(ld, a, step);
    if step.RunSee? || step.RunClaim? {
      RunClaimStaysOnTheWay(ld, a, step);
    } else {
      RunStaysOnTheWay(ld, a, step);
    }
  }

  lemma LiftKeepsBansFit(ld: LockdownState, a: Account, step: Step)
    requires Good(ld, a)
    ensures BansFit(LiftStep(ld, a, step))
  {
  }

  lemma LiftStaysFinished(ld: LockdownState, a: Account, step: Step)
    requires Good(ld, a) && !Abandons(ld, a, step)
    ensures Finished(ld, LiftStep(ld, a, step))
  {
  }

  lemma LiftLookStaysOnTheWay(ld: LockdownState, a: Account, step: Step)
    requires Good(ld, a) && !Abandons(ld, a, step)
    requires step.LiftClaim? || step.LiftLook? || step.LiftLookFails?
    ensures OnTheWay(LiftStep(ld, a, step))
  {
  }

  lemma LiftUnbanStaysOnTheWay(ld: LockdownState, a: Account, step: Step)
    requires Good(ld, a) && !Abandons(ld, a, step)
    requires !step.LiftClaim? && !step.LiftLook? && !step.LiftLookFails?
    ensures OnTheWay(LiftStep(ld, a, step))
  {
  }

  lemma LiftStaysOnTheWay(ld: LockdownState, a: Account, step: Step)
    requires Good(ld, a) && !Abandons(ld, a, step)
    ensures OnTheWay(LiftStep(ld, a, step))
  {
    if step.LiftClaim? || step.LiftLook? || step.LiftLookFails? {
      LiftLookStaysOnTheWay(ld, a, step);
    } else {
      LiftUnbanStaysOnTheWay(ld, a, step);
    }
  }

  lemma MoveStaysGood(ld: LockdownState, a: Account, step: Step)
    requires Good(ld, a) && step.Move?
    ensures BansFit(CommonStep(ld, a, step)) && Finished(ld, CommonStep(ld, a, step))
    ensures OnTheWay(CommonStep(ld, a, step))
  {
  }

  lemma LandsStaysGood(ld: LockdownState, a: Account, step: Step)
    requires Good(ld, a) && !Abandons(ld, a, step) && step.Lands?
    ensures BansFit(CommonStep(ld, a, step)) && Finished(ld, CommonStep(ld, a, step))
    ensures OnTheWay(CommonStep(ld, a, step))
  {
  }

  lemma OthersStayGood(ld: LockdownState, a: Account, step: Step)
    requires Good(ld, a) && !step.Move? && !step.Lands?
    ensures BansFit(CommonStep(ld, a, step)) && Finished(ld, CommonStep(ld, a, step))
    ensures OnTheWay(CommonStep(ld, a, step))
  {
  }

  lemma CommonStaysGood(ld: LockdownState, a: Account, step: Step)
    requires Good(ld, a) && !Abandons(ld, a, step)
    ensures BansFit(CommonStep(ld, a, step)) && Finished(ld, CommonStep(ld, a, step))
    ensures OnTheWay(CommonStep(ld, a, step))
  {
    if step.Move? {
      MoveStaysGood(ld, a, step);
    } else if step.Lands? {
      LandsStaysGood(ld, a, step);
    } else {
      OthersStayGood(ld, a, step);
    }
  }

  lemma StaysGood(ld: LockdownState, a: Account, step: Step)
    requires Good(ld, a) && !Abandons(ld, a, step)
    ensures Good(ld, Apply(ld, a, step))
  {
    ClaimsStayExclusive(ld, a, step);
    StaysReleasing(ld, a, step);
    StaysDated(ld, a, step);
    GuardStaysGood(ld, a, step);
    WorkerKeepsBansFit(ld, a, step);
    WorkerStaysOnTheWay(ld, a, step);
    RunStaysGood(ld, a, step);
    LiftKeepsBansFit(ld, a, step);
    LiftStaysFinished(ld, a, step);
    LiftStaysOnTheWay(ld, a, step);
    CommonStaysGood(ld, a, step);
  }

  ghost predicate Keeps(s: System, e: Event) {
    e.At? && e.user in s.accounts ==> !Abandons(s.ld, s.accounts[e.user], e.step)
  }

  /** Nobody is abandoned on the way. */
  ghost predicate NobodyAbandoned(s: System, events: seq<Event>)
    decreases |events|
  {
    events == [] || (Keeps(s, events[0]) && NobodyAbandoned(Next(s, events[0]), events[1..]))
  }

  ghost predicate AllGood(s: System) {
    forall u :: u in s.accounts ==> Good(s.ld, s.accounts[u])
  }

  lemma FinishedIsGood(a: Account)
    requires Good(Lifting, a) && (a.joiner.Some? ==> !Unfinished(a.joiner.value.state))
    ensures Good(Lifted, a)
  {
    forall x | x in a.actors
      ensures !StillBans(a.actors[x])
    {
      assert Holds(a.actors[x]) ==> InState(a, HeldState(a.actors[x]));
    }
  }

  lemma NextIsGood(s: System, e: Event)
    requires AllGood(s) && Keeps(s, e)
    ensures AllGood(Next(s, e)) && Next(s, e).accounts.Keys == s.accounts.Keys
  {
    if e.At? && e.user in s.accounts {
      StaysGood(s.ld, s.accounts[e.user], e.step);
    } else if e.FinishLift? && Next(s, e) != s {
      forall u | u in s.accounts
        ensures Good(Lifted, s.accounts[u])
      {
        FinishedIsGood(s.accounts[u]);
      }
    }
  }

  /** What the promise says of one system: whoever is under the lockdown's own ban is on the way
      to an unban, or, once the lift is finished, recorded as failed and so named in its tally. */
  ghost predicate GivesBack(s: System) {
    forall u :: u in s.accounts && Marked(s.accounts[u]) ==>
      && OnTheWay(s.accounts[u])
      && (s.ld == Lifted ==> InState(s.accounts[u], UnbanFailed))
  }

  /** Every run in which nobody is abandoned gives everybody back, with any crashes of anybody,
      any lost answers and any stale claims released. */
  lemma {:induction false} LiftGivesBack(s: System, events: seq<Event>)
    requires AllGood(s) && NobodyAbandoned(s, events)
    ensures GivesBack(Execute(s, events)) && Execute(s, events).accounts.Keys == s.accounts.Keys
    decreases |events|
  {
    if events == [] {
      assert forall u :: u in s.accounts ==> Good(s.ld, s.accounts[u]);
    } else {
      NextIsGood(s, events[0]);
      LiftGivesBack(Next(s, events[0]), events[1..]);
    }
  }

  lemma StartIsGood(s: System)
    requires Start(s)
    ensures AllGood(s)
  {
  }
}
