/** A ban somebody outside the lockdown placed, on an end date the lockdown does not take for its
    own: no step of the guard, the worker, the run or the lift changes it. */
module LockdownForeignBan {
  import opened LockdownRows
  import opened LockdownProtocol

  /** The actor does not take the ban for the lockdown's own, and is not about to make a call. */
  predicate Spares(live: ChatMember, p: Phase) {
    match p
    case WorkerClaimed(banUntil, _) => !IsLockdownBan(live, banUntil)
    case WorkerCleared(_) => false
    case RunSeen(row) => !IsLockdownBan(live, row.banUntil)
    case RunReady(banUntil, _) => !IsLockdownBan(live, banUntil)
    case RunCleared(_) => false
    case RunArmed(_) => false
    case LiftClaimed(banUntil) => !IsLockdownBan(live, banUntil)
    case LiftCleared => false
    case Settled(_, _, _) => true
  }

  /** Somebody else's ban is in force, neither the row nor any actor takes it for the lockdown's
      own, nobody who looked earlier is about to write, and no call is on its way. */
  ghost predicate ForeignBan(a: Account, live: ChatMember) {
    && a.live == live && live.status == Kicked && a.hand == Outside && a.late == multiset{}
    && (a.joiner.Some? ==> !IsLockdownBan(live, a.joiner.value.banUntil))
    && forall x :: x in a.actors ==> Spares(live, a.actors[x])
  }

  /** The step brings no end date that would recognise the ban, and is not the outside world's. */
  predicate Strange(live: ChatMember, step: Step) {
    match step
    case Record(row) => !IsLockdownBan(live, row.banUntil)
    case Reclaim(row) => !IsLockdownBan(live, row.banUntil)
    case WorkerClaim(_, banUntil, _) => !IsLockdownBan(live, banUntil)
    case LiftClaim(_, banUntil) => !IsLockdownBan(live, banUntil)
    case External(_) => false
    case _ => true
  }

  lemma GuardSpares(a: Account, live: ChatMember, step: Step)
    requires ForeignBan(a, live) && Strange(live, step)
    ensures ForeignBan(GuardStep(a, step), live)
  {
  }

  lemma WorkerSpares(a: Account, live: ChatMember, step: Step)
    requires ForeignBan(a, live) && Strange(live, step)
    ensures ForeignBan(WorkerStep(a, step), live)
  {
  }

  lemma RunSpares(ld: LockdownState, a: Account, live: ChatMember, step: Step)
    requires ForeignBan(a, live)
    ensures ForeignBan(RunStep(ld, a, step), live)
  {
    RunBansExactly(live, 0);
  }

  lemma LiftSpares(ld: LockdownState, a: Account, live: ChatMember, step: Step)
    requires ForeignBan(a, live) && Strange(live, step)
    ensures ForeignBan(LiftStep(ld, a, step), live)
  {
  }

  lemma CommonSpares(ld: LockdownState, a: Account, live: ChatMember, step: Step)
    requires ForeignBan(a, live) && Strange(live, step)
    ensures ForeignBan(CommonStep(ld, a, step), live)
  {
  }

  lemma StepSpares(ld: LockdownState, a: Account, live: ChatMember, step: Step)
    requires ForeignBan(a, live) && Strange(live, step)
    ensures ForeignBan(Apply(ld, a, step), live)
  {
    GuardSpares(a, live, step);
    WorkerSpares(a, live, step);
    RunSpares(ld, a, live, step);
    LiftSpares(ld, a, live, step);
    CommonSpares(ld, a, live, step);
  }

  predicate StrangeTo(live: ChatMember, events: seq<Event>, u: int) {
    forall i :: 0 <= i < |events| && events[i].At? && events[i].user == u ==> Strange(live, events[i].step)
  }

  ghost predicate UnderForeignBan(s: System, u: int, live: ChatMember) {
    u in s.accounts && ForeignBan(s.accounts[u], live)
  }

  /** Over every run in which nobody outside acts on the user, with any crashes and stale releases:
      somebody else's ban stands unchanged, through the lift and its end. */
  lemma {:induction false} ForeignBanStands(s: System, events: seq<Event>, u: int, live: ChatMember)
    requires UnderForeignBan(s, u, live) && StrangeTo(live, events, u)
    ensures UnderForeignBan(Execute(s, events), u, live)
    decreases |events|
  {
    if events != [] {
      var e := events[0];
      if e.At? && e.user == u {
        StepSpares(s.ld, s.accounts[u], live, e.step);
      }
      assert forall i :: 0 <= i < |events| - 1 ==> events[1..][i] == events[i + 1];
      ForeignBanStands(Next(s, e), events[1..], u, live);
    }
  }
}
