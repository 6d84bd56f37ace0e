/** The joiner protocol of a lockdown as a state machine: the join guard, the worker's marker
    ban, the permanent-ban run, the lift's unban, the stale-claim release and everybody
    outside the lockdown act on one account's joiner row and live status, one atomic row
    update or Telegram call at a time, in any order and on any number of replicas. */
module LockdownProtocol {
  import opened Wrappers
  import opened LockdownRows

  /** What one actor is in the middle of. An actor that crashes loses its phase and leaves
      the row as it is. `back` is the state and detail a claimed row of the ban run came
      from; it is None when the run found no row it could claim. */
  datatype Phase =
    | WorkerClaimed(banUntil: int, request: bool)
    | WorkerCleared(banUntil: int)
    | RunSeen(row: JoinerRow)
    | RunReady(banUntil: int, back: Option<(JoinerState, string)>)
    | RunCleared(back: Option<(JoinerState, string)>)
    | RunArmed(back: Option<(JoinerState, string)>)
    | LiftClaimed(banUntil: int)
    | LiftCleared
    | Settled(held: JoinerState, to: JoinerState, detail: string)

  /** Who put the member's live status where it is. */
  datatype Hand = Outside | ByRun | ByWorker(banUntil: int) | ByLift

  /** A Telegram call whose caller gave up on it, and which may still take effect later. */
  datatype Call = MarkerBan(until: int) | PermanentBan | Unban

  datatype Account = Account(
    joiner: Option<JoinerRow>, live: ChatMember, hand: Hand, actors: map<nat, Phase>, late: multiset<Call>)

  datatype Step =
    // The join guard.
    | Record(row: JoinerRow)
    | Reclaim(row: JoinerRow)
    | MakeExempt
    | Withdraw(reclaimed: bool)
    // The worker.
    | WorkerClaim(a: nat, banUntil: int, request: bool)
    | WorkerDecline(a: nat, to: JoinerState)
    | WorkerLook(a: nat)
    | WorkerLookFails(a: nat, to: JoinerState)
    | WorkerBan(a: nat, lands: bool, to: JoinerState)
    | WorkerBanHangs(a: nat, to: JoinerState)
    // The permanent-ban run.
    | RunSee(a: nat)
    | RunClaim(a: nat)
    | RunLook(a: nat, fails: bool)
    | RunReread(a: nat)
    | RunBan(a: nat, lands: bool, confirmed: bool)
    | RunBanHangs(a: nat)
    // The lift.
    | LiftClaim(a: nat, banUntil: int)
    | LiftLook(a: nat, now: int)
    | LiftLookFails(a: nat, to: JoinerState)
    | LiftUnban(a: nat, lands: bool, to: JoinerState)
    | LiftUnbanHangs(a: nat, to: JoinerState)
    | CancelPending
    // Everybody: the last row move of a claim, a crash, the release of a dead claim, a call
    // that takes effect after all, and whatever Telegram, admins and the member do.
    | Move(a: nat)
    | Crash(a: nat)
    | ReleaseStale
    | Lands(call: Call)
    | External(live: ChatMember)

  /** Whether the phase belongs to an actor that won the row's claim. */
  predicate Holds(p: Phase) {
    match p
    case RunSeen(_) => false
    case RunReady(_, back) => back.Some?
    case RunCleared(back) => back.Some?
    case RunArmed(back) => back.Some?
    case _ => true
  }

  function HeldState(p: Phase): JoinerState {
    match p
    case LiftClaimed(_) => Unbanning
    case LiftCleared => Unbanning
    case Settled(held, _, _) => held
    case _ => Acting
  }

  predicate AboutToWrite(p: Phase) {
    p.WorkerCleared? || p.LiftCleared?
  }

  /** The late call changes a permanent ban when it lands. */
  predicate Undoing(c: Call) {
    c != PermanentBan
  }

  predicate InState(a: Account, s: JoinerState) {
    a.joiner.Some? && a.joiner.value.state == s
  }

  function WithRow(a: Account, to: JoinerState): Account
    requires a.joiner.Some?
  {
    a.(joiner := Some(a.joiner.value.(state := to)))
  }

  function Now(a: Account, actor: nat, p: Phase): Account {
    a.(actors := a.actors[actor := p])
  }

  function Gone(a: Account, actor: nat): Account {
    a.(actors := a.actors - {actor})
  }

  function Hanging(a: Account, call: Call): Account {
    a.(late := a.late + multiset{call})
  }

  /** A ban or an unban takes effect; an unban changes nothing for somebody who is not banned. */
  function Landed(a: Account, call: Call): Account {
    match call
    case MarkerBan(until) => a.(live := ChatMember(Kicked, until), hand := ByWorker(until))
    case PermanentBan => a.(live := Forever, hand := ByRun)
    case Unban => if a.live.status == Kicked then a.(live := ChatMember(Left, 0), hand := ByLift) else a
  }

  /** A run that ends without a ban puts a claimed row back where it came from. */
  function RunEnds(a: Account, actor: nat, back: Option<(JoinerState, string)>): Account {
    if back.Some? then Now(a, actor, Settled(Acting, back.value.0, back.value.1)) else Gone(a, actor)
  }

  /** The rows the guard writes: pending or exempt, and a pending join carries an end date
      for its ban (a join request is declined, so it carries none). */
  predicate GuardRow(row: JoinerRow) {
    row.state == Exempt || (row.state == Pending && (row.request || row.banUntil > 0))
  }

  /** The guard's own steps. */
  function GuardStep(a: Account, step: Step): Account {
    match step
    case Record(row) =>
      if a.joiner.None? && GuardRow(row) then a.(joiner := Some(row)) else a
    case Reclaim(row) =>
      if a.joiner.Some? && Reclaimable(a.joiner.value.state) && GuardRow(row)
      then a.(joiner := Some(row)) else a
    case MakeExempt =>
      if InState(a, Pending) then WithRow(a, Exempt) else a
    case Withdraw(reclaimed) =>
      if !InState(a, Pending) then a
      else if reclaimed then WithRow(a, Cancelled)
      else a.(joiner := None)
    case _ => a
  }

  /** The worker's claim, live look, marker ban and decline. A look that fails, a rate limit
      and a failed call all end in the move back to pending or to a failed state; which of the
      two is left open, so the attempt counter is not counted here. */
  function WorkerStep(a: Account, step: Step): Account {
    match step
    case WorkerClaim(id, banUntil, request) =>
      if id !in a.actors && InState(a, Pending)
      then Now(WithRow(a, Acting), id, WorkerClaimed(banUntil, request)) else a
    case WorkerDecline(id, to) =>
      if id in a.actors && a.actors[id].WorkerClaimed? && a.actors[id].request
         && to in {Declined, Pending, DeclineFailed}
      then Now(a, id, Settled(Acting, to, "")) else a
    case WorkerLook(id) =>
      if id in a.actors && a.actors[id].WorkerClaimed? && !a.actors[id].request then
        var until := a.actors[id].banUntil;
        if a.live.status != Kicked then Now(a, id, WorkerCleared(until))
        else Now(a, id, Settled(Acting, if IsLockdownBan(a.live, until) then Banned else Kept, ""))
      else a
    case WorkerLookFails(id, to) =>
      if id in a.actors && a.actors[id].WorkerClaimed? && !a.actors[id].request && to in {Pending, BanFailed}
      then Now(a, id, Settled(Acting, to, "")) else a
    case WorkerBan(id, lands, to) =>
      if id in a.actors && a.actors[id].WorkerCleared?
         && (to in {Pending, BanFailed} || (lands && to == Banned)) then
        var hit := if lands then Landed(a, MarkerBan(a.actors[id].banUntil)) else a;
        Now(hit, id, Settled(Acting, to, ""))
      else a
    case WorkerBanHangs(id, to) =>
      if id in a.actors && a.actors[id].WorkerCleared? && to in {Pending, BanFailed}
      then Now(Hanging(a, MarkerBan(a.actors[id].banUntil)), id, Settled(Acting, to, "")) else a
    case _ => a
  }

  /** The ban run's fresh row read, claim, live look, lockdown re-read and permanent ban. */
  function RunStep(ld: LockdownState, a: Account, step: Step): Account {
    match step
    case RunSee(id) =>
      if id in a.actors then a
      else if a.joiner.None? then Now(a, id, RunReady(0, None))
      else if a.joiner.value.state in {Exempt, Acting, Unbanning} then a
      else if RunClaimable(a.joiner.value.state) then Now(a, id, RunSeen(a.joiner.value))
      else Now(a, id, RunReady(a.joiner.value.banUntil, None))
    case RunClaim(id) =>
      if id in a.actors && a.actors[id].RunSeen? then
        var row := a.actors[id].row;
        if InState(a, row.state)
        then Now(WithRow(a, Acting), id, RunReady(row.banUntil, Some((row.state, row.detail))))
        else Gone(a, id)
      else a
    case RunLook(id, fails) =>
      if id in a.actors && a.actors[id].RunReady? then
        var p := a.actors[id];
        if fails || !ResponseBans(a.live, p.banUntil) then RunEnds(a, id, p.back)
        else Now(a, id, RunCleared(p.back))
      else a
    case RunReread(id) =>
      if id in a.actors && a.actors[id].RunCleared? then
        var back := a.actors[id].back;
        if ld != Active then RunEnds(a, id, back) else Now(a, id, RunArmed(back))
      else a
    case RunBan(id, lands, confirmed) =>
      if id in a.actors && a.actors[id].RunArmed? && (confirmed ==> lands) then
        var back := a.actors[id].back;
        var hit := if lands then Landed(a, PermanentBan) else a;
        if !confirmed then RunEnds(hit, id, back)
        else if back.Some? then Now(hit, id, Settled(Acting, Kept, DETAIL_RESPONSE_BAN))
        else Gone(hit, id)
      else a
    case RunBanHangs(id) =>
      if id in a.actors && a.actors[id].RunArmed?
      then RunEnds(Hanging(a, PermanentBan), id, a.actors[id].back) else a
    case _ => a
  }

  /** The lift's claim, live look and unban, and its cancelling of pending rows. */
  function LiftStep(ld: LockdownState, a: Account, step: Step): Account {
    match step
    case LiftClaim(id, banUntil) =>
      if id !in a.actors && InState(a, Banned)
      then Now(WithRow(a, Unbanning), id, LiftClaimed(banUntil)) else a
    case LiftLook(id, now) =>
      if id in a.actors && a.actors[id].LiftClaimed? then
        var until := a.actors[id].banUntil;
        if IsLockdownBan(a.live, until) then Now(a, id, LiftCleared)
        else Now(a, id, Settled(Unbanning, Kept, if BanExpired(a.live, until, now) then DETAIL_BAN_EXPIRED else ""))
      else a
    case LiftLookFails(id, to) =>
      if id in a.actors && a.actors[id].LiftClaimed? && to in {Banned, UnbanFailed}
      then Now(a, id, Settled(Unbanning, to, "")) else a
    case LiftUnban(id, lands, to) =>
      if id in a.actors && a.actors[id].LiftCleared?
         && (to in {Banned, UnbanFailed} || (lands && to == Unbanned)) then
        Now(if lands then Landed(a, Unban) else a, id, Settled(Unbanning, to, ""))
      else a
    case LiftUnbanHangs(id, to) =>
      if id in a.actors && a.actors[id].LiftCleared? && to in {Banned, UnbanFailed}
      then Now(Hanging(a, Unban), id, Settled(Unbanning, to, "")) else a
    case CancelPending =>
      if ld != Active && InState(a, Pending) then WithRow(a, Cancelled) else a
    case _ => a
  }

  /** The end of a claim, its loss, its release, and the outside world. A claim is released
      only when no live actor holds it. */
  function CommonStep(ld: LockdownState, a: Account, step: Step): Account {
    match step
    case Move(id) =>
      if id in a.actors && a.actors[id].Settled? then
        var p := a.actors[id];
        var gone := Gone(a, id);
        if InState(a, p.held) then gone.(joiner := Some(Moved(a.joiner.value, p.to, p.detail, false))) else gone
      else a
    case Crash(id) => Gone(a, id)
    case ReleaseStale =>
      if a.joiner.None? || exists id :: id in a.actors && Holds(a.actors[id]) then a
      else if a.joiner.value.state == Unbanning then WithRow(a, Banned)
      else if a.joiner.value.state != Acting || ld == Lifted then a
      else if ld == Active then WithRow(a, Pending)
      else WithRow(a, if a.joiner.value.request then Cancelled else Banned)
    case Lands(call) =>
      if call in a.late then Landed(a.(late := a.late - multiset{call}), call) else a
    case External(live) => a.(live := live, hand := Outside)
    case _ => a
  }

  function Apply(ld: LockdownState, a: Account, step: Step): Account {
    match step
    case Record(_) => GuardStep(a, step)
    case Reclaim(_) => GuardStep(a, step)
    case MakeExempt => GuardStep(a, step)
    case Withdraw(_) => GuardStep(a, step)
    case WorkerClaim(_, _, _) => WorkerStep(a, step)
    case WorkerDecline(_, _) => WorkerStep(a, step)
    case WorkerLook(_) => WorkerStep(a, step)
    case WorkerLookFails(_, _) => WorkerStep(a, step)
    case WorkerBan(_, _, _) => WorkerStep(a, step)
    case WorkerBanHangs(_, _) => WorkerStep(a, step)
    case RunSee(_) => RunStep(ld, a, step)
    case RunClaim(_) => RunStep(ld, a, step)
    case RunLook(_, _) => RunStep(ld, a, step)
    case RunReread(_) => RunStep(ld, a, step)
    case RunBan(_, _, _) => RunStep(ld, a, step)
    case RunBanHangs(_) => RunStep(ld, a, step)
    case LiftClaim(_, _) => LiftStep(ld, a, step)
    case LiftLook(_, _) => LiftStep(ld, a, step)
    case LiftLookFails(_, _) => LiftStep(ld, a, step)
    case LiftUnban(_, _, _) => LiftStep(ld, a, step)
    case LiftUnbanHangs(_, _) => LiftStep(ld, a, step)
    case CancelPending => LiftStep(ld, a, step)
    case _ => CommonStep(ld, a, step)
  }

  datatype System = System(ld: LockdownState, accounts: map<int, Account>)
  datatype Event = BeginLift | FinishLift | At(user: int, step: Step)

  predicate NothingUnfinished(accounts: map<int, Account>) {
    forall u :: u in accounts && accounts[u].joiner.Some? ==> !Unfinished(accounts[u].joiner.value.state)
  }

  function Next(s: System, e: Event): System {
    match e
    case BeginLift => if s.ld == Active then s.(ld := Lifting) else s
    case FinishLift => if s.ld == Lifting && NothingUnfinished(s.accounts) then s.(ld := Lifted) else s
    case At(u, step) =>
      if u in s.accounts then s.(accounts := s.accounts[u := Apply(s.ld, s.accounts[u], step)]) else s
  }

  function Execute(s: System, events: seq<Event>): System
    decreases |events|
  {
    if events == [] then s else Execute(Next(s, events[0]), events[1..])
  }

  predicate Untouched(a: Account) {
    a.joiner.None? && a.hand == Outside && a.actors == map[] && a.late == multiset{}
  }

  predicate Start(s: System) {
    s.ld == Active && forall u :: u in s.accounts ==> Untouched(s.accounts[u])
  }

  predicate Sound(p: Phase) {
    && (p.RunSeen? ==> RunClaimable(p.row.state))
    && (p.Settled? ==> p.held in {Acting, Unbanning})
  }

  /** A claim is held by at most one live actor, and the row is in the state it was claimed to. */
  ghost predicate Exclusive(a: Account) {
    && (forall x :: x in a.actors ==> Sound(a.actors[x]))
    && (forall x :: x in a.actors && Holds(a.actors[x]) ==> InState(a, HeldState(a.actors[x])))
    && (forall x, y :: x in a.actors && y in a.actors && Holds(a.actors[x]) && Holds(a.actors[y]) ==> x == y)
  }

  /** Nobody who looked already is about to write, and no marker ban or unban is on its way. */
  ghost predicate Undisturbed(a: Account) {
    && (forall x :: x in a.actors ==> !AboutToWrite(a.actors[x]))
    && (forall c :: c in a.late ==> !Undoing(c))
  }

  /** The run's permanent ban is in force and nothing is about to undo it. */
  ghost predicate Sealed(a: Account) {
    a.hand == ByRun ==> a.live == Forever && Undisturbed(a)
  }

  /** A permanent ban of the run takes effect in this step. */
  predicate BansForGood(a: Account, step: Step) {
    || (step.RunBan? && step.lands && step.a in a.actors && a.actors[step.a].RunArmed?)
    || (step == Lands(PermanentBan) && PermanentBan in a.late)
  }

  /** A step is unraced unless it is a permanent ban that takes effect between the live look of a
      worker or a lift and the end of that actor's own call. */
  ghost predicate UnracedStep(a: Account, step: Step) {
    BansForGood(a, step) ==> Undisturbed(a)
  }

  lemma GuardKeepsClaims(a: Account, step: Step)
    requires Exclusive(a)
    ensures Exclusive(GuardStep(a, step))
  {
  }

  lemma WorkerClaimKeepsClaims(a: Account, step: Step)
    requires Exclusive(a) && step.WorkerClaim?
    ensures Exclusive(WorkerStep(a, step))
  {
  }

  lemma WorkerGoesOnKeepsClaims(a: Account, step: Step)
    requires Exclusive(a) && !step.WorkerClaim?
    ensures Exclusive(WorkerStep(a, step))
  {
  }

  lemma WorkerKeepsClaims(a: Account, step: Step)
    requires Exclusive(a)
    ensures Exclusive(WorkerStep(a, step))
  {
    if step.WorkerClaim? {
      WorkerClaimKeepsClaims(a, step);
    } else {
      WorkerGoesOnKeepsClaims(a, step);
    }
  }

  lemma RunClaimKeepsClaims(ld: LockdownState, a: Account, step: Step)
    requires Exclusive(a) && (step.RunSee? || step.RunClaim?)
    ensures Exclusive(RunStep(ld, a, step))
  {
  }

  lemma RunChecksKeepClaims(ld: LockdownState, a: Account, step: Step)
    requires Exclusive(a) && (step.RunLook? || step.RunReread?)
    ensures Exclusive(RunStep(ld, a, step))
  {
  }

  lemma RunBanKeepsClaims(ld: LockdownState, a: Account, step: Step)
    requires Exclusive(a) && !step.RunSee? && !step.RunClaim? && !step.RunLook? && !step.RunReread?
    ensures Exclusive(RunStep(ld, a, step))
  {
  }

  lemma RunKeepsClaims(ld: LockdownState, a: Account, step: Step)
    requires Exclusive(a)
    ensures Exclusive(RunStep(ld, a, step))
  {
    if step.RunSee? || step.RunClaim? {
      RunClaimKeepsClaims(ld, a, step);
    } else if step.RunLook? || step.RunReread? {
      RunChecksKeepClaims(ld, a, step);
    } else {
      RunBanKeepsClaims(ld, a, step);
    }
  }

  lemma LiftClaimKeepsClaims(ld: LockdownState, a: Account, step: Step)
    requires Exclusive(a) && step.LiftClaim?
    ensures Exclusive(LiftStep(ld, a, step))
  {
  }

  lemma LiftLookKeepsClaims(ld: LockdownState, a: Account, step: Step)
    requires Exclusive(a) && (step.LiftLook? || step.LiftLookFails?)
    ensures Exclusive(LiftStep(ld, a, step))
  {
  }

  lemma LiftUnbanKeepsClaims(ld: LockdownState, a: Account, step: Step)
    requires Exclusive(a) && !step.LiftClaim? && !step.LiftLook? && !step.LiftLookFails?
    ensures Exclusive(LiftStep(ld, a, step))
  {
  }

  lemma LiftKeepsClaims(ld: LockdownState, a: Account, step: Step)
    requires Exclusive(a)
    ensures Exclusive(LiftStep(ld, a, step))
  {
    if step.LiftClaim? {
      LiftClaimKeepsClaims(ld, a, step);
    } else if step.LiftLook? || step.LiftLookFails? {
      LiftLookKeepsClaims(ld, a, step);
    } else {
      LiftUnbanKeepsClaims(ld, a, step);
    }
  }

  lemma CommonKeepsClaims(ld: LockdownState, a: Account, step: Step)
    requires Exclusive(a)
    ensures Exclusive(CommonStep(ld, a, step))
  {
  }

  lemma ClaimsStayExclusive(ld: LockdownState, a: Account, step: Step)
    requires Exclusive(a)
    ensures Exclusive(Apply(ld, a, step))
  {
    GuardKeepsClaims(a, step);
    WorkerKeepsClaims(a, step);
    RunKeepsClaims(ld, a, step);
    LiftKeepsClaims(ld, a, step);
    CommonKeepsClaims(ld, a, step);
  }

  /** The seal holds after a step, and only the outside world breaks it. */
  ghost predicate KeepsSeal(a: Account, b: Account) {
    Sealed(b) && (a.hand == ByRun ==> b.hand == ByRun)
  }

  lemma GuardKeepsSeal(a: Account, step: Step)
    requires Sealed(a)
    ensures KeepsSeal(a, GuardStep(a, step))
  {
  }

  lemma WorkerKeepsSeal(a: Account, step: Step)
    requires Sealed(a)
    ensures KeepsSeal(a, WorkerStep(a, step))
  {
  }

  lemma RunBanKeepsSeal(ld: LockdownState, a: Account, step: Step)
    requires Sealed(a) && UnracedStep(a, step) && (step.RunBan? || step.RunBanHangs?)
    ensures KeepsSeal(a, RunStep(ld, a, step))
  {
  }

  lemma RunChecksKeepSeal(ld: LockdownState, a: Account, step: Step)
    requires Sealed(a) && !step.RunBan? && !step.RunBanHangs?
    ensures KeepsSeal(a, RunStep(ld, a, step))
  {
  }

  lemma RunKeepsSeal(ld: LockdownState, a: Account, step: Step)
    requires Sealed(a) && UnracedStep(a, step)
    ensures KeepsSeal(a, RunStep(ld, a, step))
  {
    if step.RunBan? || step.RunBanHangs? {
      RunBanKeepsSeal(ld, a, step);
    } else {
      RunChecksKeepSeal(ld, a, step);
    }
  }

  lemma LiftKeepsSeal(ld: LockdownState, a: Account, step: Step)
    requires Sealed(a)
    ensures KeepsSeal(a, LiftStep(ld, a, step))
  {
  }

  lemma CommonKeepsSeal(ld: LockdownState, a: Account, step: Step)
    requires Sealed(a) && UnracedStep(a, step)
    ensures Sealed(CommonStep(ld, a, step))
    ensures a.hand == ByRun && !step.External? ==> CommonStep(ld, a, step).hand == ByRun
  {
  }

  /** No step but the outside world's undoes a permanent ban of the run. */
  lemma SealStays(ld: LockdownState, a: Account, step: Step)
    requires Exclusive(a) && Sealed(a) && UnracedStep(a, step)
    ensures Sealed(Apply(ld, a, step))
    ensures a.hand == ByRun && !step.External? ==> Apply(ld, a, step).hand == ByRun
  {
    GuardKeepsSeal(a, step);
    WorkerKeepsSeal(a, step);
    RunKeepsSeal(ld, a, step);
    LiftKeepsSeal(ld, a, step);
    CommonKeepsSeal(ld, a, step);
  }

  // What holds in every reachable state, and the permanent ban.

  ghost predicate AllExclusive(s: System) {
    forall u :: u in s.accounts ==> Exclusive(s.accounts[u])
  }

  /** In every run, under any interleaving and any crashes, no row is ever claimed twice. */
  lemma {:induction false} NoRowIsClaimedTwice(s: System, events: seq<Event>)
    requires AllExclusive(s)
    ensures AllExclusive(Execute(s, events)) && Execute(s, events).accounts.Keys == s.accounts.Keys
    decreases |events|
  {
    if events != [] {
      var e := events[0];
      if e.At? && e.user in s.accounts {
        ClaimsStayExclusive(s.ld, s.accounts[e.user], e.step);
      }
      NoRowIsClaimedTwice(Next(s, e), events[1..]);
    }
  }

  ghost predicate SafeEvent(s: System, e: Event) {
    e.At? && e.user in s.accounts ==> UnracedStep(s.accounts[e.user], e.step)
  }

  ghost predicate Unraced(s: System, events: seq<Event>)
    decreases |events|
  {
    events == [] || (SafeEvent(s, events[0]) && Unraced(Next(s, events[0]), events[1..]))
  }

  ghost predicate Safe(s: System) {
    forall u :: u in s.accounts ==> Exclusive(s.accounts[u]) && Sealed(s.accounts[u])
  }

  /** The account of one user is under a permanent ban of the run. */
  ghost predicate BannedForGood(s: System, u: int) {
    u in s.accounts && s.accounts[u].hand == ByRun
  }

  lemma NextIsSafe(s: System, e: Event)
    requires Safe(s) && SafeEvent(s, e)
    ensures Safe(Next(s, e)) && Next(s, e).accounts.Keys == s.accounts.Keys
  {
    if e.At? && e.user in s.accounts {
      ClaimsStayExclusive(s.ld, s.accounts[e.user], e.step);
      SealStays(s.ld, s.accounts[e.user], e.step);
    }
  }

  lemma NextStaysBanned(s: System, e: Event, u: int)
    requires Safe(s) && SafeEvent(s, e) && BannedForGood(s, u)
    requires e.At? && e.user == u ==> !e.step.External?
    ensures BannedForGood(Next(s, e), u)
  {
    if e.At? && e.user == u {
      SealStays(s.ld, s.accounts[u], e.step);
    }
  }

  /** In every unraced run that starts with an untouched lockdown a permanent ban of the run is
      in force, and nobody who looked before it is about to write. */
  lemma {:induction false} ReachableIsSafe(s: System, events: seq<Event>)
    requires Safe(s) && Unraced(s, events)
    ensures Safe(Execute(s, events)) && Execute(s, events).accounts.Keys == s.accounts.Keys
    decreases |events|
  {
    if events != [] {
      NextIsSafe(s, events[0]);
      ReachableIsSafe(Next(s, events[0]), events[1..]);
    }
  }

  /** Nobody outside the lockdown acts on the user. */
  ghost predicate NobodyElse(events: seq<Event>, u: int) {
    forall i :: 0 <= i < |events| && events[i].At? && events[i].user == u ==> !events[i].step.External?
  }

  lemma {:induction false} SealedUntilOutside(s: System, events: seq<Event>, u: int)
    requires Safe(s) && Unraced(s, events) && BannedForGood(s, u) && NobodyElse(events, u)
    ensures BannedForGood(Execute(s, events), u) && Safe(Execute(s, events))
    decreases |events|
  {
    if events != [] {
      NextIsSafe(s, events[0]);
      NextStaysBanned(s, events[0], u);
      assert forall i :: 0 <= i < |events| - 1 ==> events[1..][i] == events[i + 1];
      SealedUntilOutside(Next(s, events[0]), events[1..], u);
    }
  }

  lemma {:induction false} ExecuteConcat(s: System, before: seq<Event>, after: seq<Event>)
    ensures Execute(s, before + after) == Execute(Execute(s, before), after)
    ensures Unraced(s, before + after) <==> Unraced(s, before) && Unraced(Execute(s, before), after)
    decreases |before|
  {
    var all := before + after;
    if before == [] {
      assert all == after;
    } else {
      assert all[0] == before[0] && all[1..] == before[1..] + after;
      ExecuteConcat(Next(s, before[0]), before[1..], after);
    }
  }

  /** Some run leads from one system to the other. */
  ghost predicate Leads(s: System, t: System) {
    exists events :: Execute(s, events) == t
  }

  lemma LeadsNowhere(s: System)
    ensures Leads(s, s)
  {
    assert Execute(s, []) == s;
  }

  lemma LeadsOn(s: System, t: System, e: Event)
    requires Leads(s, t)
    ensures Leads(s, Next(t, e))
  {
    var events :| Execute(s, events) == t;
    ExecuteConcat(s, events, [e]);
    assert Execute(t, [e]) == Next(t, e);
    assert Execute(s, events + [e]) == Next(t, e);
  }

  /** Once the run's ban with no end date is in force, no later step of the guard, the
      worker, another run, the lift or the stale-claim release changes it. */
  lemma PermanentBanStands(s: System, before: seq<Event>, after: seq<Event>, u: int)
    requires Start(s) && Unraced(s, before + after)
    requires BannedForGood(Execute(s, before), u) && NobodyElse(after, u)
    ensures u in Execute(s, before + after).accounts
    ensures Execute(s, before + after).accounts[u].live == Forever
  {
    ExecuteConcat(s, before, after);
    assert Safe(s);
    ReachableIsSafe(s, before);
    SealedUntilOutside(Execute(s, before), after, u);
  }

  /** A step of the guard, the worker, another run or the lift that changes a permanent ban. */
  ghost predicate Undoes(ld: LockdownState, a: Account, step: Step) {
    UnracedStep(a, step) && !step.External? && Apply(ld, a, step).live != Forever
  }

  /** The late calls and the bans about to be made carry an end date. */
  ghost predicate AllDated(a: Account) {
    && (forall x :: x in a.actors && a.actors[x].WorkerCleared? ==> a.actors[x].banUntil != 0)
    && (forall c :: c in a.late && c.MarkerBan? ==> c.until != 0)
  }

  /** The exact condition of the seal: a permanent ban that takes effect can be undone by the very
      next step of somebody else exactly when an actor who looked earlier is about to write, or a
      marker ban or an unban is still on its way. */
  lemma LandedBanIsLostOnlyToARace(ld: LockdownState, a: Account, ban: Step)
    requires Exclusive(a) && AllDated(a) && BansForGood(a, ban)
    ensures (exists step :: Undoes(ld, Apply(ld, a, ban), step)) <==> !UnracedStep(a, ban)
  {
    var banned := Apply(ld, a, ban);
    assert banned.live == Forever && banned.hand == ByRun;
    if UnracedStep(a, ban) {
      ClaimsStayExclusive(ld, a, ban);
      BanSeals(ld, a, ban);
      forall step | UnracedStep(banned, step) && !step.External?
        ensures !Undoes(ld, banned, step)
      {
        SealStays(ld, banned, step);
      }
    } else if x :| x in a.actors && AboutToWrite(a.actors[x]) {
      assert banned.actors[x] == a.actors[x];
      PendingWriteUndoes(ld, banned, x);
    } else {
      var c :| c in a.late && Undoing(c);
      LateCallUndoes(ld, banned, c);
    }
  }

  lemma BanSeals(ld: LockdownState, a: Account, ban: Step)
    requires Exclusive(a) && BansForGood(a, ban) && Undisturbed(a)
    ensures Sealed(Apply(ld, a, ban))
  {
  }

  /** An actor that looked before a permanent ban undoes it by the call it is about to make. */
  lemma PendingWriteUndoes(ld: LockdownState, a: Account, x: nat)
    requires x in a.actors && AboutToWrite(a.actors[x]) && a.live == Forever
    requires a.actors[x].WorkerCleared? ==> a.actors[x].banUntil != 0
    ensures exists step :: Undoes(ld, a, step)
  {
    if a.actors[x].WorkerCleared? {
      assert Undoes(ld, a, WorkerBan(x, true, Banned));
    } else {
      assert Undoes(ld, a, LiftUnban(x, true, Unbanned));
    }
  }

  /** So does a call that is on its way. */
  lemma LateCallUndoes(ld: LockdownState, a: Account, c: Call)
    requires c in a.late && Undoing(c) && a.live == Forever && (c.MarkerBan? ==> c.until != 0)
    ensures exists step :: Undoes(ld, a, step)
  {
    assert Undoes(ld, a, Lands(c));
  }
}
