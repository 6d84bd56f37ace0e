/** What the lockdown's actors achieve when nothing goes wrong: the worker removes a joiner, the
    lift gives them back and leaves everybody else's bans alone, and the run bans for good.
    Other actors may be in the middle of anything; they are left where they are. */
module LockdownRoundTrip {
  import opened Wrappers
  import opened LockdownRows
  import opened LockdownProtocol

  function Steps(ld: LockdownState, a: Account, steps: seq<Step>): Account
    decreases |steps|
  {
    if steps == [] then a else Steps(ld, Apply(ld, a, steps[0]), steps[1..])
  }

  lemma {:induction false} StepThen(ld: LockdownState, a: Account, step: Step, rest: seq<Step>)
    ensures Steps(ld, a, [step] + rest) == Steps(ld, Apply(ld, a, step), rest)
  {
    assert ([step] + rest)[1..] == rest;
  }

  lemma ThreeSteps(ld: LockdownState, a: Account, s1: Step, s2: Step, s3: Step)
    ensures Steps(ld, a, [s1, s2, s3]) == Apply(ld, Apply(ld, Apply(ld, a, s1), s2), s3)
  {
    var b := Apply(ld, a, s1);
    var c := Apply(ld, b, s2);
    StepThen(ld, a, s1, [s2, s3]);
    StepThen(ld, b, s2, [s3]);
    StepThen(ld, c, s3, []);
  }

  lemma FourSteps(ld: LockdownState, a: Account, s1: Step, s2: Step, s3: Step, s4: Step)
    ensures Steps(ld, a, [s1, s2, s3, s4]) == Apply(ld, Apply(ld, Apply(ld, Apply(ld, a, s1), s2), s3), s4)
  {
    StepThen(ld, a, s1, [s2, s3, s4]);
    ThreeSteps(ld, Apply(ld, a, s1), s2, s3, s4);
  }

  predicate Waits(a: Account, actor: nat, s: JoinerState) {
    InState(a, s) && actor !in a.actors
  }

  function Ended(a: Account, to: JoinerState, detail: string, attempts: nat): Option<JoinerRow>
    requires a.joiner.Some?
  {
    Some(a.joiner.value.(state := to, detail := detail, attempts := attempts))
  }

  lemma WorkerClears(ld: LockdownState, a: Account, w: nat)
    requires Waits(a, w, Pending) && !a.joiner.value.request && a.live.status != Kicked
    ensures Apply(ld, Apply(ld, a, WorkerClaim(w, a.joiner.value.banUntil, false)), WorkerLook(w))
            == Now(WithRow(a, Acting), w, WorkerCleared(a.joiner.value.banUntil))
  {
    var until := a.joiner.value.banUntil;
    var claimed := Now(WithRow(a, Acting), w, WorkerClaimed(until, false));
    assert Apply(ld, a, WorkerClaim(w, until, false)) == claimed;
    assert claimed.actors[w := WorkerCleared(until)] == a.actors[w := WorkerCleared(until)];
  }

  lemma WorkerBans(ld: LockdownState, a: Account, w: nat, until: int)
    ensures Apply(ld, Now(a, w, WorkerCleared(until)), WorkerBan(w, true, Banned))
            == Now(a.(live := ChatMember(Kicked, until), hand := ByWorker(until)), w, Settled(Acting, Banned, ""))
  {
    var settled := Settled(Acting, Banned, "");
    assert a.actors[w := WorkerCleared(until)][w := settled] == a.actors[w := settled];
  }

  /** The last move of an actor takes its row where it was to go, and the actor is gone. */
  lemma SettledMoves(ld: LockdownState, a: Account, x: nat, p: Phase)
    requires p.Settled? && InState(a, p.held) && x !in a.actors
    ensures Apply(ld, Now(a, x, p), Move(x)) == a.(joiner := Some(Moved(a.joiner.value, p.to, p.detail, false)))
  {
    assert a.actors[x := p] - {x} == a.actors;
  }

  /** A pending joiner who is not banned ends under the lockdown's own ban, on their row's own
      date, with a banned row and a fresh attempt counter. */
  lemma WorkerRemoves(ld: LockdownState, a: Account, w: nat)
    requires Waits(a, w, Pending) && !a.joiner.value.request && a.live.status != Kicked
    ensures var until := a.joiner.value.banUntil;
            Steps(ld, a, [WorkerClaim(w, until, false), WorkerLook(w), WorkerBan(w, true, Banned), Move(w)])
            == a.(joiner := Ended(a, Banned, "", 0), live := ChatMember(Kicked, until), hand := ByWorker(until))
  {
    var until := a.joiner.value.banUntil;
    FourSteps(ld, a, WorkerClaim(w, until, false), WorkerLook(w), WorkerBan(w, true, Banned), Move(w));
    WorkerClears(ld, a, w);
    var banned := WithRow(a, Acting).(live := ChatMember(Kicked, until), hand := ByWorker(until));
    WorkerBans(ld, WithRow(a, Acting), w, until);
    SettledMoves(ld, banned, w, Settled(Acting, Banned, ""));
  }

  lemma LiftClears(ld: LockdownState, a: Account, l: nat, now: int)
    requires Waits(a, l, Banned) && IsLockdownBan(a.live, a.joiner.value.banUntil)
    ensures Apply(ld, Apply(ld, a, LiftClaim(l, a.joiner.value.banUntil)), LiftLook(l, now))
            == Now(WithRow(a, Unbanning), l, LiftCleared)
  {
    var claimed := Now(WithRow(a, Unbanning), l, LiftClaimed(a.joiner.value.banUntil));
    assert Apply(ld, a, LiftClaim(l, a.joiner.value.banUntil)) == claimed;
    assert claimed.actors[l := LiftCleared] == a.actors[l := LiftCleared];
  }

  lemma LiftTakesBack(ld: LockdownState, a: Account, l: nat)
    requires a.live.status == Kicked
    ensures Apply(ld, Now(a, l, LiftCleared), LiftUnban(l, true, Unbanned))
            == Now(a.(live := ChatMember(Left, 0), hand := ByLift), l, Settled(Unbanning, Unbanned, ""))
  {
    var settled := Settled(Unbanning, Unbanned, "");
    assert a.actors[l := LiftCleared][l := settled] == a.actors[l := settled];
  }

  /** The lift takes the lockdown's own ban back: the member is out of the group and free to
      come back. */
  lemma LiftUnbans(ld: LockdownState, a: Account, l: nat, now: int)
    requires Waits(a, l, Banned) && IsLockdownBan(a.live, a.joiner.value.banUntil)
    ensures Steps(ld, a, [LiftClaim(l, a.joiner.value.banUntil), LiftLook(l, now), LiftUnban(l, true, Unbanned),
                          Move(l)])
            == a.(joiner := Ended(a, Unbanned, "", a.joiner.value.attempts), live := ChatMember(Left, 0),
                  hand := ByLift)
  {
    var until := a.joiner.value.banUntil;
    FourSteps(ld, a, LiftClaim(l, until), LiftLook(l, now), LiftUnban(l, true, Unbanned), Move(l));
    var cleared := Now(WithRow(a, Unbanning), l, LiftCleared);
    LiftClears(ld, a, l, now);
    var free := WithRow(a, Unbanning).(live := ChatMember(Left, 0), hand := ByLift);
    LiftTakesBack(ld, WithRow(a, Unbanning), l);
    SettledMoves(ld, free, l, Settled(Unbanning, Unbanned, ""));
  }

  /** A status that is not the lockdown's own ban is left alone, and the row says whether the
      lockdown outlasted its ban. */
  lemma LiftKeepsOthersBans(ld: LockdownState, a: Account, l: nat, now: int)
    requires Waits(a, l, Banned) && !IsLockdownBan(a.live, a.joiner.value.banUntil)
    ensures Steps(ld, a, [LiftClaim(l, a.joiner.value.banUntil), LiftLook(l, now), Move(l)])
            == a.(joiner := Ended(a, Kept,
                                  if a.live.status == Left && now > a.joiner.value.banUntil != 0
                                  then "ban_expired" else "",
                                  a.joiner.value.attempts))
  {
    var until := a.joiner.value.banUntil;
    ThreeSteps(ld, a, LiftClaim(l, until), LiftLook(l, now), Move(l));
    var claimed := Apply(ld, a, LiftClaim(l, until));
    var seen := Apply(ld, claimed, LiftLook(l, now));
    assert seen.actors[l].Settled? && InState(seen, Unbanning);
    assert Apply(ld, seen, Move(l)).actors == a.actors;
  }

  /** Being removed and given back is a round trip: whoever was not banned before is not banned
      afterwards. */
  lemma RemovedAndGivenBack(ld: LockdownState, after: LockdownState, a: Account, w: nat, l: nat, now: int)
    requires Waits(a, w, Pending) && l !in a.actors && !a.joiner.value.request && a.joiner.value.banUntil > 0
    requires a.live.status != Kicked
    ensures var until := a.joiner.value.banUntil;
            var removed := Steps(ld, a, [WorkerClaim(w, until, false), WorkerLook(w), WorkerBan(w, true, Banned),
                                         Move(w)]);
            var back := Steps(after, removed,
                              [LiftClaim(l, until), LiftLook(l, now), LiftUnban(l, true, Unbanned), Move(l)]);
            && removed.live.status == Kicked && back.live == ChatMember(Left, 0)
            && InState(back, Unbanned) && back.actors == a.actors
  {
    var until := a.joiner.value.banUntil;
    WorkerRemoves(ld, a, w);
    var removed := Steps(ld, a, [WorkerClaim(w, until, false), WorkerLook(w), WorkerBan(w, true, Banned), Move(w)]);
    LiftUnbans(after, removed, l, now);
  }

  /** The run up to its live look, on an account it may ban. */
  lemma RunLooks(ld: LockdownState, a: Account, r: nat)
    requires a.joiner.Some? && RunClaimable(a.joiner.value.state) && r !in a.actors
    requires ResponseBans(a.live, a.joiner.value.banUntil)
    ensures var row := a.joiner.value;
            Steps(ld, a, [RunSee(r), RunClaim(r), RunLook(r, false)])
            == a.(joiner := Some(row.(state := Acting)),
                  actors := a.actors[r := RunCleared(Some((row.state, row.detail)))])
  {
    var row := a.joiner.value;
    ThreeSteps(ld, a, RunSee(r), RunClaim(r), RunLook(r, false));
    var seen := Apply(ld, a, RunSee(r));
    assert seen == a.(actors := a.actors[r := RunSeen(row)]);
    var claimed := Apply(ld, seen, RunClaim(r));
    assert claimed.actors[r] == RunReady(row.banUntil, Some((row.state, row.detail))) && claimed.live == a.live;
  }

  lemma RunBans(a: Account, r: nat, back: (JoinerState, string))
    requires InState(a, Acting) && r in a.actors && a.actors[r] == RunCleared(Some(back))
    ensures Steps(Active, a, [RunReread(r), RunBan(r, true, true), Move(r)])
            == a.(joiner := Ended(a, Kept, DETAIL_RESPONSE_BAN, a.joiner.value.attempts), live := Forever,
                  hand := ByRun,
                  actors := a.actors - {r})
  {
    ThreeSteps(Active, a, RunReread(r), RunBan(r, true, true), Move(r));
    var armed := Apply(Active, a, RunReread(r));
    assert armed.actors[r] == RunArmed(Some(back)) && armed.joiner == a.joiner;
    var banned := Apply(Active, armed, RunBan(r, true, true));
    assert banned.actors[r] == Settled(Acting, Kept, DETAIL_RESPONSE_BAN) && banned.joiner == a.joiner;
    assert banned.actors - {r} == a.actors - {r};
  }

  lemma RunReturnsRow(ld: LockdownState, a: Account, r: nat, back: (JoinerState, string))
    requires ld != Active && InState(a, Acting) && r in a.actors && a.actors[r] == RunCleared(Some(back))
    ensures Apply(ld, Apply(ld, a, RunReread(r)), Move(r))
            == a.(joiner := Ended(a, back.0, back.1, if back.0 == Banned then 0 else a.joiner.value.attempts),
                  actors := a.actors - {r})
  {
    var over := Apply(ld, a, RunReread(r));
    assert over.actors[r] == Settled(Acting, back.0, back.1) && over.joiner == a.joiner;
    assert over.actors - {r} == a.actors - {r};
  }

  /** The run bans an account it may ban for good, and the row ends kept so that the lift leaves
      it banned. */
  lemma RunBansForGood(a: Account, r: nat)
    requires a.joiner.Some? && RunClaimable(a.joiner.value.state) && r !in a.actors
    requires ResponseBans(a.live, a.joiner.value.banUntil)
    ensures Steps(Active, Steps(Active, a, [RunSee(r), RunClaim(r), RunLook(r, false)]),
                  [RunReread(r), RunBan(r, true, true), Move(r)])
            == a.(joiner := Ended(a, Kept, "response_ban", a.joiner.value.attempts), live := ChatMember(Kicked, 0),
                  hand := ByRun)
  {
    RunLooks(Active, a, r);
    var looked := Steps(Active, a, [RunSee(r), RunClaim(r), RunLook(r, false)]);
    RunBans(looked, r, (a.joiner.value.state, a.joiner.value.detail));
    assert looked.actors - {r} == a.actors;
  }

  /** A run that claimed a row and finds the lockdown over sends nothing and puts the row back
      where it was. */
  lemma RunGivesUpOnALift(ld: LockdownState, a: Account, r: nat)
    requires a.joiner.Some? && RunClaimable(a.joiner.value.state) && r !in a.actors && ld != Active
    requires ResponseBans(a.live, a.joiner.value.banUntil)
    ensures var row := a.joiner.value;
            Apply(ld, Apply(ld, Steps(ld, a, [RunSee(r), RunClaim(r), RunLook(r, false)]), RunReread(r)), Move(r))
            == a.(joiner := Ended(a, row.state, row.detail, if row.state == Banned then 0 else row.attempts))
  {
    RunLooks(ld, a, r);
    var looked := Steps(ld, a, [RunSee(r), RunClaim(r), RunLook(r, false)]);
    RunReturnsRow(ld, looked, r, (a.joiner.value.state, a.joiner.value.detail));
    assert looked.actors - {r} == a.actors;
  }

  // What each of them leaves alone.

  lemma ClaimAndLook(ld: LockdownState, a: Account, w: nat, to: JoinerState)
    requires Waits(a, w, Pending) && !a.joiner.value.request && a.live.status == Kicked
    requires to == if IsLockdownBan(a.live, a.joiner.value.banUntil) then Banned else Kept
    ensures Steps(ld, a, [WorkerClaim(w, a.joiner.value.banUntil, false), WorkerLook(w), Move(w)])
            == a.(joiner := Some(Moved(a.joiner.value.(state := Acting), to, "", false)))
  {
    var until := a.joiner.value.banUntil;
    ThreeSteps(ld, a, WorkerClaim(w, until, false), WorkerLook(w), Move(w));
    var claimed := Now(WithRow(a, Acting), w, WorkerClaimed(until, false));
    assert Apply(ld, a, WorkerClaim(w, until, false)) == claimed;
    var settled := Settled(Acting, to, "");
    assert claimed.actors[w := settled] == a.actors[w := settled];
    assert Apply(ld, claimed, WorkerLook(w)) == Now(WithRow(a, Acting), w, settled);
    SettledMoves(ld, WithRow(a, Acting), w, settled);
  }

  /** A joiner somebody else banned is kept: no call is made, and their ban stays as it is. */
  lemma WorkerKeepsOthersBans(ld: LockdownState, a: Account, w: nat)
    requires Waits(a, w, Pending) && !a.joiner.value.request
    requires a.live.status == Kicked && !IsLockdownBan(a.live, a.joiner.value.banUntil)
    ensures Steps(ld, a, [WorkerClaim(w, a.joiner.value.banUntil, false), WorkerLook(w), Move(w)])
            == a.(joiner := Ended(a, Kept, "", a.joiner.value.attempts))
  {
    ClaimAndLook(ld, a, w, Kept);
  }

  /** The lockdown's own ban, whose answer was lost, is recorded without another call. */
  lemma WorkerFindsItsOwnBan(ld: LockdownState, a: Account, w: nat)
    requires Waits(a, w, Pending) && !a.joiner.value.request && IsLockdownBan(a.live, a.joiner.value.banUntil)
    ensures Steps(ld, a, [WorkerClaim(w, a.joiner.value.banUntil, false), WorkerLook(w), Move(w)])
            == a.(joiner := Ended(a, Banned, "", 0))
  {
    ClaimAndLook(ld, a, w, Banned);
  }

  /** A join request is declined, or fails to be, and nobody is ever banned for one. */
  lemma WorkerDeclinesRequests(ld: LockdownState, a: Account, w: nat, to: JoinerState)
    requires Waits(a, w, Pending) && to in {Declined, Pending, DeclineFailed}
    ensures var claim := WorkerClaim(w, a.joiner.value.banUntil, true);
            var claimed := Apply(ld, a, claim);
            && Apply(ld, claimed, WorkerLook(w)) == claimed
            && Steps(ld, a, [claim, WorkerDecline(w, to), Move(w)])
               == a.(joiner := Ended(a, to, "", a.joiner.value.attempts))
  {
    var until := a.joiner.value.banUntil;
    ThreeSteps(ld, a, WorkerClaim(w, until, true), WorkerDecline(w, to), Move(w));
    var claimed := Now(WithRow(a, Acting), w, WorkerClaimed(until, true));
    assert Apply(ld, a, WorkerClaim(w, until, true)) == claimed;
    var settled := Settled(Acting, to, "");
    assert claimed.actors[w := settled] == a.actors[w := settled];
    SettledMoves(ld, WithRow(a, Acting), w, settled);
  }

  /** A failed call changes nobody's status, and the row waits for another try or is given up. */
  lemma FailedBanBansNobody(ld: LockdownState, a: Account, w: nat, until: int, to: JoinerState)
    requires InState(a, Acting) && w !in a.actors && to in {Pending, BanFailed}
    ensures Apply(ld, Apply(ld, Now(a, w, WorkerCleared(until)), WorkerBan(w, false, to)), Move(w))
            == a.(joiner := Ended(a, to, "", a.joiner.value.attempts))
    ensures Apply(ld, Apply(ld, Now(a, w, WorkerClaimed(until, false)), WorkerLookFails(w, to)), Move(w))
            == a.(joiner := Ended(a, to, "", a.joiner.value.attempts))
    ensures Apply(ld, Now(a, w, WorkerCleared(until)), WorkerBan(w, false, Banned)) == Now(a, w, WorkerCleared(until))
  {
    var settled := Settled(Acting, to, "");
    assert a.actors[w := WorkerCleared(until)][w := settled] == a.actors[w := settled];
    assert a.actors[w := WorkerClaimed(until, false)][w := settled] == a.actors[w := settled];
    SettledMoves(ld, a, w, settled);
  }

  lemma FailedUnbanFreesNobody(ld: LockdownState, a: Account, l: nat, until: int, to: JoinerState)
    requires InState(a, Unbanning) && l !in a.actors && to in {Banned, UnbanFailed}
    ensures Apply(ld, Apply(ld, Now(a, l, LiftCleared), LiftUnban(l, false, to)), Move(l))
            == a.(joiner := Ended(a, to, "", a.joiner.value.attempts))
    ensures Apply(ld, Apply(ld, Now(a, l, LiftClaimed(until)), LiftLookFails(l, to)), Move(l))
            == a.(joiner := Ended(a, to, "", a.joiner.value.attempts))
    ensures Apply(ld, Now(a, l, LiftCleared), LiftUnban(l, false, Unbanned)) == Now(a, l, LiftCleared)
  {
    var settled := Settled(Unbanning, to, "");
    assert a.actors[l := LiftCleared][l := settled] == a.actors[l := settled];
    assert a.actors[l := LiftClaimed(until)][l := settled] == a.actors[l := settled];
    SettledMoves(ld, a, l, settled);
  }

  /** A call that is given up changes nobody's status yet, and stays on its way; its caller treats
      it as one that failed. */
  lemma WorkerBanGivenUp(ld: LockdownState, a: Account, x: nat, until: int, to: JoinerState)
    requires to in {Pending, BanFailed}
    ensures Apply(ld, Now(a, x, WorkerCleared(until)), WorkerBanHangs(x, to))
            == Now(a.(late := a.late + multiset{MarkerBan(until)}), x, Settled(Acting, to, ""))
  {
    var settled := Settled(Acting, to, "");
    assert a.actors[x := WorkerCleared(until)][x := settled] == a.actors[x := settled];
  }

  lemma UnbanGivenUp(ld: LockdownState, a: Account, x: nat, to: JoinerState)
    requires to in {Banned, UnbanFailed}
    ensures Apply(ld, Now(a, x, LiftCleared), LiftUnbanHangs(x, to))
            == Now(a.(late := a.late + multiset{Unban}), x, Settled(Unbanning, to, ""))
  {
    var settled := Settled(Unbanning, to, "");
    assert a.actors[x := LiftCleared][x := settled] == a.actors[x := settled];
  }

  lemma RunBanGivenUp(ld: LockdownState, a: Account, x: nat, to: JoinerState, detail: string)
    ensures Apply(ld, Now(a, x, RunArmed(Some((to, detail)))), RunBanHangs(x))
            == Now(a.(late := a.late + multiset{PermanentBan}), x, Settled(Acting, to, detail))
    ensures x !in a.actors ==> Apply(ld, Now(a, x, RunArmed(None)), RunBanHangs(x))
                               == a.(late := a.late + multiset{PermanentBan})
  {
    var settled := Settled(Acting, to, detail);
    assert a.actors[x := RunArmed(Some((to, detail)))][x := settled] == a.actors[x := settled];
    assert x !in a.actors ==> a.actors[x := RunArmed(None)] - {x} == a.actors;
  }

  /** A call that lands does what it says: a ban on its date, a ban for good, or, for somebody who
      is banned, an unban. */
  lemma LandingDoes(ld: LockdownState, a: Account, until: int)
    ensures MarkerBan(until) in a.late ==>
              Apply(ld, a, Lands(MarkerBan(until))) == a.(live := ChatMember(Kicked, until), hand := ByWorker(until),
                                                        late := a.late - multiset{MarkerBan(until)})
    ensures PermanentBan in a.late ==>
              Apply(ld, a, Lands(PermanentBan)) == a.(live := ChatMember(Kicked, 0), hand := ByRun,
                                                    late := a.late - multiset{PermanentBan})
    ensures Unban in a.late && a.live.status == Kicked ==>
              Apply(ld, a, Lands(Unban)) == a.(live := ChatMember(Left, 0), hand := ByLift,
                                             late := a.late - multiset{Unban})
    ensures Unban in a.late && a.live.status != Kicked ==>
              Apply(ld, a, Lands(Unban)) == a.(late := a.late - multiset{Unban})
  {
  }

  /** How a worker's and a lift's calls may end: a ban or an unban is recorded only if it landed,
      and whatever else happens the row waits or is given up. */
  lemma WorkerEndsOnly(ld: LockdownState, a: Account, w: nat, until: int, request: bool, lands: bool, to: JoinerState)
    ensures var c := Now(a, w, WorkerCleared(until));
            && (Apply(ld, c, WorkerBan(w, lands, to)) != c <==> to in {Pending, BanFailed} || (lands && to == Banned))
            && (Apply(ld, c, WorkerBanHangs(w, to)) != c <==> to in {Pending, BanFailed})
    ensures var c := Now(a, w, WorkerClaimed(until, request));
            && (Apply(ld, c, WorkerLookFails(w, to)) != c <==> !request && to in {Pending, BanFailed})
            && (Apply(ld, c, WorkerDecline(w, to)) != c <==> request && to in {Declined, Pending, DeclineFailed})
            && (Apply(ld, c, WorkerLook(w)) != c <==> !request)
  {
    var c, k := Now(a, w, WorkerCleared(until)), Now(a, w, WorkerClaimed(until, request));
    assert Apply(ld, c, WorkerBan(w, lands, to)) != c ==> Apply(ld, c, WorkerBan(w, lands, to)).actors[w].Settled?;
    assert c.actors[w] == WorkerCleared(until) && k.actors[w] == WorkerClaimed(until, request);
  }

  lemma LiftEndsOnly(ld: LockdownState, a: Account, l: nat, until: int, lands: bool, to: JoinerState)
    ensures var c := Now(a, l, LiftCleared);
            && (Apply(ld, c, LiftUnban(l, lands, to)) != c
                <==> to in {Banned, UnbanFailed} || (lands && to == Unbanned))
            && (Apply(ld, c, LiftUnbanHangs(l, to)) != c <==> to in {Banned, UnbanFailed})
    ensures var c := Now(a, l, LiftClaimed(until));
            Apply(ld, c, LiftLookFails(l, to)) != c <==> to in {Banned, UnbanFailed}
  {
    var c, k := Now(a, l, LiftCleared), Now(a, l, LiftClaimed(until));
    assert c.actors[l] == LiftCleared && k.actors[l] == LiftClaimed(until);
  }

  // Claims that die.

  ghost predicate NobodyHolds(a: Account) {
    forall x :: x in a.actors ==> !Holds(a.actors[x])
  }

  lemma ReleasedAs(ld: LockdownState, a: Account, x: nat, p: Phase)
    requires x !in a.actors && NobodyHolds(a) && a.joiner.Some?
    ensures Apply(ld, Now(a, x, p), Crash(x)) == a
    ensures InState(a, Unbanning) ==> Apply(ld, a, ReleaseStale) == WithRow(a, Banned)
    ensures InState(a, Acting) ==>
              Apply(ld, a, ReleaseStale) ==
              match ld
              case Active => WithRow(a, Pending)
              case Lifting => WithRow(a, if a.joiner.value.request then Cancelled else Banned)
              case Lifted => a
    ensures !InState(a, Acting) && !InState(a, Unbanning) ==> Apply(ld, a, ReleaseStale) == a
  {
    assert a.actors[x := p] - {x} == a.actors;
  }

  /** The claim of a worker that crashes on an active lockdown is undone; during a lift the row is
      left for the lift to look at, or, for a request, cancelled. */
  lemma CrashedWorkerIsReleased(ld: LockdownState, a: Account, w: nat, until: int, request: bool)
    requires Waits(a, w, Pending) && NobodyHolds(a) && ld != Lifted
    ensures Steps(ld, a, [WorkerClaim(w, until, request), Crash(w), ReleaseStale])
            == if ld == Active then a else WithRow(a, if a.joiner.value.request then Cancelled else Banned)
  {
    ThreeSteps(ld, a, WorkerClaim(w, until, request), Crash(w), ReleaseStale);
    ReleasedAs(ld, WithRow(a, Acting), w, WorkerClaimed(until, request));
  }

  /** The claim of a lift that crashes is undone at any time. */
  lemma CrashedLiftIsReleased(ld: LockdownState, a: Account, l: nat, until: int)
    requires Waits(a, l, Banned) && NobodyHolds(a)
    ensures Steps(ld, a, [LiftClaim(l, until), Crash(l), ReleaseStale]) == a
  {
    ThreeSteps(ld, a, LiftClaim(l, until), Crash(l), ReleaseStale);
    ReleasedAs(ld, WithRow(a, Unbanning), l, LiftClaimed(until));
  }

  /** A claim somebody still works on is not released. */
  lemma LiveClaimIsNotReleased(ld: LockdownState, a: Account, x: nat)
    requires x in a.actors && Holds(a.actors[x])
    ensures Apply(ld, a, ReleaseStale) == a
  {
  }

  // The guard and the lift's own row moves.

  /** What the guard writes it can take back, and it never touches a row that is being worked on. */
  lemma GuardTakesBack(ld: LockdownState, a: Account, row: JoinerRow)
    requires row.state == Pending && (row.request || row.banUntil > 0)
    ensures a.joiner.None? ==>
              && Apply(ld, a, Record(row)) == a.(joiner := Some(row))
              && Apply(ld, Apply(ld, a, Record(row)), Withdraw(false)) == a
    ensures a.joiner.Some? &&
            a.joiner.value.state in {Banned, BanFailed, Exempt, Declined, DeclineFailed, Cancelled} ==>
              && Apply(ld, a, Record(row)) == a
              && Apply(ld, a, Reclaim(row)) == a.(joiner := Some(row))
              && Apply(ld, Apply(ld, a, Reclaim(row)), Withdraw(true)) == a.(joiner := Some(row.(state := Cancelled)))
    ensures a.joiner.Some? && a.joiner.value.state in {Pending, Acting, Unbanning, Unbanned, Kept, UnbanFailed} ==>
              Apply(ld, a, Record(row)) == a == Apply(ld, a, Reclaim(row))
  {
  }

  /** The guard writes exempt rows, and pending ones that are a request's or carry an end date. */
  lemma GuardWritesExactly(ld: LockdownState, a: Account, row: JoinerRow)
    requires a.joiner.None?
    ensures Apply(ld, a, Record(row)) == a.(joiner := Some(row)) || Apply(ld, a, Record(row)) == a
    ensures Apply(ld, a, Record(row)) != a <==>
            row.state == Exempt || (row.state == Pending && (row.request || row.banUntil >= 1))
  {
  }

  lemma OnlyPendingRowsMove(ld: LockdownState, a: Account, reclaimed: bool)
    ensures InState(a, Pending) ==> Apply(ld, a, MakeExempt) == WithRow(a, Exempt)
    ensures InState(a, Pending) ==> Apply(ld, a, CancelPending) == if ld == Active then a else WithRow(a, Cancelled)
    ensures !InState(a, Pending) ==>
              a == Apply(ld, a, MakeExempt) == Apply(ld, a, CancelPending) == Apply(ld, a, Withdraw(reclaimed))
  {
  }

  // The run, where it bans nobody.

  /** A row that is let in, or that somebody works on, is none of the run's business. */
  lemma RunPassesOver(ld: LockdownState, a: Account, r: nat)
    requires r !in a.actors && a.joiner.Some?
    ensures Apply(ld, a, RunSee(r)) == a <==> a.joiner.value.state in {Exempt, Acting, Unbanning}
  {
    assert Apply(ld, a, RunSee(r)) != a ==> r in Apply(ld, a, RunSee(r)).actors;
  }

  /** A run that finds no row to claim bans all the same whom it may ban. */
  lemma RunBansWithoutARow(a: Account, r: nat)
    requires r !in a.actors && (a.joiner.Some? ==> a.joiner.value.state in {Unbanned, UnbanFailed})
    requires ResponseBans(a.live, if a.joiner.Some? then a.joiner.value.banUntil else 0)
    ensures Steps(Active, a, [RunSee(r), RunLook(r, false), RunReread(r), RunBan(r, true, true)])
            == a.(live := ChatMember(Kicked, 0), hand := ByRun)
  {
    FourSteps(Active, a, RunSee(r), RunLook(r, false), RunReread(r), RunBan(r, true, true));
    var until := if a.joiner.Some? then a.joiner.value.banUntil else 0;
    assert Apply(Active, a, RunSee(r)) == Now(a, r, RunReady(until, None));
    RunArms(a, r, until, None);
    UnclaimedBanLands(Active, a, r, true, true);
  }

  lemma RunArms(a: Account, r: nat, until: int, back: Option<(JoinerState, string)>)
    requires ResponseBans(a.live, until)
    ensures Apply(Active, Apply(Active, Now(a, r, RunReady(until, back)), RunLook(r, false)), RunReread(r))
            == Now(a, r, RunArmed(back))
  {
    assert a.actors[r := RunReady(until, back)][r := RunCleared(back)] == a.actors[r := RunCleared(back)];
    assert a.actors[r := RunCleared(back)][r := RunArmed(back)] == a.actors[r := RunArmed(back)];
  }

  /** A run that may not ban the account, or whose look fails, puts a claimed row back and sends
      nothing; without a row it leaves no trace. */
  lemma RunSpares(ld: LockdownState, a: Account, r: nat, until: int, fails: bool)
    requires r !in a.actors && (fails || !ResponseBans(a.live, until))
    ensures Apply(ld, Now(a, r, RunReady(until, None)), RunLook(r, fails)) == a
    ensures InState(a, Acting) ==>
              forall to: JoinerState, detail: string :: to != Banned ==>
                Apply(ld, Apply(ld, Now(a, r, RunReady(until, Some((to, detail)))), RunLook(r, fails)), Move(r))
                == a.(joiner := Ended(a, to, detail, a.joiner.value.attempts))
  {
    assert a.actors[r := RunReady(until, None)] - {r} == a.actors;
    if InState(a, Acting) {
      forall to: JoinerState, detail: string | to != Banned
        ensures Apply(ld, Apply(ld, Now(a, r, RunReady(until, Some((to, detail)))), RunLook(r, fails)), Move(r))
                == a.(joiner := Ended(a, to, detail, a.joiner.value.attempts))
      {
        var ready, settled := RunReady(until, Some((to, detail))), Settled(Acting, to, detail);
        assert a.actors[r := ready][r := settled] == a.actors[r := settled];
        SettledMoves(ld, a, r, settled);
      }
    }
  }

  /** An unconfirmed ban puts the row back whether it landed or not, and one that did not land
      bans nobody. */
  lemma UnconfirmedBanReturnsRow(ld: LockdownState, a: Account, r: nat, to: JoinerState, detail: string, lands: bool)
    requires InState(a, Acting) && r !in a.actors && to != Banned
    ensures Apply(ld, Apply(ld, Now(a, r, RunArmed(Some((to, detail)))), RunBan(r, lands, false)), Move(r))
            == (if lands then a.(live := ChatMember(Kicked, 0), hand := ByRun) else a)
               .(joiner := Ended(a, to, detail, a.joiner.value.attempts))
  {
    var settled := Settled(Acting, to, detail);
    assert a.actors[r := RunArmed(Some((to, detail)))][r := settled] == a.actors[r := settled];
    SettledMoves(ld, if lands then a.(live := ChatMember(Kicked, 0), hand := ByRun) else a, r, settled);
  }

  /** Without a row the run bans if its call lands, confirmed or not, and leaves no trace else. */
  lemma UnclaimedBanLands(ld: LockdownState, a: Account, r: nat, lands: bool, confirmed: bool)
    requires r !in a.actors && (confirmed ==> lands)
    ensures Apply(ld, Now(a, r, RunArmed(None)), RunBan(r, lands, confirmed))
            == if lands then a.(live := ChatMember(Kicked, 0), hand := ByRun) else a
  {
    assert a.actors[r := RunArmed(None)] - {r} == a.actors;
  }

  /** A run that comes too late for the row it saw goes away. */
  lemma LostRowEndsTheRun(ld: LockdownState, a: Account, r: nat, row: JoinerRow)
    requires r !in a.actors && !InState(a, row.state)
    ensures Apply(ld, Now(a, r, RunSeen(row)), RunClaim(r)) == a
  {
    assert a.actors[r := RunSeen(row)] - {r} == a.actors;
  }

  /** The lockdown itself only goes on: a lift begins once, and ends once nothing is left to do. */
  lemma LockdownOnlyGoesOn(s: System)
    ensures Next(s, BeginLift) == if s.ld == Active then s.(ld := Lifting) else s
    ensures Next(s, FinishLift) ==
            if s.ld == Lifting
               && (forall u :: u in s.accounts && s.accounts[u].joiner.Some? ==>
                     s.accounts[u].joiner.value.state !in {Pending, Acting, Banned, Unbanning})
            then s.(ld := Lifted) else s
  {
  }

  // Whole runs.

  function EventsOf(u: int, steps: seq<Step>): seq<Event>
    decreases |steps|
  {
    if steps == [] then [] else [At(u, steps[0])] + EventsOf(u, steps[1..])
  }

  /** The steps of one account in a system take that account through them and leave every other
      account and the lockdown alone. */
  lemma {:induction false} StepsInTheSystem(s: System, u: int, steps: seq<Step>, rest: seq<Event>)
    ensures Execute(s, EventsOf(u, steps) + rest)
            == Execute(if u in s.accounts
                       then s.(accounts := s.accounts[u := Steps(s.ld, s.accounts[u], steps)]) else s, rest)
    decreases |steps|
  {
    if steps == [] {
      assert EventsOf(u, steps) + rest == rest;
      assert u in s.accounts ==> s.accounts[u := s.accounts[u]] == s.accounts;
    } else {
      var next := Next(s, At(u, steps[0]));
      assert (EventsOf(u, steps) + rest)[1..] == EventsOf(u, steps[1..]) + rest;
      StepsInTheSystem(next, u, steps[1..], rest);
      if u in s.accounts {
        assert next.accounts[u := Steps(s.ld, next.accounts[u], steps[1..])]
               == s.accounts[u := Steps(s.ld, s.accounts[u], steps)];
      }
    }
  }

  lemma FirstEvent(s: System, e: Event, rest: seq<Event>)
    ensures Execute(s, [e] + rest) == Execute(Next(s, e), rest)
  {
    assert ([e] + rest)[1..] == rest;
  }

  function WorkerSteps(w: nat, until: int): seq<Step> {
    [WorkerClaim(w, until, false), WorkerLook(w), WorkerBan(w, true, Banned), Move(w)]
  }

  function LiftSteps(l: nat, until: int, now: int): seq<Step> {
    [LiftClaim(l, until), LiftLook(l, now), LiftUnban(l, true, Unbanned), Move(l)]
  }

  /** A joiner's way into a fresh lockdown: recorded by the guard and removed by the worker. */
  lemma JoinerIsRemoved(s: System, u: int, row: JoinerRow, w: nat, rest: seq<Event>) returns (t: System)
    requires Start(s) && u in s.accounts && s.accounts[u].live.status != Kicked
    requires row.state == Pending && !row.request && row.banUntil > 0
    ensures t == s.(accounts := s.accounts[u := s.accounts[u].(
                      joiner := Some(row.(state := Banned, detail := "", attempts := 0)),
                      live := ChatMember(Kicked, row.banUntil), hand := ByWorker(row.banUntil))])
    ensures Execute(s, EventsOf(u, [Record(row)] + WorkerSteps(w, row.banUntil)) + rest) == Execute(t, rest)
  {
    var a := s.accounts[u];
    var steps := WorkerSteps(w, row.banUntil);
    StepThen(s.ld, a, Record(row), steps);
    var recorded := a.(joiner := Some(row));
    assert Apply(s.ld, a, Record(row)) == recorded;
    WorkerRemoves(s.ld, recorded, w);
    t := s.(accounts := s.accounts[u := Steps(s.ld, recorded, steps)]);
    StepsInTheSystem(s, u, [Record(row)] + steps, rest);
  }

  /** The lift of a lockdown with one joiner, from its beginning to its end. */
  lemma JoinerIsGivenBack(s: System, u: int, l: nat, until: int, now: int)
    requires s.ld == Active && u in s.accounts && Waits(s.accounts[u], l, Banned)
    requires s.accounts[u].joiner.value.banUntil == until && IsLockdownBan(s.accounts[u].live, until)
    requires forall x :: x in s.accounts && x != u ==> s.accounts[x].joiner.None?
    ensures var a := s.accounts[u];
            Execute(s, [BeginLift] + (EventsOf(u, LiftSteps(l, until, now)) + [FinishLift]))
            == System(Lifted, s.accounts[u := a.(joiner := Ended(a, Unbanned, "", a.joiner.value.attempts),
                                                 live := ChatMember(Left, 0), hand := ByLift)])
  {
    var lifting := s.(ld := Lifting);
    FirstEvent(s, BeginLift, EventsOf(u, LiftSteps(l, until, now)) + [FinishLift]);
    StepsInTheSystem(lifting, u, LiftSteps(l, until, now), [FinishLift]);
    LiftUnbans(Lifting, s.accounts[u], l, now);
    var last := lifting.(accounts := s.accounts[u := Steps(Lifting, s.accounts[u], LiftSteps(l, until, now))]);
    FirstEvent(last, FinishLift, []);
    assert [FinishLift] + [] == [FinishLift];
  }

  /** A lockdown from its start to its end, with one joiner: after the worker the joiner is under
      the lockdown's ban, and when the lift is over the lockdown is lifted, the ban is taken back,
      and every other account is as it was. */
  lemma LockdownRunsItsCourse(s: System, u: int, row: JoinerRow, w: nat, l: nat, now: int)
    requires Start(s) && u in s.accounts && s.accounts[u].live.status != Kicked
    requires row.state == Pending && !row.request && row.banUntil > 0
    ensures var removal := EventsOf(u, [Record(row)] + WorkerSteps(w, row.banUntil));
            var lift := [BeginLift] + (EventsOf(u, LiftSteps(l, row.banUntil, now)) + [FinishLift]);
            && Execute(s, removal)
               == s.(accounts := s.accounts[u := s.accounts[u].(
                       joiner := Some(row.(state := Banned, detail := "", attempts := 0)),
                       live := ChatMember(Kicked, row.banUntil), hand := ByWorker(row.banUntil))])
            && Execute(s, removal + lift)
               == System(Lifted, s.accounts[u := s.accounts[u].(
                           joiner := Some(row.(state := Unbanned, detail := "", attempts := 0)),
                           live := ChatMember(Left, 0), hand := ByLift)])
  {
    var lift := [BeginLift] + (EventsOf(u, LiftSteps(l, row.banUntil, now)) + [FinishLift]);
    var removal := EventsOf(u, [Record(row)] + WorkerSteps(w, row.banUntil));
    var removed := JoinerIsRemoved(s, u, row, w, []);
    assert removal + [] == removal;
    removed := JoinerIsRemoved(s, u, row, w, lift);
    JoinerIsGivenBack(removed, u, l, row.banUntil, now);
  }
}
