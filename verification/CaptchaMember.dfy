/** One member of one group under a captcha: the attempt row, the unmute schedule, and whether
    Telegram holds the member muted, through every operation on the member and every pattern of
    refused and unanswered calls. A muted member who is still there must have either an attempt
    that will end or a schedule that will unmute them. */
module CaptchaMember {
  import opened Wrappers

  datatype Member = Member(attempt: Option<nat>, schedule: Option<int>, muted: bool, present: bool)

  /** A restriction that fails may have landed all the same. */
  datatype Mute = Done | Fails(landed: bool)

  /** An unmute may fail for now, or for good: the member is gone, or is an administrator. */
  datatype Unmute = Unmuted | NotNow(landed: bool) | Never

  datatype Action = Kick | Ban | MuteForADay

  const DAY := 24 * 60 * 60

  predicate Answered(m: Member) {
    m.present && m.muted ==> m.attempt.Some? || m.schedule.Some?
  }

  /** Telegram refuses an unmute for good only when there is nobody muted to unmute. */
  predicate Truthful(m: Member, u: Unmute) {
    u == Never ==> !m.present || !m.muted
  }

  // What each operation leaves, as a table of outcomes.

  function AfterUnmute(m: Member, u: Unmute): Member {
    if u == Unmuted || u == NotNow(true) then m.(muted := false) else m
  }

  /** The permissions are restored and the schedule dropped, or the restore is scheduled; when the
      schedule cannot be written it stays as it is. */
  function Restored(m: Member, u: Unmute, now: int, writes: bool): Member {
    AfterUnmute(m, u).(schedule := if !writes then m.schedule else if u == Unmuted then None else Some(now))
  }

  function Claimed(m: Member, now: int): Member {
    m.(attempt := None, schedule := Some(now))
  }

  /** A challenge is muted and sent, or taken back. A failed mute takes the attempt back without
      a schedule. `deletes` says whether the database call that takes the attempt back succeeds;
      when it fails the attempt stays. */
  datatype SendWeather = SendWeather(
    id: nat, mute: Mute, delivered: bool, deletes: bool, unmute: Unmute, now: int, writes: bool)

  function AfterSend(m: Member, w: SendWeather): Member {
    match w.mute
    case Fails(landed) => m.(attempt := if w.deletes then None else Some(w.id), muted := m.muted || landed)
    case Done =>
      if w.delivered || !w.deletes then m.(attempt := Some(w.id), muted := true)
      else Restored(Claimed(m.(muted := true), w.now), w.unmute, w.now, w.writes)
  }

  function AfterPass(m: Member, u: Unmute, now: int, writes: bool): Member {
    if m.attempt == None then m else Restored(Claimed(m, now), u, now, writes)
  }

  function AfterRelease(m: Member, u: Unmute, now: int, writes: bool): Member {
    if m.attempt == None then m
    else if u.NotNow? || !writes then AfterUnmute(Claimed(m, now), u)
    else AfterUnmute(Claimed(m, now), u).(schedule := None)
  }

  /** `removed` is the kick or ban landing; a kick that fails is followed by one more try to
      remove, `second`. `firstWrite` is the schedule a day ahead that goes before the mute,
      `deletes` the delete that drops a schedule behind the action, `writes` the last write of
      a release or a restore. `keeps` says whether Telegram still remembers
      the restriction of somebody it removed. */
  datatype SettleWeather = SettleWeather(
    spared: bool, action: Action, removed: bool, second: bool, keeps: bool,
    firstWrite: bool, mute: Mute, deletes: bool, unmute: Unmute, now: int, writes: bool)

  function Removed(m: Member, keeps: bool): Member {
    m.(present := false, muted := m.muted && keeps)
  }

  function Dropped(m: Member, deletes: bool): Member {
    if deletes then m.(schedule := None) else m
  }

  function AfterSettle(m: Member, w: SettleWeather): Member {
    if m.attempt == None then m
    else if w.spared then AfterRelease(m, w.unmute, w.now, w.writes)
    else
      var c := Claimed(m, w.now);
      match w.action
      case Ban =>
        if w.removed then Dropped(Removed(c, w.keeps), w.deletes) else Restored(c, w.unmute, w.now, w.writes)
      case Kick =>
        if w.removed then Dropped(Removed(c, w.keeps), w.deletes)
        else Restored(if w.second then Removed(c, w.keeps) else c, w.unmute, w.now, w.writes)
      case MuteForADay =>
        if !w.firstWrite then Restored(c, w.unmute, w.now, w.writes)
        else if w.mute == Done then c.(muted := true, schedule := Some(w.now + DAY))
        else
          var undone := Dropped(c.(muted := c.muted || w.mute.landed, schedule := Some(w.now + DAY)), w.deletes);
          Restored(undone, w.unmute, w.now, w.writes)
  }

  /** Switching the captcha off releases the attempt and restores everybody it muted. */
  function AfterDisable(m: Member, u: Unmute, now: int, writes: bool): Member {
    if m.attempt == None && m.schedule == None then m
    else Restored(if m.attempt.Some? then Claimed(m, now) else m, u, now, writes)
  }

  function AfterTick(m: Member, u: Unmute, now: int, writes: bool): Member {
    if m.schedule == None || m.schedule.value >= now then m
    else if u.NotNow? then AfterUnmute(m, u)
    else Dropped(AfterUnmute(m, u), writes)
  }

  /** Leaving drops the attempt and the schedule, as far as the two deletes succeed; Telegram
      remembers the restriction. */
  function AfterLeave(m: Member, ends: bool, drops: bool): Member {
    Dropped(m.(attempt := if ends then None else m.attempt, present := false), drops)
  }

  // The operations, call by call.

  class Subject {
    var attempt: Option<nat>
    var schedule: Option<int>
    var muted: bool
    var present: bool

    constructor (m: Member)
      ensures State() == m
    {
      attempt, schedule, muted, present := m.attempt, m.schedule, m.muted, m.present;
    }

    function State(): Member
      reads this
    {
      Member(attempt, schedule, muted, present)
    }

    /** Deletes the attempt and leaves a schedule that is due now, in one transaction. */
    method ReleaseAttempt(now: int) returns (claimed: bool)
      modifies this
      ensures claimed <==> old(attempt).Some?
      ensures State() == if claimed then Claimed(old(State()), now) else old(State())
    {
      if attempt == None {
        return false;
      }
      attempt, schedule := None, Some(now);
      return true;
    }

    method UnmuteUser(u: Unmute) returns (ok: bool)
      modifies this
      ensures ok <==> u == Unmuted
      ensures State() == AfterUnmute(old(State()), u)
    {
      if u == Unmuted || u == NotNow(true) {
        muted := false;
      }
      return u == Unmuted;
    }

    method RestorePermissions(u: Unmute, now: int, writes: bool)
      modifies this
      ensures State() == Restored(old(State()), u, now, writes)
    {
      var ok := UnmuteUser(u);
      if writes {
        schedule := if ok then None else Some(now);
      }
    }

    method Restrict(mute: Mute) returns (ok: bool)
      modifies this
      ensures ok <==> mute == Done
      ensures State() == old(State()).(muted := old(muted) || mute == Done || mute == Fails(true))
    {
      if mute == Done || mute == Fails(true) {
        muted := true;
      }
      return mute == Done;
    }

    method Rollback(u: Unmute, now: int, writes: bool)
      modifies this
      ensures State() == AfterPass(old(State()), u, now, writes)
    {
      var claimed := ReleaseAttempt(now);
      if claimed {
        RestorePermissions(u, now, writes);
      }
    }

    /** A right answer claims the attempt and restores the member. */
    method ClaimPass(u: Unmute, now: int, writes: bool) returns (claimed: bool)
      modifies this
      ensures claimed <==> old(attempt).Some?
      ensures State() == AfterPass(old(State()), u, now, writes)
    {
      claimed := ReleaseAttempt(now);
      if claimed {
        RestorePermissions(u, now, writes);
      }
    }

    /** Switching the captcha off: the member is restored when an attempt was released or a
        schedule was waiting. */
    method Disable(u: Unmute, now: int, writes: bool)
      modifies this
      ensures State() == AfterDisable(old(State()), u, now, writes)
    {
      var scheduled := schedule.Some?;
      var released := ReleaseAttempt(now);
      if released || scheduled {
        RestorePermissions(u, now, writes);
      }
    }

    method DropSchedule(deletes: bool)
      modifies this
      ensures State() == Dropped(old(State()), deletes)
    {
      if deletes {
        schedule := None;
      }
    }

    method Leave(ends: bool, drops: bool)
      modifies this
      ensures State() == AfterLeave(old(State()), ends, drops)
    {
      if ends {
        attempt := None;
      }
      DropSchedule(drops);
      present := false;
    }

    /** Replaces the member's attempt, mutes, posts the challenge, and takes everything back
        when the challenge cannot be delivered. */
    method Send(w: SendWeather)
      modifies this
      ensures State() == AfterSend(old(State()), w)
    {
      attempt := Some(w.id);
      var ok := Restrict(w.mute);
      if !ok {
        if w.deletes {
          attempt := None;
        }
        return;
      }
      if !w.delivered && w.deletes {
        Rollback(w.unmute, w.now, w.writes);
      }
    }

    method ReleaseIncomplete(u: Unmute, now: int, writes: bool) returns (released: bool)
      modifies this
      ensures released <==> old(attempt).Some?
      ensures State() == AfterRelease(old(State()), u, now, writes)
    {
      released := ReleaseAttempt(now);
      if !released {
        return;
      }
      var ok := UnmuteUser(u);
      if ok || u == Never {
        DropSchedule(writes);
      }
    }

    method ExecuteFailureAction(w: SettleWeather) returns (ok: bool)
      modifies this
      ensures ok <==> if w.action == MuteForADay then w.firstWrite && w.mute == Done else w.removed
      ensures State() ==
                if w.action != MuteForADay then (if w.removed then Removed(old(State()), w.keeps) else old(State()))
                else if !w.firstWrite then old(State())
                else if w.mute == Done then old(State()).(muted := true, schedule := Some(w.now + DAY))
                else Dropped(old(State()).(muted := old(muted) || w.mute.landed, schedule := Some(w.now + DAY)),
                             w.deletes)
    {
      match w.action {
        case MuteForADay =>
          if !w.firstWrite {
            return false;
          }
          schedule := Some(w.now + DAY);
          ok := Restrict(w.mute);
          if !ok {
            DropSchedule(w.deletes);
          }
        case _ =>
          if w.removed {
            present, muted := false, muted && w.keeps;
          }
          return w.removed;
      }
    }

    /** Ends an attempt whose time is up: spared members are released, the others get the
        group's action, and an action that fails is undone. */
    method Settle(w: SettleWeather) returns (claimed: bool, applied: bool)
      modifies this
      ensures claimed <==> old(attempt).Some?
      ensures applied <==> claimed && !w.spared &&
                           if w.action == MuteForADay then w.firstWrite && w.mute == Done else w.removed
      ensures State() == AfterSettle(old(State()), w)
    {
      if w.spared {
        claimed := ReleaseIncomplete(w.unmute, w.now, w.writes);
        return claimed, false;
      }
      claimed := ReleaseAttempt(w.now);
      if !claimed {
        return false, false;
      }
      applied := ExecuteFailureAction(w);
      if !applied {
        if w.action == Kick && w.second {
          present, muted := false, muted && w.keeps;
        }
        RestorePermissions(w.unmute, w.now, w.writes);
        return;
      }
      if w.action != MuteForADay {
        DropSchedule(w.deletes);
      }
    }

    method UnmuteTick(u: Unmute, now: int, writes: bool)
      modifies this
      ensures State() == AfterTick(old(State()), u, now, writes)
    {
      if schedule == None || schedule.value >= now {
        return;
      }
      var ok := UnmuteUser(u);
      if ok || u == Never {
        DropSchedule(writes);
      }
    }
  }

  // What each operation leaves, field by field.

  /** A challenge that is out leaves the member muted under it; one that is taken back leaves no
      attempt, and a schedule unless the unmute is confirmed. */
  lemma ChallengeLeaves(m: Member, w: SendWeather)
    ensures w.mute == Done && w.delivered ==> AfterSend(m, w) == Member(Some(w.id), m.schedule, true, m.present)
    ensures w.mute == Done && !w.delivered && !w.deletes ==>
              AfterSend(m, w) == Member(Some(w.id), m.schedule, true, m.present)
    ensures w.mute == Done && !w.delivered && w.deletes ==>
              AfterSend(m, w) == Member(None, if w.unmute == Unmuted && w.writes then None else Some(w.now),
                                        w.unmute in {NotNow(false), Never}, m.present)
    ensures w.mute.Fails? ==>
              AfterSend(m, w) == Member(if w.deletes then None else Some(w.id), m.schedule, m.muted || w.mute.landed,
                                        m.present)
  {
  }

  /** A pass ends the attempt and unmutes, or schedules another try; with no attempt it does
      nothing. A release does the same and keeps no schedule for an unmute that is refused for
      good. */
  lemma PassLeaves(m: Member, u: Unmute, now: int, writes: bool)
    ensures m.attempt == None ==> AfterPass(m, u, now, writes) == m == AfterRelease(m, u, now, writes)
    ensures m.attempt.Some? ==>
              AfterPass(m, u, now, writes) == Member(None, if u == Unmuted && writes then None else Some(now),
                                                     m.muted && u in {NotNow(false), Never}, m.present)
    ensures m.attempt.Some? ==>
              AfterRelease(m, u, now, writes) ==
                Member(None, if u in {Unmuted, Never} && writes then None else Some(now),
                       m.muted && u in {NotNow(false), Never}, m.present)
  {
  }

  /** A settled member is released if spared. A removal that works takes the member out, and the
      mute of a day leaves its own schedule; a failure action that fails is undone, and one more
      removal is tried after a kick. */
  lemma SettleLeaves(m: Member, w: SettleWeather)
    requires m.attempt.Some?
    ensures w.spared ==> AfterSettle(m, w) == AfterRelease(m, w.unmute, w.now, w.writes)
    ensures !w.spared && w.action in {Ban, Kick} && w.removed ==>
              AfterSettle(m, w) == Member(None, if w.deletes then None else Some(w.now), m.muted && w.keeps, false)
    ensures !w.spared && w.action in {Ban, Kick} && !w.removed ==>
              var again := w.action == Kick && w.second;
              AfterSettle(m, w) == Member(None, if w.unmute == Unmuted && w.writes then None else Some(w.now),
                                          m.muted && (again ==> w.keeps) && w.unmute in {NotNow(false), Never},
                                          m.present && !again)
    ensures !w.spared && w.action == MuteForADay && w.firstWrite && w.mute == Done ==>
              AfterSettle(m, w) == Member(None, Some(w.now + 86400), true, m.present)
    ensures !w.spared && w.action == MuteForADay && !w.firstWrite ==>
              AfterSettle(m, w) == Member(None, if w.unmute == Unmuted && w.writes then None else Some(w.now),
                                          m.muted && w.unmute in {NotNow(false), Never}, m.present)
    ensures !w.spared && w.action == MuteForADay && w.firstWrite && w.mute.Fails? ==>
              var left := if w.deletes then None else Some(w.now + 86400);
              AfterSettle(m, w) == Member(None,
                                          if !w.writes then left else if w.unmute == Unmuted then None else Some(w.now),
                                          (m.muted || w.mute.landed) && w.unmute in {NotNow(false), Never}, m.present)
  {
  }

  lemma NothingToSettle(m: Member, w: SettleWeather)
    requires m.attempt == None
    ensures AfterSettle(m, w) == m
  {
  }

  /** Switching off unmutes whoever has an attempt or a schedule, and nobody else. */
  lemma DisableLeaves(m: Member, u: Unmute, now: int, writes: bool)
    ensures m.attempt == None && m.schedule == None ==> AfterDisable(m, u, now, writes) == m
    ensures m.attempt.Some? || m.schedule.Some? ==>
              var left := if m.attempt.Some? then Some(now) else m.schedule;
              AfterDisable(m, u, now, writes) ==
                Member(None, if !writes then left else if u == Unmuted then None else Some(now),
                       m.muted && u in {NotNow(false), Never}, m.present)
  {
  }

  /** A tick works on a schedule that is due: an unmute that is confirmed or refused for good drops
      it, any other keeps it for the next tick. */
  lemma TickLeaves(m: Member, u: Unmute, now: int, writes: bool)
    ensures m.schedule == None || m.schedule.value >= now ==> AfterTick(m, u, now, writes) == m
    ensures m.schedule.Some? && m.schedule.value < now ==>
              AfterTick(m, u, now, writes) == Member(m.attempt, if u.NotNow? || !writes then m.schedule else None,
                                                     m.muted && u in {NotNow(false), Never}, m.present)
  {
  }

  /** Leaving drops what it can and unmutes nobody. */
  lemma LeaveLeaves(m: Member, ends: bool, drops: bool)
    ensures AfterLeave(m, ends, drops)
            == Member(if ends then None else m.attempt, if drops then None else m.schedule, m.muted, false)
  {
  }

  // Nobody is left muted.

  datatype Event =
    | Send(w: SendWeather)
    | Pass(u: Unmute, now: int, writes: bool)
    | Settle(s: SettleWeather)
    | Release(u: Unmute, now: int, writes: bool)
    | Disable(u: Unmute, now: int, writes: bool)
    | Tick(u: Unmute, now: int, writes: bool)
    | Leave(ends: bool, drops: bool)
    | Rejoin(w: SendWeather)

  function Next(m: Member, e: Event): Member {
    match e
    case Send(w) => if m.present then AfterSend(m, w) else m
    case Pass(u, now, writes) => AfterPass(m, u, now, writes)
    case Settle(s) => AfterSettle(m, s)
    case Release(u, now, writes) => AfterRelease(m, u, now, writes)
    case Disable(u, now, writes) => AfterDisable(m, u, now, writes)
    case Tick(u, now, writes) => AfterTick(m, u, now, writes)
    case Leave(ends, drops) => AfterLeave(m, ends, drops)
    case Rejoin(w) => if m.present then m else AfterSend(m.(present := true), w)
  }

  /** Somebody who is there is challenged, and somebody who is not comes back and is. */
  lemma ChallengesReachThePresent(m: Member, w: SendWeather)
    ensures m.present ==> Next(m, Send(w)) == AfterSend(m, w) && Next(m, Rejoin(w)) == m
    ensures !m.present ==>
              Next(m, Send(w)) == m
              && Next(m, Rejoin(w)) == AfterSend(Member(m.attempt, m.schedule, m.muted, true), w)
  {
  }

  /** A challenge and what may end it: a pass and switching the captcha off unmute the member or
      leave an unmute that is due, a release gives up on an unmute that is refused for good.
      Somebody without an attempt can neither pass nor be released, and switching off frees
      them all the same. */
  lemma ChallengedIsFreed(m: Member, w: SendWeather, u: Unmute, now: int, writes: bool)
    requires m.present && w.mute == Done && w.delivered
    ensures var asked, muted := Next(m, Send(w)), u in {NotNow(false), Never};
            var freed := Member(None, if writes && u == Unmuted then None else Some(now), muted, true);
            && asked == Member(Some(w.id), m.schedule, true, true)
            && Next(asked, Pass(u, now, writes)) == Next(asked, Disable(u, now, writes)) == freed
            && Next(asked, Release(u, now, writes))
               == Member(None, if u.NotNow? || !writes then Some(now) else None, muted, true)
            && (u == Unmuted && writes ==> freed == Member(None, None, false, true))
    ensures var idle := Member(None, Some(now), true, true);
            && Next(idle, Pass(u, now, true)) == Next(idle, Release(u, now, true)) == idle
            && Next(idle, Disable(Unmuted, now, true)) == Member(None, None, false, true)
  {
  }

  function Execute(m: Member, events: seq<Event>): Member
    decreases |events|
  {
    if events == [] then m else Execute(Next(m, events[0]), events[1..])
  }

  /** The answers Telegram gives during the event are truthful ones. */
  predicate TruthfulEvent(m: Member, e: Event) {
    match e
    case Send(w) => Truthful(m.(muted := true), w.unmute)
    case Rejoin(w) => w.unmute != Never
    case Settle(s) =>
      (!s.spared && s.action == Kick && !s.removed && s.second) || Truthful(m.(muted := true), s.unmute)
    case Pass(u, _, _) => Truthful(m, u)
    case Release(u, _, _) => Truthful(m, u)
    case Disable(u, _, _) => Truthful(m, u)
    case Tick(u, _, _) => Truthful(m, u)
    case Leave(_, _) => true
  }

  /** A challenge whose mute fails strands the member exactly when the attempt could be taken
      back, the member is muted all the same, from before or by the failed call, and nothing was
      scheduled. */
  lemma SendStrandsExactly(m: Member, w: SendWeather)
    requires m.present && Truthful(m.(muted := true), w.unmute)
    ensures !Answered(AfterSend(m, w)) <==>
              w.mute.Fails? && w.deletes && (m.muted || w.mute.landed) && m.schedule == None
  {
  }

  /** Settling strands a member exactly when the mute, the unmute and the schedule behind them
      all fail after the mute's own schedule was taken back. */
  lemma SettleStrandsExactly(m: Member, w: SettleWeather)
    requires Answered(m) && TruthfulEvent(m, Settle(w))
    ensures !Answered(AfterSettle(m, w)) <==>
            && m.present && m.attempt.Some? && !w.spared && w.action == MuteForADay && w.firstWrite
            && w.mute.Fails? && w.deletes && (m.muted || w.mute.landed) && w.unmute == NotNow(false) && !w.writes
  {
  }

  /** The two lapses: a failed mute of somebody already muted, or one that landed, with nothing
      scheduled; and a lost schedule after a failed failure mute. */
  predicate Lapse(m: Member, e: Event) {
    match e
    case Send(w) => m.present && w.mute.Fails? && w.deletes && (m.muted || w.mute.landed) && m.schedule == None
    case Rejoin(w) => !m.present && w.mute.Fails? && w.deletes && (m.muted || w.mute.landed) && m.schedule == None
    case Settle(s) =>
      && m.present && m.attempt.Some? && !s.spared && s.action == MuteForADay && s.firstWrite
      && s.mute.Fails? && s.deletes && (m.muted || s.mute.landed) && s.unmute == NotNow(false) && !s.writes
    case _ => false
  }

  ghost predicate NoLapse(m: Member, events: seq<Event>)
    decreases |events|
  {
    events == [] ||
    (TruthfulEvent(m, events[0]) && !Lapse(m, events[0]) && NoLapse(Next(m, events[0]), events[1..]))
  }

  /** Over every run of operations, under every pattern of failures but those two lapses, a
      present member held muted always has an attempt or a schedule. */
  lemma {:induction false} NobodyIsLeftMuted(m: Member, events: seq<Event>)
    requires Answered(m) && NoLapse(m, events)
    ensures Answered(Execute(m, events))
    decreases |events|
  {
    if events != [] {
      StrandedExactlyByALapse(m, events[0]);
      NobodyIsLeftMuted(Next(m, events[0]), events[1..]);
    }
  }

  /** The exact condition of the promise: a truthful operation strands somebody who was not
      stranded if and only if it is one of the two lapses. */
  lemma StrandedExactlyByALapse(m: Member, e: Event)
    requires Answered(m) && TruthfulEvent(m, e)
    ensures Answered(Next(m, e)) <==> !Lapse(m, e)
  {
    match e
    case Send(w) => if m.present { SendStrandsExactly(m, w); }
    case Rejoin(w) => if !m.present { SendStrandsExactly(m.(present := true), w); }
    case Settle(s) => SettleStrandsExactly(m, s);
    case _ =>
  }

  /** The first lapse is a plain story: a challenged member leaves, comes back, and the mute
      call of the new challenge fails; only an attempt that cannot be taken back saves them. */
  lemma LeaverComesBackStranded(m: Member, w: SendWeather)
    requires m.present && m.muted && m.attempt.Some? && w.mute.Fails?
    ensures !Answered(Execute(m, [Leave(true, true), Rejoin(w)])) <==> w.deletes
  {
    var left := AfterLeave(m, true, true);
    assert [Leave(true, true), Rejoin(w)][1..] == [Rejoin(w)];
    assert Execute(m, [Leave(true, true), Rejoin(w)]) == Execute(left, [Rejoin(w)]);
    assert Execute(left, [Rejoin(w)]) == Next(left, Rejoin(w));
  }

  // A stale unmute against a newer mute.

  datatype Schedule = Schedule(id: nat, unmuteAt: int)

  class MuteTable {
    var schedule: Option<Schedule>
    var muted: bool

    constructor (schedule: Option<Schedule>, muted: bool)
      ensures this.schedule == schedule && this.muted == muted
    {
      this.schedule, this.muted := schedule, muted;
    }

    /** Another path mutes the member until later: the one schedule of the member is rewritten
        in place. */
    method MuteAgain(later: Option<int>, id: nat)
      modifies this
      ensures later == None ==> schedule == old(schedule) && muted == old(muted)
      ensures later.Some? ==> muted && schedule.Some? && schedule.value.unmuteAt == later.value
      ensures later.Some? ==> schedule.value.id == if old(schedule).Some? then old(schedule).value.id else id
    {
      if later.Some? {
        schedule := Some(Schedule(if schedule.Some? then schedule.value.id else id, later.value));
        muted := true;
      }
    }

    /** One listed schedule of the unmute worker. Others may mute the member again before the
        unmute call, or between it and the conditional delete. The stale unmute wins over a
        newer mute exactly when the mute came first, the unmute landed and nothing repairs it:
        the delete or the reload fails, or the mute call does; and the newer schedule is never
        lost. An unmute refused for good only drops the schedule it was listed with. */
    method UnmuteListed(listed: Schedule, before: Option<int>, between: Option<int>, freshId: nat,
                        u: Unmute, deletes: bool, reloads: bool, remute: Mute)
      requires schedule == Some(listed)
      requires before.Some? ==> before.value > listed.unmuteAt
      requires between.Some? ==> between.value > listed.unmuteAt
      modifies this
      ensures var newest := if between.Some? then between else before;
              var repaired := deletes && reloads && remute != Fails(false);
              && (newest.Some? ==> schedule == Some(Schedule(listed.id, newest.value)))
              && (newest.Some? ==> (!muted <==> between == None && (u == NotNow(true) || (u == Unmuted && !repaired))))
              && (newest == None ==> schedule == (if deletes && !u.NotNow? then None else Some(listed)))
              && (newest == None ==> (muted <==> old(muted) && (u == NotNow(false) || u == Never)))
    {
      MuteAgain(before, freshId);
      if u == Unmuted || u == NotNow(true) {
        muted := false;
      }
      MuteAgain(between, freshId);
      if u.NotNow? || !deletes {
        return;
      }
      if schedule == Some(listed) {
        schedule := None;
        return;
      }
      if u == Never {
        return;
      }
      if reloads && schedule.Some? && schedule.value.unmuteAt > listed.unmuteAt {
        if remute == Done || remute == Fails(true) {
          muted := true;
        }
      }
    }
  }
}
