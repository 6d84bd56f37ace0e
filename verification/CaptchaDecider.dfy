/** One member's captcha attempt under everybody who may end it: buttons, refreshes, timers, the
    cleanup tick, the web check, approvals, switching the captcha off, leaving and joining
    again. Each reads the attempt first and ends it later, through one conditional delete or
    update keyed by the attempt's ID. */
module CaptchaDecider {
  import opened Wrappers

  const MAX_REFRESHES := 3

  /** `reserved` marks an answer only the web check may accept. */
  datatype Attempt = Attempt(id: nat, answer: string, reserved: bool, message: int, refreshes: nat, expires: int)

  /** What a pressed button carries: the attempt, the refresh it was made for, and a choice. */
  datatype Button = Button(id: nat, refreshes: nat, choice: string)

  /** A call in flight, with what it read. */
  datatype Call =
    | Passing(seen: Attempt, button: Option<Button>)
    | Refreshing(seen: Attempt)
    | Settling(id: nat)

  datatype Ending = Punished | Released

  /** How an attempt ended: a pass with the row as it was then, an ending by its time or by a
      rule, or its replacement or removal when the member joined again or left. */
  datatype Effect =
    | Passed(row: Attempt, button: Option<Button>, now: int)
    | Ended(id: nat, how: Ending)
    | Dropped(id: nat)

  datatype System = System(row: Option<Attempt>, nextId: nat, calls: map<nat, Call>, effects: seq<Effect>)

  datatype Event =
    | Join(answer: string, reserved: bool, expires: int)
    | Deliver(message: int)
    | PressVerify(c: nat, button: Button, now: int)
    | WebCheck(c: nat, id: nat, now: int)
    | ClaimPass(c: nat, now: int)
    | PressRefresh(c: nat, button: Button, now: int)
    | SwapRefresh(c: nat, answer: string, message: int, now: int)
    | SettleRead(c: nat, id: nat)
    | SettleClaim(c: nat, how: Ending)
    | Leave
    | Lose(c: nat)

  function EffectId(e: Effect): nat {
    match e
    case Passed(row, _, _) => row.id
    case Ended(id, _) => id
    case Dropped(id) => id
  }

  function Gone(s: System, c: nat): System {
    s.(calls := s.calls - {c})
  }

  function Ends(s: System, e: Effect): System {
    s.(row := None, effects := s.effects + [e])
  }

  /** The row a pressed button is for, once every check on it has passed. */
  predicate ButtonFits(s: System, b: Button, now: int) {
    && s.row.Some? && s.row.value.expires > now
    && s.row.value.id == b.id && !s.row.value.reserved && s.row.value.refreshes == b.refreshes
  }

  /** The conditional claims name everything the caller read. */
  predicate Unchanged(s: System, seen: Attempt, now: int) {
    && s.row.Some? && s.row.value.id == seen.id && s.row.value.answer == seen.answer
    && s.row.value.message == seen.message && s.row.value.refreshes == seen.refreshes && s.row.value.expires > now
  }

  function PassNext(s: System, e: Event): System {
    match e
    case PressVerify(c, button, now) =>
      if c !in s.calls && ButtonFits(s, button, now) && button.choice == s.row.value.answer
      then s.(calls := s.calls[c := Passing(s.row.value, Some(button))]) else s
    case WebCheck(c, id, now) =>
      if c !in s.calls && s.row.Some? && s.row.value.id == id && s.row.value.reserved && s.row.value.expires > now
      then s.(calls := s.calls[c := Passing(s.row.value, None)]) else s
    case ClaimPass(c, now) =>
      if c !in s.calls || !s.calls[c].Passing? then s
      else if Unchanged(s, s.calls[c].seen, now) then Ends(Gone(s, c), Passed(s.row.value, s.calls[c].button, now))
      else Gone(s, c)
    case _ => s
  }

  function RefreshNext(s: System, e: Event): System {
    match e
    case PressRefresh(c, button, now) =>
      if c !in s.calls && ButtonFits(s, button, now) && s.row.value.refreshes < MAX_REFRESHES
      then s.(calls := s.calls[c := Refreshing(s.row.value)]) else s
    case SwapRefresh(c, answer, message, now) =>
      if c !in s.calls || !s.calls[c].Refreshing? then s
      else if Unchanged(s, s.calls[c].seen, now) then
        Gone(s, c).(row := Some(s.row.value.(answer := answer, message := message,
                                             refreshes := s.row.value.refreshes + 1)))
      else Gone(s, c)
    case _ => s
  }

  function SettleNext(s: System, e: Event): System {
    match e
    case SettleRead(c, id) => if c in s.calls then s else s.(calls := s.calls[c := Settling(id)])
    case SettleClaim(c, how) =>
      if c !in s.calls || !s.calls[c].Settling? then s
      else if s.row.Some? && s.row.value.id == s.calls[c].id then Ends(Gone(s, c), Ended(s.calls[c].id, how))
      else Gone(s, c)
    case _ => s
  }

  function MemberNext(s: System, e: Event): System {
    match e
    case Join(answer, reserved, expires) =>
      var dropped := if s.row.Some? then Ends(s, Dropped(s.row.value.id)) else s;
      dropped.(row := Some(Attempt(s.nextId, answer, reserved, 0, 0, expires)), nextId := s.nextId + 1)
    case Deliver(message) =>
      if s.row.Some? then s.(row := Some(s.row.value.(message := message))) else s
    case Leave => if s.row.Some? then Ends(s, Dropped(s.row.value.id)) else s
    case Lose(c) => Gone(s, c)
    case _ => s
  }

  function Next(s: System, e: Event): System {
    if e.PressVerify? || e.WebCheck? || e.ClaimPass? then PassNext(s, e)
    else if e.PressRefresh? || e.SwapRefresh? then RefreshNext(s, e)
    else if e.SettleRead? || e.SettleClaim? then SettleNext(s, e)
    else MemberNext(s, e)
  }

  function Execute(s: System, events: seq<Event>): System
    decreases |events|
  {
    if events == [] then s else Execute(Next(s, events[0]), events[1..])
  }

  const EMPTY := System(None, 0, map[], [])

  /** No attempt ends twice, and the one in the table has not ended. */
  ghost predicate DecidedOnce(s: System) {
    && (s.row.Some? ==> s.row.value.id < s.nextId)
    && (forall i :: 0 <= i < |s.effects| ==>
          EffectId(s.effects[i]) < s.nextId && (s.row.Some? ==> EffectId(s.effects[i]) != s.row.value.id))
    && (forall i, j :: 0 <= i < j < |s.effects| ==> EffectId(s.effects[i]) != EffectId(s.effects[j]))
  }

  /** A pass by button was made by the button of the row's latest refresh, with its answer, in
      time and never on a web attempt; a pass by the web check was made on a web attempt. */
  predicate FairPass(e: Effect) {
    e.Passed? ==>
      && e.row.expires > e.now
      && match e.button
         case Some(b) => b.id == e.row.id && b.refreshes == e.row.refreshes && b.choice == e.row.answer
             && !e.row.reserved
         case None => e.row.reserved
  }

  /** What a call read, as far as the row may still be what it read. */
  ghost predicate FairCalls(s: System) {
    && (forall c :: c in s.calls && s.calls[c].Passing? ==>
          var p := s.calls[c];
          && p.seen.id < s.nextId
          && (s.row.Some? && s.row.value.id == p.seen.id ==> s.row.value.reserved == p.seen.reserved)
          && match p.button
             case Some(b) => b.id == p.seen.id && b.refreshes == p.seen.refreshes && b.choice == p.seen.answer
                 && !p.seen.reserved
             case None => p.seen.reserved)
    && (forall c :: c in s.calls && s.calls[c].Refreshing? ==> s.calls[c].seen.refreshes < MAX_REFRESHES)
    && (s.row.Some? ==> s.row.value.refreshes <= MAX_REFRESHES)
  }

  ghost predicate Fair(s: System) {
    DecidedOnce(s) && FairCalls(s) && forall i :: 0 <= i < |s.effects| ==> FairPass(s.effects[i])
  }

  lemma PassStaysFair(s: System, e: Event)
    requires Fair(s)
    ensures Fair(PassNext(s, e))
  {
  }

  lemma RefreshStaysFair(s: System, e: Event)
    requires Fair(s)
    ensures Fair(RefreshNext(s, e))
  {
  }

  lemma SettleStaysFair(s: System, e: Event)
    requires Fair(s)
    ensures Fair(SettleNext(s, e))
  {
  }

  lemma MemberStaysFair(s: System, e: Event)
    requires Fair(s)
    ensures Fair(MemberNext(s, e))
  {
  }

  lemma StepStaysFair(s: System, e: Event)
    requires Fair(s)
    ensures Fair(Next(s, e))
  {
    PassStaysFair(s, e);
    RefreshStaysFair(s, e);
    SettleStaysFair(s, e);
    MemberStaysFair(s, e);
  }

  /** Over every interleaving: every attempt has at most one of a pass, a failure action, a
      release or a drop; a button from before a refresh never passes, a web attempt is passed
      by the web check alone, and nobody gets more than three refreshes. */
  lemma {:induction false} OneDeciderPerAttempt(s: System, events: seq<Event>)
    requires Fair(s)
    ensures Fair(Execute(s, events))
    decreases |events|
  {
    if events != [] {
      StepStaysFair(s, events[0]);
      OneDeciderPerAttempt(Next(s, events[0]), events[1..]);
    }
  }

  /** Everything that happens to attempt `id` from here on, from the `from`-th effect. */
  ghost predicate NeverBefore(s: System, id: nat, refreshes: nat, from: nat) {
    && id < s.nextId && from <= |s.effects|
    && (s.row.Some? && s.row.value.id == id ==> s.row.value.refreshes >= refreshes)
    && (forall i :: from <= i < |s.effects| && s.effects[i].Passed? && s.effects[i].row.id == id ==>
          s.effects[i].row.refreshes >= refreshes && FairPass(s.effects[i]))
  }

  lemma StepNeverBefore(s: System, e: Event, id: nat, refreshes: nat, from: nat)
    requires Fair(s) && NeverBefore(s, id, refreshes, from)
    ensures NeverBefore(Next(s, e), id, refreshes, from)
  {
    PassStaysFair(s, e);
    assert forall i :: 0 <= i < |s.effects| ==> Next(s, e).effects[i] == s.effects[i];
  }

  predicate PassedByOlder(e: Effect, id: nat, refreshes: nat) {
    e.Passed? && e.row.id == id && e.button.Some? && e.button.value.refreshes < refreshes
  }

  ghost predicate NobodyOlder(effects: seq<Effect>, id: nat, refreshes: nat, from: nat) {
    forall i :: from <= i < |effects| ==> !PassedByOlder(effects[i], id, refreshes)
  }

  /** Once an attempt has been refreshed, no button made before that refresh ever passes it, and
      none ever will, whatever else happens. */
  lemma {:induction false} StaleButtonNeverPasses(s: System, events: seq<Event>, id: nat, refreshes: nat, from: nat)
    requires Fair(s) && NeverBefore(s, id, refreshes, from)
    ensures NobodyOlder(Execute(s, events).effects, id, refreshes, from)
    decreases |events|
  {
    if events != [] {
      StepNeverBefore(s, events[0], id, refreshes, from);
      StepStaysFair(s, events[0]);
      StaleButtonNeverPasses(Next(s, events[0]), events[1..], id, refreshes, from);
    }
  }

  // What each caller achieves when nobody comes in between.

  lemma {:induction false} ExecuteThen(s: System, e: Event, rest: seq<Event>)
    ensures Execute(s, [e] + rest) == Execute(Next(s, e), rest)
  {
    assert ([e] + rest)[1..] == rest;
  }

  /** The right button of the newest challenge passes the attempt in time, and no other button
      does: a press that fits starts a pass exactly with the right answer. */
  lemma RightAnswerPasses(s: System, c: nat, button: Button, now: int)
    requires c !in s.calls && ButtonFits(s, button, now)
    ensures var t := Execute(s, [PressVerify(c, button, now), ClaimPass(c, now)]);
            && t.calls == s.calls
            && (button.choice == s.row.value.answer ==>
                  t.row == None && t.effects == s.effects + [Passed(s.row.value, Some(button), now)])
            && (button.choice != s.row.value.answer ==> t == s)
  {
    var pressed := Next(s, PressVerify(c, button, now));
    ExecuteThen(s, PressVerify(c, button, now), [ClaimPass(c, now)]);
    ExecuteThen(pressed, ClaimPass(c, now), []);
    assert pressed.calls - {c} == s.calls;
  }

  /** A refresh below the limit replaces the answer, and from then on the buttons it replaced no
      longer fit. */
  lemma RefreshReplaces(s: System, c: nat, button: Button, answer: string, message: int, now: int)
    requires c !in s.calls && ButtonFits(s, button, now)
    ensures var t := Execute(s, [PressRefresh(c, button, now), SwapRefresh(c, answer, message, now)]);
            && t.calls == s.calls && t.effects == s.effects
            && (button.refreshes < MAX_REFRESHES ==>
                  && t.row == Some(s.row.value.(answer := answer, message := message,
                                                refreshes := button.refreshes + 1))
                  && forall b: Button, later: int ::
                       b.id == button.id && b.refreshes <= button.refreshes ==> !ButtonFits(t, b, later))
            && (button.refreshes >= MAX_REFRESHES ==> t == s)
  {
    var pressed := Next(s, PressRefresh(c, button, now));
    ExecuteThen(s, PressRefresh(c, button, now), [SwapRefresh(c, answer, message, now)]);
    ExecuteThen(pressed, SwapRefresh(c, answer, message, now), []);
    assert pressed.calls - {c} == s.calls;
  }

  /** A timer, tick, approval or switch-off ends exactly the attempt it read, and nothing when
      another one has taken its place. */
  lemma SettlingEndsItsOwn(s: System, c: nat, id: nat, how: Ending)
    requires c !in s.calls
    ensures var t := Execute(s, [SettleRead(c, id), SettleClaim(c, how)]);
            if s.row.Some? && s.row.value.id == id
            then t == s.(row := None, effects := s.effects + [Ended(id, how)])
            else t == s
  {
    var read := Next(s, SettleRead(c, id));
    ExecuteThen(s, SettleRead(c, id), [SettleClaim(c, how)]);
    ExecuteThen(read, SettleClaim(c, how), []);
    assert read.calls - {c} == s.calls;
  }

  /** A good web check passes a live web attempt of its own ID when the claim is in time too, and
      does nothing at all otherwise. */
  lemma WebCheckPasses(s: System, c: nat, id: nat, now: int, later: int)
    requires c !in s.calls
    ensures Execute(s, [WebCheck(c, id, now), ClaimPass(c, later)])
            == match s.row
               case Some(Attempt(mine, _, true, _, _, expires)) =>
                 if mine == id && now < expires && later < expires
                 then s.(row := None, effects := s.effects + [Passed(s.row.value, None, later)]) else s
               case _ => s
  {
    var read := Next(s, WebCheck(c, id, now));
    ExecuteThen(s, WebCheck(c, id, now), [ClaimPass(c, later)]);
    ExecuteThen(read, ClaimPass(c, later), []);
    assert read.calls - {c} == s.calls;
  }

  /** What a press needs: the live row of its own ID and refresh, not one of the web check's; a
      press to verify the right answer too, a press to refresh one of three refreshes left. */
  lemma PressesExactly(s: System, c: nat, b: Button, now: int)
    requires c !in s.calls
    ensures ButtonFits(s, b, now) <==>
            match s.row
            case Some(Attempt(id, _, false, _, refreshes, expires)) =>
              id == b.id && refreshes == b.refreshes && now < expires
            case _ => false
    ensures Next(s, PressVerify(c, b, now))
            == if ButtonFits(s, b, now) && b.choice == s.row.value.answer
               then s.(calls := s.calls[c := Passing(s.row.value, Some(b))]) else s
    ensures Next(s, PressRefresh(c, b, now))
            == if ButtonFits(s, b, now) && b.refreshes < 3
               then s.(calls := s.calls[c := Refreshing(s.row.value)]) else s
  {
  }

  /** A call in flight reads nothing more before its own claim. */
  lemma CallsReadOnce(s: System, e: Event)
    requires e.PressVerify? || e.WebCheck? || e.PressRefresh? || e.SettleRead?
    requires e.c in s.calls
    ensures Next(s, e) == s
  {
  }

  /** A claim takes the row as the call read it, in time; one that finds another ID, answer,
      message or refresh, or comes too late, changes nothing and its call is over. */
  lemma ClaimsTakeWhatTheyRead(s: System, c: nat, answer: string, message: int, now: int)
    requires c in s.calls && !s.calls[c].Settling?
    ensures var seen := s.calls[c].seen;
            var same := match s.row
                        case Some(Attempt(id, text, _, at, refreshes, expires)) =>
                          (id, text, at, refreshes) == (seen.id, seen.answer, seen.message, seen.refreshes)
                          && now < expires
                        case None => false;
            var gone := s.(calls := s.calls - {c});
            && (s.calls[c].Passing? ==>
                  Next(s, ClaimPass(c, now)) ==
                  if same then gone.(row := None, effects := s.effects + [Passed(s.row.value, s.calls[c].button, now)])
                  else gone)
            && (s.calls[c].Refreshing? ==>
                  Next(s, SwapRefresh(c, answer, message, now)) ==
                  if same then gone.(row := Some(Attempt(seen.id, answer, s.row.value.reserved, message,
                                                         seen.refreshes + 1, s.row.value.expires)))
                  else gone)
  {
  }

  /** A joining member gets an attempt with a new ID in place of any other, a delivered challenge
      is remembered, and a leaving member's attempt is dropped. */
  lemma MemberSteps(s: System, answer: string, reserved: bool, expires: int, message: int, c: nat)
    ensures var dropped := if s.row.Some? then [Dropped(s.row.value.id)] else [];
            && Next(s, Join(answer, reserved, expires)) ==
               s.(row := Some(Attempt(s.nextId, answer, reserved, 0, 0, expires)), nextId := s.nextId + 1,
                  effects := s.effects + dropped)
            && Next(s, Leave) == s.(row := None, effects := s.effects + dropped)
    ensures Next(s, Deliver(message)) ==
            if s.row.Some? then s.(row := Some(s.row.value.(message := message))) else s
    ensures Next(s, Lose(c)) == s.(calls := s.calls - {c})
  {
  }

  /** Every attempt ever made is the one in the table or has come to an end. */
  ghost predicate Accounted(s: System) {
    forall id: nat :: id < s.nextId ==> Waits(s, id) || HasEnded(s, id)
  }

  predicate Waits(s: System, id: nat) {
    s.row.Some? && s.row.value.id == id
  }

  ghost predicate HasEnded(s: System, id: nat) {
    exists i :: 0 <= i < |s.effects| && EffectId(s.effects[i]) == id
  }

  lemma StepAccounts(s: System, e: Event, id: nat)
    requires (id < s.nextId ==> Waits(s, id) || HasEnded(s, id)) && id < Next(s, e).nextId
    ensures Waits(Next(s, e), id) || HasEnded(Next(s, e), id)
  {
    var t := Next(s, e);
    assert s.effects <= t.effects;
    if id < s.nextId && HasEnded(s, id) {
      var i :| 0 <= i < |s.effects| && EffectId(s.effects[i]) == id;
      assert t.effects[i] == s.effects[i];
    } else if id < s.nextId && !Waits(t, id) {
      assert t.effects[|s.effects|] in t.effects && EffectId(t.effects[|s.effects|]) == id;
    }
  }

  /** Over every interleaving no attempt is lost: each one is still waiting or has ended, and by
      `OneDeciderPerAttempt` it has ended once. */
  lemma {:induction false} NoAttemptIsLost(s: System, events: seq<Event>)
    requires Accounted(s)
    ensures Accounted(Execute(s, events))
    decreases |events|
  {
    if events != [] {
      forall id: nat | id < Next(s, events[0]).nextId
        ensures Waits(Next(s, events[0]), id) || HasEnded(Next(s, events[0]), id)
      {
        StepAccounts(s, events[0], id);
      }
      NoAttemptIsLost(Next(s, events[0]), events[1..]);
    }
  }
}
