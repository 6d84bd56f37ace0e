/** The claim that keeps one join from being greeted or challenged twice: a shared map from a
    member to the end of the newest claim, changed by load-or-store, compare-and-swap and timers
    that delete by value, and the join processing that rests on it. One monotone clock. */
module JoinClaims {
  import opened Wrappers

  const TTL := 5

  // Concurrent claims of one member.

  /** A claim call that read the clock, one that found an expired claim, one that read the clock
      again to replace it, or one that lost the swap and starts over. */
  datatype Call = Read(now: int) | Expired(seen: int) | Swapping(seen: int, now: int) | Retrying

  /** A call that won: the end of its claim, when it won, and how many clears came before. */
  datatype Won = Won(end: int, at: int, clears: nat)

  datatype System = System(clock: int, claim: Option<int>, timers: set<int>, calls: map<nat, Call>, clears: nat,
    wins: seq<Won>)

  datatype Event =
    | Pass(seconds: nat)
    | Begin(c: nat)
    | LoadOrStore(c: nat)
    | ReadAgain(c: nat)
    | Swap(c: nat)
    | Fire(end: int)
    | Clear

  function Wins(s: System, c: nat, end: int): System {
    s.(claim := Some(end), timers := s.timers + {end}, calls := s.calls - {c},
       wins := s.wins + [Won(end, s.clock, s.clears)])
  }

  function Next(s: System, e: Event): System {
    match e
    case Pass(seconds) => s.(clock := s.clock + seconds)
    case Begin(c) => if c in s.calls && !s.calls[c].Retrying? then s else s.(calls := s.calls[c := Read(s.clock)])
    case LoadOrStore(c) =>
      if c !in s.calls || !s.calls[c].Read? then s
      else if s.claim == None then Wins(s, c, s.calls[c].now + TTL)
      else if s.calls[c].now < s.claim.value then s.(calls := s.calls - {c})
      else s.(calls := s.calls[c := Expired(s.claim.value)])
    case ReadAgain(c) =>
      if c in s.calls && s.calls[c].Expired? then s.(calls := s.calls[c := Swapping(s.calls[c].seen, s.clock)]) else s
    case Swap(c) =>
      if c !in s.calls || !s.calls[c].Swapping? then s
      else if s.claim == Some(s.calls[c].seen) then Wins(s, c, s.calls[c].now + TTL)
      else s.(calls := s.calls[c := Retrying])
    case Fire(end) =>
      if end in s.timers && end <= s.clock && s.claim == Some(end) then s.(claim := None) else s
    case Clear => s.(claim := None, clears := s.clears + 1)
  }

  function Execute(s: System, events: seq<Event>): System
    decreases |events|
  {
    if events == [] then s else Execute(Next(s, events[0]), events[1..])
  }

  function Start(clock: int): System {
    System(clock, None, {}, map[], 0, [])
  }

  /** What the map holds is the newest win's, unless it was cleared or is over. */
  ghost predicate NewestHolds(s: System) {
    && (s.claim.Some? ==>
          s.wins != [] && s.wins[|s.wins| - 1].end == s.claim.value && s.wins[|s.wins| - 1].clears == s.clears)
    && (s.claim == None && s.wins != [] && s.wins[|s.wins| - 1].clears == s.clears
        ==> s.clock >= s.wins[|s.wins| - 1].end)
    && (forall c :: c in s.calls ==> EarlierClock(s.calls[c], s.clock))
  }

  predicate EarlierClock(c: Call, clock: int) {
    match c
    case Read(now) => now <= clock
    case Expired(seen) => seen <= clock
    case Swapping(seen, now) => seen <= now <= clock
    case Retrying => true
  }

  ghost predicate Separated(s: System) {
    && (forall i :: 0 <= i < |s.wins| ==>
          s.wins[i].at <= s.clock && s.wins[i].clears <= s.clears && s.wins[i].end <= s.wins[i].at + TTL)
    && (forall i, j :: 0 <= i < j < |s.wins| ==>
          && s.wins[i].at <= s.wins[j].at && s.wins[i].clears <= s.wins[j].clears
          && (s.wins[i].clears == s.wins[j].clears ==> s.wins[j].at >= s.wins[i].end))
  }

  lemma WinSeparates(s: System, c: nat, end: int)
    requires NewestHolds(s) && Separated(s) && c in s.calls && end <= s.clock + TTL
    requires s.claim.Some? ==> s.claim.value <= s.clock
    ensures NewestHolds(Wins(s, c, end)) && Separated(Wins(s, c, end))
  {
    var n := |s.wins|;
    forall i | 0 <= i < n && s.wins[i].clears == s.clears
      ensures s.clock >= s.wins[i].end
    {
      if i < n - 1 {
        assert s.wins[n - 1].at >= s.wins[i].end;
      }
    }
    assert Wins(s, c, end).wins[n] == Won(end, s.clock, s.clears);
  }

  predicate Winning(s: System, e: Event) {
    || (e.LoadOrStore? && e.c in s.calls && s.calls[e.c].Read? && s.claim == None)
    || (e.Swap? && e.c in s.calls && s.calls[e.c].Swapping? && s.claim == Some(s.calls[e.c].seen))
  }

  /** A step that wins nothing only moves the clock, a call, a clear or an ended claim on. */
  ghost predicate Quiet(s: System, t: System) {
    && t.wins == s.wins && t.clock >= s.clock && t.clears >= s.clears
    && (t.claim == s.claim || (t.claim == None && (t.clears > s.clears || (s.claim.Some? && s.claim.value <= t.clock))))
    && (t.clears > s.clears ==> t.claim == None)
    && (forall c :: c in t.calls ==> EarlierClock(t.calls[c], t.clock))
  }

  lemma OthersAreQuiet(s: System, e: Event)
    requires !Winning(s, e) && forall c :: c in s.calls ==> EarlierClock(s.calls[c], s.clock)
    ensures Quiet(s, Next(s, e))
  {
  }

  lemma QuietSeparates(s: System, t: System)
    requires NewestHolds(s) && Separated(s) && Quiet(s, t)
    ensures NewestHolds(t) && Separated(t)
  {
  }

  lemma StepSeparates(s: System, e: Event, t: System)
    requires NewestHolds(s) && Separated(s) && t == Next(s, e)
    ensures NewestHolds(t) && Separated(t)
  {
    if Winning(s, e) {
      assert EarlierClock(s.calls[e.c], s.clock);
      WinSeparates(s, e.c, s.calls[e.c].now + TTL);
    } else {
      OthersAreQuiet(s, e);
      QuietSeparates(s, t);
    }
  }

  /** Over every interleaving of claims, timers and clears: two wins with no clear between them
      are separated by the end of the first one's claim. */
  lemma {:induction false} ClaimsAreSeparated(s: System, events: seq<Event>)
    requires NewestHolds(s) && Separated(s)
    ensures NewestHolds(Execute(s, events)) && Separated(Execute(s, events))
    decreases |events|
  {
    if events != [] {
      StepSeparates(s, events[0], Next(s, events[0]));
      ClaimsAreSeparated(Next(s, events[0]), events[1..]);
    }
  }

  lemma {:induction false} ExecuteThen(s: System, e: Event, rest: seq<Event>)
    ensures Execute(s, [e] + rest) == Execute(Next(s, e), rest)
  {
    assert ([e] + rest)[1..] == rest;
  }

  /** A claim may end early: a call that stalls between its clock read and its store wins with
      what is left of the window, and one that stalls for the whole of it wins a claim that is
      over at once. */
  lemma StalledClaimIsShort(clock: int, c: nat, stall: nat)
    ensures var t := Execute(Start(clock), [Begin(c), Pass(stall), LoadOrStore(c)]);
            |t.wins| == 1 && t.wins[0].at == clock + stall && t.wins[0].end - t.wins[0].at == TTL - stall
  {
    var begun := Next(Start(clock), Begin(c));
    var stalled := Next(begun, Pass(stall));
    ExecuteThen(Start(clock), Begin(c), [Pass(stall), LoadOrStore(c)]);
    ExecuteThen(begun, Pass(stall), [LoadOrStore(c)]);
    ExecuteThen(stalled, LoadOrStore(c), []);
  }

  /** So may one that replaces an expired claim and stalls before its swap. */
  lemma StalledReplacementIsShort(s: System, c: nat, stall: nat)
    requires c !in s.calls && s.claim.Some? && s.claim.value <= s.clock
    ensures var found := Next(Next(s, Begin(c)), LoadOrStore(c));
            var t := Execute(found, [ReadAgain(c), Pass(stall), Swap(c)]);
            t.wins == s.wins + [Won(s.clock + TTL, s.clock + stall, s.clears)]
  {
    var found := Next(Next(s, Begin(c)), LoadOrStore(c));
    assert found.calls[c] == Expired(s.claim.value) && found.claim == s.claim && found.clock == s.clock;
    var read := Next(found, ReadAgain(c));
    assert read.calls[c] == Swapping(s.claim.value, s.clock);
    var stalled := Next(read, Pass(stall));
    ExecuteThen(found, ReadAgain(c), [Pass(stall), Swap(c)]);
    ExecuteThen(read, Pass(stall), [Swap(c)]);
    ExecuteThen(stalled, Swap(c), []);
  }

  /** A call that nobody interrupts wins a free claim at once, replaces one that is over in two
      more steps, and is refused by one that still runs. */
  lemma LoneClaim(s: System, c: nat)
    requires c !in s.calls
    ensures var stored := Next(Next(s, Begin(c)), LoadOrStore(c));
            var swapped := Next(Next(stored, ReadAgain(c)), Swap(c));
            var won := s.(claim := Some(s.clock + 5), timers := s.timers + {s.clock + 5},
                          wins := s.wins + [Won(s.clock + 5, s.clock, s.clears)]);
            match s.claim
            case None => stored == won
            case Some(end) => if s.clock < end then stored == s else swapped == won
  {
    var begun := Next(s, Begin(c));
    assert begun.calls - {c} == s.calls;
    var stored := Next(begun, LoadOrStore(c));
    if s.claim.Some? && s.clock >= s.claim.value {
      assert stored == s.(calls := s.calls[c := Expired(s.claim.value)]);
      var read := Next(stored, ReadAgain(c));
      assert read == s.(calls := s.calls[c := Swapping(s.claim.value, s.clock)]);
      assert read.calls - {c} == s.calls;
    }
  }

  /** A claim is over with its own timer, five seconds after its clock was read and no earlier,
      and a timer that fires on a later claim leaves that one alone. */
  lemma ClaimEndsWithItsTimer(s: System, waits: nat, end: int)
    requires s.claim.Some? && s.claim.value in s.timers
    ensures Next(Next(s, Pass(waits)), Fire(s.claim.value))
            == s.(clock := s.clock + waits, claim := if s.clock + waits < s.claim.value then s.claim else None)
    ensures end != s.claim.value ==> Next(s, Fire(end)) == s
  {
  }

  /** A clear frees the member and stops no call. */
  lemma ClearFrees(s: System)
    ensures Next(s, Clear) == s.(claim := None, clears := s.clears + 1)
  {
  }

  /** A call whose claim was changed before its swap starts over with a new clock; one that is
      in the middle does not. */
  lemma LostSwapStartsOver(s: System, c: nat)
    requires c in s.calls
    ensures s.calls[c].Swapping? && s.claim != Some(s.calls[c].seen) ==>
              Next(Next(s, Swap(c)), Begin(c)) == s.(calls := s.calls[c := Read(s.clock)])
    ensures !s.calls[c].Retrying? ==> Next(s, Begin(c)) == s
  {
    assert s.calls[c := Retrying][c := Read(s.clock)] == s.calls[c := Read(s.clock)];
  }

  // Processing the joins of one message.

  datatype JoinOutcome = JoinIgnore | JoinWelcome | JoinChallenge

  datatype ChallengeAnswer = Challenged | ChallengeDisabled | ChallengeFails

  datatype Effect = Welcome(user: int) | Challenge(user: int)

  function DecideJoin(isSelf: bool, approved: bool, captchaEnabled: bool): JoinOutcome {
    if isSelf then JoinIgnore else if captchaEnabled && !approved then JoinChallenge else JoinWelcome
  }

  /** What one joining member meets. */
  datatype Joining = Joining(user: int, approved: bool, challenge: ChallengeAnswer, welcomeFails: bool)

  /** Whether anything reached the member, and what. */
  function EffectOf(j: Joining, captchaEnabled: bool): Option<Effect> {
    if captchaEnabled && !j.approved && j.challenge == Challenged then Some(Challenge(j.user))
    else if captchaEnabled && !j.approved && j.challenge == ChallengeFails then None
    else if j.welcomeFails then None
    else Some(Welcome(j.user))
  }

  function Lookup(claims: map<int, int>, user: int): Option<int> {
    if user in claims then Some(claims[user]) else None
  }

  function Put(claims: map<int, int>, user: int, claim: Option<int>): map<int, int> {
    if claim.Some? then claims[user := claim.value] else claims - {user}
  }

  /** A claim as one attempt finds it, and the clock of that attempt. */
  datatype Rival = Rival(claim: Option<int>, at: int)

  /** What the n-th attempt of a call sees, when every earlier one lost. */
  function Seen(first: Option<int>, now: int, rivals: seq<Rival>, n: nat): Rival
    requires n <= |rivals|
  {
    if n == 0 then Rival(first, now) else rivals[n - 1]
  }

  class RecentJoins {
    var claims: map<int, int>
    var effects: seq<Effect>

    constructor ()
      ensures claims == map[] && effects == []
    {
      claims, effects := map[], [];
    }

    /** Claims a join. `rivals` says what others left of the claim before each swap of this
        call; the call decides by the first attempt that did not lose to them, and is refused
        exactly when that attempt met a claim that still runs. */
    method Claim(user: int, now: int, rivals: seq<Rival>) returns (won: bool, ghost k: nat)
      modifies this`claims
      ensures k <= |rivals|
      ensures forall i :: 0 <= i < k ==>
                var seen := Seen(Lookup(old(claims), user), now, rivals, i);
                seen.claim.Some? && seen.claim.value <= seen.at && rivals[i].claim != seen.claim
      ensures var at := if k == 0 then now else rivals[k - 1].at;
              match if k == 0 then Lookup(old(claims), user) else rivals[k - 1].claim
              case None => won && claims == old(claims)[user := at + 5]
              case Some(end) =>
                if at < end then !won && claims == old(claims)[user := end]
                else if k == |rivals| then won && claims == old(claims)[user := at + 5]
                else won && rivals[k].claim == Some(end) && claims == old(claims)[user := rivals[k].at + 5]
    {
      ghost var first := Lookup(claims, user);
      var clock, n := now, 0;
      while user in claims
        invariant n <= |rivals|
        invariant Seen(first, now, rivals, n) == Rival(Lookup(claims, user), clock)
        invariant claims == Put(old(claims), user, Lookup(claims, user))
        invariant forall i :: 0 <= i < n ==>
                    var seen := Seen(first, now, rivals, i);
                    seen.claim.Some? && seen.claim.value <= seen.at && rivals[i].claim != seen.claim
        decreases |rivals| - n
      {
        var actual := claims[user];
        if clock < actual {
          return false, n;
        }
        if n == |rivals| {
          claims := claims[user := clock + TTL];
          return true, n;
        }
        var rival := rivals[n];
        claims := Put(claims, user, rival.claim);
        if rival.claim == Some(actual) {
          claims := claims[user := rival.at + TTL];
          return true, n;
        }
        clock, n := rival.at, n + 1;
      }
      claims := claims[user := clock + TTL];
      return true, n;
    }

    /** Nothing for the bot itself and for a join whose claim is taken; otherwise the member is
        challenged or welcomed, never both, and a captcha that was just switched off falls back
        to the welcome. */
    method ProcessSingleJoin(bot: int, j: Joining, captchaEnabled: bool, now: int) returns (out: JoinOutcome)
      modifies this
      ensures var mine := j.user != bot && !(j.user in old(claims) && now < old(claims)[j.user]);
              var asked := captchaEnabled && !j.approved && j.challenge != ChallengeDisabled;
              && claims == (if mine then old(claims)[j.user := now + 5] else old(claims))
              && (mine && asked && j.challenge == Challenged ==>
                    out == JoinChallenge && effects == old(effects) + [Challenge(j.user)])
              && (mine && !asked && !j.welcomeFails ==>
                    out == JoinWelcome && effects == old(effects) + [Welcome(j.user)])
              && (!mine || (if asked then j.challenge == ChallengeFails else j.welcomeFails) ==>
                    out == JoinIgnore && effects == old(effects))
    {
      if j.user == bot {
        return JoinIgnore;
      }
      var won, _ := Claim(j.user, now, []);
      if !won {
        return JoinIgnore;
      }
      if DecideJoin(false, j.approved, captchaEnabled) == JoinChallenge {
        match j.challenge {
          case ChallengeFails => return JoinIgnore;
          case Challenged =>
            effects := effects + [Challenge(j.user)];
            return JoinChallenge;
          case ChallengeDisabled =>
        }
      }
      if j.welcomeFails {
        return JoinIgnore;
      }
      effects := effects + [Welcome(j.user)];
      return JoinWelcome;
    }

    /** One outcome per member, in order; a failure for one never stops the next, and a member
        named again within the window is ignored. */
    method ProcessJoins(bot: int, joins: seq<Joining>, captchaEnabled: bool, now: int) returns (out: seq<JoinOutcome>)
      modifies this
      ensures Handled(old(claims), bot, joins, |joins|, captchaEnabled, now, out)
      ensures effects == old(effects) + Effects(old(claims), bot, joins, captchaEnabled, now)
    {
      out := [];
      for n := 0 to |joins|
        invariant forall u :: Held(claims, now, u) <==> TakenBefore(old(claims), bot, joins, n, now, u)
        invariant Handled(old(claims), bot, joins, n, captchaEnabled, now, out)
        invariant effects == old(effects) + Effects(old(claims), bot, joins[..n], captchaEnabled, now)
      {
        ghost var before := claims;
        var one := ProcessSingleJoin(bot, joins[n], captchaEnabled, now);
        ghost var mine := joins[n].user != bot && !Held(before, now, joins[n].user);
        assert mine <==> Fresh(old(claims), bot, joins, n, now);
        OneMoreTaken(old(claims), before, claims, bot, joins, n, now, mine);
        OneMoreEffect(old(claims), bot, joins, n, captchaEnabled, now);
        out := out + [one];
      }
      assert joins[..|joins|] == joins;
    }
  }

  /** The outcomes of the first `n` members: a member already taken is ignored, and so is one
      whom nothing reached. */
  ghost predicate Handled(claims: map<int, int>, bot: int, joins: seq<Joining>, n: nat, captchaEnabled: bool, now: int,
                          out: seq<JoinOutcome>) {
    && |out| == n <= |joins|
    && forall i :: 0 <= i < n ==> out[i] == OutcomeAt(claims, bot, joins, i, captchaEnabled, now)
  }

  ghost predicate Reached(claims: map<int, int>, bot: int, joins: seq<Joining>, i: nat, captchaEnabled: bool, now: int)
    requires i < |joins|
  {
    Fresh(claims, bot, joins, i, now) && EffectOf(joins[i], captchaEnabled).Some?
  }

  ghost function OutcomeAt(claims: map<int, int>, bot: int, joins: seq<Joining>, i: nat, captchaEnabled: bool,
                           now: int): JoinOutcome
    requires i < |joins|
  {
    if !Reached(claims, bot, joins, i, captchaEnabled, now) then JoinIgnore
    else if EffectOf(joins[i], captchaEnabled) == Some(Challenge(joins[i].user)) then JoinChallenge
    else JoinWelcome
  }

  lemma OneMoreEffect(claims: map<int, int>, bot: int, joins: seq<Joining>, n: nat, captchaEnabled: bool, now: int)
    requires n < |joins|
    ensures Effects(claims, bot, joins[..n + 1], captchaEnabled, now)
            == Effects(claims, bot, joins[..n], captchaEnabled, now)
               + (if Reached(claims, bot, joins, n, captchaEnabled, now)
                  then [EffectOf(joins[n], captchaEnabled).value] else [])
  {
    assert joins[..n + 1][..n] == joins[..n];
    TakenByPrefix(claims, bot, joins, n, now, joins[n].user);
  }

  predicate Held(claims: map<int, int>, now: int, user: int) {
    user in claims && now < claims[user]
  }

  /** The member's claim is held by an earlier message or by an earlier place in this one. */
  ghost predicate TakenBefore(claims: map<int, int>, bot: int, joins: seq<Joining>, n: nat, now: int, user: int)
    requires n <= |joins|
  {
    Held(claims, now, user) || (user != bot && exists k :: 0 <= k < n && joins[k].user == user)
  }

  lemma OneMoreTaken(start: map<int, int>, before: map<int, int>, after: map<int, int>, bot: int,
                     joins: seq<Joining>, n: nat, now: int, mine: bool)
    requires n < |joins| && (mine <==> joins[n].user != bot && !Held(before, now, joins[n].user))
    requires after == if mine then before[joins[n].user := now + TTL] else before
    requires forall u :: Held(before, now, u) <==> TakenBefore(start, bot, joins, n, now, u)
    ensures forall u :: Held(after, now, u) <==> TakenBefore(start, bot, joins, n + 1, now, u)
  {
    forall u
      ensures Held(after, now, u) <==> TakenBefore(start, bot, joins, n + 1, now, u)
    {
      assert TakenBefore(start, bot, joins, n + 1, now, u)
             <==> TakenBefore(start, bot, joins, n, now, u) || (u == joins[n].user && u != bot);
    }
  }

  ghost predicate Fresh(claims: map<int, int>, bot: int, joins: seq<Joining>, i: nat, now: int)
    requires i < |joins|
  {
    joins[i].user != bot && !TakenBefore(claims, bot, joins, i, now, joins[i].user)
  }

  /** What reaches the members of one message: an effect for each first naming of a member whose
      claim was free. */
  ghost function Effects(claims: map<int, int>, bot: int, joins: seq<Joining>, captchaEnabled: bool,
                         now: int): seq<Effect> {
    if joins == [] then []
    else
      var n := |joins| - 1;
      var last := EffectOf(joins[n], captchaEnabled);
      Effects(claims, bot, joins[..n], captchaEnabled, now) +
      (if Fresh(claims, bot, joins, n, now) && last.Some? then [last.value] else [])
  }

  lemma TakenByPrefix(claims: map<int, int>, bot: int, joins: seq<Joining>, n: nat, now: int, user: int)
    requires n < |joins|
    ensures TakenBefore(claims, bot, joins[..n + 1], n, now, user) <==> TakenBefore(claims, bot, joins, n, now, user)
  {
    assert forall k :: 0 <= k < n ==> joins[..n + 1][k] == joins[k];
  }

  ghost predicate Named(joins: seq<Joining>, user: int) {
    exists k :: 0 <= k < |joins| && joins[k].user == user
  }

  ghost predicate OncePerMember(effects: seq<Effect>, bot: int, joins: seq<Joining>) {
    && (forall e :: e in effects ==> Named(joins, e.user) && e.user != bot)
    && (forall i, j :: 0 <= i < j < |effects| ==> effects[i].user != effects[j].user)
  }

  /** Nobody is greeted or challenged twice by one message, and nobody but its members. */
  lemma {:induction false} OneEffectPerMember(claims: map<int, int>, bot: int, joins: seq<Joining>,
                                              captchaEnabled: bool,
                                              now: int)
    ensures OncePerMember(Effects(claims, bot, joins, captchaEnabled, now), bot, joins)
  {
    if joins != [] {
      var n := |joins| - 1;
      var before := Effects(claims, bot, joins[..n], captchaEnabled, now);
      OneEffectPerMember(claims, bot, joins[..n], captchaEnabled, now);
      forall e | e in before
        ensures Named(joins, e.user) && (Fresh(claims, bot, joins, n, now) ==> e.user != joins[n].user)
      {
        var k :| 0 <= k < n && joins[..n][k].user == e.user;
        assert joins[k].user == e.user;
      }
      assert Named(joins, joins[n].user);
    }
  }

  /** A member's first naming, by somebody who holds no claim yet. */
  ghost predicate FirstNaming(claims: map<int, int>, bot: int, joins: seq<Joining>, now: int, i: nat) {
    && i < |joins| && joins[i].user != bot && (joins[i].user in claims ==> claims[joins[i].user] <= now)
    && forall k :: 0 <= k < i ==> joins[k].user != joins[i].user
  }

  lemma FirstNamingIsFresh(claims: map<int, int>, bot: int, joins: seq<Joining>, now: int, i: nat)
    requires FirstNaming(claims, bot, joins, now, i)
    ensures Fresh(claims, bot, joins, i, now)
    ensures forall n :: i < n < |joins| && joins[n].user == joins[i].user ==> !Fresh(claims, bot, joins, n, now)
  {
  }

  /** Everybody the message names for the first time, without a claim, is met, and met once: by
      a challenge when the captcha is on, the member is not approved and the challenge goes out,
      by a welcome when there is nothing to ask or the captcha was just switched off. A challenge
      or a welcome that fails meets nobody. */
  lemma {:induction false} NewMembersAreMet(claims: map<int, int>, bot: int, joins: seq<Joining>, captchaEnabled: bool,
                                            now: int, i: nat)
    requires FirstNaming(claims, bot, joins, now, i)
    ensures var met, j := Effects(claims, bot, joins, captchaEnabled, now), joins[i];
            && (Challenge(j.user) in met <==> captchaEnabled && !j.approved && j.challenge == Challenged)
            && (Welcome(j.user) in met <==>
                  (!captchaEnabled || j.approved || j.challenge == ChallengeDisabled) && !j.welcomeFails)
  {
    var n := |joins| - 1;
    OneEffectPerMember(claims, bot, joins[..n], captchaEnabled, now);
    FirstNamingIsFresh(claims, bot, joins, now, i);
    if i < n {
      NewMembersAreMet(claims, bot, joins[..n], captchaEnabled, now, i);
    } else {
      assert !Named(joins[..n], joins[i].user);
    }
  }

  /** Whoever already holds a claim is met by nothing. */
  lemma {:induction false} HeldMembersAreNotMet(claims: map<int, int>, bot: int, joins: seq<Joining>,
                                                captchaEnabled: bool, now: int, e: Effect)
    requires e in Effects(claims, bot, joins, captchaEnabled, now)
    ensures e.user in claims ==> claims[e.user] <= now
  {
    var n := |joins| - 1;
    if e in Effects(claims, bot, joins[..n], captchaEnabled, now) {
      HeldMembersAreNotMet(claims, bot, joins[..n], captchaEnabled, now, e);
    }
  }

  /** The outcomes say what was done: a challenge or a welcome for whom the message names first,
      nothing for the bot, for a repeated name and for a claim that is held. */
  lemma OutcomesAreExact(claims: map<int, int>, bot: int, joins: seq<Joining>, captchaEnabled: bool, now: int, i: nat)
    requires i < |joins|
    ensures var j, out := joins[i], OutcomeAt(claims, bot, joins, i, captchaEnabled, now);
            if FirstNaming(claims, bot, joins, now, i) then
              && (out == JoinChallenge <==> captchaEnabled && !j.approved && j.challenge == Challenged)
              && (out == JoinWelcome <==>
                    (!captchaEnabled || j.approved || j.challenge == ChallengeDisabled) && !j.welcomeFails)
            else out == JoinIgnore
  {
    if FirstNaming(claims, bot, joins, now, i) {
      FirstNamingIsFresh(claims, bot, joins, now, i);
    } else if joins[i].user != bot && (joins[i].user in claims ==> claims[joins[i].user] <= now) {
      var k :| 0 <= k < i && joins[k].user == joins[i].user;
    }
  }

  lemma DecidesExactly(approved: bool, captchaEnabled: bool)
    ensures DecideJoin(true, approved, captchaEnabled) == JoinIgnore
    ensures DecideJoin(false, true, captchaEnabled) == DecideJoin(false, approved, false) == JoinWelcome
    ensures DecideJoin(false, false, true) == JoinChallenge
  {
  }
}
