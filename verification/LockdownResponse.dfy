/** "Ban N recent joiners": how the run decides and bans one account for good, works through
    a batch, and stops when its lockdown is no longer active. The methods below run over the
    stored rows and the live members; what the database, Telegram and other callers answer
    during a call is an input. */
module LockdownResponse {
  import opened Wrappers
  import opened LockdownRows
  import opened LockdownBurst

  /** How one paced call ended: answered, refused by the pacer or a shutdown, or failed. */
  datatype Call = CallDone | CallRetryFree | CallFailed(detail: string)

  type Failure = c: Call | c != CallDone witness CallRetryFree

  /** The re-read of the lockdown right before the ban; an unreadable one fails the unit. */
  datatype Reread = Unreadable(why: Failure) | Reads(ld: Option<LockdownState>)

  /** What one account's handling meets. `rival` is the joiner row as another caller left it
      between this call's read and its claim; `lands` says whether an unconfirmed ban took
      effect all the same. */
  datatype Weather = Weather(
    rowReadable: bool, rival: Option<JoinerRow>, claimWrites: bool,
    look: Call, reread: Reread, ban: Call, lands: bool)

  const SKIP_ADMIN := "admin"
  const SKIP_APPROVED := "approved"
  const SKIP_BANNED := "already_banned"
  const SKIP_SELF := "bot_self"
  const SKIP_LET_IN := "let_in"
  const REASON_REQUEST := "request"

  function SkipReason(m: ChatMember): string {
    if m.status == Kicked then SKIP_BANNED else SKIP_ADMIN
  }

  function AtClaim(row: JoinerRow, w: Weather): JoinerRow {
    if w.rival.Some? then w.rival.value else row
  }

  predicate WinsClaim(row: JoinerRow, w: Weather) {
    RunClaimable(row.state) && w.claimWrites && AtClaim(row, w).state == row.state
  }

  function BanUntilOf(joiner: Option<JoinerRow>): int {
    if joiner.Some? then joiner.value.banUntil else 0
  }

  /** Whether the account gets as far as the paced unit that looks and bans. */
  predicate ReachesUnit(user: int, bot: int, approved: set<int>, joiner: Option<JoinerRow>, w: Weather) {
    && user !in approved && user != bot && w.rowReadable
    && (joiner.None? || WinsClaim(joiner.value, w) || joiner.value.state in {Unbanned, UnbanFailed})
  }

  /** How the paced unit ended, whether it decided to ban, and whether it found the lockdown
      over by then. */
  datatype Unit = Unit(call: Call, ban: bool, ended: bool)

  function UnitResult(live: ChatMember, banUntil: int, w: Weather): Unit {
    if w.look != CallDone then Unit(w.look, false, false)
    else if !ResponseBans(live, banUntil) then Unit(CallDone, false, false)
    else if w.reread.Unreadable? then Unit(w.reread.why, true, false)
    else if w.reread.ld != Some(Active) then Unit(CallDone, false, true)
    else Unit(w.ban, true, false)
  }

  /** Whether the ban call is sent at all. */
  predicate SendsBan(live: ChatMember, banUntil: int, w: Weather) {
    w.look == CallDone && ResponseBans(live, banUntil) && w.reread == Reads(Some(Active))
  }

  function UnitVerdict(unit: Unit, request: bool, skip: string): Verdict {
    match unit.call
    case CallDone =>
      if unit.ended then Back else if !unit.ban then Skip(skip) else Hit(if request then REASON_REQUEST else "")
    case CallRetryFree => Back
    case CallFailed(detail) => Miss(detail)
  }

  /** The policy table of the run for one account. */
  function RunVerdict(user: int, bot: int, approved: set<int>, joiner: Option<JoinerRow>, live: ChatMember,
                      w: Weather): Verdict {
    if user in approved then Skip(SKIP_APPROVED)
    else if user == bot then Skip(SKIP_SELF)
    else if w.rowReadable && joiner.Some? && joiner.value.state == Exempt then Skip(SKIP_LET_IN)
    else if !ReachesUnit(user, bot, approved, joiner, w) then Back
    else UnitVerdict(UnitResult(live, BanUntilOf(joiner), w), joiner.Some? && joiner.value.request, SkipReason(live))
  }

  /** Whether a permanent ban takes effect on the account. */
  predicate BansFor(user: int, bot: int, approved: set<int>, joiner: Option<JoinerRow>, live: ChatMember, w: Weather) {
    && ReachesUnit(user, bot, approved, joiner, w)
    && SendsBan(live, BanUntilOf(joiner), w)
    && (w.ban == CallDone || w.lands)
  }

  /** A claimed row put back in the state and detail it was read with. */
  function Restored(read: JoinerRow, atClaim: JoinerRow): JoinerRow {
    Moved(atClaim.(state := Acting), read.state, read.detail, false)
  }

  function Lookup(joiners: map<int, JoinerRow>, user: int): Option<JoinerRow> {
    if user in joiners then Some(joiners[user]) else None
  }

  /** Whether the call gets as far as trying to claim a joiner row. */
  predicate TriesClaim(user: int, bot: int, approved: set<int>, joiner: Option<JoinerRow>, w: Weather) {
    user !in approved && user != bot && w.rowReadable && joiner.Some? && RunClaimable(joiner.value.state)
  }

  function JoinersAfter(joiners: map<int, JoinerRow>, user: int, bot: int, approved: set<int>, live: ChatMember,
                        w: Weather)
    : map<int, JoinerRow>
  {
    var joiner := Lookup(joiners, user);
    if !TriesClaim(user, bot, approved, joiner, w) then joiners
    else
      var there := AtClaim(joiner.value, w);
      if !WinsClaim(joiner.value, w) then joiners[user := there]
      else if RunVerdict(user, bot, approved, joiner, live, w).Hit?
      then joiners[user := there.(state := Kept, detail := DETAIL_RESPONSE_BAN)]
      else joiners[user := Restored(joiner.value, there)]
  }

  function Unqueued(bursts: map<int, BurstRow>, run: nat): map<int, BurstRow> {
    map u | u in bursts :: if bursts[u].run == Some(run) && bursts[u].state == Queued
                           then bursts[u].(state := NoRun, run := None) else bursts[u]
  }

  predicate NothingOpen(bursts: map<int, BurstRow>, run: nat) {
    forall u :: u in bursts && bursts[u].run == Some(run) ==> !Open(bursts[u].state)
  }

  predicate SomeNewlyFinal(before: map<int, BurstRow>, after: map<int, BurstRow>) {
    exists u :: u in before && u in after && !Final(before[u].state) && Final(after[u].state)
  }

  /** What one pass of a run may do to the burst table. */
  predicate Advances(before: map<int, BurstRow>, after: map<int, BurstRow>, run: nat) {
    && after.Keys == before.Keys
    && forall u :: u in before ==>
         if before[u].state != Queued then after[u] == before[u]
         else
           || (after[u].run == before[u].run && (after[u].state == Queued || Final(after[u].state))
               && before[u].attempts <= after[u].attempts)
           || (before[u].run == Some(run) && after[u].run == None && after[u].state == NoRun)
  }

  predicate SameRuns(before: map<int, BurstRow>, after: map<int, BurstRow>) {
    before.Keys == after.Keys && forall u :: u in before ==> after[u].run == before[u].run
  }

  /** A queued account as the batch listed it. */
  datatype Listed = Listed(user: int, attempts: nat)

  datatype Read = ReadFails | ReadsLd(ld: Option<LockdownState>)

  /** What one account of the batch meets before and during its handling. */
  datatype Now = Now(shutdown: bool, ld: Read, claimWrites: bool, weather: Weather)

  /** What one pass of a run meets. */
  datatype Day = Day(start: Read, accounts: seq<Now>, shutdown: bool, unqueueWrites: bool, finishWrites: bool)

  lemma OneMoreAccount(first: map<int, BurstRow>, before: map<int, BurstRow>, run: nat, user: int, listed: nat,
                       v: Verdict)
    requires Advances(first, before, run) && SameRuns(first, before)
    requires user in before && before[user].state == Queued
    ensures var after := before[user := Handled(before[user].(state := InHand), listed, v)];
            && Advances(first, after, run)
            && SameRuns(first, after)
            && (SomeNewlyFinal(first, after) <==> SomeNewlyFinal(first, before) || Final(after[user].state))
  {
    var after := before[user := Handled(before[user].(state := InHand), listed, v)];
    if SomeNewlyFinal(first, before) {
      var u :| u in first && u in before && !Final(first[u].state) && Final(before[u].state);
      assert after[u] == before[u];
    }
    assert !Final(first[user].state);
  }

  lemma UnqueueingAdvances(first: map<int, BurstRow>, before: map<int, BurstRow>, run: nat)
    requires Advances(first, before, run) && SameRuns(first, before)
    ensures Advances(first, Unqueued(before, run), run)
    ensures SomeNewlyFinal(first, Unqueued(before, run)) <==> SomeNewlyFinal(first, before)
  {
    var after := Unqueued(before, run);
    assert forall u :: u in before ==> Final(after[u].state) == Final(before[u].state);
  }

  lemma RestoredIsUnchanged(row: JoinerRow)
    ensures Restored(row, row) == (if row.state == Banned then row.(attempts := 0) else row)
  {
  }

  /** What one handled account may change, with a joiner row or without. When the row writes
      succeed and nobody else moves the row, it ends kept for good exactly when its claim was
      won and the ban confirmed, and otherwise keeps its state and detail (only the attempt
      counter of a banned row starts again). An administrator is never banned, and a ban
      somebody else placed is never replaced. */
  lemma ResponseBanFrame(joiners: map<int, JoinerRow>, user: int, bot: int, approved: set<int>, live: ChatMember,
                         w: Weather, row: BurstRow, listed: nat)
    ensures var joiner := Lookup(joiners, user);
            var after := JoinersAfter(joiners, user, bot, approved, live, w);
            var verdict := RunVerdict(user, bot, approved, joiner, live, w);
            var bans := BansFor(user, bot, approved, joiner, live, w);
            && after.Keys == joiners.Keys
            && (forall u :: u in joiners && u != user ==> after[u] == joiners[u])
            && (user in joiners && w.claimWrites && w.rival.None? ==>
                  var read := joiners[user];
                  after[user] == if verdict.Hit? && RunClaimable(read.state)
                                 then read.(state := Kept, detail := DETAIL_RESPONSE_BAN)
                                 else if TriesClaim(user, bot, approved, joiner, w) && read.state == Banned
                                 then read.(attempts := 0) else read)
            && (verdict.Hit? ==> bans)
            && (bans ==> live.status !in {Creator, Administrator} && user !in approved && user != bot
                         && (joiner.Some? ==> joiner.value.state != Exempt) && w.reread == Reads(Some(Active))
                         && (live.status == Kicked ==> joiner.Some? && IsLockdownBan(live, joiner.value.banUntil)))
            && (Handled(row, listed, verdict).state == Failed <==> verdict.Miss? && listed + 1 >= MAX_ATTEMPTS)
            && (Handled(row, listed, verdict).state == BannedForGood <==> verdict.Hit?)
  {
    if user in joiners {
      RestoredIsUnchanged(joiners[user]);
    }
  }

  /** Nobody's joiner row is touched for an approved account, the bot itself, a row that could not
      be read, or one in a state the run does not claim. */
  lemma ClaimsOnlyWhatItMay(joiners: map<int, JoinerRow>, user: int, bot: int, approved: set<int>, live: ChatMember,
                            w: Weather)
    requires || user in approved || user == bot || !w.rowReadable || user !in joiners
             || joiners[user].state in {Exempt, Acting, Unbanning, Unbanned, UnbanFailed}
    ensures JoinersAfter(joiners, user, bot, approved, live, w) == joiners
  {
  }

  // One pass over a batch.

  datatype Tables = Tables(
    joiners: map<int, JoinerRow>, bursts: map<int, BurstRow>, runs: map<nat, RunState>, members: map<int, ChatMember>)

  /** One listed account: handled when its claim is won, left alone when it is no longer queued. */
  function HandleOne(t: Tables, row: Listed, bot: int, approved: set<int>, now: Now): Tables
    requires row.user in t.bursts && row.user in t.members
  {
    if !now.claimWrites || t.bursts[row.user].state != Queued then t
    else
      var joiner, live := Lookup(t.joiners, row.user), t.members[row.user];
      var verdict := RunVerdict(row.user, bot, approved, joiner, live, now.weather);
      Tables(JoinersAfter(t.joiners, row.user, bot, approved, live, now.weather),
             t.bursts[row.user := Handled(t.bursts[row.user].(state := InHand), row.attempts, verdict)],
             t.runs,
             if BansFor(row.user, bot, approved, joiner, live, now.weather)
             then t.members[row.user := Forever] else t.members)
  }

  /** Why a pass stopped working through its batch. */
  datatype Halt = Through | Shut | Over

  predicate Listable(t: Tables, batch: seq<Listed>) {
    forall i :: 0 <= i < |batch| ==> batch[i].user in t.bursts && batch[i].user in t.members
  }

  /** The rest of a batch from account `i` on. */
  function Batch(t: Tables, batch: seq<Listed>, accounts: seq<Now>, i: nat, bot: int, approved: set<int>)
    : (Tables, Halt)
    requires Listable(t, batch) && i <= |accounts| == |batch|
    decreases |batch| - i
  {
    if i == |batch| then (t, Through)
    else if accounts[i].shutdown || accounts[i].ld == ReadFails then (t, Shut)
    else if accounts[i].ld != ReadsLd(Some(Active)) then (t, Over)
    else Batch(HandleOne(t, batch[i], bot, approved, accounts[i]), batch, accounts, i + 1, bot, approved)
  }

  function Finished(t: Tables, run: nat, to: RunState): Tables {
    if run in t.runs && t.runs[run] == Running && (to == Done ==> NothingOpen(t.bursts, run))
    then t.(runs := t.runs[run := to]) else t
  }

  function StoppedRun(t: Tables, run: nat, unqueueWrites: bool, finishWrites: bool): Tables {
    if !unqueueWrites then t
    else
      var unqueued := t.(bursts := Unqueued(t.bursts, run));
      if finishWrites then Finished(unqueued, run, Stopped) else unqueued
  }

  /** What one pass leaves of the tables. */
  function AfterPass(t: Tables, run: nat, bot: int, approved: Option<set<int>>, batch: seq<Listed>, d: Day): Tables
    requires Listable(t, batch) && |d.accounts| == |batch|
  {
    if d.start == ReadFails then t
    else if d.start != ReadsLd(Some(Active)) then StoppedRun(t, run, d.unqueueWrites, d.finishWrites)
    else if approved.None? then t
    else
      var worked := Batch(t, batch, d.accounts, 0, bot, approved.value);
      match worked.1
      case Shut => worked.0
      case Over => StoppedRun(worked.0, run, d.unqueueWrites, d.finishWrites)
      case Through => if d.shutdown || !d.finishWrites then worked.0 else Finished(worked.0, run, Done)
  }

  /** Nothing but queued accounts moved, and a run ended done only with nothing open. */
  ghost predicate Orderly(before: Tables, after: Tables, run: nat) {
    && Advances(before.bursts, after.bursts, run)
    && (|| after.runs == before.runs
        || after.runs == before.runs[run := Stopped]
        || (after.runs == before.runs[run := Done] && NothingOpen(after.bursts, run)))
  }

  /** A pass has only advanced the table so far. */
  ghost predicate SoFar(before: Tables, here: Tables, run: nat) {
    here.runs == before.runs && Advances(before.bursts, here.bursts, run) && SameRuns(before.bursts, here.bursts)
  }

  lemma OneMoreHandled(before: Tables, here: Tables, run: nat, row: Listed, bot: int, approved: set<int>, now: Now)
    requires SoFar(before, here, run) && row.user in here.bursts && row.user in here.members
    ensures var next := HandleOne(here, row, bot, approved, now);
            && SoFar(before, next, run)
            && next.bursts.Keys == here.bursts.Keys && next.members.Keys == here.members.Keys
            && (SomeNewlyFinal(before.bursts, next.bursts) <==>
                  SomeNewlyFinal(before.bursts, here.bursts)
                  || (next.bursts != here.bursts && Final(next.bursts[row.user].state)))
  {
    if now.claimWrites && here.bursts[row.user].state == Queued {
      var verdict := RunVerdict(row.user, bot, approved, Lookup(here.joiners, row.user), here.members[row.user],
                                now.weather);
      OneMoreAccount(before.bursts, here.bursts, run, row.user, row.attempts, verdict);
      if HandleOne(here, row, bot, approved, now).bursts == here.bursts {
        assert here.bursts[row.user].state == Queued;
      }
    }
  }

  lemma StoppingIsOrderly(before: Tables, here: Tables, run: nat, unqueueWrites: bool, finishWrites: bool)
    requires SoFar(before, here, run)
    ensures Orderly(before, StoppedRun(here, run, unqueueWrites, finishWrites), run)
    ensures SomeNewlyFinal(before.bursts, StoppedRun(here, run, unqueueWrites, finishWrites).bursts)
            <==> SomeNewlyFinal(before.bursts, here.bursts)
  {
    UnqueueingAdvances(before.bursts, here.bursts, run);
  }

  lemma FinishingIsOrderly(before: Tables, here: Tables, run: nat)
    requires SoFar(before, here, run)
    ensures Orderly(before, Finished(here, run, Done), run) && Orderly(before, here, run)
  {
  }

  lemma {:induction false} BatchAdvances(before: Tables, t: Tables, run: nat, batch: seq<Listed>, accounts: seq<Now>,
                                         i: nat, bot: int, approved: set<int>)
    requires Listable(t, batch) && i <= |accounts| == |batch| && SoFar(before, t, run)
    ensures SoFar(before, Batch(t, batch, accounts, i, bot, approved).0, run)
    decreases |batch| - i
  {
    if i < |batch| && !accounts[i].shutdown && accounts[i].ld == ReadsLd(Some(Active)) {
      OneMoreHandled(before, t, run, batch[i], bot, approved, accounts[i]);
      BatchAdvances(before, HandleOne(t, batch[i], bot, approved, accounts[i]), run, batch, accounts, i + 1, bot,
                    approved);
    }
  }

  lemma WorkIsOrderly(t: Tables, run: nat, bot: int, approved: set<int>, batch: seq<Listed>, d: Day)
    requires Listable(t, batch) && |d.accounts| == |batch| && d.start == ReadsLd(Some(Active))
    ensures Orderly(t, AfterPass(t, run, bot, Some(approved), batch, d), run)
  {
    var worked := Batch(t, batch, d.accounts, 0, bot, approved);
    BatchAdvances(t, t, run, batch, d.accounts, 0, bot, approved);
    match worked.1
    case Over => StoppingIsOrderly(t, worked.0, run, d.unqueueWrites, d.finishWrites);
    case _ => FinishingIsOrderly(t, worked.0, run);
  }

  /** One pass of a run, whatever it meets: each account of the table that was queued stays
      queued, reaches a final state or, when the lockdown is no longer active, goes back to
      unhandled; no other account moves; and a run is done only with nothing open. */
  lemma PassIsOrderly(t: Tables, run: nat, bot: int, approved: Option<set<int>>, batch: seq<Listed>, d: Day)
    requires Listable(t, batch) && |d.accounts| == |batch|
    ensures Orderly(t, AfterPass(t, run, bot, approved, batch, d), run)
  {
    if d.start == ReadFails {
    } else if d.start != ReadsLd(Some(Active)) {
      StoppingIsOrderly(t, t, run, d.unqueueWrites, d.finishWrites);
    } else if approved.Some? {
      WorkIsOrderly(t, run, bot, approved.value, batch, d);
    }
  }

  /** An administrator, an approved account, somebody already banned for good and a joiner the
      lockdown let in keep their status through every pass. */
  lemma {:induction false} PassSparesThem(t: Tables, batch: seq<Listed>, accounts: seq<Now>, i: nat, bot: int,
                                          approved: set<int>, user: int)
    requires Listable(t, batch) && i <= |accounts| == |batch| && user in t.members
    requires || t.members[user].status in {Creator, Administrator} || user in approved || user == bot
             || (t.members[user].status == Kicked && t.members[user].untilDate == 0)
             || (user in t.joiners && t.joiners[user].state == Exempt &&
                 forall k :: i <= k < |accounts| ==> accounts[k].weather.rival.None?)
    ensures user in Batch(t, batch, accounts, i, bot, approved).0.members
    ensures Batch(t, batch, accounts, i, bot, approved).0.members[user] == t.members[user]
    decreases |batch| - i
  {
    if i < |batch| && !accounts[i].shutdown && accounts[i].ld == ReadsLd(Some(Active)) {
      PassSparesThem(HandleOne(t, batch[i], bot, approved, accounts[i]), batch, accounts, i + 1, bot, approved, user);
    }
  }

  // What a pass does to each account.

  /** Whether the account gets as far as the look: nobody let it in or approved it, and its row,
      if it has one that can be claimed, was won. */
  predicate GetsLookedAt(user: int, bot: int, approved: set<int>, joiner: Option<JoinerRow>, w: Weather) {
    && user !in approved && user != bot && w.rowReadable
    && (joiner.Some? ==>
          && joiner.value.state !in {Exempt, Acting, Unbanning}
          && (joiner.value.state in {Unbanned, UnbanFailed}
              || (w.claimWrites && (w.rival.Some? ==> w.rival.value.state == joiner.value.state))))
  }

  /** The verdicts on accounts that are not looked at. */
  lemma VerdictsBeforeTheLook(user: int, bot: int, approved: set<int>, joiner: Option<JoinerRow>, live: ChatMember,
                              w: Weather)
    ensures var v := RunVerdict(user, bot, approved, joiner, live, w);
            && (user in approved ==> v == Skip("approved"))
            && (user !in approved && user == bot ==> v == Skip("bot_self"))
            && (user !in approved && user != bot && w.rowReadable && joiner.Some? && joiner.value.state == Exempt ==>
                  v == Skip("let_in"))
            && (user !in approved && user != bot && !w.rowReadable ==> v == Back)
            && (user !in approved && user != bot && joiner.Some? && joiner.value.state != Exempt ==>
                  GetsLookedAt(user, bot, approved, joiner, w) || v == Back)
    ensures !GetsLookedAt(user, bot, approved, joiner, w) ==> !BansFor(user, bot, approved, joiner, live, w)
  {
    if joiner.Some? {
      TakenBackExactly(joiner.value.state);
    }
  }

  /** Whom the run may ban, with the end date of the lockdown's own ban. */
  predicate Bannable(joiner: Option<JoinerRow>, live: ChatMember) {
    || live.status in {Member, Restricted, Left}
    || (live.status == Kicked && joiner.Some? && live.untilDate != 0 && joiner.value.banUntil != 0
        && joiner.value.banUntil - 2 <= live.untilDate <= joiner.value.banUntil + 2)
  }

  /** The verdicts on accounts that are looked at, and when a ban takes effect. */
  lemma VerdictsAfterTheLook(user: int, bot: int, approved: set<int>, joiner: Option<JoinerRow>, live: ChatMember,
                             w: Weather)
    requires GetsLookedAt(user, bot, approved, joiner, w)
    ensures var v := RunVerdict(user, bot, approved, joiner, live, w);
            && (w.look == CallRetryFree ==> v == Back)
            && (w.look.CallFailed? ==> v == Miss(w.look.detail))
            && (w.look == CallDone && !Bannable(joiner, live) ==>
                  v == Skip(if live.status == Kicked then "already_banned" else "admin"))
            && (w.look == CallDone && Bannable(joiner, live) ==>
                  match w.reread
                  case Unreadable(CallRetryFree) => v == Back
                  case Unreadable(CallFailed(detail)) => v == Miss(detail)
                  case Unreadable(CallDone) => true
                  case Reads(ld) =>
                    if ld != Some(Active) then v == Back
                    else
                      match w.ban
                      case CallDone => v == Hit(if joiner.Some? && joiner.value.request then "request" else "")
                      case CallRetryFree => v == Back
                      case CallFailed(detail) => v == Miss(detail))
    ensures BansFor(user, bot, approved, joiner, live, w) <==>
            w.look == CallDone && Bannable(joiner, live) && w.reread == Reads(Some(Active))
            && (w.ban == CallDone || w.lands)
  {
    RunBansExactly(live, BanUntilOf(joiner));
    if joiner.Some? {
      TakenBackExactly(joiner.value.state);
    }
  }

  /** Nothing about the account differs between the two tables. */
  predicate Agree(s: Tables, t: Tables, user: int) {
    && user in s.bursts && user in t.bursts && s.bursts[user] == t.bursts[user]
    && user in s.members && user in t.members && s.members[user] == t.members[user]
    && Lookup(s.joiners, user) == Lookup(t.joiners, user)
  }

  lemma HandlingIsLocal(t: Tables, row: Listed, bot: int, approved: set<int>, now: Now, user: int)
    requires row.user in t.bursts && row.user in t.members && user in t.bursts && user in t.members && user != row.user
    ensures Agree(HandleOne(t, row, bot, approved, now), t, user)
  {
  }

  lemma HandlingLooksAtItsOwn(s: Tables, t: Tables, row: Listed, bot: int, approved: set<int>, now: Now)
    requires Agree(s, t, row.user)
    ensures Agree(HandleOne(s, row, bot, approved, now), HandleOne(t, row, bot, approved, now), row.user)
  {
  }

  predicate Distinct(batch: seq<Listed>) {
    forall i, j :: 0 <= i < j < |batch| ==> batch[i].user != batch[j].user
  }

  /** The batch goes on at this account. */
  predicate GoesOn(now: Now) {
    !now.shutdown && now.ld == ReadsLd(Some(Active))
  }

  /** A batch leaves alone whom it does not get to. */
  lemma {:induction false} BatchLeavesAlone(t: Tables, batch: seq<Listed>, accounts: seq<Now>, i: nat, bot: int,
                                            approved: set<int>, user: int)
    requires Listable(t, batch) && i <= |accounts| == |batch| && user in t.bursts && user in t.members
    requires forall k :: i <= k < |batch| && batch[k].user == user ==>
               exists h :: i <= h <= k && !GoesOn(accounts[h])
    ensures Agree(Batch(t, batch, accounts, i, bot, approved).0, t, user)
    decreases |batch| - i
  {
    if i < |batch| && GoesOn(accounts[i]) {
      assert batch[i].user != user;
      HandlingIsLocal(t, batch[i], bot, approved, accounts[i], user);
      BatchLeavesAlone(HandleOne(t, batch[i], bot, approved, accounts[i]), batch, accounts, i + 1, bot, approved, user);
    }
  }

  /** A batch handles every account it gets to exactly once, as it found it. */
  lemma {:induction false} BatchHandles(t: Tables, batch: seq<Listed>, accounts: seq<Now>, i: nat, bot: int,
                                        approved: set<int>, k: nat)
    requires Listable(t, batch) && i <= k < |accounts| == |batch| && Distinct(batch)
    requires forall j :: i <= j <= k ==> GoesOn(accounts[j])
    ensures Agree(Batch(t, batch, accounts, i, bot, approved).0, HandleOne(t, batch[k], bot, approved, accounts[k]),
                  batch[k].user)
    decreases |batch| - i
  {
    var first := HandleOne(t, batch[i], bot, approved, accounts[i]);
    if i == k {
      BatchLeavesAlone(first, batch, accounts, i + 1, bot, approved, batch[k].user);
    } else {
      HandlingIsLocal(t, batch[i], bot, approved, accounts[i], batch[k].user);
      BatchHandles(first, batch, accounts, i + 1, bot, approved, k);
      HandlingLooksAtItsOwn(first, t, batch[k], bot, approved, accounts[k]);
    }
  }

  /** The account's place in a batch that gets to it and claims it. */
  predicate IsHandled(t: Tables, batch: seq<Listed>, accounts: seq<Now>, k: nat) {
    && Listable(t, batch) && k < |accounts| == |batch| && Distinct(batch)
    && (forall j :: 0 <= j <= k ==> GoesOn(accounts[j]))
    && accounts[k].claimWrites && t.bursts[batch[k].user].state == Queued
  }

  /** A pass bans a plain member with no end date, and that is progress. */
  lemma PassBans(t: Tables, batch: seq<Listed>, accounts: seq<Now>, k: nat, bot: int, approved: set<int>)
    requires IsHandled(t, batch, accounts, k)
    requires var user, w := batch[k].user, accounts[k].weather;
             && user !in approved && user != bot && user !in t.joiners
             && t.members[user].status in {Member, Restricted, Left}
             && w.rowReadable && w.look == CallDone && w.reread == Reads(Some(Active)) && w.ban == CallDone
    ensures var user, after := batch[k].user, Batch(t, batch, accounts, 0, bot, approved).0;
            && user in after.bursts && user in after.members
            && after.bursts[user] == t.bursts[user].(state := BannedForGood, reason := "", detail := "")
            && after.members[user] == ChatMember(Kicked, 0)
            && SomeNewlyFinal(t.bursts, after.bursts)
  {
    var user, w := batch[k].user, accounts[k].weather;
    BatchHandles(t, batch, accounts, 0, bot, approved, k);
    VerdictsAfterTheLook(user, bot, approved, None, t.members[user], w);
    HandledRow(t.bursts[user].(state := InHand), batch[k].attempts, Hit(""));
  }

  /** A pass skips approved accounts, the bot, joiners that were let in, administrators and people
      somebody else banned, and leaves their status alone. */
  lemma PassSkips(t: Tables, batch: seq<Listed>, accounts: seq<Now>, k: nat, bot: int, approved: set<int>)
    requires IsHandled(t, batch, accounts, k)
    requires var user, w := batch[k].user, accounts[k].weather;
             || user in approved || user == bot
             || (w.rowReadable && user in t.joiners && t.joiners[user].state == Exempt)
             || (w.rowReadable && user !in t.joiners && w.look == CallDone
                 && t.members[user].status in {Creator, Administrator, Kicked})
    ensures var user, after := batch[k].user, Batch(t, batch, accounts, 0, bot, approved).0;
            && user in after.bursts && user in after.members
            && after.bursts[user].state == Skipped && after.bursts[user].attempts == t.bursts[user].attempts
            && after.members[user] == t.members[user]
  {
    var user, w := batch[k].user, accounts[k].weather;
    var joiner := Lookup(t.joiners, user);
    BatchHandles(t, batch, accounts, 0, bot, approved, k);
    VerdictsBeforeTheLook(user, bot, approved, joiner, t.members[user], w);
    if GetsLookedAt(user, bot, approved, joiner, w) {
      VerdictsAfterTheLook(user, bot, approved, joiner, t.members[user], w);
    }
  }

  /** A refused ban costs an account without a row one attempt, the third of them final; a rate
      limit and a lockdown that is over cost none. Nobody is banned by them. */
  lemma PassTriesAgain(t: Tables, batch: seq<Listed>, accounts: seq<Now>, k: nat, bot: int, approved: set<int>)
    requires IsHandled(t, batch, accounts, k)
    requires var user, w := batch[k].user, accounts[k].weather;
             && user !in approved && user != bot && user !in t.joiners
             && t.members[user].status in {Member, Restricted, Left}
             && w.rowReadable && w.look == CallDone && w.reread.Reads? && w.ban != CallDone && !w.lands
    ensures var user, w, after := batch[k].user, accounts[k].weather, Batch(t, batch, accounts, 0, bot, approved).0;
            && user in after.bursts && user in after.members && after.members[user] == t.members[user]
            && after.bursts[user] ==
                 (if w.reread.ld != Some(Active) || w.ban == CallRetryFree
                  then t.bursts[user].(reason := "", detail := "")
                  else t.bursts[user].(state := if batch[k].attempts >= 2 then Failed else Queued, reason := "",
                                       detail := w.ban.detail, attempts := t.bursts[user].attempts + 1))
  {
    var user, w := batch[k].user, accounts[k].weather;
    BatchHandles(t, batch, accounts, 0, bot, approved, k);
    VerdictsAfterTheLook(user, bot, approved, None, t.members[user], w);
  }

  /** An account whose claim is not won, or that comes after a shutdown, a failed read or the end
      of the lockdown, is not touched. */
  lemma PassLeavesAlone(t: Tables, batch: seq<Listed>, accounts: seq<Now>, k: nat, bot: int, approved: set<int>)
    requires Listable(t, batch) && k < |accounts| == |batch| && Distinct(batch)
    requires || (exists h :: 0 <= h <= k && !GoesOn(accounts[h]))
             || !accounts[k].claimWrites || t.bursts[batch[k].user].state != Queued
    ensures Agree(Batch(t, batch, accounts, 0, bot, approved).0, t, batch[k].user)
  {
    if forall j :: 0 <= j <= k ==> GoesOn(accounts[j]) {
      BatchHandles(t, batch, accounts, 0, bot, approved, k);
    } else {
      BatchLeavesAlone(t, batch, accounts, 0, bot, approved, batch[k].user);
    }
  }

  /** Where a batch stops. */
  lemma {:induction false} BatchHalts(t: Tables, batch: seq<Listed>, accounts: seq<Now>, i: nat, bot: int,
                                      approved: set<int>, h: nat)
    requires Listable(t, batch) && i <= h <= |accounts| == |batch|
    requires (forall j :: i <= j < h ==> GoesOn(accounts[j])) && (h < |batch| ==> !GoesOn(accounts[h]))
    ensures Batch(t, batch, accounts, i, bot, approved).1 ==
            if h == |batch| then Through
            else if accounts[h].shutdown || accounts[h].ld == ReadFails then Shut else Over
    decreases |batch| - i
  {
    if i < h {
      BatchHalts(HandleOne(t, batch[i], bot, approved, accounts[i]), batch, accounts, i + 1, bot, approved, h);
    }
  }

  /** The run is stopped, and whoever was still queued is not handled any more. */
  ghost predicate IsStopped(before: Tables, after: Tables, run: nat) {
    && after.runs == before.runs[run := Stopped]
    && after.members == before.members && after.joiners == before.joiners && after.bursts.Keys == before.bursts.Keys
    && forall u :: u in before.bursts ==>
         after.bursts[u] == if before.bursts[u].run == Some(run) && before.bursts[u].state == Queued
                            then before.bursts[u].(state := NoRun, run := None) else before.bursts[u]
  }

  /** How a pass ends, when its run is still running and every write succeeds: a failed read and a
      shutdown leave everything for the next pass, a lockdown that is not active stops the run,
      and a batch that is through ends it as done exactly when no account is open. */
  lemma PassEnds(t: Tables, run: nat, bot: int, approved: Option<set<int>>, batch: seq<Listed>, d: Day)
    requires Listable(t, batch) && |d.accounts| == |batch| && run in t.runs && t.runs[run] == Running
    requires d.unqueueWrites && d.finishWrites
    ensures var after := AfterPass(t, run, bot, approved, batch, d);
            && (d.start == ReadFails ==> after == t)
            && (d.start != ReadFails && d.start != ReadsLd(Some(Active)) ==> IsStopped(t, after, run))
            && (d.start == ReadsLd(Some(Active)) && approved.None? ==> after == t)
    ensures d.start == ReadsLd(Some(Active)) && approved.Some? ==>
              var after := AfterPass(t, run, bot, approved, batch, d);
              var worked := Batch(t, batch, d.accounts, 0, bot, approved.value);
              && (worked.1 == Shut ==> after == worked.0)
              && (worked.1 == Over ==> IsStopped(worked.0, after, run))
              && (worked.1 == Through ==>
                    if !d.shutdown && (forall u :: u in worked.0.bursts && worked.0.bursts[u].run == Some(run) ==>
                                         worked.0.bursts[u].state !in {Queued, InHand})
                    then after == worked.0.(runs := worked.0.runs[run := Done]) else after == worked.0)
  {
    if d.start == ReadsLd(Some(Active)) && approved.Some? {
      BatchKeepsRuns(t, batch, d.accounts, 0, bot, approved.value);
    }
  }

  /** A run that has ended is ended by no later pass, and no pass ends another run. */
  lemma RunsEndOnce(t: Tables, run: nat, bot: int, approved: Option<set<int>>, batch: seq<Listed>, d: Day, other: nat)
    requires Listable(t, batch) && |d.accounts| == |batch| && other in t.runs
    requires other != run || t.runs[other] != Running
    ensures var after := AfterPass(t, run, bot, approved, batch, d).runs;
            other in after && after[other] == t.runs[other]
  {
    if d.start == ReadsLd(Some(Active)) && approved.Some? {
      BatchKeepsRuns(t, batch, d.accounts, 0, bot, approved.value);
    }
  }

  lemma {:induction false} BatchKeepsRuns(t: Tables, batch: seq<Listed>, accounts: seq<Now>, i: nat, bot: int,
                                          approved: set<int>)
    requires Listable(t, batch) && i <= |accounts| == |batch|
    ensures Batch(t, batch, accounts, i, bot, approved).0.runs == t.runs
    decreases |batch| - i
  {
    if i < |batch| && GoesOn(accounts[i]) {
      BatchKeepsRuns(HandleOne(t, batch[i], bot, approved, accounts[i]), batch, accounts, i + 1, bot, approved);
    }
  }

  /** A pass in which some write of its end fails leaves the run running. */
  lemma FailedEndKeepsRunning(t: Tables, run: nat, bot: int, approved: Option<set<int>>, batch: seq<Listed>, d: Day)
    requires Listable(t, batch) && |d.accounts| == |batch| && !d.finishWrites
    ensures AfterPass(t, run, bot, approved, batch, d).runs == t.runs
    ensures d.start != ReadFails && d.start != ReadsLd(Some(Active)) && !d.unqueueWrites ==>
              AfterPass(t, run, bot, approved, batch, d) == t
  {
    if d.start == ReadsLd(Some(Active)) && approved.Some? {
      BatchKeepsRuns(t, batch, d.accounts, 0, bot, approved.value);
    }
  }

  /** A joiner row whose claim was lost is as the rival left it. */
  lemma LostClaimLeavesRow(joiners: map<int, JoinerRow>, user: int, bot: int, approved: set<int>, live: ChatMember,
                           w: Weather)
    requires user in joiners && user !in approved && user != bot && w.rowReadable && RunClaimable(joiners[user].state)
    requires w.rival.Some? && (!w.claimWrites || w.rival.value.state != joiners[user].state)
    ensures JoinersAfter(joiners, user, bot, approved, live, w) == joiners[user := w.rival.value]
  {
  }

  class Store {
    var joiners: map<int, JoinerRow>
    var bursts: map<int, BurstRow>
    var runs: map<nat, RunState>
    var members: map<int, ChatMember>

    constructor (bursts: map<int, BurstRow>, runs: map<nat, RunState>, members: map<int, ChatMember>)
      ensures this.joiners == map[] && this.bursts == bursts && this.runs == runs && this.members == members
    {
      this.joiners := map[];
      this.bursts, this.runs, this.members := bursts, runs, members;
    }

    function Snapshot(): Tables
      reads this
    {
      Tables(joiners, bursts, runs, members)
    }

    method ClaimJoiner(user: int, from: JoinerState, to: JoinerState) returns (won: bool)
      modifies this`joiners
      ensures won <==> user in old(joiners) && old(joiners)[user].state == from
      ensures joiners == if won then old(joiners)[user := old(joiners)[user].(state := to)] else old(joiners)
    {
      won := user in joiners && joiners[user].state == from;
      if won {
        joiners := joiners[user := joiners[user].(state := to)];
      }
    }

    method MoveJoiner(user: int, from: JoinerState, to: JoinerState, detail: string, countAttempt: bool)
      returns (moved: bool)
      modifies this`joiners
      ensures moved <==> user in old(joiners) && old(joiners)[user].state == from
      ensures joiners == if moved then old(joiners)[user := Moved(old(joiners)[user], to, detail, countAttempt)]
                         else old(joiners)
    {
      moved := user in joiners && joiners[user].state == from;
      if moved {
        joiners := joiners[user := Moved(joiners[user], to, detail, countAttempt)];
      }
    }

    method ClaimBurst(user: int, from: BurstState, to: BurstState) returns (won: bool)
      modifies this`bursts
      ensures won <==> user in old(bursts) && old(bursts)[user].state == from
      ensures bursts == if won then old(bursts)[user := old(bursts)[user].(state := to)] else old(bursts)
    {
      won := user in bursts && bursts[user].state == from;
      if won {
        bursts := bursts[user := bursts[user].(state := to)];
      }
    }

    method MoveBurst(user: int, from: BurstState, to: BurstState, reason: string, detail: string, countAttempt: bool)
      modifies this`bursts
      ensures bursts == if user in old(bursts) && old(bursts)[user].state == from
                        then old(bursts)[user := MovedBurst(old(bursts)[user], to, reason, detail, countAttempt)]
                        else old(bursts)
    {
      if user in bursts && bursts[user].state == from {
        bursts := bursts[user := MovedBurst(bursts[user], to, reason, detail, countAttempt)];
      }
    }

    /** The paced unit: the live look, the re-read of the lockdown and the ban call. */
    method PacedUnit(user: int, banUntil: int, w: Weather) returns (unit: Unit)
      requires user in members
      modifies this`members
      ensures unit == UnitResult(old(members)[user], banUntil, w)
      ensures unit.ban <==> w.look == CallDone && ResponseBans(old(members)[user], banUntil)
                            && (w.reread.Unreadable? || w.reread == Reads(Some(Active)))
      ensures unit.ended <==> w.look == CallDone && ResponseBans(old(members)[user], banUntil)
                              && w.reread.Reads? && w.reread.ld != Some(Active)
      ensures members == if SendsBan(old(members)[user], banUntil, w) && (w.ban == CallDone || w.lands)
                         then old(members)[user := Forever] else old(members)
    {
      if w.look != CallDone {
        return Unit(w.look, false, false);
      }
      if !ResponseBans(members[user], banUntil) {
        return Unit(CallDone, false, false);
      }
      match w.reread {
        case Unreadable(why) => return Unit(why, true, false);
        case Reads(current) =>
          if current != Some(Active) {
            return Unit(CallDone, false, true);
          }
      }
      if w.ban == CallDone || w.lands {
        members := members[user := Forever];
      }
      return Unit(w.ban, true, false);
    }

    /** The claim of the joiner row, after whatever another caller did to it meanwhile. */
    method ClaimForBan(user: int, read: JoinerRow, w: Weather) returns (claimed: bool)
      requires user in joiners && joiners[user] == read && RunClaimable(read.state)
      modifies this`joiners
      ensures claimed == WinsClaim(read, w)
      ensures joiners == old(joiners)[user := if claimed then AtClaim(read, w).(state := Acting) else AtClaim(read, w)]
    {
      claimed := false;
      if w.rival.Some? {
        joiners := joiners[user := w.rival.value];
      }
      if w.claimWrites {
        claimed := ClaimJoiner(user, read.state, Acting);
      }
    }

    /** The end of a claim: kept after a confirmed ban, otherwise back where it came from. */
    method ReturnRow(user: int, read: JoinerRow, hit: bool)
      requires user in joiners && joiners[user].state == Acting
      modifies this`joiners
      ensures joiners == old(joiners)[user := if hit
                                      then old(joiners)[user].(state := Kept, detail := DETAIL_RESPONSE_BAN)
                                              else Restored(read, old(joiners)[user])]
    {
      if hit {
        var _ := MoveJoiner(user, Acting, Kept, DETAIL_RESPONSE_BAN, false);
      } else {
        var _ := MoveJoiner(user, Acting, read.state, read.detail, false);
      }
    }

    /** Everything before the paced unit: the accounts that are skipped with a call to
        nothing, the fresh joiner row and its claim. A refusal is the verdict of an account
        that goes no further. */
    method Admit(user: int, bot: int, approved: set<int>, w: Weather)
      returns (refusal: Option<Verdict>, joiner: Option<JoinerRow>, claimed: bool)
      modifies this`joiners
      ensures joiner == Lookup(old(joiners), user)
      ensures refusal.None? <==> ReachesUnit(user, bot, approved, joiner, w)
      ensures refusal.Some? ==> forall live :: refusal.value == RunVerdict(user, bot, approved, joiner, live, w)
      ensures claimed <==> refusal.None? && joiner.Some? && WinsClaim(joiner.value, w)
      ensures joiners == if !TriesClaim(user, bot, approved, joiner, w) then old(joiners)
                         else if claimed then old(joiners)[user := AtClaim(joiner.value, w).(state := Acting)]
                         else old(joiners)[user := AtClaim(joiner.value, w)]
    {
      joiner, claimed := Lookup(joiners, user), false;
      if user in approved {
        return Some(Skip(SKIP_APPROVED)), joiner, false;
      }
      if user == bot {
        return Some(Skip(SKIP_SELF)), joiner, false;
      }
      if !w.rowReadable {
        return Some(Back), joiner, false;
      }
      if joiner.Some? {
        if joiner.value.state == Exempt {
          return Some(Skip(SKIP_LET_IN)), joiner, false;
        } else if joiner.value.state == Acting || joiner.value.state == Unbanning {
          return Some(Back), joiner, false;
        } else if RunClaimable(joiner.value.state) {
          claimed := ClaimForBan(user, joiner.value, w);
          if !claimed {
            return Some(Back), joiner, false;
          }
        }
      }
      refusal := None;
    }

    /** Writes the outcome to the burst row and says whether it is final. */
    method Settle(user: int, listed: nat, verdict: Verdict) returns (final: bool)
      requires user in bursts && bursts[user].state == InHand
      modifies this`bursts
      ensures bursts == old(bursts)[user := Handled(old(bursts)[user], listed, verdict)]
      ensures final == Final(bursts[user].state)
    {
      match verdict {
        case Hit(reason) =>
          MoveBurst(user, InHand, BannedForGood, reason, "", false);
          return true;
        case Skip(reason) =>
          MoveBurst(user, InHand, Skipped, reason, "", false);
          return true;
        case Back =>
          MoveBurst(user, InHand, Queued, "", "", false);
          return false;
        case Miss(detail) =>
          if listed + 1 >= MAX_ATTEMPTS {
            MoveBurst(user, InHand, Failed, "", detail, true);
            return true;
          }
          MoveBurst(user, InHand, Queued, "", detail, true);
          return false;
      }
    }

    /** Decides and bans one account whose burst row this call holds. It returns true exactly
        when the burst row reached a final state. */
    method BanOne(user: int, listed: nat, bot: int, approved: set<int>, w: Weather) returns (final: bool)
      requires user in bursts && bursts[user].state == InHand
      requires user in members
      modifies this`joiners, this`bursts, this`members
      ensures bursts == old(bursts)[user := Handled(old(bursts)[user], listed,
                RunVerdict(user, bot, approved, Lookup(old(joiners), user), old(members)[user], w))]
      ensures final == Final(bursts[user].state)
      ensures members == if BansFor(user, bot, approved, Lookup(old(joiners), user), old(members)[user], w)
                         then old(members)[user := Forever] else old(members)
      ensures joiners == JoinersAfter(old(joiners), user, bot, approved, old(members)[user], w)
    {
      var refusal, joiner, claimed := Admit(user, bot, approved, w);
      if refusal.Some? {
        final := Settle(user, listed, refusal.value);
        return;
      }
      var skip := SkipReason(members[user]);
      var unit := PacedUnit(user, BanUntilOf(joiner), w);
      var verdict := UnitVerdict(unit, joiner.Some? && joiner.value.request, skip);
      if claimed && !verdict.Hit? {
        ReturnRow(user, joiner.value, false);
      }
      final := Settle(user, listed, verdict);
      if claimed && verdict.Hit? {
        ReturnRow(user, joiner.value, true);
      }
    }

    method UnqueueBanRun(run: nat)
      modifies this`bursts
      ensures bursts == Unqueued(old(bursts), run)
    {
      bursts := Unqueued(bursts, run);
    }

    method FinishBanRun(run: nat, to: RunState) returns (finished: bool)
      requires to in {Done, Stopped}
      modifies this`runs
      ensures Snapshot() == Finished(old(Snapshot()), run, to)
      ensures finished <==> runs != old(runs)
      ensures finished <==>
                && run in old(runs) && old(runs)[run] == Running
                && (to == Done ==> forall u :: u in bursts && bursts[u].run == Some(run) ==>
                                     bursts[u].state !in {Queued, InHand})
    {
      finished := run in runs && runs[run] == Running && (to != Done || NothingOpen(bursts, run));
      if finished {
        runs := runs[run := to];
      }
    }

    /** Ends a run whose lockdown is no longer active. */
    method StopBanRun(run: nat, unqueueWrites: bool, finishWrites: bool) returns (stopped: bool)
      modifies this`bursts, this`runs
      ensures Snapshot() == StoppedRun(old(Snapshot()), run, unqueueWrites, finishWrites)
      ensures stopped <==> runs != old(runs)
    {
      if !unqueueWrites {
        return false;
      }
      UnqueueBanRun(run);
      if !finishWrites {
        return false;
      }
      stopped := FinishBanRun(run, Stopped);
    }

    /** Claims one listed account and handles it. */
    method HandleQueued(row: Listed, bot: int, approved: set<int>, now: Now) returns (final: bool)
      requires row.user in bursts && row.user in members
      modifies this`joiners, this`bursts, this`members
      ensures Snapshot() == HandleOne(old(Snapshot()), row, bot, approved, now)
      ensures final <==> bursts != old(bursts) && Final(bursts[row.user].state)
    {
      var won := false;
      if now.claimWrites {
        won := ClaimBurst(row.user, Queued, InHand);
      }
      if !won {
        return false;
      }
      final := BanOne(row.user, row.attempts, bot, approved, now.weather);
      assert bursts == HandleOne(old(Snapshot()), row, bot, approved, now).bursts;
    }

    /** Works through a batch, until it is through, the bot shuts down or the lockdown is over. */
    method WorkThrough(run: nat, bot: int, approved: set<int>, batch: seq<Listed>, accounts: seq<Now>)
      returns (progress: bool, halt: Halt)
      requires |accounts| == |batch| && Listable(Snapshot(), batch)
      modifies this`joiners, this`bursts, this`members
      ensures (Snapshot(), halt) == Batch(old(Snapshot()), batch, accounts, 0, bot, approved)
      ensures SoFar(old(Snapshot()), Snapshot(), run)
      ensures progress <==> SomeNewlyFinal(old(bursts), bursts)
    {
      ghost var before := Snapshot();
      progress := false;
      for i := 0 to |batch|
        invariant SoFar(before, Snapshot(), run) && Listable(Snapshot(), batch)
        invariant progress <==> SomeNewlyFinal(before.bursts, bursts)
        invariant Batch(before, batch, accounts, 0, bot, approved)
                  == Batch(Snapshot(), batch, accounts, i, bot, approved)
      {
        var now := accounts[i];
        if now.shutdown || now.ld == ReadFails {
          return progress, Shut;
        }
        if now.ld != ReadsLd(Some(Active)) {
          return progress, Over;
        }
        OneMoreHandled(before, Snapshot(), run, batch[i], bot, approved, now);
        var final := HandleQueued(batch[i], bot, approved, now);
        progress := progress || final;
      }
      halt := Through;
    }

    /** Advances a ban run by one batch, and reports progress exactly when an account reached
        a final state or the run ended. */
    method ProcessBanRun(run: nat, bot: int, approved: Option<set<int>>, batch: seq<Listed>, d: Day)
      returns (progress: bool)
      requires |d.accounts| == |batch| && Listable(Snapshot(), batch)
      modifies this
      ensures Snapshot() == AfterPass(old(Snapshot()), run, bot, approved, batch, d)
      ensures progress <==> SomeNewlyFinal(old(bursts), bursts) || runs != old(runs)
    {
      ghost var before := Snapshot();
      match d.start {
        case ReadFails => return false;
        case ReadsLd(ld) =>
          if ld != Some(Active) {
            StoppingIsOrderly(before, before, run, d.unqueueWrites, d.finishWrites);
            progress := StopBanRun(run, d.unqueueWrites, d.finishWrites);
            return;
          }
      }
      if approved.None? {
        return false;
      }
      var halt;
      progress, halt := WorkThrough(run, bot, approved.value, batch, d.accounts);
      match halt {
        case Shut => return;
        case Over =>
          StoppingIsOrderly(before, Snapshot(), run, d.unqueueWrites, d.finishWrites);
          var stopped := StopBanRun(run, d.unqueueWrites, d.finishWrites);
          progress := stopped || progress;
        case Through =>
          if d.shutdown || !d.finishWrites {
            return;
          }
          var finished := FinishBanRun(run, Done);
          progress := progress || finished;
      }
    }
  }
}
