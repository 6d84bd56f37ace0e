/** The join guard's policy: who is let into a locked group, and how one join is recorded when
    its row may already exist, when other deliveries and replicas race for it and when the
    store or the lockdown changes under the call. */
module LockdownGuard {
  import opened Wrappers
  import opened LockdownRows

  datatype Path = ByMember | ByService | ByRequest

  datatype Verdict = Ignore | LetStay | Ban | Decline

  /** `performerStatus` is the performer's live status, None when it could not be read. */
  datatype JoinInput = JoinInput(
    path: Path, performer: int, member: int, memberIsBot: bool, bot: int,
    anonymousAdmin: bool, performerStatus: Option<Status>)

  predicate IsLiveAdmin(s: Option<Status>) {
    s == Some(Creator) || s == Some(Administrator)
  }

  function DecideJoin(j: JoinInput): Verdict {
    if j.member == j.bot then Ignore
    else if j.path == ByRequest then Decline
    else if j.memberIsBot then Ban
    else if j.performer == j.member then Ban
    else if j.performer == j.bot then Ban
    else if j.anonymousAdmin then LetStay
    else if IsLiveAdmin(j.performerStatus) then LetStay
    else Ban
  }

  predicate NeedsPerformerLookup(j: JoinInput) {
    && j.member != j.bot && j.path != ByRequest && !j.memberIsBot
    && j.performer != j.member && j.performer != j.bot && !j.anonymousAdmin
  }

  /** The guard asks Telegram about the performer exactly when the answer can change the
      verdict, and an unanswered question never lets anybody in. */
  lemma LookupExactlyWhenItMatters(j: JoinInput)
    ensures NeedsPerformerLookup(j) <==>
            exists s, t :: DecideJoin(j.(performerStatus := s)) != DecideJoin(j.(performerStatus := t))
    ensures NeedsPerformerLookup(j) ==> DecideJoin(j.(performerStatus := None)) == Ban
    ensures DecideJoin(j) == LetStay ==>
              j.performer !in {j.member, j.bot} && (j.anonymousAdmin || IsLiveAdmin(j.performerStatus))
  {
    if NeedsPerformerLookup(j) {
      assert DecideJoin(j.(performerStatus := Some(Creator))) != DecideJoin(j.(performerStatus := None));
    }
  }

  /** The whole policy: the bot itself is ignored, requests are declined, and only somebody whom
      a live administrator, named or anonymous, adds as another person stays. */
  lemma PolicyExactly(j: JoinInput)
    ensures DecideJoin(j) == Ignore <==> j.member == j.bot
    ensures DecideJoin(j) == Decline <==> j.member != j.bot && j.path == ByRequest
    ensures DecideJoin(j) == LetStay <==>
            && j.member != j.bot && j.path in {ByMember, ByService} && !j.memberIsBot
            && j.performer != j.member && j.performer != j.bot
            && (j.anonymousAdmin || j.performerStatus in {Some(Creator), Some(Administrator)})
  {
  }

  // Recording one join.

  /** A joiner row as the insert found it. */
  datatype Found = Found(state: JoinerState, request: bool, updatedAt: int)

  datatype Insert = InsertFails | Inserted | Exists(row: Found)
  datatype Update = UpdateFails | UpdateWins | UpdateLoses
  datatype Reread = RereadFails | RereadActive | RereadOver

  /** What one look at the row meets: the clock, the insert, the one conditional update the
      look may make, the re-read after a pending row was written and the withdrawal. */
  datatype Look = Look(now: int, insert: Insert, update: Update, reread: Reread, withdraw: Update)

  /** The row writes a look makes. */
  datatype Write =
    | Insertion(to: JoinerState) | Reclaimed(to: JoinerState) | MadeExempt | Deletion | Cancellation | JoinMessage

  /** How one look ended: the joiner is let in or not, or the look lost a race for the row. */
  datatype Outcome = Decided(letIn: bool, writes: seq<Write>) | LookAgain

  const DEDUPE_WINDOW := 20
  const LOOKS := 3

  predicate FreshRow(row: Found, now: int) {
    row.updatedAt >= now - DEDUPE_WINDOW
  }

  /** A pending row was written: the lockdown holds the joiner unless it is over by now. */
  function PendingHeld(look: Look, reclaimed: bool, writes: seq<Write>): (o: Outcome)
    ensures o.Decided?
  {
    if look.reread == RereadOver
    then Decided(true, if look.withdraw == UpdateWins
                       then writes + [if reclaimed then Cancellation else Deletion] else writes)
    else Decided(false, writes)
  }

  function StateFor(verdict: Verdict): JoinerState {
    if verdict == LetStay then Exempt else Pending
  }

  function ReclaimRow(look: Look, verdict: Verdict): Outcome {
    match look.update
    case UpdateFails => Decided(true, [])
    case UpdateLoses => LookAgain
    case UpdateWins =>
      var wrote := [Reclaimed(StateFor(verdict))];
      if verdict == LetStay then Decided(true, wrote) else PendingHeld(look, true, wrote)
  }

  /** A join whose row already exists, decided from the row alone. */
  function ExistingJoin(row: Found, look: Look, path: Path, verdict: Verdict, hasMessage: bool): Outcome {
    if row.request && path != ByRequest && Reclaimable(row.state) then ReclaimRow(look, verdict)
    else if row.state == Exempt && FreshRow(row, look.now) then Decided(true, [])
    else if path == ByMember && verdict == LetStay && row.state == Pending then
      (if look.update == UpdateWins then Decided(true, [MadeExempt]) else Decided(false, []))
    else if FreshRow(row, look.now) || !Reclaimable(row.state) then
      Decided(false, if row.state in {Pending, Acting, Banned} && hasMessage then [JoinMessage] else [])
    else ReclaimRow(look, verdict)
  }

  function OneLook(look: Look, path: Path, verdict: Verdict, hasMessage: bool): Outcome {
    match look.insert
    case InsertFails => Decided(true, [])
    case Inserted =>
      var wrote := [Insertion(StateFor(verdict))];
      if verdict == LetStay then Decided(true, wrote) else PendingHeld(look, false, wrote)
    case Exists(row) => ExistingJoin(row, look, path, verdict, hasMessage)
  }

  /** The reasons a joiner the policy bans may be let in all the same. */
  predicate StoreFailed(look: Look, path: Path) {
    || look.insert == InsertFails
    || (look.insert.Exists? && TriesReclaim(look, path) && look.update == UpdateFails)
  }

  /** The look would take a finished row back: it came from a join request, or it last changed
      before the dedupe window. */
  predicate TriesReclaim(look: Look, path: Path) {
    look.insert.Exists? && Reclaimable(look.insert.row.state) &&
    ((look.insert.row.request && path != ByRequest) || !FreshRow(look.insert.row, look.now))
  }

  predicate WrotePending(look: Look, path: Path) {
    look.insert == Inserted || (TriesReclaim(look, path) && look.update == UpdateWins)
  }

  predicate ExemptAgain(look: Look, path: Path) {
    && look.insert.Exists? && look.insert.row.state == Exempt && FreshRow(look.insert.row, look.now)
    && !(look.insert.row.request && path != ByRequest)
  }

  predicate LostRace(look: Look, path: Path) {
    TriesReclaim(look, path) && look.update == UpdateLoses
  }

  predicate LetsBannedIn(look: Look, path: Path) {
    StoreFailed(look, path) || (WrotePending(look, path) && look.reread == RereadOver) || ExemptAgain(look, path)
  }

  /** A row of this call that is still pending when the call returns. */
  predicate LeavesPending(writes: seq<Write>) {
    |writes| > 0 && writes[|writes| - 1] in {Insertion(Pending), Reclaimed(Pending)}
  }

  /** The first look that decides; a call that keeps losing leaves the join to the winner. */
  function FirstDecided(path: Path, verdict: Verdict, hasMessage: bool, looks: seq<Look>): (o: Outcome)
    ensures o.Decided?
  {
    if looks == [] then Decided(false, [])
    else
      var first := OneLook(looks[0], path, verdict, hasMessage);
      if first.Decided? then first else FirstDecided(path, verdict, hasMessage, looks[1..])
  }

  /** Verdicts the policy has nothing to record for let the joiner in. */
  predicate LetsIn(path: Path, verdict: Verdict, hasMessage: bool, looks: seq<Look>) {
    (verdict != LetStay && verdict != Ban) || FirstDecided(path, verdict, hasMessage, looks).letIn
  }

  /** Records a member or service join: it looks at the row again after losing a race for it. */
  method RecordJoin(path: Path, verdict: Verdict, hasMessage: bool, looks: seq<Look>)
    returns (letIn: bool, writes: seq<Write>)
    requires |looks| == LOOKS && path != ByRequest
    ensures verdict in {Ignore, Decline} ==> letIn && writes == []
    ensures verdict in {LetStay, Ban} ==> Decided(letIn, writes) == FirstDecided(path, verdict, hasMessage, looks)
    ensures letIn == LetsIn(path, verdict, hasMessage, looks)
  {
    if verdict != LetStay && verdict != Ban {
      return true, [];
    }
    for n := 0 to LOOKS
      invariant FirstDecided(path, verdict, hasMessage, looks) == FirstDecided(path, verdict, hasMessage, looks[n..])
    {
      var outcome := OneLook(looks[n], path, verdict, hasMessage);
      match outcome {
        case Decided(in_, wrote) => return in_, wrote;
        case LookAgain =>
      }
    }
    return false, [];
  }

  /** The look a call is decided by: every look before it lost a race for the row. */
  predicate Decides(looks: seq<Look>, path: Path, i: nat) {
    i < |looks| && forall j :: 0 <= j < i ==> LostRace(looks[j], path)
  }

  /** Why a joiner the policy bans is let in, in full: on the first look that did not lose a
      race for the row a store failed, the re-read lockdown is over, or the row was made
      exempt within the window. */
  lemma {:induction false} BannedLetInExactly(path: Path, hasMessage: bool, looks: seq<Look>)
    requires path != ByRequest
    ensures FirstDecided(path, Ban, hasMessage, looks).letIn <==>
            exists i :: 0 <= i < |looks| && Decides(looks, path, i) && LetsBannedIn(looks[i], path)
  {
    if looks != [] {
      var rest := looks[1..];
      BannedLetInExactly(path, hasMessage, rest);
      BannedLook(looks[0], path, hasMessage);
      if LostRace(looks[0], path) {
        forall i | 0 <= i < |rest|
          ensures Decides(rest, path, i) <==> Decides(looks, path, i + 1)
          ensures rest[i] == looks[i + 1]
        {
          OneLookLater(looks, path, i);
        }
        assert forall i :: 0 < i < |looks| ==>
            looks[i] == rest[i - 1] && (Decides(looks, path, i) <==> Decides(rest, path, i - 1));
      } else {
        assert Decides(looks, path, 0);
        assert forall i :: 0 < i < |looks| ==> !Decides(looks, path, i);
      }
    }
  }

  /** An existing row that holds even a joiner the policy lets stay: it is handled already, or it
      is the same join delivered again, and it could not be made exempt. */
  predicate HoldsApproved(look: Look, path: Path) {
    && look.insert.Exists? && !TriesReclaim(look, path) && !ExemptAgain(look, path)
    && !(path == ByMember && look.insert.row.state == Pending && look.update == UpdateWins)
  }

  lemma ApprovedLook(look: Look, path: Path, hasMessage: bool)
    requires path != ByRequest
    ensures var o := OneLook(look, path, LetStay, hasMessage);
            && (o == LookAgain <==> LostRace(look, path))
            && (o.Decided? ==> (!o.letIn <==> HoldsApproved(look, path)))
            && !(LostRace(look, path) && HoldsApproved(look, path))
  {
  }

  /** Why a joiner an admin let in is held all the same, in full: the deciding look found a row
      that is handled already, or every look lost a race for the row. */
  lemma {:induction false} ApprovedHeldExactly(path: Path, hasMessage: bool, looks: seq<Look>)
    requires path != ByRequest
    ensures !FirstDecided(path, LetStay, hasMessage, looks).letIn <==>
            || (exists i :: 0 <= i < |looks| && Decides(looks, path, i) && HoldsApproved(looks[i], path))
            || (forall i :: 0 <= i < |looks| ==> LostRace(looks[i], path))
  {
    if looks != [] {
      var rest := looks[1..];
      ApprovedHeldExactly(path, hasMessage, rest);
      ApprovedLook(looks[0], path, hasMessage);
      if LostRace(looks[0], path) {
        forall i | 0 <= i < |rest|
          ensures Decides(rest, path, i) <==> Decides(looks, path, i + 1)
          ensures rest[i] == looks[i + 1]
        {
          OneLookLater(looks, path, i);
        }
        assert forall i :: 0 < i < |looks| ==>
            looks[i] == rest[i - 1] && (Decides(looks, path, i) <==> Decides(rest, path, i - 1));
      } else {
        assert Decides(looks, path, 0);
        assert forall i :: 0 < i < |looks| ==> !Decides(looks, path, i);
      }
    }
  }

  lemma OneLookLater(looks: seq<Look>, path: Path, i: nat)
    requires i + 1 < |looks| && LostRace(looks[0], path)
    ensures Decides(looks[1..], path, i) <==> Decides(looks, path, i + 1)
  {
    if Decides(looks[1..], path, i) {
      assert forall j :: 0 < j < i + 1 ==> looks[j] == looks[1..][j - 1];
    }
    if Decides(looks, path, i + 1) {
      assert forall j :: 0 <= j < i ==> looks[1..][j] == looks[j + 1];
    }
  }

  /** A pending row this call wrote never outlives a joiner it let in, unless its withdrawal
      was refused; and a joiner it holds has a pending row, this call's or an earlier one. */
  lemma {:induction false} NoOrphanedPendingRow(path: Path, hasMessage: bool, looks: seq<Look>)
    requires path != ByRequest
    ensures var o := FirstDecided(path, Ban, hasMessage, looks);
            && (o.letIn && LeavesPending(o.writes) ==>
                  exists i :: 0 <= i < |looks| && looks[i].reread == RereadOver && looks[i].withdraw != UpdateWins)
            && (!o.letIn ==> forall w :: w in o.writes ==> w in {Insertion(Pending), Reclaimed(Pending), JoinMessage})
  {
    if looks != [] {
      NoOrphanedPendingRow(path, hasMessage, looks[1..]);
      if OneLook(looks[0], path, Ban, hasMessage).LookAgain? {
        assert forall i :: 0 < i < |looks| ==> looks[i] == looks[1..][i - 1];
      }
    }
  }

  lemma BannedLook(look: Look, path: Path, hasMessage: bool)
    requires path != ByRequest
    ensures var o := OneLook(look, path, Ban, hasMessage);
            && (o == LookAgain <==> LostRace(look, path))
            && (o.Decided? ==> (o.letIn <==> LetsBannedIn(look, path)))
            && !(LostRace(look, path) && LetsBannedIn(look, path))
  {
  }

  // The writes of a call, in full.

  /** A finished row that this join takes back: any age for a request met by another path, and
      otherwise one that last changed more than 20 seconds ago. */
  predicate TakenBack(row: Found, now: int, path: Path) {
    && row.state in {Banned, BanFailed, Exempt, Declined, DeclineFailed, Cancelled}
    && ((row.request && path != ByRequest) || row.updatedAt < now - 20)
  }

  /** What a row that is not taken back answers: an exempt one lets in, any other is handled, and
      remembers the message of a joiner the lockdown is working on. */
  function Handled(row: Found, hasMessage: bool): Outcome {
    if row.state == Exempt then Decided(true, [])
    else Decided(false, if hasMessage && row.state in {Pending, Acting, Banned} then [JoinMessage] else [])
  }

  /** One look for a joiner an admin let in writes exempt rows and nothing else. */
  lemma ApprovedWrites(look: Look, path: Path, hasMessage: bool)
    requires path != ByRequest
    ensures OneLook(look, path, LetStay, hasMessage) ==
            match look.insert
            case InsertFails => Decided(true, [])
            case Inserted => Decided(true, [Insertion(Exempt)])
            case Exists(row) =>
              if TakenBack(row, look.now, path) then
                match look.update
                case UpdateWins => Decided(true, [Reclaimed(Exempt)])
                case UpdateFails => Decided(true, [])
                case UpdateLoses => LookAgain
              else if path == ByMember && row.state == Pending then
                (if look.update == UpdateWins then Decided(true, [MadeExempt]) else Decided(false, []))
              else Handled(row, hasMessage)
  {
    if look.insert.Exists? {
      TakenBackExactly(look.insert.row.state);
    }
  }

  /** What a call that just wrote a pending row does: it holds the joiner unless the lockdown is
      over by now, and then takes the row back if it can. */
  function HeldOrWithdrawn(look: Look, wrote: Write, withdrawal: Write): Outcome {
    match look.reread
    case RereadFails => Decided(false, [wrote])
    case RereadActive => Decided(false, [wrote])
    case RereadOver => Decided(true, if look.withdraw == UpdateWins then [wrote, withdrawal] else [wrote])
  }

  /** One look for a joiner the lockdown bans writes a pending row, and deletes a new one or
      cancels one it took back when the lockdown is over. */
  lemma BannedWrites(look: Look, path: Path, hasMessage: bool)
    requires path != ByRequest
    ensures OneLook(look, path, Ban, hasMessage) ==
            match look.insert
            case InsertFails => Decided(true, [])
            case Inserted => HeldOrWithdrawn(look, Insertion(Pending), Deletion)
            case Exists(row) =>
              if TakenBack(row, look.now, path) then
                match look.update
                case UpdateWins => HeldOrWithdrawn(look, Reclaimed(Pending), Cancellation)
                case UpdateFails => Decided(true, [])
                case UpdateLoses => LookAgain
              else Handled(row, hasMessage)
  {
    if look.insert.Exists? {
      TakenBackExactly(look.insert.row.state);
    }
  }

  /** A call makes exactly the writes of the first look that did not lose a race, and none when
      every look lost one. */
  lemma {:induction false} DecidedByTheFirst(path: Path, verdict: Verdict, hasMessage: bool, looks: seq<Look>, i: nat)
    requires path != ByRequest && verdict in {LetStay, Ban} && i <= |looks|
    requires forall j :: 0 <= j < i ==> LostRace(looks[j], path)
    requires i < |looks| ==> !LostRace(looks[i], path)
    ensures FirstDecided(path, verdict, hasMessage, looks) ==
            if i < |looks| then OneLook(looks[i], path, verdict, hasMessage) else Decided(false, [])
    decreases i
  {
    if looks != [] {
      ApprovedLook(looks[0], path, hasMessage);
      BannedLook(looks[0], path, hasMessage);
      if i > 0 {
        assert forall j :: 0 <= j < i - 1 ==> looks[1..][j] == looks[j + 1];
        DecidedByTheFirst(path, verdict, hasMessage, looks[1..], i - 1);
      }
    }
  }

  /** A race is lost exactly when another caller took the row back first. */
  lemma LostRaceExactly(look: Look, path: Path)
    ensures LostRace(look, path) <==>
            look.insert.Exists? && TakenBack(look.insert.row, look.now, path) && look.update == UpdateLoses
  {
    if look.insert.Exists? {
      TakenBackExactly(look.insert.row.state);
    }
  }

  /** What one look at a request's row does; a row that is not finished is declined by the worker. */
  function RequestLook(look: Look): Outcome {
    match look.insert
    case InsertFails => Decided(false, [])
    case Inserted => HeldOrWithdrawn(look, Insertion(Pending), Deletion)
    case Exists(row) =>
      if row.state !in {Banned, BanFailed, Exempt, Declined, DeclineFailed, Cancelled} then Decided(false, [])
      else
        match look.update
        case UpdateWins => HeldOrWithdrawn(look, Reclaimed(Pending), Cancellation)
        case UpdateFails => Decided(false, [])
        case UpdateLoses => LookAgain
  }

  /** Records a join request. It is released to the group's own handling exactly when this call
      wrote the pending row and the re-read lockdown is over; every failure holds it. The call is
      decided, and its writes made, by look `k`, the first that did not lose a race. */
  method RecordRequest(looks: seq<Look>) returns (held: bool, writes: seq<Write>, ghost k: nat)
    requires |looks| == LOOKS
    ensures !held <==>
              exists i :: 0 <= i < LOOKS && Releases(looks[i]) && forall j :: 0 <= j < i ==> RequestLostRace(looks[j])
    ensures k <= LOOKS && forall j :: 0 <= j < k ==> RequestLook(looks[j]) == LookAgain
    ensures Decided(!held, writes) == if k < LOOKS then RequestLook(looks[k]) else Decided(false, [])
  {
    for n := 0 to LOOKS
      invariant forall j :: 0 <= j < n ==> RequestLostRace(looks[j]) && RequestLook(looks[j]) == LookAgain
    {
      var look := looks[n];
      match look.insert {
        case InsertFails => return true, [], n;
        case Inserted =>
          var kept := PendingHeld(look, false, [Insertion(Pending)]);
          return !kept.letIn, kept.writes, n;
        case Exists(row) =>
          if !Reclaimable(row.state) || look.update == UpdateFails {
            return true, [], n;
          }
          if look.update == UpdateWins {
            var kept := PendingHeld(look, true, [Reclaimed(Pending)]);
            return !kept.letIn, kept.writes, n;
          }
      }
    }
    return true, [], LOOKS;
  }

  predicate Releases(look: Look) {
    && look.reread == RereadOver
    && (|| look.insert == Inserted
        || (look.insert.Exists? && Reclaimable(look.insert.row.state) && look.update == UpdateWins))
  }

  predicate RequestLostRace(look: Look) {
    look.insert.Exists? && Reclaimable(look.insert.row.state) && look.update == UpdateLoses
  }

  // The service message that names several users.

  datatype Joining = Joining(member: int, verdict: Verdict, looks: seq<Look>)

  class Message {
    var newChatMembers: seq<int>
    const id: int

    constructor (id: int, members: seq<int>)
      ensures this.id == id && newChatMembers == members
    {
      this.id := id;
      newChatMembers := members;
    }
  }

  /** The ID stored on the banned users' rows: the message's own when everybody it names is
      banned (the bot itself aside), and 0 otherwise. */
  function JoinMessageId(id: int, joins: seq<Joining>): int {
    if (forall i :: 0 <= i < |joins| ==> joins[i].verdict in {Ban, Ignore})
       && (exists i :: 0 <= i < |joins| && joins[i].verdict == Ban) then id else 0
  }

  /** The message is remembered only when somebody it names is banned and nobody else but the bot
      is named. */
  lemma MessageIdExactly(id: int, joins: seq<Joining>, i: nat)
    requires i < |joins|
    ensures joins[i].verdict in {LetStay, Decline} ==> JoinMessageId(id, joins) == 0
    ensures (forall k :: 0 <= k < |joins| ==> joins[k].verdict == Ignore) ==> JoinMessageId(id, joins) == 0
    ensures joins[i].verdict == Ban && (forall k :: 0 <= k < |joins| ==> joins[k].verdict !in {LetStay, Decline}) ==>
              JoinMessageId(id, joins) == id
  {
  }

  predicate Kept(j: Joining, hasMessage: bool) {
    LetsIn(ByService, j.verdict, hasMessage, j.looks)
  }

  function KeptMembers(joins: seq<Joining>, hasMessage: bool): seq<int>
    requires forall i :: 0 <= i < |joins| ==> joins[i].looks != []
  {
    if joins == [] then []
    else KeptMembers(joins[..|joins| - 1], hasMessage) +
         (if Kept(joins[|joins| - 1], hasMessage) then [joins[|joins| - 1].member] else [])
  }

  lemma KeptOneMore(joins: seq<Joining>, i: nat, hasMessage: bool)
    requires i < |joins| && forall k :: 0 <= k < |joins| ==> joins[k].looks != []
    ensures KeptMembers(joins[..i + 1], hasMessage)
            == KeptMembers(joins[..i], hasMessage) + (if Kept(joins[i], hasMessage) then [joins[i].member] else [])
  {
    assert joins[..i + 1][..i] == joins[..i] && joins[..i + 1][i] == joins[i];
  }

  predicate Looked(joins: seq<Joining>) {
    forall i :: 0 <= i < |joins| ==> joins[i].looks != []
  }

  /** The last of the members, after the others. */
  lemma KeptLast(joins: seq<Joining>, hasMessage: bool)
    requires Looked(joins) && joins != []
    ensures Looked(joins[..|joins| - 1])
    ensures KeptMembers(joins, hasMessage)
            == KeptMembers(joins[..|joins| - 1], hasMessage)
               + (if Kept(joins[|joins| - 1], hasMessage) then [joins[|joins| - 1].member] else [])
  {
  }

  lemma {:induction false} KeptAtMost(joins: seq<Joining>, hasMessage: bool)
    requires Looked(joins)
    ensures |KeptMembers(joins, hasMessage)| <= |joins|
  {
    if joins != [] {
      KeptLast(joins, hasMessage);
      KeptAtMost(joins[..|joins| - 1], hasMessage);
    }
  }

  predicate NobodyKept(joins: seq<Joining>, hasMessage: bool)
    requires Looked(joins)
  {
    forall i :: 0 <= i < |joins| ==> !Kept(joins[i], hasMessage)
  }

  lemma NobodyKeptButLast(joins: seq<Joining>, hasMessage: bool)
    requires Looked(joins) && joins != [] && Looked(joins[..|joins| - 1])
    ensures NobodyKept(joins, hasMessage)
            <==> NobodyKept(joins[..|joins| - 1], hasMessage) && !Kept(joins[|joins| - 1], hasMessage)
  {
    assert forall i :: 0 <= i < |joins| - 1 ==> joins[..|joins| - 1][i] == joins[i];
  }

  lemma {:induction false} KeptNobody(joins: seq<Joining>, hasMessage: bool)
    requires Looked(joins)
    ensures KeptMembers(joins, hasMessage) == [] <==> NobodyKept(joins, hasMessage)
  {
    if joins != [] {
      KeptLast(joins, hasMessage);
      NobodyKeptButLast(joins, hasMessage);
      KeptNobody(joins[..|joins| - 1], hasMessage);
    }
  }

  predicate InPlace(kept: seq<int>, joins: seq<Joining>) {
    |kept| == |joins| && forall i :: 0 <= i < |joins| ==> kept[i] == joins[i].member
  }

  lemma OneMoreInPlace(kept: seq<int>, joins: seq<Joining>)
    requires joins != [] && InPlace(kept, joins[..|joins| - 1])
    ensures InPlace(kept + [joins[|joins| - 1].member], joins)
  {
    assert forall i :: 0 <= i < |joins| - 1 ==> joins[..|joins| - 1][i] == joins[i];
  }

  lemma {:induction false} KeptEverybody(joins: seq<Joining>, hasMessage: bool)
    requires Looked(joins)
    ensures |KeptMembers(joins, hasMessage)| == |joins| ==> InPlace(KeptMembers(joins, hasMessage), joins)
  {
    if joins != [] {
      var before := joins[..|joins| - 1];
      KeptLast(joins, hasMessage);
      KeptAtMost(before, hasMessage);
      KeptEverybody(before, hasMessage);
      if |KeptMembers(joins, hasMessage)| == |joins| {
        OneMoreInPlace(KeptMembers(before, hasMessage), joins);
      }
    }
  }

  /** Exactly the members that were let in are kept. */
  lemma {:induction false} KeptMembersAre(joins: seq<Joining>, hasMessage: bool, member: int)
    requires Looked(joins)
    ensures member in KeptMembers(joins, hasMessage) <==>
            exists i :: 0 <= i < |joins| && joins[i].member == member && Kept(joins[i], hasMessage)
  {
    if joins != [] {
      var n := |joins| - 1;
      KeptLast(joins, hasMessage);
      KeptMembersAre(joins[..n], hasMessage, member);
      assert forall i :: 0 <= i < n ==> joins[..n][i] == joins[i];
      if i :| 0 <= i < |joins[..n]| && joins[..n][i].member == member && Kept(joins[..n][i], hasMessage) {
        assert joins[i].member == member && Kept(joins[i], hasMessage);
      }
    }
  }

  /** Nothing is kept exactly when nobody is, and as many are kept as joined only when all are. */
  lemma KeptShape(joins: seq<Joining>, hasMessage: bool)
    requires Looked(joins)
    ensures var kept := KeptMembers(joins, hasMessage);
            && |kept| <= |joins|
            && (kept == [] <==> NobodyKept(joins, hasMessage))
            && (|kept| == |joins| ==> InPlace(kept, joins))
  {
    KeptAtMost(joins, hasMessage);
    KeptNobody(joins, hasMessage);
    KeptEverybody(joins, hasMessage);
  }

  /** Handles a join service message: it leaves in the message exactly the users that were let
      in (and the bot), in order, and ends handling when nobody is left. */
  method OnJoinMessage(msg: Message, joins: seq<Joining>) returns (ends: bool)
    requires forall i :: 0 <= i < |joins| ==> |joins[i].looks| == LOOKS
    requires |msg.newChatMembers| == |joins|
    requires forall i :: 0 <= i < |joins| ==> joins[i].member == msg.newChatMembers[i]
    modifies msg
    ensures msg.newChatMembers == KeptMembers(joins, JoinMessageId(msg.id, joins) != 0)
    ensures ends <==> forall i :: 0 <= i < |joins| ==> !Kept(joins[i], JoinMessageId(msg.id, joins) != 0)
  {
    var hasMessage := JoinMessageId(msg.id, joins) != 0;
    var kept := [];
    for i := 0 to |joins|
      invariant msg.newChatMembers == old(msg.newChatMembers)
      invariant kept == KeptMembers(joins[..i], hasMessage)
    {
      var letIn, _ := RecordJoin(ByService, joins[i].verdict, hasMessage, joins[i].looks);
      KeptOneMore(joins, i, hasMessage);
      if letIn {
        kept := kept + [joins[i].member];
      }
    }
    assert joins[..|joins|] == joins;
    KeptShape(joins, hasMessage);
    assert |kept| == |joins| ==> kept == msg.newChatMembers;
    if |kept| != |joins| {
      msg.newChatMembers := kept;
    }
    ends := |kept| == 0;
  }
}
