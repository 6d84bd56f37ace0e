/** The rows of one lockdown and the live status of a member, as the lockdown's actors see
    them, with the rules that recognise the lockdown's own ban by its end date. */
module LockdownRows {
  datatype LockdownState = Active | Lifting | Lifted

  datatype JoinerState =
    | Pending | Acting | Banned | BanFailed | Declined | DeclineFailed
    | Exempt | Cancelled | Unbanning | Unbanned | Kept | UnbanFailed

  /** A joiner row. `request` says that the join path is a join request. */
  datatype JoinerRow = JoinerRow(
    state: JoinerState, request: bool, banUntil: int, attempts: nat, detail: string)

  datatype Status = Creator | Administrator | Member | Restricted | Left | Kicked

  /** A live chat member. An `untilDate` of 0 on a kicked member is a ban with no end. */
  datatype ChatMember = ChatMember(status: Status, untilDate: int)

  const MAX_ATTEMPTS: nat := 3
  const DETAIL_RESPONSE_BAN := "response_ban"
  const DETAIL_BAN_EXPIRED := "ban_expired"
  const BAN_UNTIL_TOLERANCE := 2
  /** 330 days, in seconds. */
  const BAN_SPAN := 330 * 24 * 60 * 60
  /** A ban that lasts longer than 366 days, or less than 30 seconds, is permanent. */
  const LONGEST_FINITE_BAN := 366 * 24 * 60 * 60
  const SHORTEST_FINITE_BAN := 30

  const Forever := ChatMember(Kicked, 0)

  predicate IsLockdownBan(m: ChatMember, banUntil: int) {
    && m.status == Kicked
    && banUntil != 0
    && m.untilDate != 0
    && -BAN_UNTIL_TOLERANCE <= m.untilDate - banUntil <= BAN_UNTIL_TOLERANCE
  }

  function BanUntil(now: int): int {
    now + BAN_SPAN
  }

  predicate BanExpired(m: ChatMember, banUntil: int, now: int) {
    m.status == Left && banUntil != 0 && now > banUntil
  }

  /** The states in which a lockdown still has work to do for a joiner. */
  predicate Unfinished(s: JoinerState) {
    s in {Pending, Acting, Banned, Unbanning}
  }

  /** The states a later join of the same user may take a row back from. */
  predicate Reclaimable(s: JoinerState) {
    s in {Banned, BanFailed, Exempt, Declined, DeclineFailed, Cancelled}
  }

  /** The states in which the ban run may claim a joiner row. */
  predicate RunClaimable(s: JoinerState) {
    s in {Pending, Banned, BanFailed, Declined, DeclineFailed, Kept, Cancelled}
  }

  /** The row after a move between two states. Only a move from acting to banned, which
      starts the unban, puts the attempt counter back at zero. */
  function Moved(row: JoinerRow, to: JoinerState, detail: string, countAttempt: bool): JoinerRow {
    row.(state := to, detail := detail,
         attempts := if row.state == Acting && to == Banned then 0
                     else if countAttempt then row.attempts + 1
                     else row.attempts)
  }

  /** Whether the ban run bans an account, from its live status and the end date the
      lockdown's own ban would carry (0 when the lockdown never recorded the account). */
  predicate ResponseBans(m: ChatMember, banUntil: int) {
    match m.status
    case Creator => false
    case Administrator => false
    case Kicked => IsLockdownBan(m, banUntil)
    case _ => true
  }

  /** The ban the run places is never taken for the lockdown's own, and the ban the worker
      places at `now` is finite for Telegram, recognised on its own date, and recognised on
      another row's date only when the two rows were recorded within the tolerance. */
  lemma MarkerSeparatesBans(now: int, other: int)
    requires now > 0 && other > 0
    ensures !IsLockdownBan(Forever, BanUntil(now))
    ensures BanUntil(now) == now + 28512000
    ensures SHORTEST_FINITE_BAN < BanUntil(now) - now <= LONGEST_FINITE_BAN
    ensures IsLockdownBan(ChatMember(Kicked, BanUntil(now)), BanUntil(other))
            <==> -BAN_UNTIL_TOLERANCE <= now - other <= BAN_UNTIL_TOLERANCE
  {
  }

  /** Which live members count as under the lockdown's own ban: the tolerance is two seconds
      either way, and an end date must be there on both sides. */
  lemma RecognisedExactly(m: ChatMember, banUntil: int)
    ensures IsLockdownBan(m, banUntil) <==>
            m.status == Kicked && m.untilDate != 0 && banUntil != 0 && banUntil - 2 <= m.untilDate <= banUntil + 2
  {
  }

  /** Whom the run may ban: everybody who is not an administrator and not under somebody else's
      ban. */
  lemma RunBansExactly(m: ChatMember, banUntil: int)
    ensures ResponseBans(m, banUntil) <==>
            || m.status in {Member, Restricted, Left}
            || (m.status == Kicked && m.untilDate != 0 && banUntil != 0
                && banUntil - 2 <= m.untilDate <= banUntil + 2)
  {
  }

  /** The states a row cannot be taken from: those in which somebody works on it or will, and
      those that end it for good. */
  lemma TakenBackExactly(s: JoinerState)
    ensures !Unfinished(s) <==>
            s in {BanFailed, Declined, DeclineFailed, Exempt, Cancelled, Unbanned, Kept, UnbanFailed}
    ensures !Reclaimable(s) <==> s in {Pending, Acting, Unbanning, Unbanned, Kept, UnbanFailed}
    ensures !RunClaimable(s) <==> s in {Acting, Exempt, Unbanning, Unbanned, UnbanFailed}
  {
  }

  /** A move touches the state, the detail and the counter alone: the unban of a ban that took
      effect starts with no attempts. */
  lemma MovedRow(row: JoinerRow, to: JoinerState, detail: string, countAttempt: bool)
    ensures var moved := Moved(row, to, detail, countAttempt);
            && moved.state == to && moved.detail == detail
            && moved.request == row.request && moved.banUntil == row.banUntil
            && moved.attempts == if row.state == Acting && to == Banned then 0
                                 else row.attempts + if countAttempt then 1 else 0
  {
  }
}
