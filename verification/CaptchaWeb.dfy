/** The web check's three ways to end an attempt, against a row that others may change between
    any two of its calls, and the answers it gives about them. */
module CaptchaWeb {
  import opened Wrappers

  datatype Attempt = Attempt(id: nat, user: int, chat: int, reserved: bool, expires: int)

  /** The attempt a challenge was issued for. */
  datatype Record = Record(id: nat, user: int, chat: int)

  /** What others do to the row before the next call on it. */
  datatype Others = Keep | Put(row: Option<Attempt>)

  datatype ActionResult = Lost | Applied | NotApplied
  datatype PassResult = PassLost | PassOk | PassUnmuteFailed

  /** What ending an attempt meets. `spared` is an approved member or a group without a
      captcha. */
  datatype Weather = Weather(
    before: Others, spared: bool, settingsFail: bool, readFails: bool, claimFails: bool, acts: bool, unmuteFails: bool)

  predicate Pending(row: Option<Attempt>, rec: Record) {
    && row.Some? && row.value.id == rec.id && row.value.user == rec.user && row.value.chat == rec.chat
    && row.value.reserved
  }

  predicate Live(row: Option<Attempt>, rec: Record, now: int) {
    Pending(row, rec) && now < row.value.expires
  }

  function ActionResultOf(claimed: bool, applied: bool): (r: ActionResult)
    ensures r == Lost <==> !claimed
    ensures r == Applied <==> claimed && applied
  {
    if !claimed then Lost else if applied then Applied else NotApplied
  }

  function After(row: Option<Attempt>, others: Others): Option<Attempt> {
    if others.Put? then others.row else row
  }

  /** The row the conditional delete is aimed at. */
  predicate Same(row: Option<Attempt>, a: Attempt) {
    row.Some? && row.value.id == a.id && row.value.user == a.user && row.value.chat == a.chat
  }

  /** The conditional delete is reached and wins, and how the decision fails. */
  predicate Claims(row: Option<Attempt>, a: Attempt, w: Weather) {
    Same(row, a) && !w.claimFails && (w.spared || (!w.settingsFail && !w.readFails))
  }

  predicate SettleFails(row: Option<Attempt>, a: Attempt, w: Weather) {
    if w.spared then w.claimFails || (Claims(row, a, w) && w.unmuteFails) else w.settingsFail
  }

  predicate Overdue(row: Option<Attempt>, rec: Record, now: int) {
    Pending(row, rec) && now >= row.value.expires
  }

  /** A challenge is for a web attempt of its own ID, member and group; it may be solved before the
      attempt expires, and expires from then on. */
  lemma RowsExactly(row: Option<Attempt>, rec: Record, now: int)
    ensures Pending(row, rec) <==>
            row.Some? && row.value == Attempt(rec.id, rec.user, rec.chat, true, row.value.expires)
    ensures Live(row, rec, now) <==> Pending(row, rec) && row.value.expires > now
    ensures Overdue(row, rec, now) <==> Pending(row, rec) && row.value.expires <= now
    ensures After(row, Keep) == row && After(None, Put(row)) == row
  {
  }

  class AttemptTable {
    var row: Option<Attempt>

    constructor (row: Option<Attempt>)
      ensures this.row == row
    {
      this.row := row;
    }

    /** The decision shared by the timer, the cleanup tick and the web check. On the path of the
        failure action a store error looks like a lost claim. */
    method Settle(a: Attempt, w: Weather) returns (claimed: bool, applied: bool, err: bool)
      modifies this
      ensures var here := match w.before case Keep => old(row) case Put(other) => other;
              var mine := here.Some? && (here.value.id, here.value.user, here.value.chat) == (a.id, a.user, a.chat);
              && row == (if claimed then None else here)
              && (if w.spared
                  then claimed == (mine && !w.claimFails) && err == (w.claimFails || (mine && w.unmuteFails))
                  else claimed == (mine && !w.settingsFail && !w.readFails && !w.claimFails) && err == w.settingsFail)
      ensures claimed <==> Claims(After(old(row), w.before), a, w)
      ensures applied <==> claimed && !w.spared && w.acts
      ensures err <==> SettleFails(After(old(row), w.before), a, w)
    {
      row := After(row, w.before);
      if w.spared {
        if w.claimFails || !Same(row, a) {
          return false, false, w.claimFails;
        }
        row := None;
        return true, false, w.unmuteFails;
      }
      if w.settingsFail {
        return false, false, true;
      }
      if w.readFails || !Same(row, a) || w.claimFails {
        return false, false, false;
      }
      row := None;
      return true, w.acts, false;
    }

    /** A failed solve. An error means that this call changed nothing, a claim is never reported
        as an error, and a result of lost without an error means that the attempt is gone. */
    method Fail(rec: Record, firstFails: bool, w: Weather, last: Others, againFails: bool)
      returns (result: ActionResult, err: bool)
      modifies this
      ensures err ==> result == Lost
      ensures row == if firstFails || !Pending(old(row), rec) then old(row)
                     else if result != Lost then None
                     else if SettleFails(After(old(row), w.before), old(row).value, w) then After(old(row), w.before)
                     else After(After(old(row), w.before), last)
      ensures result == Lost && !err ==> !Pending(row, rec)
      ensures result != Lost <==>
                !firstFails && Pending(old(row), rec) && Claims(After(old(row), w.before), old(row).value, w)
      ensures result != Lost ==> !err && row == None && (result == Applied <==> w.acts && !w.spared)
      ensures err && !firstFails ==> Pending(old(row), rec)
      ensures err <==> firstFails || (result == Lost && Pending(old(row), rec)
                                      && (SettleFails(After(old(row), w.before), old(row).value, w)
                                          || againFails || Pending(row, rec)))
    {
      if firstFails {
        return Lost, true;
      }
      if !Pending(row, rec) {
        return Lost, false;
      }
      var a := row.value;
      var claimed, applied, failed := Settle(a, w);
      if !claimed {
        if failed {
          return Lost, true;
        }
        row := After(row, last);
        if againFails || Pending(row, rec) {
          return Lost, true;
        }
      }
      return ActionResultOf(claimed, applied), false;
    }

    /** A solve that came too late. Here a store error on the failure action's path is reported
        as lost, without an error: whatever others did to the row, that is exactly when the
        expired attempt is still waiting behind such an answer. */
    method Expire(rec: Record, now: int, firstFails: bool, w: Weather) returns (result: ActionResult, err: bool)
      modifies this
      ensures row == if result != Lost then None
                     else if !firstFails && Overdue(old(row), rec, now) then After(old(row), w.before)
                     else old(row)
      ensures result != Lost <==> !firstFails && Overdue(old(row), rec, now)
                                  && Claims(After(old(row), w.before), old(row).value, w)
      ensures result == Applied <==> result != Lost && w.acts && !w.spared
      ensures err <==> firstFails || (result == Lost && Overdue(old(row), rec, now)
                                      && SettleFails(After(old(row), w.before), old(row).value, w))
      ensures !firstFails && Overdue(old(row), rec, now) ==>
                (result == Lost && !err && Pending(row, rec) <==>
                  && Pending(After(old(row), w.before), rec)
                  && !w.spared && !w.settingsFail && (w.readFails || w.claimFails))
    {
      if firstFails {
        return Lost, true;
      }
      if !Pending(row, rec) || now < row.value.expires {
        return Lost, false;
      }
      var a := row.value;
      var claimed, applied, failed := Settle(a, w);
      return ActionResultOf(claimed, applied), !claimed && failed;
    }

    /** A solve that was confirmed. It claims a live web attempt or nothing; an error means that
        nothing was claimed, and a failed unmute behind a claim is a result of its own. */
    method Pass(rec: Record, now: int, firstFails: bool, chatFails: bool, others: Others, claimNow: int,
                claimFails: bool, unmuteFails: bool)
      returns (result: PassResult, err: bool)
      modifies this
      ensures err <==> firstFails || (Live(old(row), rec, now) && (chatFails || claimFails))
      ensures row == if result != PassLost then None
                     else if firstFails || chatFails || !Live(old(row), rec, now) then old(row)
                     else After(old(row), others)
      ensures result != PassLost <==>
                && !firstFails && Live(old(row), rec, now) && !chatFails && !claimFails
                && After(old(row), others) == old(row) && claimNow < old(row).value.expires
      ensures result != PassLost ==> row == None && (result == PassUnmuteFailed <==> unmuteFails)
    {
      if firstFails {
        return PassLost, true;
      }
      if !Live(row, rec, now) {
        return PassLost, false;
      }
      var a := row.value;
      if chatFails {
        return PassLost, true;
      }
      row := After(row, others);
      if claimFails {
        return PassLost, true;
      }
      if row != Some(a) || claimNow >= a.expires {
        return PassLost, false;
      }
      row := None;
      return if unmuteFails then PassUnmuteFailed else PassOk, false;
    }
  }
}
