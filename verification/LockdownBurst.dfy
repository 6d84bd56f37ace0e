/** The burst rows of a permanent-ban run and what one handled account does to its row. */
module LockdownBurst {
  import opened Wrappers
  import opened LockdownRows

  datatype BurstState = NoRun | Queued | InHand | BannedForGood | Skipped | Failed

  datatype BurstRow = BurstRow(state: BurstState, run: Option<nat>, reason: string, detail: string, attempts: nat)

  datatype RunState = Running | Done | Stopped

  /** How the run's handling of one claimed account ended. */
  datatype Verdict =
    | Hit(reason: string)    // the ban was confirmed
    | Skip(reason: string)   // the account is left alone
    | Back                   // back to the queue without an attempt
    | Miss(detail: string)   // a failed call, which costs an attempt

  predicate Final(s: BurstState) {
    s in {BannedForGood, Skipped, Failed}
  }

  predicate Open(s: BurstState) {
    s in {Queued, InHand}
  }

  function MovedBurst(row: BurstRow, to: BurstState, reason: string, detail: string, countAttempt: bool): BurstRow {
    row.(state := to, reason := reason, detail := detail,
         attempts := if countAttempt then row.attempts + 1 else row.attempts)
  }

  /** The row after one handled account. `listed` is the attempt counter the batch was listed
      with, which is what the failure budget is compared against. */
  function Handled(row: BurstRow, listed: nat, v: Verdict): BurstRow {
    match v
    case Hit(reason) => MovedBurst(row, BannedForGood, reason, "", false)
    case Skip(reason) => MovedBurst(row, Skipped, reason, "", false)
    case Back => MovedBurst(row, Queued, "", "", false)
    case Miss(detail) =>
      MovedBurst(row, if listed + 1 >= MAX_ATTEMPTS then Failed else Queued, "", detail, true)
  }

  /** What a verdict leaves of an account in hand: a hit and a skip are final and cost nothing, a
      failure costs one attempt and is final on the last listed one, anything else costs nothing
      and puts the account back. */
  lemma HandledRow(row: BurstRow, listed: nat, v: Verdict)
    ensures v.Hit? ==> Handled(row, listed, v) == row.(state := BannedForGood, reason := v.reason, detail := "")
    ensures v.Skip? ==> Handled(row, listed, v) == row.(state := Skipped, reason := v.reason, detail := "")
    ensures v.Back? ==> Handled(row, listed, v) == row.(state := Queued, reason := "", detail := "")
    ensures v.Miss? ==>
              Handled(row, listed, v) == row.(state := if listed >= 2 then Failed else Queued, reason := "",
                                              detail := v.detail, attempts := row.attempts + 1)
  {
  }
}
