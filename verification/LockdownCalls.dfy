/** What a start, a lift and a settling read of a group's permissions leave behind for every
    answer to their calls, and when somebody else was faster. */
module LockdownCalls {
  import opened Wrappers
  import opened LockdownRows
  import opened LockdownPermissions

  /** A start's call, from the lock to what its answer makes of the row. */
  ghost function Answered(g: Group, a: nat, lands: bool, answer: Answer): Group {
    Execute(Execute(g, [Snapshot(a), Insert(a)]), [LockCall(a, lands, answer), AfterCall(a)])
  }

  lemma CallThenAnswer(g: Group, a: nat, row: nat, lands: bool, answer: Answer)
    requires a in g.starters && g.starters[a] == Calling(row)
    requires answer == Confirmed ==> lands
    requires answer == Refused ==> !lands
    ensures var t := Execute(g, [LockCall(a, lands, answer), AfterCall(a)]);
            && t == g.(live := if lands then {} else g.live, starters := g.starters - {a}, rows := t.rows)
            && t.rows == if !Unconfirmed(g, row) || answer == Unknown then g.rows
                         else if answer == Confirmed then g.rows[row := g.rows[row].(confirmed := true)]
                         else g.rows - {row}
  {
    var called := Next(g, LockCall(a, lands, answer));
    ExecuteThen(g, LockCall(a, lands, answer), [AfterCall(a)]);
    ExecuteThen(called, AfterCall(a), []);
    assert called.starters - {a} == g.starters - {a};
  }

  /** A start of a group with no lockdown, whatever Telegram answers: a refused lock leaves no
      trace but its number, and one that is never answered keeps its unconfirmed row, with the
      permissions to restore, whether the lock landed or not. */
  lemma StartEndsAs(g: Group, a: nat, lands: bool, answer: Answer)
    requires !AnyActive(g) && a !in g.starters && g.nextId !in g.rows
    requires answer == Confirmed ==> lands
    requires answer == Refused ==> !lands
    ensures Answered(g, a, lands, answer)
            == g.(live := if lands then {} else g.live, nextId := g.nextId + 1,
                  rows := if answer == Refused then g.rows
                          else g.rows[g.nextId := Row(Active, g.live, answer == Confirmed, None)])
  {
    StartInserts(g, a);
    var inserted := Execute(g, [Snapshot(a), Insert(a)]);
    CallThenAnswer(inserted, a, g.nextId, lands, answer);
    assert inserted.starters - {a} == g.starters;
    assert inserted.rows - {g.nextId} == g.rows;
  }

  /** A start that finds a lockdown active leaves everything as it was. */
  lemma SecondStartIsTurnedAway(g: Group, a: nat)
    requires AnyActive(g) && a !in g.starters
    ensures Execute(g, [Snapshot(a), Insert(a)]) == g
  {
    var read := Next(g, Snapshot(a));
    ExecuteThen(g, Snapshot(a), [Insert(a)]);
    ExecuteThen(read, Insert(a), []);
    assert forall id :: IsActive(read, id) <==> IsActive(g, id);
    assert read.starters - {a} == g.starters;
  }

  /** A settling read confirms a row whose group is locked and drops one whose group is open;
      it reads only rows that wait for it. */
  lemma SettlingEndsAs(g: Group, w: nat, id: nat)
    requires w !in g.settlers
    ensures Execute(g, [SettleLook(w, id), SettleAct(w)])
            == if !Unconfirmed(g, id) then g
               else if g.live == {} then g.(rows := g.rows[id := g.rows[id].(confirmed := true)])
               else g.(rows := g.rows - {id})
  {
    var seen := Next(g, SettleLook(w, id));
    ExecuteThen(g, SettleLook(w, id), [SettleAct(w)]);
    ExecuteThen(seen, SettleAct(w), []);
    if Unconfirmed(g, id) {
      assert seen.settlers - {w} == g.settlers;
    }
  }

  /** What a settling read saw no longer counts once somebody else confirmed the row or it is
      gone. */
  lemma LateSettlingKeepsRows(g: Group, w: nat)
    requires w in g.settlers && !Unconfirmed(g, g.settlers[w].row)
    ensures Next(g, SettleAct(w)) == g.(settlers := g.settlers - {w})
  {
  }

  /** A confirmed lockdown is dropped by no answer and no settling read, and none of them looks at
      it again. */
  lemma ConfirmedRowStays(g: Group, id: nat, e: Event)
    requires id in g.rows && g.rows[id].confirmed && (e.AfterCall? || e.SettleAct? || e.SettleLook?)
    ensures id in Next(g, e).rows && Next(g, e).rows[id] == g.rows[id]
    ensures e.SettleLook? && e.row == id ==> Next(g, e) == g
  {
  }

  /** A restore that is not confirmed leaves the row active, so that the lift can be tried again,
      even when it landed. */
  lemma UnansweredRestoreKeepsTheRow(g: Group, l: nat, id: nat, lands: bool)
    requires IsActive(g, id) && l !in g.lifters
    ensures Execute(g, [Read(l, id), Restore(l, lands, false)]) == g.(live := if lands then g.rows[id].pre else g.live)
  {
    var read := Next(g, Read(l, id));
    ExecuteThen(g, Read(l, id), [Restore(l, lands, false)]);
    ExecuteThen(read, Restore(l, lands, false), []);
    assert read.lifters - {l} == g.lifters;
  }

  /** A confirmed restore is recorded on the row only while the row is active; one that fails or
      comes second changes no row. Only a lockdown that is being lifted can be finished. */
  lemma RecordsExactly(g: Group, l: nat, id: nat, fails: bool)
    requires l in g.lifters && g.lifters[l] == Restored(id)
    ensures Next(g, Record(l, fails))
            == g.(lifters := g.lifters - {l},
                  rows := if fails || !IsActive(g, id) then g.rows
                          else g.rows[id := g.rows[id].(state := Lifting, liftedBy := Some(l))])
    ensures Next(g, Finish(id))
            == if id in g.rows && g.rows[id].state == Lifting
               then g.(rows := g.rows[id := g.rows[id].(state := Lifted)]) else g
  {
  }

  /** Nobody starts on what is not theirs to start on, and a crash only ends the caller's work. */
  lemma IdleStepsChangeNothing(g: Group, x: nat, id: nat, lands: bool)
    ensures !IsActive(g, id) ==> Next(g, Read(x, id)) == g
    ensures x in g.starters ==> Next(g, Snapshot(x)) == g
    ensures x in g.lifters ==> Next(g, Read(x, id)) == g
    ensures x in g.settlers ==> Next(g, SettleLook(x, id)) == g
    ensures Next(g, LockCall(x, false, Confirmed)) == Next(g, LockCall(x, true, Refused)) == g
    ensures Next(g, Restore(x, false, true)) == g
    ensures Next(g, Crash(x)) == g.(starters := g.starters - {x}, lifters := g.lifters - {x},
                                    settlers := g.settlers - {x})
  {
  }

  /** An unmute during a lockdown gives what the lockdown stored, otherwise the group's own
      permissions, and the built-in ones where the group's cannot be read. It fails exactly when
      the lockdown cannot be looked up or its stored text cannot be decoded. */
  lemma UnmuteGives(g: Group, id: nat, lookup: Lookup, live: Option<Rights>, fallback: Rights)
    requires Answers(g, lookup)
    requires forall i :: IsActive(g, i) ==> i == id
    ensures ResolveUnmute(lookup, live, fallback) == None <==> lookup in {LookupFails, Stored(None)}
    ensures lookup !in {LookupFails, Stored(None)} ==>
              ResolveUnmute(lookup, live, fallback)
              == Some(if IsActive(g, id) then g.rows[id].pre else if live.Some? then live.value else fallback)
  {
  }
}
