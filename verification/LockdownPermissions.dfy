/** The group's default permissions through any number of starts, lifts and settling reads of
    lockdowns: snapshot, insert, lock, restore and record are separate steps of separate
    callers, and every Telegram call may be refused, confirmed or never answered. `normal` is
    what the group's admins set; nobody but the lockdown changes it here. */
module LockdownPermissions {
  import opened Wrappers
  import opened LockdownRows

  type Rights = set<string>

  /** The locked set grants nothing. */
  const LOCKED: Rights := {}

  datatype Row = Row(state: LockdownState, pre: Rights, confirmed: bool, liftedBy: Option<nat>)

  datatype Answer = Confirmed | Refused | Unknown

  datatype Starter = Snapshotted(pre: Rights) | Calling(row: nat) | Called(row: nat, answer: Answer)
  datatype Lifter = Reading(row: nat, pre: Rights) | Restored(row: nat)
  datatype Settler = Saw(row: nat, locked: bool)

  /** `restores` remembers which lifter sent which permissions for which row, and Telegram
      confirmed them. */
  datatype Group = Group(
    live: Rights, rows: map<nat, Row>, nextId: nat,
    starters: map<nat, Starter>, lifters: map<nat, Lifter>, settlers: map<nat, Settler>,
    restores: set<(nat, nat, Rights)>)

  datatype Event =
    | Snapshot(a: nat)
    | Insert(a: nat)
    | LockCall(a: nat, lands: bool, answer: Answer)
    | AfterCall(a: nat)
    | Read(l: nat, row: nat)
    | Restore(l: nat, lands: bool, confirmed: bool)
    | Record(l: nat, fails: bool)
    | Finish(row: nat)
    | SettleLook(w: nat, row: nat)
    | SettleAct(w: nat)
    | Crash(id: nat)

  predicate IsActive(g: Group, id: nat) {
    id in g.rows && g.rows[id].state == Active
  }

  predicate Unconfirmed(g: Group, id: nat) {
    IsActive(g, id) && !g.rows[id].confirmed
  }

  ghost predicate AnyActive(g: Group) {
    exists id :: IsActive(g, id)
  }

  function Confirm(g: Group, id: nat): Group {
    if Unconfirmed(g, id) then g.(rows := g.rows[id := g.rows[id].(confirmed := true)]) else g
  }

  function DropUnconfirmed(g: Group, id: nat): Group {
    if Unconfirmed(g, id) then g.(rows := g.rows - {id}) else g
  }

  ghost function StartNext(g: Group, e: Event): Group {
    match e
    case Snapshot(a) =>
      if a in g.starters then g else g.(starters := g.starters[a := Snapshotted(g.live)])
    case Insert(a) =>
      if a !in g.starters || !g.starters[a].Snapshotted? then g
      else if AnyActive(g) then g.(starters := g.starters - {a})
      else g.(rows := g.rows[g.nextId := Row(Active, g.starters[a].pre, false, None)], nextId := g.nextId + 1,
              starters := g.starters[a := Calling(g.nextId)])
    case LockCall(a, lands, answer) =>
      if a !in g.starters || !g.starters[a].Calling?
         || (answer == Confirmed && !lands) || (answer == Refused && lands) then g
      else g.(live := if lands then LOCKED else g.live, starters := g.starters[a := Called(g.starters[a].row, answer)])
    case AfterCall(a) =>
      if a !in g.starters || !g.starters[a].Called? then g
      else
        var t := g.(starters := g.starters - {a});
        var row := g.starters[a].row;
        if g.starters[a].answer == Confirmed then Confirm(t, row)
        else if g.starters[a].answer == Refused then DropUnconfirmed(t, row)
        else t
    case _ => g
  }

  ghost function LiftNext(g: Group, e: Event): Group {
    match e
    case Read(l, id) =>
      if l in g.lifters || !IsActive(g, id) then g
      else g.(lifters := g.lifters[l := Reading(id, g.rows[id].pre)])
    case Restore(l, lands, confirmed) =>
      if l !in g.lifters || !g.lifters[l].Reading? || (confirmed && !lands) then g
      else
        var t := if lands then g.(live := g.lifters[l].pre) else g;
        var row := g.lifters[l].row;
        if confirmed
        then t.(lifters := g.lifters[l := Restored(row)], restores := g.restores + {(l, row, g.lifters[l].pre)})
        else t.(lifters := g.lifters - {l})
    case Record(l, fails) =>
      if l !in g.lifters || !g.lifters[l].Restored? then g
      else
        var id := g.lifters[l].row;
        var t := g.(lifters := g.lifters - {l});
        if fails || !IsActive(g, id) then t
        else t.(rows := g.rows[id := g.rows[id].(state := Lifting, liftedBy := Some(l))])
    case Finish(id) =>
      if id in g.rows && g.rows[id].state == Lifting then g.(rows := g.rows[id := g.rows[id].(state := Lifted)]) else g
    case _ => g
  }

  ghost function SettleNext(g: Group, e: Event): Group {
    match e
    case SettleLook(w, id) =>
      if w in g.settlers || !Unconfirmed(g, id) then g
      else g.(settlers := g.settlers[w := Saw(id, g.live == LOCKED)])
    case SettleAct(w) =>
      if w !in g.settlers then g
      else
        var t := g.(settlers := g.settlers - {w});
        if g.settlers[w].locked then Confirm(t, g.settlers[w].row) else DropUnconfirmed(t, g.settlers[w].row)
    case Crash(id) => g.(starters := g.starters - {id}, lifters := g.lifters - {id}, settlers := g.settlers - {id})
    case _ => g
  }

  ghost function Next(g: Group, e: Event): Group {
    if e.Snapshot? || e.Insert? || e.LockCall? || e.AfterCall? then StartNext(g, e)
    else if e.Read? || e.Restore? || e.Record? || e.Finish? then LiftNext(g, e)
    else SettleNext(g, e)
  }

  ghost function Execute(g: Group, events: seq<Event>): Group
    decreases |events|
  {
    if events == [] then g else Execute(Next(g, events[0]), events[1..])
  }

  ghost predicate Quiet(g: Group, normal: Rights) {
    && g.live == normal && g.starters == map[] && g.lifters == map[] && g.settlers == map[]
    && g.restores == {} && g.rows == map[]
  }

  // One lifter per lockdown, over every run.

  /** A row that left active was recorded for the one lifter whose restore of that row's own
      permissions Telegram confirmed; a row still active was recorded for nobody. */
  ghost predicate LiftedByItsRestorer(g: Group) {
    && (forall id :: id in g.rows ==> RowAnswered(g, id))
    && (forall l :: l in g.lifters ==> LifterFits(g, l))
    && (forall a :: a in g.starters && !g.starters[a].Snapshotted? ==> g.starters[a].row < g.nextId)
  }

  /** While its row exists, a lifter holds that row's own permissions, or sent them. */
  ghost predicate LifterFits(g: Group, l: nat)
    requires l in g.lifters
  {
    var row := g.lifters[l].row;
    && row < g.nextId
    && (row in g.rows ==>
          if g.lifters[l].Reading? then g.lifters[l].pre == g.rows[row].pre
          else (l, row, g.rows[row].pre) in g.restores)
  }

  ghost predicate RowAnswered(g: Group, id: nat)
    requires id in g.rows
  {
    id < g.nextId &&
    if g.rows[id].state == Active then g.rows[id].liftedBy == None
    else g.rows[id].liftedBy.Some? && (g.rows[id].liftedBy.value, id, g.rows[id].pre) in g.restores
  }

  ghost predicate SameLifters(g: Group, t: Group) {
    forall id :: id in g.rows && g.rows[id].state != Active ==> id in t.rows && SameLift(g.rows[id], t.rows[id])
  }

  predicate SameLift(before: Row, after: Row) {
    after.state != Active && after.liftedBy == before.liftedBy && after.pre == before.pre
  }

  lemma InsertKeepsLifters(g: Group, e: Event)
    requires LiftedByItsRestorer(g) && (e.Snapshot? || e.Insert?)
    ensures LiftedByItsRestorer(Next(g, e)) && SameLifters(g, Next(g, e))
  {
  }

  lemma AnswerKeepsLifters(g: Group, id: nat)
    requires LiftedByItsRestorer(g)
    ensures LiftedByItsRestorer(Confirm(g, id)) && SameLifters(g, Confirm(g, id))
    ensures LiftedByItsRestorer(DropUnconfirmed(g, id)) && SameLifters(g, DropUnconfirmed(g, id))
  {
  }

  lemma LockKeepsLifters(g: Group, e: Event)
    requires LiftedByItsRestorer(g) && (e.LockCall? || e.AfterCall?)
    ensures LiftedByItsRestorer(Next(g, e)) && SameLifters(g, Next(g, e))
  {
    if e.AfterCall? && e.a in g.starters && g.starters[e.a].Called? {
      AnswerKeepsLifters(g.(starters := g.starters - {e.a}), g.starters[e.a].row);
    }
  }

  lemma RestoreKeepsLifters(g: Group, e: Event)
    requires LiftedByItsRestorer(g) && (e.Read? || e.Restore?)
    ensures LiftedByItsRestorer(Next(g, e)) && SameLifters(g, Next(g, e))
  {
  }

  lemma RecordKeepsLifters(g: Group, e: Event)
    requires LiftedByItsRestorer(g) && e.Record?
    ensures LiftedByItsRestorer(Next(g, e)) && SameLifters(g, Next(g, e))
  {
  }

  lemma FinishKeepsLifters(g: Group, e: Event)
    requires LiftedByItsRestorer(g) && e.Finish?
    ensures LiftedByItsRestorer(Next(g, e)) && SameLifters(g, Next(g, e))
  {
  }

  lemma LookKeepsLifters(g: Group, e: Event)
    requires LiftedByItsRestorer(g) && (e.SettleLook? || e.Crash?)
    ensures LiftedByItsRestorer(Next(g, e)) && SameLifters(g, Next(g, e))
  {
  }

  lemma SettleKeepsLifters(g: Group, e: Event)
    requires LiftedByItsRestorer(g) && e.SettleAct?
    ensures LiftedByItsRestorer(Next(g, e)) && SameLifters(g, Next(g, e))
  {
    if e.w in g.settlers {
      AnswerKeepsLifters(g.(settlers := g.settlers - {e.w}), g.settlers[e.w].row);
    }
  }

  lemma NextKeepsLifters(g: Group, e: Event)
    requires LiftedByItsRestorer(g)
    ensures LiftedByItsRestorer(Next(g, e)) && SameLifters(g, Next(g, e))
  {
    if e.Snapshot? || e.Insert? {
      InsertKeepsLifters(g, e);
    } else if e.LockCall? || e.AfterCall? {
      LockKeepsLifters(g, e);
    } else if e.Read? || e.Restore? {
      RestoreKeepsLifters(g, e);
    } else if e.Record? {
      RecordKeepsLifters(g, e);
    } else if e.Finish? {
      FinishKeepsLifters(g, e);
    } else if e.SettleLook? || e.Crash? {
      LookKeepsLifters(g, e);
    } else {
      SettleKeepsLifters(g, e);
    }
  }

  /** Over every run, with any number of lifters: every row that left active is recorded for a
      lifter whose restore of that row's own permissions was confirmed, and the recorded
      lifter never changes afterwards. */
  lemma {:induction false} OneLifterPerLockdown(g: Group, events: seq<Event>)
    requires LiftedByItsRestorer(g)
    ensures LiftedByItsRestorer(Execute(g, events)) && SameLifters(g, Execute(g, events))
    decreases |events|
  {
    if events != [] {
      NextKeepsLifters(g, events[0]);
      OneLifterPerLockdown(Next(g, events[0]), events[1..]);
    }
  }

  // The group's normal permissions.

  /** Two orders the code leaves to chance. A row may leave active only while no start holds a
      snapshot of the locked group, and a lock call may land only on a group with an active
      lockdown that nobody is about to end on the strength of an open group. */
  ghost predicate Orderly(g: Group, e: Event) {
    && (LeavesActive(g, e) ==> forall a :: a in g.starters ==> !HoldsLocked(g.starters[a]))
    && (e.LockCall? && LockLands(g, e.a, e.lands, e.answer) ==> LockIsTimely(g, e.a))
  }

  predicate HoldsLocked(s: Starter) {
    s.Snapshotted? && s.pre == LOCKED
  }

  predicate LockLands(g: Group, a: nat, lands: bool, answer: Answer) {
    a in g.starters && g.starters[a].Calling? && lands && answer != Refused
  }

  ghost predicate LeavesActive(g: Group, e: Event) {
    exists id :: IsActive(g, id) && !IsActive(Next(g, e), id)
  }

  /** The lock call has not landed (yet). */
  predicate MayStillLock(s: Starter) {
    s.Calling? || (s.Called? && s.answer == Refused)
  }

  ghost predicate LockIsTimely(g: Group, a: nat) {
    exists id :: IsActive(g, id) && NobodyOpens(g, id, a)
  }

  /** Nobody has restored the row, has seen its group open, or is another start of the row whose
      lock can still be refused. */
  ghost predicate NobodyOpens(g: Group, id: nat, a: nat) {
    && (forall l :: l in g.lifters ==> g.lifters[l] != Restored(id))
    && (Unconfirmed(g, id) ==>
          && (forall w :: w in g.settlers ==> g.settlers[w] != Saw(id, false))
          && (forall b :: b in g.starters && b != a ==> !MayDrop(g.starters[b], id)))
  }

  predicate MayDrop(s: Starter, id: nat) {
    !s.Snapshotted? && s.row == id && MayStillLock(s)
  }

  ghost predicate OrderlyRun(g: Group, events: seq<Event>)
    decreases |events|
  {
    events == [] || (Orderly(g, events[0]) && OrderlyRun(Next(g, events[0]), events[1..]))
  }

  /** `active` is the one active row, if any. */
  ghost predicate RowsKeepNormal(g: Group, active: Option<nat>, normal: Rights) {
    && (forall id :: id in g.rows ==> g.rows[id].pre == normal && id < g.nextId)
    && (forall id: nat :: IsActive(g, id) <==> active == Some(id))
    && (g.live == normal || (g.live == LOCKED && active.Some?))
  }

  ghost predicate StartersKeepNormal(g: Group, active: Option<nat>, normal: Rights) {
    && (forall a :: a in g.starters && g.starters[a].Snapshotted? ==>
          g.starters[a].pre == normal || (active.Some? && g.starters[a].pre == LOCKED))
    && (forall a :: a in g.starters && !g.starters[a].Snapshotted? ==>
          && g.starters[a].row < g.nextId
          && (active == Some(g.starters[a].row) && MayStillLock(g.starters[a]) && Unconfirmed(g, g.starters[a].row)
              ==> g.live == normal))
  }

  ghost predicate OthersKeepNormal(g: Group, active: Option<nat>, normal: Rights) {
    && (forall l :: l in g.lifters ==> g.lifters[l].row < g.nextId)
    && (forall l :: l in g.lifters && g.lifters[l].Reading? ==> g.lifters[l].pre == normal)
    && (forall l :: l in g.lifters && g.lifters[l].Restored? && active == Some(g.lifters[l].row) ==> g.live == normal)
    && (forall w :: w in g.settlers ==> g.settlers[w].row < g.nextId)
    && (forall w :: w in g.settlers && !g.settlers[w].locked && Unconfirmed(g, g.settlers[w].row) ==> g.live == normal)
  }

  ghost predicate KeepsNormalAt(g: Group, active: Option<nat>, normal: Rights) {
    RowsKeepNormal(g, active, normal) && StartersKeepNormal(g, active, normal) && OthersKeepNormal(g, active, normal)
  }

  /** Every stored snapshot is the normal set, and the group is open unless a lockdown is
      active. */
  ghost predicate KeepsNormal(g: Group, normal: Rights) {
    && (forall id :: id in g.rows ==> g.rows[id].pre == normal)
    && (g.live == normal || (g.live == LOCKED && AnyActive(g)))
  }

  lemma InsertKeepsNormal(g: Group, active: Option<nat>, e: Event, normal: Rights) returns (after: Option<nat>)
    requires KeepsNormalAt(g, active, normal)
    requires e.Insert?
    ensures KeepsNormalAt(Next(g, e), after, normal)
  {
    assert active.Some? ==> IsActive(g, active.value);
    after := if e.a in g.starters && g.starters[e.a].Snapshotted? && active == None then Some(g.nextId) else active;
  }

  lemma LockKeepsNormal(g: Group, active: Option<nat>, e: Event, normal: Rights)
    requires KeepsNormalAt(g, active, normal) && Orderly(g, e)
    requires e.Snapshot? || e.LockCall?
    ensures KeepsNormalAt(Next(g, e), active, normal)
  {
    assert active.Some? ==> IsActive(g, active.value);
  }

  /** The active row after a step that makes no row active. */
  ghost function StillActive(g: Group, active: Option<nat>, e: Event): Option<nat> {
    if active.Some? && IsActive(Next(g, e), active.value) then active else None
  }

  lemma ConfirmKeepsNormal(g: Group, active: Option<nat>, id: nat, normal: Rights)
    requires KeepsNormalAt(g, active, normal)
    ensures KeepsNormalAt(Confirm(g, id), active, normal)
  {
    assert forall i: nat :: IsActive(Confirm(g, id), i) <==> IsActive(g, i);
  }

  lemma DropKeepsNormal(g: Group, active: Option<nat>, id: nat, normal: Rights) returns (after: Option<nat>)
    requires KeepsNormalAt(g, active, normal)
    requires Unconfirmed(g, id) ==> g.live == normal && forall a :: a in g.starters ==> !HoldsLocked(g.starters[a])
    ensures KeepsNormalAt(DropUnconfirmed(g, id), after, normal)
  {
    after := if Unconfirmed(g, id) then None else active;
    assert Unconfirmed(g, id) ==> active == Some(id);
    assert forall i: nat :: IsActive(DropUnconfirmed(g, id), i) <==> IsActive(g, i) && !(i == id && Unconfirmed(g, id));
  }

  lemma AnswerKeepsNormal(g: Group, active: Option<nat>, e: Event, normal: Rights) returns (after: Option<nat>)
    requires KeepsNormalAt(g, active, normal) && Orderly(g, e)
    requires e.AfterCall?
    ensures KeepsNormalAt(Next(g, e), after, normal)
  {
    after := active;
    if e.a in g.starters && g.starters[e.a].Called? {
      var t := g.(starters := g.starters - {e.a});
      var row := g.starters[e.a].row;
      assert KeepsNormalAt(t, active, normal);
      if g.starters[e.a].answer == Confirmed {
        ConfirmKeepsNormal(t, active, row, normal);
      } else if g.starters[e.a].answer == Refused {
        if Unconfirmed(g, row) {
          assert active == Some(row) && !IsActive(Next(g, e), row);
        }
        after := DropKeepsNormal(t, active, row, normal);
      }
    }
  }

  lemma SettleKeepsNormal(g: Group, active: Option<nat>, e: Event, normal: Rights) returns (after: Option<nat>)
    requires KeepsNormalAt(g, active, normal) && Orderly(g, e)
    requires e.SettleAct?
    ensures KeepsNormalAt(Next(g, e), after, normal)
  {
    after := active;
    if e.w in g.settlers {
      var t := g.(settlers := g.settlers - {e.w});
      var row := g.settlers[e.w].row;
      assert KeepsNormalAt(t, active, normal);
      if g.settlers[e.w].locked {
        ConfirmKeepsNormal(t, active, row, normal);
      } else {
        if Unconfirmed(g, row) {
          assert !IsActive(Next(g, e), row);
        }
        after := DropKeepsNormal(t, active, row, normal);
      }
    }
  }

  lemma LookKeepsNormal(g: Group, active: Option<nat>, e: Event, normal: Rights)
    requires KeepsNormalAt(g, active, normal)
    requires e.SettleLook? || e.Crash?
    ensures KeepsNormalAt(Next(g, e), active, normal)
  {
    assert active.Some? ==> IsActive(g, active.value);
  }

  lemma RestoreKeepsNormal(g: Group, active: Option<nat>, e: Event, normal: Rights)
    requires KeepsNormalAt(g, active, normal)
    requires e.Read? || e.Restore?
    ensures KeepsNormalAt(Next(g, e), active, normal)
  {
    assert forall id: nat :: IsActive(Next(g, e), id) <==> IsActive(g, id);
  }

  lemma RecordKeepsNormal(g: Group, active: Option<nat>, e: Event, normal: Rights) returns (after: Option<nat>)
    requires KeepsNormalAt(g, active, normal) && Orderly(g, e)
    requires e.Record? || e.Finish?
    ensures KeepsNormalAt(Next(g, e), after, normal)
  {
    after := StillActive(g, active, e);
  }

  lemma NextKeepsNormal(g: Group, active: Option<nat>, e: Event, normal: Rights) returns (after: Option<nat>)
    requires KeepsNormalAt(g, active, normal) && Orderly(g, e)
    ensures KeepsNormalAt(Next(g, e), after, normal)
  {
    after := active;
    if e.Insert? {
      after := InsertKeepsNormal(g, active, e, normal);
    } else if e.Snapshot? || e.LockCall? {
      LockKeepsNormal(g, active, e, normal);
    } else if e.AfterCall? {
      after := AnswerKeepsNormal(g, active, e, normal);
    } else if e.Read? || e.Restore? {
      RestoreKeepsNormal(g, active, e, normal);
    } else if e.Record? || e.Finish? {
      after := RecordKeepsNormal(g, active, e, normal);
    } else if e.SettleAct? {
      after := SettleKeepsNormal(g, active, e, normal);
    } else {
      LookKeepsNormal(g, active, e, normal);
    }
  }

  /** Over every orderly run, no lockdown ever stores anything but the normal permissions, and
      the group has them whenever no lockdown is active. */
  lemma {:induction false} OrderlyKeepsNormal(g: Group, active: Option<nat>, events: seq<Event>, normal: Rights)
    returns (after: Option<nat>)
    requires KeepsNormalAt(g, active, normal) && OrderlyRun(g, events)
    ensures KeepsNormalAt(Execute(g, events), after, normal) && KeepsNormal(Execute(g, events), normal)
    decreases |events|
  {
    if events == [] {
      after := active;
      assert active.Some? ==> IsActive(g, active.value);
    } else {
      var next := NextKeepsNormal(g, active, events[0], normal);
      after := OrderlyKeepsNormal(Next(g, events[0]), next, events[1..], normal);
    }
  }

  // What an unmute gives.

  datatype Lookup = LookupFails | NoLockdown | Stored(pre: Option<Rights>)

  /** The permissions an unmute hands to a member, None for an error: the stored snapshot of an
      active lockdown, else the group's live defaults, else the built-in ones. */
  function ResolveUnmute(lookup: Lookup, live: Option<Rights>, fallback: Rights): Option<Rights> {
    match lookup
    case LookupFails => None
    case Stored(pre) => pre
    case NoLockdown => if live.Some? then live else Some(fallback)
  }

  /** What the lookup of the group's active lockdown may answer. */
  ghost predicate Answers(g: Group, lookup: Lookup) {
    match lookup
    case LookupFails => true
    case NoLockdown => !AnyActive(g)
    case Stored(pre) => exists id :: IsActive(g, id) && (pre == None || pre == Some(g.rows[id].pre))
  }

  /** At every point of every orderly run an unmute that answers at all gives exactly the
      group's normal permissions; so unmuting during a lockdown and then lifting it, and
      lifting first and then unmuting, leave the member with the same effective rights, which
      are those of the member that the group allows too. */
  lemma UnmuteIsLockdownIndependent(g: Group, before: seq<Event>, after: seq<Event>, normal: Rights,
                                    first: Lookup, second: Lookup, fallback: Rights)
    requires Quiet(g, normal) && OrderlyRun(g, before) && OrderlyRun(Execute(g, before), after)
    requires Answers(Execute(g, before), first) && Answers(Execute(Execute(g, before), after), second)
    ensures var during := ResolveUnmute(first, Some(Execute(g, before).live), fallback);
            && (during == None || during == Some(normal))
            && (during == None <==> first == LookupFails || first == Stored(None))
    ensures var end := Execute(Execute(g, before), after);
            var during := ResolveUnmute(first, Some(Execute(g, before).live), fallback);
            var later := ResolveUnmute(second, Some(end.live), fallback);
            !AnyActive(end) && during.Some? && later.Some? ==>
              during.value * end.live == later.value * end.live == normal
  {
    var at := OrderlyKeepsNormal(g, None, before, normal);
    var _ := OrderlyKeepsNormal(Execute(g, before), at, after, normal);
  }

  // The two orders are exactly what the promise depends on.

  /** An unmute by now hands out something else than the group's normal permissions. */
  ghost predicate Misleads(g: Group, normal: Rights) {
    exists lookup :: Answers(g, lookup) && ResolveUnmute(lookup, Some(g.live), normal) !in {None, Some(normal)}
  }

  ghost predicate Breaks(g: Group, events: seq<Event>, normal: Rights) {
    OrderlyRun(g, events) && !KeepsNormal(Execute(g, events), normal) && Misleads(Execute(g, events), normal)
  }

  /** Some run from here, with nothing out of order any more, breaks the promise: permissions are
      stored or left that are not the normal ones, and an unmute hands them out. */
  ghost predicate Doomed(g: Group, normal: Rights) {
    exists events :: Breaks(g, events, normal)
  }

  lemma WrongAnswerDooms(g: Group, normal: Rights, lookup: Lookup)
    requires !KeepsNormal(g, normal)
    requires Answers(g, lookup) && ResolveUnmute(lookup, Some(g.live), normal) !in {None, Some(normal)}
    ensures Doomed(g, normal)
  {
    assert Breaks(g, [], normal);
  }

  /** A group that is locked with no lockdown active. */
  lemma LockedForNothingIsDoomed(g: Group, normal: Rights)
    requires g.live == LOCKED != normal && !AnyActive(g)
    ensures Doomed(g, normal)
  {
    WrongAnswerDooms(g, normal, NoLockdown);
  }

  lemma DoomedBefore(g: Group, e: Event, t: Group, normal: Rights)
    requires Orderly(g, e) && t == Next(g, e) && Doomed(t, normal)
    ensures Doomed(g, normal)
  {
    var events :| Breaks(t, events, normal);
    assert ([e] + events)[1..] == events;
    assert Breaks(g, [e] + events, normal);
  }

  /** A row that leaves active takes no start with it but the one that was refused. */
  lemma LeavingKeepsSnapshots(g: Group, e: Event, a: nat)
    requires LeavesActive(g, e) && a in g.starters && HoldsLocked(g.starters[a])
    ensures a in Next(g, e).starters && Next(g, e).starters[a] == Snapshotted(LOCKED) && !e.Insert?
  {
  }

  lemma LeavingMakesNoneActive(g: Group, e: Event)
    requires !e.Insert?
    ensures forall id :: IsActive(Next(g, e), id) ==> IsActive(g, id)
  {
  }

  /** A start that holds the locked set inserts it as soon as no lockdown is active. */
  lemma StraddlingStartDooms(g: Group, active: Option<nat>, e: Event, a: nat, normal: Rights)
    requires KeepsNormalAt(g, active, normal) && normal != LOCKED
    requires LeavesActive(g, e) && a in g.starters && HoldsLocked(g.starters[a])
    ensures Doomed(Next(g, e), normal)
  {
    var t := Next(g, e);
    LeavingKeepsSnapshots(g, e, a);
    LeavingMakesNoneActive(g, e);
    assert !AnyActive(t);
    var stored := Next(t, Insert(a));
    assert IsActive(stored, t.nextId) && stored.rows[t.nextId].pre == LOCKED;
    WrongAnswerDooms(stored, normal, Stored(Some(LOCKED)));
    DoomedBefore(t, Insert(a), stored, normal);
  }

  ghost predicate LockedOnly(g: Group, id: nat) {
    g.live == LOCKED && IsActive(g, id) && forall i :: IsActive(g, i) ==> i == id
  }

  lemma SameRowsStayLocked(g: Group, t: Group, id: nat)
    requires LockedOnly(g, id) && t.rows == g.rows && t.live == g.live
    ensures LockedOnly(t, id)
  {
    assert forall i :: IsActive(t, i) <==> IsActive(g, i);
  }

  lemma StillOpens(g: Group, t: Group, id: nat, a: nat)
    requires !NobodyOpens(g, id, a)
    requires t.rows == g.rows && t.lifters == g.lifters && t.settlers == g.settlers
    requires forall b :: b in g.starters && b != a && MayDrop(g.starters[b], id) ==>
               b in t.starters && t.starters[b] == g.starters[b]
    ensures !NobodyOpens(t, id, a)
  {
    if b :| Unconfirmed(g, id) && b in g.starters && b != a && MayDrop(g.starters[b], id) {
      assert MayDrop(t.starters[b], id) && Unconfirmed(t, id);
    }
  }

  /** A locked group whose one active row goes is left locked. */
  lemma LosingTheRowDooms(g: Group, id: nat, e: Event, normal: Rights)
    requires LockedOnly(g, id) && normal != LOCKED
    requires forall a :: a in g.starters ==> !HoldsLocked(g.starters[a])
    requires e.Record? || e.SettleAct? || e.AfterCall?
    requires !IsActive(Next(g, e), id)
    ensures Doomed(g, normal)
  {
    var t := Next(g, e);
    assert t.live == LOCKED && forall i :: IsActive(t, i) ==> IsActive(g, i);
    assert !AnyActive(t);
    LockedForNothingIsDoomed(t, normal);
    DoomedBefore(g, e, t, normal);
  }

  lemma RefusalDooms(g: Group, id: nat, b: nat, normal: Rights)
    requires LockedOnly(g, id) && normal != LOCKED && Unconfirmed(g, id)
    requires forall a :: a in g.starters ==> !HoldsLocked(g.starters[a])
    requires b in g.starters && MayDrop(g.starters[b], id)
    ensures Doomed(g, normal)
  {
    if g.starters[b].Called? {
      LosingTheRowDooms(g, id, AfterCall(b), normal);
    } else {
      var e := LockCall(b, false, Refused);
      var refused := g.(starters := g.starters[b := Called(id, Refused)]);
      assert Next(g, e) == refused;
      SameRowsStayLocked(g, refused, id);
      LosingTheRowDooms(refused, id, AfterCall(b), normal);
      DoomedBefore(g, e, refused, normal);
    }
  }

  /** Whoever is about to end the lockdown of a locked group dooms it, once the starts that hold
      the locked set have given up on the lockdown that is still active. */
  lemma {:induction false} OpeningDooms(g: Group, id: nat, a: nat, normal: Rights)
    requires LockedOnly(g, id) && normal != LOCKED && !NobodyOpens(g, id, a)
    ensures Doomed(g, normal)
    decreases g.starters.Keys
  {
    if b :| b in g.starters && HoldsLocked(g.starters[b]) {
      var t := g.(starters := g.starters - {b});
      assert AnyActive(g) && Next(g, Insert(b)) == t;
      SameRowsStayLocked(g, t, id);
      StillOpens(g, t, id, a);
      assert t.starters.Keys == g.starters.Keys - {b};
      OpeningDooms(t, id, a, normal);
      DoomedBefore(g, Insert(b), t, normal);
    } else if l :| l in g.lifters && g.lifters[l] == Restored(id) {
      LosingTheRowDooms(g, id, Record(l, false), normal);
    } else if w :| w in g.settlers && g.settlers[w] == Saw(id, false) && Unconfirmed(g, id) {
      LosingTheRowDooms(g, id, SettleAct(w), normal);
    } else {
      var b :| b in g.starters && b != a && MayDrop(g.starters[b], id);
      RefusalDooms(g, id, b, normal);
    }
  }

  lemma UntimelyLockDooms(g: Group, active: Option<nat>, e: Event, normal: Rights)
    requires KeepsNormalAt(g, active, normal) && normal != LOCKED
    requires e.LockCall? && LockLands(g, e.a, e.lands, e.answer) && !LockIsTimely(g, e.a)
    ensures Doomed(Next(g, e), normal)
  {
    var t := Next(g, e);
    assert t.live == LOCKED && forall i :: IsActive(t, i) <==> IsActive(g, i);
    if active.Some? {
      assert IsActive(g, active.value) && !NobodyOpens(g, active.value, e.a);
      assert LockedOnly(t, active.value);
      StillOpens(g, t, active.value, e.a);
      OpeningDooms(t, active.value, e.a, normal);
    } else {
      LockedForNothingIsDoomed(t, normal);
    }
  }

  /** The exact condition: a step leads to a run that breaks the promise, with nothing out of
      order any more on the way, if and only if the step itself is out of order. */
  lemma NormalIsLostExactlyByDisorder(g: Group, active: Option<nat>, e: Event, normal: Rights)
    requires KeepsNormalAt(g, active, normal) && normal != LOCKED
    ensures Doomed(Next(g, e), normal) <==> !Orderly(g, e)
  {
    if Orderly(g, e) {
      var after := NextKeepsNormal(g, active, e, normal);
      forall events | OrderlyRun(Next(g, e), events)
        ensures !Breaks(Next(g, e), events, normal)
      {
        var _ := OrderlyKeepsNormal(Next(g, e), after, events, normal);
      }
    } else if LeavesActive(g, e) && exists a :: a in g.starters && HoldsLocked(g.starters[a]) {
      var a :| a in g.starters && HoldsLocked(g.starters[a]);
      StraddlingStartDooms(g, active, e, a, normal);
    } else {
      UntimelyLockDooms(g, active, e, normal);
    }
  }

  // An active lockdown and a locked group.

  predicate IsConfirmed(g: Group, id: nat) {
    IsActive(g, id) && g.rows[id].confirmed
  }

  /** Somebody restored the row's permissions and is about to record it. */
  ghost predicate Ending(g: Group, id: nat) {
    exists l :: l in g.lifters && g.lifters[l] == Restored(id)
  }

  /** The group of a confirmed lockdown is locked, or its lift is about to be recorded. */
  ghost predicate LockedOrEnding(g: Group) {
    forall id :: IsConfirmed(g, id) ==> g.live == LOCKED || Ending(g, id)
  }

  /** A confirmation of a lockdown whose group is open by now. */
  ghost predicate ConfirmsOpen(g: Group, id: nat) {
    Unconfirmed(g, id) && g.live != LOCKED && !Ending(g, id)
  }

  /** The last lifter that could record the end of an open lockdown. */
  ghost predicate EndsAlone(g: Group, l: nat) {
    && g.live != LOCKED && l in g.lifters && g.lifters[l].Restored? && IsConfirmed(g, g.lifters[l].row)
    && forall k :: k in g.lifters && k != l ==> g.lifters[k] != g.lifters[l]
  }

  /** A landing restore opens a lockdown that is not its own, or whose answer is lost. */
  ghost predicate OpensAnother(g: Group, l: nat, confirmed: bool) {
    && l in g.lifters && g.lifters[l].Reading? && g.lifters[l].pre != LOCKED
    && exists id :: IsConfirmed(g, id) && !Ending(g, id) && !(confirmed && g.lifters[l].row == id)
  }

  /** The steps that leave a confirmed lockdown open with nobody about to end it: a restore of
      another row or one whose answer is lost, a late confirmation, and a lifter that crashes or
      fails to record behind its own restore. */
  ghost predicate Opens(g: Group, e: Event) {
    match e
    case Restore(l, lands, confirmed) => lands && OpensAnother(g, l, confirmed)
    case AfterCall(a) =>
      a in g.starters && g.starters[a].Called? && g.starters[a].answer == Confirmed
      && ConfirmsOpen(g, g.starters[a].row)
    case SettleAct(w) => w in g.settlers && g.settlers[w].locked && ConfirmsOpen(g, g.settlers[w].row)
    case Record(l, fails) => fails && EndsAlone(g, l)
    case Crash(l) => EndsAlone(g, l)
    case _ => false
  }

  lemma StartKeepsLocked(g: Group, e: Event)
    requires LockedOrEnding(g) && (e.Snapshot? || e.Insert? || e.LockCall?)
    ensures LockedOrEnding(Next(g, e))
  {
    assert forall id :: IsConfirmed(Next(g, e), id) ==> IsConfirmed(g, id);
    assert forall id :: Ending(g, id) ==> Ending(Next(g, e), id);
  }

  lemma ConfirmingOpensExactly(g: Group, id: nat)
    requires LockedOrEnding(g)
    ensures LockedOrEnding(Confirm(g, id)) <==> !ConfirmsOpen(g, id)
    ensures LockedOrEnding(DropUnconfirmed(g, id))
  {
    var t, d := Confirm(g, id), DropUnconfirmed(g, id);
    assert forall i :: IsConfirmed(t, i) <==> IsConfirmed(g, i) || (i == id && Unconfirmed(g, id));
    assert forall i :: IsConfirmed(d, i) ==> IsConfirmed(g, i);
    assert forall i :: (Ending(t, i) <==> Ending(g, i)) && (Ending(d, i) <==> Ending(g, i));
  }

  /** Removing a start or a settling read changes neither the lockdowns nor who ends them. */
  lemma OthersKeepLocked(g: Group, t: Group)
    requires t.live == g.live && t.rows == g.rows && t.lifters == g.lifters
    ensures LockedOrEnding(t) <==> LockedOrEnding(g)
    ensures forall id :: ConfirmsOpen(t, id) <==> ConfirmsOpen(g, id)
  {
    assert forall id :: (IsConfirmed(t, id) <==> IsConfirmed(g, id)) && (Ending(t, id) <==> Ending(g, id));
  }

  lemma AnswerOpensExactly(g: Group, e: Event)
    requires LockedOrEnding(g) && (e.AfterCall? || e.SettleAct? || e.SettleLook?)
    ensures LockedOrEnding(Next(g, e)) <==> !Opens(g, e)
  {
    if e.AfterCall? && e.a in g.starters && g.starters[e.a].Called? {
      var t := g.(starters := g.starters - {e.a});
      OthersKeepLocked(g, t);
      ConfirmingOpensExactly(t, g.starters[e.a].row);
    } else if e.SettleAct? && e.w in g.settlers {
      var t := g.(settlers := g.settlers - {e.w});
      OthersKeepLocked(g, t);
      ConfirmingOpensExactly(t, g.settlers[e.w].row);
    } else {
      OthersKeepLocked(g, Next(g, e));
    }
  }

  lemma RestoreOpensExactly(g: Group, e: Event)
    requires LockedOrEnding(g) && (e.Read? || e.Restore?)
    ensures LockedOrEnding(Next(g, e)) <==> !Opens(g, e)
  {
    var t := Next(g, e);
    assert forall id :: IsConfirmed(t, id) <==> IsConfirmed(g, id);
    forall id
      ensures Ending(t, id) <==> Ending(g, id) || (e.Restore? && t != g && e.confirmed && g.lifters[e.l].row == id)
    {
      if l :| l in g.lifters && g.lifters[l] == Restored(id) {
        assert t.lifters[l] == Restored(id);
      }
      if e.Restore? && t != g && e.confirmed {
        assert t.lifters[e.l] == Restored(g.lifters[e.l].row);
      }
    }
  }

  lemma LosingALifterOpensExactly(g: Group, l: nat, t: Group)
    requires LockedOrEnding(g) && t.live == g.live && t.rows == g.rows && t.lifters == g.lifters - {l}
    ensures LockedOrEnding(t) <==> !EndsAlone(g, l)
  {
    forall id
      ensures IsConfirmed(t, id) <==> IsConfirmed(g, id)
      ensures Ending(t, id) ==> Ending(g, id)
      ensures Ending(g, id) && !(l in g.lifters && g.lifters[l] == Restored(id)) ==> Ending(t, id)
    {
      if k :| k in g.lifters && k != l && g.lifters[k] == Restored(id) {
        assert t.lifters[k] == Restored(id);
      }
    }
    if l in g.lifters && g.lifters[l].Restored? {
      if k :| k in g.lifters && k != l && g.lifters[k] == g.lifters[l] {
        assert t.lifters[k] == g.lifters[l];
        assert Ending(t, g.lifters[l].row);
      }
    }
  }

  /** A recorded lift takes its own lockdown out of the active ones. */
  lemma RecordedKeepsLocked(g: Group, e: Event)
    requires LockedOrEnding(g) && (e.Finish? || (e.Record? && !e.fails))
    ensures LockedOrEnding(Next(g, e))
  {
    var t := Next(g, e);
    forall id | IsConfirmed(t, id) && t.live != LOCKED
      ensures Ending(t, id)
    {
      assert IsConfirmed(g, id);
      var k :| k in g.lifters && g.lifters[k] == Restored(id);
      assert k in t.lifters && t.lifters[k] == Restored(id);
    }
  }

  /** The exact condition of "active means locked": from a group in which every confirmed
      lockdown is locked or about to be recorded as ending, a step leaves one open with nobody
      about to end it if and only if it is one of those. */
  lemma OpenedExactlyBy(g: Group, e: Event)
    requires LockedOrEnding(g)
    ensures LockedOrEnding(Next(g, e)) <==> !Opens(g, e)
  {
    if e.Snapshot? || e.Insert? || e.LockCall? {
      StartKeepsLocked(g, e);
    } else if e.AfterCall? || e.SettleAct? || e.SettleLook? {
      AnswerOpensExactly(g, e);
    } else if e.Read? || e.Restore? {
      RestoreOpensExactly(g, e);
    } else if e.Finish? || (e.Record? && !e.fails) {
      RecordedKeepsLocked(g, e);
    } else if e.Record? && (e.l !in g.lifters || !g.lifters[e.l].Restored?) {
      assert Next(g, e) == g;
    } else {
      LosingALifterOpensExactly(g, if e.Record? then e.l else e.id, Next(g, e));
    }
  }

  ghost predicate NeverOpens(g: Group, events: seq<Event>)
    decreases |events|
  {
    events == [] || (!Opens(g, events[0]) && NeverOpens(Next(g, events[0]), events[1..]))
  }

  /** Over every run without such a step, with any other failures: once no lifter is in the middle
      of anything, every confirmed active lockdown has a locked group. */
  lemma {:induction false} ActiveMeansLocked(g: Group, events: seq<Event>)
    requires LockedOrEnding(g) && NeverOpens(g, events)
    ensures LockedOrEnding(Execute(g, events))
    ensures var t := Execute(g, events);
            t.lifters == map[] ==> forall id :: IsConfirmed(t, id) ==> t.live == LOCKED
    decreases |events|
  {
    if events != [] {
      OpenedExactlyBy(g, events[0]);
      ActiveMeansLocked(Next(g, events[0]), events[1..]);
    }
  }

  // Runs of one start or one lift, and the three ways to break the promise.

  lemma {:induction false} ExecuteThen(g: Group, e: Event, rest: seq<Event>)
    ensures Execute(g, [e] + rest) == Execute(Next(g, e), rest)
  {
    assert ([e] + rest)[1..] == rest;
  }

  lemma StartInserts(g: Group, a: nat)
    requires !AnyActive(g) && a !in g.starters
    ensures Execute(g, [Snapshot(a), Insert(a)])
            == g.(rows := g.rows[g.nextId := Row(Active, g.live, false, None)], nextId := g.nextId + 1,
                  starters := g.starters[a := Calling(g.nextId)])
  {
    var s1 := Next(g, Snapshot(a));
    assert forall id :: IsActive(s1, id) ==> IsActive(g, id);
    assert s1 == g.(starters := g.starters[a := Snapshotted(g.live)]);
    ExecuteThen(g, Snapshot(a), [Insert(a)]);
    ExecuteThen(s1, Insert(a), []);
    assert s1.starters[a := Calling(g.nextId)] == g.starters[a := Calling(g.nextId)];
  }

  lemma LockIsConfirmed(g: Group, a: nat, id: nat)
    requires a in g.starters && g.starters[a] == Calling(id) && Unconfirmed(g, id)
    ensures Execute(g, [LockCall(a, true, Confirmed), AfterCall(a)])
            == g.(live := LOCKED, rows := g.rows[id := g.rows[id].(confirmed := true)], starters := g.starters - {a})
  {
    var called := Next(g, LockCall(a, true, Confirmed));
    assert called == g.(live := LOCKED, starters := g.starters[a := Called(id, Confirmed)]);
    ExecuteThen(g, LockCall(a, true, Confirmed), [AfterCall(a)]);
    ExecuteThen(called, AfterCall(a), []);
    assert called.starters - {a} == g.starters - {a};
  }

  /** A start nobody disturbs stores the group's permissions and locks it, confirmed. */
  lemma StartLocks(g: Group, a: nat)
    requires !AnyActive(g) && a !in g.starters && g.nextId !in g.rows
    ensures Execute(Execute(g, [Snapshot(a), Insert(a)]), [LockCall(a, true, Confirmed), AfterCall(a)])
            == g.(live := LOCKED, rows := g.rows[g.nextId := Row(Active, g.live, true, None)], nextId := g.nextId + 1)
  {
    StartInserts(g, a);
    var inserted := Execute(g, [Snapshot(a), Insert(a)]);
    LockIsConfirmed(inserted, a, g.nextId);
    assert inserted.starters - {a} == g.starters;
  }

  /** A lift nobody disturbs gives the group exactly what its lockdown stored. */
  lemma LiftRestores(g: Group, id: nat, l: nat)
    requires IsActive(g, id) && l !in g.lifters
    ensures var t := Execute(g, [Read(l, id), Restore(l, true, true), Record(l, false)]);
            && t.live == g.rows[id].pre
            && t.rows == g.rows[id := g.rows[id].(state := Lifting, liftedBy := Some(l))]
            && t == g.(live := t.live, rows := t.rows, restores := t.restores)
  {
    var s1 := Next(g, Read(l, id));
    var s2 := Next(s1, Restore(l, true, true));
    ExecuteThen(g, Read(l, id), [Restore(l, true, true), Record(l, false)]);
    ExecuteThen(s1, Restore(l, true, true), [Record(l, false)]);
    ExecuteThen(s2, Record(l, false), []);
    assert s2.lifters - {l} == g.lifters;
  }

  /** Starting and lifting is a round trip on the group's permissions. */
  lemma StartThenLiftIsARoundTrip(g: Group, a: nat, l: nat)
    requires !AnyActive(g) && a !in g.starters && l !in g.lifters && g.nextId !in g.rows
    ensures var locked := Execute(Execute(g, [Snapshot(a), Insert(a)]), [LockCall(a, true, Confirmed), AfterCall(a)]);
            var lifted := Execute(locked, [Read(l, g.nextId), Restore(l, true, true), Record(l, false)]);
            locked.live == LOCKED && lifted.live == g.live && !AnyActive(lifted)
  {
    StartLocks(g, a);
    var locked := Execute(Execute(g, [Snapshot(a), Insert(a)]), [LockCall(a, true, Confirmed), AfterCall(a)]);
    LiftRestores(locked, g.nextId, l);
    var lifted := Execute(locked, [Read(l, g.nextId), Restore(l, true, true), Record(l, false)]);
    assert forall id :: IsActive(lifted, id) ==> IsActive(g, id);
  }

  /** A lock call that lands after its lockdown is gone, or after somebody restored it or saw
      the group open, leaves the group locked with no lockdown to lift: at once, or as soon as
      the lifter or the settling read records what it saw. */
  lemma UntimelyLockStaysLocked(g: Group, a: nat, other: nat, normal: Rights) returns (last: Event)
    requires normal != LOCKED && a in g.starters && g.starters[a].Calling?
    requires var row := g.starters[a].row;
             && (forall id :: IsActive(g, id) ==> id == row)
             && (IsActive(g, row) ==>
                   || (other in g.lifters && g.lifters[other] == Restored(row))
                   || (other in g.settlers && g.settlers[other] == Saw(row, false) && Unconfirmed(g, row)))
    ensures !LockIsTimely(g, a)
    ensures last in {Crash(other), Record(other, false), SettleAct(other)}
    ensures !AnyActive(Execute(g, [LockCall(a, true, Unknown), last]))
    ensures Execute(g, [LockCall(a, true, Unknown), last]).live == LOCKED
  {
    var row := g.starters[a].row;
    last := if !IsActive(g, row) then Crash(other)
                else if other in g.lifters && g.lifters[other] == Restored(row) then Record(other, false)
                else SettleAct(other);
    var locked := Next(g, LockCall(a, true, Unknown));
    ExecuteThen(g, LockCall(a, true, Unknown), [last]);
    ExecuteThen(locked, last, []);
    assert forall id :: IsActive(Next(locked, last), id) ==> IsActive(g, id) && id != row;
  }

  /** A start whose snapshot and insert straddle the lift of an earlier lockdown stores the
      locked set as what to restore. */
  lemma StraddlingStartStoresLocked(g: Group, id: nat, a: nat, l: nat)
    requires g.live == LOCKED && IsActive(g, id) && a !in g.starters && l !in g.lifters && id < g.nextId
    requires forall i :: IsActive(g, i) ==> i == id
    ensures var t := Execute(Next(g, Snapshot(a)), [Read(l, id), Restore(l, true, true), Record(l, false)]);
            var stored := Next(t, Insert(a));
            IsActive(stored, g.nextId) && stored.rows[g.nextId].pre == LOCKED && stored.live == g.rows[id].pre
  {
    var s1 := Next(g, Snapshot(a));
    assert IsActive(s1, id) && s1.rows == g.rows;
    LiftRestores(s1, id, l);
    var t := Execute(s1, [Read(l, id), Restore(l, true, true), Record(l, false)]);
    assert forall i :: IsActive(t, i) ==> IsActive(g, i) && i != id;
    assert !AnyActive(t) && t.starters[a] == Snapshotted(LOCKED);
  }

  /** An active lockdown need not mean a locked group: a second lifter that read the first
      lockdown restores it after the next one locked the group, and then finds itself too
      late to record anything. */
  lemma LateLifterOpensTheNextLockdown(g: Group, earlier: nat, id: nat, l: nat)
    requires l in g.lifters && g.lifters[l].Reading? && g.lifters[l].row == earlier && earlier != id
    requires IsActive(g, id) && !IsActive(g, earlier) && g.live == LOCKED
    ensures var t := Execute(g, [Restore(l, true, true), Record(l, false)]);
            IsActive(t, id) && t.live == g.lifters[l].pre && t.rows == g.rows
  {
    var s1 := Next(g, Restore(l, true, true));
    ExecuteThen(g, Restore(l, true, true), [Record(l, false)]);
    ExecuteThen(s1, Record(l, false), []);
  }

  // Runs from a quiet group into each broken promise.

  lemma {:induction false} ExecuteConcat(g: Group, before: seq<Event>, after: seq<Event>)
    ensures Execute(g, before + after) == Execute(Execute(g, before), after)
    decreases |before|
  {
    if before == [] {
      assert before + after == after;
    } else {
      assert (before + after)[1..] == before[1..] + after;
      ExecuteConcat(Next(g, before[0]), before[1..], after);
    }
  }

  /** Some run leads from one group to the other. */
  ghost predicate Leads(g: Group, t: Group) {
    exists events :: Execute(g, events) == t
  }

  lemma LeadsOn(g: Group, t: Group, events: seq<Event>)
    requires Leads(g, t)
    ensures Leads(g, Execute(t, events))
  {
    var before :| Execute(g, before) == t;
    ExecuteConcat(g, before, events);
    assert Execute(g, before + events) == Execute(t, events);
  }

  lemma LeadsOnBy(g: Group, t: Group, e: Event)
    requires Leads(g, t)
    ensures Leads(g, Next(t, e))
  {
    LeadsOn(g, t, [e]);
    assert Execute(t, [e]) == Next(t, e);
  }

  lemma NextLockdownIsReachable(g: Group, t: Group, a: nat) returns (locked: Group)
    requires Leads(g, t) && !AnyActive(t) && a !in t.starters && t.nextId !in t.rows
    ensures Leads(g, locked)
    ensures locked == t.(live := LOCKED, rows := t.rows[t.nextId := Row(Active, t.live, true, None)],
                         nextId := t.nextId + 1)
  {
    var inserted := Execute(t, [Snapshot(a), Insert(a)]);
    locked := Execute(inserted, [LockCall(a, true, Confirmed), AfterCall(a)]);
    StartLocks(t, a);
    LeadsOn(g, t, [Snapshot(a), Insert(a)]);
    LeadsOn(g, inserted, [LockCall(a, true, Confirmed), AfterCall(a)]);
  }

  lemma QuietLeadsToItself(g: Group, normal: Rights)
    requires Quiet(g, normal)
    ensures Leads(g, g) && !AnyActive(g)
  {
    assert Execute(g, []) == g;
  }

  lemma StraddlingStartIsReachable(g: Group, normal: Rights) returns (t: Group)
    requires Quiet(g, normal)
    ensures Leads(g, t) && exists id :: IsActive(t, id) && t.rows[id].pre == LOCKED
  {
    QuietLeadsToItself(g, normal);
    var locked := NextLockdownIsReachable(g, g, 0);
    StraddlingStartStoresLocked(locked, g.nextId, 0, 0);
    var taken := Next(locked, Snapshot(0));
    var lift := [Read(0, g.nextId), Restore(0, true, true), Record(0, false)];
    LeadsOnBy(g, locked, Snapshot(0));
    LeadsOn(g, taken, lift);
    LeadsOnBy(g, Execute(taken, lift), Insert(0));
    t := Next(Execute(taken, lift), Insert(0));
  }

  lemma UntimelyLockIsReachable(g: Group, normal: Rights) returns (t: Group)
    requires Quiet(g, normal) && normal != LOCKED
    ensures Leads(g, t) && !AnyActive(t) && t.live == LOCKED
  {
    QuietLeadsToItself(g, normal);
    StartInserts(g, 0);
    LeadsOn(g, g, [Snapshot(0), Insert(0)]);
    var inserted := Execute(g, [Snapshot(0), Insert(0)]);
    var lift := [Read(0, g.nextId), Restore(0, true, true), Record(0, false)];
    LiftRestores(inserted, g.nextId, 0);
    LeadsOn(g, inserted, lift);
    var lifted := Execute(inserted, lift);
    assert forall id :: !IsActive(lifted, id);
    var last := UntimelyLockStaysLocked(lifted, 0, 0, normal);
    LeadsOn(g, lifted, [LockCall(0, true, Unknown), last]);
    t := Execute(lifted, [LockCall(0, true, Unknown), last]);
  }

  lemma SecondLockdownIsReachable(g: Group, normal: Rights) returns (t: Group)
    requires Quiet(g, normal)
    ensures Leads(g, t) && t.live == LOCKED && t.lifters == map[1 := Reading(g.nextId, normal)]
    ensures IsActive(t, g.nextId + 1) && !IsActive(t, g.nextId)
  {
    QuietLeadsToItself(g, normal);
    var locked := NextLockdownIsReachable(g, g, 0);
    LeadsOnBy(g, locked, Read(1, g.nextId));
    var read := Next(locked, Read(1, g.nextId));
    var lift := [Read(0, g.nextId), Restore(0, true, true), Record(0, false)];
    LiftRestores(read, g.nextId, 0);
    LeadsOn(g, read, lift);
    var lifted := Execute(read, lift);
    assert forall id :: !IsActive(lifted, id);
    t := NextLockdownIsReachable(g, lifted, 0);
  }

  lemma LateLifterIsReachable(g: Group, normal: Rights) returns (t: Group)
    requires Quiet(g, normal)
    ensures Leads(g, t) && AnyActive(t) && t.live == normal
  {
    var second := SecondLockdownIsReachable(g, normal);
    LateLifterOpensTheNextLockdown(second, g.nextId, g.nextId + 1, 1);
    LeadsOn(g, second, [Restore(1, true, true), Record(1, false)]);
    t := Execute(second, [Restore(1, true, true), Record(1, false)]);
  }
}
