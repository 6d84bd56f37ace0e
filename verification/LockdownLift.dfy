/** Starting and lifting one group's lockdown, call by call: what a group and its lockdown rows
    look like after every pattern of refused, confirmed and unanswered calls. */
module LockdownLift {
  import opened Wrappers
  import opened LockdownRows

  // Permission sets.

  datatype Json = Flag(on: bool) | OtherValue

  /** A decoded permission set. */
  type Raw = map<string, Json>

  /** What a permission text holds. */
  datatype PermissionText = Object(raw: Raw) | NullText | NotAnObject

  /** The JSON null decodes into a set of rights as an empty one does. */
  function Decoded(text: PermissionText): Option<Raw> {
    match text
    case Object(raw) => Some(raw)
    case NullText => Some(map[])
    case NotAnObject => None
  }

  /** The keys whose value is the boolean true. */
  ghost function Grants(raw: Raw): set<string> {
    set k | k in raw && raw[k] == Flag(true)
  }

  /** An error exactly for a text that is neither an object nor null. */
  method CanonicalPermissions(text: PermissionText) returns (granted: Option<map<string, bool>>)
    ensures match text
            case Object(raw) => granted == Some(map k | k in raw && raw[k] == Flag(true) :: true)
            case NullText => granted == Some(map[])
            case NotAnObject => granted == None
  {
    var decoded := Decoded(text);
    if decoded == None {
      return None;
    }
    var generic := decoded.value;
    var keys, found := generic.Keys, map[];
    while keys != {}
      invariant keys <= generic.Keys
      invariant found == map k | k in generic && generic[k] == Flag(true) && k !in keys :: true
      decreases |keys|
    {
      var key :| key in keys;
      if generic[key] == Flag(true) {
        found := found[key := true];
      }
      keys := keys - {key};
    }
    assert found == map k | k in generic && generic[k] == Flag(true) :: true;
    return Some(found);
  }

  lemma SameGrants(a: Raw, b: Raw)
    ensures Grants(a) == Grants(b) <==>
            forall k :: (k in a && a[k] == Flag(true)) <==> (k in b && b[k] == Flag(true))
  {
    if forall k :: (k in a && a[k] == Flag(true)) <==> (k in b && b[k] == Flag(true)) {
      assert forall k :: k in Grants(a) <==> k in Grants(b);
    } else {
      var k :| (k in a && a[k] == Flag(true)) != (k in b && b[k] == Flag(true));
      assert k in Grants(a) <==> k !in Grants(b);
    }
  }

  method SamePermissions(a: PermissionText, b: PermissionText) returns (same: Option<bool>)
    ensures same == None <==> NotAnObject in {a, b}
    ensures same.Some? ==> (same.value <==> Grants(Decoded(a).value) == Grants(Decoded(b).value))
    ensures a.Object? && b.Object? ==>
              same == Some(forall k ::
                (k in a.raw && a.raw[k] == Flag(true)) <==> (k in b.raw && b.raw[k] == Flag(true)))
    ensures a.Object? && b == NullText ==> same == Some(forall k :: k in a.raw ==> a.raw[k] != Flag(true))
  {
    var left := CanonicalPermissions(a);
    if left == None {
      return None;
    }
    var right := CanonicalPermissions(b);
    if right == None {
      return None;
    }
    SameGrants(Decoded(a).value, Decoded(b).value);
    assert left.value.Keys == Grants(Decoded(a).value) && right.value.Keys == Grants(Decoded(b).value);
    return Some(left.value == right.value);
  }

  /** The comparison sees neither the order of the keys nor whether a right that is off was
      written out, and it sees every right that is on. */
  lemma OnlyGrantedRightsCount(raw: Raw, key: string, value: Json)
    ensures value != Flag(true) && key !in raw ==> Grants(raw[key := value]) == Grants(raw)
    ensures value == Flag(true) ==> Grants(raw[key := value]) == Grants(raw) + {key}
    ensures value != Flag(true) ==> Grants(raw[key := value]) == Grants(raw) - {key}
  {
  }

  // The group.

  datatype Row = Row(state: LockdownState, pre: Raw, confirmed: bool, liftedBy: Option<int>, manualChange: bool)

  /** A Telegram call that may land without its answer arriving. Only a definitive refusal
      says that it did not land. */
  datatype Call = Confirmed | Refused | NoAnswer(landed: bool)

  predicate Lands(c: Call) {
    c == Confirmed || c == NoAnswer(true)
  }

  datatype LiftOutcome = LiftDone | RestoreFailed | RecordFailed | LiftLost
  datatype LiftResult = LiftResult(outcome: LiftOutcome, finished: bool)

  /** What a lift meets: the group's permissions as getChat answers (None when it fails or
      carries none), the restore, and whether the two row updates fail or find open joiners. */
  datatype LiftWeather = LiftWeather(chat: Option<Raw>, restore: Call, recordFails: bool, finishFails: bool,
    openJoiners: bool)

  datatype ApplyOutcome = StateFailed | NotActive | Applied(lift: LiftOutcome) | InProgress | AlreadyLifted

  datatype StartOutcome = AlreadyActive | LockFailed | LockUnknown | Started

  /** The row a status read answers: the active one, else the newest one being lifted. */
  ghost predicate IsCurrent(rows: map<nat, Row>, current: Option<nat>) {
    match current
    case None => forall i :: i in rows ==> rows[i].state == Lifted
    case Some(id) =>
      && id in rows
      && (rows[id].state == Active ||
          (rows[id].state == Lifting &&
           forall i :: i in rows ==> rows[i].state != Active && (rows[i].state == Lifting ==> i <= id)))
  }

  class Group {
    var live: Raw
    var rows: map<nat, Row>
    const locked: Raw

    constructor (live: Raw, locked: Raw)
      ensures this.live == live && this.locked == locked && rows == map[]
    {
      this.live := live;
      this.locked := locked;
      rows := map[];
    }

    /** Only an answer of true counts as a confirmation. */
    method SetPermissions(raw: Raw, call: Call) returns (confirmed: bool)
      modifies this`live
      ensures confirmed <==> call == Confirmed
      ensures live == if call in {Confirmed, NoAnswer(true)} then raw else old(live)
    {
      if Lands(call) {
        live := raw;
      }
      return call == Confirmed;
    }

    method BeginLift(id: nat, actor: int, manualChange: bool, fails: bool) returns (won: Option<bool>)
      modifies this`rows
      ensures won == None <==> fails
      ensures won == Some(true) <==> !fails && old(id in rows && rows[id].state == Active)
      ensures rows == if won == Some(true)
                      then old(rows)[id := old(rows)[id].(
                             state := Lifting, liftedBy := Some(actor), manualChange := manualChange)]
                      else old(rows)
    {
      if fails {
        return None;
      }
      if id !in rows || rows[id].state != Active {
        return Some(false);
      }
      rows := rows[id := rows[id].(state := Lifting, liftedBy := Some(actor), manualChange := manualChange)];
      return Some(true);
    }

    method FinishLift(id: nat, openJoiners: bool, fails: bool) returns (finished: bool)
      modifies this`rows
      ensures finished <==> !fails && !openJoiners && old(id in rows && rows[id].state == Lifting)
      ensures rows == if finished then old(rows)[id := old(rows)[id].(state := Lifted)] else old(rows)
    {
      if fails || openJoiners || id !in rows || rows[id].state != Lifting {
        return false;
      }
      rows := rows[id := rows[id].(state := Lifted)];
      return true;
    }

    /** Lifts a lockdown read earlier as `row`: the restore comes first, and only a confirmed
        one is recorded, by the one caller that still finds the lockdown active. Whatever the
        outcome, the only permissions ever sent are the row's own. */
    method LiftRow(id: nat, row: Row, actor: int, w: LiftWeather) returns (res: LiftResult)
      requires id in rows && rows[id].pre == row.pre
      modifies this
      ensures live == if w.restore in {Confirmed, NoAnswer(true)} then row.pre else old(live)
      ensures res.outcome == LiftDone <==> w.restore == Confirmed && !w.recordFails && old(rows[id].state) == Active
      ensures res.outcome == RestoreFailed <==> w.restore != Confirmed
      ensures res.outcome == RecordFailed <==> w.restore == Confirmed && w.recordFails
      ensures res.outcome != LiftDone ==> rows == old(rows) && !res.finished
      ensures res.outcome == LiftDone ==>
                && res.finished == (!w.finishFails && !w.openJoiners)
                && rows == old(rows)[id := old(rows)[id].(
                     state := if res.finished then Lifted else Lifting, liftedBy := Some(actor),
                     manualChange := row.confirmed && w.chat.Some? && Grants(w.chat.value) != Grants(locked))]
    {
      var manualChange := false;
      if row.confirmed && w.chat.Some? {
        var same := SamePermissions(Object(w.chat.value), Object(locked));
        manualChange := same == Some(false);
      }
      var restored := SetPermissions(row.pre, w.restore);
      if !restored {
        return LiftResult(RestoreFailed, false);
      }
      var won := BeginLift(id, actor, manualChange, w.recordFails);
      match won {
        case None => return LiftResult(RecordFailed, false);
        case Some(first) =>
          if !first {
            return LiftResult(LiftLost, false);
          }
      }
      var finished := FinishLift(id, w.openJoiners, w.finishFails);
      return LiftResult(LiftDone, finished);
    }

    /** The lift entry of the command and of the settings card. `lookup` is the answer of the
        status read, None when it failed, and `onlyId` the lockdown a card was confirmed for
        (0 for the command). A card never touches another lockdown than its own, and a lift
        already in progress is never started again. */
    method ApplyLiftOf(actor: int, onlyId: nat, lookup: Option<Option<nat>>, w: LiftWeather) returns (out: ApplyOutcome)
      requires lookup.Some? ==> IsCurrent(rows, lookup.value)
      modifies this
      ensures out == StateFailed <==> lookup == None
      ensures out == NotActive <==> lookup == Some(None)
      ensures out == AlreadyLifted <==>
                lookup.Some? && lookup.value.Some? && onlyId != 0 && lookup.value.value != onlyId
      ensures out.Applied? <==> lookup.Some? && lookup.value.Some? && onlyId in {0, lookup.value.value}
                                && old(rows)[lookup.value.value].state == Active
      ensures !out.Applied? ==> rows == old(rows) && live == old(live)
      ensures out.Applied? ==>
                var id := lookup.value.value;
                && rows.Keys == old(rows.Keys)
                && (forall i :: i in rows && i != id ==> rows[i] == old(rows)[i])
                && live == (if w.restore in {Confirmed, NoAnswer(true)} then old(rows)[id].pre else old(live))
                && (out.lift == LiftDone <==> w.restore == Confirmed && !w.recordFails)
                && (out.lift == RestoreFailed <==> w.restore != Confirmed)
                && (out.lift == RecordFailed <==> w.restore == Confirmed && w.recordFails)
                && (out.lift != LiftDone ==> rows == old(rows))
                && (out.lift == LiftDone ==>
                      rows[id] == Row(if w.finishFails || w.openJoiners then Lifting else Lifted, old(rows)[id].pre,
                                      old(rows)[id].confirmed, Some(actor), rows[id].manualChange))
    {
      if lookup == None {
        return StateFailed;
      }
      if lookup.value == None {
        return NotActive;
      }
      var id := lookup.value.value;
      if onlyId != 0 && id != onlyId {
        return AlreadyLifted;
      }
      if rows[id].state == Lifting {
        return InProgress;
      }
      var res := LiftRow(id, rows[id], actor, w);
      return Applied(res.outcome);
    }

    /** Starts a lockdown from the snapshot `pre`, behind the one-active-row index. A lock
        whose fate is unknown keeps its row, which holds the only copy of what to restore; a
        refused one leaves no trace. */
    method StartRow(id: nat, pre: Raw, lock: Call, confirmFails: bool) returns (out: StartOutcome)
      requires id !in rows
      modifies this
      ensures out == AlreadyActive <==> exists i :: i in old(rows) && old(rows)[i].state == Active
      ensures out != AlreadyActive ==>
                match lock
                case Confirmed =>
                  && out == Started && live == locked
                  && rows == old(rows)[id := Row(Active, pre, !confirmFails, None, false)]
                case NoAnswer(landed) =>
                  && out == LockUnknown && live == (if landed then locked else old(live))
                  && rows == old(rows)[id := Row(Active, pre, false, None, false)]
                case Refused => out == LockFailed && rows == old(rows) && live == old(live)
      ensures out == AlreadyActive ==> rows == old(rows) && live == old(live)
    {
      var keys, active := rows.Keys, false;
      while keys != {}
        invariant keys <= rows.Keys
        invariant rows == old(rows) && live == old(live)
        invariant active <==> exists i :: i in rows && i !in keys && rows[i].state == Active
        decreases |keys|
      {
        var i :| i in keys;
        if rows[i].state == Active {
          active := true;
        }
        keys := keys - {i};
      }
      if active {
        return AlreadyActive;
      }
      rows := rows[id := Row(Active, pre, false, None, false)];
      var confirmed := SetPermissions(locked, lock);
      if !confirmed {
        if lock.NoAnswer? {
          return LockUnknown;
        }
        rows := rows - {id};
        assert rows == old(rows);
        return LockFailed;
      }
      if !confirmFails {
        rows := rows[id := rows[id].(confirmed := true)];
      }
      return Started;
    }
  }

  /** A start and its lift: the group gets back exactly what it had before, if and only if the
      restore is confirmed and recorded; otherwise the lockdown stays active with its snapshot. */
  method StartThenLift(g: Group, id: nat, lock: Call, confirmFails: bool, actor: int, w: LiftWeather)
    returns (out: StartOutcome, lifted: bool)
    requires g.rows == map[]
    modifies g
    ensures out == (match lock case Confirmed => Started case Refused => LockFailed case NoAnswer(_) => LockUnknown)
    ensures out == LockFailed ==> g.live == old(g.live) && g.rows == map[] && !lifted
    ensures lifted <==> out != LockFailed && w.restore == Confirmed && !w.recordFails
    ensures lifted ==> g.live == old(g.live) && g.rows.Keys == {id}
    ensures lifted ==> g.rows[id].state != Active && g.rows[id].liftedBy == Some(actor)
    ensures out != LockFailed && !lifted ==>
              g.rows.Keys == {id} && g.rows[id].state == Active && g.rows[id].pre == old(g.live)
  {
    out := g.StartRow(id, g.live, lock, confirmFails);
    lifted := false;
    if out != LockFailed {
      var result := g.ApplyLiftOf(actor, 0, Some(Some(id)), w);
      lifted := result == Applied(LiftDone);
    }
  }
}
