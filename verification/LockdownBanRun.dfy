/** A permanent-ban run on any number of replicas: each lists queued accounts, claims them one
    at a time, handles them, may crash in between, and any of them may stop or finish the run. */
module LockdownBanRun {
  import opened Wrappers
  import opened LockdownRows
  import opened LockdownBurst

  /** A worker: the batch it listed, with the attempt counters of that moment, and the account
      it holds. */
  datatype Replica = Replica(listed: map<int, nat>, hand: Option<int>)

  datatype Run = Run(rows: map<int, BurstRow>, state: RunState, replicas: map<nat, Replica>)

  /** The run all queued rows belong to. */
  const RUN := Some(1)

  datatype Step =
    | List(r: nat, users: set<int>)
    | Take(r: nat, user: int)
    | Give(r: nat, verdict: Verdict)
    | Die(r: nat)
    | ReleaseStale(user: int)
    | Unqueue
    | Finish(to: RunState)

  predicate HeldBy(m: Run, r: nat, user: int) {
    r in m.replicas && m.replicas[r].hand == Some(user)
  }

  predicate NothingOpen(rows: map<int, BurstRow>) {
    forall u :: u in rows && rows[u].run == RUN ==> !Open(rows[u].state)
  }

  function With(m: Run, user: int, row: BurstRow, r: nat, replica: Replica): Run {
    m.(rows := m.rows[user := row], replicas := m.replicas[r := replica])
  }

  function Next(m: Run, step: Step): Run {
    match step
    case List(r, users) =>
      if r in m.replicas && m.replicas[r].hand.Some? then m
      else
        var listed := map u | u in users && u in m.rows && m.rows[u].run == RUN && m.rows[u].state == Queued
                          :: m.rows[u].attempts;
        m.(replicas := m.replicas[r := Replica(listed, None)])
    case Take(r, user) =>
      if r in m.replicas && m.replicas[r].hand.None? && user in m.replicas[r].listed
         && user in m.rows && m.rows[user].state == Queued
      then With(m, user, m.rows[user].(state := InHand), r, m.replicas[r].(hand := Some(user)))
      else m
    case Give(r, verdict) =>
      if r in m.replicas && m.replicas[r].hand.Some? && m.replicas[r].hand.value in m.rows
         && m.replicas[r].hand.value in m.replicas[r].listed then
        var user := m.replicas[r].hand.value;
        var row := m.rows[user];
        With(m, user, if row.state == InHand then Handled(row, m.replicas[r].listed[user], verdict) else row,
             r, Replica(m.replicas[r].listed - {user}, None))
      else m
    case Die(r) =>
      if r in m.replicas then m.(replicas := m.replicas[r := Replica(map[], None)]) else m
    case ReleaseStale(user) =>
      if user in m.rows && m.rows[user].state == InHand && !exists r :: r in m.replicas && HeldBy(m, r, user)
      then m.(rows := m.rows[user := m.rows[user].(state := Queued)]) else m
    case Unqueue =>
      m.(rows := map u | u in m.rows ::
           if m.rows[u].run == RUN && m.rows[u].state == Queued
           then m.rows[u].(state := NoRun, run := None) else m.rows[u])
    case Finish(to) =>
      if m.state == Running && to != Running && (to == Done ==> NothingOpen(m.rows)) then m.(state := to) else m
  }

  function Execute(m: Run, steps: seq<Step>): Run
    decreases |steps|
  {
    if steps == [] then m else Execute(Next(m, steps[0]), steps[1..])
  }

  /** A run as it starts: every row queued for it with its counter at zero, no replica busy. */
  predicate Started(m: Run) {
    && m.state == Running && m.replicas == map[]
    && forall u :: u in m.rows ==> m.rows[u].run == RUN && m.rows[u].state == Queued && m.rows[u].attempts == 0
  }

  ghost predicate Tidy(m: Run) {
    && (forall u :: u in m.rows ==>
          (m.rows[u].run == RUN && m.rows[u].state != NoRun) || (m.rows[u].run == None && m.rows[u].state == NoRun))
    && (forall r, u :: r in m.replicas && u in m.replicas[r].listed ==>
          u in m.rows && m.replicas[r].listed[u] <= m.rows[u].attempts)
    && (m.state == Done ==> NothingOpen(m.rows))
  }

  ghost predicate HeldInHand(m: Run) {
    forall r, u :: HeldBy(m, r, u) ==> u in m.rows && m.rows[u].state == InHand && u in m.replicas[r].listed
  }

  ghost predicate OneHolder(m: Run) {
    forall r, q, u :: HeldBy(m, r, u) && HeldBy(m, q, u) ==> r == q
  }

  ghost predicate Inv(m: Run) {
    Tidy(m) && HeldInHand(m) && OneHolder(m)
  }

  /** What any step does to the rows: a final row never moves, an attempt is never lost. */
  lemma RowsAdvance(m: Run, step: Step)
    requires HeldInHand(m)
    ensures Next(m, step).rows.Keys == m.rows.Keys
    ensures forall u :: u in m.rows && Final(m.rows[u].state) ==> Next(m, step).rows[u] == m.rows[u]
    ensures forall u :: u in m.rows ==> m.rows[u].attempts <= Next(m, step).rows[u].attempts
    ensures m.state != Running ==> Next(m, step).state == m.state
  {
  }

  /** The only way to hold an account is to have held it or to take it while it is queued. */
  lemma HoldersBefore(m: Run, step: Step, r: nat, user: int)
    requires HeldBy(Next(m, step), r, user)
    ensures HeldBy(m, r, user) ||
            (step == Take(r, user) && r in m.replicas && user in m.replicas[r].listed && user in m.rows
             && m.rows[user].state == Queued && Next(m, step).replicas[r].listed == m.replicas[r].listed
             && Next(m, step).rows[user] == m.rows[user].(state := InHand))
    ensures HeldBy(m, r, user) ==> Next(m, step).replicas[r] == m.replicas[r]
    ensures HeldBy(m, r, user) && OneHolder(m) && user in m.rows && m.rows[user].state == InHand ==>
              user in Next(m, step).rows && Next(m, step).rows[user] == m.rows[user]
  {
    if step.Give? && step.r in m.replicas && m.replicas[step.r].hand.Some? {
      assert HeldBy(m, step.r, m.replicas[step.r].hand.value);
    }
  }

  lemma NextKeepsInv(m: Run, step: Step)
    requires Inv(m)
    ensures Inv(Next(m, step))
  {
    var n := Next(m, step);
    RowsAdvance(m, step);
    forall r, u | HeldBy(n, r, u)
      ensures u in n.rows && n.rows[u].state == InHand && u in n.replicas[r].listed
    {
      HoldersBefore(m, step, r, u);
    }
    forall r, q, u | HeldBy(n, r, u) && HeldBy(n, q, u) ensures r == q {
      HoldersBefore(m, step, r, u);
      HoldersBefore(m, step, q, u);
    }
    NextStaysTidy(m, step);
  }

  lemma NextStaysTidy(m: Run, step: Step)
    requires Inv(m)
    ensures Tidy(Next(m, step))
  {
    assert step.Give? && step.r in m.replicas && m.replicas[step.r].hand.Some? ==>
      HeldBy(m, step.r, m.replicas[step.r].hand.value);
  }

  /** In every run, on any replicas and with any crashes: no row is ever held twice, a final
      row never moves again and none of its attempts are lost, the run ends once, and a run
      that is done has, from then on, every account of its queue banned, skipped or failed,
      or given back to nobody. */
  lemma {:induction false} EveryAccountOnce(m: Run, steps: seq<Step>)
    requires Inv(m)
    ensures var n := Execute(m, steps);
            && Inv(n) && n.rows.Keys == m.rows.Keys
            && (forall u :: u in m.rows && Final(m.rows[u].state) ==> n.rows[u] == m.rows[u])
            && (m.state != Running ==> n.state == m.state)
            && (n.state == Done ==> forall u :: u in n.rows ==>
                  || (n.rows[u].run == RUN && Final(n.rows[u].state))
                  || (n.rows[u].run == None && n.rows[u].state == NoRun))
    decreases |steps|
  {
    if steps != [] {
      NextKeepsInv(m, steps[0]);
      RowsAdvance(m, steps[0]);
      EveryAccountOnce(Next(m, steps[0]), steps[1..]);
    }
  }

  lemma StartedIsInv(m: Run)
    requires Started(m)
    ensures Inv(m)
  {
  }

  // The attempt budget.

  /** Whether a failure counted now is the last one the account is given. */
  predicate LastTry(attempts: nat) {
    attempts + 1 >= MAX_ATTEMPTS
  }

  /** A claim is timely when the counter the batch listed still answers that question as the
      row does; a counter that moved since the listing can make it untimely. */
  predicate Timely(m: Run, step: Step) {
    step.Take? && step.r in m.replicas && step.user in m.replicas[step.r].listed && step.user in m.rows ==>
      (LastTry(m.replicas[step.r].listed[step.user]) <==> LastTry(m.rows[step.user].attempts))
  }

  predicate AllTimely(m: Run, steps: seq<Step>)
    decreases |steps|
  {
    steps == [] || (Timely(m, steps[0]) && AllTimely(Next(m, steps[0]), steps[1..]))
  }

  ghost predicate OnBudget(m: Run) {
    && (forall u :: u in m.rows ==>
          if m.rows[u].state == Failed then m.rows[u].attempts == MAX_ATTEMPTS else m.rows[u].attempts < MAX_ATTEMPTS)
    && (forall r, u :: HeldBy(m, r, u) && u in m.replicas[r].listed && u in m.rows ==>
          (LastTry(m.replicas[r].listed[u]) <==> LastTry(m.rows[u].attempts)))
  }

  lemma RowsStayOnBudget(m: Run, step: Step)
    requires Inv(m) && OnBudget(m)
    ensures var n := Next(m, step);
            forall u :: u in n.rows ==>
              if n.rows[u].state == Failed
              then n.rows[u].attempts == MAX_ATTEMPTS else n.rows[u].attempts < MAX_ATTEMPTS
  {
    assert step.Give? && step.r in m.replicas && m.replicas[step.r].hand.Some? ==>
      HeldBy(m, step.r, m.replicas[step.r].hand.value);
  }

  lemma NextStaysOnBudget(m: Run, step: Step)
    requires Inv(m) && OnBudget(m) && Timely(m, step)
    ensures OnBudget(Next(m, step))
  {
    var n := Next(m, step);
    forall q, u | HeldBy(n, q, u) && u in n.replicas[q].listed && u in n.rows
      ensures LastTry(n.replicas[q].listed[u]) <==> LastTry(n.rows[u].attempts)
    {
      HoldersBefore(m, step, q, u);
    }
    RowsStayOnBudget(m, step);
  }

  /** A handling that settles an account or costs it an attempt. */
  predicate Spends(m: Run, step: Step) {
    step.Give? && step.r in m.replicas && m.replicas[step.r].hand.Some? && !step.verdict.Back?
  }

  function Spent(m: Run, steps: seq<Step>): nat
    decreases |steps|
  {
    if steps == [] then 0
    else (if Spends(m, steps[0]) then 1 else 0) + Spent(Next(m, steps[0]), steps[1..])
  }

  /** The attempts left of `cap` for an open account. */
  function Left(row: BurstRow, cap: nat): nat {
    if row.run == RUN && Open(row.state) && row.attempts < cap then cap - row.attempts else 0
  }

  /** The attempts left over the open accounts of a queue. */
  function Budget(rows: map<int, BurstRow>, queue: seq<int>, cap: nat): nat {
    if queue == [] then 0
    else (if queue[0] in rows then Left(rows[queue[0]], cap) else 0) + Budget(rows, queue[1..], cap)
  }

  lemma {:induction false} BudgetFalls(before: map<int, BurstRow>, after: map<int, BurstRow>, queue: seq<int>, cap: nat)
    requires forall u :: u in after ==> u in before && Left(after[u], cap) <= Left(before[u], cap)
    ensures Budget(after, queue, cap) <= Budget(before, queue, cap)
    ensures forall u :: u in queue && u in after && Left(after[u], cap) < Left(before[u], cap) ==>
              Budget(after, queue, cap) < Budget(before, queue, cap)
  {
    if queue != [] {
      BudgetFalls(before, after, queue[1..], cap);
    }
  }

  /** An account that has not failed has attempts left of the cap, and a failed one kept to it. */
  ghost predicate Under(m: Run, cap: nat) {
    forall u :: u in m.rows ==> m.rows[u].attempts <= cap && (m.rows[u].state != Failed ==> m.rows[u].attempts < cap)
  }

  lemma NextSpends(m: Run, step: Step, queue: seq<int>, cap: nat)
    requires Inv(m) && Under(m, cap)
    requires forall u :: u in m.rows ==> u in queue
    ensures Budget(Next(m, step).rows, queue, cap) + (if Spends(m, step) then 1 else 0) <= Budget(m.rows, queue, cap)
  {
    RowsAdvance(m, step);
    var n := Next(m, step);
    assert step.Give? && step.r in m.replicas && m.replicas[step.r].hand.Some? ==>
      HeldBy(m, step.r, m.replicas[step.r].hand.value);
    forall u | u in n.rows ensures Left(n.rows[u], cap) <= Left(m.rows[u], cap) {
    }
    BudgetFalls(m.rows, n.rows, queue, cap);
    if Spends(m, step) {
      var u := m.replicas[step.r].hand.value;
      assert Left(n.rows[u], cap) < Left(m.rows[u], cap);
    }
  }

  lemma {:induction false} BudgetOfStart(rows: map<int, BurstRow>, queue: seq<int>, cap: nat)
    ensures Budget(rows, queue, cap) <= cap * |queue|
  {
    if queue != [] {
      BudgetOfStart(rows, queue[1..], cap);
    }
  }

  // The bound of every run, by the number of replicas.

  /** The team is all the replicas there are. */
  predicate Staffed(steps: seq<Step>, team: set<nat>) {
    forall i :: 0 <= i < |steps| && steps[i].List? ==> steps[i].r in team
  }

  ghost predicate Manned(m: Run, team: set<nat>) {
    forall r :: r in m.replicas ==> r in team
  }

  /** The replicas whose listing still promises the account another try after a failure. */
  ghost function Outdated(m: Run, u: int, team: set<nat>): set<nat> {
    set r | r in team && r in m.replicas && u in m.replicas[r].listed && !LastTry(m.replicas[r].listed[u])
  }

  /** How many counted failures an account may get: one more for each replica but the first. */
  function Cap(team: set<nat>): nat {
    if team == {} then MAX_ATTEMPTS else MAX_ATTEMPTS + |team| - 1
  }

  /** An account near its limit has room for each listing that does not know it yet. */
  ghost predicate HasRoom(m: Run, u: int, team: set<nat>)
    requires u in m.rows
  {
    if m.rows[u].state == Failed then m.rows[u].attempts <= Cap(team)
    else LastTry(m.rows[u].attempts) ==> m.rows[u].attempts + |Outdated(m, u, team)| < Cap(team)
  }

  ghost predicate AllHaveRoom(m: Run, team: set<nat>) {
    forall u :: u in m.rows ==> HasRoom(m, u, team)
  }

  lemma {:induction false} Fewer(a: set<nat>, b: set<nat>)
    requires a <= b
    ensures |a| <= |b|
    decreases a
  {
    if x :| x in a {
      Fewer(a - {x}, b - {x});
    }
  }

  /** A step that costs the account no attempt, and lists it for nobody or as it is, leaves room. */
  lemma RoomStays(m: Run, n: Run, u: int, team: set<nat>)
    requires u in m.rows && u in n.rows && HasRoom(m, u, team) && n.rows[u].attempts == m.rows[u].attempts
    requires n.rows[u].state == Failed <==> m.rows[u].state == Failed
    requires LastTry(m.rows[u].attempts) ==> Outdated(n, u, team) <= Outdated(m, u, team)
    ensures HasRoom(n, u, team)
  {
    if LastTry(m.rows[u].attempts) {
      Fewer(Outdated(n, u, team), Outdated(m, u, team));
    }
  }

  /** A counted failure takes its own listing away. */
  lemma MissLeavesRoom(m: Run, n: Run, r: nat, u: int, team: set<nat>)
    requires u in m.rows && u in n.rows && HasRoom(m, u, team) && r in team && m.rows[u].state != Failed
    requires r in m.replicas && u in m.replicas[r].listed && n.rows[u].attempts == m.rows[u].attempts + 1
    requires Outdated(n, u, team) <= Outdated(m, u, team) - {r}
    requires n.rows[u].state == Failed <==> LastTry(m.replicas[r].listed[u])
    ensures HasRoom(n, u, team)
  {
    var before, after := Outdated(m, u, team), Outdated(n, u, team);
    assert |team| >= 1 && |team - {r}| == |team| - 1;
    if LastTry(m.rows[u].attempts) {
      Fewer(after, before - {r});
      assert r in before ==> |before - {r}| == |before| - 1;
    } else {
      Fewer(after, team - {r});
    }
  }

  lemma GiveLeavesRoom(m: Run, step: Step, u: int, team: set<nat>)
    requires Inv(m) && AllHaveRoom(m, team) && Manned(m, team) && step.Give? && u in m.rows
    ensures HasRoom(Next(m, step), u, team)
  {
    var n := Next(m, step);
    if step.r in m.replicas && m.replicas[step.r].hand.Some? {
      var user := m.replicas[step.r].hand.value;
      assert HeldBy(m, step.r, user) && m.rows[user].state == InHand;
      if u == user && step.verdict.Miss? {
        MissLeavesRoom(m, n, step.r, u, team);
      } else {
        RoomStays(m, n, u, team);
      }
    }
  }

  lemma OthersLeaveRoom(m: Run, step: Step, u: int, team: set<nat>)
    requires Inv(m) && AllHaveRoom(m, team) && !step.Give? && u in m.rows
    ensures HasRoom(Next(m, step), u, team)
  {
    RoomStays(m, Next(m, step), u, team);
  }

  lemma NextLeavesRoom(m: Run, step: Step, team: set<nat>)
    requires Inv(m) && AllHaveRoom(m, team) && Manned(m, team) && (step.List? ==> step.r in team)
    ensures AllHaveRoom(Next(m, step), team) && Manned(Next(m, step), team)
  {
    RowsAdvance(m, step);
    forall u | u in Next(m, step).rows
      ensures HasRoom(Next(m, step), u, team)
    {
      if step.Give? {
        GiveLeavesRoom(m, step, u, team);
      } else {
        OthersLeaveRoom(m, step, u, team);
      }
    }
  }

  lemma RoomIsUnder(m: Run, team: set<nat>)
    requires AllHaveRoom(m, team)
    ensures Under(m, Cap(team))
  {
  }

  /** Over every run, whatever crashes and however the batches are listed: an account gets at most
      the allowed failures and one more for each replica but the first, and so many spending
      calls. One replica alone keeps to the allowed number. */
  lemma {:induction false} TeamIsBounded(m: Run, steps: seq<Step>, queue: seq<int>, team: set<nat>)
    requires Inv(m) && AllHaveRoom(m, team) && Manned(m, team) && Staffed(steps, team)
    requires forall u :: u in m.rows ==> u in queue
    ensures Under(Execute(m, steps), Cap(team))
    ensures Spent(m, steps) + Budget(Execute(m, steps).rows, queue, Cap(team)) <= Budget(m.rows, queue, Cap(team))
    decreases |steps|
  {
    RoomIsUnder(m, team);
    if steps != [] {
      NextKeepsInv(m, steps[0]);
      RowsAdvance(m, steps[0]);
      NextLeavesRoom(m, steps[0], team);
      NextSpends(m, steps[0], queue, Cap(team));
      assert forall i :: 0 <= i < |steps| - 1 ==> steps[1..][i] == steps[i + 1];
      TeamIsBounded(Next(m, steps[0]), steps[1..], queue, team);
    }
  }

  lemma EveryRunIsBounded(m: Run, steps: seq<Step>, queue: seq<int>, team: set<nat>)
    requires Started(m) && Staffed(steps, team)
    requires forall u :: u in m.rows ==> u in queue
    ensures Spent(m, steps) <= Cap(team) * |queue|
    ensures var n := Execute(m, steps); forall u :: u in n.rows ==> n.rows[u].attempts <= Cap(team)
  {
    StartedIsInv(m);
    TeamIsBounded(m, steps, queue, team);
    BudgetOfStart(m.rows, queue, Cap(team));
  }

  // Timely claims keep to the allowed number on any team.

  /** With timely claims an account fails after exactly the allowed number of counted attempts,
      and a whole run makes at most that many spending calls per queued account, however
      often workers crash and claims are released. */
  lemma {:induction false} RunIsBounded(m: Run, steps: seq<Step>, queue: seq<int>)
    requires Inv(m) && OnBudget(m) && AllTimely(m, steps)
    requires forall u :: u in m.rows ==> u in queue
    ensures OnBudget(Execute(m, steps))
    ensures Spent(m, steps) + Budget(Execute(m, steps).rows, queue, MAX_ATTEMPTS) <= Budget(m.rows, queue, MAX_ATTEMPTS)
    decreases |steps|
  {
    if steps != [] {
      NextKeepsInv(m, steps[0]);
      RowsAdvance(m, steps[0]);
      NextStaysOnBudget(m, steps[0]);
      NextSpends(m, steps[0], queue, MAX_ATTEMPTS);
      RunIsBounded(Next(m, steps[0]), steps[1..], queue);
    }
  }

  /** So a run whose claims are timely makes at most three spending calls for each account it
      started with, and an account it gives up on had exactly three counted failures. */
  lemma StartedRunIsBounded(m: Run, steps: seq<Step>, queue: seq<int>)
    requires Started(m) && AllTimely(m, steps)
    requires forall u :: u in m.rows ==> u in queue
    ensures Spent(m, steps) <= MAX_ATTEMPTS * |queue|
    ensures var n := Execute(m, steps);
            forall u :: u in n.rows ==>
              if n.rows[u].state == Failed
              then n.rows[u].attempts == MAX_ATTEMPTS else n.rows[u].attempts < MAX_ATTEMPTS
  {
    StartedIsInv(m);
    RunIsBounded(m, steps, queue);
    BudgetOfStart(m.rows, queue, MAX_ATTEMPTS);
  }

  /** The exact condition: a failing handling of a queued account keeps the budget exactly
      when its claim is timely. Two replicas that listed the same account break it, and the
      account then gets more than the allowed number of counted failures. */
  lemma UntimelyClaimOverruns(m: Run, r: nat, user: int)
    requires Inv(m) && OnBudget(m)
    requires r in m.replicas && m.replicas[r].hand.None? && user in m.replicas[r].listed
    requires user in m.rows && m.rows[user].state == Queued
    ensures var row := Next(Next(m, Take(r, user)), Give(r, Miss(""))).rows[user];
            (if row.state == Failed then row.attempts == MAX_ATTEMPTS else row.attempts < MAX_ATTEMPTS)
            <==> Timely(m, Take(r, user))
  {
    var taken := Next(m, Take(r, user));
    assert taken.replicas[r].hand == Some(user) && taken.rows[user].state == InHand;
  }

  /** One replica lists an account, takes it and meets a failed call. */
  function MissSteps(r: nat, user: int): seq<Step> {
    [List(r, {user}), Take(r, user), Give(r, Miss(""))]
  }

  lemma {:induction false} ExecuteThen(m: Run, step: Step, rest: seq<Step>)
    ensures Execute(m, [step] + rest) == Execute(Next(m, step), rest)
  {
    assert ([step] + rest)[1..] == rest;
  }

  /** Listing, taking and handling a queued account leaves its row handled against its own
      attempt counter, and every other row alone. */
  lemma LoneHandling(m: Run, r: nat, user: int, verdict: Verdict)
    requires r in m.replicas ==> m.replicas[r].hand.None?
    requires user in m.rows && m.rows[user].run == RUN && m.rows[user].state == Queued
    ensures var n := Next(Next(Next(m, List(r, {user})), Take(r, user)), Give(r, verdict));
            && n.rows == m.rows[user := Handled(m.rows[user].(state := InHand), m.rows[user].attempts, verdict)]
            && n.replicas == m.replicas[r := Replica(map[], None)]
            && n.state == m.state
            && (verdict.Hit? ==> n.rows[user].state == BannedForGood)
            && (verdict.Miss? ==> (n.rows[user].state == Failed <==> LastTry(m.rows[user].attempts)))
  {
    var listed := Next(m, List(r, {user}));
    assert listed.replicas[r] == Replica(map[user := m.rows[user].attempts], None);
    var taken := Next(listed, Take(r, user));
    assert taken.replicas[r].hand == Some(user) && taken.rows[user] == m.rows[user].(state := InHand);
    assert map[user := m.rows[user].attempts] - {user} == map[];
  }

  lemma OneMiss(m: Run, r: nat, user: int)
    requires r in m.replicas ==> m.replicas[r].hand.None?
    requires user in m.rows && m.rows[user].run == RUN && m.rows[user].state == Queued
    ensures var n, row := Execute(m, MissSteps(r, user)), m.rows[user];
            && n.rows == m.rows[user := Handled(row.(state := InHand), row.attempts, Miss(""))]
            && n.replicas == m.replicas[r := Replica(map[], None)]
  {
    LoneHandling(m, r, user, Miss(""));
    var listed := Next(m, List(r, {user}));
    ExecuteThen(m, List(r, {user}), [Take(r, user), Give(r, Miss(""))]);
    ExecuteThen(listed, Take(r, user), [Give(r, Miss(""))]);
    ExecuteThen(Next(listed, Take(r, user)), Give(r, Miss("")), []);
  }

  lemma StaleMiss(m: Run, r: nat, user: int)
    requires r in m.replicas && m.replicas[r] == Replica(map[user := 0], None)
    requires user in m.rows && m.rows[user].run == RUN && m.rows[user].state == Queued
    ensures var n, row := Execute(m, [Take(r, user), Give(r, Miss(""))]), m.rows[user];
            && n.rows == m.rows[user := row.(state := Queued, reason := "", detail := "", attempts := row.attempts + 1)]
            && n.replicas == m.replicas[r := Replica(map[], None)]
  {
    var taken := Next(m, Take(r, user));
    ExecuteThen(m, Take(r, user), [Give(r, Miss(""))]);
    ExecuteThen(taken, Give(r, Miss("")), []);
    assert map[user := 0] - {user} == map[];
  }

  /** A run that starts as any other and lets two replicas list one account: replica 2 keeps its
      old listing while replica 1 fails twice, and the account gets a fourth counted failure. */
  lemma TwoReplicasOverrun(m: Run, user: int)
    requires Started(m) && user in m.rows
    ensures var listed := Next(m, List(2, {user}));
            var twice := Execute(Execute(listed, MissSteps(1, user)), MissSteps(1, user));
            var third := Execute(twice, [Take(2, user), Give(2, Miss(""))]);
            var fourth := Execute(third, MissSteps(1, user));
            && !Timely(twice, Take(2, user)) && user in third.rows && user in fourth.rows
            && third.rows[user].state == Queued && third.rows[user].attempts == MAX_ATTEMPTS
            && fourth.rows[user].state == Failed && fourth.rows[user].attempts == MAX_ATTEMPTS + 1
  {
    var listed := Next(m, List(2, {user}));
    assert listed.replicas[2].listed == map[user := 0];
    OneMiss(listed, 1, user);
    var once := Execute(listed, MissSteps(1, user));
    OneMiss(once, 1, user);
    var twice := Execute(once, MissSteps(1, user));
    assert twice.rows[user].attempts == 2 && twice.replicas[2] == Replica(map[user := 0], None);
    StaleMiss(twice, 2, user);
    OneMiss(Execute(twice, [Take(2, user), Give(2, Miss(""))]), 1, user);
  }

  // Stopping a run.

  function InHands(m: Run): set<int> {
    set u | u in m.rows && m.rows[u].state == InHand
  }

  predicate OnlyOpen(m: Run, held: set<int>) {
    forall u :: u in m.rows && Open(m.rows[u].state) ==> u in held
  }

  lemma {:induction false} OpenStaysHeld(m: Run, steps: seq<Step>, held: set<int>)
    requires Inv(m) && OnlyOpen(m, held)
    ensures Inv(Execute(m, steps)) && Execute(m, steps).rows.Keys == m.rows.Keys && OnlyOpen(Execute(m, steps), held)
    decreases |steps|
  {
    if steps != [] {
      NextKeepsInv(m, steps[0]);
      RowsAdvance(m, steps[0]);
      NothingReopens(m, steps[0]);
      OpenStaysHeld(Next(m, steps[0]), steps[1..], held);
    }
  }

  lemma NothingReopens(m: Run, step: Step)
    requires Inv(m)
    ensures forall u :: u in m.rows && !Open(m.rows[u].state) ==>
              u in Next(m, step).rows && !Open(Next(m, step).rows[u].state)
  {
    assert step.Give? && step.r in m.replicas && m.replicas[step.r].hand.Some? ==>
      HeldBy(m, step.r, m.replicas[step.r].hand.value);
  }

  /** Conservation of a stopped run. Whatever happened before the queue was given back and
      whatever happens afterwards, every account is banned, skipped, failed or unhandled, except
      those that were in somebody's hands at that moment. */
  lemma StoppedRunKeepsOnlyWhatWasHeld(m: Run, before: seq<Step>, after: seq<Step>)
    requires Started(m)
    ensures var unqueued := Next(Execute(m, before), Unqueue);
            var end := Execute(unqueued, after);
            && end.rows.Keys == m.rows.Keys
            && forall u :: u in end.rows && u !in InHands(unqueued) ==>
                 if end.rows[u].run == RUN then Final(end.rows[u].state) else end.rows[u].state == NoRun
  {
    StartedIsInv(m);
    EveryAccountOnce(m, before);
    var here := Execute(m, before);
    NextKeepsInv(here, Unqueue);
    var unqueued := Next(here, Unqueue);
    assert OnlyOpen(unqueued, InHands(unqueued));
    OpenStaysHeld(unqueued, after, InHands(unqueued));
  }

  /** That exception is real: whenever a worker holds an account while another replica stops
      the run, the worker can put the account back between the two writes of the stop, and it
      stays queued in a run that is over. */
  lemma StopCanLeaveAnAccountQueued(m: Run, r: nat, user: int)
    requires Inv(m) && m.state == Running && HeldBy(m, r, user)
    ensures var n := Next(Next(Next(m, Unqueue), Give(r, Back)), Finish(Stopped));
            n.state == Stopped && n.rows[user].state == Queued && n.rows[user].run == RUN
  {
    var m1 := Next(m, Unqueue);
    assert m1.rows[user] == m.rows[user] && HeldBy(m1, r, user);
  }

  // What the single steps do.

  /** A replica with empty hands lists its share of the queue with the attempt counters of that
      moment; one that holds an account lists nothing. */
  lemma ListsTheQueue(m: Run, r: nat, users: set<int>)
    ensures var n := Next(m, List(r, users));
            if r in m.replicas && m.replicas[r].hand.Some? then n == m
            else
              && n == m.(replicas := m.replicas[r := n.replicas[r]]) && n.replicas[r].hand == None
              && forall u :: (u in n.replicas[r].listed <==>
                                u in users && u in m.rows && m.rows[u].run == Some(1) && m.rows[u].state == Queued)
                             && (u in n.replicas[r].listed ==> n.replicas[r].listed[u] == m.rows[u].attempts)
  {
  }

  /** An account in hand is handled against the counter it was listed with; one that was released
      meanwhile is left as it is. The replica forgets it either way. */
  lemma GivesWhatItHolds(m: Run, r: nat, user: int, v: Verdict)
    requires HeldBy(m, r, user) && user in m.rows && user in m.replicas[r].listed
    ensures var n, row, listed := Next(m, Give(r, v)), m.rows[user], m.replicas[r].listed;
            && n == m.(rows := n.rows, replicas := m.replicas[r := Replica(listed - {user}, None)])
            && n.rows == (if row.state == InHand then m.rows[user := Handled(row, listed[user], v)] else m.rows)
  {
  }

  /** Only a listed account that is still queued is taken, by empty hands. */
  lemma TakesWhatIsQueued(m: Run, r: nat, user: int)
    requires r in m.replicas && user in m.rows
    ensures Next(m, Take(r, user)) ==
            if m.replicas[r].hand == None && user in m.replicas[r].listed && m.rows[user].state == Queued
            then m.(rows := m.rows[user := m.rows[user].(state := InHand)],
                    replicas := m.replicas[r := Replica(m.replicas[r].listed, Some(user))])
            else m
  {
  }

  /** A replica that crashes with an account in hand leaves it to the release, which queues it
      again at no cost; the release takes nothing from anybody who lives. */
  lemma CrashCostsNothing(m: Run, r: nat, user: int)
    requires Inv(m) && HeldBy(m, r, user)
    ensures Next(m, ReleaseStale(user)) == m
    ensures Next(Next(m, Die(r)), ReleaseStale(user))
            == m.(rows := m.rows[user := m.rows[user].(state := Queued)],
                  replicas := m.replicas[r := Replica(map[], None)])
  {
    var dead := Next(m, Die(r));
    assert forall q :: HeldBy(dead, q, user) ==> HeldBy(m, q, user) && q != r;
  }

  /** Stopping gives every queued account back and touches no other; a run is finished once, and as
      done only when nothing is queued or in hand. */
  lemma StopsExactly(m: Run, to: RunState)
    ensures var n := Next(m, Unqueue);
            && n == m.(rows := n.rows) && n.rows.Keys == m.rows.Keys
            && forall u :: u in m.rows ==>
                 n.rows[u] == if m.rows[u].run == Some(1) && m.rows[u].state == Queued
                              then m.rows[u].(state := NoRun, run := None) else m.rows[u]
    ensures Next(m, Finish(to)) ==
            if m.state == Running && to in {Done, Stopped}
               && (to == Done ==> forall u :: u in m.rows && m.rows[u].run == Some(1) ==>
                                    m.rows[u].state !in {Queued, InHand})
            then m.(state := to) else m
  {
  }

  /** One replica's way through a queue, every ban confirmed. */
  function BanSteps(r: nat, queue: seq<int>): seq<Step>
    decreases |queue|
  {
    if queue == [] then []
    else [List(r, {queue[0]}), Take(r, queue[0]), Give(r, Hit(""))] + BanSteps(r, queue[1..])
  }

  ghost function AllBanned(rows: map<int, BurstRow>, queue: seq<int>): map<int, BurstRow> {
    map u | u in rows :: if u in queue then rows[u].(state := BannedForGood, reason := "", detail := "") else rows[u]
  }

  lemma ThreeThen(m: Run, s1: Step, s2: Step, s3: Step, rest: seq<Step>)
    ensures Execute(m, [s1, s2, s3] + rest) == Execute(Next(Next(Next(m, s1), s2), s3), rest)
  {
    assert [s1, s2, s3] + rest == [s1] + ([s2] + ([s3] + rest));
    ExecuteThen(m, s1, [s2] + ([s3] + rest));
    ExecuteThen(Next(m, s1), s2, [s3] + rest);
    ExecuteThen(Next(Next(m, s1), s2), s3, rest);
  }

  lemma {:induction false} QueueIsBanned(m: Run, r: nat, queue: seq<int>, rest: seq<Step>) returns (n: Run)
    requires r in m.replicas ==> m.replicas[r].hand.None?
    requires forall i :: 0 <= i < |queue| ==>
               queue[i] in m.rows && m.rows[queue[i]].run == RUN && m.rows[queue[i]].state == Queued
    requires forall i, j :: 0 <= i < j < |queue| ==> queue[i] != queue[j]
    ensures Execute(m, BanSteps(r, queue) + rest) == Execute(n, rest)
    ensures n.rows == AllBanned(m.rows, queue) && n.state == m.state
    decreases |queue|
  {
    if queue == [] {
      n := m;
      assert BanSteps(r, queue) + rest == rest;
      assert AllBanned(m.rows, queue) == m.rows;
    } else {
      var user, others := queue[0], queue[1..];
      LoneHandling(m, r, user, Hit(""));
      HandledRow(m.rows[user].(state := InHand), m.rows[user].attempts, Hit(""));
      var next := Next(Next(Next(m, List(r, {user})), Take(r, user)), Give(r, Hit("")));
      assert BanSteps(r, queue) + rest
             == [List(r, {user}), Take(r, user), Give(r, Hit(""))] + (BanSteps(r, others) + rest);
      ThreeThen(m, List(r, {user}), Take(r, user), Give(r, Hit("")), BanSteps(r, others) + rest);
      n := QueueIsBanned(next, r, others, rest);
      assert forall u :: u in queue <==> u == user || u in others;
      assert AllBanned(next.rows, others) == AllBanned(m.rows, queue);
    }
  }

  /** A run does what it is for: from its start, one replica that works through the queue with every
      ban confirmed leaves every account banned for good, at no attempt, and the run done. */
  lemma RunBansEverybody(m: Run, r: nat, queue: seq<int>)
    requires Started(m)
    requires forall u :: u in m.rows <==> u in queue
    requires forall i, j :: 0 <= i < j < |queue| ==> queue[i] != queue[j]
    ensures var n := Execute(m, BanSteps(r, queue) + [Finish(Done)]);
            && n.state == Done && n.rows.Keys == m.rows.Keys
            && forall u :: u in m.rows ==> n.rows[u] == BurstRow(BannedForGood, Some(1), "", "", 0)
  {
    assert forall i :: 0 <= i < |queue| ==> queue[i] in queue;
    var n := QueueIsBanned(m, r, queue, [Finish(Done)]);
    ExecuteThen(n, Finish(Done), []);
    assert [Finish(Done)] + [] == [Finish(Done)];
  }
}
