/**
 What every transaction of the production store keeps: money equals the sums over reservations and stays inside
 its limits, dependency counters equal the graph, live work is current and its inputs are accepted, repair
 rounds only rise and live generation of a shot is all in its current round.
 */
module StoreInv {
  import opened Wrappers
  import opened Ids
  import opened Sums
  import opened StoreState

  // ---------------------------------------------------------------------------------------------
  // The invariant
  // ---------------------------------------------------------------------------------------------

  ghost predicate DocOk(S: Setup, k: TaskKey)
    requires k in S.plan
  {
    && S.plan[k].ordinal >= 0 && S.plan[k].worst >= 0 && S.plan[k].frames >= 0
    && S.plan[k].route in S.auth.routeLimits && k.execution in S.policy
    && (forall p :: p in S.plan[k].parents ==> TaskKey(k.execution, p) in S.plan)
  }

  /** What validation of the plan and the budget guarantees when the store is created. */
  ghost predicate PlanOk(S: Setup) {
    && (forall k {:trigger DocOk(S, k)} :: k in S.plan ==> DocOk(S, k))
    && (forall route :: route in S.auth.routeLimits ==> 0 <= S.auth.routeLimits[route] <= MAX_INTEGER)
    && S.auth.cleanupUnits >= 0 && 0 <= S.auth.maxFrames <= MAX_INTEGER && 1 <= S.auth.maxRepairRounds <= 3
    && 1 <= S.auth.totalUnits <= MAX_INTEGER
  }

  /** An attempt is finished for good, or it is the one its task points to. */
  ghost predicate LinkOk(S: Setup, db: Db, r: Request)
    requires r in db.attempts
  {
    var a, k := db.attempts[r], KeyOf(r);
    && k in S.plan && k in db.tasks
    && 1 <= r.epoch <= db.tasks[k].epoch && db.tasks[k].request.Some? && r.epoch <= db.tasks[k].request.value.epoch
    && (Live(a.status) || Terminal(a.status))
    && (Live(a.status) ==> Current(db, r) && db.tasks[k].remaining == 0)
    && (a.status == MachineAccepted && !a.invalidated ==> Current(db, r) && db.tasks[k].accepted.Some?)
    && (a.invalidated ==> Terminal(a.status) && r.epoch < db.tasks[k].epoch)
    && (Terminal(a.status) || a.status in {Running, Produced, Verified} ==> a.outbox == Observed)
  }

  /** The reservation repeats the task document; live generation is in the shot's current round. */
  ghost predicate ChargeOk(S: Setup, db: Db, r: Request)
    requires r in db.attempts
  {
    var c, st := db.attempts[r].charge, db.attempts[r].status;
    KeyOf(r) in S.plan && ShotOf(S, KeyOf(r)) in db.rounds &&
    var doc, round := S.plan[KeyOf(r)], db.rounds[ShotOf(S, KeyOf(r))];
    && c.route == doc.route && c.worst == doc.worst && c.frames == doc.frames
    && (c.fee == Settled ==> 0 <= c.settled <= c.worst)
    && (doc.frames == 0 ==> c.slot.None?)
    && (doc.frames > 0 ==>
          && c.slot.Some? && c.slot.value.shot == doc.shot && c.slot.value.segment == doc.segment
          && 1 <= c.slot.value.round <= round && (Live(st) ==> c.slot.value.round == round))
  }

  /** Successive reservations of one task are in strictly rising rounds. */
  ghost predicate RoundsRise(db: Db, r: Request, q: Request) {
    r in db.attempts && q in db.attempts && KeyOf(r) == KeyOf(q) && r.epoch < q.epoch
    && db.attempts[r].charge.slot.Some? && db.attempts[q].charge.slot.Some?
    ==> db.attempts[r].charge.slot.value.round < db.attempts[q].charge.slot.value.round
  }

  ghost predicate TaskOk(S: Setup, db: Db, k: TaskKey)
    requires k in db.tasks
  {
    var t := db.tasks[k];
    && t.epoch >= 0
    && (t.request.Some? ==> t.request.value in db.attempts && KeyOf(t.request.value) == k)
    && (t.accepted.Some? <==> t.status == MachineAccepted)
    && (Live(t.status) ==> t.request.Some? && Current(db, t.request.value) && db.attempts[t.request.value].status == t.status)
    && (t.accepted.Some? ==>
          && t.request.Some? && Current(db, t.request.value) && t.remaining == 0
          && db.attempts[t.request.value].status == MachineAccepted && !db.attempts[t.request.value].invalidated
          && db.attempts[t.request.value].evidence == t.accepted && Accepting(S, k, t.accepted.value))
  }

  /** A sealed accepting report under the execution's policy. */
  predicate Accepting(S: Setup, k: TaskKey, e: Evidence) {
    e.isSealed && e.verdict == Accept && k.execution in S.policy && e.policy == S.policy[k.execution]
  }

  /** The dependency counter is the number of unaccepted parents. */
  ghost predicate CountOk(S: Setup, tasks: map<TaskKey, Task>, k: TaskKey)
    requires k in tasks
  {
    k in S.plan && tasks[k].remaining == |UnacceptedParents(S, tasks, k)|
  }

  ghost predicate RouteOk(S: Setup, db: Db, route: Id)
    requires route in db.routeTotals
  {
    route in S.auth.routeLimits && db.routeTotals[route] == SumBy(db.attempts, CostOn(route)) <= S.auth.routeLimits[route]
  }

  ghost predicate MoneyOk(S: Setup, db: Db) {
    && db.used == SumBy(db.attempts, CostOf())
    && db.frames == SumBy(db.attempts, FramesOf()) <= S.auth.maxFrames
    && (db.attempts != map[] ==> db.used + S.auth.cleanupUnits <= S.auth.totalUnits)
    && (forall route {:trigger RouteOk(S, db, route)} :: route in db.routeTotals ==> RouteOk(S, db, route))
  }

  ghost predicate RoundsOk(S: Setup, db: Db) {
    && (forall s :: s in db.rounds ==> 1 <= db.rounds[s] <= S.auth.maxRepairRounds)
    && (forall r, q {:trigger RoundsRise(db, r, q)} :: RoundsRise(db, r, q))
  }

  /** A stored forecast is always on the current cost basis, and its verdict is the comparison it stands for. */
  ghost predicate ForecastOk(S: Setup, db: Db) {
    db.forecast.Some? ==>
      && db.forecast.value.basis == db.costRevision && db.forecast.value.remaining >= 0
      && (db.forecast.value.affordable <==> Affordable(S, db.used, db.forecast.value.remaining))
  }

  ghost predicate RowsOk(S: Setup, db: Db) {
    && (forall r {:trigger LinkOk(S, db, r)} :: r in db.attempts ==> LinkOk(S, db, r))
    && (forall r {:trigger ChargeOk(S, db, r)} :: r in db.attempts ==> ChargeOk(S, db, r))
    && (forall k {:trigger TaskOk(S, db, k)} :: k in db.tasks ==> TaskOk(S, db, k))
    && (forall k {:trigger CountOk(S, db.tasks, k)} :: k in db.tasks ==> CountOk(S, db.tasks, k))
  }

  ghost predicate Inv(S: Setup, db: Db) {
    PlanOk(S) && Shaped(S, db) && RowsOk(S, db) && RoundsOk(S, db) && MoneyOk(S, db) && ForecastOk(S, db)
  }

  lemma CreatedShaped(S: Setup)
    requires PlanOk(S)
    ensures Shaped(S, Created(S))
  {
    forall k | k in S.plan
      ensures S.plan[k].route in Created(S).routeTotals && ShotOf(S, k) in Created(S).rounds && k.execution in S.policy
    {
      assert DocOk(S, k);
      assert ShotOf(S, k) in Shots(S);
    }
  }

  lemma CreatedRows(S: Setup)
    requires PlanOk(S)
    ensures RowsOk(S, Created(S))
  {
    var db := Created(S);
    forall k | k in db.tasks ensures CountOk(S, db.tasks, k) {
      assert DocOk(S, k);
      assert UnacceptedParents(S, db.tasks, k) == S.plan[k].parents;
    }
  }

  lemma CreatedOk(S: Setup)
    requires PlanOk(S)
    ensures Inv(S, Created(S))
  {
    CreatedShaped(S);
    CreatedRows(S);
  }

  // ---------------------------------------------------------------------------------------------
  // Reading the invariant
  // ---------------------------------------------------------------------------------------------

  /** Any live attempt, and any accepted task, has all its parents accepted. */
  lemma InputsAccepted(S: Setup, db: Db, k: TaskKey, p: Id)
    requires Inv(S, db) && k in S.plan && p in S.plan[k].parents
    requires db.tasks[k].accepted.Some? || exists r :: r in db.attempts && KeyOf(r) == k && Live(db.attempts[r].status)
    ensures TaskKey(k.execution, p) in db.tasks && db.tasks[TaskKey(k.execution, p)].accepted.Some?
  {
    assert DocOk(S, k);
    assert TaskOk(S, db, k) && CountOk(S, db.tasks, k);
    if db.tasks[k].accepted.None? {
      var r :| r in db.attempts && KeyOf(r) == k && Live(db.attempts[r].status);
      assert LinkOk(S, db, r);
    }
    assert UnacceptedParents(S, db.tasks, k) == {};
    assert p !in UnacceptedParents(S, db.tasks, k);
  }

  /** When no two tasks of an execution share a shot and segment, the generation-slot index never fires. */
  ghost predicate SegmentsDistinct(S: Setup) {
    forall j, k ::
      (j in S.plan && k in S.plan && j.execution == k.execution && S.plan[j].frames > 0 && S.plan[k].frames > 0
       && S.plan[j].shot == S.plan[k].shot && S.plan[j].segment == S.plan[k].segment) ==> j == k
  }

  lemma ClaimRoundFresh(S: Setup, db: Db, k: TaskKey, r: Request)
    requires Inv(S, db) && k in S.plan && ClaimRound(S, db, k).Success?
    requires r in db.attempts && KeyOf(r) == k && S.plan[k].frames > 0
    ensures db.attempts[r].charge.slot.Some? && db.attempts[r].charge.slot.value.round < ClaimRound(S, db, k).value
  {
    assert TaskOk(S, db, k) && LinkOk(S, db, r) && ChargeOk(S, db, r);
    var last := db.tasks[k].request.value;
    assert ChargeOk(S, db, last) && LinkOk(S, db, last);
    if r != last {
      assert r.epoch < last.epoch;
      assert RoundsRise(db, r, last);
    }
  }

  lemma SlotNeverTaken(S: Setup, db: Db, k: TaskKey)
    requires Inv(S, db) && SegmentsDistinct(S) && k in S.plan && ClaimRound(S, db, k).Success?
    ensures !SlotTaken(db, k.execution, SlotFor(S.plan[k], ClaimRound(S, db, k).value))
  {
    var slot := SlotFor(S.plan[k], ClaimRound(S, db, k).value);
    if SlotTaken(db, k.execution, slot) {
      var r :| r in db.attempts && r.execution == k.execution && db.attempts[r].charge.slot == slot;
      assert ChargeOk(S, db, r) && DocOk(S, KeyOf(r));
      assert KeyOf(r) == k;
      ClaimRoundFresh(S, db, k, r);
    }
  }

  /** The request id a claim is about to use is new. */
  lemma NextIsNew(S: Setup, db: Db, k: TaskKey)
    requires Inv(S, db) && k in S.plan
    ensures Next(k, db.tasks[k]) !in db.attempts
  {
    forall r | r in db.attempts ensures r != Next(k, db.tasks[k]) {
      assert LinkOk(S, db, r);
    }
  }

  // ---------------------------------------------------------------------------------------------
  // claim
  // ---------------------------------------------------------------------------------------------

  /** Moving to the next round leaves no live generation behind in the shot. */
  lemma NoLiveLeftBehind(S: Setup, db: Db, k: TaskKey, r: Request)
    requires Inv(S, db) && k in S.plan && ClaimRound(S, db, k).Success?
    requires ClaimRound(S, db, k).value != db.rounds[ShotOf(S, k)]
    requires !(db.tasks[k].request.Some? && db.tasks[k].request.value in db.attempts && Live(db.attempts[db.tasks[k].request.value].status))
    requires r in db.attempts && KeyOf(r) in S.plan && ShotOf(S, KeyOf(r)) == ShotOf(S, k) && S.plan[KeyOf(r)].frames > 0
    ensures !Live(db.attempts[r].status)
  {
    assert LinkOk(S, db, r) && ChargeOk(S, db, r);
    var shot, round := S.plan[k].shot, db.rounds[ShotOf(S, k)];
    assert PriorInRound(S, db, k) && !SiblingLive(db, k, shot, round);
    assert Live(db.attempts[r].status) ==> SiblingLive(db, k, shot, round);
  }

  /** Money after one more reservation. */
  lemma ClaimMoney(S: Setup, db: Db, k: TaskKey, owner: Id, expires: int, round: int)
    requires PlanOk(S) && Shaped(S, db) && MoneyOk(S, db) && k in S.plan && Next(k, db.tasks[k]) !in db.attempts
    requires BudgetError(S, db, S.plan[k]).None?
    ensures MoneyOk(S, Claimed(S, db, k, owner, expires, round))
  {
    var doc, r, a := S.plan[k], Next(k, db.tasks[k]), NewAttempt(S.plan[k], owner, expires, round);
    var after := Claimed(S, db, k, owner, expires, round);
    Put(db.attempts, r, a, CostOf());
    Put(db.attempts, r, a, FramesOf());
    forall route | route in after.routeTotals ensures RouteOk(S, after, route) {
      assert RouteOk(S, db, route);
      Put(db.attempts, r, a, CostOn(route));
    }
  }

  lemma ClaimLinks(S: Setup, db: Db, k: TaskKey, owner: Id, expires: int, round: int, r: Request)
    requires Inv(S, db) && k in S.plan && ClaimRound(S, db, k).Success? && round == ClaimRound(S, db, k).value
    requires ClaimStart(S, db, k) && r in Claimed(S, db, k, owner, expires, round).attempts
    ensures LinkOk(S, Claimed(S, db, k, owner, expires, round), r)
  {
    var added := Next(k, db.tasks[k]);
    NextIsNew(S, db, k);
    assert TaskOk(S, db, k);
    if r != added {
      assert LinkOk(S, db, r);
    }
  }

  /** What a claim has already checked when it writes: no accepted result, all inputs ready, the last attempt finished. */
  ghost predicate ClaimStart(S: Setup, db: Db, k: TaskKey)
    requires k in db.tasks
  {
    var t := db.tasks[k];
    && t.accepted.None? && t.remaining == 0
    && (t.request.Some? ==> t.request.value in db.attempts && Terminal(db.attempts[t.request.value].status))
  }

  lemma ClaimCharges(S: Setup, db: Db, k: TaskKey, owner: Id, expires: int, round: int, r: Request)
    requires Inv(S, db) && k in S.plan && ClaimRound(S, db, k).Success? && round == ClaimRound(S, db, k).value
    requires ClaimStart(S, db, k) && r in Claimed(S, db, k, owner, expires, round).attempts
    ensures ChargeOk(S, Claimed(S, db, k, owner, expires, round), r)
  {
    var added := Next(k, db.tasks[k]);
    assert 1 <= db.rounds[ShotOf(S, k)] <= S.auth.maxRepairRounds;
    if r != added {
      assert ChargeOk(S, db, r);
      if ShotOf(S, KeyOf(r)) == ShotOf(S, k) && S.plan[KeyOf(r)].frames > 0 && round != db.rounds[ShotOf(S, k)] {
        NoLiveLeftBehind(S, db, k, r);
      }
    }
  }

  lemma ClaimRounds(S: Setup, db: Db, k: TaskKey, owner: Id, expires: int, round: int)
    requires Inv(S, db) && k in S.plan && ClaimRound(S, db, k).Success? && round == ClaimRound(S, db, k).value
    ensures RoundsOk(S, Claimed(S, db, k, owner, expires, round))
  {
    var after, added := Claimed(S, db, k, owner, expires, round), Next(k, db.tasks[k]);
    NextIsNew(S, db, k);
    forall r, q ensures RoundsRise(after, r, q) {
      if r in after.attempts && q in after.attempts && KeyOf(r) == KeyOf(q) && r.epoch < q.epoch {
        if q == added {
          if S.plan[k].frames > 0 {
            ClaimRoundFresh(S, db, k, r);
          }
        } else {
          assert LinkOk(S, db, q);
          assert RoundsRise(db, r, q);
        }
      }
    }
  }

  lemma ClaimTasks(S: Setup, db: Db, k: TaskKey, owner: Id, expires: int, round: int, j: TaskKey)
    requires Inv(S, db) && k in S.plan && ClaimStart(S, db, k) && j in S.plan
    ensures TaskOk(S, Claimed(S, db, k, owner, expires, round), j)
    ensures CountOk(S, Claimed(S, db, k, owner, expires, round).tasks, j)
  {
    var after := Claimed(S, db, k, owner, expires, round);
    NextIsNew(S, db, k);
    assert TaskOk(S, db, j) && TaskOk(S, db, k) && CountOk(S, db.tasks, j);
    assert UnacceptedParents(S, after.tasks, j) == UnacceptedParents(S, db.tasks, j);
  }

  lemma ClaimStarts(S: Setup, db: Db, k: TaskKey, env: Env)
    requires Inv(S, db) && ClaimError(S, db, k, env).None?
    ensures k in S.plan && ClaimStart(S, db, k) && ClaimRound(S, db, k).Success? && BudgetError(S, db, S.plan[k]).None?
  {
    var t := db.tasks[k];
    if t.request.Some? {
      assert LinkOk(S, db, t.request.value);
    }
  }

  lemma ClaimRows(S: Setup, db: Db, k: TaskKey, owner: Id, expires: int, round: int)
    requires Inv(S, db) && k in S.plan && ClaimRound(S, db, k).Success? && round == ClaimRound(S, db, k).value
    requires ClaimStart(S, db, k)
    ensures RowsOk(S, Claimed(S, db, k, owner, expires, round))
  {
    var after := Claimed(S, db, k, owner, expires, round);
    forall r | r in after.attempts ensures LinkOk(S, after, r) && ChargeOk(S, after, r) {
      ClaimLinks(S, db, k, owner, expires, round, r);
      ClaimCharges(S, db, k, owner, expires, round, r);
    }
    forall j | j in after.tasks ensures TaskOk(S, after, j) && CountOk(S, after.tasks, j) {
      ClaimTasks(S, db, k, owner, expires, round, j);
    }
  }

  lemma ClaimKeeps(S: Setup, db: Db, k: TaskKey, owner: Id, expires: int, env: Env)
    requires Inv(S, db)
    ensures Inv(S, ClaimOp(S, db, k, owner, expires, env).1)
  {
    if ClaimError(S, db, k, env).None? {
      ClaimStarts(S, db, k, env);
      var round := ClaimRound(S, db, k).value;
      NextIsNew(S, db, k);
      ClaimMoney(S, db, k, owner, expires, round);
      ClaimRounds(S, db, k, owner, expires, round);
      ClaimRows(S, db, k, owner, expires, round);
    }
  }

  // ---------------------------------------------------------------------------------------------
  // Transactions on one attempt
  // ---------------------------------------------------------------------------------------------

  /** Same reservation, same place: only status, lease, outbox, result or cancel mark may differ. */
  ghost predicate SameReservation(a: Attempt, b: Attempt) {
    a.charge == b.charge && a.invalidated == b.invalidated && (a.status == b.status ==> a.evidence == b.evidence)
  }

  /** With every reservation as it was, no sum and no round has moved. */
  lemma SameCharges(S: Setup, db: Db, after: Db)
    requires MoneyOk(S, db) && RoundsOk(S, db)
    requires after.attempts.Keys == db.attempts.Keys
    requires forall r :: r in db.attempts ==> after.attempts[r].charge == db.attempts[r].charge
    requires after.used == db.used && after.frames == db.frames && after.routeTotals == db.routeTotals && after.rounds == db.rounds
    ensures MoneyOk(S, after) && RoundsOk(S, after)
  {
    Congruent(db.attempts, after.attempts, CostOf());
    Congruent(db.attempts, after.attempts, FramesOf());
    forall route | route in after.routeTotals ensures RouteOk(S, after, route) {
      assert RouteOk(S, db, route);
      Congruent(db.attempts, after.attempts, CostOn(route));
    }
    forall p, q ensures RoundsRise(after, p, q) {
      assert RoundsRise(db, p, q);
    }
    if after.attempts != map[] {
      var r :| r in after.attempts;
      assert r in db.attempts;
    }
  }

  /** A current, unfinished attempt moves to another live status or to a retryable end. */
  ghost predicate GoodMove(a: Attempt, b: Attempt) {
    && SameReservation(a, b) && Live(a.status) && (Live(b.status) || Retryable(b.status))
    && (Terminal(b.status) || b.status in {Running, Produced, Verified} ==> b.outbox == Observed)
  }

  lemma SetStatusRow(S: Setup, db: Db, r: Request, b: Attempt, q: Request)
    requires Shaped(S, db) && RowsOk(S, db) && r in db.attempts && Current(db, r) && GoodMove(db.attempts[r], b) && q in db.attempts
    ensures LinkOk(S, SetStatus(db, r, b), q) && ChargeOk(S, SetStatus(db, r, b), q)
  {
    assert LinkOk(S, db, q) && ChargeOk(S, db, q) && LinkOk(S, db, r);
  }

  lemma SetStatusTask(S: Setup, db: Db, r: Request, b: Attempt, k: TaskKey)
    requires Shaped(S, db) && RowsOk(S, db) && r in db.attempts && Current(db, r) && GoodMove(db.attempts[r], b) && k in db.tasks
    ensures TaskOk(S, SetStatus(db, r, b), k) && CountOk(S, SetStatus(db, r, b).tasks, k)
  {
    assert TaskOk(S, db, k) && CountOk(S, db.tasks, k) && TaskOk(S, db, KeyOf(r));
    assert UnacceptedParents(S, SetStatus(db, r, b).tasks, k) == UnacceptedParents(S, db.tasks, k);
  }

  lemma SetStatusRows(S: Setup, db: Db, r: Request, b: Attempt)
    requires Shaped(S, db) && RowsOk(S, db) && r in db.attempts && Current(db, r) && GoodMove(db.attempts[r], b)
    ensures RowsOk(S, SetStatus(db, r, b))
  {
    var after := SetStatus(db, r, b);
    forall q | q in after.attempts ensures LinkOk(S, after, q) && ChargeOk(S, after, q) {
      SetStatusRow(S, db, r, b, q);
    }
    forall k | k in after.tasks ensures TaskOk(S, after, k) && CountOk(S, after.tasks, k) {
      SetStatusTask(S, db, r, b, k);
    }
  }

  lemma SetStatusKeeps(S: Setup, db: Db, r: Request, b: Attempt)
    requires Inv(S, db) && r in db.attempts && Current(db, r) && GoodMove(db.attempts[r], b)
    ensures Inv(S, SetStatus(db, r, b))
  {
    SameCharges(S, db, SetStatus(db, r, b));
    SetStatusRows(S, db, r, b);
  }

  /** One attempt is replaced; its status, result and reservation, but for the fee, are as before. */
  ghost predicate Remarked(db: Db, after: Db, r: Request) {
    && r in db.attempts && r in after.attempts
    && after.attempts == db.attempts[r := after.attempts[r]] && after.tasks == db.tasks && after.rounds == db.rounds
    && var a, b := db.attempts[r], after.attempts[r];
      && b.status == a.status && b.outbox == a.outbox && b.invalidated == a.invalidated && b.evidence == a.evidence
      && b.charge.(fee := a.charge.fee, settled := a.charge.settled) == a.charge
      && (b.charge.fee == Settled ==> 0 <= b.charge.settled <= b.charge.worst)
  }

  lemma MarkRow(S: Setup, db: Db, after: Db, r: Request, q: Request)
    requires Remarked(db, after, r) && q in after.attempts && LinkOk(S, db, q) && ChargeOk(S, db, q)
    ensures LinkOk(S, after, q) && ChargeOk(S, after, q)
  {
  }

  lemma MarkTask(S: Setup, db: Db, after: Db, r: Request, k: TaskKey)
    requires Remarked(db, after, r) && k in db.tasks && TaskOk(S, db, k)
    ensures TaskOk(S, after, k)
  {
  }

  lemma MarkRows(S: Setup, db: Db, after: Db, r: Request)
    requires RowsOk(S, db) && Remarked(db, after, r)
    ensures RowsOk(S, after)
  {
    forall q | q in after.attempts ensures LinkOk(S, after, q) && ChargeOk(S, after, q) {
      assert LinkOk(S, db, q) && ChargeOk(S, db, q);
      MarkRow(S, db, after, r, q);
    }
    forall k | k in after.tasks ensures TaskOk(S, after, k) && CountOk(S, after.tasks, k) {
      assert TaskOk(S, db, k) && CountOk(S, db.tasks, k);
      MarkTask(S, db, after, r, k);
    }
  }

  /** Lease and cancel marks leave every status alone. */
  lemma MarkKeeps(S: Setup, db: Db, r: Request, b: Attempt)
    requires Inv(S, db) && r in db.attempts
    requires SameReservation(db.attempts[r], b) && b.status == db.attempts[r].status && b.outbox == db.attempts[r].outbox
    ensures Inv(S, db.(attempts := db.attempts[r := b]))
  {
    var after := db.(attempts := db.attempts[r := b]);
    assert ChargeOk(S, db, r);
    SameCharges(S, db, after);
    MarkRows(S, db, after, r);
  }

  lemma MarkSendingKeeps(S: Setup, db: Db, r: Request, epoch: int, env: Env)
    requires Inv(S, db)
    ensures Inv(S, MarkSendingOp(S, db, r, epoch, env).1)
  {
    if MarkSendingOp(S, db, r, epoch, env).0.Success? {
      assert LinkOk(S, db, r);
      SetStatusKeeps(S, db, r, db.attempts[r].(outbox := Sending, status := Submitted));
    }
  }

  lemma RenewPreparedKeeps(S: Setup, db: Db, r: Request, epoch: int, owner: Id, expires: int, env: Env)
    requires Inv(S, db)
    ensures Inv(S, RenewPreparedOp(S, db, r, epoch, owner, expires, env).1)
  {
    if r in db.attempts {
      MarkKeeps(S, db, r, db.attempts[r].(expires := expires));
    }
  }

  lemma CancelMarkKeeps(S: Setup, db: Db, r: Request, epoch: int, mark: CancelState)
    requires Inv(S, db)
    ensures Inv(S, CancelMarkOp(db, r, epoch, mark).1)
  {
    if r in db.attempts {
      MarkKeeps(S, db, r, db.attempts[r].(cancel := Some(mark)));
    }
  }

  lemma ObserveKeeps(S: Setup, db: Db, r: Request, epoch: int, status: Status)
    requires Inv(S, db)
    ensures Inv(S, ObserveOp(db, r, epoch, status).1)
  {
    var after := ObserveOp(db, r, epoch, status).1;
    if after != db {
      assert LinkOk(S, db, r);
      SetStatusKeeps(S, db, r, after.attempts[r]);
    }
  }

  lemma RejectKeeps(S: Setup, db: Db, r: Request, epoch: int, evidence: Evidence, file: Option<Id>)
    requires Inv(S, db)
    ensures Inv(S, RejectOp(db, r, epoch, evidence, file).1)
  {
    if RejectOp(db, r, epoch, evidence, file).0.Success? {
      assert LinkOk(S, db, r);
      SetStatusKeeps(S, db, r, db.attempts[r].(status := Rejected, evidence := Some(evidence)));
    }
  }

  // ---------------------------------------------------------------------------------------------
  // Fees and forecasts
  // ---------------------------------------------------------------------------------------------

  lemma FeeSums(S: Setup, db: Db, r: Request, fee: FeeState, settled: int)
    requires r in db.attempts
    ensures var after, was := SetFee(db, r, fee, settled), db.attempts[r].charge;
      var delta := Cost(was.(fee := fee, settled := settled)) - Cost(was);
      && SumBy(after.attempts, CostOf()) == SumBy(db.attempts, CostOf()) + delta
      && SumBy(after.attempts, FramesOf()) == SumBy(db.attempts, FramesOf())
      && forall route :: SumBy(after.attempts, CostOn(route)) == SumBy(db.attempts, CostOn(route)) + (if was.route == route then delta else 0)
  {
    var after := SetFee(db, r, fee, settled);
    Put(db.attempts, r, after.attempts[r], CostOf());
    Put(db.attempts, r, after.attempts[r], FramesOf());
    forall route
      ensures SumBy(after.attempts, CostOn(route)) ==
        SumBy(db.attempts, CostOn(route)) + (if db.attempts[r].charge.route == route then Cost(after.attempts[r].charge) - Cost(db.attempts[r].charge) else 0)
    {
      Put(db.attempts, r, after.attempts[r], CostOn(route));
    }
  }

  lemma SettleMoney(S: Setup, db: Db, r: Request, units: Option<int>)
    requires Inv(S, db)
    ensures MoneyOk(S, SettleOp(S, db, r, units).1)
  {
    var after := SettleOp(S, db, r, units).1;
    if after != db {
      assert ChargeOk(S, db, r);
      assert RouteOk(S, db, db.attempts[r].charge.route);
      FeeSums(S, db, r, after.attempts[r].charge.fee, after.attempts[r].charge.settled);
      forall route | route in after.routeTotals ensures RouteOk(S, after, route) {
        assert RouteOk(S, db, route);
      }
    }
  }

  lemma SettleOneRow(S: Setup, db: Db, r: Request, units: Option<int>)
    ensures var after := SettleOp(S, db, r, units).1;
      after != db ==> r in db.attempts && r in after.attempts && after.attempts == db.attempts[r := after.attempts[r]]
  {
  }

  lemma SameRounds(S: Setup, db: Db, after: Db)
    requires RoundsOk(S, db) && after.rounds == db.rounds && after.attempts.Keys == db.attempts.Keys
    requires forall q :: q in db.attempts ==> after.attempts[q].charge.slot == db.attempts[q].charge.slot
    ensures RoundsOk(S, after)
  {
    forall p, q ensures RoundsRise(after, p, q) {
      assert RoundsRise(db, p, q);
    }
  }

  lemma SettleRows(S: Setup, db: Db, r: Request, units: Option<int>)
    requires Shaped(S, db) && RowsOk(S, db) && RoundsOk(S, db)
    ensures RowsOk(S, SettleOp(S, db, r, units).1) && RoundsOk(S, SettleOp(S, db, r, units).1)
  {
    var after := SettleOp(S, db, r, units).1;
    SettleOneRow(S, db, r, units);
    if after != db {
      assert ChargeOk(S, db, r);
      MarkRows(S, db, after, r);
      SameRounds(S, db, after);
    }
  }

  lemma SettleForecast(S: Setup, db: Db, r: Request, units: Option<int>)
    requires Shaped(S, db) && ForecastOk(S, db)
    ensures ForecastOk(S, SettleOp(S, db, r, units).1) && Shaped(S, SettleOp(S, db, r, units).1)
  {
  }

  lemma SettleKeeps(S: Setup, db: Db, r: Request, units: Option<int>)
    requires Inv(S, db)
    ensures Inv(S, SettleOp(S, db, r, units).1)
  {
    SettleMoney(S, db, r, units);
    SettleRows(S, db, r, units);
    SettleForecast(S, db, r, units);
  }

  /** A late bill for any request, superseded or not, changes money and that reservation's fee and nothing else. */
  lemma SettleOnlyMoney(S: Setup, db: Db, r: Request, units: Option<int>, q: Request)
    requires q in db.attempts
    ensures var after := SettleOp(S, db, r, units).1;
      && after.tasks == db.tasks && after.rounds == db.rounds && after.frames == db.frames
      && after.attempts.Keys == db.attempts.Keys
      && (q != r ==> after.attempts[q] == db.attempts[q])
      && after.attempts[q].(charge := db.attempts[q].charge) == db.attempts[q]
      && after.attempts[q].charge.slot == db.attempts[q].charge.slot && after.attempts[q].charge.worst == db.attempts[q].charge.worst
  {
    var after := SettleOp(S, db, r, units).1;
    if r in db.attempts && after != db {
      assert after.attempts == SetFee(db, r, after.attempts[r].charge.fee, after.attempts[r].charge.settled).attempts;
    }
  }

  /** Only money, forecast, pause or revocation moved: no row changed. */
  lemma RowsUntouched(S: Setup, db: Db, after: Db)
    requires Inv(S, db) && ForecastOk(S, after)
    requires after.(forecast := db.forecast, paused := db.paused, revoked := db.revoked) == db
    ensures Inv(S, after)
  {
    assert RowsOk(S, after) by {
      forall q | q in after.attempts ensures LinkOk(S, after, q) && ChargeOk(S, after, q) {
        assert LinkOk(S, db, q) && ChargeOk(S, db, q);
      }
      forall k | k in after.tasks ensures TaskOk(S, after, k) && CountOk(S, after.tasks, k) {
        assert TaskOk(S, db, k) && CountOk(S, db.tasks, k);
      }
    }
    forall p, q ensures RoundsRise(after, p, q) {
      assert RoundsRise(db, p, q);
    }
    forall route | route in after.routeTotals ensures RouteOk(S, after, route) {
      assert RouteOk(S, db, route);
    }
  }

  lemma ForecastKeeps(S: Setup, db: Db, remaining: int)
    requires Inv(S, db)
    ensures Inv(S, ForecastOp(S, db, remaining).1)
  {
    RowsUntouched(S, db, ForecastOp(S, db, remaining).1);
  }

  lemma PauseKeeps(S: Setup, db: Db, execution: Id, enabled: bool)
    requires Inv(S, db)
    ensures Inv(S, PauseOp(db, execution, enabled).1)
  {
    RowsUntouched(S, db, PauseOp(db, execution, enabled).1);
  }

  lemma RevokeKeeps(S: Setup, db: Db)
    requires Inv(S, db)
    ensures Inv(S, RevokeOp(db))
  {
    RowsUntouched(S, db, RevokeOp(db));
  }

  // ---------------------------------------------------------------------------------------------
  // Task rows only: the runner's status marks
  // ---------------------------------------------------------------------------------------------

  /** Only statuses of unaccepted tasks differ, and none becomes accepted or live. */
  ghost predicate Restatused(db: Db, after: Db) {
    && after.(tasks := db.tasks) == db && after.tasks.Keys == db.tasks.Keys
    && forall k :: k in db.tasks ==>
         && after.tasks[k] == db.tasks[k].(status := after.tasks[k].status)
         && (after.tasks[k].status != db.tasks[k].status ==> db.tasks[k].accepted.None? && after.tasks[k].status in {RepairWait, Rejected})
  }

  lemma RestatusKeeps(S: Setup, db: Db, after: Db)
    requires Inv(S, db) && Restatused(db, after)
    ensures Inv(S, after)
  {
    RestatusRows(S, db, after);
    forall p, q ensures RoundsRise(after, p, q) {
      assert RoundsRise(db, p, q);
    }
    forall route | route in after.routeTotals ensures RouteOk(S, after, route) {
      assert RouteOk(S, db, route);
    }
  }

  lemma RestatusRows(S: Setup, db: Db, after: Db)
    requires Shaped(S, db) && RowsOk(S, db) && Restatused(db, after)
    ensures RowsOk(S, after)
  {
    forall q | q in after.attempts ensures LinkOk(S, after, q) && ChargeOk(S, after, q) {
      assert LinkOk(S, db, q) && ChargeOk(S, db, q);
    }
    forall k | k in after.tasks ensures TaskOk(S, after, k) && CountOk(S, after.tasks, k) {
      assert TaskOk(S, db, k) && CountOk(S, db.tasks, k);
      assert UnacceptedParents(S, after.tasks, k) == UnacceptedParents(S, db.tasks, k);
    }
  }

  lemma RepairWaitKeeps(S: Setup, db: Db, k: TaskKey)
    requires Inv(S, db) && (k in db.tasks ==> db.tasks[k].accepted.None?)
    ensures Inv(S, RepairWaitOp(db, k))
  {
    if k in db.tasks {
      assert TaskOk(S, db, k);
    }
    RestatusKeeps(S, db, RepairWaitOp(db, k));
  }

  lemma WakeKeeps(S: Setup, db: Db, execution: Id)
    requires Inv(S, db)
    ensures Inv(S, WakeRepairs(db, execution))
  {
    forall k | k in db.tasks && db.tasks[k].status == RepairWait ensures db.tasks[k].accepted.None? {
      assert TaskOk(S, db, k);
    }
    RestatusKeeps(S, db, WakeRepairs(db, execution));
  }

  // ---------------------------------------------------------------------------------------------
  // accept
  // ---------------------------------------------------------------------------------------------

  /** Accepting a task removes it, and only it, from the unaccepted parents of its children. */
  lemma AcceptCount(S: Setup, db: Db, r: Request, evidence: Evidence, c: TaskKey)
    requires Shaped(S, db) && r in db.attempts && KeyOf(r) in S.plan && db.tasks[KeyOf(r)].accepted.None?
    requires c in S.plan && CountOk(S, db.tasks, c)
    ensures CountOk(S, Accepted(S, db, r, evidence).tasks, c)
  {
    var k := KeyOf(r);
    AcceptParents(S, db, r, evidence, c);
    if c in ChildrenOf(S, k) {
      assert k.task in UnacceptedParents(S, db.tasks, c);
    }
  }

  lemma AcceptParents(S: Setup, db: Db, r: Request, evidence: Evidence, c: TaskKey)
    requires Shaped(S, db) && r in db.attempts && KeyOf(r) in S.plan && c in S.plan
    ensures UnacceptedParents(S, Accepted(S, db, r, evidence).tasks, c) ==
      UnacceptedParents(S, db.tasks, c) - if c in ChildrenOf(S, KeyOf(r)) then {r.task} else {}
  {
  }

  lemma AcceptLink(S: Setup, db: Db, r: Request, evidence: Evidence, q: Request)
    requires Inv(S, db) && r in db.attempts && KeyOf(r) in S.plan && Current(db, r) && Live(db.attempts[r].status)
    requires db.attempts[r].outbox == Observed && q in db.attempts
    ensures LinkOk(S, Accepted(S, db, r, evidence), q)
  {
    var k, c := KeyOf(r), KeyOf(q);
    assert LinkOk(S, db, q) && LinkOk(S, db, r);
    assert TaskOk(S, db, k) && CountOk(S, db.tasks, c);
    assert c in ChildrenOf(S, k) ==> k.task in UnacceptedParents(S, db.tasks, c);
    AcceptLinked(S, db, r, evidence, q);
  }

  lemma AcceptLinked(S: Setup, db: Db, r: Request, evidence: Evidence, q: Request)
    requires Shaped(S, db) && r in db.attempts && KeyOf(r) in S.plan && Current(db, r) && Live(db.attempts[r].status)
    requires db.attempts[r].outbox == Observed && q in db.attempts && LinkOk(S, db, q) && LinkOk(S, db, r)
    requires KeyOf(q) in ChildrenOf(S, KeyOf(r)) ==> db.tasks[KeyOf(q)].remaining > 0
    ensures LinkOk(S, Accepted(S, db, r, evidence), q)
  {
  }

  lemma AcceptCharge(S: Setup, db: Db, r: Request, evidence: Evidence, q: Request)
    requires Shaped(S, db) && r in db.attempts && KeyOf(r) in S.plan && q in db.attempts && Live(db.attempts[r].status)
    requires ChargeOk(S, db, q)
    ensures ChargeOk(S, Accepted(S, db, r, evidence), q)
  {
  }

  lemma AcceptedTask(S: Setup, db: Db, r: Request, evidence: Evidence)
    requires Shaped(S, db) && r in db.attempts && KeyOf(r) in S.plan && Current(db, r) && db.tasks[KeyOf(r)].remaining == 0
    requires TaskOk(S, db, KeyOf(r)) && CountOk(S, db.tasks, KeyOf(r)) && db.tasks[KeyOf(r)].accepted.None?
    requires Accepting(S, KeyOf(r), evidence) && !db.attempts[r].invalidated
    ensures TaskOk(S, Accepted(S, db, r, evidence), KeyOf(r))
  {
    var open := UnacceptedParents(S, db.tasks, KeyOf(r));
    assert KeyOf(r).task !in open;
  }

  lemma AcceptOther(S: Setup, db: Db, r: Request, evidence: Evidence, c: TaskKey)
    requires Shaped(S, db) && r in db.attempts && KeyOf(r) in S.plan && db.tasks[KeyOf(r)].accepted.None?
    requires c in S.plan && c != KeyOf(r) && TaskOk(S, db, c) && CountOk(S, db.tasks, c)
    ensures TaskOk(S, Accepted(S, db, r, evidence), c)
  {
    assert c in ChildrenOf(S, KeyOf(r)) ==> KeyOf(r).task in UnacceptedParents(S, db.tasks, c);
  }

  lemma AcceptRows(S: Setup, db: Db, r: Request, evidence: Evidence)
    requires Inv(S, db) && r in db.attempts && KeyOf(r) in S.plan && Current(db, r) && Live(db.attempts[r].status)
    requires db.attempts[r].outbox == Observed && Accepting(S, KeyOf(r), evidence)
    ensures RowsOk(S, Accepted(S, db, r, evidence))
  {
    var after := Accepted(S, db, r, evidence);
    assert LinkOk(S, db, r) && TaskOk(S, db, KeyOf(r));
    forall q | q in after.attempts ensures LinkOk(S, after, q) && ChargeOk(S, after, q) {
      assert ChargeOk(S, db, q);
      AcceptLink(S, db, r, evidence, q);
      AcceptCharge(S, db, r, evidence, q);
    }
    forall c | c in after.tasks ensures TaskOk(S, after, c) && CountOk(S, after.tasks, c) {
      assert TaskOk(S, db, c) && CountOk(S, db.tasks, c);
      if c == KeyOf(r) {
        AcceptedTask(S, db, r, evidence);
      } else {
        AcceptOther(S, db, r, evidence, c);
      }
      AcceptCount(S, db, r, evidence, c);
    }
  }

  lemma AcceptKeeps(S: Setup, db: Db, r: Request, epoch: int, file: Id, evidence: Evidence, receipts: Receipts)
    requires Inv(S, db)
    ensures Inv(S, AcceptOp(S, db, r, epoch, file, evidence, receipts).1)
  {
    if AcceptOp(S, db, r, epoch, file, evidence, receipts).0.Success? {
      assert LinkOk(S, db, r);
      SameCharges(S, db, Accepted(S, db, r, evidence));
      AcceptRows(S, db, r, evidence);
    }
  }

  // ---------------------------------------------------------------------------------------------
  // invalidate
  // ---------------------------------------------------------------------------------------------

  /** The affected set contains every child of its members. */
  ghost predicate DownwardClosed(S: Setup, affected: set<TaskKey>) {
    affected <= S.plan.Keys && forall k :: k in affected ==> ChildrenOf(S, k) <= affected
  }

  /** Outside the closure no parent was reopened, so recounting the closure is enough. */
  lemma InvalidateCount(S: Setup, db: Db, affected: set<TaskKey>, c: TaskKey)
    requires Inv(S, db) && DownwardClosed(S, affected) && c in S.plan
    ensures CountOk(S, Invalidated(S, db, affected).tasks, c)
  {
    var after, reopened := Invalidated(S, db, affected), Reopened(db, affected);
    assert CountOk(S, db.tasks, c);
    if c in affected {
      assert UnacceptedParents(S, after.tasks, c) == UnacceptedParents(S, reopened, c);
    } else {
      forall p | p in S.plan[c].parents && TaskKey(c.execution, p) in S.plan ensures TaskKey(c.execution, p) !in affected {
        assert c in ChildrenOf(S, TaskKey(c.execution, p));
      }
      assert UnacceptedParents(S, after.tasks, c) == UnacceptedParents(S, db.tasks, c);
    }
  }

  lemma InvalidateRow(S: Setup, db: Db, affected: set<TaskKey>, q: Request)
    requires Inv(S, db) && DownwardClosed(S, affected) && q in db.attempts
    requires forall k :: k in affected ==> !Unfinished(db, k)
    ensures LinkOk(S, Invalidated(S, db, affected), q) && ChargeOk(S, Invalidated(S, db, affected), q)
  {
    assert LinkOk(S, db, q) && ChargeOk(S, db, q);
    assert TaskOk(S, db, KeyOf(q));
  }

  lemma InvalidateTask(S: Setup, db: Db, affected: set<TaskKey>, c: TaskKey)
    requires Shaped(S, db) && c in S.plan && TaskOk(S, db, c)
    ensures TaskOk(S, Invalidated(S, db, affected), c)
  {
  }

  lemma InvalidateRows(S: Setup, db: Db, affected: set<TaskKey>)
    requires Inv(S, db) && DownwardClosed(S, affected) && forall k :: k in affected ==> !Unfinished(db, k)
    ensures RowsOk(S, Invalidated(S, db, affected))
  {
    var after := Invalidated(S, db, affected);
    forall q | q in after.attempts ensures LinkOk(S, after, q) && ChargeOk(S, after, q) {
      InvalidateRow(S, db, affected, q);
    }
    forall c | c in after.tasks ensures TaskOk(S, after, c) && CountOk(S, after.tasks, c) {
      assert TaskOk(S, db, c);
      InvalidateTask(S, db, affected, c);
      InvalidateCount(S, db, affected, c);
    }
  }

  lemma InvalidateKeeps(S: Setup, db: Db, affected: set<TaskKey>)
    requires Inv(S, db) && DownwardClosed(S, affected)
    ensures Inv(S, InvalidateOp(S, db, affected).1)
  {
    if InvalidateOp(S, db, affected).0.Success? {
      SameCharges(S, db, Invalidated(S, db, affected));
      InvalidateRows(S, db, affected);
    }
  }

  lemma CancelObservedKeeps(S: Setup, db: Db, r: Request, epoch: int, mark: CancelState)
    requires Inv(S, db)
    ensures Inv(S, CancelObservedOp(S, db, r, epoch, mark).1)
  {
    CancelMarkKeeps(S, db, r, epoch, mark);
    CancelStopsKeeps(S, CancelMarkOp(db, r, epoch, mark).1, r, epoch);
  }

  /** A confirmed stop is not a bill: cancelling moves no total, and the fee stays held until it is settled. */
  lemma CancelReleasesNoFee(S: Setup, db: Db, r: Request, epoch: int, mark: CancelState)
    ensures var (res, after) := CancelObservedOp(S, db, r, epoch, mark);
      && after.used == db.used && after.frames == db.frames && after.routeTotals == db.routeTotals
      && (res.Success? ==> r in db.attempts && r in after.attempts && Cost(after.attempts[r].charge) == Cost(db.attempts[r].charge))
      && (res.Success? && mark == Stopped ==> after.attempts[r].status == Cancelled && after.attempts[r].charge.fee != Active)
  {
    var marked := CancelMarkOp(db, r, epoch, mark);
    if marked.0.Success? && mark == Stopped {
      CancelStopsMoney(S, marked.1, r, epoch);
    }
  }

  lemma CancelStopsKeeps(S: Setup, db: Db, r: Request, epoch: int)
    requires Inv(S, db)
    ensures var observed := ObserveOp(db, r, epoch, Cancelled).1;
      Inv(S, observed) && Inv(S, SettleOp(S, observed, r, None).1)
  {
    ObserveKeeps(S, db, r, epoch, Cancelled);
    SettleKeeps(S, ObserveOp(db, r, epoch, Cancelled).1, r, None);
  }

  lemma CancelStopsMoney(S: Setup, db: Db, r: Request, epoch: int)
    requires r in db.attempts
    ensures var observed := ObserveOp(db, r, epoch, Cancelled);
      if observed.0.Failure? then observed.1 == db
      else
        var after := SettleOp(S, observed.1, r, None).1;
        && r in after.attempts && Cost(after.attempts[r].charge) == Cost(db.attempts[r].charge)
        && after.attempts[r].status == Cancelled && after.attempts[r].charge.fee != Active
        && after.used == db.used && after.frames == db.frames && after.routeTotals == db.routeTotals
  {
    var observed := ObserveOp(db, r, epoch, Cancelled);
    if observed.0.Success? {
      ObservedCharge(db, r, epoch, Cancelled);
      NoBill(S, observed.1, r);
    }
  }

  lemma ObservedCharge(db: Db, r: Request, epoch: int, status: Status)
    requires r in db.attempts
    ensures var (res, after) := ObserveOp(db, r, epoch, status);
      && r in after.attempts && after.attempts[r].charge == db.attempts[r].charge
      && after.used == db.used && after.frames == db.frames && after.routeTotals == db.routeTotals
      && (res.Success? ==> after.attempts[r].status == status)
  {
  }

  /** A missing bill only marks an active fee as unknown. */
  lemma NoBill(S: Setup, db: Db, r: Request)
    requires r in db.attempts
    ensures var (res, after) := SettleOp(S, db, r, None);
      && r in after.attempts && Cost(after.attempts[r].charge) == Cost(db.attempts[r].charge)
      && after.attempts[r].status == db.attempts[r].status && after.attempts[r].charge.fee != Active
      && after.used == db.used && after.frames == db.frames && after.routeTotals == db.routeTotals
  {
  }

  // ---------------------------------------------------------------------------------------------
  // check()
  // ---------------------------------------------------------------------------------------------

  ghost predicate AcceptedRowChecks(S: Setup, db: Db, k: TaskKey)
    requires k in db.tasks
  {
    var t := db.tasks[k];
    t.accepted.Some? ==>
      && t.status == MachineAccepted && t.request.Some? && t.request.value in db.attempts
      && Accepting(S, k, t.accepted.value)
      && db.attempts[t.request.value].evidence == t.accepted && !db.attempts[t.request.value].invalidated
  }

  /** The totals `check` recomputes from the rows. */
  ghost predicate MoneyPasses(S: Setup, db: Db) {
    && db.used == SumBy(db.attempts, CostOf()) && db.frames == SumBy(db.attempts, FramesOf())
    && (forall route :: route in db.routeTotals ==> SumBy(db.attempts, CostOn(route)) == db.routeTotals[route])
    && db.used + S.auth.cleanupUnits <= S.auth.totalUnits && db.frames <= S.auth.maxFrames
  }

  /** The file of an accepted task is the one its evidence is about; `disk` has the digests of the files in place. */
  ghost predicate FileKept(db: Db, disk: map<TaskKey, Id>, k: TaskKey) {
    k in db.tasks && db.tasks[k].accepted.Some? ==> k in disk && disk[k] == db.tasks[k].accepted.value.artifact
  }

  /** What `check` compares of a task's document. */
  datatype Document = Document(task: Id, shot: Id)

  ghost function Documents(S: Setup): map<TaskKey, Document> {
    map k | k in S.plan :: Document(k.task, S.plan[k].shot)
  }

  ghost predicate RowPasses(S: Setup, db: Db, disk: map<TaskKey, Id>, documents: map<TaskKey, Document>, k: TaskKey)
    requires k in db.tasks
  {
    k in documents ==>
      && k in S.plan && documents[k] == Document(k.task, S.plan[k].shot)
      && CountOk(S, db.tasks, k) && AcceptedRowChecks(S, db, k) && FileKept(db, disk, k)
  }

  /** Everything `check` recomputes, row by row of tasks joined with their documents. */
  ghost predicate CheckPasses(S: Setup, db: Db, disk: map<TaskKey, Id>, documents: map<TaskKey, Document>) {
    MoneyPasses(S, db) && |documents| == |db.tasks| && forall k :: k in db.tasks ==> RowPasses(S, db, disk, documents, k)
  }

  ghost predicate FilesKept(db: Db, disk: map<TaskKey, Id>) {
    forall k {:trigger FileKept(db, disk, k)} :: FileKept(db, disk, k)
  }

  /**
   `check` finds fault with a store that only its own transactions touched exactly when an accepted file or a document is
   gone or changed, or, before anything was reserved, when the cleanup reserve exceeds the whole budget, which `create`
   does not refuse. That documents belong to tasks is the foreign key.
   */
  lemma CheckAgrees(S: Setup, db: Db, disk: map<TaskKey, Id>, documents: map<TaskKey, Document>)
    requires Inv(S, db) && documents.Keys <= db.tasks.Keys
    ensures CheckPasses(S, db, disk, documents) <==>
      db.used + S.auth.cleanupUnits <= S.auth.totalUnits && FilesKept(db, disk) && documents == Documents(S)
    ensures db.attempts != map[] ==> (CheckPasses(S, db, disk, documents) <==> FilesKept(db, disk) && documents == Documents(S))
    ensures CheckPasses(S, Created(S), disk, Documents(S)) <==> S.auth.cleanupUnits <= S.auth.totalUnits
  {
    CheckRows(S, db, disk, documents);
    CreatedOk(S);
    CheckRows(S, Created(S), disk, Documents(S));
    assert FilesKept(Created(S), disk);
  }

  lemma CheckRows(S: Setup, db: Db, disk: map<TaskKey, Id>, documents: map<TaskKey, Document>)
    requires Inv(S, db) && documents.Keys <= db.tasks.Keys
    ensures CheckPasses(S, db, disk, documents) <==>
      db.used + S.auth.cleanupUnits <= S.auth.totalUnits && FilesKept(db, disk) && documents == Documents(S)
  {
    forall route | route in db.routeTotals ensures SumBy(db.attempts, CostOn(route)) == db.routeTotals[route] {
      assert RouteOk(S, db, route);
    }
    forall k | k in db.tasks ensures CountOk(S, db.tasks, k) && AcceptedRowChecks(S, db, k) {
      assert TaskOk(S, db, k);
    }
    EveryDocument(S, db, documents);
    forall k ensures k in documents ==>
      (RowPasses(S, db, disk, documents, k) <==> FileKept(db, disk, k) && documents[k] == Documents(S)[k]) {
    }
  }

  /** As many documents as tasks, each of a task: one for every task. */
  lemma EveryDocument(S: Setup, db: Db, documents: map<TaskKey, Document>)
    requires db.tasks.Keys == S.plan.Keys && documents.Keys <= db.tasks.Keys
    ensures |documents| == |db.tasks| <==> documents.Keys == Documents(S).Keys
    ensures documents == Documents(S) <==>
      documents.Keys == Documents(S).Keys && forall k :: k in documents ==> documents[k] == Documents(S)[k]
  {
    assert |documents| == |documents.Keys| && |db.tasks| == |db.tasks.Keys|;
    assert db.tasks.Keys == documents.Keys + (db.tasks.Keys - documents.Keys);
  }
}
