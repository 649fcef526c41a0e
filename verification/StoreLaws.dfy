/**
 What each transaction of the production store answers and does, stated on the tables alone: when work may start, what a
 claim is, who may report, accept or reopen, and what a stored forecast is good for.
 */
module StoreLaws {
  import opened Wrappers
  import opened Ids
  import opened Sums
  import opened StoreState
  import opened StoreInv
  import opened StoreRuns
  import opened StoreForecast

  // ---------------------------------------------------------------------------------------------
  // The gate
  // ---------------------------------------------------------------------------------------------

  predicate Stands(S: Setup, db: Db) {
    S.auth.authorized && !db.revoked
  }

  predicate InTime(S: Setup, env: Env) {
    S.auth.v2 ==> env.now < S.auth.expiresAt as real
  }

  /** Work of an execution may start or go on: known, not paused, authorized, not expired, not held. */
  predicate Open(S: Setup, db: Db, execution: Id, env: Env) {
    execution in db.paused && !db.paused[execution] && Stands(S, db) && InTime(S, env) && !env.held
  }

  /** The clock and the hold file a transaction looks at. */
  function EnvOf(tx: Tx): Option<Env> {
    match tx
    case Claim(_, _, _, env) => Some(env)
    case Renew(_, _, _, _, env) => Some(env)
    case MarkSending(_, _, env) => Some(env)
    case _ => None
  }

  predicate Passes(S: Setup, db: Db, tx: Tx, execution: Id) {
    EnvOf(tx).Some? && Open(S, db, execution, EnvOf(tx).value)
  }

  /** The attempt is new, newly in the provider's way, or newly leased. */
  ghost predicate Starts(db: Db, after: Db, r: Request) {
    r in after.attempts &&
    (|| r !in db.attempts || (after.attempts[r].outbox == Sending && db.attempts[r].outbox != Sending)
     || after.attempts[r].expires != db.attempts[r].expires || after.attempts[r].owner != db.attempts[r].owner)
  }

  lemma GateHolds(S: Setup, db: Db, tx: Tx, r: Request)
    requires Inv(S, db) && Starts(db, Commit(S, db, tx), r)
    ensures Passes(S, db, tx, r.execution)
  {
    match tx
    case Claim(k, owner, expires, env) => ClaimStarts(S, db, k, owner, expires, env, r);
    case Renew(q, epoch, owner, expires, env) => RenewStarts(S, db, q, epoch, owner, expires, env, r);
    case MarkSending(q, epoch, env) => MarkStarts(S, db, q, epoch, env, r);
    case Settle(q, units) => SettleStartsNone(S, db, q, units, r);
    case Invalidate(affected) => InvalidateStartsNone(S, db, affected, r);
    case AcceptResult(q, epoch, file, evidence, receipts) => AcceptStartsNone(S, db, q, epoch, file, evidence, receipts, r);
    case _ => RestStartsNone(S, db, tx, r);
  }

  lemma ClaimStarts(S: Setup, db: Db, k: TaskKey, owner: Id, expires: int, env: Env, r: Request)
    requires Shaped(S, db) && Starts(db, ClaimOp(S, db, k, owner, expires, env).1, r)
    ensures r.execution == k.execution && Open(S, db, r.execution, env)
  {
  }

  lemma RenewStarts(S: Setup, db: Db, q: Request, epoch: int, owner: Id, expires: int, env: Env, r: Request)
    requires Starts(db, RenewPreparedOp(S, db, q, epoch, owner, expires, env).1, r)
    ensures r == q && Open(S, db, r.execution, env)
  {
  }

  lemma MarkStarts(S: Setup, db: Db, q: Request, epoch: int, env: Env, r: Request)
    requires Starts(db, MarkSendingOp(S, db, q, epoch, env).1, r)
    ensures r == q && Open(S, db, r.execution, env)
  {
  }

  lemma SettleStartsNone(S: Setup, db: Db, q: Request, units: Option<int>, r: Request)
    ensures !Starts(db, SettleOp(S, db, q, units).1, r)
  {
  }

  lemma InvalidateStartsNone(S: Setup, db: Db, affected: set<TaskKey>, r: Request)
    requires Shaped(S, db)
    ensures !Starts(db, Commit(S, db, Invalidate(affected)), r)
  {
  }

  lemma AcceptStartsNone(S: Setup, db: Db, q: Request, epoch: int, file: Id, evidence: Evidence, receipts: Receipts, r: Request)
    requires Shaped(S, db)
    ensures !Starts(db, AcceptOp(S, db, q, epoch, file, evidence, receipts).1, r)
  {
  }

  lemma RestStartsNone(S: Setup, db: Db, tx: Tx, r: Request)
    requires Shaped(S, db) && (tx.Observe? || tx.MarkCancel? || tx.RecordForecast? || tx.RejectResult? || tx.Pause? || tx.Revoke? || tx.WaitForRepair? || tx.Wake?)
    ensures !Starts(db, Commit(S, db, tx), r)
  {
  }

  /** The same for runners: whatever happens, nothing of an execution starts while its gate is shut. */
  lemma NothingStartsWhileShut(S: Setup, w: World, m: Move, r: Request)
    requires WorldOk(S, w) && Starts(w.db, After(S, w, m).db, r)
    ensures match m
      case Transact(tx) => Passes(S, w.db, tx, r.execution)
      case Arm(_, q, _, env) => q == r && Open(S, w.db, r.execution, env)
      case _ => false
  {
    match m
    case Transact(tx) => GateHolds(S, w.db, tx, r);
    case Arm(runner, q, epoch, env) => MarkStarts(S, w.db, q, epoch, env, r);
    case _ =>
  }

  /** What stands against starting work, the first thing deciding. */
  predicate Shuts(S: Setup, db: Db, execution: Id, env: Env, error: Error) {
    match error
    case AuthorityConflict => execution !in db.paused
    case NotReady => execution in db.paused && db.paused[execution]
    case NotAuthorized => execution in db.paused && !db.paused[execution] && !Stands(S, db)
    case AuthorizationExpired => execution in db.paused && !db.paused[execution] && Stands(S, db) && !InTime(S, env)
    case SubmitHeld => execution in db.paused && !db.paused[execution] && Stands(S, db) && InTime(S, env) && env.held
    case _ => false
  }

  lemma GateAnswers(S: Setup, db: Db, execution: Id, env: Env)
    ensures var told := ActiveError(S, db, execution, env);
      if Open(S, db, execution, env) then told == None else told.Some? && Shuts(S, db, execution, env, told.value)
  {
  }

  // ---------------------------------------------------------------------------------------------
  // When a claim is granted
  // ---------------------------------------------------------------------------------------------

  /** Not accepted yet, and everything it depends on is. */
  predicate InputsReady(S: Setup, db: Db, k: TaskKey)
    requires k in S.plan && k in db.tasks
  {
    && db.tasks[k].accepted.None?
    && forall p :: p in S.plan[k].parents ==> TaskKey(k.execution, p) in db.tasks && db.tasks[TaskKey(k.execution, p)].accepted.Some?
  }

  /** No earlier attempt is under way or was accepted. */
  predicate Untaken(db: Db, k: TaskKey)
    requires k in db.tasks
  {
    db.tasks[k].request.Some? && db.tasks[k].request.value in db.attempts ==>
      var last := db.attempts[db.tasks[k].request.value];
      last.status in {Failed, Cancelled, Rejected} || last.invalidated
  }

  ghost function Tries(db: Db, k: TaskKey): set<Request> {
    set r | r in db.attempts && r.execution == k.execution && r.task == k.task
  }

  /** The task's last reservation has used up the shot's current round. */
  predicate RoundUsed(S: Setup, db: Db, k: TaskKey)
    requires k in S.plan && k in db.tasks && ShotOf(S, k) in db.rounds
  {
    && S.plan[k].frames > 0 && db.tasks[k].request.Some? && db.tasks[k].request.value in db.attempts
    && db.attempts[db.tasks[k].request.value].charge.slot.Some?
    && db.attempts[db.tasks[k].request.value].charge.slot.value.round == db.rounds[ShotOf(S, k)]
  }

  /** Another task of the shot has generation under way in the shot's current round. */
  predicate ShotBusy(S: Setup, db: Db, k: TaskKey)
    requires k in S.plan && ShotOf(S, k) in db.rounds
  {
    exists r :: r in db.attempts && r.execution == k.execution && r.task != k.task && Live(db.attempts[r].status)
      && db.attempts[r].charge.slot.Some? && db.attempts[r].charge.slot.value.shot == S.plan[k].shot
      && db.attempts[r].charge.slot.value.round == db.rounds[ShotOf(S, k)]
  }

  /** The recomputed sums of all reservations leave room for the task, its route and its frames, cleanup set aside. */
  ghost predicate FitsBudget(S: Setup, db: Db, doc: TaskDoc)
    requires doc.route in S.auth.routeLimits
  {
    && SumBy(db.attempts, CostOf()) + doc.worst + S.auth.cleanupUnits <= S.auth.totalUnits
    && SumBy(db.attempts, CostOn(doc.route)) + doc.worst <= S.auth.routeLimits[doc.route]
    && SumBy(db.attempts, FramesOf()) + doc.frames <= S.auth.maxFrames
  }

  /** Of the three sums, the first over its limit is no longer a 64-bit number. */
  ghost predicate TooLarge(S: Setup, db: Db, doc: TaskDoc)
    requires doc.route in S.auth.routeLimits
  {
    var total, route := SumBy(db.attempts, CostOf()) + doc.worst + S.auth.cleanupUnits, SumBy(db.attempts, CostOn(doc.route)) + doc.worst;
    if total > S.auth.totalUnits then total >= 0x8000_0000_0000_0000
    else if route > S.auth.routeLimits[doc.route] then route >= 0x8000_0000_0000_0000
    else SumBy(db.attempts, FramesOf()) + doc.frames >= 0x8000_0000_0000_0000
  }

  /** Four fifths of a version 2 budget would be used. */
  ghost predicate Tight(S: Setup, db: Db, doc: TaskDoc) {
    S.auth.v2 && 5 * (SumBy(db.attempts, CostOf()) + doc.worst) >= 4 * S.auth.totalUnits
  }

  /** The forecast on record allows for the task and is itself within the budget. */
  ghost predicate Foreseen(S: Setup, db: Db, doc: TaskDoc) {
    && db.forecast.Some? && doc.worst <= db.forecast.value.remaining
    && SumBy(db.attempts, CostOf()) + db.forecast.value.remaining + S.auth.cleanupUnits <= S.auth.totalUnits
  }

  ghost predicate Grantable(S: Setup, db: Db, k: TaskKey, env: Env)
    requires Shaped(S, db)
  {
    && Open(S, db, k.execution, env) && k in S.plan && InputsReady(S, db, k) && Untaken(db, k) && |Tries(db, k)| < 3
    && (RoundUsed(S, db, k) ==> !ShotBusy(S, db, k) && db.rounds[ShotOf(S, k)] < S.auth.maxRepairRounds)
    && FitsBudget(S, db, S.plan[k]) && (Tight(S, db, S.plan[k]) ==> S.plan[k].essential && Foreseen(S, db, S.plan[k]))
  }

  lemma NoneUnaccepted(S: Setup, db: Db, k: TaskKey)
    requires Inv(S, db) && k in S.plan
    ensures InputsReady(S, db, k) <==> db.tasks[k].accepted.None? && db.tasks[k].remaining == 0
  {
    assert DocOk(S, k) && CountOk(S, db.tasks, k);
    if db.tasks[k].remaining == 0 {
      assert UnacceptedParents(S, db.tasks, k) == {};
      forall p | p in S.plan[k].parents ensures TaskKey(k.execution, p) in db.tasks && db.tasks[TaskKey(k.execution, p)].accepted.Some? {
        assert p !in UnacceptedParents(S, db.tasks, k);
      }
    }
    if InputsReady(S, db, k) {
      assert UnacceptedParents(S, db.tasks, k) == {};
    }
  }

  lemma BudgetMeans(S: Setup, db: Db, k: TaskKey)
    requires Inv(S, db) && k in S.plan
    ensures S.plan[k].route in S.auth.routeLimits
    ensures BudgetError(S, db, S.plan[k]).None? <==> FitsBudget(S, db, S.plan[k])
  {
    assert DocOk(S, k) && RouteOk(S, db, S.plan[k].route);
  }

  lemma ForecastMeans(S: Setup, db: Db, doc: TaskDoc)
    requires Inv(S, db)
    ensures ForecastError(S, db, doc).None? <==> (Tight(S, db, doc) ==> doc.essential && Foreseen(S, db, doc))
  {
  }

  lemma RoundMeans(S: Setup, db: Db, k: TaskKey)
    requires Shaped(S, db) && k in S.plan
    ensures var round := ClaimRound(S, db, k);
      && (round.Success? <==> (RoundUsed(S, db, k) ==> !ShotBusy(S, db, k) && db.rounds[ShotOf(S, k)] < S.auth.maxRepairRounds))
      && (round.Success? ==> round.value == db.rounds[ShotOf(S, k)] + if RoundUsed(S, db, k) then 1 else 0)
      && (round == Failure(RepairWaiting) <==> RoundUsed(S, db, k) && ShotBusy(S, db, k))
      && (round.Failure? ==> round.error in {RepairWaiting, RepairExhausted})
  {
    assert PriorInRound(S, db, k) <==> RoundUsed(S, db, k);
    assert SiblingLive(db, k, S.plan[k].shot, db.rounds[ShotOf(S, k)]) <==> ShotBusy(S, db, k);
  }

  lemma UntakenMeans(S: Setup, db: Db, k: TaskKey)
    requires Inv(S, db) && k in S.plan
    ensures db.tasks[k].request.Some? ==> db.tasks[k].request.value in db.attempts
    ensures AttemptsOf(db, k) == Tries(db, k)
  {
    assert TaskOk(S, db, k);
  }

  /** Admission: a claim is granted exactly for open, ready, untaken work within rounds, budget and forecast. */
  lemma ClaimGrantedWhen(S: Setup, db: Db, k: TaskKey, owner: Id, expires: int, env: Env)
    requires Inv(S, db) && SegmentsDistinct(S)
    ensures ClaimOp(S, db, k, owner, expires, env).0.Success? <==> Grantable(S, db, k, env)
  {
    GateAnswers(S, db, k.execution, env);
    if k in S.plan {
      NoneUnaccepted(S, db, k);
      UntakenMeans(S, db, k);
      RoundMeans(S, db, k);
      BudgetMeans(S, db, k);
      ForecastMeans(S, db, S.plan[k]);
      NextIsNew(S, db, k);
      if ClaimRound(S, db, k).Success? {
        SlotNeverTaken(S, db, k);
      }
    }
  }

  /** The first thing that stands against a claim is the answer; a taken generation slot comes last and only with shared segments. */
  lemma ClaimAnswers(S: Setup, db: Db, k: TaskKey, owner: Id, expires: int, env: Env)
    requires Inv(S, db)
    ensures var told := ClaimOp(S, db, k, owner, expires, env).0;
      && (!Open(S, db, k.execution, env) ==> told.Failure? && Shuts(S, db, k.execution, env, told.error))
      && (Open(S, db, k.execution, env) && k !in S.plan ==> told == Failure(NotFound))
      && (Open(S, db, k.execution, env) && k in S.plan ==>
            && (!InputsReady(S, db, k) ==> told == Failure(NotReady))
            && (InputsReady(S, db, k) && !Untaken(db, k) ==> told == Failure(ReconcileRequired))
            && (InputsReady(S, db, k) && Untaken(db, k) && |Tries(db, k)| >= 3 ==> told == Failure(AttemptsExceeded))
            && (InputsReady(S, db, k) && Untaken(db, k) && |Tries(db, k)| < 3 ==> GenerationAnswers(S, db, k, told)))
  {
    GateAnswers(S, db, k.execution, env);
    if ActiveError(S, db, k.execution, env).None? && k in S.plan {
      NoneUnaccepted(S, db, k);
      UntakenMeans(S, db, k);
      if InputsReady(S, db, k) && Untaken(db, k) && |Tries(db, k)| < 3 {
        RoundMeans(S, db, k);
        MoneyAnswers(S, db, k, owner, expires, env);
      }
    }
  }

  ghost predicate GenerationAnswers(S: Setup, db: Db, k: TaskKey, told: Result<Request, Error>)
    requires Shaped(S, db) && k in S.plan && S.plan[k].route in S.auth.routeLimits
  {
    var doc := S.plan[k];
    if RoundUsed(S, db, k) && ShotBusy(S, db, k) then told == Failure(RepairWaiting)
    else if RoundUsed(S, db, k) && db.rounds[ShotOf(S, k)] >= S.auth.maxRepairRounds then told == Failure(RepairExhausted)
    else if !FitsBudget(S, db, doc) then told == Failure(if TooLarge(S, db, doc) then Invalid else BudgetExceeded)
    else if Tight(S, db, doc) && !doc.essential then told == Failure(OptionalWorkPaused)
    else if Tight(S, db, doc) && (db.forecast.None? || db.forecast.value.remaining < doc.worst) then told == Failure(ForecastRequired)
    else if Tight(S, db, doc) && !Foreseen(S, db, doc) then told == Failure(ForecastUnaffordable)
    else told == Success(Request(k.execution, k.task, db.tasks[k].epoch + 1)) || told == Failure(RequestConflict)
  }

  lemma MoneyAnswers(S: Setup, db: Db, k: TaskKey, owner: Id, expires: int, env: Env)
    requires Inv(S, db) && k in S.plan && ActiveError(S, db, k.execution, env).None? && db.tasks[k].accepted.None? && db.tasks[k].remaining == 0
    requires Untaken(db, k) && |AttemptsOf(db, k)| < 3 && (db.tasks[k].request.Some? ==> db.tasks[k].request.value in db.attempts)
    ensures S.plan[k].route in S.auth.routeLimits && GenerationAnswers(S, db, k, ClaimOp(S, db, k, owner, expires, env).0)
  {
    RoundMeans(S, db, k);
    BudgetMeans(S, db, k);
    BudgetAnswers(S, db, k);
    ForecastMeans(S, db, S.plan[k]);
    ForecastAnswers(S, db, S.plan[k]);
  }

  lemma BudgetAnswers(S: Setup, db: Db, k: TaskKey)
    requires Inv(S, db) && k in S.plan && S.plan[k].route in db.routeTotals && S.plan[k].route in S.auth.routeLimits
    ensures BudgetError(S, db, S.plan[k]).Some? ==>
      BudgetError(S, db, S.plan[k]).value == if TooLarge(S, db, S.plan[k]) then Invalid else BudgetExceeded
  {
    assert DocOk(S, k) && RouteOk(S, db, S.plan[k].route);
  }

  lemma ForecastAnswers(S: Setup, db: Db, doc: TaskDoc)
    requires Inv(S, db)
    ensures ForecastError(S, db, doc).Some? ==>
      if !doc.essential then ForecastError(S, db, doc).value == OptionalWorkPaused
      else if db.forecast.None? || db.forecast.value.remaining < doc.worst then ForecastError(S, db, doc).value == ForecastRequired
      else ForecastError(S, db, doc).value == ForecastUnaffordable
  {
  }

  // ---------------------------------------------------------------------------------------------
  // What a claim is
  // ---------------------------------------------------------------------------------------------

  /** The new attempt: leased as asked, not sent, its full worst case held. */
  predicate FreshAttempt(a: Attempt, doc: TaskDoc, owner: Id, expires: int, round: int) {
    && a.owner == owner && a.expires == expires && a.status == Reserved && a.outbox == Prepared
    && !a.invalidated && a.evidence == None && a.cancel == None
    && a.charge.route == doc.route && a.charge.worst == doc.worst && a.charge.frames == doc.frames && a.charge.fee == Active && a.charge.settled == 0
    && a.charge.slot == if doc.frames > 0 then Some(Slot(doc.shot, doc.segment, round)) else None
  }

  /** All tables but those of attempts, tasks and rounds, and the money, are as before. */
  predicate OnlyWork(db: Db, after: Db) {
    after.revoked == db.revoked && after.paused == db.paused
  }

  ghost predicate ClaimsTask(S: Setup, db: Db, after: Db, k: TaskKey, r: Request, owner: Id, expires: int)
    requires Shaped(S, db) && k in S.plan
  {
    && r == Request(k.execution, k.task, db.tasks[k].epoch + 1) && r !in db.attempts && r in after.attempts
    && ShotOf(S, k) in after.rounds && FreshAttempt(after.attempts[r], S.plan[k], owner, expires, after.rounds[ShotOf(S, k)])
    && after.attempts == db.attempts[r := after.attempts[r]]
    && after.tasks == db.tasks[k := db.tasks[k].(status := Reserved, epoch := db.tasks[k].epoch + 1, request := Some(r))]
    && after.rounds == db.rounds[ShotOf(S, k) := db.rounds[ShotOf(S, k)] + if RoundUsed(S, db, k) then 1 else 0]
  }

  /** The task's worst case goes into the totals, and out of what the forecast leaves for later. */
  ghost predicate ChargesTask(S: Setup, db: Db, after: Db, doc: TaskDoc)
    requires doc.route in db.routeTotals
  {
    && after.used == db.used + doc.worst && after.frames == db.frames + doc.frames
    && after.routeTotals == db.routeTotals[doc.route := db.routeTotals[doc.route] + doc.worst]
    && (after.forecast.Some? <==> db.forecast.Some?)
    && (db.forecast.Some? && doc.worst <= db.forecast.value.remaining ==> after.forecast.value.remaining == db.forecast.value.remaining - doc.worst)
    && (db.forecast.Some? && doc.worst > db.forecast.value.remaining ==> after.forecast.value.remaining == 0)
  }

  lemma ClaimedAs(S: Setup, db: Db, k: TaskKey, owner: Id, expires: int, env: Env)
    requires Inv(S, db)
    ensures var (told, after) := ClaimOp(S, db, k, owner, expires, env);
      if told.Success? then k in S.plan && ClaimsTask(S, db, after, k, told.value, owner, expires) && ChargesTask(S, db, after, S.plan[k]) && OnlyWork(db, after)
      else after == db
  {
    if ClaimError(S, db, k, env).None? {
      RoundMeans(S, db, k);
      NewRow(S, db, k, owner, expires, ClaimRound(S, db, k).value);
      NewCharge(S, db, k, owner, expires, ClaimRound(S, db, k).value);
    }
  }

  lemma NewRow(S: Setup, db: Db, k: TaskKey, owner: Id, expires: int, round: int)
    requires Shaped(S, db) && k in S.plan && Next(k, db.tasks[k]) !in db.attempts && round == db.rounds[ShotOf(S, k)] + if RoundUsed(S, db, k) then 1 else 0
    ensures ClaimsTask(S, db, Claimed(S, db, k, owner, expires, round), k, Next(k, db.tasks[k]), owner, expires)
  {
  }

  lemma NewCharge(S: Setup, db: Db, k: TaskKey, owner: Id, expires: int, round: int)
    requires Shaped(S, db) && k in S.plan
    ensures var after := Claimed(S, db, k, owner, expires, round); ChargesTask(S, db, after, S.plan[k]) && OnlyWork(db, after)
  {
  }

  // ---------------------------------------------------------------------------------------------
  // Who may act on an attempt
  // ---------------------------------------------------------------------------------------------

  /** The request is its task's latest, nothing having been claimed or reopened since. */
  predicate Holds(db: Db, r: Request) {
    && r in db.attempts && TaskKey(r.execution, r.task) in db.tasks
    && db.tasks[TaskKey(r.execution, r.task)].request == Some(r) && db.tasks[TaskKey(r.execution, r.task)].epoch == r.epoch
  }

  /** The epoch named is the request's own and still holds. */
  predicate Fences(db: Db, r: Request, epoch: int, error: Error) {
    if r !in db.attempts then error == NotFound else (r.epoch != epoch || !Holds(db, r)) && error == Fenced
  }

  lemma FenceAnswers(db: Db, r: Request, epoch: int)
    ensures var told := FenceError(db, r, epoch);
      if Holds(db, r) && r.epoch == epoch then told == None else told.Some? && Fences(db, r, epoch, told.value)
  {
  }

  /** A request is marked as sending exactly by its holder, while the gate is open and its lease runs, if it was never sent. */
  lemma SentWhen(S: Setup, db: Db, r: Request, epoch: int, env: Env)
    ensures var (told, after) := MarkSendingOp(S, db, r, epoch, env);
      && (told.Success? <==>
            && Holds(db, r) && r.epoch == epoch && Open(S, db, r.execution, env)
            && env.now < db.attempts[r].expires as real && db.attempts[r].outbox == Prepared)
      && (told.Failure? ==> after == db)
      && (told.Success? ==>
            after == db.(attempts := db.attempts[r := db.attempts[r].(outbox := Sending, status := Submitted)],
                         tasks := db.tasks[KeyOf(r) := db.tasks[KeyOf(r)].(status := Submitted)]))
  {
    FenceAnswers(db, r, epoch);
    GateAnswers(S, db, r.execution, env);
  }

  lemma SendRefusals(S: Setup, db: Db, r: Request, epoch: int, env: Env)
    ensures var told := MarkSendingOp(S, db, r, epoch, env).0;
      && (!(Holds(db, r) && r.epoch == epoch) ==> told.Failure? && Fences(db, r, epoch, told.error))
      && (Holds(db, r) && r.epoch == epoch && !Open(S, db, r.execution, env) ==> told.Failure? && Shuts(S, db, r.execution, env, told.error))
      && (Holds(db, r) && r.epoch == epoch && Open(S, db, r.execution, env) ==>
            && (db.attempts[r].expires as real <= env.now ==> told == Failure(LeaseExpired))
            && (env.now < db.attempts[r].expires as real && db.attempts[r].outbox != Prepared ==> told == Failure(ReconcileRequired)))
  {
    FenceAnswers(db, r, epoch);
    GateAnswers(S, db, r.execution, env);
  }

  /** A lease is renewed exactly by the owner of an unsent request in force, while the gate is open; to the time asked for. */
  lemma RenewedWhen(S: Setup, db: Db, r: Request, epoch: int, owner: Id, expires: int, env: Env)
    ensures var (told, after) := RenewPreparedOp(S, db, r, epoch, owner, expires, env);
      && (told.Success? <==>
            && Holds(db, r) && r.epoch == epoch && Open(S, db, r.execution, env)
            && db.attempts[r].owner == owner && db.attempts[r].outbox == Prepared)
      && (told.Failure? ==> after == db)
      && (told.Success? ==> after == db.(attempts := db.attempts[r := db.attempts[r].(expires := expires)]))
  {
    FenceAnswers(db, r, epoch);
    GateAnswers(S, db, r.execution, env);
  }

  /** A report on a request in force: what is finished stays as it is; anything else takes the status, and is seen unless nobody knows. */
  lemma ObservedWhen(db: Db, r: Request, epoch: int, status: Status)
    ensures var (told, after) := ObserveOp(db, r, epoch, status);
      if status !in {Running, Produced, Failed, Cancelled, Unknown} then told == Failure(ProviderInvalid) && after == db
      else if !(Holds(db, r) && r.epoch == epoch) then told.Failure? && Fences(db, r, epoch, told.error) && after == db
      else if db.attempts[r].status in {Failed, Cancelled, Rejected, MachineAccepted}
      then after == db && told == if db.attempts[r].status == status then Success(()) else Failure(StateConflict)
      else
        && told == Success(()) && r in after.attempts && after.attempts[r].status == status
        && (db.attempts[r].status != status ==>
              && after.attempts[r] == db.attempts[r].(status := status, outbox := after.attempts[r].outbox)
              && (after.attempts[r].outbox == if status == Unknown then db.attempts[r].outbox else Observed)
              && after == db.(attempts := db.attempts[r := after.attempts[r]], tasks := db.tasks[KeyOf(r) := db.tasks[KeyOf(r)].(status := status)]))
        && (db.attempts[r].status == status ==> after == db)
  {
    FenceAnswers(db, r, epoch);
  }

  /** Asking for a stop, or what became of it, is noted on a request in force and changes nothing else. */
  lemma CancelMarkedWhen(db: Db, r: Request, epoch: int, mark: CancelState)
    ensures var (told, after) := CancelMarkOp(db, r, epoch, mark);
      if Holds(db, r) && r.epoch == epoch
      then told == Success(()) && after == db.(attempts := db.attempts[r := db.attempts[r].(cancel := Some(mark))])
      else told.Failure? && Fences(db, r, epoch, told.error) && after == db
  {
    FenceAnswers(db, r, epoch);
  }

  /** Only a confirmed stop ends the attempt; then its fee is unknown until it is billed. */
  lemma CancelObservedWhen(S: Setup, db: Db, r: Request, epoch: int, mark: CancelState)
    requires Inv(S, db) && Holds(db, r) && r.epoch == epoch && Live(db.attempts[r].status)
    ensures var (told, after) := CancelObservedOp(S, db, r, epoch, mark);
      && told == Success(()) && r in after.attempts && after.attempts[r].cancel == Some(mark)
      && after.used == db.used && after.routeTotals == db.routeTotals
      && (mark != Stopped ==> after.attempts[r].status == db.attempts[r].status && after.attempts[r].charge == db.attempts[r].charge && after.tasks == db.tasks)
      && (mark == Stopped ==>
            && after.attempts[r].status == Cancelled && after.attempts[r].outbox == Observed && after.tasks[KeyOf(r)].status == Cancelled
            && after.attempts[r].charge.fee == (if db.attempts[r].charge.fee == Active then UnknownFee else db.attempts[r].charge.fee))
  {
    CancelMarkedWhen(db, r, epoch, mark);
    if mark == Stopped {
      ObservedWhen(CancelMarkOp(db, r, epoch, mark).1, r, epoch, Cancelled);
    }
  }

  /** A rejection needs a produced result in force, a sealed rejecting report, and a named artifact to be the report's. */
  lemma RejectedWhen(db: Db, r: Request, epoch: int, evidence: Evidence, file: Option<Id>)
    ensures var (told, after) := RejectOp(db, r, epoch, evidence, file);
      && (told.Success? <==>
            && Holds(db, r) && r.epoch == epoch && db.attempts[r].status == Produced
            && evidence.isSealed && evidence.verdict == Reject && (file.Some? ==> file.value == evidence.artifact))
      && (told.Failure? ==> after == db)
      && (told.Success? ==>
            after == db.(attempts := db.attempts[r := db.attempts[r].(status := Rejected, evidence := Some(evidence))],
                         tasks := db.tasks[KeyOf(r) := db.tasks[KeyOf(r)].(status := Rejected)]))
  {
    FenceAnswers(db, r, epoch);
  }

  /** The publication intent and the quality result on record are the report's own. */
  predicate Receipted(r: Request, receipts: Receipts, evidence: Evidence) {
    match receipts
    case Unbound => true
    case Bound(binding, intent, published, result) =>
      && intent == Some(evidence) && evidence.request == Some(r) && published
      && result.Some? && evidence.quality == result
      && result.value.binding == binding && result.value.artifact == evidence.artifact && result.value.verdict == Accept
      && evidence.technical.Some? && evidence.technical.value.report == result.value.technical
  }

  /** A row after an acceptance of a task: the task itself, its children, and what waited for a repair round of its shot. */
  ghost predicate AcceptsRow(S: Setup, db: Db, after: Db, k: TaskKey, evidence: Evidence, c: TaskKey)
    requires k in S.plan && c in S.plan && c in db.tasks && c in after.tasks
  {
    var was, now := db.tasks[c], after.tasks[c];
    var child := c.execution == k.execution && k.task in S.plan[c].parents;
    var woken := c != k && c.execution == k.execution && S.plan[c].shot == S.plan[k].shot && was.status == RepairWait;
    && now.epoch == was.epoch && now.request == was.request
    && now.accepted == (if c == k then Some(evidence) else was.accepted)
    && now.remaining == (if child then was.remaining - 1 else was.remaining)
    && now.status == if c == k then MachineAccepted else if woken then Rejected else was.status
  }

  /** An acceptance needs a produced or verified result in force and a sealed accepting report about this file, under the policy. */
  lemma AcceptedWhen(S: Setup, db: Db, r: Request, epoch: int, file: Id, evidence: Evidence, receipts: Receipts)
    requires Inv(S, db)
    ensures var (told, after) := AcceptOp(S, db, r, epoch, file, evidence, receipts);
      && (told.Success? <==>
            && Holds(db, r) && r.epoch == epoch && db.attempts[r].status in {Produced, Verified}
            && evidence.isSealed && evidence.verdict == Accept && file == evidence.artifact && Receipted(r, receipts, evidence)
            && r.execution in S.policy && evidence.policy == S.policy[r.execution])
      && (told.Failure? ==> after == db)
  {
    FenceAnswers(db, r, epoch);
    if r in db.attempts {
      assert LinkOk(S, db, r) && DocOk(S, KeyOf(r));
    }
  }

  lemma AcceptedAs(S: Setup, db: Db, r: Request, epoch: int, file: Id, evidence: Evidence, receipts: Receipts, c: TaskKey)
    requires Inv(S, db) && AcceptOp(S, db, r, epoch, file, evidence, receipts).0.Success? && c in S.plan
    ensures var after := AcceptOp(S, db, r, epoch, file, evidence, receipts).1;
      && KeyOf(r) in S.plan && c in after.tasks && r in db.attempts && AcceptsRow(S, db, after, KeyOf(r), evidence, c)
      && after == db.(tasks := after.tasks, attempts := db.attempts[r := db.attempts[r].(status := MachineAccepted, evidence := Some(evidence))])
      && after.tasks.Keys == db.tasks.Keys
  {
    assert LinkOk(S, db, r) && DocOk(S, KeyOf(r));
    assert TaskOk(S, db, KeyOf(r)) && CountOk(S, db.tasks, KeyOf(r));
  }

  // ---------------------------------------------------------------------------------------------
  // Bills and forecasts
  // ---------------------------------------------------------------------------------------------

  /** Only this reservation's fee changes; what is settled is a bill of so much. */
  predicate Bills(db: Db, after: Db, r: Request, fee: FeeState)
    requires r in db.attempts
  {
    && r in after.attempts && after.attempts[r].charge.fee == fee
    && after.attempts == db.attempts[r := db.attempts[r].(charge := db.attempts[r].charge.(fee := fee, settled := after.attempts[r].charge.settled))]
    && after.tasks == db.tasks && after.rounds == db.rounds && after.frames == db.frames && OnlyWork(db, after)
    && (after.forecast.Some? <==> db.forecast.Some?)
    && (db.forecast.Some? ==> after.forecast.value.remaining == db.forecast.value.remaining)
  }

  /** A bill is for any known reservation, once, and within its worst case: the totals move by the difference. No bill leaves the fee unknown. */
  lemma SettledWhen(S: Setup, db: Db, r: Request, units: Option<int>)
    requires Inv(S, db)
    ensures var (told, after) := SettleOp(S, db, r, units);
      if r !in db.attempts then told == Failure(NotFound) && after == db
      else
        var c := db.attempts[r].charge;
        match units
        case None =>
          && told == Success(()) && (c.fee != Active ==> after == db)
          && (c.fee == Active ==> Bills(db, after, r, UnknownFee) && after.used == db.used && after.routeTotals == db.routeTotals)
        case Some(u) =>
          if u < 0 || c.worst < u then told == Failure(Invalid) && after == db
          else if c.fee == Settled then after == db && told == if c.settled == u then Success(()) else Failure(RequestConflict)
          else
            && told == Success(()) && Bills(db, after, r, Settled) && after.attempts[r].charge.settled == u
            && after.used == db.used - c.worst + u && c.route in db.routeTotals
            && after.routeTotals == db.routeTotals[c.route := db.routeTotals[c.route] - c.worst + u]
  {
    if r in db.attempts {
      assert ChargeOk(S, db, r);
    }
  }

  /** A forecast in range replaces the one on record; it is affordable when it fits what is left, cleanup set aside. */
  lemma ForecastWhen(S: Setup, db: Db, remaining: int)
    ensures var (told, after) := ForecastOp(S, db, remaining);
      && (told.Success? <==> 0 <= remaining <= MAX_INTEGER && db.used + remaining + S.auth.cleanupUnits <= MAX_INTEGER)
      && (told.Failure? ==> after == db)
      && (told.Success? ==>
            && after.forecast == Some(told.value) && told.value.remaining == remaining && after == db.(forecast := after.forecast)
            && (told.value.affordable <==> db.used + remaining + S.auth.cleanupUnits <= S.auth.totalUnits))
  {
  }

  ghost function Range(a: int, b: int): set<int>
    decreases b - a
  {
    if a > b then {} else {a} + Range(a + 1, b)
  }

  lemma {:induction false} RangeSize(a: int, b: int)
    requires a <= b + 1
    ensures |Range(a, b)| == b - a + 1 && forall n :: n in Range(a, b) <==> a <= n <= b
    decreases b - a
  {
    if a <= b {
      RangeSize(a + 1, b);
    }
  }

  /** The rounds of its shot a generating task may still reserve in: from the current one to the last, without one used up. */
  ghost function RoundsLeft(S: Setup, db: Db, k: TaskKey): set<int>
    requires k in S.plan && k in db.tasks && ShotOf(S, k) in db.rounds
  {
    var round := db.rounds[ShotOf(S, k)];
    Range(round, S.auth.maxRepairRounds) - if RoundUsed(S, db, k) then {round} else {}
  }

  /** The remainder of a task: nothing once accepted; before, its worst case for every attempt or round it has left. */
  lemma RemainderOf(S: Setup, db: Db, k: TaskKey)
    requires Inv(S, db) && k in S.plan
    ensures k in Need(S, db)
    ensures Need(S, db)[k] ==
      if db.tasks[k].accepted.Some? then 0
      else if S.plan[k].frames > 0 then |RoundsLeft(S, db, k)| * S.plan[k].worst
      else (if |Tries(db, k)| <= 3 then 3 - |Tries(db, k)| else 0) * S.plan[k].worst
  {
    UntakenMeans(S, db, k);
    if S.plan[k].frames > 0 {
      RoundsLeftSize(S, db, k);
    }
  }

  lemma RoundsLeftSize(S: Setup, db: Db, k: TaskKey)
    requires Inv(S, db) && k in S.plan && S.plan[k].frames > 0
    ensures |RoundsLeft(S, db, k)| == FutureAttempts(S, db, k)
  {
    var round, last := db.rounds[ShotOf(S, k)], S.auth.maxRepairRounds;
    RangeSize(round, last);
    assert RoundUsed(S, db, k) <==> PriorInRound(S, db, k);
    assert round in Range(round, last);
  }

  /** What a stored forecast promises: at least the recomputed remainder. */
  ghost predicate Suffices(S: Setup, db: Db)
    requires Shaped(S, db)
  {
    db.forecast.Some? ==> Unreserved(S, db) <= db.forecast.value.remaining
  }

  /** Whatever is recorded is at least the remainder at that moment. */
  ghost predicate Honest(S: Setup, db: Db, m: Move)
    requires Shaped(S, db)
  {
    m.Transact? && m.tx.RecordForecast? && ForecastOp(S, db, m.tx.remaining).0.Success? ==> Unreserved(S, db) <= m.tx.remaining
  }

  lemma CommitSuffices(S: Setup, db: Db, tx: Tx)
    requires Inv(S, db) && Suffices(S, db) && Honest(S, db, Transact(tx))
    ensures Inv(S, Commit(S, db, tx)) && Suffices(S, Commit(S, db, tx))
  {
    CommitKeeps(S, db, tx);
    match tx
    case Claim(k, owner, expires, env) => ClaimSuffices(S, db, k, owner, expires, env);
    case RecordForecast(remaining) => RecordSuffices(S, db, remaining);
    case Invalidate(affected) => InvalidateForgets(S, db, affected);
    case _ => CalmNeedsNoMore(S, db, tx);
  }

  lemma RecordSuffices(S: Setup, db: Db, remaining: int)
    requires Inv(S, db) && Suffices(S, db) && (ForecastOp(S, db, remaining).0.Success? ==> Unreserved(S, db) <= remaining)
    ensures Shaped(S, ForecastOp(S, db, remaining).1) && Suffices(S, ForecastOp(S, db, remaining).1)
  {
    RecordingCovers(S, db, remaining);
  }

  lemma InvalidateForgets(S: Setup, db: Db, affected: set<TaskKey>)
    requires Shaped(S, db)
    ensures Commit(S, db, Invalidate(affected)) == db || Commit(S, db, Invalidate(affected)).forecast == None
  {
  }

  lemma ClaimSuffices(S: Setup, db: Db, k: TaskKey, owner: Id, expires: int, env: Env)
    requires Inv(S, db) && Suffices(S, db)
    ensures Shaped(S, ClaimOp(S, db, k, owner, expires, env).1) && Suffices(S, ClaimOp(S, db, k, owner, expires, env).1)
  {
    if ClaimError(S, db, k, env).None? {
      ClaimedAs(S, db, k, owner, expires, env);
      RoundBounds(S, db, k);
      ClaimNeeds(S, db, k, owner, expires);
      RemainderNonNegative(S, ClaimOp(S, db, k, owner, expires, env).1);
    }
  }

  lemma RemainderNonNegative(S: Setup, db: Db)
    requires PlanOk(S) && Shaped(S, db)
    ensures Unreserved(S, db) >= 0
  {
    forall k | k in S.plan ensures Self()(Need(S, db)[k]) >= 0 {
      NeedNonNegative(S, db, k);
    }
    NonNegative(Need(S, db), Self());
  }

  lemma MoveSuffices(S: Setup, w: World, m: Move)
    requires WorldOk(S, w) && Suffices(S, w.db) && Honest(S, w.db, m)
    ensures Inv(S, After(S, w, m).db) && Suffices(S, After(S, w, m).db)
  {
    match m
    case Transact(tx) => CommitSuffices(S, w.db, tx);
    case Arm(runner, r, epoch, env) => MarkSuffices(S, w.db, r, epoch, env);
    case _ =>
  }

  lemma MarkSuffices(S: Setup, db: Db, r: Request, epoch: int, env: Env)
    requires Inv(S, db) && Suffices(S, db)
    ensures var after := MarkSendingOp(S, db, r, epoch, env).1; Inv(S, after) && Suffices(S, after)
  {
    CommitSuffices(S, db, MarkSending(r, epoch, env));
  }

  ghost predicate HonestRun(S: Setup, w: World, moves: seq<Move>)
    requires WorldOk(S, w)
    decreases |moves|
  {
    if moves == [] then true
    else
      MoveKeeps(S, w, moves[0]);
      Honest(S, w.db, moves[0]) && HonestRun(S, After(S, w, moves[0]), moves[1..])
  }

  /** Over every run with honest records, invalidations included: what is stored as the remainder is never too small. */
  lemma {:induction false} StoredSuffices(S: Setup, w: World, moves: seq<Move>)
    requires WorldOk(S, w) && Suffices(S, w.db) && HonestRun(S, w, moves)
    ensures Inv(S, Run(S, w, moves).db) && Suffices(S, Run(S, w, moves).db)
    decreases |moves|
  {
    if moves != [] {
      MoveKeeps(S, w, moves[0]);
      MoveSuffices(S, w, moves[0]);
      StoredSuffices(S, After(S, w, moves[0]), moves[1..]);
    }
  }

  ghost predicate Records(m: Move) {
    m.Transact? && m.tx.RecordForecast?
  }

  lemma NoForecastAppears(S: Setup, w: World, m: Move)
    requires WorldOk(S, w) && w.db.forecast.None? && !Records(m)
    ensures After(S, w, m).db.forecast.None?
  {
    match m
    case Transact(tx) => NoneRecorded(S, w.db, tx);
    case Arm(runner, r, epoch, env) => NoneRecorded(S, w.db, MarkSending(r, epoch, env));
    case _ =>
  }

  lemma NoneRecorded(S: Setup, db: Db, tx: Tx)
    requires Inv(S, db) && db.forecast.None? && !tx.RecordForecast?
    ensures Commit(S, db, tx).forecast.None?
  {
    match tx
    case Claim(k, owner, expires, env) => ClaimedAs(S, db, k, owner, expires, env);
    case Invalidate(affected) =>
    case _ => CalmNeedsNoMore(S, db, tx);
  }

  lemma {:induction false} NoneUntilRecorded(S: Setup, w: World, moves: seq<Move>)
    requires WorldOk(S, w) && w.db.forecast.None? && forall m :: m in moves ==> !Records(m)
    ensures WorldOk(S, Run(S, w, moves)) && Run(S, w, moves).db.forecast.None?
    decreases |moves|
  {
    if moves != [] {
      MoveKeeps(S, w, moves[0]);
      NoForecastAppears(S, w, moves[0]);
      NoneUntilRecorded(S, After(S, w, moves[0]), moves[1..]);
    }
  }

  /** After an invalidation, whatever happens, nothing is claimed in the last fifth of the budget before a forecast is recorded anew. */
  lemma ReopeningNeedsForecast(S: Setup, w: World, affected: set<TaskKey>, moves: seq<Move>, k: TaskKey, owner: Id, expires: int, env: Env)
    requires WorldOk(S, w) && DownwardClosed(S, affected) && InvalidateOp(S, w.db, affected).0.Success?
    requires (forall m :: m in moves ==> !Records(m)) && SegmentsDistinct(S)
    ensures WorldOk(S, After(S, w, Transact(Invalidate(affected))))
    ensures var end := Run(S, After(S, w, Transact(Invalidate(affected))), moves);
      && WorldOk(S, end) && (k in S.plan && Tight(S, end.db, S.plan[k]) ==> ClaimOp(S, end.db, k, owner, expires, env).0.Failure?)
  {
    MoveKeeps(S, w, Transact(Invalidate(affected)));
    var after := After(S, w, Transact(Invalidate(affected)));
    NoneUntilRecorded(S, after, moves);
    ClaimGrantedWhen(S, Run(S, after, moves).db, k, owner, expires, env);
  }

  // ---------------------------------------------------------------------------------------------
  // Reopening
  // ---------------------------------------------------------------------------------------------

  /** An affected task is as new under a higher number, its inputs counted again; every other row is as it was. */
  ghost predicate ReopensRow(S: Setup, db: Db, after: Db, affected: set<TaskKey>, c: TaskKey)
    requires c in S.plan && c in db.tasks && c in after.tasks
  {
    if c in affected then
      && after.tasks[c].accepted == None && after.tasks[c].status == Ready && after.tasks[c].epoch == db.tasks[c].epoch + 1
      && after.tasks[c].request == db.tasks[c].request
      && after.tasks[c].remaining ==
         |set p | p in S.plan[c].parents && TaskKey(c.execution, p) in after.tasks && after.tasks[TaskKey(c.execution, p)].accepted.None?|
    else after.tasks[c] == db.tasks[c]
  }

  /** The last attempts of the affected tasks are marked; every other attempt is as it was. */
  ghost predicate MarksAttempt(db: Db, after: Db, affected: set<TaskKey>, r: Request)
    requires r in db.attempts
  {
    var k := TaskKey(r.execution, r.task);
    && r in after.attempts
    && after.attempts[r] == if k in affected && k in db.tasks && db.tasks[k].request == Some(r) then db.attempts[r].(invalidated := true) else db.attempts[r]
  }

  /** The task's last request is neither finished nor failed. */
  predicate UnderWay(db: Db, k: TaskKey) {
    && k in db.tasks && db.tasks[k].request.Some? && db.tasks[k].request.value in db.attempts
    && db.attempts[db.tasks[k].request.value].status in {Reserved, Submitted, Running, Unknown, Produced, Verified}
  }

  /** All or nothing: refused exactly when an affected task has unfinished work. Money, rounds and gates stay; the forecast is void. */
  lemma InvalidatedWhen(S: Setup, db: Db, affected: set<TaskKey>)
    requires Inv(S, db) && affected <= S.plan.Keys
    ensures var (told, after) := InvalidateOp(S, db, affected);
      var unfinished := exists k :: k in affected && UnderWay(db, k);
      && (told.Success? <==> !unfinished) && (told.Failure? ==> told.error == ReconcileRequired && after == db)
  {
    forall k | k in affected ensures Unfinished(db, k) <==> UnderWay(db, k) {
      assert TaskOk(S, db, k);
      assert db.tasks[k].request.Some? ==> LinkOk(S, db, db.tasks[k].request.value);
    }
  }

  lemma InvalidatedAs(S: Setup, db: Db, affected: set<TaskKey>, c: TaskKey, r: Request)
    requires Inv(S, db) && InvalidateOp(S, db, affected).0.Success? && c in S.plan && r in db.attempts
    ensures var after := InvalidateOp(S, db, affected).1;
      && after.tasks.Keys == db.tasks.Keys && ReopensRow(S, db, after, affected, c)
      && after.attempts.Keys == db.attempts.Keys && MarksAttempt(db, after, affected, r)
      && after == db.(tasks := after.tasks, attempts := after.attempts, forecast := None)
  {
    var after := InvalidateOp(S, db, affected).1;
    if c in affected {
      assert UnacceptedParents(S, Reopened(db, affected), c) ==
        set p | p in S.plan[c].parents && TaskKey(c.execution, p) in after.tasks && after.tasks[TaskKey(c.execution, p)].accepted.None?;
    }
  }

  // ---------------------------------------------------------------------------------------------
  // Lost requests, pauses and revocation, over runs
  // ---------------------------------------------------------------------------------------------

  /** Something newer was claimed, or the task reopened. */
  predicate Superseded(db: Db, r: Request) {
    TaskKey(r.execution, r.task) in db.tasks && db.tasks[TaskKey(r.execution, r.task)].epoch > r.epoch
  }

  lemma EpochsRise(S: Setup, db: Db, tx: Tx, k: TaskKey)
    requires Inv(S, db) && k in db.tasks
    ensures k in Commit(S, db, tx).tasks && Commit(S, db, tx).tasks[k].epoch >= db.tasks[k].epoch
  {
    if tx.Claim? {
      ClaimRaisesEpoch(S, db, tx.k, tx.owner, tx.expires, tx.env, k);
    } else if tx.Invalidate? {
      InvalidateRaisesEpochs(S, db, tx.affected, k);
    } else {
      OthersKeepEpochs(S, db, tx, k);
    }
  }

  lemma OthersKeepEpochs(S: Setup, db: Db, tx: Tx, k: TaskKey)
    requires Shaped(S, db) && k in db.tasks && !tx.Claim? && !tx.Invalidate?
    ensures k in Commit(S, db, tx).tasks && Commit(S, db, tx).tasks[k].epoch == db.tasks[k].epoch
  {
    match tx
    case Settle(q, units) => SettleKeepsEpochs(S, db, q, units, k);
    case AcceptResult(q, epoch, file, evidence, receipts) => AcceptKeepsEpochs(S, db, q, epoch, file, evidence, receipts, k);
    case Observe(_, _, _) => ReportKeepsEpochs(S, db, tx, k);
    case MarkSending(_, _, _) => ReportKeepsEpochs(S, db, tx, k);
    case RejectResult(_, _, _, _) => ReportKeepsEpochs(S, db, tx, k);
    case WaitForRepair(_) => MarksKeepEpochs(S, db, tx, k);
    case Wake(_) => MarksKeepEpochs(S, db, tx, k);
    case _ => RestKeepsEpochs(S, db, tx, k);
  }

  lemma MarksKeepEpochs(S: Setup, db: Db, tx: Tx, k: TaskKey)
    requires Shaped(S, db) && k in db.tasks && (tx.WaitForRepair? || tx.Wake?)
    ensures k in Commit(S, db, tx).tasks && Commit(S, db, tx).tasks[k].epoch == db.tasks[k].epoch
  {
  }

  lemma ReportKeepsEpochs(S: Setup, db: Db, tx: Tx, k: TaskKey)
    requires Shaped(S, db) && k in db.tasks && (tx.Observe? || tx.MarkSending? || tx.RejectResult?)
    ensures k in Commit(S, db, tx).tasks && Commit(S, db, tx).tasks[k].epoch == db.tasks[k].epoch
  {
  }

  lemma ClaimRaisesEpoch(S: Setup, db: Db, j: TaskKey, owner: Id, expires: int, env: Env, k: TaskKey)
    requires Shaped(S, db) && k in db.tasks
    ensures var after := ClaimOp(S, db, j, owner, expires, env).1; k in after.tasks && after.tasks[k].epoch >= db.tasks[k].epoch
  {
  }

  lemma SettleKeepsEpochs(S: Setup, db: Db, q: Request, units: Option<int>, k: TaskKey)
    ensures SettleOp(S, db, q, units).1.tasks == db.tasks
  {
  }

  lemma InvalidateRaisesEpochs(S: Setup, db: Db, affected: set<TaskKey>, k: TaskKey)
    requires Shaped(S, db) && k in db.tasks
    ensures var after := Commit(S, db, Invalidate(affected)); k in after.tasks && after.tasks[k].epoch >= db.tasks[k].epoch
  {
  }

  lemma AcceptKeepsEpochs(S: Setup, db: Db, q: Request, epoch: int, file: Id, evidence: Evidence, receipts: Receipts, k: TaskKey)
    requires Shaped(S, db) && k in db.tasks
    ensures var after := AcceptOp(S, db, q, epoch, file, evidence, receipts).1; k in after.tasks && after.tasks[k].epoch == db.tasks[k].epoch
  {
  }

  lemma RestKeepsEpochs(S: Setup, db: Db, tx: Tx, k: TaskKey)
    requires Shaped(S, db) && k in db.tasks
    requires tx.Renew? || tx.MarkCancel? || tx.RecordForecast? || tx.Pause? || tx.Revoke?
    ensures k in Commit(S, db, tx).tasks && Commit(S, db, tx).tasks[k].epoch == db.tasks[k].epoch
  {
  }

  /** Over every run: a superseded request never holds again, so nobody can send, lease, report, cancel, accept or reject by it. */
  lemma {:induction false} SupersededForever(S: Setup, w: World, moves: seq<Move>, r: Request)
    requires WorldOk(S, w) && Superseded(w.db, r)
    ensures Superseded(Run(S, w, moves).db, r) && !Holds(Run(S, w, moves).db, r)
    decreases |moves|
  {
    if moves != [] {
      MoveKeeps(S, w, moves[0]);
      var k := TaskKey(r.execution, r.task);
      match moves[0] {
        case Transact(tx) => EpochsRise(S, w.db, tx, k);
        case Arm(runner, q, epoch, env) => EpochsRise(S, w.db, MarkSending(q, epoch, env), k);
        case _ =>
      }
      SupersededForever(S, After(S, w, moves[0]), moves[1..], r);
    }
  }

  /** Only a revocation revokes, and nothing takes it back; only a pause of a known execution pauses or resumes it. */
  lemma GatesMove(S: Setup, db: Db, tx: Tx)
    requires Inv(S, db)
    ensures Commit(S, db, tx).revoked == (db.revoked || tx.Revoke?)
    ensures Commit(S, db, tx).paused == if tx.Pause? && tx.execution in db.paused then db.paused[tx.execution := tx.enabled] else db.paused
  {
    match tx
    case Claim(j, owner, expires, env) => ClaimedAs(S, db, j, owner, expires, env);
    case Settle(q, units) => SettledWhen(S, db, q, units);
    case AcceptResult(q, epoch, file, evidence, receipts) =>
    case _ => RestGates(S, db, tx);
  }

  lemma RestGates(S: Setup, db: Db, tx: Tx)
    requires Shaped(S, db) && !tx.Claim? && !tx.Settle? && !tx.AcceptResult?
    ensures Commit(S, db, tx).revoked == (db.revoked || tx.Revoke?)
    ensures Commit(S, db, tx).paused == if tx.Pause? && tx.execution in db.paused then db.paused[tx.execution := tx.enabled] else db.paused
  {
  }

  predicate Barred(db: Db, execution: Id) {
    db.revoked || (execution in db.paused && db.paused[execution])
  }

  predicate Resumes(m: Move, execution: Id) {
    m == Transact(Pause(execution, false))
  }

  lemma MoveStaysBarred(S: Setup, w: World, m: Move, execution: Id)
    requires WorldOk(S, w) && Barred(w.db, execution) && !Resumes(m, execution)
    ensures Barred(After(S, w, m).db, execution)
  {
    match m
    case Transact(tx) => GatesMove(S, w.db, tx);
    case Arm(runner, q, epoch, env) => GatesMove(S, w.db, MarkSending(q, epoch, env));
    case _ =>
  }

  /** Over every run of a revoked store, or of a paused execution that nobody resumes: no attempt appears and none is sent. */
  lemma {:induction false} NothingStartsBarred(S: Setup, w: World, moves: seq<Move>, r: Request)
    requires WorldOk(S, w) && Barred(w.db, r.execution) && forall m :: m in moves ==> !Resumes(m, r.execution)
    ensures WorldOk(S, Run(S, w, moves))
    ensures var end := Run(S, w, moves).db;
      r in end.attempts ==> r in w.db.attempts && (end.attempts[r].outbox == Sending ==> w.db.attempts[r].outbox == Sending)
    decreases |moves|
  {
    if moves != [] {
      MoveKeeps(S, w, moves[0]);
      MoveStaysBarred(S, w, moves[0], r.execution);
      OneMoveBarred(S, w, moves[0], r);
      NothingStartsBarred(S, After(S, w, moves[0]), moves[1..], r);
    }
  }

  lemma OneMoveBarred(S: Setup, w: World, m: Move, r: Request)
    requires WorldOk(S, w) && Barred(w.db, r.execution)
    ensures !Starts(w.db, After(S, w, m).db, r)
  {
    if Starts(w.db, After(S, w, m).db, r) {
      NothingStartsWhileShut(S, w, m, r);
    }
  }

  // ---------------------------------------------------------------------------------------------
  // The runner's marks, and a new store
  // ---------------------------------------------------------------------------------------------

  /** Waiting for a repair round is a mark on one row; waking turns the marks of one execution into rejections, and touches nothing else. */
  lemma MarksOnly(S: Setup, db: Db, k: TaskKey, execution: Id, c: TaskKey)
    requires c in db.tasks
    ensures var waits := RepairWaitOp(db, k);
      && c in waits.tasks && waits == db.(tasks := waits.tasks) && waits.tasks.Keys == db.tasks.Keys
      && waits.tasks[c] == if c == k then db.tasks[c].(status := RepairWait) else db.tasks[c]
    ensures var woken := WakeRepairs(db, execution);
      && c in woken.tasks && woken == db.(tasks := woken.tasks) && woken.tasks.Keys == db.tasks.Keys
      && woken.tasks[c] == if c.execution == execution && db.tasks[c].status == RepairWait then db.tasks[c].(status := Rejected) else db.tasks[c]
  {
  }

  /** A new store: nothing paused or revoked, every task untouched and waiting for all its parents, every shot in its first round. */
  lemma NewStore(S: Setup)
    requires PlanOk(S)
    ensures var db := Created(S);
      && !db.revoked && db.attempts == map[] && db.forecast == None && db.used == 0 && db.frames == 0
      && db.paused.Keys == S.policy.Keys && (forall e :: e in db.paused ==> !db.paused[e])
      && db.tasks.Keys == S.plan.Keys
      && (forall k :: k in db.tasks ==>
            && db.tasks[k].status == Ready && db.tasks[k].epoch == 0 && db.tasks[k].request == None && db.tasks[k].accepted == None
            && db.tasks[k].remaining == |S.plan[k].parents|)
      && (forall k :: k in S.plan ==> ShotOf(S, k) in db.rounds && db.rounds[ShotOf(S, k)] == 1)
      && (forall route :: route in S.auth.routeLimits ==> route in db.routeTotals && db.routeTotals[route] == 0)
  {
    CreatedShaped(S);
  }
}
