/**
 Forecast sufficiency: once an affordable forecast of all unreserved work has been recorded, no later claim is
 refused for the total budget, for a missing or short forecast, or for an unaffordable one.
 */
module StoreForecast {
  import opened Wrappers
  import opened Ids
  import opened Sums
  import opened StoreState
  import opened StoreInv
  import opened StoreRuns

  /** The recorded forecast is affordable and still covers everything not yet reserved. */
  ghost predicate Covered(S: Setup, db: Db)
    requires Shaped(S, db)
  {
    db.forecast.Some? && db.forecast.value.affordable && Unreserved(S, db) <= db.forecast.value.remaining
  }

  lemma NeedNonNegative(S: Setup, db: Db, k: TaskKey)
    requires PlanOk(S) && Shaped(S, db) && k in S.plan
    ensures Need(S, db)[k] >= 0
  {
    assert DocOk(S, k);
    NonNegativeProduct(FutureAttempts(S, db, k), S.plan[k].worst);
  }

  lemma NonNegativeProduct(a: int, b: int)
    requires a >= 0 && b >= 0
    ensures a * b >= 0
  {
  }

  lemma ProductMonotone(a: int, b: int, w: int)
    requires a <= b && w >= 0
    ensures a * w <= b * w
  {
  }

  /** Nobody needs more than before. */
  lemma NeedsShrink(S: Setup, db: Db, after: Db)
    requires PlanOk(S) && Shaped(S, db) && Shaped(S, after)
    requires forall k :: k in S.plan ==> Need(S, after)[k] <= Need(S, db)[k]
    ensures Unreserved(S, after) <= Unreserved(S, db)
  {
    forall k | k in S.plan ensures Self()(Need(S, db)[k]) >= 0 {
      NeedNonNegative(S, db, k);
    }
    Part(Need(S, after), Need(S, db), Self());
  }

  /** The claimed task needs one attempt less, and nobody else needs more. */
  lemma NeedsDrop(S: Setup, db: Db, after: Db, k: TaskKey)
    requires PlanOk(S) && Shaped(S, db) && Shaped(S, after) && k in S.plan
    requires forall j :: j in S.plan && j != k ==> Need(S, after)[j] <= Need(S, db)[j]
    requires Need(S, after)[k] == Need(S, db)[k] - S.plan[k].worst
    ensures Unreserved(S, after) <= Unreserved(S, db) - S.plan[k].worst
  {
    Extract(Need(S, db), k, Self());
    Extract(Need(S, after), k, Self());
    forall j | j in S.plan ensures Self()(Need(S, db)[j]) >= 0 {
      NeedNonNegative(S, db, j);
    }
    Part(Need(S, after) - {k}, Need(S, db) - {k}, Self());
  }

  // ---------------------------------------------------------------------------------------------
  // claim
  // ---------------------------------------------------------------------------------------------

  lemma ClaimAttempts(S: Setup, db: Db, k: TaskKey, owner: Id, expires: int, round: int, j: TaskKey)
    requires Shaped(S, db) && k in S.plan && Next(k, db.tasks[k]) !in db.attempts
    ensures |AttemptsOf(Claimed(S, db, k, owner, expires, round), j)| == |AttemptsOf(db, j)| + (if j == k then 1 else 0)
  {
    var added := Next(k, db.tasks[k]);
    var after := Claimed(S, db, k, owner, expires, round);
    if j == k {
      assert AttemptsOf(after, j) == AttemptsOf(db, j) + {added};
    } else {
      assert AttemptsOf(after, j) == AttemptsOf(db, j);
    }
  }

  lemma RoundBounds(S: Setup, db: Db, k: TaskKey)
    requires Inv(S, db) && k in S.plan
    ensures S.plan[k].frames >= 0 && S.plan[k].worst >= 0 && 1 <= db.rounds[ShotOf(S, k)] <= S.auth.maxRepairRounds
  {
    assert DocOk(S, k);
  }

  /** A claim that got this far uses up exactly one of the task's future attempts, and there was one. */
  lemma ClaimerNeedsLess(S: Setup, db: Db, k: TaskKey, owner: Id, expires: int)
    requires Inv(S, db) && k in S.plan && ClaimRound(S, db, k).Success? && |AttemptsOf(db, k)| < MAX_ATTEMPTS
    ensures FutureAttempts(S, db, k) >= 1
    ensures FutureAttempts(S, Claimed(S, db, k, owner, expires, ClaimRound(S, db, k).value), k) == FutureAttempts(S, db, k) - 1
  {
    var round := ClaimRound(S, db, k).value;
    NextIsNew(S, db, k);
    ClaimAttempts(S, db, k, owner, expires, round, k);
    RoundBounds(S, db, k);
    if S.plan[k].frames > 0 {
      assert PriorInRound(S, Claimed(S, db, k, owner, expires, round), k);
    }
  }

  /** Raising a shot's round never gives another task of the shot a future attempt. */
  lemma OthersNeedNoMore(S: Setup, db: Db, k: TaskKey, owner: Id, expires: int, j: TaskKey)
    requires Inv(S, db) && k in S.plan && ClaimRound(S, db, k).Success? && j in S.plan && j != k
    ensures Need(S, Claimed(S, db, k, owner, expires, ClaimRound(S, db, k).value))[j] <= Need(S, db)[j]
  {
    var round := ClaimRound(S, db, k).value;
    var after := Claimed(S, db, k, owner, expires, round);
    NextIsNew(S, db, k);
    ClaimAttempts(S, db, k, owner, expires, round, j);
    assert DocOk(S, j) && TaskOk(S, db, j);
    assert FutureAttempts(S, after, j) <= FutureAttempts(S, db, j);
    ProductMonotone(FutureAttempts(S, after, j), FutureAttempts(S, db, j), S.plan[j].worst);
  }

  lemma OpenNeed(S: Setup, db: Db, k: TaskKey)
    requires Shaped(S, db) && k in S.plan && db.tasks[k].accepted.None?
    ensures Need(S, db)[k] == FutureAttempts(S, db, k) * S.plan[k].worst
  {
  }

  lemma ClaimerOpen(S: Setup, db: Db, k: TaskKey, owner: Id, expires: int, round: int)
    requires Shaped(S, db) && k in S.plan && db.tasks[k].accepted.None?
    ensures var after := Claimed(S, db, k, owner, expires, round); Shaped(S, after) && after.tasks[k].accepted.None?
  {
  }

  lemma ClaimerDrop(S: Setup, db: Db, k: TaskKey, owner: Id, expires: int)
    requires Inv(S, db) && k in S.plan && ClaimRound(S, db, k).Success? && |AttemptsOf(db, k)| < MAX_ATTEMPTS
    requires db.tasks[k].accepted.None?
    ensures var after := Claimed(S, db, k, owner, expires, ClaimRound(S, db, k).value);
      Shaped(S, after) && Need(S, after)[k] == Need(S, db)[k] - S.plan[k].worst
  {
    var round := ClaimRound(S, db, k).value;
    ClaimerOpen(S, db, k, owner, expires, round);
    ClaimerNeedsLess(S, db, k, owner, expires);
    OneLess(FutureAttempts(S, db, k), S.plan[k].worst);
    OpenNeed(S, db, k);
    OpenNeed(S, Claimed(S, db, k, owner, expires, round), k);
  }

  lemma ClaimNeeds(S: Setup, db: Db, k: TaskKey, owner: Id, expires: int)
    requires Inv(S, db) && k in S.plan && ClaimRound(S, db, k).Success? && |AttemptsOf(db, k)| < MAX_ATTEMPTS
    requires db.tasks[k].accepted.None?
    ensures var after := Claimed(S, db, k, owner, expires, ClaimRound(S, db, k).value);
      Shaped(S, after) && Unreserved(S, after) <= Unreserved(S, db) - S.plan[k].worst
  {
    var after := Claimed(S, db, k, owner, expires, ClaimRound(S, db, k).value);
    ClaimerDrop(S, db, k, owner, expires);
    forall j | j in S.plan && j != k ensures Need(S, after)[j] <= Need(S, db)[j] {
      OthersNeedNoMore(S, db, k, owner, expires, j);
    }
    NeedsDrop(S, db, after, k);
  }

  lemma OneLess(n: int, w: int)
    ensures (n - 1) * w == n * w - w
  {
  }

  lemma ClaimerHasFuture(S: Setup, db: Db, k: TaskKey)
    requires Shaped(S, db) && k in S.plan && ClaimRound(S, db, k).Success? && |AttemptsOf(db, k)| < MAX_ATTEMPTS
    requires 1 <= db.rounds[ShotOf(S, k)] <= S.auth.maxRepairRounds
    ensures FutureAttempts(S, db, k) >= 1
  {
  }

  /** What a claimable task may still cost is part of the unreserved total. */
  lemma ClaimIsForeseen(S: Setup, db: Db, k: TaskKey)
    requires Inv(S, db) && k in S.plan && ClaimRound(S, db, k).Success? && |AttemptsOf(db, k)| < MAX_ATTEMPTS
    requires db.tasks[k].accepted.None?
    ensures S.plan[k].worst <= Unreserved(S, db)
  {
    forall j | j in S.plan ensures Self()(Need(S, db)[j]) >= 0 {
      NeedNonNegative(S, db, j);
    }
    Member(Need(S, db), k, Self());
    RoundBounds(S, db, k);
    ClaimerHasFuture(S, db, k);
    ProductMonotone(1, FutureAttempts(S, db, k), S.plan[k].worst);
  }

  /** With a covering forecast the money gates are open to every claim that passes the readiness checks. */
  lemma CoveredIsNotRefused(S: Setup, db: Db, k: TaskKey)
    requires Inv(S, db) && Covered(S, db) && k in S.plan
    requires ClaimRound(S, db, k).Success? && |AttemptsOf(db, k)| < MAX_ATTEMPTS && db.tasks[k].accepted.None?
    ensures db.used + S.plan[k].worst + S.auth.cleanupUnits <= S.auth.totalUnits <= MAX_INTEGER
    ensures ForecastError(S, db, S.plan[k]) == None || ForecastError(S, db, S.plan[k]) == Some(OptionalWorkPaused)
  {
    ClaimIsForeseen(S, db, k);
  }

  /** So no claim at all fails for want of a forecast or because it is unaffordable. */
  lemma NoForecastRefusal(S: Setup, db: Db, k: TaskKey, env: Env)
    requires Inv(S, db) && Covered(S, db)
    ensures ClaimError(S, db, k, env) != Some(ForecastRequired) && ClaimError(S, db, k, env) != Some(ForecastUnaffordable)
  {
    if k in S.plan && db.tasks[k].accepted.None? && ClaimRound(S, db, k).Success? && |AttemptsOf(db, k)| < MAX_ATTEMPTS {
      CoveredIsNotRefused(S, db, k);
    }
  }

  lemma ClaimStaysCovered(S: Setup, db: Db, k: TaskKey, owner: Id, expires: int, env: Env)
    requires Inv(S, db) && Covered(S, db)
    ensures Inv(S, ClaimOp(S, db, k, owner, expires, env).1) && Covered(S, ClaimOp(S, db, k, owner, expires, env).1)
  {
    ClaimKeeps(S, db, k, owner, expires, env);
    if ClaimError(S, db, k, env).None? {
      ClaimStarts(S, db, k, env);
      ClaimNeeds(S, db, k, owner, expires);
      ClaimIsForeseen(S, db, k);
    }
  }

  // ---------------------------------------------------------------------------------------------
  // Everything else
  // ---------------------------------------------------------------------------------------------

  /** Same reservations, same rounds, same requests, no acceptance withdrawn. */
  ghost predicate NoNewNeed(S: Setup, db: Db, after: Db, k: TaskKey)
    requires Shaped(S, db) && Shaped(S, after)
  {
    k in S.plan ==>
      && after.tasks[k].request == db.tasks[k].request
      && (db.tasks[k].accepted.Some? ==> after.tasks[k].accepted.Some?)
      && after.rounds[ShotOf(S, k)] == db.rounds[ShotOf(S, k)]
  }

  lemma CalmNeeds(S: Setup, db: Db, after: Db)
    requires PlanOk(S) && Shaped(S, db) && Shaped(S, after)
    requires after.attempts.Keys == db.attempts.Keys
    requires forall r :: r in db.attempts ==> after.attempts[r].charge.slot == db.attempts[r].charge.slot
    requires forall k {:trigger NoNewNeed(S, db, after, k)} :: NoNewNeed(S, db, after, k)
    ensures Unreserved(S, after) <= Unreserved(S, db)
  {
    forall k | k in S.plan ensures Need(S, after)[k] <= Need(S, db)[k] {
      assert NoNewNeed(S, db, after, k);
      assert AttemptsOf(after, k) == AttemptsOf(db, k);
      NeedNonNegative(S, db, k);
    }
    NeedsShrink(S, db, after);
  }

  /** Transactions that reserve nothing and reopen nothing. */
  predicate Calm(tx: Tx) {
    !tx.Claim? && !tx.Invalidate? && !tx.RecordForecast?
  }

  lemma CalmNeedsNoMore(S: Setup, db: Db, tx: Tx)
    requires Inv(S, db) && Calm(tx)
    ensures Inv(S, Commit(S, db, tx)) && CalmMoney(db, Commit(S, db, tx))
    ensures Unreserved(S, Commit(S, db, tx)) <= Unreserved(S, db)
  {
    var after := Commit(S, db, tx);
    CommitKeeps(S, db, tx);
    CommitGrows(S, db, tx);
    assert after.attempts.Keys == db.attempts.Keys && CalmMoney(db, after) by {
      CalmShape(S, db, tx);
    }
    forall r | r in db.attempts ensures after.attempts[r].charge.slot == db.attempts[r].charge.slot {
      assert AttemptGrows(db, after, r);
    }
    forall k ensures NoNewNeed(S, db, after, k) {
      CalmRow(S, db, tx, k);
    }
    CalmNeeds(S, db, after);
  }

  lemma CalmStaysCovered(S: Setup, db: Db, tx: Tx)
    requires Inv(S, db) && Covered(S, db) && Calm(tx)
    ensures Inv(S, Commit(S, db, tx)) && Covered(S, Commit(S, db, tx))
  {
    CalmNeedsNoMore(S, db, tx);
  }

  /** No fresh reservation: what is used can only go down, and the forecast keeps its remainder. */
  ghost predicate CalmMoney(db: Db, after: Db) {
    && after.used <= db.used
    && (after.forecast.Some? <==> db.forecast.Some?)
    && (db.forecast.Some? ==> after.forecast.value.remaining == db.forecast.value.remaining)
  }

  lemma CalmSettle(S: Setup, db: Db, r: Request, units: Option<int>)
    requires Inv(S, db)
    ensures CalmMoney(db, SettleOp(S, db, r, units).1) && SettleOp(S, db, r, units).1.attempts.Keys == db.attempts.Keys
  {
    if r in db.attempts {
      assert ChargeOk(S, db, r);
    }
  }

  lemma CalmShape(S: Setup, db: Db, tx: Tx)
    requires Inv(S, db) && Calm(tx)
    ensures Commit(S, db, tx).attempts.Keys == db.attempts.Keys && CalmMoney(db, Commit(S, db, tx))
  {
    if tx.Settle? {
      CalmSettle(S, db, tx.r, tx.units);
    } else {
      CalmOther(S, db, tx);
    }
  }

  lemma CalmOther(S: Setup, db: Db, tx: Tx)
    requires Shaped(S, db) && Calm(tx) && !tx.Settle?
    ensures Commit(S, db, tx).attempts.Keys == db.attempts.Keys && CalmMoney(db, Commit(S, db, tx))
  {
  }

  lemma CalmAccept(S: Setup, db: Db, r: Request, epoch: int, file: Id, evidence: Evidence, receipts: Receipts, k: TaskKey)
    requires Shaped(S, db)
    ensures var after := AcceptOp(S, db, r, epoch, file, evidence, receipts).1;
      Shaped(S, after) && NoNewNeed(S, db, after, k)
  {
  }

  lemma CalmWake(S: Setup, db: Db, execution: Id, k: TaskKey)
    requires Shaped(S, db)
    ensures Shaped(S, WakeRepairs(db, execution)) && NoNewNeed(S, db, WakeRepairs(db, execution), k)
  {
  }

  lemma CalmSetStatus(S: Setup, db: Db, r: Request, a: Attempt, k: TaskKey)
    requires Shaped(S, db) && KeyOf(r) in db.tasks
    ensures Shaped(S, SetStatus(db, r, a)) && NoNewNeed(S, db, SetStatus(db, r, a), k)
  {
  }

  lemma CalmObserve(S: Setup, db: Db, r: Request, epoch: int, status: Status, k: TaskKey)
    requires Shaped(S, db)
    ensures Shaped(S, ObserveOp(db, r, epoch, status).1) && NoNewNeed(S, db, ObserveOp(db, r, epoch, status).1, k)
  {
    var after := ObserveOp(db, r, epoch, status).1;
    if after != db {
      CalmSetStatus(S, db, r, after.attempts[r], k);
    }
  }

  lemma CalmSend(S: Setup, db: Db, r: Request, epoch: int, env: Env, k: TaskKey)
    requires Shaped(S, db)
    ensures Shaped(S, MarkSendingOp(S, db, r, epoch, env).1) && NoNewNeed(S, db, MarkSendingOp(S, db, r, epoch, env).1, k)
  {
    var after := MarkSendingOp(S, db, r, epoch, env).1;
    if after != db {
      CalmSetStatus(S, db, r, after.attempts[r], k);
    }
  }

  lemma CalmReject(S: Setup, db: Db, r: Request, epoch: int, evidence: Evidence, file: Option<Id>, k: TaskKey)
    requires Shaped(S, db)
    ensures Shaped(S, RejectOp(db, r, epoch, evidence, file).1) && NoNewNeed(S, db, RejectOp(db, r, epoch, evidence, file).1, k)
  {
    var after := RejectOp(db, r, epoch, evidence, file).1;
    if after != db {
      CalmSetStatus(S, db, r, after.attempts[r], k);
    }
  }

  lemma CalmWait(S: Setup, db: Db, j: TaskKey, k: TaskKey)
    requires Shaped(S, db)
    ensures Shaped(S, RepairWaitOp(db, j)) && NoNewNeed(S, db, RepairWaitOp(db, j), k)
  {
  }

  lemma CalmRow(S: Setup, db: Db, tx: Tx, k: TaskKey)
    requires Shaped(S, db) && Calm(tx) && Shaped(S, Commit(S, db, tx))
    ensures NoNewNeed(S, db, Commit(S, db, tx), k)
  {
    match tx
    case AcceptResult(r, epoch, file, evidence, receipts) => CalmAccept(S, db, r, epoch, file, evidence, receipts, k);
    case Wake(execution) => CalmWake(S, db, execution, k);
    case MarkSending(r, epoch, env) => CalmSend(S, db, r, epoch, env, k);
    case Observe(r, epoch, status) => CalmObserve(S, db, r, epoch, status, k);
    case RejectResult(r, epoch, evidence, file) => CalmReject(S, db, r, epoch, evidence, file, k);
    case WaitForRepair(j) => CalmWait(S, db, j, k);
    case _ => SameTasks(S, db, tx, k);
  }

  lemma SameTasks(S: Setup, db: Db, tx: Tx, k: TaskKey)
    requires Shaped(S, db) && Shaped(S, Commit(S, db, tx))
    requires tx.Renew? || tx.Settle? || tx.MarkCancel? || tx.Pause? || tx.Revoke?
    ensures NoNewNeed(S, db, Commit(S, db, tx), k)
  {
    if tx.Settle? {
      SettleTasks(S, db, tx.r, tx.units);
    }
    assert Commit(S, db, tx).tasks == db.tasks && Commit(S, db, tx).rounds == db.rounds;
  }

  lemma SettleTasks(S: Setup, db: Db, r: Request, units: Option<int>)
    ensures SettleOp(S, db, r, units).1.tasks == db.tasks && SettleOp(S, db, r, units).1.rounds == db.rounds
  {
  }

  /** Recording a remainder covers the rest of the work exactly when it is not too small and affordable. */
  lemma RecordingCovers(S: Setup, db: Db, remaining: int)
    requires Inv(S, db)
    ensures var (recorded, after) := ForecastOp(S, db, remaining);
      && Inv(S, after) && Unreserved(S, after) == Unreserved(S, db)
      && (recorded.Failure? ==> after == db)
      && (recorded.Success? ==> (Covered(S, after) <==> Unreserved(S, db) <= remaining && Affordable(S, db.used, remaining)))
  {
    ForecastKeeps(S, db, remaining);
    ForecastNeeds(S, db, ForecastOp(S, db, remaining).1.forecast);
  }

  /** The remainder depends on the rows, not on what is forecast. */
  lemma ForecastNeeds(S: Setup, db: Db, f: Option<Forecast>)
    requires Shaped(S, db)
    ensures Shaped(S, db.(forecast := f)) && Need(S, db.(forecast := f)) == Need(S, db)
  {
    var after := db.(forecast := f);
    forall k | k in S.plan ensures Need(S, after)[k] == Need(S, db)[k] {
      assert AttemptsOf(after, k) == AttemptsOf(db, k);
    }
  }

  /** Unless work is reopened, the remainder only falls: what was read before another runner's claim is still enough after it. */
  lemma RemainderFalls(S: Setup, db: Db, tx: Tx)
    requires Inv(S, db) && !tx.Invalidate?
    ensures Inv(S, Commit(S, db, tx)) && Unreserved(S, Commit(S, db, tx)) <= Unreserved(S, db)
  {
    CommitKeeps(S, db, tx);
    match tx
    case Claim(k, owner, expires, env) => ClaimNeedsNoMore(S, db, k, owner, expires, env);
    case RecordForecast(remaining) => RecordingCovers(S, db, remaining);
    case _ => CalmNeedsNoMore(S, db, tx);
  }

  lemma ClaimNeedsNoMore(S: Setup, db: Db, k: TaskKey, owner: Id, expires: int, env: Env)
    requires Inv(S, db)
    ensures var after := ClaimOp(S, db, k, owner, expires, env).1; Shaped(S, after) && Unreserved(S, after) <= Unreserved(S, db)
  {
    if ClaimError(S, db, k, env).None? {
      RoundBounds(S, db, k);
      ClaimNeeds(S, db, k, owner, expires);
    }
  }

  /** At least the recomputed remainder, and affordable; a record out of range is refused and changes nothing. */
  ghost predicate HonestForecast(S: Setup, db: Db, tx: Tx)
    requires Shaped(S, db)
  {
    tx.RecordForecast? && ForecastOp(S, db, tx.remaining).0.Success? ==>
      Unreserved(S, db) <= tx.remaining && Affordable(S, db.used, tx.remaining)
  }

  /** While covered, recording the remainder just read is always honest. */
  lemma ExactIsHonest(S: Setup, db: Db)
    requires Inv(S, db) && Covered(S, db)
    ensures HonestForecast(S, db, RecordForecast(Unreserved(S, db)))
  {
  }

  lemma StepStaysCovered(S: Setup, db: Db, tx: Tx)
    requires Inv(S, db) && Covered(S, db) && !tx.Invalidate? && HonestForecast(S, db, tx)
    ensures Inv(S, Commit(S, db, tx)) && Covered(S, Commit(S, db, tx))
  {
    match tx
    case Claim(k, owner, expires, env) => ClaimStaysCovered(S, db, k, owner, expires, env);
    case RecordForecast(remaining) => RecordingCovers(S, db, remaining);
    case _ => CalmStaysCovered(S, db, tx);
  }

  // ---------------------------------------------------------------------------------------------
  // Whole runs: transactions, sends, provider calls and crashes
  // ---------------------------------------------------------------------------------------------

  /** Not an invalidation, and no forecast below the recomputed remainder or unaffordable. */
  ghost predicate Fair(S: Setup, w: World, m: Move)
    requires Inv(S, w.db)
  {
    m.Transact? ==> !m.tx.Invalidate? && HonestForecast(S, w.db, m.tx)
  }

  ghost predicate Undisturbed(S: Setup, w: World, moves: seq<Move>)
    requires WorldOk(S, w)
    decreases |moves|
  {
    if moves == [] then true
    else
      MoveKeeps(S, w, moves[0]);
      Fair(S, w, moves[0]) && Undisturbed(S, After(S, w, moves[0]), moves[1..])
  }

  ghost predicate Reopens(m: Move) {
    m.Transact? && m.tx.Invalidate?
  }

  lemma MoveNeedsNoMore(S: Setup, w: World, m: Move)
    requires WorldOk(S, w) && !Reopens(m)
    ensures Inv(S, After(S, w, m).db) && Unreserved(S, After(S, w, m).db) <= Unreserved(S, w.db)
  {
    match m
    case Transact(tx) => RemainderFalls(S, w.db, tx);
    case Arm(runner, r, epoch, env) => MarkNeedsNoMore(S, w.db, r, epoch, env);
    case _ =>
  }

  lemma MarkNeedsNoMore(S: Setup, db: Db, r: Request, epoch: int, env: Env)
    requires Inv(S, db)
    ensures var after := MarkSendingOp(S, db, r, epoch, env).1; Inv(S, after) && Unreserved(S, after) <= Unreserved(S, db)
  {
    RemainderFalls(S, db, MarkSending(r, epoch, env));
  }

  /**
   Reading the remainder and recording it are two steps: whatever other runners did between them, short of reopening work,
   the record covers exactly when it is affordable at that moment.
   */
  lemma ReadThenRecord(S: Setup, w: World, moves: seq<Move>)
    requires WorldOk(S, w) && forall m :: m in moves ==> !Reopens(m)
    ensures WorldOk(S, Run(S, w, moves)) && Unreserved(S, Run(S, w, moves).db) <= Unreserved(S, w.db)
    ensures var db, remaining := Run(S, w, moves).db, Unreserved(S, w.db);
      var (recorded, after) := ForecastOp(S, db, remaining);
      recorded.Success? ==> Inv(S, after) && (Covered(S, after) <==> Affordable(S, db.used, remaining))
  {
    RunNeedsNoMore(S, w, moves);
    RecordingCovers(S, Run(S, w, moves).db, Unreserved(S, w.db));
  }

  lemma {:induction false} RunNeedsNoMore(S: Setup, w: World, moves: seq<Move>)
    requires WorldOk(S, w) && forall m :: m in moves ==> !Reopens(m)
    ensures WorldOk(S, Run(S, w, moves)) && Unreserved(S, Run(S, w, moves).db) <= Unreserved(S, w.db)
    decreases |moves|
  {
    if moves != [] {
      MoveKeeps(S, w, moves[0]);
      MoveNeedsNoMore(S, w, moves[0]);
      RunNeedsNoMore(S, After(S, w, moves[0]), moves[1..]);
    }
  }

  lemma MoveStaysCovered(S: Setup, w: World, m: Move)
    requires WorldOk(S, w) && Covered(S, w.db) && Fair(S, w, m)
    ensures Inv(S, After(S, w, m).db) && Covered(S, After(S, w, m).db)
  {
    match m
    case Transact(tx) => StepStaysCovered(S, w.db, tx);
    case Arm(runner, r, epoch, env) => StepStaysCovered(S, w.db, MarkSending(r, epoch, env));
    case _ =>
  }

  /** All that a claim asks of the task itself. */
  ghost predicate Ripe(S: Setup, db: Db, k: TaskKey)
    requires Inv(S, db)
  {
    k in S.plan && db.tasks[k].accepted.None? && ClaimRound(S, db, k).Success? && |AttemptsOf(db, k)| < MAX_ATTEMPTS
  }

  ghost predicate OverRouteOrFrames(S: Setup, db: Db, k: TaskKey)
    requires Inv(S, db)
  {
    k in S.plan && (
      || db.routeTotals[S.plan[k].route] + S.plan[k].worst > S.auth.routeLimits[S.plan[k].route]
      || db.frames + S.plan[k].frames > S.auth.maxFrames)
  }

  /** Under a covering forecast total units and forecast refuse nothing: what is left is a route or the frames. */
  lemma CoveredGates(S: Setup, db: Db, k: TaskKey, env: Env)
    requires Inv(S, db) && Covered(S, db)
    ensures Ripe(S, db, k) ==> db.used + S.plan[k].worst + S.auth.cleanupUnits <= S.auth.totalUnits
    ensures ClaimError(S, db, k, env) != Some(ForecastRequired) && ClaimError(S, db, k, env) != Some(ForecastUnaffordable)
    ensures ClaimError(S, db, k, env) == Some(BudgetExceeded) ==> OverRouteOrFrames(S, db, k)
  {
    if Ripe(S, db, k) {
      CoveredIsNotRefused(S, db, k);
    }
    NoForecastRefusal(S, db, k, env);
  }

  /**
   Forecast sufficiency: from a covering forecast, along any run that neither reopens work nor records a forecast too small
   or unaffordable, sends, provider calls and crashes included, the forecast stays current, affordable and at least the recomputed remainder; no claim is refused for total
   units, for want of a forecast or as unaffordable, and a budget refusal can only come from a route or the frames.
   */
  lemma {:induction false} ForecastSuffices(S: Setup, w: World, moves: seq<Move>, k: TaskKey, env: Env)
    requires WorldOk(S, w) && Covered(S, w.db) && Undisturbed(S, w, moves)
    ensures var db := Run(S, w, moves).db;
      && Inv(S, db) && Covered(S, db) && db.forecast.value.basis == db.costRevision
      && (Ripe(S, db, k) ==> db.used + S.plan[k].worst + S.auth.cleanupUnits <= S.auth.totalUnits)
      && ClaimError(S, db, k, env) != Some(ForecastRequired) && ClaimError(S, db, k, env) != Some(ForecastUnaffordable)
      && (ClaimError(S, db, k, env) == Some(BudgetExceeded) ==> OverRouteOrFrames(S, db, k))
    decreases |moves|
  {
    if moves == [] {
      CoveredGates(S, w.db, k, env);
    } else {
      MoveKeeps(S, w, moves[0]);
      MoveStaysCovered(S, w, moves[0]);
      ForecastSuffices(S, After(S, w, moves[0]), moves[1..], k, env);
    }
  }
}
