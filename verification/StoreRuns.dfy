/**
 Runs of the store under competing runners, crashes, cancellations and late bills: the invariant holds in every
 reachable state, the record only grows, and each request is handed to the provider at most once.
 */
module StoreRuns {
  import opened Wrappers
  import opened Ids
  import opened Sums
  import opened StoreState
  import opened StoreInv

  /** One committed or refused transaction. */
  datatype Tx =
    | Claim(k: TaskKey, owner: Id, expires: int, env: Env)
    | Renew(r: Request, epoch: int, owner: Id, expires: int, env: Env)
    | MarkSending(r: Request, epoch: int, env: Env)
    | Observe(r: Request, epoch: int, status: Status)
    | Settle(r: Request, units: Option<int>)
    | MarkCancel(r: Request, epoch: int, mark: CancelState)
    | RecordForecast(remaining: int)
    | AcceptResult(r: Request, epoch: int, file: Id, evidence: Evidence, receipts: Receipts)
    | RejectResult(r: Request, epoch: int, evidence: Evidence, named: Option<Id>)
    | Invalidate(affected: set<TaskKey>)
    | Pause(execution: Id, enabled: bool)
    | Revoke
    | WaitForRepair(k: TaskKey)
    | Wake(execution: Id)

  /** A runner marks a repair wait only for a task it has just failed to claim, so never for an accepted one. */
  ghost function Commit(S: Setup, db: Db, tx: Tx): Db
    requires Shaped(S, db)
  {
    match tx
    case Claim(k, owner, expires, env) => ClaimOp(S, db, k, owner, expires, env).1
    case Renew(r, epoch, owner, expires, env) => RenewPreparedOp(S, db, r, epoch, owner, expires, env).1
    case MarkSending(r, epoch, env) => MarkSendingOp(S, db, r, epoch, env).1
    case Observe(r, epoch, status) => ObserveOp(db, r, epoch, status).1
    case Settle(r, units) => SettleOp(S, db, r, units).1
    case MarkCancel(r, epoch, mark) => CancelMarkOp(db, r, epoch, mark).1
    case RecordForecast(remaining) => ForecastOp(S, db, remaining).1
    case AcceptResult(r, epoch, file, evidence, receipts) => AcceptOp(S, db, r, epoch, file, evidence, receipts).1
    case RejectResult(r, epoch, evidence, file) => RejectOp(db, r, epoch, evidence, file).1
    case Invalidate(affected) => if DownwardClosed(S, affected) then InvalidateOp(S, db, affected).1 else db
    case Pause(execution, enabled) => PauseOp(db, execution, enabled).1
    case Revoke => RevokeOp(db)
    case WaitForRepair(k) => if k in db.tasks && db.tasks[k].accepted.None? then RepairWaitOp(db, k) else db
    case Wake(execution) => WakeRepairs(db, execution)
  }

  lemma CommitKeeps(S: Setup, db: Db, tx: Tx)
    requires Inv(S, db)
    ensures Inv(S, Commit(S, db, tx))
  {
    match tx
    case Claim(k, owner, expires, env) => ClaimKeeps(S, db, k, owner, expires, env);
    case Renew(r, epoch, owner, expires, env) => RenewPreparedKeeps(S, db, r, epoch, owner, expires, env);
    case MarkSending(r, epoch, env) => MarkSendingKeeps(S, db, r, epoch, env);
    case Observe(r, epoch, status) => ObserveKeeps(S, db, r, epoch, status);
    case Settle(r, units) => SettleKeeps(S, db, r, units);
    case MarkCancel(r, epoch, mark) => CancelMarkKeeps(S, db, r, epoch, mark);
    case RecordForecast(remaining) => ForecastKeeps(S, db, remaining);
    case AcceptResult(r, epoch, file, evidence, receipts) => AcceptKeeps(S, db, r, epoch, file, evidence, receipts);
    case RejectResult(r, epoch, evidence, file) => RejectKeeps(S, db, r, epoch, evidence, file);
    case Invalidate(affected) => if DownwardClosed(S, affected) { InvalidateKeeps(S, db, affected); }
    case Pause(execution, enabled) => PauseKeeps(S, db, execution, enabled);
    case Revoke => RevokeKeeps(S, db);
    case WaitForRepair(k) => if k in db.tasks && db.tasks[k].accepted.None? { RepairWaitKeeps(S, db, k); }
    case Wake(execution) => WakeKeeps(S, db, execution);
  }

  // ---------------------------------------------------------------------------------------------
  // The record only grows
  // ---------------------------------------------------------------------------------------------

  function Rank(o: Outbox): int {
    match o
    case Prepared => 0
    case Sending => 1
    case Observed => 2
  }

  /** An attempt keeps its reservation, its end and its bill, and its outbox never goes back. */
  ghost predicate Grows(a: Attempt, b: Attempt) {
    && b.owner == a.owner
    && b.charge.(fee := a.charge.fee, settled := a.charge.settled) == a.charge
    && (a.charge.fee == Settled ==> b.charge == a.charge) && (a.charge.fee != Active ==> b.charge.fee != Active)
    && (Terminal(a.status) ==> b.status == a.status && b.evidence == a.evidence)
    && (a.invalidated ==> b.invalidated)
    && Rank(a.outbox) <= Rank(b.outbox)
  }

  ghost predicate AttemptGrows(db: Db, after: Db, r: Request) {
    r in db.attempts ==> r in after.attempts && Grows(db.attempts[r], after.attempts[r])
  }

  ghost predicate RoundGrows(db: Db, after: Db, s: ShotKey) {
    s in db.rounds ==> s in after.rounds && db.rounds[s] <= after.rounds[s]
  }

  ghost predicate RecordGrows(db: Db, after: Db) {
    && (forall r {:trigger AttemptGrows(db, after, r)} :: AttemptGrows(db, after, r))
    && (forall s {:trigger RoundGrows(db, after, s)} :: RoundGrows(db, after, s))
  }

  lemma RecordGrowsTransitive(a: Db, b: Db, c: Db)
    requires RecordGrows(a, b) && RecordGrows(b, c)
    ensures RecordGrows(a, c)
  {
    forall r ensures AttemptGrows(a, c, r) {
      assert AttemptGrows(a, b, r) && AttemptGrows(b, c, r);
    }
    forall s ensures RoundGrows(a, c, s) {
      assert RoundGrows(a, b, s) && RoundGrows(b, c, s);
    }
  }

  lemma ClaimGrows(S: Setup, db: Db, k: TaskKey, owner: Id, expires: int, env: Env)
    requires Inv(S, db)
    ensures RecordGrows(db, ClaimOp(S, db, k, owner, expires, env).1)
  {
    var after := ClaimOp(S, db, k, owner, expires, env).1;
    forall r ensures AttemptGrows(db, after, r) {
    }
    forall s ensures RoundGrows(db, after, s) {
    }
  }

  /** One attempt replaced by a grown one, rounds alone. */
  lemma OneGrows(db: Db, after: Db, r: Request)
    requires after.rounds == db.rounds
    requires after.attempts == db.attempts || (r in db.attempts && r in after.attempts
      && after.attempts == db.attempts[r := after.attempts[r]] && Grows(db.attempts[r], after.attempts[r]))
    ensures RecordGrows(db, after)
  {
    forall q ensures AttemptGrows(db, after, q) {
    }
    forall s ensures RoundGrows(db, after, s) {
    }
  }

  lemma InvalidateGrows(S: Setup, db: Db, affected: set<TaskKey>)
    requires Shaped(S, db)
    ensures RecordGrows(db, InvalidateOp(S, db, affected).1)
  {
    var after := InvalidateOp(S, db, affected).1;
    forall r ensures AttemptGrows(db, after, r) {
    }
    forall s ensures RoundGrows(db, after, s) {
    }
  }

  lemma AcceptGrows(S: Setup, db: Db, r: Request, epoch: int, file: Id, evidence: Evidence, receipts: Receipts)
    requires Shaped(S, db)
    ensures RecordGrows(db, AcceptOp(S, db, r, epoch, file, evidence, receipts).1)
  {
    OneGrows(db, AcceptOp(S, db, r, epoch, file, evidence, receipts).1, r);
  }

  lemma SettleGrows(S: Setup, db: Db, r: Request, units: Option<int>)
    ensures RecordGrows(db, SettleOp(S, db, r, units).1)
  {
    var after := SettleOp(S, db, r, units).1;
    if r in db.attempts && after != db {
      assert after.attempts == SetFee(db, r, after.attempts[r].charge.fee, after.attempts[r].charge.settled).attempts;
    }
    OneGrows(db, after, r);
  }

  lemma RenewGrows(S: Setup, db: Db, r: Request, epoch: int, owner: Id, expires: int, env: Env)
    ensures RecordGrows(db, RenewPreparedOp(S, db, r, epoch, owner, expires, env).1)
  {
    OneGrows(db, RenewPreparedOp(S, db, r, epoch, owner, expires, env).1, r);
  }

  lemma ObserveGrows(S: Setup, db: Db, r: Request, epoch: int, status: Status)
    requires Inv(S, db)
    ensures RecordGrows(db, ObserveOp(db, r, epoch, status).1)
  {
    if r in db.attempts {
      assert LinkOk(S, db, r);
    }
    OneGrows(db, ObserveOp(db, r, epoch, status).1, r);
  }

  lemma MarkSendingGrows(S: Setup, db: Db, r: Request, epoch: int, env: Env)
    requires Inv(S, db)
    ensures RecordGrows(db, MarkSendingOp(S, db, r, epoch, env).1)
  {
    if r in db.attempts {
      assert LinkOk(S, db, r);
    }
    OneGrows(db, MarkSendingOp(S, db, r, epoch, env).1, r);
  }

  lemma MarkCancelGrows(db: Db, r: Request, epoch: int, mark: CancelState)
    ensures RecordGrows(db, CancelMarkOp(db, r, epoch, mark).1)
  {
    OneGrows(db, CancelMarkOp(db, r, epoch, mark).1, r);
  }

  lemma RejectGrows(db: Db, r: Request, epoch: int, evidence: Evidence, file: Option<Id>)
    ensures RecordGrows(db, RejectOp(db, r, epoch, evidence, file).1)
  {
    OneGrows(db, RejectOp(db, r, epoch, evidence, file).1, r);
  }

  lemma CommitGrows(S: Setup, db: Db, tx: Tx)
    requires Inv(S, db)
    ensures RecordGrows(db, Commit(S, db, tx))
  {
    var after := Commit(S, db, tx);
    match tx
    case Claim(k, owner, expires, env) => ClaimGrows(S, db, k, owner, expires, env);
    case Renew(r, epoch, owner, expires, env) => RenewGrows(S, db, r, epoch, owner, expires, env);
    case MarkSending(r, epoch, env) => MarkSendingGrows(S, db, r, epoch, env);
    case Observe(r, epoch, status) => ObserveGrows(S, db, r, epoch, status);
    case Settle(r, units) => SettleGrows(S, db, r, units);
    case MarkCancel(r, epoch, mark) => MarkCancelGrows(db, r, epoch, mark);
    case AcceptResult(r, epoch, file, evidence, receipts) => AcceptGrows(S, db, r, epoch, file, evidence, receipts);
    case RejectResult(r, epoch, evidence, file) => RejectGrows(db, r, epoch, evidence, file);
    case Invalidate(affected) => if DownwardClosed(S, affected) { InvalidateGrows(S, db, affected); } else { Unmoved(db, after); }
    case _ => RestUnmoved(S, db, tx);
  }

  lemma RestUnmoved(S: Setup, db: Db, tx: Tx)
    requires Shaped(S, db)
    requires tx.WaitForRepair? || tx.Wake? || tx.RecordForecast? || tx.Pause? || tx.Revoke?
    ensures RecordGrows(db, Commit(S, db, tx))
  {
    Unmoved(db, Commit(S, db, tx));
  }

  lemma Unmoved(db: Db, after: Db)
    requires after.attempts == db.attempts && after.rounds == db.rounds
    ensures RecordGrows(db, after)
  {
    forall r ensures AttemptGrows(db, after, r) {
    }
    forall s ensures RoundGrows(db, after, s) {
    }
  }

  // ---------------------------------------------------------------------------------------------
  // Runners, crashes and the provider
  // ---------------------------------------------------------------------------------------------

  /** Between its sending transaction and the provider call a runner holds one request in memory. */
  datatype Phase = Idle | Armed(r: Request)

  /** The store, the memory of every runner process, and the requests the provider has been given, with repetition. */
  datatype World = World(db: Db, runners: map<Id, Phase>, submitted: multiset<Request>)

  datatype Move =
    | Transact(tx: Tx)
    | Arm(runner: Id, r: Request, epoch: int, env: Env)
    | Submit(runner: Id)
    | Crash(runner: Id)

  ghost function PhaseOf(w: World, runner: Id): Phase {
    if runner in w.runners then w.runners[runner] else Idle
  }

  ghost function After(S: Setup, w: World, m: Move): World
    requires Shaped(S, w.db)
  {
    match m
    case Transact(tx) => w.(db := Commit(S, w.db, tx))
    case Arm(runner, r, epoch, env) =>
      var marked := MarkSendingOp(S, w.db, r, epoch, env);
      if PhaseOf(w, runner) == Idle && marked.0.Success? then w.(db := marked.1, runners := w.runners[runner := Armed(r)]) else w
    case Submit(runner) =>
      if PhaseOf(w, runner).Armed? then
        w.(runners := w.runners[runner := Idle], submitted := w.submitted + multiset{PhaseOf(w, runner).r})
      else w
    case Crash(runner) => w.(runners := w.runners[runner := Idle])
  }

  /** A request in a runner's hand has left "prepared" and has not been sent; one already sent is in nobody's hand. */
  ghost predicate HandOk(w: World, x: Id) {
    PhaseOf(w, x).Armed? ==>
      var r := PhaseOf(w, x).r;
      && r in w.db.attempts && w.db.attempts[r].outbox != Prepared && w.submitted[r] == 0
      && forall y :: y != x ==> PhaseOf(w, y) != Armed(r)
  }

  ghost predicate SentOk(w: World, r: Request) {
    w.submitted[r] <= 1 && (w.submitted[r] == 1 ==> r in w.db.attempts && w.db.attempts[r].outbox != Prepared)
  }

  ghost predicate WorldOk(S: Setup, w: World) {
    && Inv(S, w.db)
    && (forall x {:trigger HandOk(w, x)} :: HandOk(w, x))
    && (forall r {:trigger SentOk(w, r)} :: SentOk(w, r))
  }

  lemma MoveGrows(S: Setup, w: World, m: Move)
    requires Inv(S, w.db)
    ensures RecordGrows(w.db, After(S, w, m).db)
  {
    match m
    case Transact(tx) => CommitGrows(S, w.db, tx);
    case Arm(runner, r, epoch, env) =>
      MarkSendingGrows(S, w.db, r, epoch, env);
      Unmoved(w.db, w.db);
    case _ => Unmoved(w.db, w.db);
  }

  lemma MoveKeepsInv(S: Setup, w: World, m: Move)
    requires Inv(S, w.db)
    ensures Inv(S, After(S, w, m).db)
  {
    match m
    case Transact(tx) => CommitKeeps(S, w.db, tx);
    case Arm(runner, r, epoch, env) => MarkSendingKeeps(S, w.db, r, epoch, env);
    case _ =>
  }

  lemma MoveKeeps(S: Setup, w: World, m: Move)
    requires WorldOk(S, w)
    ensures WorldOk(S, After(S, w, m))
  {
    var v := After(S, w, m);
    MoveKeepsInv(S, w, m);
    MoveGrows(S, w, m);
    forall x ensures HandOk(v, x) {
      HandKept(S, w, m, x);
    }
    forall r ensures SentOk(v, r) {
      SentKept(S, w, m, r);
    }
  }

  /** What a hand holds was prepared before it was armed, so it cannot have been armed or sent before. */
  lemma ArmedWasPrepared(S: Setup, w: World, m: Move)
    requires m.Arm? && Inv(S, w.db) && After(S, w, m) != w
    ensures m.r in w.db.attempts && w.db.attempts[m.r].outbox == Prepared && After(S, w, m).db.attempts[m.r].outbox == Sending
    ensures After(S, w, m).runners == w.runners[m.runner := Armed(m.r)] && After(S, w, m).submitted == w.submitted
  {
  }

  lemma HandKept(S: Setup, w: World, m: Move, x: Id)
    requires WorldOk(S, w) && RecordGrows(w.db, After(S, w, m).db)
    ensures HandOk(After(S, w, m), x)
  {
    var v := After(S, w, m);
    assert HandOk(w, x);
    if PhaseOf(v, x).Armed? {
      var r := PhaseOf(v, x).r;
      assert AttemptGrows(w.db, v.db, r) && SentOk(w, r);
      if m.Arm? && v != w {
        ArmedWasPrepared(S, w, m);
        assert x == m.runner || r != m.r;
      } else if m.Submit? && PhaseOf(w, m.runner).Armed? {
        assert HandOk(w, m.runner);
      }
      forall y | y != x ensures PhaseOf(v, y) != Armed(r) {
        assert HandOk(w, y);
      }
    }
  }

  lemma SentKept(S: Setup, w: World, m: Move, r: Request)
    requires WorldOk(S, w) && RecordGrows(w.db, After(S, w, m).db)
    ensures SentOk(After(S, w, m), r)
  {
    assert SentOk(w, r) && AttemptGrows(w.db, After(S, w, m).db, r);
    if m.Submit? {
      assert HandOk(w, m.runner);
    }
  }

  ghost function Run(S: Setup, w: World, moves: seq<Move>): World
    requires WorldOk(S, w)
    decreases |moves|
  {
    if moves == [] then w
    else
      MoveKeeps(S, w, moves[0]);
      Run(S, After(S, w, moves[0]), moves[1..])
  }

  /**
   At most once: over every interleaving of runners, crashes, cancellations, renewals and late bills, no request is
   submitted twice; its reservation stays as it was made, and its outbox only moves forward.
   */
  lemma {:induction false} SubmittedAtMostOnce(S: Setup, w: World, moves: seq<Move>, r: Request)
    requires WorldOk(S, w)
    ensures WorldOk(S, Run(S, w, moves)) && RecordGrows(w.db, Run(S, w, moves).db)
    ensures Run(S, w, moves).submitted[r] <= 1
    decreases |moves|
  {
    if moves == [] {
      Unmoved(w.db, w.db);
      assert SentOk(w, r);
    } else {
      MoveKeeps(S, w, moves[0]);
      MoveGrows(S, w, moves[0]);
      SubmittedAtMostOnce(S, After(S, w, moves[0]), moves[1..], r);
      RecordGrowsTransitive(w.db, After(S, w, moves[0]).db, Run(S, w, moves).db);
    }
  }

  /** The reservations whose bill has not come, or came as unknown: sent, about to be sent or not sent at all. */
  ghost function Unsettled(db: Db): map<Request, Attempt> {
    map r | r in db.attempts && db.attempts[r].charge.fee != Settled :: db.attempts[r]
  }

  ghost function Billed(db: Db): map<Request, Attempt> {
    map r | r in db.attempts && db.attempts[r].charge.fee == Settled :: db.attempts[r]
  }

  function WorstOf(): Attempt -> int {
    (a: Attempt) => a.charge.worst
  }

  function BillOf(): Attempt -> int {
    (a: Attempt) => a.charge.settled
  }

  /** From the claim until settlement the full worst case of every reservation is held: the running total is exactly these and the bills. */
  lemma FeesHeld(S: Setup, db: Db)
    requires Inv(S, db)
    ensures db.used == SumBy(Unsettled(db), WorstOf()) + SumBy(Billed(db), BillOf())
    ensures SumBy(Unsettled(db), WorstOf()) <= db.used
  {
    var held, billed := Unsettled(db), Billed(db);
    Divide(db.attempts, held, billed, CostOf());
    Carried(held, held, WorstOf(), CostOf());
    Carried(billed, billed, BillOf(), CostOf());
    forall r | r in billed ensures BillOf()(billed[r]) >= 0 {
      assert ChargeOk(S, db, r);
    }
    NonNegative(billed, BillOf());
  }

  /** Everything the provider was given is on record, past "prepared". */
  lemma SubmittedIsRecorded(S: Setup, w: World, r: Request)
    requires WorldOk(S, w) && w.submitted[r] > 0
    ensures r in w.db.attempts && w.db.attempts[r].outbox != Prepared
  {
    assert SentOk(w, r);
  }

  /** A new store with no runner started is a valid world. */
  lemma FreshWorld(S: Setup)
    requires PlanOk(S)
    ensures WorldOk(S, World(Created(S), map[], multiset{}))
  {
    CreatedOk(S);
  }

  /** Over every run of a new store: nothing is submitted twice, and every worst case not settled is held. */
  lemma SubmittedAtMostOnceFromNew(S: Setup, moves: seq<Move>, r: Request)
    requires PlanOk(S)
    ensures WorldOk(S, World(Created(S), map[], multiset{}))
    ensures var w := Run(S, World(Created(S), map[], multiset{}), moves);
      WorldOk(S, w) && w.submitted[r] <= 1 && SumBy(Unsettled(w.db), WorstOf()) <= w.db.used
  {
    FreshWorld(S);
    SubmittedAtMostOnce(S, World(Created(S), map[], multiset{}), moves, r);
    FeesHeld(S, Run(S, World(Created(S), map[], multiset{}), moves).db);
  }

  // ---------------------------------------------------------------------------------------------
  // How an outbox leaves "prepared"
  // ---------------------------------------------------------------------------------------------

  /** A report other than "unknown" on a current request that was never marked as sending. */
  predicate Skips(db: Db, m: Move, r: Request) {
    && m.Transact? && m.tx.Observe? && m.tx.r == r && FenceError(db, r, m.tx.epoch).None?
    && m.tx.status in {Running, Produced, Failed, Cancelled}
  }

  /** A sending transaction that succeeds, by a runner or by itself. */
  predicate Sends(S: Setup, w: World, m: Move, r: Request) {
    || (m.Arm? && m.r == r && !(m.runner in w.runners && w.runners[m.runner].Armed?) && MarkSendingOp(S, w.db, r, m.epoch, m.env).0.Success?)
    || (m.Transact? && m.tx.MarkSending? && m.tx.r == r && MarkSendingOp(S, w.db, r, m.tx.epoch, m.tx.env).0.Success?)
  }

  /** A request still prepared has only been reserved or is in doubt. */
  lemma PreparedIsEarly(S: Setup, db: Db, r: Request)
    requires Inv(S, db) && r in db.attempts && db.attempts[r].outbox == Prepared
    ensures db.attempts[r].status in {Reserved, Submitted, Unknown}
  {
    assert LinkOk(S, db, r);
  }

  /**
   Every step from every reachable world: an outbox leaves "prepared" for "observed", never to be sent, exactly when
   somebody reports on the request before it was marked; and for "sending" exactly when it is marked. Otherwise it stays.
   */
  lemma LeavesPrepared(S: Setup, w: World, m: Move, r: Request)
    requires WorldOk(S, w) && r in w.db.attempts && w.db.attempts[r].outbox == Prepared
    ensures r in After(S, w, m).db.attempts
    ensures After(S, w, m).db.attempts[r].outbox == Observed <==> Skips(w.db, m, r)
    ensures After(S, w, m).db.attempts[r].outbox == Sending <==> Sends(S, w, m, r)
  {
    PreparedIsEarly(S, w.db, r);
    match m
    case Transact(tx) =>
      match tx {
        case Observe(q, epoch, status) => ObserveLeaves(w.db, r, q, epoch, status);
        case MarkSending(q, epoch, env) => SendLeaves(S, w.db, r, q, epoch, env);
        case _ => OutboxStays(S, w.db, tx, r);
      }
    case Arm(runner, q, epoch, env) => SendLeaves(S, w.db, r, q, epoch, env);
    case _ =>
  }

  /** Not in the provider's hands, in no runner's, and past the state it could be marked from. */
  ghost predicate Forgone(w: World, r: Request) {
    && r in w.db.attempts && w.db.attempts[r].outbox != Prepared && w.submitted[r] == 0
    && forall x {:trigger PhaseOf(w, x)} :: PhaseOf(w, x) != Armed(r)
  }

  lemma SkippedIsForgone(S: Setup, w: World, m: Move, r: Request)
    requires WorldOk(S, w) && r in w.db.attempts && w.db.attempts[r].outbox == Prepared && Skips(w.db, m, r)
    ensures Forgone(After(S, w, m), r)
  {
    LeavesPrepared(S, w, m, r);
    assert SentOk(w, r);
    forall x ensures PhaseOf(After(S, w, m), x) != Armed(r) {
      assert HandOk(w, x);
    }
  }

  /** A request that skipped "sending" is never submitted, whatever happens afterwards. */
  lemma SkippedIsNeverSent(S: Setup, w: World, m: Move, moves: seq<Move>, r: Request)
    requires WorldOk(S, w) && r in w.db.attempts && w.db.attempts[r].outbox == Prepared && Skips(w.db, m, r)
    ensures WorldOk(S, After(S, w, m)) && After(S, w, m).db.attempts[r].outbox == Observed
    ensures Run(S, After(S, w, m), moves).submitted[r] == 0
  {
    MoveKeeps(S, w, m);
    LeavesPrepared(S, w, m, r);
    SkippedIsForgone(S, w, m, r);
    ForgoneIsNeverSent(S, After(S, w, m), moves, r);
  }

  lemma {:induction false} ForgoneIsNeverSent(S: Setup, w: World, moves: seq<Move>, r: Request)
    requires WorldOk(S, w) && Forgone(w, r)
    ensures Run(S, w, moves).submitted[r] == 0
    decreases |moves|
  {
    if moves != [] {
      MoveKeeps(S, w, moves[0]);
      StaysForgone(S, w, moves[0], r);
      ForgoneIsNeverSent(S, After(S, w, moves[0]), moves[1..], r);
    }
  }

  lemma StaysForgone(S: Setup, w: World, m: Move, r: Request)
    requires WorldOk(S, w) && Forgone(w, r)
    ensures Forgone(After(S, w, m), r)
  {
    MoveGrows(S, w, m);
    assert AttemptGrows(w.db, After(S, w, m).db, r);
    forall x ensures PhaseOf(After(S, w, m), x) != Armed(r) {
      assert PhaseOf(w, x) != Armed(r);
      if m.Arm? && After(S, w, m) != w {
        ArmedWasPrepared(S, w, m);
      }
    }
    if m.Submit? {
      assert PhaseOf(w, m.runner) != Armed(r);
    }
  }

  lemma ObserveLeaves(db: Db, r: Request, q: Request, epoch: int, status: Status)
    requires r in db.attempts && db.attempts[r].outbox == Prepared && db.attempts[r].status in {Reserved, Submitted, Unknown}
    ensures r in ObserveOp(db, q, epoch, status).1.attempts
    ensures ObserveOp(db, q, epoch, status).1.attempts[r].outbox == Observed <==>
      q == r && FenceError(db, r, epoch).None? && status in {Running, Produced, Failed, Cancelled}
    ensures ObserveOp(db, q, epoch, status).1.attempts[r].outbox != Sending
  {
  }

  lemma SendLeaves(S: Setup, db: Db, r: Request, q: Request, epoch: int, env: Env)
    requires r in db.attempts && db.attempts[r].outbox == Prepared
    ensures r in MarkSendingOp(S, db, q, epoch, env).1.attempts
    ensures MarkSendingOp(S, db, q, epoch, env).1.attempts[r].outbox == Sending <==> q == r && MarkSendingOp(S, db, r, epoch, env).0.Success?
    ensures MarkSendingOp(S, db, q, epoch, env).1.attempts[r].outbox != Observed
  {
  }

  /** No other transaction touches an outbox. */
  lemma OutboxStays(S: Setup, db: Db, tx: Tx, r: Request)
    requires Inv(S, db) && r in db.attempts && !tx.Observe? && !tx.MarkSending?
    ensures r in Commit(S, db, tx).attempts && Commit(S, db, tx).attempts[r].outbox == db.attempts[r].outbox
  {
    match tx
    case Claim(k, owner, expires, env) => NextIsNewFor(S, db, k, r);
    case Settle(q, units) => SettleStays(S, db, q, units, r);
    case Invalidate(affected) =>
    case AcceptResult(q, epoch, file, evidence, receipts) => AcceptStays(S, db, q, epoch, file, evidence, receipts, r);
    case _ => MarksStay(S, db, tx, r);
  }

  lemma MarksStay(S: Setup, db: Db, tx: Tx, r: Request)
    requires Shaped(S, db) && r in db.attempts
    requires !tx.Observe? && !tx.MarkSending? && !tx.Claim? && !tx.Settle? && !tx.Invalidate? && !tx.AcceptResult?
    ensures r in Commit(S, db, tx).attempts && Commit(S, db, tx).attempts[r].outbox == db.attempts[r].outbox
  {
  }

  lemma SettleStays(S: Setup, db: Db, q: Request, units: Option<int>, r: Request)
    requires r in db.attempts
    ensures r in SettleOp(S, db, q, units).1.attempts && SettleOp(S, db, q, units).1.attempts[r].outbox == db.attempts[r].outbox
  {
  }

  lemma AcceptStays(S: Setup, db: Db, q: Request, epoch: int, file: Id, evidence: Evidence, receipts: Receipts, r: Request)
    requires Shaped(S, db) && r in db.attempts
    ensures r in AcceptOp(S, db, q, epoch, file, evidence, receipts).1.attempts
    ensures AcceptOp(S, db, q, epoch, file, evidence, receipts).1.attempts[r].outbox == db.attempts[r].outbox
  {
  }

  lemma NextIsNewFor(S: Setup, db: Db, k: TaskKey, r: Request)
    requires Inv(S, db) && r in db.attempts
    ensures k in S.plan ==> Next(k, db.tasks[k]) != r
  {
    if k in S.plan {
      NextIsNew(S, db, k);
    }
  }

  lemma OneTaskClaims(e: Id, t: Id, shot: Id, route: Id, policy: Id, owner: Id)
    ensures var S, k := OneTask(e, t, shot, route, policy), TaskKey(e, t);
      PlanOk(S) && Shaped(S, Created(S)) && ClaimError(S, Created(S), k, Env(0.0, false)).None?
  {
    var S, k := OneTask(e, t, shot, route, policy), TaskKey(e, t);
    assert DocOk(S, k);
    CreatedOk(S);
    assert AttemptsOf(Created(S), k) == {};
  }

  /** It happens: one task, claimed and then reported cancelled, is observed without ever having been sent. */
  lemma SkipHappens(e: Id, t: Id, shot: Id, route: Id, policy: Id, owner: Id)
    ensures var S, r, calm := OneTask(e, t, shot, route, policy), Request(e, t, 1), Env(0.0, false);
      && PlanOk(S) && Shaped(S, Created(S))
      && var claimed := ClaimOp(S, Created(S), TaskKey(e, t), owner, 100, calm);
      && var seen := ObserveOp(claimed.1, r, 1, Cancelled);
      && claimed.0 == Success(r) && r in claimed.1.attempts && claimed.1.attempts[r].outbox == Prepared
      && seen.0 == Success(()) && r in seen.1.attempts && seen.1.attempts[r].outbox == Observed
  {
    var S, k, r := OneTask(e, t, shot, route, policy), TaskKey(e, t), Request(e, t, 1);
    OneTaskClaims(e, t, shot, route, policy, owner);
    var db := Created(S);
    var claimed := Claimed(S, db, k, owner, 100, ClaimRound(S, db, k).value);
    assert Next(k, db.tasks[k]) == r && r in claimed.attempts && Current(claimed, r);
    assert claimed.attempts[r].status == Reserved;
    ObserveLeaves(claimed, r, r, 1, Cancelled);
  }

  /** A plan of one free-standing task of 5 units, in a version 1 budget of 100 with a reserve of 10. */
  function OneTask(e: Id, t: Id, shot: Id, route: Id, policy: Id): Setup {
    Setup(Authorization(false, true, 0, 100, 10, map[route := 50], 10, 3),
          map[TaskKey(e, t) := TaskDoc(0, {}, shot, shot, route, 5, 0, true)], map[e := policy])
  }
}
