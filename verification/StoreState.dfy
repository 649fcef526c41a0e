/**
 Tables and transactions of src/fsf/production/store.py. A transaction is a function from tables to a result
 and new tables; a refused transaction returns the tables it was given. Request ids are digests of
 (execution, task, epoch), modelled by the triple itself.
 */
module StoreState {
  import opened Wrappers
  import opened Ids
  import opened Sums

  const MAX_INTEGER: int := 0x7FFF_FFFF_FFFF_FFFF
  const MAX_ATTEMPTS: int := 3

  datatype Error =
    | AuthorityConflict | NotReady | NotAuthorized | AuthorizationExpired | SubmitHeld | NotFound | ReconcileRequired
    | AttemptsExceeded | RepairWaiting | RepairExhausted | Invalid | BudgetExceeded | OptionalWorkPaused
    | ForecastRequired | ForecastUnaffordable | RequestConflict | Fenced | LeaseExpired | ProviderInvalid
    | StateConflict | EvidenceRequired

  datatype TaskKey = TaskKey(execution: Id, task: Id)
  datatype ShotKey = ShotKey(execution: Id, shot: Id)
  datatype Request = Request(execution: Id, task: Id, epoch: int)

  /** One immutable task document of a plan. */
  datatype TaskDoc = TaskDoc(
    ordinal: int, parents: set<Id>, shot: Id, segment: Id, route: Id, worst: int, frames: int, essential: bool)

  /** `maxRepairRounds` is 3 for a version 1 budget, which has no such field. */
  datatype Authorization = Authorization(
    v2: bool, authorized: bool, expiresAt: int, totalUnits: int, cleanupUnits: int, routeLimits: map<Id, int>,
    maxFrames: int, maxRepairRounds: int)

  /** What `create` stores once and nothing changes: the budget, the plans and each execution's policy. */
  datatype Setup = Setup(auth: Authorization, plan: map<TaskKey, TaskDoc>, policy: map<Id, Id>)

  datatype Status =
    | Ready | RepairWait
    | Reserved | Submitted | Running | Unknown | Produced | Verified
    | Failed | Cancelled | Rejected | MachineAccepted

  predicate Live(st: Status) {
    st in {Reserved, Submitted, Running, Unknown, Produced, Verified}
  }

  predicate Terminal(st: Status) {
    st in {Failed, Cancelled, Rejected, MachineAccepted}
  }

  predicate Retryable(st: Status) {
    st in {Failed, Cancelled, Rejected}
  }

  predicate Claimable(st: Status) {
    st in {Ready, Failed, Cancelled, Rejected}
  }

  datatype Verdict = Accept | Reject | Doubt
  /** What the quality gate found: under which policy binding, about which file and which technical report. */
  datatype Quality = Quality(binding: Id, artifact: Id, technical: Id, verdict: Verdict)

  /**
   A report, `report` being its own digest. The quality gate puts the report it judged and its own result inside, and
   publication the request.
   */
  datatype Evidence = Evidence(isSealed: bool, verdict: Verdict, policy: Id, artifact: Id, report: Id,
                               technical: Option<Evidence>, quality: Option<Quality>, request: Option<Request>)

  /**
   What the events say about a result when its driver is bound to a quality policy: the evidence of the last publication
   intent, whether the file is the published one, and the last quality result.
   */
  datatype Receipts = Unbound | Bound(binding: Id, intent: Option<Evidence>, published: bool, result: Option<Quality>)

  datatype Task = Task(status: Status, remaining: int, epoch: int, request: Option<Request>, accepted: Option<Evidence>)

  datatype Outbox = Prepared | Sending | Observed
  datatype CancelState = Asked | Stopped | Unsupported | Unclear
  datatype Slot = Slot(shot: Id, segment: Id, round: int)
  datatype FeeState = Active | UnknownFee | Settled

  datatype Charge = Charge(slot: Option<Slot>, route: Id, worst: int, settled: int, frames: int, fee: FeeState)

  datatype Attempt = Attempt(
    owner: Id, expires: int, status: Status, invalidated: bool, evidence: Option<Evidence>,
    outbox: Outbox, cancel: Option<CancelState>, charge: Charge)

  datatype Forecast = Forecast(basis: int, remaining: int, affordable: bool)

  datatype Db = Db(
    used: int, frames: int, costRevision: int, forecast: Option<Forecast>, revoked: bool, paused: map<Id, bool>,
    tasks: map<TaskKey, Task>, attempts: map<Request, Attempt>, rounds: map<ShotKey, int>, routeTotals: map<Id, int>)

  /** The wall clock and the operator's hold file. */
  datatype Env = Env(now: real, held: bool)

  function KeyOf(r: Request): TaskKey {
    TaskKey(r.execution, r.task)
  }

  function ShotOf(S: Setup, k: TaskKey): ShotKey
    requires k in S.plan
  {
    ShotKey(k.execution, S.plan[k].shot)
  }

  // ---------------------------------------------------------------------------------------------
  // Money
  // ---------------------------------------------------------------------------------------------

  /** A settled fee counts what was billed, every other one its worst case. */
  function Cost(c: Charge): int {
    if c.fee == Settled then c.settled else c.worst
  }

  function CostOf(): Attempt -> int {
    (a: Attempt) => Cost(a.charge)
  }

  function FramesOf(): Attempt -> int {
    (a: Attempt) => a.charge.frames
  }

  function CostOn(route: Id): Attempt -> int {
    (a: Attempt) => if a.charge.route == route then Cost(a.charge) else 0
  }

  // ---------------------------------------------------------------------------------------------
  // claim
  // ---------------------------------------------------------------------------------------------

  function ActiveError(S: Setup, db: Db, execution: Id, env: Env): Option<Error> {
    if execution !in db.paused then Some(AuthorityConflict)
    else if db.paused[execution] then Some(NotReady)
    else if db.revoked || !S.auth.authorized then Some(NotAuthorized)
    else if S.auth.v2 && env.now >= S.auth.expiresAt as real then Some(AuthorizationExpired)
    else if env.held then Some(SubmitHeld)
    else None
  }

  function AttemptsOf(db: Db, k: TaskKey): set<Request> {
    set r | r in db.attempts && KeyOf(r) == k
  }

  predicate PriorInRound(S: Setup, db: Db, k: TaskKey)
    requires k in S.plan && k in db.tasks && ShotOf(S, k) in db.rounds
  {
    var t := db.tasks[k];
    && t.request.Some? && S.plan[k].frames > 0
    && t.request.value in db.attempts && db.attempts[t.request.value].charge.slot.Some?
    && db.attempts[t.request.value].charge.slot.value.round == db.rounds[ShotOf(S, k)]
  }

  /** Another task of the shot has a live generation attempt in the given round. */
  predicate SiblingLive(db: Db, k: TaskKey, shot: Id, round: int) {
    exists r :: r in db.attempts && r.execution == k.execution && r.task != k.task && Live(db.attempts[r].status)
      && db.attempts[r].charge.slot.Some? && db.attempts[r].charge.slot.value.shot == shot
      && db.attempts[r].charge.slot.value.round == round
  }

  /** The round the claim is made in: the shot's, or the next one when the task's last reservation used it up. */
  function ClaimRound(S: Setup, db: Db, k: TaskKey): Result<int, Error>
    requires k in S.plan && k in db.tasks && ShotOf(S, k) in db.rounds
  {
    var round := db.rounds[ShotOf(S, k)];
    if !PriorInRound(S, db, k) then Success(round)
    else if SiblingLive(db, k, S.plan[k].shot, round) then Failure(RepairWaiting)
    else if round >= S.auth.maxRepairRounds then Failure(RepairExhausted)
    else Success(round + 1)
  }

  function BudgetError(S: Setup, db: Db, doc: TaskDoc): Option<Error>
    requires doc.route in db.routeTotals && doc.route in S.auth.routeLimits
  {
    var total, route, frames := db.used + doc.worst + S.auth.cleanupUnits, db.routeTotals[doc.route] + doc.worst, db.frames + doc.frames;
    if total > MAX_INTEGER then Some(Invalid)
    else if total > S.auth.totalUnits then Some(BudgetExceeded)
    else if route > MAX_INTEGER then Some(Invalid)
    else if route > S.auth.routeLimits[doc.route] then Some(BudgetExceeded)
    else if frames > MAX_INTEGER then Some(Invalid)
    else if frames > S.auth.maxFrames then Some(BudgetExceeded)
    else None
  }

  /** From 80 percent of the budget on, only essential work with a current, sufficient, affordable forecast goes ahead. */
  function ForecastError(S: Setup, db: Db, doc: TaskDoc): Option<Error> {
    if !S.auth.v2 || (db.used + doc.worst) * 100 < S.auth.totalUnits * 80 then None
    else if !doc.essential then Some(OptionalWorkPaused)
    else if db.forecast.None? || db.forecast.value.basis != db.costRevision || db.forecast.value.remaining < doc.worst
      then Some(ForecastRequired)
    else if !db.forecast.value.affordable then Some(ForecastUnaffordable)
    else None
  }

  function SlotFor(doc: TaskDoc, round: int): Option<Slot> {
    if doc.frames > 0 then Some(Slot(doc.shot, doc.segment, round)) else None
  }

  /** The generation_slot unique index: one attempt per (execution, shot, segment, round). */
  predicate SlotTaken(db: Db, execution: Id, slot: Option<Slot>) {
    slot.Some? && exists r :: r in db.attempts && r.execution == execution && db.attempts[r].charge.slot == slot
  }

  function Next(k: TaskKey, t: Task): Request {
    Request(k.execution, k.task, t.epoch + 1)
  }

  function Affordable(S: Setup, used: int, remaining: int): bool {
    used + remaining + S.auth.cleanupUnits <= S.auth.totalUnits
  }

  function NewAttempt(doc: TaskDoc, owner: Id, expires: int, round: int): Attempt {
    Attempt(owner, expires, Reserved, false, None, Prepared, None,
            Charge(SlotFor(doc, round), doc.route, doc.worst, 0, doc.frames, Active))
  }

  function ForecastAfterClaim(S: Setup, db: Db, doc: TaskDoc): Option<Forecast> {
    if db.forecast.None? then None
    else
      var left := AtLeastZero(db.forecast.value.remaining - doc.worst);
      Some(Forecast(db.costRevision + 1, left, Affordable(S, db.used + doc.worst, left)))
  }

  function Claimed(S: Setup, db: Db, k: TaskKey, owner: Id, expires: int, round: int): Db
    requires k in S.plan && k in db.tasks && S.plan[k].route in db.routeTotals
  {
    var doc, t := S.plan[k], db.tasks[k];
    db.(used := db.used + doc.worst, frames := db.frames + doc.frames, costRevision := db.costRevision + 1,
        forecast := ForecastAfterClaim(S, db, doc),
        tasks := db.tasks[k := t.(epoch := t.epoch + 1, request := Some(Next(k, t)), status := Reserved)],
        attempts := db.attempts[Next(k, t) := NewAttempt(doc, owner, expires, round)],
        rounds := db.rounds[ShotOf(S, k) := round],
        routeTotals := db.routeTotals[doc.route := db.routeTotals[doc.route] + doc.worst])
  }

  /** The static facts every transaction relies on: rows exist for what the plans name. */
  ghost predicate Shaped(S: Setup, db: Db) {
    && db.tasks.Keys == S.plan.Keys
    && db.routeTotals.Keys == S.auth.routeLimits.Keys
    && (forall k :: k in S.plan ==> S.plan[k].route in db.routeTotals && ShotOf(S, k) in db.rounds && k.execution in S.policy)
  }

  function ClaimError(S: Setup, db: Db, k: TaskKey, env: Env): Option<Error>
    requires Shaped(S, db)
  {
    if ActiveError(S, db, k.execution, env).Some? then ActiveError(S, db, k.execution, env)
    else if k !in S.plan then Some(NotFound)
    else
      var doc, t := S.plan[k], db.tasks[k];
      if t.accepted.Some? || t.remaining != 0 then Some(NotReady)
      else if t.request.Some? && t.request.value !in db.attempts then Some(NotFound)
      else if t.request.Some? && !Retryable(db.attempts[t.request.value].status) && !db.attempts[t.request.value].invalidated
        then Some(ReconcileRequired)
      else if |AttemptsOf(db, k)| >= MAX_ATTEMPTS then Some(AttemptsExceeded)
      else if ClaimRound(S, db, k).Failure? then Some(ClaimRound(S, db, k).error)
      else if BudgetError(S, db, doc).Some? then BudgetError(S, db, doc)
      else if ForecastError(S, db, doc).Some? then ForecastError(S, db, doc)
      else if SlotTaken(db, k.execution, SlotFor(doc, ClaimRound(S, db, k).value)) || Next(k, t) in db.attempts
        then Some(RequestConflict)
      else None
  }

  function ClaimOp(S: Setup, db: Db, k: TaskKey, owner: Id, expires: int, env: Env): (Result<Request, Error>, Db)
    requires Shaped(S, db)
  {
    match ClaimError(S, db, k, env)
    case Some(e) => (Failure(e), db)
    case None => (Success(Next(k, db.tasks[k])), Claimed(S, db, k, owner, expires, ClaimRound(S, db, k).value))
  }

  // ---------------------------------------------------------------------------------------------
  // The fence, sending, observing, cancelling
  // ---------------------------------------------------------------------------------------------

  predicate Current(db: Db, r: Request) {
    && KeyOf(r) in db.tasks && db.tasks[KeyOf(r)].request == Some(r) && db.tasks[KeyOf(r)].epoch == r.epoch
  }

  function FenceError(db: Db, r: Request, epoch: int): Option<Error> {
    if r !in db.attempts then Some(NotFound)
    else if r.epoch != epoch || !Current(db, r) then Some(Fenced)
    else None
  }

  function SetStatus(db: Db, r: Request, a: Attempt): Db
    requires KeyOf(r) in db.tasks
  {
    db.(attempts := db.attempts[r := a], tasks := db.tasks[KeyOf(r) := db.tasks[KeyOf(r)].(status := a.status)])
  }

  function MarkSendingOp(S: Setup, db: Db, r: Request, epoch: int, env: Env): (Result<(), Error>, Db) {
    if FenceError(db, r, epoch).Some? then (Failure(FenceError(db, r, epoch).value), db)
    else if ActiveError(S, db, r.execution, env).Some? then (Failure(ActiveError(S, db, r.execution, env).value), db)
    else if db.attempts[r].expires as real <= env.now then (Failure(LeaseExpired), db)
    else if db.attempts[r].outbox != Prepared then (Failure(ReconcileRequired), db)
    else (Success(()), SetStatus(db, r, db.attempts[r].(outbox := Sending, status := Submitted)))
  }

  function RenewPreparedOp(S: Setup, db: Db, r: Request, epoch: int, owner: Id, expires: int, env: Env): (Result<(), Error>, Db) {
    if FenceError(db, r, epoch).Some? then (Failure(FenceError(db, r, epoch).value), db)
    else if ActiveError(S, db, r.execution, env).Some? then (Failure(ActiveError(S, db, r.execution, env).value), db)
    else if db.attempts[r].owner != owner || db.attempts[r].outbox != Prepared then (Failure(ReconcileRequired), db)
    else (Success(()), db.(attempts := db.attempts[r := db.attempts[r].(expires := expires)]))
  }

  function ObserveOp(db: Db, r: Request, epoch: int, status: Status): (Result<(), Error>, Db) {
    if status !in {Running, Produced, Failed, Cancelled, Unknown} then (Failure(ProviderInvalid), db)
    else if FenceError(db, r, epoch).Some? then (Failure(FenceError(db, r, epoch).value), db)
    else
      var a := db.attempts[r];
      if Terminal(a.status) then (if a.status != status then Failure(StateConflict) else Success(()), db)
      else if a.status == status then (Success(()), db)
      else
        (Success(()), SetStatus(db, r, a.(status := status, outbox := if status != Unknown then Observed else a.outbox)))
  }

  function CancelMarkOp(db: Db, r: Request, epoch: int, mark: CancelState): (Result<(), Error>, Db) {
    if FenceError(db, r, epoch).Some? then (Failure(FenceError(db, r, epoch).value), db)
    else (Success(()), db.(attempts := db.attempts[r := db.attempts[r].(cancel := Some(mark))]))
  }

  // ---------------------------------------------------------------------------------------------
  // Fees and forecasts
  // ---------------------------------------------------------------------------------------------

  function SetFee(db: Db, r: Request, fee: FeeState, settled: int): Db
    requires r in db.attempts
  {
    db.(attempts := db.attempts[r := db.attempts[r].(charge := db.attempts[r].charge.(fee := fee, settled := settled))])
  }

  /** Settling is not fenced: a superseded request's bill is still a bill. */
  function SettleOp(S: Setup, db: Db, r: Request, units: Option<int>): (Result<(), Error>, Db)
  {
    if r !in db.attempts then (Failure(NotFound), db)
    else
      var c := db.attempts[r].charge;
      match units
      case None => (Success(()), if c.fee == Active then SetFee(db, r, UnknownFee, c.settled) else db)
      case Some(u) =>
        if !(0 <= u <= c.worst) then (Failure(Invalid), db)
        else if c.fee == Settled then (if c.settled != u then Failure(RequestConflict) else Success(()), db)
        else
          var used := db.used + (u - c.worst);
          (Success(()),
           SetFee(db, r, Settled, u).(
             used := used, costRevision := db.costRevision + 1,
             routeTotals := if c.route in db.routeTotals then db.routeTotals[c.route := db.routeTotals[c.route] + (u - c.worst)] else db.routeTotals,
             forecast := if db.forecast.None? then None
                         else Some(Forecast(db.costRevision + 1, db.forecast.value.remaining,
                                            Affordable(S, used, db.forecast.value.remaining)))))
  }

  function ForecastOp(S: Setup, db: Db, remaining: int): (Result<Forecast, Error>, Db) {
    if !(0 <= remaining <= MAX_INTEGER) || db.used + remaining + S.auth.cleanupUnits > MAX_INTEGER then (Failure(Invalid), db)
    else
      var f := Forecast(db.costRevision, remaining, Affordable(S, db.used, remaining));
      (Success(f), db.(forecast := Some(f)))
  }

  /** How many more attempts one unaccepted task may still reserve. */
  function FutureAttempts(S: Setup, db: Db, k: TaskKey): int
    requires k in S.plan && k in db.tasks && ShotOf(S, k) in db.rounds
  {
    if S.plan[k].frames > 0 then
      AtLeastZero(S.auth.maxRepairRounds - db.rounds[ShotOf(S, k)] + 1 - (if PriorInRound(S, db, k) then 1 else 0))
    else AtLeastZero(MAX_ATTEMPTS - |AttemptsOf(db, k)|)
  }

  function Need(S: Setup, db: Db): map<TaskKey, int>
    requires Shaped(S, db)
  {
    map k | k in S.plan :: if db.tasks[k].accepted.Some? then 0 else FutureAttempts(S, db, k) * S.plan[k].worst
  }

  function Self(): int -> int {
    (n: int) => n
  }

  /** `remaining_forecast` recomputed: the worst case of all work that is not reserved yet. */
  ghost function Unreserved(S: Setup, db: Db): int
    requires Shaped(S, db)
  {
    SumBy(Need(S, db), Self())
  }

  /** `cancel_observed`: the mark, then, for a confirmed stop, the observation and the unknown fee, each its own transaction. */
  function CancelObservedOp(S: Setup, db: Db, r: Request, epoch: int, mark: CancelState): (Result<(), Error>, Db) {
    var marked := CancelMarkOp(db, r, epoch, mark);
    if marked.0.Failure? || mark != Stopped then marked
    else
      var observed := ObserveOp(marked.1, r, epoch, Cancelled);
      if observed.0.Failure? then observed else SettleOp(S, observed.1, r, None)
  }

  // ---------------------------------------------------------------------------------------------
  // Results
  // ---------------------------------------------------------------------------------------------

  function ChildrenOf(S: Setup, k: TaskKey): set<TaskKey> {
    set c | c in S.plan && c.execution == k.execution && k.task in S.plan[c].parents
  }

  function AcceptedRow(S: Setup, db: Db, k: TaskKey, evidence: Evidence, c: TaskKey): Task
    requires c in S.plan && k in S.plan && c in db.tasks
  {
    var t := if c == k then db.tasks[c].(status := MachineAccepted, accepted := Some(evidence)) else db.tasks[c];
    var u := if c in ChildrenOf(S, k) then t.(remaining := t.remaining - 1) else t;
    if ShotOf(S, c) == ShotOf(S, k) && u.status == RepairWait then u.(status := Rejected) else u
  }

  function Accepted(S: Setup, db: Db, r: Request, evidence: Evidence): Db
    requires Shaped(S, db) && r in db.attempts && KeyOf(r) in S.plan
  {
    db.(attempts := db.attempts[r := db.attempts[r].(status := MachineAccepted, evidence := Some(evidence))],
        tasks := map c | c in db.tasks :: AcceptedRow(S, db, KeyOf(r), evidence, c))
  }

  /** `file` is the digest of the artifact on disk at the time of the call. */
  predicate ReceiptsOk(r: Request, receipts: Receipts, evidence: Evidence) {
    receipts.Bound? ==>
      && receipts.intent == Some(evidence) && evidence.request == Some(r) && receipts.published
      && evidence.quality.Some? && evidence.quality == receipts.result && QualityOk(receipts.binding, evidence, evidence.quality.value)
  }

  predicate QualityOk(binding: Id, evidence: Evidence, quality: Quality) {
    && quality.binding == binding && quality.artifact == evidence.artifact && quality.verdict == Accept
    && evidence.technical.Some? && quality.technical == evidence.technical.value.report
  }

  function AcceptOp(S: Setup, db: Db, r: Request, epoch: int, file: Id, evidence: Evidence, receipts: Receipts): (Result<(), Error>, Db)
    requires Shaped(S, db)
  {
    if !evidence.isSealed || evidence.verdict != Accept || file != evidence.artifact then (Failure(EvidenceRequired), db)
    else if FenceError(db, r, epoch).Some? then (Failure(FenceError(db, r, epoch).value), db)
    else if !ReceiptsOk(r, receipts, evidence) || evidence.policy != S.policy[r.execution] || db.attempts[r].status !in {Produced, Verified}
      then (Failure(EvidenceRequired), db)
    else (Success(()), Accepted(S, db, r, evidence))
  }

  /** `file` is the digest of the rejected artifact, where the caller names one. */
  function RejectOp(db: Db, r: Request, epoch: int, evidence: Evidence, file: Option<Id>): (Result<(), Error>, Db) {
    if file.Some? && file.value != evidence.artifact then (Failure(EvidenceRequired), db)
    else if FenceError(db, r, epoch).Some? then (Failure(FenceError(db, r, epoch).value), db)
    else if db.attempts[r].status != Produced || evidence.verdict != Reject || !evidence.isSealed
      then (Failure(EvidenceRequired), db)
    else (Success(()), SetStatus(db, r, db.attempts[r].(status := Rejected, evidence := Some(evidence))))
  }

  // ---------------------------------------------------------------------------------------------
  // invalidate
  // ---------------------------------------------------------------------------------------------

  function UnacceptedParents(S: Setup, tasks: map<TaskKey, Task>, k: TaskKey): set<Id>
    requires k in S.plan
  {
    set p | p in S.plan[k].parents && TaskKey(k.execution, p) in tasks && tasks[TaskKey(k.execution, p)].accepted.None?
  }

  predicate Unfinished(db: Db, k: TaskKey) {
    && k in db.tasks && db.tasks[k].request.Some? && db.tasks[k].request.value in db.attempts
    && !Terminal(db.attempts[db.tasks[k].request.value].status)
  }

  function Reopened(db: Db, affected: set<TaskKey>): map<TaskKey, Task> {
    map k | k in db.tasks ::
      if k in affected then db.tasks[k].(accepted := None, status := Ready, epoch := db.tasks[k].epoch + 1) else db.tasks[k]
  }

  function Invalidated(S: Setup, db: Db, affected: set<TaskKey>): Db
    requires Shaped(S, db)
  {
    var reopened := Reopened(db, affected);
    db.(tasks := map k | k in reopened ::
          if k in affected then reopened[k].(remaining := |UnacceptedParents(S, reopened, k)|) else reopened[k],
        attempts := map r | r in db.attempts ::
          if KeyOf(r) in affected && KeyOf(r) in db.tasks && db.tasks[KeyOf(r)].request == Some(r)
          then db.attempts[r].(invalidated := true) else db.attempts[r],
        forecast := None)
  }

  /** The transaction of `invalidate`, given the closure of the changed tasks: all or nothing. */
  function InvalidateOp(S: Setup, db: Db, affected: set<TaskKey>): (Result<(), Error>, Db)
    requires Shaped(S, db)
  {
    if exists k :: k in affected && Unfinished(db, k) then (Failure(ReconcileRequired), db)
    else (Success(()), Invalidated(S, db, affected))
  }

  // ---------------------------------------------------------------------------------------------
  // Status marks of the runner, pause and revoke
  // ---------------------------------------------------------------------------------------------

  function RepairWaitOp(db: Db, k: TaskKey): Db {
    if k in db.tasks then db.(tasks := db.tasks[k := db.tasks[k].(status := RepairWait)]) else db
  }

  function WakeRepairs(db: Db, execution: Id): Db {
    db.(tasks := map k | k in db.tasks ::
          if k.execution == execution && db.tasks[k].status == RepairWait then db.tasks[k].(status := Rejected) else db.tasks[k])
  }

  function PauseOp(db: Db, execution: Id, enabled: bool): (Result<(), Error>, Db) {
    if execution !in db.paused then (Failure(NotFound), db)
    else (Success(()), db.(paused := db.paused[execution := enabled]))
  }

  function RevokeOp(db: Db): Db {
    db.(revoked := true)
  }

  function Shots(S: Setup): set<ShotKey> {
    set k | k in S.plan :: ShotOf(S, k)
  }

  /** The tables `create` writes. */
  function Created(S: Setup): Db
  {
    Db(0, 0, 0, None, false,
       map e | e in S.policy :: false,
       map k | k in S.plan :: Task(Ready, |S.plan[k].parents|, 0, None, None),
       map[],
       map s | s in Shots(S) :: 1,
       map route | route in S.auth.routeLimits :: 0)
  }
}
