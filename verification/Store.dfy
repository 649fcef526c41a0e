/**
 The store as an object: one field per table, one method per transaction. A refused transaction leaves every
 table as it was; a committed one does what `StoreState` says, and every one of them keeps the invariant.
 */
module Store {
  import opened Wrappers
  import opened Ids
  import opened Sums
  import opened Graph
  import opened StoreState
  import opened StoreInv
  import opened StoreForecast

  lemma RestNonNegative(S: Setup, db: Db, open: map<TaskKey, int>)
    requires PlanOk(S) && Shaped(S, db) && forall k :: k in open ==> k in S.plan && open[k] == Need(S, db)[k]
    ensures SumBy(open, Self()) >= 0
  {
    forall k | k in open ensures Self()(open[k]) >= 0 {
      NeedNonNegative(S, db, k);
    }
    NonNegative(open, Self());
  }

  class ProductionStore {
    const setup: Setup
    var used: int
    var frames: int
    var costRevision: int
    var forecast: Option<Forecast>
    var revoked: bool
    var paused: map<Id, bool>
    var tasks: map<TaskKey, Task>
    var attempts: map<Request, Attempt>
    var rounds: map<ShotKey, int>
    var routeTotals: map<Id, int>

    function Tables(): Db
      reads this
    {
      Db(used, frames, costRevision, forecast, revoked, paused, tasks, attempts, rounds, routeTotals)
    }

    ghost predicate Valid()
      reads this
    {
      Inv(setup, Tables())
    }

    constructor (S: Setup)
      requires PlanOk(S)
      ensures Valid() && setup == S && Tables() == Created(S)
    {
      setup := S;
      used, frames, costRevision := 0, 0, 0;
      forecast, revoked := None, false;
      paused := map e | e in S.policy :: false;
      tasks := map k | k in S.plan :: Task(Ready, |S.plan[k].parents|, 0, None, None);
      attempts := map[];
      rounds := map s | s in Shots(S) :: 1;
      routeTotals := map route | route in S.auth.routeLimits :: 0;
      new;
      CreatedOk(S);
    }

    /** `_active`: may this execution start new work now? */
    method CheckActive(execution: Id, env: Env) returns (e: Option<Error>)
      ensures e == ActiveError(setup, Tables(), execution, env)
    {
      if execution !in paused {
        return Some(AuthorityConflict);
      }
      if paused[execution] {
        return Some(NotReady);
      }
      if revoked || !setup.auth.authorized {
        return Some(NotAuthorized);
      }
      if setup.auth.v2 && env.now >= setup.auth.expiresAt as real {
        return Some(AuthorizationExpired);
      }
      if env.held {
        return Some(SubmitHeld);
      }
      return None;
    }

    /** The readiness half of `claim`: everything up to and including the repair round. */
    method ReadyToClaim(k: TaskKey) returns (r: Result<int, Error>)
      requires Shaped(setup, Tables()) && k in setup.plan
      ensures var db, t := Tables(), tasks[k];
        r == if t.accepted.Some? || t.remaining != 0 then Failure(NotReady)
             else if t.request.Some? && t.request.value !in attempts then Failure(NotFound)
             else if t.request.Some? && !Retryable(attempts[t.request.value].status) && !attempts[t.request.value].invalidated
               then Failure(ReconcileRequired)
             else if |AttemptsOf(db, k)| >= MAX_ATTEMPTS then Failure(AttemptsExceeded)
             else ClaimRound(setup, db, k)
    {
      var doc, t := setup.plan[k], tasks[k];
      if t.accepted.Some? || t.remaining != 0 {
        return Failure(NotReady);
      }
      if t.request.Some? {
        if t.request.value !in attempts {
          return Failure(NotFound);
        }
        var prior := attempts[t.request.value];
        if !Retryable(prior.status) && !prior.invalidated {
          return Failure(ReconcileRequired);
        }
      }
      var count := |set r | r in attempts && KeyOf(r) == k|;
      if count >= MAX_ATTEMPTS {
        return Failure(AttemptsExceeded);
      }
      var round := rounds[ShotKey(k.execution, doc.shot)];
      if t.request.Some? && doc.frames > 0 {
        var slot := attempts[t.request.value].charge.slot;
        if slot.Some? && slot.value.round == round {
          if exists r :: r in attempts && r.execution == k.execution && r.task != k.task && Live(attempts[r].status)
               && attempts[r].charge.slot.Some? && attempts[r].charge.slot.value.shot == doc.shot
               && attempts[r].charge.slot.value.round == round
          {
            return Failure(RepairWaiting);
          }
          if round >= setup.auth.maxRepairRounds {
            return Failure(RepairExhausted);
          }
          round := round + 1;
        }
      }
      return Success(round);
    }

    /** The money gates and the unique indexes, for a claim in the given round. */
    method CheckAdmission(k: TaskKey, round: int) returns (e: Option<Error>)
      requires Shaped(setup, Tables()) && k in setup.plan
      ensures var db, doc := Tables(), setup.plan[k];
        e == if BudgetError(setup, db, doc).Some? then BudgetError(setup, db, doc)
             else if ForecastError(setup, db, doc).Some? then ForecastError(setup, db, doc)
             else if SlotTaken(db, k.execution, SlotFor(doc, round)) || Next(k, tasks[k]) in attempts then Some(RequestConflict)
             else None
    {
      var doc, auth := setup.plan[k], setup.auth;
      if used + doc.worst + auth.cleanupUnits > MAX_INTEGER {
        return Some(Invalid);
      }
      if used + doc.worst + auth.cleanupUnits > auth.totalUnits {
        return Some(BudgetExceeded);
      }
      if routeTotals[doc.route] + doc.worst > MAX_INTEGER {
        return Some(Invalid);
      }
      if routeTotals[doc.route] + doc.worst > auth.routeLimits[doc.route] {
        return Some(BudgetExceeded);
      }
      if frames + doc.frames > MAX_INTEGER {
        return Some(Invalid);
      }
      if frames + doc.frames > auth.maxFrames {
        return Some(BudgetExceeded);
      }
      if auth.v2 && (used + doc.worst) * 100 >= auth.totalUnits * 80 {
        if !doc.essential {
          return Some(OptionalWorkPaused);
        }
        if forecast.None? || forecast.value.basis != costRevision || forecast.value.remaining < doc.worst {
          return Some(ForecastRequired);
        }
        if !forecast.value.affordable {
          return Some(ForecastUnaffordable);
        }
      }
      var slot := if doc.frames > 0 then Some(Slot(doc.shot, doc.segment, round)) else None;
      if slot.Some? && exists q :: q in attempts && q.execution == k.execution && attempts[q].charge.slot == slot {
        return Some(RequestConflict);
      }
      if Request(k.execution, k.task, tasks[k].epoch + 1) in attempts {
        return Some(RequestConflict);
      }
      return None;
    }

    /** The writes of a claim. */
    method Reserve(k: TaskKey, owner: Id, expires: int, round: int) returns (request: Request)
      requires k in setup.plan && k in tasks && setup.plan[k].route in routeTotals
      modifies this
      ensures request == Next(k, old(tasks)[k])
      ensures Tables() == Claimed(setup, old(Tables()), k, owner, expires, round)
    {
      var doc, t := setup.plan[k], tasks[k];
      request := Request(k.execution, k.task, t.epoch + 1);
      var left := if forecast.Some? then AtLeastZero(forecast.value.remaining - doc.worst) else 0;
      var renewed := if forecast.Some? then Some(Forecast(costRevision + 1, left, Affordable(setup, used + doc.worst, left))) else None;
      attempts := attempts[request := NewAttempt(doc, owner, expires, round)];
      rounds := rounds[ShotKey(k.execution, doc.shot) := round];
      tasks := tasks[k := t.(epoch := t.epoch + 1, request := Some(request), status := Reserved)];
      routeTotals := routeTotals[doc.route := routeTotals[doc.route] + doc.worst];
      used, frames, costRevision, forecast := used + doc.worst, frames + doc.frames, costRevision + 1, renewed;
    }

    method Claim(k: TaskKey, owner: Id, expires: int, env: Env) returns (r: Result<Request, Error>)
      requires Valid()
      modifies this
      ensures (r, Tables()) == ClaimOp(setup, old(Tables()), k, owner, expires, env)
      ensures Valid()
    {
      ClaimKeeps(setup, Tables(), k, owner, expires, env);
      var refused := CheckActive(k.execution, env);
      if refused.Some? {
        return Failure(refused.value);
      }
      if k !in setup.plan {
        return Failure(NotFound);
      }
      var ready := ReadyToClaim(k);
      if ready.Failure? {
        return Failure(ready.error);
      }
      refused := CheckAdmission(k, ready.value);
      if refused.Some? {
        return Failure(refused.value);
      }
      var request := Reserve(k, owner, expires, ready.value);
      return Success(request);
    }

    /** `_fence`: the request must be its task's current one, in the epoch the caller knows. */
    method CheckFence(r: Request, epoch: int) returns (e: Option<Error>)
      ensures e == FenceError(Tables(), r, epoch)
    {
      if r !in attempts {
        return Some(NotFound);
      }
      var k := KeyOf(r);
      if r.epoch != epoch || k !in tasks || tasks[k].epoch != epoch || tasks[k].request != Some(r) {
        return Some(Fenced);
      }
      return None;
    }

    method MarkSending(r: Request, epoch: int, env: Env) returns (res: Result<(), Error>)
      requires Valid()
      modifies this
      ensures (res, Tables()) == MarkSendingOp(setup, old(Tables()), r, epoch, env)
      ensures Valid()
    {
      MarkSendingKeeps(setup, Tables(), r, epoch, env);
      var refused := CheckFence(r, epoch);
      if refused.Some? {
        return Failure(refused.value);
      }
      refused := CheckActive(r.execution, env);
      if refused.Some? {
        return Failure(refused.value);
      }
      if attempts[r].expires as real <= env.now {
        return Failure(LeaseExpired);
      }
      if attempts[r].outbox != Prepared {
        return Failure(ReconcileRequired);
      }
      attempts := attempts[r := attempts[r].(outbox := Sending, status := Submitted)];
      tasks := tasks[KeyOf(r) := tasks[KeyOf(r)].(status := Submitted)];
      return Success(());
    }

    method RenewPrepared(r: Request, epoch: int, owner: Id, expires: int, env: Env) returns (res: Result<(), Error>)
      requires Valid()
      modifies this
      ensures (res, Tables()) == RenewPreparedOp(setup, old(Tables()), r, epoch, owner, expires, env)
      ensures Valid()
    {
      RenewPreparedKeeps(setup, Tables(), r, epoch, owner, expires, env);
      var refused := CheckFence(r, epoch);
      if refused.Some? {
        return Failure(refused.value);
      }
      refused := CheckActive(r.execution, env);
      if refused.Some? {
        return Failure(refused.value);
      }
      if attempts[r].owner != owner || attempts[r].outbox != Prepared {
        return Failure(ReconcileRequired);
      }
      attempts := attempts[r := attempts[r].(expires := expires)];
      return Success(());
    }

    method Observe(r: Request, epoch: int, status: Status) returns (res: Result<(), Error>)
      requires Valid()
      modifies this
      ensures (res, Tables()) == ObserveOp(old(Tables()), r, epoch, status)
      ensures Valid()
    {
      ObserveKeeps(setup, Tables(), r, epoch, status);
      if status !in {Running, Produced, Failed, Cancelled, Unknown} {
        return Failure(ProviderInvalid);
      }
      var refused := CheckFence(r, epoch);
      if refused.Some? {
        return Failure(refused.value);
      }
      var prior := attempts[r];
      if Terminal(prior.status) {
        if prior.status != status {
          return Failure(StateConflict);
        }
        return Success(());
      }
      if prior.status == status {
        return Success(());
      }
      var row := prior.(status := status);
      if status != Unknown {
        row := row.(outbox := Observed);
      }
      WriteStatus(r, row);
      return Success(());
    }

    /** An attempt's row, and its task's row with the same status. */
    method WriteStatus(r: Request, row: Attempt)
      requires KeyOf(r) in tasks
      modifies this`attempts, this`tasks
      ensures Tables() == SetStatus(old(Tables()), r, row)
    {
      attempts := attempts[r := row];
      tasks := tasks[KeyOf(r) := tasks[KeyOf(r)].(status := row.status)];
    }

    method Settle(r: Request, units: Option<int>) returns (res: Result<(), Error>)
      requires Valid()
      modifies this
      ensures (res, Tables()) == SettleOp(setup, old(Tables()), r, units)
      ensures Valid()
    {
      SettleKeeps(setup, Tables(), r, units);
      if r !in attempts {
        return Failure(NotFound);
      }
      assert ChargeOk(setup, Tables(), r);
      var prior := attempts[r].charge;
      if units.None? {
        if prior.fee == Active {
          attempts := attempts[r := attempts[r].(charge := prior.(fee := UnknownFee))];
        }
        return Success(());
      }
      var u := units.value;
      if !(0 <= u <= prior.worst) {
        return Failure(Invalid);
      }
      if prior.fee == Settled {
        if prior.settled != u {
          return Failure(RequestConflict);
        }
        return Success(());
      }
      Bill(r, u);
      return Success(());
    }

    /** The writes of a settlement. */
    method Bill(r: Request, u: int)
      requires r in attempts && attempts[r].charge.route in routeTotals && attempts[r].charge.fee != Settled
      requires 0 <= u <= attempts[r].charge.worst
      modifies this
      ensures Tables() == SettleOp(setup, old(Tables()), r, Some(u)).1
    {
      var prior := attempts[r].charge;
      var delta := u - prior.worst;
      attempts := attempts[r := attempts[r].(charge := prior.(fee := Settled, settled := u))];
      used, costRevision := used + delta, costRevision + 1;
      routeTotals := routeTotals[prior.route := routeTotals[prior.route] + delta];
      if forecast.Some? {
        forecast := Some(Forecast(costRevision, forecast.value.remaining, Affordable(setup, used, forecast.value.remaining)));
      }
    }

    method RecordForecast(remaining: int) returns (res: Result<Forecast, Error>)
      requires Valid()
      modifies this
      ensures (res, Tables()) == ForecastOp(setup, old(Tables()), remaining)
      ensures Valid()
    {
      ForecastKeeps(setup, Tables(), remaining);
      if !(0 <= remaining <= MAX_INTEGER) || used + remaining + setup.auth.cleanupUnits > MAX_INTEGER {
        return Failure(Invalid);
      }
      var value := Forecast(costRevision, remaining, Affordable(setup, used, remaining));
      forecast := Some(value);
      return Success(value);
    }

    method FutureNeed(k: TaskKey) returns (n: int)
      requires Shaped(setup, Tables()) && k in setup.plan
      ensures n == Need(setup, Tables())[k]
    {
      var doc := setup.plan[k];
      if tasks[k].accepted.Some? {
        return 0;
      }
      var count := 0;
      if doc.frames > 0 {
        var round := rounds[ShotKey(k.execution, doc.shot)];
        count := setup.auth.maxRepairRounds - round + 1;
        var request := tasks[k].request;
        if request.Some? && request.value in attempts {
          var slot := attempts[request.value].charge.slot;
          if slot.Some? && slot.value.round == round {
            count := count - 1;
          }
        }
      } else {
        count := MAX_ATTEMPTS - |set r | r in attempts && KeyOf(r) == k|;
      }
      return AtLeastZero(count) * doc.worst;
    }

    /** `remaining_forecast`: add up the future attempts of every unaccepted task, giving up once over the budget. */
    method RemainingForecast() returns (res: Result<int, Error>)
      requires PlanOk(setup) && Shaped(setup, Tables())
      ensures res == if Unreserved(setup, Tables()) > setup.auth.totalUnits then Failure(ForecastUnaffordable)
                     else Success(Unreserved(setup, Tables()))
    {
      ghost var whole := Unreserved(setup, Tables());
      ghost var open := Need(setup, Tables());
      var total := 0;
      var rest := setup.plan.Keys;
      while rest != {}
        invariant open.Keys == rest <= setup.plan.Keys
        invariant forall k :: k in rest ==> open[k] == Need(setup, Tables())[k]
        invariant total + SumBy(open, Self()) == whole && total <= setup.auth.totalUnits
        decreases rest
      {
        var k :| k in rest;
        var n := FutureNeed(k);
        Extract(open, k, Self());
        open := open - {k};
        rest := rest - {k};
        total := total + n;
        if total > setup.auth.totalUnits {
          RestNonNegative(setup, Tables(), open);
          return Failure(ForecastUnaffordable);
        }
      }
      return Success(total);
    }

    method AcceptResult(r: Request, epoch: int, file: Id, evidence: Evidence, receipts: Receipts) returns (res: Result<(), Error>)
      requires Valid()
      modifies this
      ensures (res, Tables()) == AcceptOp(setup, old(Tables()), r, epoch, file, evidence, receipts)
      ensures Valid()
    {
      AcceptKeeps(setup, Tables(), r, epoch, file, evidence, receipts);
      if !evidence.isSealed || evidence.verdict != Accept || file != evidence.artifact {
        return Failure(EvidenceRequired);
      }
      var refused := CheckFence(r, epoch);
      if refused.Some? {
        return Failure(refused.value);
      }
      if !ReceiptsOk(r, receipts, evidence) || evidence.policy != setup.policy[r.execution] || attempts[r].status !in {Produced, Verified} {
        return Failure(EvidenceRequired);
      }
      WriteAcceptance(KeyOf(r), evidence);
      attempts := attempts[r := attempts[r].(status := MachineAccepted, evidence := Some(evidence))];
      return Success(());
    }

    /** The three task updates of an acceptance: the row, its children's counters, the shot's waiting repairs. */
    method WriteAcceptance(k: TaskKey, evidence: Evidence)
      requires tasks.Keys == setup.plan.Keys && k in setup.plan
      modifies this`tasks
      ensures tasks == map c | c in old(tasks) :: AcceptedRow(setup, old(Tables()), k, evidence, c)
    {
      tasks := tasks[k := tasks[k].(status := MachineAccepted, accepted := Some(evidence))];
      tasks := map c | c in tasks ::
        if c in ChildrenOf(setup, k) then tasks[c].(remaining := tasks[c].remaining - 1) else tasks[c];
      tasks := map c | c in tasks ::
        if c.execution == k.execution && setup.plan[c].shot == setup.plan[k].shot && tasks[c].status == RepairWait
        then tasks[c].(status := Rejected) else tasks[c];
    }

    method RejectResult(r: Request, epoch: int, evidence: Evidence, file: Option<Id>) returns (res: Result<(), Error>)
      requires Valid()
      modifies this
      ensures (res, Tables()) == RejectOp(old(Tables()), r, epoch, evidence, file)
      ensures Valid()
    {
      RejectKeeps(setup, Tables(), r, epoch, evidence, file);
      if file.Some? && file.value != evidence.artifact {
        return Failure(EvidenceRequired);
      }
      var refused := CheckFence(r, epoch);
      if refused.Some? {
        return Failure(refused.value);
      }
      if attempts[r].status != Produced || evidence.verdict != Reject || !evidence.isSealed {
        return Failure(EvidenceRequired);
      }
      WriteStatus(r, attempts[r].(status := Rejected, evidence := Some(evidence)));
      return Success(());
    }

    method MarkCancel(r: Request, epoch: int, mark: CancelState) returns (res: Result<(), Error>)
      requires Valid()
      modifies this
      ensures (res, Tables()) == CancelMarkOp(old(Tables()), r, epoch, mark)
      ensures Valid()
    {
      CancelMarkKeeps(setup, Tables(), r, epoch, mark);
      var refused := CheckFence(r, epoch);
      if refused.Some? {
        return Failure(refused.value);
      }
      attempts := attempts[r := attempts[r].(cancel := Some(mark))];
      return Success(());
    }

    method CancelObserved(r: Request, epoch: int, result: CancelState) returns (res: Result<(), Error>)
      requires Valid()
      modifies this
      ensures (res, Tables()) == CancelObservedOp(setup, old(Tables()), r, epoch, result)
      ensures Valid()
    {
      res := MarkCancel(r, epoch, result);
      if res.Failure? || result != Stopped {
        return;
      }
      res := Observe(r, epoch, Cancelled);
      if res.Failure? {
        return;
      }
      res := Settle(r, None);
    }

    /** The runner's direct update after a refused repair claim. */
    method WaitForRepair(k: TaskKey)
      requires Valid() && (k in tasks ==> tasks[k].accepted.None?)
      modifies this
      ensures Tables() == RepairWaitOp(old(Tables()), k) && Valid()
    {
      RepairWaitKeeps(setup, Tables(), k);
      if k in tasks {
        tasks := tasks[k := tasks[k].(status := RepairWait)];
      }
    }

    /** The runner's first transaction: waiting repairs may try again. */
    method Wake(execution: Id)
      requires Valid()
      modifies this
      ensures Tables() == WakeRepairs(old(Tables()), execution) && Valid()
    {
      WakeKeeps(setup, Tables(), execution);
      tasks := map k | k in tasks ::
        if k.execution == execution && tasks[k].status == RepairWait then tasks[k].(status := Rejected) else tasks[k];
    }

    method SetPaused(execution: Id, enabled: bool) returns (res: Result<(), Error>)
      requires Valid()
      modifies this
      ensures (res, Tables()) == PauseOp(old(Tables()), execution, enabled)
      ensures Valid()
    {
      PauseKeeps(setup, Tables(), execution, enabled);
      if execution !in paused {
        return Failure(NotFound);
      }
      paused := paused[execution := enabled];
      return Success(());
    }

    method Revoke()
      requires Valid()
      modifies this
      ensures Tables() == RevokeOp(old(Tables())) && Valid()
    {
      RevokeKeeps(setup, Tables());
      revoked := true;
    }

    // -------------------------------------------------------------------------------------------
    // invalidate
    // -------------------------------------------------------------------------------------------

    /** Breadth-first over the dependency rows, without looking at any task's state. */
    method Affected(changed: seq<TaskKey>) returns (affected: set<TaskKey>)
      requires forall k :: k in changed ==> k in setup.plan
      ensures forall k :: k in affected <==> Reaches(Children(setup), Elements(changed), k)
      ensures DownwardClosed(setup, affected) && affected <= setup.plan.Keys
    {
      var S := setup;
      affected := {};
      var pending := changed;
      SweepStart(S, changed);
      while pending != []
        invariant Sweep(S, Elements(changed), affected, pending)
        decreases |S.plan.Keys - affected|, |pending|
      {
        var task := pending[0];
        if task in affected {
          SweepSkip(S, Elements(changed), affected, pending);
          pending := pending[1..];
        } else {
          var children := Listed(ChildrenOf(S, task));
          SweepAdd(S, Elements(changed), affected, pending, children);
          affected := affected + {task};
          pending := pending[1..] + children;
        }
      }
      SweepDone(S, Elements(changed), affected);
    }

    /** Inside the transaction: reopen task by task, giving up on unfinished work, then recount the closure. */
    method Invalidate(changed: seq<TaskKey>) returns (res: Result<set<TaskKey>, Error>)
      requires Valid()
      modifies this
      ensures Valid()
      ensures res.Failure? ==> Tables() == old(Tables())
      ensures (exists k :: k in changed && k !in setup.plan) ==> res == Failure(NotFound)
      ensures res.Success? ==>
        && (forall k :: k in res.value <==> Reaches(Children(setup), Elements(changed), k))
        && InvalidateOp(setup, old(Tables()), res.value) == (Success(()), Tables())
      ensures res.Failure? && res.error != NotFound ==>
        res.error == ReconcileRequired && exists k :: Reaches(Children(setup), Elements(changed), k) && Unfinished(Tables(), k)
    {
      for i := 0 to |changed|
        invariant forall j :: 0 <= j < i ==> changed[j] in setup.plan
      {
        if changed[i] !in setup.plan {
          return Failure(NotFound);
        }
      }
      var affected := Affected(changed);
      InvalidateKeeps(setup, Tables(), affected);
      var blocked := exists k :: k in affected && Unfinished(Tables(), k);
      if blocked {
        return Failure(ReconcileRequired);
      }
      LinksOwnTask(setup, Tables());
      WriteInvalidation(affected);
      return Success(affected);
    }

    method WriteInvalidation(affected: set<TaskKey>)
      requires Shaped(setup, Tables()) && affected <= setup.plan.Keys
      requires forall k :: k in affected && tasks[k].request.Some? ==> KeyOf(tasks[k].request.value) == k
      modifies this
      ensures Tables() == Invalidated(setup, old(Tables()), affected)
    {
      ghost var before := Tables();
      Reopen(affected);
      assert tasks == Reopened(before, affected);
      Recount(affected);
      assert attempts == Invalidated(setup, before, affected).attempts;
      assert tasks == Invalidated(setup, before, affected).tasks;
      forecast := None;
    }

    /** Mark the finished attempts of the closure and reopen its tasks, one at a time. */
    method Reopen(affected: set<TaskKey>)
      requires affected <= tasks.Keys
      requires forall k :: k in affected && tasks[k].request.Some? ==> KeyOf(tasks[k].request.value) == k
      modifies this`tasks, this`attempts
      ensures tasks == map k | k in old(tasks) :: ReopenedRow(old(tasks), affected, k)
      ensures attempts == map r | r in old(attempts) :: MarkedRow(old(tasks), old(attempts), affected, r)
    {
      ghost var tasks0, attempts0 := tasks, attempts;
      var pending := affected;
      while pending != {}
        invariant pending <= affected && tasks.Keys == tasks0.Keys && attempts.Keys == attempts0.Keys
        invariant forall k :: k in tasks ==> tasks[k] == ReopenedRow(tasks0, affected - pending, k)
        invariant forall r :: r in attempts ==> attempts[r] == MarkedRow(tasks0, attempts0, affected - pending, r)
        decreases pending
      {
        var k :| k in pending;
        ReopenOne(k);
        pending := pending - {k};
      }
    }

    method ReopenOne(k: TaskKey)
      requires k in tasks
      modifies this`tasks, this`attempts
      ensures tasks == old(tasks)[k := old(tasks)[k].(accepted := None, status := Ready, epoch := old(tasks)[k].epoch + 1)]
      ensures var request := old(tasks)[k].request;
        attempts == if request.Some? && request.value in old(attempts)
                    then old(attempts)[request.value := old(attempts)[request.value].(invalidated := true)] else old(attempts)
    {
      var request := tasks[k].request;
      if request.Some? && request.value in attempts {
        attempts := attempts[request.value := attempts[request.value].(invalidated := true)];
      }
      tasks := tasks[k := tasks[k].(accepted := None, status := Ready, epoch := tasks[k].epoch + 1)];
    }

    /** Recount the unaccepted parents of every task of the closure. */
    method Recount(affected: set<TaskKey>)
      requires tasks.Keys == setup.plan.Keys && affected <= setup.plan.Keys
      modifies this`tasks
      ensures tasks == map k | k in old(tasks) ::
          if k in affected then old(tasks)[k].(remaining := |UnacceptedParents(setup, old(tasks), k)|) else old(tasks)[k]
    {
      ghost var before := tasks;
      var pending := affected;
      while pending != {}
        invariant pending <= affected && tasks.Keys == before.Keys
        invariant forall k :: k in tasks ==>
          tasks[k] == if k in affected - pending then before[k].(remaining := |UnacceptedParents(setup, before, k)|) else before[k]
        decreases pending
      {
        var k :| k in pending;
        assert UnacceptedParents(setup, tasks, k) == UnacceptedParents(setup, before, k);
        tasks := tasks[k := tasks[k].(remaining := |UnacceptedParents(setup, tasks, k)|)];
        pending := pending - {k};
      }
    }

    // -------------------------------------------------------------------------------------------
    // Selection and self-check
    // -------------------------------------------------------------------------------------------

    /** The first row, by ordinal, of one execution satisfying a test on its status, after a given ordinal. */
    method FirstRow(execution: Id, statuses: set<Status>, after: int, needReady: bool) returns (r: Option<TaskKey>)
      requires tasks.Keys == setup.plan.Keys
      ensures r.None? ==> forall k :: !RowMatches(setup, tasks, execution, statuses, after, needReady, k)
      ensures r.Some? ==>
        && RowMatches(setup, tasks, execution, statuses, after, needReady, r.value)
        && forall k :: RowMatches(setup, tasks, execution, statuses, after, needReady, k) ==> setup.plan[r.value].ordinal <= setup.plan[k].ordinal
    {
      r := None;
      var pending := tasks.Keys;
      while pending != {}
        invariant pending <= tasks.Keys
        invariant r.None? ==> forall k :: k in tasks.Keys - pending ==> !RowMatches(setup, tasks, execution, statuses, after, needReady, k)
        invariant r.Some? ==>
          && RowMatches(setup, tasks, execution, statuses, after, needReady, r.value)
          && forall k :: k in tasks.Keys - pending && RowMatches(setup, tasks, execution, statuses, after, needReady, k) ==>
               setup.plan[r.value].ordinal <= setup.plan[k].ordinal
        decreases pending
      {
        var k :| k in pending;
        pending := pending - {k};
        if RowMatches(setup, tasks, execution, statuses, after, needReady, k)
           && (r.None? || setup.plan[k].ordinal < setup.plan[r.value].ordinal)
        {
          r := Some(k);
        }
      }
    }

    /** `next_ready`: one index probe per claimable status, then the smallest ordinal of the candidates. */
    method NextReady(execution: Id) returns (r: Option<TaskKey>)
      requires Valid()
      ensures r.None? ==> forall k :: !ReadyRow(setup, tasks, execution, k)
      ensures r.Some? ==>
        && ReadyRow(setup, tasks, execution, r.value)
        && forall k :: ReadyRow(setup, tasks, execution, k) ==> setup.plan[r.value].ordinal <= setup.plan[k].ordinal
    {
      OrdinalsCount(setup);
      var order := [Ready, Failed, Cancelled, Rejected];
      r := None;
      for i := 0 to |order|
        invariant r.None? ==> forall k :: ReadyRow(setup, tasks, execution, k) ==> tasks[k].status !in order[..i]
        invariant r.Some? ==>
          && ReadyRow(setup, tasks, execution, r.value)
          && forall k :: ReadyRow(setup, tasks, execution, k) && tasks[k].status in order[..i] ==>
               setup.plan[r.value].ordinal <= setup.plan[k].ordinal
      {
        var row := FirstRow(execution, {order[i]}, -1, true);
        assert order[..i + 1] == order[..i] + [order[i]];
        if row.None? {
          forall k | ReadyRow(setup, tasks, execution, k) ensures tasks[k].status != order[i] {
            assert !RowMatches(setup, tasks, execution, {order[i]}, -1, true, k);
          }
        } else {
          forall k | ReadyRow(setup, tasks, execution, k) && tasks[k].status == order[i]
            ensures setup.plan[row.value].ordinal <= setup.plan[k].ordinal
          {
            assert RowMatches(setup, tasks, execution, {order[i]}, -1, true, k);
          }
          if r.None? || setup.plan[row.value].ordinal < setup.plan[r.value].ordinal {
            r := row;
          }
        }
      }
      forall k | ReadyRow(setup, tasks, execution, k) ensures tasks[k].status in order[..|order|] {
        assert order[0] in order && order[1] in order && order[2] in order && order[3] in order;
      }
    }

    /** The sums of `check`. */
    method CheckMoney() returns (ok: bool)
      ensures ok <==> MoneyPasses(setup, Tables())
    {
      var sum := Total(attempts, CostOf());
      var made := Total(attempts, FramesOf());
      if used != sum || frames != made {
        return false;
      }
      var routes := routeTotals.Keys;
      while routes != {}
        invariant routes <= routeTotals.Keys
        invariant forall route :: route in routeTotals.Keys - routes ==> SumBy(attempts, CostOn(route)) == routeTotals[route]
        decreases routes
      {
        var route :| route in routes;
        var actual := Total(attempts, CostOn(route));
        if actual != routeTotals[route] {
          return false;
        }
        routes := routes - {route};
      }
      return used + setup.auth.cleanupUnits <= setup.auth.totalUnits && frames <= setup.auth.maxFrames;
    }

    method CheckRow(disk: map<TaskKey, Id>, documents: map<TaskKey, Document>, k: TaskKey) returns (ok: bool)
      requires k in tasks && k in setup.plan && k in documents
      ensures ok <==> RowPasses(setup, Tables(), disk, documents, k)
    {
      var t := tasks[k];
      if documents[k].task != k.task || documents[k].shot != setup.plan[k].shot || t.remaining != |UnacceptedParents(setup, tasks, k)| {
        return false;
      }
      if t.accepted.Some? {
        if t.status != MachineAccepted || t.request.None? || t.request.value !in attempts || !Accepting(setup, k, t.accepted.value) {
          return false;
        }
        var attempt := attempts[t.request.value];
        return attempt.evidence == t.accepted && !attempt.invalidated && k in disk && disk[k] == t.accepted.value.artifact;
      }
      return true;
    }

    /** `check`: recompute every counter from the rows, and compare documents with rows and accepted artifacts with files. */
    method Check(disk: map<TaskKey, Id>, documents: map<TaskKey, Document>) returns (ok: bool)
      requires Shaped(setup, Tables())
      ensures ok <==> CheckPasses(setup, Tables(), disk, documents)
    {
      var passed := CheckMoney();
      if !passed || |documents| != |tasks| {
        return false;
      }
      var rows := tasks.Keys * documents.Keys;
      while rows != {}
        invariant rows <= tasks.Keys * documents.Keys
        invariant forall k :: k in tasks.Keys - rows ==> RowPasses(setup, Tables(), disk, documents, k)
        decreases rows
      {
        var k :| k in rows;
        passed := CheckRow(disk, documents, k);
        if !passed {
          return false;
        }
        rows := rows - {k};
      }
      return true;
    }
  }

  /** State of the sweep of `invalidate`: what is marked or pending is reachable, and nothing reachable is lost. */
  ghost predicate Sweep(S: Setup, from: set<TaskKey>, affected: set<TaskKey>, pending: seq<TaskKey>) {
    && affected <= S.plan.Keys && from <= affected + Elements(pending)
    && (forall k :: k in pending ==> k in S.plan)
    && (forall k :: k in affected || k in pending ==> Reaches(Children(S), from, k))
    && (forall k, c :: k in affected && c in ChildrenOf(S, k) ==> c in affected || c in pending)
  }

  lemma SweepStart(S: Setup, changed: seq<TaskKey>)
    requires forall k :: k in changed ==> k in S.plan
    ensures Sweep(S, Elements(changed), {}, changed)
  {
    forall k | k in changed ensures Reaches(Children(S), Elements(changed), k) {
      ReachesSelf(Children(S), Elements(changed), k);
    }
  }

  lemma SweepSkip(S: Setup, from: set<TaskKey>, affected: set<TaskKey>, pending: seq<TaskKey>)
    requires Sweep(S, from, affected, pending) && pending != [] && pending[0] in affected
    ensures Sweep(S, from, affected, pending[1..])
  {
    assert forall k :: k in pending <==> k == pending[0] || k in pending[1..];
  }

  lemma SweepAdd(S: Setup, from: set<TaskKey>, affected: set<TaskKey>, pending: seq<TaskKey>, children: seq<TaskKey>)
    requires Sweep(S, from, affected, pending) && pending != [] && pending[0] !in affected
    requires forall c :: c in children <==> c in ChildrenOf(S, pending[0])
    ensures Sweep(S, from, affected + {pending[0]}, pending[1..] + children)
    ensures |S.plan.Keys - (affected + {pending[0]})| < |S.plan.Keys - affected|
  {
    var task, rest := pending[0], pending[1..];
    assert task in pending;
    assert forall k :: k in pending <==> k == task || k in rest;
    assert S.plan.Keys - affected == (S.plan.Keys - (affected + {task})) + {task};
    forall c | c in children ensures Reaches(Children(S), from, c) {
      assert Step(Children(S), task, c);
      ReachesChild(Children(S), from, task, c);
    }
  }

  lemma SweepDone(S: Setup, from: set<TaskKey>, affected: set<TaskKey>)
    requires Sweep(S, from, affected, [])
    ensures forall k :: k in affected <==> Reaches(Children(S), from, k)
    ensures DownwardClosed(S, affected)
  {
    ClosureIsReach(Children(S), from, affected);
  }

  lemma OrdinalsCount(S: Setup)
    requires PlanOk(S)
    ensures forall k :: k in S.plan ==> S.plan[k].ordinal >= 0
  {
    forall k | k in S.plan ensures S.plan[k].ordinal >= 0 {
      assert DocOk(S, k);
    }
  }

  lemma LinksOwnTask(S: Setup, db: Db)
    requires Inv(S, db)
    ensures forall k :: k in db.tasks && db.tasks[k].request.Some? ==> KeyOf(db.tasks[k].request.value) == k
  {
    forall k | k in db.tasks && db.tasks[k].request.Some? ensures KeyOf(db.tasks[k].request.value) == k {
      assert TaskOk(S, db, k);
    }
  }

  ghost function ReopenedRow(tasks: map<TaskKey, Task>, affected: set<TaskKey>, k: TaskKey): Task
    requires k in tasks
  {
    if k in affected then tasks[k].(accepted := None, status := Ready, epoch := tasks[k].epoch + 1) else tasks[k]
  }

  ghost function MarkedRow(tasks: map<TaskKey, Task>, attempts: map<Request, Attempt>, affected: set<TaskKey>, r: Request): Attempt
    requires r in attempts
  {
    if KeyOf(r) in affected && KeyOf(r) in tasks && tasks[KeyOf(r)].request == Some(r)
    then attempts[r].(invalidated := true) else attempts[r]
  }

  /** The rows of a query, in some order. */
  method Listed<T(==)>(s: set<T>) returns (r: seq<T>)
    ensures forall x :: x in r <==> x in s
  {
    r := [];
    var rest := s;
    while rest != {}
      invariant rest <= s && forall x :: x in r <==> x in s - rest
      decreases rest
    {
      var x :| x in rest;
      r := r + [x];
      rest := rest - {x};
    }
  }

  /** The dependency rows as a graph from parents to children. */
  ghost function Children(S: Setup): map<TaskKey, set<TaskKey>> {
    map k | k in S.plan :: ChildrenOf(S, k)
  }

  predicate RowMatches(S: Setup, tasks: map<TaskKey, Task>, execution: Id, statuses: set<Status>, after: int, needReady: bool, k: TaskKey)
  {
    k in tasks && k in S.plan && k.execution == execution && tasks[k].status in statuses && S.plan[k].ordinal > after
    && (needReady ==> tasks[k].remaining == 0)
  }

  predicate ReadyRow(S: Setup, tasks: map<TaskKey, Task>, execution: Id, k: TaskKey) {
    k in tasks && k in S.plan && k.execution == execution && Claimable(tasks[k].status) && tasks[k].remaining == 0
  }
}
