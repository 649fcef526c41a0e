/**
 One task of the JSON batch of src/fsf/production/runner.py: workflow, ledger and provider are three separate things, and
 the process may crash after any durable step. Intent, reservation and send come in that order, so that every request
 the provider ever got is reserved and past "reserved", and none was given twice.
 */
module BatchRunner {
  import opened Wrappers
  import opened Ids
  import opened Sums
  import W = Workflow
  import opened LedgerBook
  import opened Ledger
  import S = StoreState

  /** One task of the plan. */
  datatype Doc = Doc(route: Id, worst: int, frames: int, shot: Id, segment: Id, binding: Id, essential: bool)

  datatype Ending = Progressed | Waiting | RepairWait | UnknownResult | QualityUnknown | Raised | Crashed

  // ---------------------------------------------------------------------------------------------
  // What links the three
  // ---------------------------------------------------------------------------------------------

  function RequestOf(execution: Id, k: Id, epoch: int): S.Request {
    S.Request(execution, k, epoch)
  }

  /** The workflow has this request's attempt, and it is past its reserved state. */
  ghost predicate Past(tasks: map<Id, W.Item>, r: S.Request) {
    r.task in tasks && exists i :: 0 <= i < |tasks[r.task].attempts| && PastAt(tasks[r.task].attempts[i], r.epoch)
  }

  ghost predicate PastAt(a: W.Attempt, epoch: int) {
    a.epoch == epoch && a.status != W.Reserved
  }

  /** Whatever left its reserved state has its worst case in the ledger. */
  ghost predicate Backed(execution: Id, k: Id, item: W.Item, reservations: map<S.Request, Entry>) {
    forall i :: 0 <= i < |item.attempts| && item.attempts[i].status != W.Reserved ==>
      RequestOf(execution, k, item.attempts[i].epoch) in reservations
  }

  ghost predicate Linked(execution: Id, tasks: map<Id, W.Item>, reservations: map<S.Request, Entry>, submitted: seq<S.Request>) {
    && (forall i, j :: 0 <= i < j < |submitted| ==> submitted[i] != submitted[j])
    && (forall r {:trigger Past(tasks, r)} :: r in submitted ==> Past(tasks, r) && r.execution == execution)
    && (forall k {:trigger Backed(execution, k, tasks[k], reservations)} :: k in tasks ==> Backed(execution, k, tasks[k], reservations))
  }

  /** So everything the provider was given is reserved. */
  lemma SubmittedIsReserved(execution: Id, tasks: map<Id, W.Item>, reservations: map<S.Request, Entry>, submitted: seq<S.Request>, r: S.Request)
    requires Linked(execution, tasks, reservations, submitted) && r in submitted
    ensures r in reservations
  {
    assert Past(tasks, r);
    assert Backed(execution, r.task, tasks[r.task], reservations);
  }

  /** What the provider was given and nobody has billed yet. */
  ghost function Unbilled(b: Book, submitted: seq<S.Request>): map<S.Request, Entry> {
    map r | r in b.reservations && r in submitted && b.reservations[r].charge.fee != S.Settled :: b.reservations[r]
  }

  function EntryWorst(): Entry -> int {
    (e: Entry) => e.charge.worst
  }

  /** Everything the provider was given is billed or among these, and the full worst cases of these, together, are part of what is used. */
  lemma SubmittedIsHeld(execution: Id, tasks: map<Id, W.Item>, g: Grant, b: Book, submitted: seq<S.Request>)
    requires Linked(execution, tasks, b.reservations, submitted) && BookOk(g, b)
    ensures SumBy(Unbilled(b, submitted), EntryWorst()) <= Used(b)
    ensures forall r :: r in submitted ==> r in b.reservations && (r in Unbilled(b, submitted) || b.reservations[r].charge.fee == S.Settled)
  {
    var held := Unbilled(b, submitted);
    forall r | r in submitted ensures r in b.reservations {
      SubmittedIsReserved(execution, tasks, b.reservations, submitted, r);
    }
    forall q | q in b.reservations ensures EntryCost()(b.reservations[q]) >= 0 {
      assert EntryOk(g, b, q);
    }
    Part(held, b.reservations, EntryCost());
    Carried(held, held, EntryWorst(), EntryCost());
  }

  /** An item whose attempts only move on, with what moved on reserved, keeps the link. */
  lemma ItemMoves(execution: Id, tasks: map<Id, W.Item>, reservations: map<S.Request, Entry>, submitted: seq<S.Request>, k: Id, item: W.Item)
    requires Linked(execution, tasks, reservations, submitted) && k in tasks && |tasks[k].attempts| <= |item.attempts|
    requires forall i :: 0 <= i < |tasks[k].attempts| ==>
      item.attempts[i].epoch == tasks[k].attempts[i].epoch && (tasks[k].attempts[i].status != W.Reserved ==> item.attempts[i].status != W.Reserved)
    requires Backed(execution, k, item, reservations)
    ensures Linked(execution, tasks[k := item], reservations, submitted)
  {
    var after := tasks[k := item];
    forall r | r in submitted ensures Past(after, r) && r.execution == execution {
      assert Past(tasks, r);
      var i :| 0 <= i < |tasks[r.task].attempts| && PastAt(tasks[r.task].attempts[i], r.epoch);
      assert PastAt(after[r.task].attempts[i], r.epoch);
    }
    forall j | j in after ensures Backed(execution, j, after[j], reservations) {
      assert Backed(execution, j, tasks[j], reservations);
    }
  }

  lemma MoreReserved(execution: Id, tasks: map<Id, W.Item>, before: map<S.Request, Entry>, after: map<S.Request, Entry>, submitted: seq<S.Request>)
    requires Linked(execution, tasks, before, submitted) && before.Keys <= after.Keys
    ensures Linked(execution, tasks, after, submitted)
  {
    forall j | j in tasks ensures Backed(execution, j, tasks[j], after) {
      assert Backed(execution, j, tasks[j], before);
    }
  }

  lemma ClaimLinks(execution: Id, tasks: map<Id, W.Item>, reservations: map<S.Request, Entry>, submitted: seq<S.Request>, k: Id, owner: Id, expires: real)
    requires Linked(execution, tasks, reservations, submitted) && k in tasks
    ensures Linked(execution, tasks[k := W.Claimed(tasks[k], owner, expires)], reservations, submitted)
  {
    assert Backed(execution, k, tasks[k], reservations);
    ItemMoves(execution, tasks, reservations, submitted, k, W.Claimed(tasks[k], owner, expires));
  }

  /** Recording a status never goes back to "reserved". */
  lemma RecordLinks(execution: Id, tasks: map<Id, W.Item>, reservations: map<S.Request, Entry>, submitted: seq<S.Request>,
                    k: Id, status: W.Status, evidence: Option<W.Evidence>)
    requires Linked(execution, tasks, reservations, submitted) && k in tasks && tasks[k].attempts != [] && status != W.Reserved
    requires RequestOf(execution, k, W.Last(tasks[k]).epoch) in reservations
    ensures Linked(execution, tasks[k := W.Recorded(tasks[k], status, evidence)], reservations, submitted)
  {
    assert Backed(execution, k, tasks[k], reservations);
    ItemMoves(execution, tasks, reservations, submitted, k, W.Recorded(tasks[k], status, evidence));
  }

  /** An attempt still reserved was never sent; once it is recorded as submitted it may be, once. */
  lemma FirstSend(execution: Id, tasks: map<Id, W.Item>, reservations: map<S.Request, Entry>, submitted: seq<S.Request>, k: Id)
    requires Linked(execution, tasks, reservations, submitted) && k in tasks && W.ItemOk(tasks[k])
    requires tasks[k].attempts != [] && W.Last(tasks[k]).status == W.Reserved
    ensures RequestOf(execution, k, W.Last(tasks[k]).epoch) !in submitted
  {
    var r := RequestOf(execution, k, W.Last(tasks[k]).epoch);
    forall i | 0 <= i < |tasks[k].attempts| ensures !PastAt(tasks[k].attempts[i], r.epoch) {
    }
    assert !Past(tasks, r);
  }

  lemma SentOnce(execution: Id, tasks: map<Id, W.Item>, reservations: map<S.Request, Entry>, submitted: seq<S.Request>, r: S.Request)
    requires Linked(execution, tasks, reservations, submitted) && r !in submitted && r.execution == execution && Past(tasks, r)
    ensures Linked(execution, tasks, reservations, submitted + [r])
  {
  }

  // ---------------------------------------------------------------------------------------------
  // The provider
  // ---------------------------------------------------------------------------------------------

  datatype Answer = Malformed | Reported(status: W.Status, units: Option<int>)

  datatype Opinion = Accepts | Rejects | Doubts
  datatype Checked = Checked(file: Id, evidence: W.Evidence, opinion: Opinion, policyKept: bool)

  class Provider {
    var submitted: seq<S.Request>

    constructor ()
      ensures submitted == []
    {
      submitted := [];
    }

    /** An error does not mean the request was not taken. */
    method Submit(r: S.Request) returns (ok: bool)
      modifies this
      ensures submitted == old(submitted) + [r]
    {
      submitted := submitted + [r];
      ok := *;
    }

    method Observe(r: S.Request) returns (answer: Answer) {
      answer := *;
    }

    method Verify(r: S.Request) returns (checked: Checked) {
      checked := *;
    }
  }

  /** The processes' three durable states, apart from each other and each in order, and linked. */
  ghost predicate Ready(execution: Id, flow: W.TaskFlow, ledger: BudgetLedger, provider: Provider)
    reads flow, ledger, provider
  {
    flow.Valid() && ledger.Valid() && Linked(execution, flow.tasks, ledger.reservations, provider.submitted)
  }

  // ---------------------------------------------------------------------------------------------
  // The steps of `_run_task`
  // ---------------------------------------------------------------------------------------------

  predicate Fresh(item: W.Item) {
    item.attempts == [] || W.Retryable(W.Last(item).status) || W.Last(item).invalidated
  }

  predicate LastLive(item: W.Item) {
    item.attempts != [] && !W.Finished(W.Last(item).status)
  }

  /** The repair round the task runs in: its reservation's, the shot's, or the next one once nothing else of the shot is live. */
  method RoundFor(execution: Id, plan: map<Id, Doc>, k: Id, flow: W.TaskFlow, ledger: BudgetLedger) returns (stop: Option<Ending>, round: int)
    requires k in plan && k in flow.tasks && ledger.Valid()
    modifies ledger
    ensures ledger.Valid() && ledger.reservations == old(ledger.reservations)
    ensures stop.None? ==> plan[k].shot in old(ledger.rounds)
    ensures ledger.rounds != old(ledger.rounds) ==>
      forall j :: j in plan && j in flow.tasks && j != k && plan[j].shot == plan[k].shot ==> !LastLive(flow.tasks[j])
    ensures stop.None? && Fresh(flow.tasks[k]) && round != old(ledger.rounds)[plan[k].shot] ==>
      forall j :: j in plan && j in flow.tasks && j != k && plan[j].shot == plan[k].shot ==> !LastLive(flow.tasks[j])
    ensures stop.Some? ==> stop.value in {RepairWait, Raised, Crashed}
  {
    var item, shot := flow.tasks[k], plan[k].shot;
    round := 0;
    if shot !in ledger.rounds {
      return Some(Raised), round;
    }
    round := ledger.rounds[shot];
    if item.attempts == [] || RequestOf(execution, k, W.Last(item).epoch) !in ledger.reservations {
      return None, round;
    }
    var slot := ledger.reservations[RequestOf(execution, k, W.Last(item).epoch)].charge.slot;
    if slot.None? {
      return None, round;
    }
    if !Fresh(item) {
      return None, slot.value.round;
    }
    if slot.value.round == round {
      if exists j :: j in plan && j in flow.tasks && j != k && plan[j].shot == shot && LastLive(flow.tasks[j]) {
        return Some(RepairWait), round;
      }
      var now: real := *;
      var advanced := ledger.AdvanceRepairRound(shot, round, now);
      if advanced.Denied? {
        return Some(Raised), round;
      }
      round := advanced.value;
      var crash: bool := *;
      if crash {
        return Some(Crashed), round;
      }
    }
    return None, round;
  }

  /** Forecast if one is required, then reserve; reserving the same request again is no second reservation. */
  method Fund(execution: Id, k: Id, doc: Doc, round: int, epoch: int, ledger: BudgetLedger) returns (stop: Option<Ending>)
    requires ledger.Valid()
    modifies ledger
    ensures ledger.Valid() && old(ledger.reservations.Keys) <= ledger.reservations.Keys
    ensures stop.None? ==> RequestOf(execution, k, epoch) in ledger.reservations
    ensures stop.Some? ==> stop.value in {RepairWait, Raised, Crashed}
  {
    var r, now: real, remaining: int := RequestOf(execution, k, epoch), *, *;
    if ledger.grant.money.v2 && r !in ledger.reservations {
      var status := ledger.AdmissionStatus(doc.worst, doc.essential, now);
      if status.Denied? {
        return Some(Raised);
      }
      if status.value.forecastRequired && doc.essential {
        var recorded := ledger.RecordForecast(remaining, ledger.grant.plan);
        var crash: bool := *;
        if recorded.Denied? || crash {
          return Some(if crash then Crashed else Raised);
        }
      }
    }
    var slot := if doc.frames != 0 then Some(S.Slot(doc.shot, doc.segment, round)) else None;
    var reserved := ledger.Reserve(r, Entry(S.Charge(slot, doc.route, doc.worst, 0, doc.frames, S.Active), doc.binding, doc.essential), now);
    return if reserved.Denied? then Some(Raised) else None;
  }

  /** Record a status of a reserved request. */
  method Note(execution: Id, k: Id, epoch: int, status: W.Status, evidence: Option<W.Evidence>, file: Option<Id>,
              flow: W.TaskFlow, ledger: BudgetLedger, provider: Provider) returns (ok: bool)
    requires Ready(execution, flow, ledger, provider) && RequestOf(execution, k, epoch) in ledger.reservations && status != W.Reserved
    modifies flow
    ensures Ready(execution, flow, ledger, provider)
    ensures !ok ==> flow.tasks == old(flow.tasks)
    ensures ok ==> k in old(flow.tasks) && old(flow.tasks)[k].attempts != [] && W.Last(old(flow.tasks)[k]).epoch == epoch
    ensures ok ==> flow.tasks == old(flow.tasks)[k := W.Recorded(old(flow.tasks)[k], status, evidence)]
  {
    ghost var before := flow.tasks;
    var recorded := flow.Record(k, epoch, epoch, status, evidence, file);
    if recorded.Failure? {
      return false;
    }
    RecordLinks(execution, before, ledger.reservations, provider.submitted, k, status, evidence);
    return true;
  }

  /** The bill has come, or the fee is known to be unknown. */
  predicate Told(e: Entry, units: Option<int>) {
    if units.Some? then e.charge.fee == S.Settled && e.charge.settled == units.value else e.charge.fee != S.Active
  }

  /** The bill, or the unknown fee; neither adds or removes a reservation. */
  method Bill(execution: Id, k: Id, epoch: int, units: Option<int>, flow: W.TaskFlow, ledger: BudgetLedger, provider: Provider) returns (ok: bool)
    requires Ready(execution, flow, ledger, provider)
    modifies ledger
    ensures Ready(execution, flow, ledger, provider) && ledger.reservations.Keys == old(ledger.reservations.Keys)
    ensures ok ==> RequestOf(execution, k, epoch) in ledger.reservations && Told(ledger.reservations[RequestOf(execution, k, epoch)], units)
  {
    ghost var before := ledger.reservations;
    var billed := ledger.Reconcile(RequestOf(execution, k, epoch), units);
    MoreReserved(execution, flow.tasks, before, ledger.reservations, provider.submitted);
    return billed.Granted?;
  }

  /** The send: submitted is durable before the provider is called, and a crash on either side never leads to a second call. */
  method Send(execution: Id, k: Id, epoch: int, flow: W.TaskFlow, ledger: BudgetLedger, provider: Provider) returns (stop: Option<Ending>)
    requires Ready(execution, flow, ledger, provider) && RequestOf(execution, k, epoch) in ledger.reservations
    requires k in flow.tasks && flow.tasks[k].attempts != [] && W.Last(flow.tasks[k]).status == W.Reserved && W.Last(flow.tasks[k]).epoch == epoch
    modifies flow, ledger, provider
    ensures Ready(execution, flow, ledger, provider) && ledger.reservations.Keys == old(ledger.reservations.Keys)
    ensures old(provider.submitted) <= provider.submitted <= old(provider.submitted) + [RequestOf(execution, k, epoch)]
    ensures stop.None? ==> provider.submitted == old(provider.submitted) + [RequestOf(execution, k, epoch)]
    ensures stop.None? ==> k in flow.tasks && flow.tasks[k].attempts != []
    ensures provider.submitted != old(provider.submitted) ==> ledger.grant.money.authorized
    ensures stop.Some? ==> stop.value in {Raised, Crashed}
  {
    var r, now: real, crash: bool := RequestOf(execution, k, epoch), *, *;
    if AuthorityError(ledger.grant, now).Some? {
      return Some(Raised);
    }
    assert W.TaskOk(flow.dependencies, flow.tasks, k);
    FirstSend(execution, flow.tasks, ledger.reservations, provider.submitted, k);
    ghost var before := flow.tasks;
    var ok := Note(execution, k, epoch, W.Submitted, None, None, flow, ledger, provider);
    if !ok {
      return Some(Raised);
    }
    if crash {
      return Some(Crashed);
    }
    assert PastAt(flow.tasks[k].attempts[|flow.tasks[k].attempts| - 1], epoch);
    assert Past(flow.tasks, r);
    SentOnce(execution, flow.tasks, ledger.reservations, provider.submitted, r);
    ok := provider.Submit(r);
    crash := *;
    if crash {
      return Some(Crashed);
    }
    if ok {
      return None;
    }
    ok := Note(execution, k, epoch, W.Unknown, None, None, flow, ledger, provider);
    crash := *;
    if crash {
      return Some(Crashed);
    }
    if ok {
      var _ := Bill(execution, k, epoch, None, flow, ledger, provider);
    }
    return Some(Raised);
  }

  /** Judge a produced result, verified before it is accepted. */
  method Judge(execution: Id, k: Id, epoch: int, latest: W.Status, flow: W.TaskFlow, ledger: BudgetLedger, provider: Provider) returns (r: Ending)
    requires Ready(execution, flow, ledger, provider) && RequestOf(execution, k, epoch) in ledger.reservations
    modifies flow
    ensures Ready(execution, flow, ledger, provider)
    ensures r in {Progressed, Raised, Crashed, QualityUnknown}
  {
    var checked := provider.Verify(RequestOf(execution, k, epoch));
    if !checked.policyKept {
      return Raised;
    }
    var evidence, ok, crash: bool := Some(checked.evidence), true, *;
    match checked.opinion {
      case Rejects =>
        ok := Note(execution, k, epoch, W.Rejected, evidence, None, flow, ledger, provider);
      case Doubts =>
        return QualityUnknown;
      case Accepts =>
        if latest != W.Verified {
          ok := Note(execution, k, epoch, W.Verified, evidence, Some(checked.file), flow, ledger, provider);
          crash := *;
          if crash {
            return Crashed;
          }
        }
        if ok {
          ok := Note(execution, k, epoch, W.MachineAccepted, evidence, Some(checked.file), flow, ledger, provider);
        }
    }
    crash := *;
    return if crash then Crashed else if ok then Progressed else Raised;
  }

  /** What the provider reports about a request already sent, as noted and judged; `bill` says that its fee is to be reconciled. */
  method Hear(execution: Id, k: Id, epoch: int, flow: W.TaskFlow, ledger: BudgetLedger, provider: Provider)
    returns (r: Ending, bill: bool, units: Option<int>)
    requires Ready(execution, flow, ledger, provider) && RequestOf(execution, k, epoch) in ledger.reservations
    requires k in flow.tasks && flow.tasks[k].attempts != []
    modifies flow
    ensures Ready(execution, flow, ledger, provider)
    ensures !bill ==> r in {Raised, Crashed, QualityUnknown}
    ensures r == UnknownResult ==> units.None?
  {
    var answer := provider.Observe(RequestOf(execution, k, epoch));
    if answer.Malformed? || answer.status !in {W.Running, W.Produced, W.Failed, W.Cancelled, W.Unknown} {
      return Raised, false, None;
    }
    var latest, ok := W.Last(flow.tasks[k]).status, true;
    if latest != answer.status && !(answer.status == W.Produced && latest == W.Verified) {
      ok := Note(execution, k, epoch, answer.status, None, None, flow, ledger, provider);
      var crash: bool := *;
      if !ok || crash {
        return if crash then Crashed else Raised, false, None;
      }
    }
    if answer.status == W.Produced {
      r := Judge(execution, k, epoch, latest, flow, ledger, provider);
      return r, r == Progressed, answer.units;
    }
    r := if answer.status == W.Unknown then UnknownResult else if answer.status == W.Running then Waiting else Progressed;
    return r, true, if answer.status == W.Unknown then None else answer.units;
  }

  /** Hear, then reconcile: a task that goes on, waits or is in doubt has its fee settled or known to be unknown. */
  method Learn(execution: Id, k: Id, epoch: int, flow: W.TaskFlow, ledger: BudgetLedger, provider: Provider) returns (r: Ending)
    requires Ready(execution, flow, ledger, provider) && RequestOf(execution, k, epoch) in ledger.reservations
    requires k in flow.tasks && flow.tasks[k].attempts != []
    modifies flow, ledger
    ensures Ready(execution, flow, ledger, provider)
    ensures r in {Progressed, Waiting, UnknownResult} ==> HasFee(execution, k, epoch, ledger.reservations)
  {
    var bill, units;
    r, bill, units := Hear(execution, k, epoch, flow, ledger, provider);
    if bill {
      var ok := Bill(execution, k, epoch, units, flow, ledger, provider);
      if !ok {
        return Raised;
      }
    }
  }

  /** The request's fee is no longer taken for running. */
  ghost predicate HasFee(execution: Id, k: Id, epoch: int, reservations: map<S.Request, Entry>) {
    RequestOf(execution, k, epoch) in reservations && reservations[RequestOf(execution, k, epoch)].charge.fee in {S.Settled, S.UnknownFee}
  }

  /** The intent: the last attempt's, or a new claim. */
  method Intend(execution: Id, k: Id, flow: W.TaskFlow, ledger: BudgetLedger, provider: Provider) returns (claimed: Option<int>)
    requires Ready(execution, flow, ledger, provider) && k in flow.tasks
    modifies flow
    ensures Ready(execution, flow, ledger, provider) && k in flow.tasks
    ensures claimed.Some? ==> flow.tasks[k].attempts != [] && W.Last(flow.tasks[k]).epoch == claimed.value
    ensures claimed.Some? && Fresh(old(flow.tasks)[k]) ==> W.Last(flow.tasks[k]).status == W.Reserved
    ensures !Fresh(old(flow.tasks)[k]) ==> flow.tasks == old(flow.tasks) && claimed.Some?
  {
    if !Fresh(flow.tasks[k]) {
      return Some(W.Last(flow.tasks[k]).epoch);
    }
    var owner: Id, seconds: int, now: real := *, *, *;
    ClaimLinks(execution, flow.tasks, ledger.reservations, provider.submitted, k, owner, now + seconds as real);
    var claim := flow.Claim(k, owner, seconds, now);
    return if claim.Failure? then None else Some(claim.value.epoch);
  }

  /** Round, intent and reservation, each durable before the next; `send` says whether the request was never sent. */
  method Prepare(execution: Id, plan: map<Id, Doc>, k: Id, flow: W.TaskFlow, ledger: BudgetLedger, provider: Provider)
    returns (stop: Option<Ending>, epoch: int, send: bool)
    requires Ready(execution, flow, ledger, provider) && k in plan && k in flow.tasks
    modifies flow, ledger
    ensures Ready(execution, flow, ledger, provider)
    ensures stop.None? ==>
      && k in flow.tasks && flow.tasks[k].attempts != [] && W.Last(flow.tasks[k]).epoch == epoch
      && RequestOf(execution, k, epoch) in ledger.reservations && (send <==> W.Last(flow.tasks[k]).status == W.Reserved)
    ensures stop.Some? ==> stop.value in {RepairWait, Raised, Crashed}
  {
    var doc, item := plan[k], flow.tasks[k];
    var anew := Fresh(item);
    send := anew || W.Last(item).status == W.Reserved;
    epoch := 0;
    var round := |item.attempts| + if anew then 1 else 0;
    if ledger.grant.money.v2 && doc.frames != 0 {
      stop, round := RoundFor(execution, plan, k, flow, ledger);
      if stop.Some? {
        return;
      }
    }
    var claimed := Intend(execution, k, flow, ledger, provider);
    var crash: bool := *;
    if claimed.None? || crash {
      return Some(if crash then Crashed else Raised), epoch, send;
    }
    epoch := claimed.value;
    ghost var before := ledger.reservations;
    stop := Fund(execution, k, doc, round, epoch, ledger);
    MoreReserved(execution, flow.tasks, before, ledger.reservations, provider.submitted);
    crash := *;
    if crash {
      stop := Some(Crashed);
    }
  }

  /**
   One task of a batch. Whatever happens, crashes between any two durable steps included, the three stay linked: so every
   request the provider has was given to it once and is reserved, and a run that was cut off can simply be repeated.
   */
  method RunTask(execution: Id, plan: map<Id, Doc>, k: Id, flow: W.TaskFlow, ledger: BudgetLedger, provider: Provider) returns (r: Ending)
    requires Ready(execution, flow, ledger, provider) && k in plan && k in flow.tasks
    modifies flow, ledger, provider
    ensures Ready(execution, flow, ledger, provider)
    ensures old(provider.submitted) <= provider.submitted && |provider.submitted| <= |old(provider.submitted)| + 1
    ensures provider.submitted != old(provider.submitted) ==> ledger.grant.money.authorized
    ensures r in {Progressed, Waiting, UnknownResult} ==>
      exists epoch :: && HasFee(execution, k, epoch, ledger.reservations)
                      && (provider.submitted != old(provider.submitted) ==> provider.submitted == old(provider.submitted) + [RequestOf(execution, k, epoch)])
  {
    var stop, epoch, send := Prepare(execution, plan, k, flow, ledger, provider);
    if stop.Some? {
      return stop.value;
    }
    if send {
      stop := Send(execution, k, epoch, flow, ledger, provider);
      if stop.Some? {
        return stop.value;
      }
    }
    r := Learn(execution, k, epoch, flow, ledger, provider);
  }
}
