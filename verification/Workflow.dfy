/**
 The fenced task workflow of src/fsf/production/workflow.py: leases, a transition table, and an invalidation that
 reopens a whole dependency closure or nothing. What is accepted always rests on accepted inputs.
 */
module Workflow {
  import opened Wrappers
  import opened Ids
  import opened Graph
  import opened Dependencies

  datatype Status = Reserved | Submitted | Running | Unknown | Produced | Verified | Rejected | Failed | Cancelled | MachineAccepted

  /** `wellFormed`: a report with its three digests; `isSealed`: its own digest matches. */
  datatype Evidence = Evidence(wellFormed: bool, isSealed: bool, accepts: bool, artifact: Id, report: Id)

  /** A request id is the digest of binding, task and epoch; within one workflow the epoch tells requests of a task apart. */
  datatype Attempt = Attempt(epoch: int, owner: Id, expires: real, status: Status, evidence: Option<Evidence>, invalidated: bool)

  datatype Item = Item(epoch: int, attempts: seq<Attempt>, accepted: Option<Evidence>)

  datatype Error =
    | NotFound | NotReady | ReconcileRequired | LeaseHeld | AttemptsExceeded | Fenced | StateConflict | EvidenceRequired | Invalid

  function Allowed(s: Status): set<Status> {
    match s
    case Reserved => {Submitted, Unknown, Failed}
    case Submitted => {Running, Produced, Unknown, Failed, Cancelled}
    case Running => {Produced, Unknown, Failed, Cancelled}
    case Unknown => {Submitted, Running, Produced, Failed, Cancelled}
    case Produced => {Verified, Rejected}
    case Verified => {MachineAccepted, Rejected}
    case _ => {}
  }

  predicate Retryable(s: Status) {
    s in {Rejected, Failed, Cancelled}
  }

  predicate Finished(s: Status) {
    Retryable(s) || s == MachineAccepted
  }

  function Last(item: Item): Attempt
    requires item.attempts != []
  {
    item.attempts[|item.attempts| - 1]
  }

  // ---------------------------------------------------------------------------------------------
  // The operations on one state
  // ---------------------------------------------------------------------------------------------

  function ClaimError(dependencies: map<Id, set<Id>>, tasks: map<Id, Item>, paused: bool, k: Id, now: real): Option<Error> {
    if k !in tasks || k !in dependencies then Some(NotFound)
    else if paused || tasks[k].accepted.Some? || exists p :: p in dependencies[k] && !(p in tasks && tasks[p].accepted.Some?)
      then Some(NotReady)
    else if tasks[k].attempts != [] && !Retryable(Last(tasks[k]).status) && !Last(tasks[k]).invalidated then
      Some(if Last(tasks[k]).expires <= now then ReconcileRequired else LeaseHeld)
    else if |tasks[k].attempts| >= 3 then Some(AttemptsExceeded)
    else None
  }

  function Claimed(item: Item, owner: Id, expires: real): Item {
    item.(epoch := item.epoch + 1,
          attempts := item.attempts + [Attempt(item.epoch + 1, owner, expires, Reserved, None, false)])
  }

  /** `request` is the epoch inside the caller's request id; `file` is the digest of the artifact, if one was named. */
  function RecordError(tasks: map<Id, Item>, k: Id, epoch: int, request: int, status: Status, evidence: Option<Evidence>, file: Option<Id>)
    : Option<Error>
  {
    if k !in tasks || tasks[k].attempts == [] then Some(NotFound)
    else if epoch != tasks[k].epoch || request != Last(tasks[k]).epoch then Some(Fenced)
    else if status !in Allowed(Last(tasks[k]).status) then Some(StateConflict)
    else if status in {Verified, MachineAccepted} && !(evidence.Some? && file.Some? && Good(evidence.value, file.value)) then Some(EvidenceRequired)
    else if status == MachineAccepted && evidence != Last(tasks[k]).evidence then Some(EvidenceRequired)
    else None
  }

  predicate Good(e: Evidence, file: Id) {
    e.wellFormed && e.isSealed && e.accepts && file == e.artifact
  }

  function Recorded(item: Item, status: Status, evidence: Option<Evidence>): Item
    requires item.attempts != []
  {
    var a := Last(item).(status := status, evidence := if evidence.Some? then evidence else Last(item).evidence);
    item.(attempts := item.attempts[|item.attempts| - 1 := a],
          accepted := if status == MachineAccepted then evidence else item.accepted)
  }

  function Reopened(item: Item): Item {
    item.(epoch := item.epoch + 1, accepted := None,
          attempts := if item.attempts == [] then [] else item.attempts[|item.attempts| - 1 := Last(item).(invalidated := true)])
  }

  predicate Busy(item: Item) {
    item.attempts != [] && !Finished(Last(item).status)
  }

  function Invalidated(tasks: map<Id, Item>, affected: set<Id>): map<Id, Item> {
    map k | k in tasks :: if k in affected then Reopened(tasks[k]) else tasks[k]
  }

  // ---------------------------------------------------------------------------------------------
  // What they keep
  // ---------------------------------------------------------------------------------------------

  ghost predicate InputsAccepted(dependencies: map<Id, set<Id>>, tasks: map<Id, Item>, k: Id) {
    k in dependencies ==> forall p :: p in dependencies[k] ==> p in tasks && tasks[p].accepted.Some?
  }

  /** Attempts are in rising epochs, only the last can be unfinished, and an accepted result is the last attempt's own, seen twice. */
  ghost predicate ItemOk(item: Item) {
    && |item.attempts| <= 3
    && (forall i :: 0 <= i < |item.attempts| ==> 1 <= item.attempts[i].epoch <= item.epoch)
    && (forall i, j :: 0 <= i < j < |item.attempts| ==> item.attempts[i].epoch < item.attempts[j].epoch)
    && (forall i :: 0 <= i < |item.attempts| - 1 ==> Finished(item.attempts[i].status))
    && (item.attempts != [] ==>
          && (!Finished(Last(item).status) ==> Last(item).epoch == item.epoch && !Last(item).invalidated && item.accepted.None?)
          && (Last(item).status == Verified ==> Last(item).evidence.Some? && Last(item).evidence.value.accepts)
          && (Last(item).status == MachineAccepted && !Last(item).invalidated ==> item.accepted.Some?))
    && (item.accepted.Some? ==>
          && item.attempts != [] && Last(item).status == MachineAccepted && !Last(item).invalidated && Last(item).epoch == item.epoch
          && Last(item).evidence == item.accepted && item.accepted.value.accepts && item.accepted.value.isSealed)
  }

  ghost predicate TaskOk(dependencies: map<Id, set<Id>>, tasks: map<Id, Item>, k: Id)
    requires k in tasks
  {
    ItemOk(tasks[k]) && (tasks[k].accepted.Some? || Busy(tasks[k]) ==> InputsAccepted(dependencies, tasks, k))
  }

  ghost predicate StateOk(dependencies: map<Id, set<Id>>, tasks: map<Id, Item>) {
    && tasks.Keys == dependencies.Keys && Declared(dependencies) && !HasCycle(ChildrenOf(dependencies))
    && forall k {:trigger TaskOk(dependencies, tasks, k)} :: k in tasks ==> TaskOk(dependencies, tasks, k)
  }

  lemma ClaimedOk(item: Item, owner: Id, expires: real)
    requires ItemOk(item) && item.accepted.None? && |item.attempts| < 3
    requires item.attempts != [] ==> Finished(Last(item).status) && 1 <= Last(item).epoch
    requires item.epoch >= 0
    ensures ItemOk(Claimed(item, owner, expires)) && Busy(Claimed(item, owner, expires))
  {
  }

  lemma RecordedOk(item: Item, status: Status, evidence: Option<Evidence>, file: Option<Id>)
    requires ItemOk(item) && item.attempts != [] && status in Allowed(Last(item).status)
    requires status in {Verified, MachineAccepted} ==> evidence.Some? && file.Some? && Good(evidence.value, file.value)
    requires status == MachineAccepted ==> evidence == Last(item).evidence
    ensures ItemOk(Recorded(item, status, evidence))
  {
  }

  lemma ReopenedOk(item: Item)
    requires ItemOk(item) && !Busy(item)
    ensures ItemOk(Reopened(item)) && !Busy(Reopened(item))
  {
  }

  /** One task's item changes and it does not lose its accepted result: every other task still rests on accepted inputs. */
  lemma OneTask(dependencies: map<Id, set<Id>>, tasks: map<Id, Item>, k: Id, item: Item)
    requires StateOk(dependencies, tasks) && k in tasks && ItemOk(item)
    requires tasks[k].accepted.Some? ==> item.accepted.Some?
    requires item.accepted.Some? || Busy(item) ==> InputsAccepted(dependencies, tasks, k)
    ensures StateOk(dependencies, tasks[k := item])
  {
    var after := tasks[k := item];
    forall j | j in after ensures TaskOk(dependencies, after, j) {
      assert TaskOk(dependencies, tasks, j);
    }
  }

  lemma ClaimKeeps(dependencies: map<Id, set<Id>>, tasks: map<Id, Item>, paused: bool, k: Id, owner: Id, expires: real, now: real)
    requires StateOk(dependencies, tasks) && ClaimError(dependencies, tasks, paused, k, now).None? && tasks[k].epoch >= 0
    ensures StateOk(dependencies, tasks[k := Claimed(tasks[k], owner, expires)])
    ensures InputsAccepted(dependencies, tasks[k := Claimed(tasks[k], owner, expires)], k)
  {
    assert TaskOk(dependencies, tasks, k);
    assert InputsAccepted(dependencies, tasks, k);
    ClaimedOk(tasks[k], owner, expires);
    OneTask(dependencies, tasks, k, Claimed(tasks[k], owner, expires));
  }

  /** Outside a closed set no task has an input inside it, so reopening all of it leaves accepted inputs accepted. */
  lemma InvalidateKeeps(dependencies: map<Id, set<Id>>, tasks: map<Id, Item>, affected: set<Id>)
    requires StateOk(dependencies, tasks) && forall k :: k in affected && k in tasks ==> !Busy(tasks[k])
    requires forall x, y :: x in affected && Step(ChildrenOf(dependencies), x, y) ==> y in affected
    ensures StateOk(dependencies, Invalidated(tasks, affected))
  {
    var after := Invalidated(tasks, affected);
    forall k | k in after ensures TaskOk(dependencies, after, k) {
      assert TaskOk(dependencies, tasks, k);
      if k in affected {
        ReopenedOk(tasks[k]);
      } else {
        forall p | p in dependencies[k] ensures p !in affected {
          assert p in affected ==> Step(ChildrenOf(dependencies), p, k);
        }
      }
    }
  }

  class TaskFlow {
    const dependencies: map<Id, set<Id>>
    var paused: bool
    var tasks: map<Id, Item>

    ghost predicate Valid()
      reads this
    {
      StateOk(dependencies, tasks) && forall k :: k in tasks ==> tasks[k].epoch >= 0
    }

    constructor (graph: map<Id, set<Id>>)
      requires Declared(graph) && !HasCycle(ChildrenOf(graph))
      ensures Valid() && dependencies == graph && !paused
      ensures tasks == map k | k in graph :: Item(0, [], None)
    {
      dependencies, paused := graph, false;
      tasks := map k | k in graph :: Item(0, [], None);
    }

    method Pause(enabled: bool)
      requires Valid()
      modifies this`paused
      ensures Valid() && paused == enabled
    {
      paused := enabled;
    }

    method CheckClaim(k: Id, now: real) returns (e: Option<Error>)
      requires tasks.Keys == dependencies.Keys
      ensures e == ClaimError(dependencies, tasks, paused, k, now)
    {
      if k !in tasks {
        return Some(NotFound);
      }
      var item := tasks[k];
      if paused || item.accepted.Some? {
        return Some(NotReady);
      }
      if exists p :: p in dependencies[k] && !(p in tasks && tasks[p].accepted.Some?) {
        return Some(NotReady);
      }
      if item.attempts != [] {
        var last := Last(item);
        if !Retryable(last.status) && !last.invalidated {
          return Some(if last.expires <= now then ReconcileRequired else LeaseHeld);
        }
      }
      if |item.attempts| >= 3 {
        return Some(AttemptsExceeded);
      }
      return None;
    }

    method Claim(k: Id, owner: Id, seconds: int, now: real) returns (r: Result<Attempt, Error>)
      requires Valid()
      modifies this`tasks
      ensures Valid()
      ensures ClaimError(dependencies, old(tasks), paused, k, now).Some? ==>
        r == Failure(ClaimError(dependencies, old(tasks), paused, k, now).value) && tasks == old(tasks)
      ensures ClaimError(dependencies, old(tasks), paused, k, now).None? ==>
        var item := Claimed(old(tasks)[k], owner, now + seconds as real);
        && tasks == old(tasks)[k := item] && r == Success(Last(item)) && InputsAccepted(dependencies, tasks, k)
    {
      var refused := CheckClaim(k, now);
      if refused.Some? {
        return Failure(refused.value);
      }
      ClaimKeeps(dependencies, tasks, paused, k, owner, now + seconds as real, now);
      var item := tasks[k];
      var attempt := Attempt(item.epoch + 1, owner, now + seconds as real, Reserved, None, false);
      tasks := tasks[k := item.(epoch := item.epoch + 1, attempts := item.attempts + [attempt])];
      return Success(attempt);
    }

    method Record(k: Id, epoch: int, request: int, status: Status, evidence: Option<Evidence>, file: Option<Id>) returns (r: Result<Attempt, Error>)
      requires Valid()
      modifies this`tasks
      ensures Valid()
      ensures var e := RecordError(old(tasks), k, epoch, request, status, evidence, file);
        && (e.Some? ==> r == Failure(e.value) && tasks == old(tasks))
        && (e.None? ==> tasks == old(tasks)[k := Recorded(old(tasks)[k], status, evidence)] && r == Success(Last(tasks[k])))
    {
      if k !in tasks || tasks[k].attempts == [] {
        return Failure(NotFound);
      }
      var item := tasks[k];
      var attempt := Last(item);
      if epoch != item.epoch || request != attempt.epoch {
        return Failure(Fenced);
      }
      if status !in Allowed(attempt.status) {
        return Failure(StateConflict);
      }
      if status in {Verified, MachineAccepted} {
        if evidence.None? || file.None? || !Good(evidence.value, file.value) {
          return Failure(EvidenceRequired);
        }
        if status == MachineAccepted && evidence != attempt.evidence {
          return Failure(EvidenceRequired);
        }
      }
      assert TaskOk(dependencies, tasks, k) && Busy(item);
      RecordedOk(item, status, evidence, file);
      OneTask(dependencies, tasks, k, Recorded(item, status, evidence));
      attempt := attempt.(status := status);
      if evidence.Some? {
        attempt := attempt.(evidence := evidence);
      }
      item := item.(attempts := item.attempts[|item.attempts| - 1 := attempt]);
      if status == MachineAccepted {
        item := item.(accepted := evidence);
      }
      tasks := tasks[k := item];
      return Success(attempt);
    }

    /** All of the closure is reopened, or nothing: unfinished work anywhere in it stops the whole call. */
    method Invalidate(changed: set<Id>) returns (r: Result<set<Id>, Error>)
      requires Valid()
      modifies this`tasks
      ensures Valid()
      ensures r.Success? ==>
        && (forall k :: k in r.value <==> Reaches(ChildrenOf(dependencies), changed, k))
        && tasks == Invalidated(old(tasks), r.value) && forall k :: k in r.value ==> k in tasks && !Busy(old(tasks)[k])
      ensures r.Failure? ==> tasks == old(tasks)
      ensures r == Failure(Invalid) <==> !(changed <= dependencies.Keys)
      ensures r.Failure? && r.error != Invalid ==>
        r.error == ReconcileRequired && exists k :: k in tasks && Reaches(ChildrenOf(dependencies), changed, k) && Busy(tasks[k])
    {
      var answer := AffectedTasks(dependencies, changed);
      if answer.DependencyInvalid? {
        return Failure(Invalid);
      }
      var affected := answer.tasks;
      forall x, y | x in affected && Step(ChildrenOf(dependencies), x, y) ensures y in affected {
        ReachesChild(ChildrenOf(dependencies), changed, x, y);
      }
      var state := tasks;
      var rest := affected;
      while rest != {}
        invariant rest <= affected && state.Keys == tasks.Keys
        invariant forall k :: k in tasks ==> state[k] == if k in affected - rest then Reopened(tasks[k]) else tasks[k]
        invariant forall k :: k in affected - rest ==> !Busy(tasks[k])
        decreases rest
      {
        var k :| k in rest;
        if Busy(state[k]) {
          return Failure(ReconcileRequired);
        }
        state := state[k := Reopened(state[k])];
        rest := rest - {k};
      }
      InvalidateKeeps(dependencies, tasks, affected);
      assert state == Invalidated(tasks, affected);
      tasks := state;
      return Success(affected);
    }
  }

  // ---------------------------------------------------------------------------------------------
  // Fencing
  // ---------------------------------------------------------------------------------------------

  /** Once a task has been claimed again or invalidated, nobody can record anything for its earlier requests. */
  lemma StaleIsFenced(dependencies: map<Id, set<Id>>, tasks: map<Id, Item>, k: Id, i: nat,
                      epoch: int, status: Status, evidence: Option<Evidence>, file: Option<Id>)
    requires StateOk(dependencies, tasks) && k in tasks && i < |tasks[k].attempts|
    requires i < |tasks[k].attempts| - 1 || tasks[k].attempts[i].epoch < tasks[k].epoch
    ensures RecordError(tasks, k, epoch, tasks[k].attempts[i].epoch, status, evidence, file).Some?
  {
    assert TaskOk(dependencies, tasks, k);
  }

  /** A result is accepted only through "verified", with the very same evidence both times. */
  lemma AcceptedTwiceSeen(tasks: map<Id, Item>, k: Id, epoch: int, request: int, evidence: Option<Evidence>, file: Option<Id>)
    requires RecordError(tasks, k, epoch, request, MachineAccepted, evidence, file).None?
    ensures Last(tasks[k]).status == Verified && Last(tasks[k]).evidence == evidence && evidence.Some?
    ensures Last(tasks[k]).epoch == request && Recorded(tasks[k], MachineAccepted, evidence).accepted == evidence
  {
  }
}
