/** When a workflow task may be claimed, what may be recorded for it, and what reopening does, stated on its attempts. */
module WorkflowLaws {
  import opened Wrappers
  import opened Ids
  import opened Workflow

  /** Where an attempt must stand for each status it may be given. */
  predicate MayBecome(was: Status, status: Status) {
    match status
    case Reserved => false
    case Submitted => was in {Reserved, Unknown}
    case Running => was in {Submitted, Unknown}
    case Unknown => was in {Reserved, Submitted, Running}
    case Produced => was in {Submitted, Running, Unknown}
    case Failed => was in {Reserved, Submitted, Running, Unknown}
    case Cancelled => was in {Submitted, Running, Unknown}
    case Verified => was == Produced
    case Rejected => was in {Produced, Verified}
    case MachineAccepted => was == Verified
  }

  /** All inputs are accepted and the task itself is not. */
  predicate Open(dependencies: map<Id, set<Id>>, tasks: map<Id, Item>, k: Id)
    requires k in tasks && k in dependencies
  {
    tasks[k].accepted.None? && forall p :: p in dependencies[k] ==> p in tasks && tasks[p].accepted.Some?
  }

  /** The last attempt came to nothing, or was reopened. */
  predicate Free(item: Item) {
    item.attempts != [] ==>
      var last := item.attempts[|item.attempts| - 1];
      last.invalidated || last.status == Rejected || last.status == Failed || last.status == Cancelled
  }

  /** A claim needs a known task with accepted inputs, no attempt under way, and fewer than three attempts. */
  lemma ClaimedWhen(dependencies: map<Id, set<Id>>, tasks: map<Id, Item>, paused: bool, k: Id, now: real)
    ensures var told := ClaimError(dependencies, tasks, paused, k, now);
      && (told.None? <==>
            k in tasks && k in dependencies && !paused && Open(dependencies, tasks, k) && Free(tasks[k]) && |tasks[k].attempts| < 3)
      && (told == Some(NotFound) <==> !(k in tasks && k in dependencies))
      && (told == Some(NotReady) <==> k in tasks && k in dependencies && (paused || !Open(dependencies, tasks, k)))
      && (k in tasks && k in dependencies && !paused && Open(dependencies, tasks, k) ==>
            && (told == Some(AttemptsExceeded) <==> Free(tasks[k]) && |tasks[k].attempts| >= 3)
            && (!Free(tasks[k]) ==>
                  told == if now < tasks[k].attempts[|tasks[k].attempts| - 1].expires then Some(LeaseHeld) else Some(ReconcileRequired)))
  {
  }

  /** A claim adds one attempt under the next number, leased as asked and with nothing done yet. */
  lemma ClaimedAs(item: Item, owner: Id, expires: real)
    ensures var after := Claimed(item, owner, expires);
      && |after.attempts| == |item.attempts| + 1 && after.attempts[..|item.attempts|] == item.attempts
      && var a := after.attempts[|item.attempts|];
      && a.epoch == after.epoch == item.epoch + 1 && a.owner == owner && a.expires == expires
      && a.status == Reserved && a.evidence == None && !a.invalidated && after.accepted == item.accepted
  {
  }

  /** A status needs the task's current number, its last request, a step the attempt may take, and evidence where it claims success. */
  lemma RecordedWhen(tasks: map<Id, Item>, k: Id, epoch: int, request: int, status: Status, evidence: Option<Evidence>, file: Option<Id>)
    ensures var told := RecordError(tasks, k, epoch, request, status, evidence, file);
      if k !in tasks || tasks[k].attempts == [] then told == Some(NotFound)
      else
        var last := tasks[k].attempts[|tasks[k].attempts| - 1];
        var proven := evidence.Some? && file.Some? && file.value == evidence.value.artifact
          && evidence.value.wellFormed && evidence.value.isSealed && evidence.value.accepts;
        if epoch != tasks[k].epoch || request != last.epoch then told == Some(Fenced)
        else if !MayBecome(last.status, status) then told == Some(StateConflict)
        else if status == Verified && !proven then told == Some(EvidenceRequired)
        else if status == MachineAccepted && !(proven && last.evidence == evidence) then told == Some(EvidenceRequired)
        else told == None
  {
  }

  /** Recording changes the last attempt's status and evidence, and the task's result only by acceptance. */
  lemma RecordedAs(item: Item, status: Status, evidence: Option<Evidence>)
    requires item.attempts != []
    ensures var after, n := Recorded(item, status, evidence), |item.attempts| - 1;
      && |after.attempts| == |item.attempts| && after.epoch == item.epoch
      && (forall i :: 0 <= i < n ==> after.attempts[i] == item.attempts[i])
      && after.attempts[n] == item.attempts[n].(status := status, evidence := after.attempts[n].evidence)
      && (evidence.Some? ==> after.attempts[n].evidence == evidence) && (evidence.None? ==> after.attempts[n].evidence == item.attempts[n].evidence)
      && (status == MachineAccepted ==> after.accepted == evidence) && (status != MachineAccepted ==> after.accepted == item.accepted)
  {
  }

  /** Reopening takes the result back, moves the number on, and marks the last attempt; all others stay. */
  lemma ReopenedAs(tasks: map<Id, Item>, affected: set<Id>, k: Id)
    requires k in tasks
    ensures var after := Invalidated(tasks, affected);
      && after.Keys == tasks.Keys && (k !in affected ==> after[k] == tasks[k])
      && (k in affected ==>
            && after[k].accepted == None && after[k].epoch == tasks[k].epoch + 1 && |after[k].attempts| == |tasks[k].attempts|
            && forall i :: 0 <= i < |tasks[k].attempts| ==>
                 after[k].attempts[i] == if i == |tasks[k].attempts| - 1 then tasks[k].attempts[i].(invalidated := true) else tasks[k].attempts[i])
  {
  }

  /** Unfinished is what neither came to nothing nor was accepted. */
  lemma BusyWhen(item: Item)
    ensures Busy(item) <==>
      item.attempts != [] && item.attempts[|item.attempts| - 1].status in {Reserved, Submitted, Running, Unknown, Produced, Verified}
  {
  }
}
