/**
 Recoverable publication before acceptance, src/fsf/production/publication.py: the intent is durable first, then a copy
 appears under its final name, and only then the store accepts. A file is known by the digest of its bytes.
 */
module Publication {
  import opened Wrappers
  import opened Ids
  import opened StoreState
  import opened StoreInv
  import opened Store

  /** Where the artifact lies and the report it is to be accepted with, resealed for its request. */
  datatype Intent = Intent(artifact: Id, evidence: Evidence)

  datatype Staged = Accepted | Crashed | Late | SourceChanged | Refused(error: Error)

  /** The report as publication seals it anew, for its request; `report` is the new digest. */
  function Resealed(evidence: Evidence, r: Request, report: Id): Evidence {
    evidence.(isSealed := true, request := Some(r), report := report)
  }

  /** What acceptance finds once published, with the driver's quality binding and the last quality result. */
  function ReceiptsFor(evidence: Evidence, binding: Option<Id>, result: Option<Quality>): Receipts {
    if binding.Some? then Bound(binding.value, Some(evidence), true, result) else Unbound
  }

  /** Under a quality binding the report carries the last quality result, which accepts this very file and technical report. */
  predicate GateAccepts(binding: Id, r: Request, evidence: Evidence, result: Option<Quality>) {
    && result.Some? && evidence.quality == result && evidence.request == Some(r)
    && result.value.binding == binding && result.value.artifact == evidence.artifact && result.value.verdict == StoreState.Accept
    && evidence.technical.Some? && evidence.technical.value.report == result.value.technical
  }

  /** A published file is what its intent says, and a result is accepted only with its intent's report and its file in place. */
  ghost predicate PublishedOk(intents: map<Request, Intent>, published: map<Request, Id>, attempts: map<Request, Attempt>, r: Request) {
    && (r in intents ==> intents[r].evidence.request == Some(r))
    && (r in published ==> r in intents && published[r] == intents[r].evidence.artifact)
    && (r in attempts && attempts[r].status == MachineAccepted ==>
          r in intents && r in published && attempts[r].evidence == Some(intents[r].evidence))
  }

  class Publisher {
    const store: ProductionStore
    var intents: map<Request, Intent>
    var published: map<Request, Id>
    /** Files under construction; their content means nothing. */
    var pending: map<Request, Id>

    ghost predicate Valid()
      reads this, store
    {
      && store.Valid()
      && forall r {:trigger PublishedOk(intents, published, store.attempts, r)} :: PublishedOk(intents, published, store.attempts, r)
    }

    constructor (s: ProductionStore)
      requires s.Valid() && forall r :: r in s.attempts ==> s.attempts[r].status != MachineAccepted
      ensures Valid() && store == s && intents == map[] && published == map[]
    {
      store := s;
      intents, published, pending := map[], map[], map[];
    }

    /** The first transaction: under the fence and for a finished result only; an intent once written stays. */
    method Intend(r: Request, epoch: int, artifact: Id, evidence: Evidence, report: Id) returns (e: Option<Error>)
      requires Valid()
      modifies this`intents
      ensures Valid() && published == old(published)
      ensures r in old(intents) ==> e.None? && intents == old(intents)
      ensures e.None? ==> r in intents && forall q :: q in old(intents) ==> q in intents && intents[q] == old(intents)[q]
      ensures e.Some? ==> intents == old(intents)
      ensures e.None? && r !in old(intents) ==>
        FenceError(store.Tables(), r, epoch).None? && store.attempts[r].status in {Produced, Verified} && intents[r] == Intent(artifact, evidence.(isSealed := true, request := Some(r), report := report))
      ensures e.Some? ==> e == if FenceError(store.Tables(), r, epoch).Some? then FenceError(store.Tables(), r, epoch) else Some(EvidenceRequired)
    {
      if r in intents {
        return None;
      }
      var refused := store.CheckFence(r, epoch);
      if refused.Some? {
        return refused;
      }
      if store.attempts[r].status !in {Produced, Verified} {
        return Some(EvidenceRequired);
      }
      ghost var before := intents;
      intents := intents[r := Intent(artifact, Resealed(evidence, r, report))];
      forall q ensures PublishedOk(intents, published, store.attempts, q) {
        assert PublishedOk(before, published, store.attempts, q);
      }
      return None;
    }

    /** Check the file in place, or copy the artifact and rename it there; `source` is the artifact's digest when it is read. */
    method Place(r: Request, source: Id, reliable: bool) returns (stop: Option<Staged>)
      requires Valid() && r in intents
      modifies this`published, this`pending
      ensures Valid() && (stop.None? ==> r in published) && (stop.Some? ==> !stop.value.Accepted?)
      ensures forall q :: q in old(published) ==> q in published && published[q] == old(published)[q]
      ensures forall q :: q in published && q !in old(published) ==> q == r
      ensures reliable && stop.Some? ==> stop == Some(SourceChanged) && r !in old(published) && source != intents[r].evidence.artifact
    {
      var evidence := intents[r].evidence;
      assert PublishedOk(intents, published, store.attempts, r);
      var late: bool, crash: bool := *, *;
      if r in published {
        if late && !reliable {
          return Some(Late);
        }
        if published[r] != evidence.artifact {
          return Some(SourceChanged);
        }
        return None;
      }
      if (late || crash) && !reliable {
        var torn: Id := *;
        pending := pending[r := torn];
        return Some(if crash then Crashed else Late);
      }
      pending := pending[r := source];
      if source != evidence.artifact {
        return Some(SourceChanged);
      }
      ghost var before := published;
      published, pending := published[r := source], pending - {r};
      forall q ensures PublishedOk(intents, published, store.attempts, q) {
        assert PublishedOk(intents, before, store.attempts, q);
      }
      return None;
    }

    /**
     One call. A crash at any point leaves a state from which a later call, whatever it is given, goes on with the first
     intent; acceptance comes last; and without a crash only a changed source or the store itself can refuse.
     */
    method StageAcceptance(r: Request, epoch: int, artifact: Id, evidence: Evidence, report: Id, source: Id, binding: Option<Id>, result: Option<Quality>, reliable: bool)
      returns (staged: Staged)
      requires Valid()
      modifies this, store
      ensures Valid()
      ensures forall q :: q in old(intents) ==> q in intents && intents[q] == old(intents)[q]
      ensures forall q :: q in old(published) ==> q in published && published[q] == old(published)[q]
      ensures staged.Accepted? ==>
        && r in intents && r in published && published[r] == intents[r].evidence.artifact
        && store.Tables() == AcceptOp(store.setup, old(store.Tables()), r, epoch, published[r], intents[r].evidence, ReceiptsFor(intents[r].evidence, binding, result)).1
        && r in store.attempts && store.attempts[r].status == MachineAccepted && store.attempts[r].evidence == Some(intents[r].evidence)
        && (binding.Some? ==> GateAccepts(binding.value, r, intents[r].evidence, result))
      ensures !staged.Accepted? ==> store.Tables() == old(store.Tables())
      ensures reliable && !staged.Accepted? ==> staged.Refused? || (staged.SourceChanged? && r in intents && source != intents[r].evidence.artifact)
    {
      var refused := Intend(r, epoch, artifact, evidence, report);
      if refused.Some? {
        return Refused(refused.value);
      }
      var crash: bool := *;
      if crash && !reliable {
        return Crashed;
      }
      var stop := Place(r, source, reliable);
      if stop.Some? {
        return stop.value;
      }
      crash := *;
      if crash && !reliable {
        return Crashed;
      }
      staged := Accept(r, epoch, binding, result);
      assert PublishedOk(intents, published, store.attempts, r);
    }

    /** The last transaction, with the published file's digest. */
    method Accept(r: Request, epoch: int, binding: Option<Id>, result: Option<Quality>) returns (staged: Staged)
      requires Valid() && r in intents && r in published
      modifies store
      ensures Valid() && (staged.Accepted? || staged.Refused?)
      ensures staged.Accepted? ==>
        && store.Tables() == AcceptOp(store.setup, old(store.Tables()), r, epoch, published[r], intents[r].evidence, ReceiptsFor(intents[r].evidence, binding, result)).1
        && r in store.attempts && store.attempts[r].status == MachineAccepted && store.attempts[r].evidence == Some(intents[r].evidence)
        && (binding.Some? ==> GateAccepts(binding.value, r, intents[r].evidence, result))
      ensures !staged.Accepted? ==> store.Tables() == old(store.Tables())
    {
      ghost var before := store.attempts;
      var accepted := store.AcceptResult(r, epoch, published[r], intents[r].evidence, ReceiptsFor(intents[r].evidence, binding, result));
      forall q ensures PublishedOk(intents, published, store.attempts, q) {
        assert PublishedOk(intents, published, before, q) && PublishedOk(intents, published, before, r);
      }
      return if accepted.Success? then Accepted else Refused(accepted.error);
    }

    /** `verify_publication` of an accepted row. */
    method VerifyPublication(r: Request, evidence: Evidence) returns (ok: bool)
      ensures ok <==> evidence.request == Some(r) && r in intents && intents[r].evidence == evidence && r in published && published[r] == evidence.artifact
    {
      return evidence.request == Some(r) && r in intents && intents[r].evidence == evidence && r in published && published[r] == evidence.artifact;
    }
  }

  /** What was accepted can be verified again: its task's evidence is the intent's, and its file is in place. */
  lemma AcceptedVerifies(S: Setup, db: Db, intents: map<Request, Intent>, published: map<Request, Id>, k: TaskKey)
    requires Inv(S, db) && k in db.tasks && db.tasks[k].accepted.Some?
    requires forall r {:trigger PublishedOk(intents, published, db.attempts, r)} :: PublishedOk(intents, published, db.attempts, r)
    ensures db.tasks[k].request.Some?
    ensures var r, evidence := db.tasks[k].request.value, db.tasks[k].accepted.value;
      evidence.request == Some(r) && r in intents && intents[r].evidence == evidence && r in published && published[r] == evidence.artifact
  {
    assert TaskOk(S, db, k);
    assert PublishedOk(intents, published, db.attempts, db.tasks[k].request.value);
  }
}
