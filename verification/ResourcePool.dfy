/**
 The pool itself: methods that read the document, change their copy, and publish it. A method that stops
 before publishing leaves the files as they were. Each is proved to do what `PoolState` says.
 */
module ResourcePool {
  import opened Wrappers
  import opened Ids
  import opened Sums
  import opened PoolState
  import opened PoolSafety

  class Pool {
    /** The published document and the directory of history records. */
    var state: State
    var history: History

    ghost function Files(): Disk
      reads this
    {
      Disk(state, history)
    }

    /** `create` on a path that does not exist yet. */
    constructor (authority: Authority)
      requires AuthorityOk(authority)
      ensures Files() == Disk(State(authority, 0, 0, map[], map[], map[]), map[]) && Inv(Files())
    {
      state := State(authority, 0, 0, map[], map[], map[]);
      history := map[];
      new;
      CreatedSafe(authority);
    }

    /** Complete recorded stops, ticket by ticket, then let leases lapse. `ok` is false for the integrity error. */
    method Expire(now: real) returns (ok: bool, s: State)
      ensures ok <==> Completes(state, history)
      ensures ok ==> s == Expired(state, history, now)
    {
      s := state;
      ok := true;
      var pending := state.tickets.Keys;
      while pending != {}
        invariant pending <= state.tickets.Keys
        invariant forall rid :: rid in state.tickets && rid !in pending && rid in history ==> CompletesCleanly(state, history, rid)
        invariant s == Completed(state, history, pending)
        decreases pending
      {
        var rid :| rid in pending;
        if rid in history {
          if !CompletesCleanly(state, history, rid) {
            ok := false;
            return;
          }
          s := s.(claims := s.claims - {rid}, tickets := s.tickets - {rid});
        }
        pending := pending - {rid};
      }
      s := Lapsed(s, now);
      CompletedThenLapsed(state, history, now);
    }

    method Inspect(now: real) returns (ok: bool)
      modifies this
      ensures history == old(history)
      ensures ok <==> old(Completes(state, history))
      ensures state == if ok then Expired(old(state), history, now) else old(state)
    {
      var s;
      ok, s := Expire(now);
      if ok {
        state := s;
      }
    }

    method Enqueue(ticket: Ticket) returns (r: Result<Enqueued, Error>)
      modifies this
      ensures (r, Files()) == EnqueueOp(old(Files()), ticket)
      ensures old(Inv(Files())) ==> Inv(Files())
    {
      EnqueueKeepsIfInv(Files(), ticket);
      var rid := ticket.requestId;
      if !WellFormedTicket(ticket, state.authority) {
        return Failure(Binding);
      }
      if !CanEverFit(ticket, state.authority) {
        return Failure(MemoryLimit);
      }
      if rid in history {
        if history[rid].ticket != ticket {
          return Failure(Binding);
        }
        return Success(Finished(history[rid]));
      }
      if rid in state.tickets {
        if state.tickets[rid].ticket != ticket {
          return Failure(Binding);
        }
        return Success(Item(state.tickets[rid]));
      }
      if |state.tickets| >= state.authority.maxQueued {
        return Failure(QueueLimit);
      }
      var s := state.(sequence := state.sequence + 1);
      s := s.(tickets := s.tickets[rid := Queued(ticket, s.sequence, 0)]);
      state := s;
      return Success(Item(s.tickets[rid]));
    }

    /** `_fit`: scan the devices in order. */
    static method FitTicket(s: State, t: Ticket, observed: Inventory) returns (fit: Fit)
      ensures fit == FitOf(s, t, observed)
    {
      if exists k :: k in s.residents && s.residents[k].model.residentId == t.model.residentId && s.residents[k].model != t.model {
        return Raises(ModelChanged);
      }
      for i := 0 to |s.authority.devices|
        invariant FitFrom(s, t, observed, 0) == FitFrom(s, t, observed, i)
      {
        fit := FitDevice(s, t, s.authority.devices[i], observed);
        if fit != NoFit {
          return;
        }
      }
      return NoFit;
    }

    static method FitDevice(s: State, t: Ticket, d: Device, observed: Inventory) returns (fit: Fit)
      ensures fit == FitOn(s, t, d, observed)
    {
      var uuid := d.uuid;
      if uuid !in t.eligible || uuid !in observed {
        return NoFit;
      }
      if AnyUnknown(s, uuid) {
        return NoFit;
      }
      var count := Total(s.claims, ClaimOn(uuid));
      if count >= d.slots || AnyExclusive(s, uuid) {
        return NoFit;
      }
      var key := ResidentKey(uuid, t.model);
      if key in s.residents && s.residents[key].residentMb != t.residentMb {
        return Raises(ModelChanged);
      }
      if t.mode == Exclusive && (AnyClaim(s, uuid) || OtherResident(s, uuid, key)) {
        return NoFit;
      }
      if key !in s.residents && |s.residents| >= s.authority.maxResidentModels {
        return NoFit;
      }
      var resident := Total(s.residents, ResidentOn(uuid));
      var workspace := Total(s.claims, WorkspaceOn(uuid));
      var reserved := resident + workspace;
      var current := observed[uuid];
      if current.managedUsedMb > reserved {
        return Raises(MemoryViolation);
      }
      var required := t.workspaceMb + if key in s.residents then 0 else t.residentMb;
      var physical := current.freeMb - AtLeastZero(reserved - current.managedUsedMb);
      if reserved + required > Smaller2(d.vramMb, current.totalMb) || required > physical {
        return NoFit;
      }
      return Fits(uuid, key);
    }

    /**
     The fairness scan over older tickets allowed on the chosen device: stop at the first that fits there or
     has been overtaken often enough, otherwise return the ones to be bumped. Model conflicts are skipped.
     */
    static method Contenders(s: State, rid: Id, uuid: Id, observed: Inventory) returns (unfair: bool, contenders: set<Id>)
      requires rid in s.tickets && uuid in observed
      requires forall other :: Older(s, other, rid, uuid) ==>
        FitOf(s, s.tickets[other].ticket, map[uuid := observed[uuid]]) != Raises(MemoryViolation)
      ensures unfair <==> Yields(s, rid, uuid, observed)
      ensures !unfair ==> forall other :: other in contenders <==> Contender(s, other, rid, uuid, observed)
    {
      var older := set other | other in s.tickets && Older(s, other, rid, uuid);
      var pending := older;
      contenders := {};
      unfair := false;
      while pending != {}
        invariant pending <= older
        invariant forall other :: other in older - pending ==> !MustYield(s, other, rid, uuid, observed)
        invariant forall other :: other in contenders <==> other in older - pending && Contender(s, other, rid, uuid, observed)
        decreases pending
      {
        var other :| other in pending;
        pending := pending - {other};
        var fit := FitTicket(s, s.tickets[other].ticket, map[uuid := observed[uuid]]);
        if fit != Raises(ModelChanged) {
          contenders := contenders + {other};
          if fit.Fits? || s.tickets[other].bypasses >= s.authority.maxBypasses {
            assert MustYield(s, other, rid, uuid, observed);
            unfair := true;
            return;
          }
        }
      }
    }

    method Admit(rid: Id, observed: Inventory, now: real, later: real) returns (r: Result<Admission, Error>)
      requires Inv(Files())
      modifies this
      ensures (r, Files()) == AdmitOp(old(Files()), rid, observed, now, later)
      ensures Inv(Files())
    {
      RecordedStopsComplete(Files());
      ExpiredSafe(Files(), now);
      AdmitKeeps(Files(), rid, observed, now, later);
      var ok, s := Expire(now);
      if !s.authority.authorized {
        return Failure(NotAuthorized);
      }
      if rid in s.claims {
        state := s;
        return Success(Holding(s.claims[rid]));
      }
      if rid in history {
        state := s;
        return Success(Past(history[rid]));
      }
      if rid !in s.tickets {
        return Failure(NotFound);
      }
      var fit := FitTicket(s, s.tickets[rid].ticket, observed);
      if fit.Raises? {
        return Failure(fit.error);
      }
      if fit.NoFit? {
        state := s;
        return Success(StillQueued);
      }
      var uuid, key := fit.uuid, fit.key;
      forall other | Older(s, other, rid, uuid)
        ensures FitOf(s, s.tickets[other].ticket, map[uuid := observed[uuid]]) != Raises(MemoryViolation)
      {
        FairnessScanNeverViolates(s, rid, uuid, key, observed, other);
      }
      var unfair, contenders := Contenders(s, rid, uuid, observed);
      if unfair {
        state := s;
        return Success(Unfair);
      }
      var after := Place(s, rid, uuid, key, observed, later, contenders);
      state := after;
      return Success(Holding(after.claims[rid]));
    }

    /** The admission itself: bump the contenders, load or keep the resident, record the claim. */
    static method Place(s: State, rid: Id, uuid: Id, key: ResidentKey, observed: Inventory, now: real, contenders: set<Id>)
      returns (r: State)
      requires rid in s.tickets && uuid in observed
      requires forall other :: other in contenders <==> Contender(s, other, rid, uuid, observed)
      ensures r == Admitted(s, rid, uuid, key, observed, now)
    {
      var ticket := s.tickets[rid].ticket;
      var until := now + ticket.leaseSeconds as real;
      var bumped := map other | other in s.tickets ::
          if other in contenders then s.tickets[other].(bypasses := s.tickets[other].bypasses + 1) else s.tickets[other];
      assert bumped == Bumped(s, rid, uuid, observed);
      var resident := NewResident(s, ticket, uuid, key, until);
      var claim := NewClaim(s, ticket, uuid, key, until);
      r := s.(epoch := s.epoch + 1, tickets := bumped,
              residents := s.residents[key := resident], claims := s.claims[rid := claim]);
    }

    method Renew(token: Token, seconds: int, now: real, later: real) returns (r: Result<Claim, Error>)
      requires Inv(Files())
      modifies this
      ensures (r, Files()) == RenewOp(old(Files()), token, seconds, now, later)
      ensures Inv(Files())
    {
      RecordedStopsComplete(Files());
      ExpiredSafe(Files(), now);
      RenewKeeps(Files(), token, seconds, now, later);
      var ok, s := Expire(now);
      if !Owns(s, token) {
        return Failure(Fenced);
      }
      if !(1 <= seconds <= s.authority.maxLeaseSeconds) {
        return Failure(OutOfRange);
      }
      var rid := token.requestId;
      assert ClaimOk(s, rid);
      var key := s.claims[rid].residentKey;
      if s.claims[rid].state != Live || s.residents[key].state != Live {
        state := s;
        return Failure(ReconcileRequired);
      }
      var claim := s.claims[rid].(leaseUntil := later + seconds as real);
      var resident := s.residents[key].(leaseUntil := Max(s.residents[key].leaseUntil, claim.leaseUntil));
      state := s.(claims := s.claims[rid := claim], residents := s.residents[key := resident]);
      return Success(claim);
    }

    /** History first, then state; `crash` stops in between. */
    method Release(token: Token, stopped: bool, now: real, crash: bool) returns (r: Result<Record, Error>)
      requires Inv(Files())
      modifies this
      ensures (r, Files()) == ReleaseOp(old(Files()), token, stopped, now, crash)
      ensures Inv(Files())
    {
      RecordedStopsComplete(Files());
      ExpiredSafe(Files(), now);
      ReleaseKeeps(Files(), token, stopped, now, crash);
      var ok, s := Expire(now);
      var rid := token.requestId;
      if rid in history {
        var record := history[rid];
        if !record.Released? || record.claim.requestId != rid || record.claim.uuid != token.uuid || record.claim.epoch != token.epoch {
          return Failure(Fenced);
        }
        if rid in s.claims {
          if !Owns(s, token) {
            return Failure(Fenced);
          }
          state := s.(claims := s.claims - {rid}, tickets := s.tickets - {rid});
        }
        return Success(record);
      }
      if !Owns(s, token) {
        return Failure(Fenced);
      }
      assert ClaimOk(s, rid);
      if !stopped {
        return Failure(StopUnconfirmed);
      }
      var record := Released(s.tickets[rid].ticket, s.claims[rid]);
      history := history[rid := record];
      if crash {
        return Failure(Interrupted);
      }
      state := s.(claims := s.claims - {rid}, tickets := s.tickets - {rid});
      return Success(record);
    }

    method CancelQueued(rid: Id, now: real, crash: bool) returns (r: Result<Record, Error>)
      requires Inv(Files())
      modifies this
      ensures (r, Files()) == CancelOp(old(Files()), rid, now, crash)
      ensures Inv(Files())
    {
      RecordedStopsComplete(Files());
      CancelKeeps(Files(), rid, now, crash);
      var ok, s := Expire(now);
      if rid in s.claims {
        return Failure(Busy);
      }
      if rid in history {
        return Success(history[rid]);
      }
      if rid !in s.tickets {
        return Failure(NotFound);
      }
      var record := Cancelled(s.tickets[rid].ticket);
      history := history[rid := record];
      if crash {
        return Failure(Interrupted);
      }
      state := s.(tickets := s.tickets - {rid});
      return Success(record);
    }

    method Evict(key: ResidentKey, epoch: int, stopped: bool, now: real) returns (r: Result<Resident, Error>)
      requires Inv(Files())
      modifies this
      ensures (r, Files()) == EvictOp(old(Files()), key, epoch, stopped, now)
      ensures Inv(Files())
    {
      RecordedStopsComplete(Files());
      EvictKeeps(Files(), key, epoch, stopped, now);
      var ok, s := Expire(now);
      if key !in s.residents || s.residents[key].epoch != epoch {
        return Failure(Fenced);
      }
      if exists rid :: rid in s.claims && s.claims[rid].residentKey == key {
        return Failure(Busy);
      }
      if !stopped {
        return Failure(StopUnconfirmed);
      }
      state := s.(residents := s.residents - {key});
      return Success(s.residents[key]);
    }

    method RenewResident(key: ResidentKey, epoch: int, seconds: int, now: real, later: real) returns (r: Result<Resident, Error>)
      requires Inv(Files())
      modifies this
      ensures (r, Files()) == RenewResidentOp(old(Files()), key, epoch, seconds, now, later)
      ensures Inv(Files())
    {
      RecordedStopsComplete(Files());
      RenewResidentKeeps(Files(), key, epoch, seconds, now, later);
      var ok, s := Expire(now);
      if !(1 <= seconds <= s.authority.maxLeaseSeconds) {
        return Failure(OutOfRange);
      }
      if key !in s.residents || s.residents[key].epoch != epoch {
        return Failure(Fenced);
      }
      if s.residents[key].state != Live {
        state := s;
        return Failure(ReconcileRequired);
      }
      var resident := s.residents[key].(leaseUntil := Max(s.residents[key].leaseUntil, later + seconds as real));
      state := s.(residents := s.residents[key := resident]);
      return Success(resident);
    }
  }

  /** The document while `_expire` still has `pending` tickets to look at. */
  function Completed(s: State, h: History, pending: set<Id>): State {
    s.(tickets := map rid | rid in s.tickets && (rid in pending || rid !in h) :: s.tickets[rid],
       claims := map rid | rid in s.claims && !(rid in s.tickets && rid !in pending && rid in h) :: s.claims[rid])
  }

  function Lapsed(s: State, now: real): State {
    s.(claims := map rid | rid in s.claims :: s.claims[rid].(state := Lapse(s.claims[rid].state, s.claims[rid].leaseUntil, now)),
       residents := map k | k in s.residents ::
                      s.residents[k].(state := Lapse(s.residents[k].state, s.residents[k].leaseUntil, now)))
  }

  lemma CompletedThenLapsed(s: State, h: History, now: real)
    ensures Lapsed(Completed(s, h, {}), now) == Expired(s, h, now)
  {
  }

  lemma EnqueueKeepsIfInv(d: Disk, t: Ticket)
    ensures Inv(d) ==> Inv(EnqueueOp(d, t).1)
  {
    if Inv(d) {
      EnqueueKeeps(d, t);
    }
  }
}
