/**
 What each call on the resource pool may do to the two files, stated on the files before and after it: nothing is freed
 without a confirmed stop, leases lapse and never come back, and a claim is what its ticket asked for on a device that takes it.
 */
module PoolLaws {
  import opened Wrappers
  import opened Ids
  import opened Sums
  import opened PoolState
  import opened PoolSafety

  // ---------------------------------------------------------------------------------------------
  // Nothing is freed without a confirmed stop
  // ---------------------------------------------------------------------------------------------

  /** This call carries the confirmed stop of this claim. */
  predicate StopsClaim(step: Step, c: Claim) {
    && step.Release? && step.stopped
    && step.token.requestId == c.requestId && step.token.uuid == c.uuid && step.token.epoch == c.epoch
  }

  predicate StopsResident(step: Step, key: ResidentKey, r: Resident) {
    step.Evict? && step.stopped && step.key == key && step.epoch == r.epoch
  }

  /** A claim leaves the state only with its confirmed stop, or because its stop is on record already. */
  ghost predicate ClaimStays(d: Disk, step: Step, after: Disk, rid: Id) {
    rid in d.state.claims && rid !in after.state.claims ==>
      rid in d.history || (StopsClaim(step, d.state.claims[rid]) && rid in after.history && after.history[rid].Released?)
  }

  /** A ticket leaves only once its request has a record. */
  ghost predicate TicketStays(d: Disk, after: Disk, rid: Id) {
    rid in d.state.tickets && rid !in after.state.tickets ==> rid in after.history
  }

  /** A resident leaves only with its confirmed stop, and while no claim is left on it. */
  ghost predicate ResidentStays(d: Disk, step: Step, after: Disk, key: ResidentKey) {
    key in d.state.residents && key !in after.state.residents ==>
      && StopsResident(step, key, d.state.residents[key])
      && forall rid :: rid in d.state.claims && d.state.claims[rid].residentKey == key ==> rid in d.history
  }

  /** The same claim, but for its lease. */
  predicate SameClaim(c: Claim, b: Claim) {
    c == b.(state := c.state, leaseUntil := c.leaseUntil)
  }

  /** A record is final; a new one is of a confirmed stop of a claim, or of a cancelled request that has none. */
  ghost predicate RecordGrounded(d: Disk, step: Step, after: Disk, rid: Id) {
    && (rid in d.history ==> rid in after.history && after.history[rid] == d.history[rid])
    && (rid in after.history && rid !in d.history ==>
          && rid in d.state.tickets && after.history[rid].ticket == d.state.tickets[rid].ticket
          && match after.history[rid] {
               case Released(_, claim) => rid in d.state.claims && SameClaim(claim, d.state.claims[rid]) && StopsClaim(step, d.state.claims[rid])
               case Cancelled(_) => rid !in d.state.claims && step.Cancel? && step.rid == rid
             })
  }

  lemma EnqueueFrees(d: Disk, t: Ticket, rid: Id, key: ResidentKey)
    requires Inv(d)
    ensures var step, after := Enqueue(t), EnqueueOp(d, t).1;
      ClaimStays(d, step, after, rid) && TicketStays(d, after, rid) && RecordGrounded(d, step, after, rid) && ResidentStays(d, step, after, key)
  {
  }

  lemma ReleaseFrees(d: Disk, token: Token, stopped: bool, now: real, crash: bool, rid: Id, key: ResidentKey)
    requires Inv(d)
    ensures var step, after := Release(token, stopped, now, crash), ReleaseOp(d, token, stopped, now, crash).1;
      ClaimStays(d, step, after, rid) && TicketStays(d, after, rid) && RecordGrounded(d, step, after, rid) && ResidentStays(d, step, after, key)
  {
    SafeIsTicketed(d.state);
    ReleaseRecords(d, token, stopped, now, crash, rid);
    ReleaseClaims(d, token, stopped, now, crash, rid);
    ReleaseResidents(d, token, stopped, now, crash, key);
  }

  lemma ReleaseRecords(d: Disk, token: Token, stopped: bool, now: real, crash: bool, rid: Id)
    requires Ticketed(d.state)
    ensures RecordGrounded(d, Release(token, stopped, now, crash), ReleaseOp(d, token, stopped, now, crash).1, rid)
  {
  }

  lemma ReleaseClaims(d: Disk, token: Token, stopped: bool, now: real, crash: bool, rid: Id)
    requires Ticketed(d.state)
    ensures var after := ReleaseOp(d, token, stopped, now, crash).1;
      ClaimStays(d, Release(token, stopped, now, crash), after, rid) && TicketStays(d, after, rid)
  {
    ExpiredKeys(d, now);
  }

  lemma ReleaseResidents(d: Disk, token: Token, stopped: bool, now: real, crash: bool, key: ResidentKey)
    ensures ResidentStays(d, Release(token, stopped, now, crash), ReleaseOp(d, token, stopped, now, crash).1, key)
  {
  }

  lemma CancelFrees(d: Disk, victim: Id, now: real, crash: bool, rid: Id, key: ResidentKey)
    requires Inv(d)
    ensures var step, after := Cancel(victim, now, crash), CancelOp(d, victim, now, crash).1;
      ClaimStays(d, step, after, rid) && TicketStays(d, after, rid) && RecordGrounded(d, step, after, rid) && ResidentStays(d, step, after, key)
  {
    SafeIsTicketed(d.state);
    CancelRecords(d, victim, now, crash, rid);
    CancelClaims(d, victim, now, crash, rid);
    CancelResidents(d, victim, now, crash, key);
  }

  lemma CancelRecords(d: Disk, victim: Id, now: real, crash: bool, rid: Id)
    requires Ticketed(d.state)
    ensures RecordGrounded(d, Cancel(victim, now, crash), CancelOp(d, victim, now, crash).1, rid)
  {
    ExpiredKeys(d, now);
  }

  lemma CancelClaims(d: Disk, victim: Id, now: real, crash: bool, rid: Id)
    requires Ticketed(d.state)
    ensures var after := CancelOp(d, victim, now, crash).1; ClaimStays(d, Cancel(victim, now, crash), after, rid) && TicketStays(d, after, rid)
  {
    ExpiredKeys(d, now);
  }

  lemma CancelResidents(d: Disk, victim: Id, now: real, crash: bool, key: ResidentKey)
    ensures ResidentStays(d, Cancel(victim, now, crash), CancelOp(d, victim, now, crash).1, key)
  {
  }

  lemma EvictFrees(d: Disk, victim: ResidentKey, epoch: int, stopped: bool, now: real, rid: Id, key: ResidentKey)
    requires Inv(d)
    ensures var step, after := Evict(victim, epoch, stopped, now), EvictOp(d, victim, epoch, stopped, now).1;
      ClaimStays(d, step, after, rid) && TicketStays(d, after, rid) && RecordGrounded(d, step, after, rid) && ResidentStays(d, step, after, key)
  {
    SafeIsTicketed(d.state);
    EvictRecords(d, victim, epoch, stopped, now, rid);
    EvictResident(d, victim, epoch, stopped, now, key);
  }

  lemma EvictRecords(d: Disk, victim: ResidentKey, epoch: int, stopped: bool, now: real, rid: Id)
    requires Ticketed(d.state)
    ensures var step, after := Evict(victim, epoch, stopped, now), EvictOp(d, victim, epoch, stopped, now).1;
      ClaimStays(d, step, after, rid) && TicketStays(d, after, rid) && RecordGrounded(d, step, after, rid)
  {
    ExpiredKeys(d, now);
  }

  lemma EvictResident(d: Disk, victim: ResidentKey, epoch: int, stopped: bool, now: real, key: ResidentKey)
    requires Ticketed(d.state)
    ensures ResidentStays(d, Evict(victim, epoch, stopped, now), EvictOp(d, victim, epoch, stopped, now).1, key)
  {
    ExpiredUses(d, now, victim);
  }

  /** Who is still on a resident after expiry: exactly the claims whose stop is not on record. */
  lemma ExpiredUses(d: Disk, now: real, key: ResidentKey)
    requires Ticketed(d.state)
    ensures InUse(Expired(d.state, d.history, now), key) <==>
      exists rid :: rid in d.state.claims && rid !in d.history && d.state.claims[rid].residentKey == key
  {
    ExpiredKeys(d, now);
    var s := Expired(d.state, d.history, now);
    forall r | r in s.claims ensures s.claims[r].residentKey == d.state.claims[r].residentKey {
    }
    if r :| r in d.state.claims && r !in d.history && d.state.claims[r].residentKey == key {
      assert r in s.claims;
    }
  }

  /** A call that only expires and adds or extends. */
  ghost predicate OnlyExpires(d: Disk, after: Disk, now: real) {
    var s := Expired(d.state, d.history, now);
    && after.history == d.history
    && (after == d || (after.state.tickets.Keys == s.tickets.Keys && s.claims.Keys <= after.state.claims.Keys && s.residents.Keys <= after.state.residents.Keys))
  }

  lemma ExpiryFrees(d: Disk, step: Step, after: Disk, now: real, rid: Id, key: ResidentKey)
    requires Inv(d) && OnlyExpires(d, after, now)
    ensures ClaimStays(d, step, after, rid) && TicketStays(d, after, rid) && RecordGrounded(d, step, after, rid) && ResidentStays(d, step, after, key)
  {
    SafeIsTicketed(d.state);
    ExpiredKeys(d, now);
  }

  lemma AdmitOnlyExpires(d: Disk, rid: Id, observed: Inventory, now: real, later: real)
    ensures OnlyExpires(d, AdmitOp(d, rid, observed, now, later).1, now)
  {
  }

  lemma RenewOnlyExpires(d: Disk, token: Token, seconds: int, now: real, later: real)
    ensures OnlyExpires(d, RenewOp(d, token, seconds, now, later).1, now)
  {
  }

  lemma RenewResidentOnlyExpires(d: Disk, key: ResidentKey, epoch: int, seconds: int, now: real, later: real)
    ensures OnlyExpires(d, RenewResidentOp(d, key, epoch, seconds, now, later).1, now)
  {
  }

  /** The pool's central law, over every call: claims, residents and tickets leave, and records appear, only as they may. */
  lemma NothingFreedUnstopped(d: Disk, step: Step, rid: Id, key: ResidentKey)
    requires Inv(d)
    ensures var after := Apply(d, step);
      ClaimStays(d, step, after, rid) && TicketStays(d, after, rid) && RecordGrounded(d, step, after, rid) && ResidentStays(d, step, after, key)
  {
    match step
    case Enqueue(t) => EnqueueFrees(d, t, rid, key);
    case Release(token, stopped, now, crash) => ReleaseFrees(d, token, stopped, now, crash, rid, key);
    case Cancel(victim, now, crash) => CancelFrees(d, victim, now, crash, rid, key);
    case Evict(victim, epoch, stopped, now) => EvictFrees(d, victim, epoch, stopped, now, rid, key);
    case Admit(r, observed, now, later) =>
      AdmitOnlyExpires(d, r, observed, now, later);
      ExpiryFrees(d, step, Apply(d, step), now, rid, key);
    case Renew(token, seconds, now, later) =>
      RenewOnlyExpires(d, token, seconds, now, later);
      ExpiryFrees(d, step, Apply(d, step), now, rid, key);
    case RenewResident(k, epoch, seconds, now, later) =>
      RenewResidentOnlyExpires(d, k, epoch, seconds, now, later);
      ExpiryFrees(d, step, Apply(d, step), now, rid, key);
    case Inspect(now) =>
      ExpiryFrees(d, step, Apply(d, step), now, rid, key);
  }

  // ---------------------------------------------------------------------------------------------
  // Identities stay
  // ---------------------------------------------------------------------------------------------

  /** Whoever stays, stays the same: claims and residents but for their leases, tickets but for how often they were overtaken. */
  ghost predicate StaysSame(d: Disk, after: Disk, rid: Id, key: ResidentKey) {
    && after.state.authority == d.state.authority
    && (rid in d.state.claims && rid in after.state.claims ==> SameClaim(after.state.claims[rid], d.state.claims[rid]))
    && (key in d.state.residents && key in after.state.residents ==>
          after.state.residents[key] == d.state.residents[key].(
            state := after.state.residents[key].state, leaseUntil := after.state.residents[key].leaseUntil))
    && (rid in d.state.tickets && rid in after.state.tickets ==>
          after.state.tickets[rid] == d.state.tickets[rid].(bypasses := after.state.tickets[rid].bypasses))
  }

  lemma AdmitStaysSame(d: Disk, r: Id, observed: Inventory, now: real, later: real, rid: Id, key: ResidentKey)
    ensures StaysSame(d, AdmitOp(d, r, observed, now, later).1, rid, key)
  {
    var s := Expired(d.state, d.history, now);
    assert StaysSame(d, d.(state := s), rid, key);
    if Waiting(s, r) {
      var fit := FitOf(s, s.tickets[r].ticket, observed);
      if fit.Fits? {
        AdmittedSame(Disk(s, d.history), r, fit.uuid, fit.key, observed, later, rid, key);
      }
    }
  }

  lemma AdmittedSame(d: Disk, r: Id, uuid: Id, on: ResidentKey, observed: Inventory, later: real, rid: Id, key: ResidentKey)
    requires Waiting(d.state, r) && uuid in observed
    ensures StaysSame(d, d.(state := Admitted(d.state, r, uuid, on, observed, later)), rid, key)
  {
  }

  lemma RenewStaysSame(d: Disk, token: Token, seconds: int, now: real, later: real, rid: Id, key: ResidentKey)
    ensures StaysSame(d, RenewOp(d, token, seconds, now, later).1, rid, key)
  {
  }

  lemma ReleaseStaysSame(d: Disk, token: Token, stopped: bool, now: real, crash: bool, rid: Id, key: ResidentKey)
    ensures StaysSame(d, ReleaseOp(d, token, stopped, now, crash).1, rid, key)
  {
  }

  lemma CancelStaysSame(d: Disk, victim: Id, now: real, crash: bool, rid: Id, key: ResidentKey)
    ensures StaysSame(d, CancelOp(d, victim, now, crash).1, rid, key)
  {
  }

  lemma EvictStaysSame(d: Disk, victim: ResidentKey, epoch: int, stopped: bool, now: real, rid: Id, key: ResidentKey)
    ensures StaysSame(d, EvictOp(d, victim, epoch, stopped, now).1, rid, key)
  {
  }

  lemma RenewResidentStaysSame(d: Disk, k: ResidentKey, epoch: int, seconds: int, now: real, later: real, rid: Id, key: ResidentKey)
    ensures StaysSame(d, RenewResidentOp(d, k, epoch, seconds, now, later).1, rid, key)
  {
  }

  lemma IdentitiesStay(d: Disk, step: Step, rid: Id, key: ResidentKey)
    requires Inv(d)
    ensures StaysSame(d, Apply(d, step), rid, key)
  {
    match step
    case Enqueue(t) =>
    case Admit(r, observed, now, later) => AdmitStaysSame(d, r, observed, now, later, rid, key);
    case Renew(token, seconds, now, later) => RenewStaysSame(d, token, seconds, now, later, rid, key);
    case Release(token, stopped, now, crash) => ReleaseStaysSame(d, token, stopped, now, crash, rid, key);
    case Cancel(victim, now, crash) => CancelStaysSame(d, victim, now, crash, rid, key);
    case Evict(victim, epoch, stopped, now) => EvictStaysSame(d, victim, epoch, stopped, now, rid, key);
    case RenewResident(k, epoch, seconds, now, later) => RenewResidentStaysSame(d, k, epoch, seconds, now, later, rid, key);
    case Inspect(now) =>
  }

  // ---------------------------------------------------------------------------------------------
  // Runs
  // ---------------------------------------------------------------------------------------------

  ghost predicate Stopped(steps: seq<Step>, c: Claim) {
    exists i :: 0 <= i < |steps| && StopsClaim(steps[i], c)
  }

  lemma StoppedLater(steps: seq<Step>, c: Claim)
    requires steps != [] && (StopsClaim(steps[0], c) || Stopped(steps[1..], c))
    ensures Stopped(steps, c)
  {
    if Stopped(steps[1..], c) {
      var i :| 0 <= i < |steps[1..]| && StopsClaim(steps[1..][i], c);
      assert StopsClaim(steps[i + 1], c);
    }
  }

  /** Some key, where only the request matters. */
  ghost function AnyKey(rid: Id): ResidentKey {
    ResidentKey(rid, ModelKey(rid, rid, rid))
  }

  lemma {:induction false} RecordsFinal(d: Disk, steps: seq<Step>, rid: Id)
    requires Inv(d) && rid in d.history
    ensures rid in Run(d, steps).history && Run(d, steps).history[rid] == d.history[rid]
    decreases |steps|
  {
    if steps != [] {
      StepKeeps(d, steps[0]);
      NothingFreedUnstopped(d, steps[0], rid, AnyKey(rid));
      RecordsFinal(Apply(d, steps[0]), steps[1..], rid);
    }
  }

  /** Over every run: what is newly recorded as released was confirmed stopped in a call of the run. */
  lemma {:induction false} ReleasedWasStopped(d: Disk, steps: seq<Step>, rid: Id)
    requires Inv(d) && rid !in d.history && rid in Run(d, steps).history && Run(d, steps).history[rid].Released?
    ensures Run(d, steps).history[rid].claim.requestId == rid && Stopped(steps, Run(d, steps).history[rid].claim)
    decreases |steps|
  {
    if steps != [] {
      var next := Apply(d, steps[0]);
      StepKeeps(d, steps[0]);
      NothingFreedUnstopped(d, steps[0], rid, AnyKey(rid));
      if rid in next.history {
        RecordsFinal(next, steps[1..], rid);
        assert ClaimOk(d.state, rid);
      } else {
        ReleasedWasStopped(next, steps[1..], rid);
      }
      StoppedLater(steps, Run(d, steps).history[rid].claim);
    }
  }

  /** Over every run: a claim that is gone is on record as released, so it was confirmed stopped in a call of the run. */
  lemma {:induction false} GoneWasStopped(d: Disk, steps: seq<Step>, rid: Id)
    requires Inv(d) && rid !in d.history && rid in d.state.claims && rid !in Run(d, steps).state.claims
    ensures rid in Run(d, steps).history && Run(d, steps).history[rid].Released?
    ensures SameClaim(Run(d, steps).history[rid].claim, d.state.claims[rid]) && Stopped(steps, d.state.claims[rid])
    decreases |steps|
  {
    var next := Apply(d, steps[0]);
    StepKeeps(d, steps[0]);
    NothingFreedUnstopped(d, steps[0], rid, AnyKey(rid));
    IdentitiesStay(d, steps[0], rid, AnyKey(rid));
    if rid in next.history {
      RecordsFinal(next, steps[1..], rid);
    } else {
      GoneWasStopped(next, steps[1..], rid);
    }
    StoppedLater(steps, d.state.claims[rid]);
  }

  /** Over every run a resident that is gone was confirmed stopped in a call of the run. */
  lemma {:induction false} EvictedWasStopped(d: Disk, steps: seq<Step>, key: ResidentKey) returns (i: nat)
    requires Inv(d) && key in d.state.residents && key !in Run(d, steps).state.residents
    ensures i < |steps| && steps[i].Evict? && steps[i].stopped && steps[i].key == key
    decreases |steps|
  {
    i := 0;
    if key in Apply(d, steps[0]).state.residents {
      StepKeeps(d, steps[0]);
      var later := EvictedWasStopped(Apply(d, steps[0]), steps[1..], key);
      i := later + 1;
    } else {
      OneEvicted(d, steps[0], key);
    }
  }

  lemma OneEvicted(d: Disk, step: Step, key: ResidentKey)
    requires Inv(d) && key in d.state.residents && key !in Apply(d, step).state.residents
    ensures step.Evict? && step.stopped && step.key == key
  {
    NothingFreedUnstopped(d, step, key.uuid, key);
  }

  // ---------------------------------------------------------------------------------------------
  // Leases
  // ---------------------------------------------------------------------------------------------

  function ClockOf(step: Step): Option<real> {
    match step
    case Enqueue(_) => None
    case Admit(_, _, now, _) => Some(now)
    case Renew(_, _, now, _) => Some(now)
    case Release(_, _, now, _) => Some(now)
    case Cancel(_, now, _) => Some(now)
    case Evict(_, _, _, now) => Some(now)
    case RenewResident(_, _, _, now, _) => Some(now)
    case Inspect(now) => Some(now)
  }

  predicate Lapsed(step: Step, until: real) {
    ClockOf(step).Some? && until <= ClockOf(step).value
  }

  /** A call that writes the state, or inspects it. */
  predicate Saves(d: Disk, step: Step, after: Disk) {
    step.Inspect? || after.state != d.state
  }

  /** A lease becomes unknown exactly when it has run out by the clock of a call that writes, and never comes back. */
  predicate LeaseTurns(d: Disk, step: Step, after: Disk, was: Lease, until: real, turned: Lease) {
    && (turned != was ==> was == Live && Lapsed(step, until))
    && (Saves(d, step, after) && Lapsed(step, until) ==> turned == Unknown)
  }

  /** This call renews the claim: by its owner, in time, for an allowed period counted from now. */
  predicate RenewsClaim(d: Disk, step: Step, c: Claim) {
    && step.Renew? && step.token == Token(c.requestId, c.uuid, c.epoch) && 1 <= step.seconds <= d.state.authority.maxLeaseSeconds
    && c.state == Live && !Lapsed(step, c.leaseUntil)
  }

  ghost predicate ClaimLease(d: Disk, step: Step, after: Disk, rid: Id) {
    rid in d.state.claims && rid in after.state.claims ==>
      var c, b := after.state.claims[rid], d.state.claims[rid];
      && LeaseTurns(d, step, after, b.state, b.leaseUntil, c.state)
      && (c.leaseUntil != b.leaseUntil ==> RenewsClaim(d, step, b) && c.leaseUntil == step.later + step.seconds as real)
  }

  /** A resident's lease only grows, and only by a renewal of its own or of a claim on it, or by an admission. */
  ghost predicate ResidentLease(d: Disk, step: Step, after: Disk, key: ResidentKey) {
    key in d.state.residents && key in after.state.residents ==>
      var c, b := after.state.residents[key], d.state.residents[key];
      && LeaseTurns(d, step, after, b.state, b.leaseUntil, c.state)
      && c.leaseUntil >= b.leaseUntil && (c.leaseUntil != b.leaseUntil ==> b.state == Live && !Lapsed(step, b.leaseUntil) && Extends(d, step, after, key))
  }

  ghost predicate Extends(d: Disk, step: Step, after: Disk, key: ResidentKey)
    requires key in d.state.residents && key in after.state.residents
  {
    match step
    case RenewResident(k, epoch, seconds, _, later) =>
      && k == key && epoch == d.state.residents[key].epoch && 1 <= seconds <= d.state.authority.maxLeaseSeconds
      && after.state.residents[key].leaseUntil == later + seconds as real
    case Renew(token, seconds, _, later) =>
      && token.requestId in d.state.claims && d.state.claims[token.requestId].residentKey == key
      && RenewsClaim(d, step, d.state.claims[token.requestId]) && after.state.residents[key].leaseUntil == later + seconds as real
    case Admit(rid, _, _, _) =>
      && rid !in d.state.claims && rid in after.state.claims && after.state.claims[rid].residentKey == key
      && after.state.residents[key].leaseUntil == after.state.claims[rid].leaseUntil
    case _ => false
  }

  ghost predicate Leases(d: Disk, step: Step, after: Disk, rid: Id, key: ResidentKey) {
    ClaimLease(d, step, after, rid) && ResidentLease(d, step, after, key)
  }

  /** Expiry alone, with anything freed or cancelled besides. */
  lemma ExpiryLeases(d: Disk, step: Step, after: Disk, rid: Id, key: ResidentKey)
    requires ClockOf(step).Some?
    requires var s := Expired(d.state, d.history, ClockOf(step).value);
      after.state == d.state ||
      ((rid in after.state.claims ==> rid in s.claims && after.state.claims[rid] == s.claims[rid])
       && (key in after.state.residents ==> key in s.residents && after.state.residents[key] == s.residents[key]))
    requires step.Inspect? ==> after.state == Expired(d.state, d.history, ClockOf(step).value)
    ensures Leases(d, step, after, rid, key)
  {
  }

  lemma ReleaseLeases(d: Disk, token: Token, stopped: bool, now: real, crash: bool, rid: Id, key: ResidentKey)
    ensures Leases(d, Release(token, stopped, now, crash), ReleaseOp(d, token, stopped, now, crash).1, rid, key)
  {
    ExpiryLeases(d, Release(token, stopped, now, crash), ReleaseOp(d, token, stopped, now, crash).1, rid, key);
  }

  lemma CancelLeases(d: Disk, victim: Id, now: real, crash: bool, rid: Id, key: ResidentKey)
    ensures Leases(d, Cancel(victim, now, crash), CancelOp(d, victim, now, crash).1, rid, key)
  {
    ExpiryLeases(d, Cancel(victim, now, crash), CancelOp(d, victim, now, crash).1, rid, key);
  }

  lemma EvictLeases(d: Disk, victim: ResidentKey, epoch: int, stopped: bool, now: real, rid: Id, key: ResidentKey)
    ensures Leases(d, Evict(victim, epoch, stopped, now), EvictOp(d, victim, epoch, stopped, now).1, rid, key)
  {
    ExpiryLeases(d, Evict(victim, epoch, stopped, now), EvictOp(d, victim, epoch, stopped, now).1, rid, key);
  }

  lemma RenewClaimLease(d: Disk, token: Token, seconds: int, now: real, later: real, rid: Id)
    ensures ClaimLease(d, Renew(token, seconds, now, later), RenewOp(d, token, seconds, now, later).1, rid)
  {
  }

  lemma RenewItsResident(d: Disk, token: Token, seconds: int, now: real, later: real, key: ResidentKey)
    ensures ResidentLease(d, Renew(token, seconds, now, later), RenewOp(d, token, seconds, now, later).1, key)
  {
  }

  lemma RenewResidentLeases(d: Disk, k: ResidentKey, epoch: int, seconds: int, now: real, later: real, rid: Id, key: ResidentKey)
    ensures Leases(d, RenewResident(k, epoch, seconds, now, later), RenewResidentOp(d, k, epoch, seconds, now, later).1, rid, key)
  {
  }

  lemma AdmitLeases(d: Disk, r: Id, observed: Inventory, now: real, later: real, rid: Id, key: ResidentKey)
    requires Inv(d)
    ensures Leases(d, Admit(r, observed, now, later), AdmitOp(d, r, observed, now, later).1, rid, key)
  {
    var step, after := Admit(r, observed, now, later), AdmitOp(d, r, observed, now, later).1;
    AdmissionIsAClaim(d, step, r);
    if !Admits(d, step, r) {
      ExpiryLeases(d, step, after, rid, key);
    } else {
      SafeIsTicketed(d.state);
      ExpiredKeys(d, now);
      AdmittedLeases(d, step, rid, key);
    }
  }

  lemma AdmittedLeases(d: Disk, step: Step, rid: Id, key: ResidentKey)
    requires Inv(d) && step.Admit? && Admits(d, step, step.rid) && step.rid !in d.state.claims && step.rid !in d.history
    ensures Leases(d, step, Apply(d, step), rid, key)
  {
    var s := Expired(d.state, d.history, step.now);
    var fit := FitOf(s, s.tickets[step.rid].ticket, step.observed);
    var on := FitComesFrom(s, s.tickets[step.rid].ticket, step.observed, 0);
    assert !AnyUnknown(s, on.uuid);
    assert fit.key in s.residents ==> ResidentOk(d.state, fit.key) && s.residents[fit.key].state == Live;
    AdmittedClaims(d, step, fit.uuid, fit.key, rid);
    AdmittedResident(d, step, fit.uuid, fit.key, key);
  }

  lemma AdmittedClaims(d: Disk, step: Step, uuid: Id, on: ResidentKey, rid: Id)
    requires step.Admit? && step.rid !in d.state.claims && uuid in step.observed
    requires var s := Expired(d.state, d.history, step.now); step.rid in s.tickets && Apply(d, step).state == Admitted(s, step.rid, uuid, on, step.observed, step.later)
    ensures ClaimLease(d, step, Apply(d, step), rid)
  {
  }

  lemma AdmittedResident(d: Disk, step: Step, uuid: Id, on: ResidentKey, key: ResidentKey)
    requires step.Admit? && step.rid !in d.state.claims && uuid in step.observed
    requires var s := Expired(d.state, d.history, step.now);
      && step.rid in s.tickets && Apply(d, step).state == Admitted(s, step.rid, uuid, on, step.observed, step.later)
      && (on in s.residents ==> s.residents[on].state == Live)
    ensures ResidentLease(d, step, Apply(d, step), key)
  {
  }

  /** Over every call: leases lapse by the clock, never come back, and grow only as they may. */
  lemma LeasesLapse(d: Disk, step: Step, rid: Id, key: ResidentKey)
    requires Inv(d)
    ensures Leases(d, step, Apply(d, step), rid, key)
  {
    match step
    case Enqueue(t) =>
    case Admit(r, observed, now, later) => AdmitLeases(d, r, observed, now, later, rid, key);
    case Renew(token, seconds, now, later) =>
      RenewClaimLease(d, token, seconds, now, later, rid);
      RenewItsResident(d, token, seconds, now, later, key);
    case Release(token, stopped, now, crash) => ReleaseLeases(d, token, stopped, now, crash, rid, key);
    case Cancel(victim, now, crash) => CancelLeases(d, victim, now, crash, rid, key);
    case Evict(victim, epoch, stopped, now) => EvictLeases(d, victim, epoch, stopped, now, rid, key);
    case RenewResident(k, epoch, seconds, now, later) => RenewResidentLeases(d, k, epoch, seconds, now, later, rid, key);
    case Inspect(now) => ExpiryLeases(d, step, Apply(d, step), rid, key);
  }

  // ---------------------------------------------------------------------------------------------
  // What a device takes
  // ---------------------------------------------------------------------------------------------

  /** Every claim and resident of the device is certain, and neither its slots nor an exclusive claim keep others out. */
  ghost predicate Receptive(s: State, d: Device) {
    && (forall r :: r in s.claims && s.claims[r].uuid == d.uuid ==> s.claims[r].state == Live && s.claims[r].mode == Shared)
    && (forall k :: k in s.residents && s.residents[k].uuid == d.uuid ==> s.residents[k].state == Live)
    && SumBy(s.claims, ClaimOn(d.uuid)) < d.slots
  }

  /** The ticket's model is resident there already, or may become so. */
  ghost predicate Houses(s: State, t: Ticket, d: Device) {
    var key := ResidentKey(d.uuid, t.model);
    && (key !in s.residents ==> |s.residents| < s.authority.maxResidentModels)
    && (t.mode == Exclusive ==>
          && (forall r :: r in s.claims ==> s.claims[r].uuid != d.uuid)
          && (forall k :: k in s.residents && s.residents[k].uuid == d.uuid ==> k == key))
  }

  /** What is promised and asked fits the device as authorized and as observed; what is promised but not yet seen in use is not free. */
  ghost predicate HasMemory(s: State, t: Ticket, d: Device, o: Observation) {
    var promised := SumBy(s.residents, ResidentOn(d.uuid)) + SumBy(s.claims, WorkspaceOn(d.uuid));
    var asked := if ResidentKey(d.uuid, t.model) in s.residents then t.workspaceMb else t.workspaceMb + t.residentMb;
    && promised + asked <= d.vramMb && promised + asked <= o.totalMb
    && asked <= o.freeMb && asked + promised - o.managedUsedMb <= o.freeMb
  }

  ghost predicate Offered(t: Ticket, d: Device, observed: Inventory) {
    d.uuid in t.eligible && d.uuid in observed
  }

  /** Looking at the device is an error: its resident of the ticket's model has another size, or more is in use than was promised. */
  ghost predicate Alarms(s: State, t: Ticket, d: Device, observed: Inventory) {
    var key := ResidentKey(d.uuid, t.model);
    Offered(t, d, observed) && Receptive(s, d) &&
    if key in s.residents && s.residents[key].residentMb != t.residentMb then true
    else Houses(s, t, d) && observed[d.uuid].managedUsedMb > SumBy(s.residents, ResidentOn(d.uuid)) + SumBy(s.claims, WorkspaceOn(d.uuid))
  }

  ghost predicate Takes(s: State, t: Ticket, d: Device, observed: Inventory) {
    Offered(t, d, observed) && !Alarms(s, t, d, observed) && Receptive(s, d) && Houses(s, t, d) && HasMemory(s, t, d, observed[d.uuid])
  }

  lemma OneDeviceDecides(s: State, t: Ticket, d: Device, observed: Inventory)
    ensures FitOn(s, t, d, observed).Fits? <==> Takes(s, t, d, observed)
    ensures FitOn(s, t, d, observed).Raises? <==> Alarms(s, t, d, observed)
    ensures FitOn(s, t, d, observed).Fits? ==> FitOn(s, t, d, observed) == Fits(d.uuid, ResidentKey(d.uuid, t.model))
  {
    OpenIsReceptive(s, t, d, observed);
    UnbarredHouses(s, t, d);
  }

  lemma OpenIsReceptive(s: State, t: Ticket, d: Device, observed: Inventory)
    ensures !Closed(s, t, d, observed) <==> Offered(t, d, observed) && Receptive(s, d)
  {
  }

  lemma UnbarredHouses(s: State, t: Ticket, d: Device)
    ensures !Barred(s, t, d, ResidentKey(d.uuid, t.model)) <==> Houses(s, t, d)
  {
  }

  /** The device is passed over: neither takes the ticket nor is in error. */
  ghost predicate PassedOver(s: State, t: Ticket, d: Device, observed: Inventory) {
    !Takes(s, t, d, observed) && !Alarms(s, t, d, observed)
  }

  /** All devices from `i` up to `j` are passed over. */
  ghost predicate PassedUpTo(s: State, t: Ticket, observed: Inventory, i: nat, j: nat)
    requires j <= |s.authority.devices|
  {
    forall k :: i <= k < j ==> PassedOver(s, t, s.authority.devices[k], observed)
  }

  ghost predicate FirstTaker(s: State, t: Ticket, observed: Inventory, i: nat, j: nat) {
    i <= j < |s.authority.devices| && Takes(s, t, s.authority.devices[j], observed) && PassedUpTo(s, t, observed, i, j)
  }

  ghost predicate FirstAlarm(s: State, t: Ticket, observed: Inventory, i: nat, j: nat) {
    i <= j < |s.authority.devices| && Alarms(s, t, s.authority.devices[j], observed) && PassedUpTo(s, t, observed, i, j)
  }

  /** The scan ends with the first device that answers at all. */
  lemma {:induction false} FirstAnswers(s: State, t: Ticket, observed: Inventory, i: nat) returns (j: nat)
    requires i <= |s.authority.devices|
    ensures i <= j <= |s.authority.devices| && forall k :: i <= k < j ==> FitOn(s, t, s.authority.devices[k], observed) == NoFit
    ensures FitFrom(s, t, observed, i) == if j == |s.authority.devices| then NoFit else FitOn(s, t, s.authority.devices[j], observed)
    ensures j < |s.authority.devices| ==> FitOn(s, t, s.authority.devices[j], observed) != NoFit
    decreases |s.authority.devices| - i
  {
    j := i;
    if i < |s.authority.devices| && FitOn(s, t, s.authority.devices[i], observed).NoFit? {
      j := FirstAnswers(s, t, observed, i + 1);
    }
  }

  lemma PassedWhen(s: State, t: Ticket, observed: Inventory, j: nat)
    requires j <= |s.authority.devices| && forall k :: 0 <= k < j ==> FitOn(s, t, s.authority.devices[k], observed) == NoFit
    ensures PassedUpTo(s, t, observed, 0, j)
  {
    forall k | 0 <= k < j ensures PassedOver(s, t, s.authority.devices[k], observed) {
      OneDeviceDecides(s, t, s.authority.devices[k], observed);
    }
  }

  /** Another model under the same resident identity is loaded somewhere. */
  ghost predicate ModelClash(s: State, t: Ticket) {
    exists k :: k in s.residents && s.residents[k].model.residentId == t.model.residentId && s.residents[k].model != t.model
  }

  /** The device scan: no device is looked at while models clash; else the first that takes the ticket or is in error decides. */
  lemma FitDecides(s: State, t: Ticket, observed: Inventory)
    ensures ModelClash(s, t) ==> FitOf(s, t, observed) == Raises(ModelChanged)
    ensures !ModelClash(s, t) ==> match FitOf(s, t, observed)
      case NoFit => PassedUpTo(s, t, observed, 0, |s.authority.devices|)
      case Fits(uuid, key) => exists j: nat :: FirstTaker(s, t, observed, 0, j) && uuid == s.authority.devices[j].uuid && key == ResidentKey(uuid, t.model)
      case Raises(_) => exists j: nat :: FirstAlarm(s, t, observed, 0, j)
  {
    var j := FirstAnswers(s, t, observed, 0);
    PassedWhen(s, t, observed, j);
    if j < |s.authority.devices| {
      OneDeviceDecides(s, t, s.authority.devices[j], observed);
      assert FirstTaker(s, t, observed, 0, j) || FirstAlarm(s, t, observed, 0, j);
    }
  }

  // ---------------------------------------------------------------------------------------------
  // What an admission grants
  // ---------------------------------------------------------------------------------------------

  /** The claim is what its ticket asked for, under a number above all before it. */
  ghost predicate ClaimOf(d: Disk, after: Disk, rid: Id, until: real)
    requires rid in d.state.tickets && rid in after.state.claims
  {
    var t, c := d.state.tickets[rid].ticket, after.state.claims[rid];
    && c.requestId == rid && c.jobId == t.jobId && c.workspaceMb == t.workspaceMb && c.mode == t.mode
    && c.uuid in t.eligible && c.residentKey == ResidentKey(c.uuid, t.model)
    && c.state == Live && c.leaseUntil == until
    && c.epoch == after.state.epoch && forall r :: r in d.state.claims ==> d.state.claims[r].epoch < c.epoch
  }

  /** It stands on a certain resident of its model and size that outlasts it, a new one only where there was none. */
  ghost predicate Housed(d: Disk, after: Disk, rid: Id)
    requires rid in d.state.tickets && rid in after.state.claims
  {
    var t, c := d.state.tickets[rid].ticket, after.state.claims[rid];
    c.residentKey in after.state.residents &&
    var r := after.state.residents[c.residentKey];
    && r.uuid == c.uuid && r.model == t.model && r.residentMb == t.residentMb && r.state == Live
    && r.epoch == c.residentEpoch && r.leaseUntil >= c.leaseUntil
    && (c.residentKey !in d.state.residents ==> r.epoch == c.epoch && r.leaseUntil == c.leaseUntil)
    && after.state.residents.Keys == d.state.residents.Keys + {c.residentKey}
  }

  lemma AdmittedAs(d: Disk, step: Step, rid: Id)
    requires Inv(d) && Appears(d, step, rid)
    ensures step.Admit? && step.rid == rid && d.state.authority.authorized && rid in d.state.tickets && rid !in d.history
    ensures var after := Apply(d, step);
      ClaimOf(d, after, rid, step.later + d.state.tickets[rid].ticket.leaseSeconds as real) && Housed(d, after, rid)
    ensures var s, t := Expired(d.state, d.history, step.now), d.state.tickets[rid].ticket;
      exists on :: on in d.state.authority.devices && on.uuid == Apply(d, step).state.claims[rid].uuid && Takes(s, t, on, step.observed)
  {
    AdmissionIsAClaim(d, step, rid);
    var s := Expired(d.state, d.history, step.now);
    var t := s.tickets[rid].ticket;
    var on := FitComesFrom(s, t, step.observed, 0);
    assert TicketOk(d.state, rid);
    OneDeviceDecides(s, t, on, step.observed);
    AdmittedContent(d, step, on);
  }

  lemma AdmittedContent(d: Disk, step: Step, on: Device)
    requires Inv(d) && step.Admit? && step.rid in d.state.tickets && step.rid !in d.history && step.rid !in d.state.claims
    requires var s := Expired(d.state, d.history, step.now);
      && on.uuid in step.observed && Takes(s, d.state.tickets[step.rid].ticket, on, step.observed)
      && Apply(d, step).state == Admitted(s, step.rid, on.uuid, ResidentKey(on.uuid, d.state.tickets[step.rid].ticket.model), step.observed, step.later)
    ensures var after := Apply(d, step);
      && step.rid in after.state.claims && after.state.claims[step.rid].uuid == on.uuid
      && ClaimOf(d, after, step.rid, step.later + d.state.tickets[step.rid].ticket.leaseSeconds as real) && Housed(d, after, step.rid)
  {
    assert TicketOk(d.state, step.rid);
    var t := d.state.tickets[step.rid].ticket;
    if ResidentKey(on.uuid, t.model) in d.state.residents {
      assert ResidentOk(d.state, ResidentKey(on.uuid, t.model));
      TakesKnown(d, step.now, t, on, step.observed);
    }
    EpochsBelow(d);
    NewClaimIs(d, step, on);
    NewHouse(d, step, on);
  }

  lemma EpochsBelow(d: Disk)
    requires Inv(d)
    ensures forall r :: r in d.state.claims ==> d.state.claims[r].epoch <= d.state.epoch
  {
    forall r | r in d.state.claims ensures d.state.claims[r].epoch <= d.state.epoch {
      assert ClaimOk(d.state, r);
    }
  }

  lemma NewClaimIs(d: Disk, step: Step, on: Device)
    requires step.Admit? && step.rid in d.state.tickets && d.state.tickets[step.rid].ticket.requestId == step.rid
    requires on.uuid in step.observed && on.uuid in d.state.tickets[step.rid].ticket.eligible
    requires forall r :: r in d.state.claims ==> d.state.claims[r].epoch <= d.state.epoch
    requires var s := Expired(d.state, d.history, step.now);
      && step.rid in s.tickets
      && Apply(d, step).state == Admitted(s, step.rid, on.uuid, ResidentKey(on.uuid, d.state.tickets[step.rid].ticket.model), step.observed, step.later)
    ensures var after := Apply(d, step);
      && step.rid in after.state.claims && after.state.claims[step.rid].uuid == on.uuid
      && ClaimOf(d, after, step.rid, step.later + d.state.tickets[step.rid].ticket.leaseSeconds as real)
  {
  }

  lemma NewHouse(d: Disk, step: Step, on: Device)
    requires step.Admit? && step.rid in d.state.tickets
    requires var s, key := Expired(d.state, d.history, step.now), ResidentKey(on.uuid, d.state.tickets[step.rid].ticket.model);
      && step.rid in s.tickets && on.uuid in step.observed
      && (key in s.residents ==> KnownHouse(s, d.state.tickets[step.rid].ticket, on))
      && Apply(d, step).state == Admitted(s, step.rid, on.uuid, key, step.observed, step.later)
    ensures step.rid in Apply(d, step).state.claims && Housed(d, Apply(d, step), step.rid)
  {
  }

  ghost predicate KnownHouse(s: State, t: Ticket, on: Device)
    requires ResidentKey(on.uuid, t.model) in s.residents
  {
    var r := s.residents[ResidentKey(on.uuid, t.model)];
    r.uuid == on.uuid && r.model == t.model && r.residentMb == t.residentMb && r.state == Live
  }

  lemma TakesKnown(d: Disk, now: real, t: Ticket, on: Device, observed: Inventory)
    requires var s, key := Expired(d.state, d.history, now), ResidentKey(on.uuid, t.model);
      key in s.residents && ResidentOk(d.state, key) && Takes(s, t, on, observed)
    ensures KnownHouse(Expired(d.state, d.history, now), t, on)
  {
  }

  /** Somebody older is served first: it fits the device, or has been overtaken as often as it may be. */
  ghost predicate ServedFirst(s: State, other: Id, rid: Id, uuid: Id, observed: Inventory)
    requires rid in s.tickets && uuid in observed
  {
    && other in s.tickets && other !in s.claims && s.tickets[other].order < s.tickets[rid].order && uuid in s.tickets[other].ticket.eligible
    && var fit := FitOf(s, s.tickets[other].ticket, map[uuid := observed[uuid]]);
       fit.Fits? || (fit != Raises(ModelChanged) && s.tickets[other].bypasses >= s.authority.maxBypasses)
  }

  /** A waiting ticket is admitted exactly when the pool is authorized, a device takes it and nobody older is served first there. */
  lemma AdmittedWhen(d: Disk, rid: Id, observed: Inventory, now: real, later: real)
    requires Inv(d) && rid in d.state.tickets && rid !in d.state.claims && rid !in d.history
    ensures var s := Expired(d.state, d.history, now);
      rid in s.tickets &&
      var fit := FitOf(s, s.tickets[rid].ticket, observed);
      Appears(d, Admit(rid, observed, now, later), rid) <==>
        s.authority.authorized && fit.Fits? && forall other :: !ServedFirst(s, other, rid, fit.uuid, observed)
  {
    var step, s := Admit(rid, observed, now, later), Expired(d.state, d.history, now);
    AdmissionIsAClaim(d, step, rid);
    var fit := FitOf(s, s.tickets[rid].ticket, observed);
    if fit.Fits? {
      forall other ensures MustYield(s, other, rid, fit.uuid, observed) <==> ServedFirst(s, other, rid, fit.uuid, observed) {
      }
    }
  }

  /** Whoever is told that it holds a claim holds that very claim. */
  lemma HoldingIsHeld(d: Disk, rid: Id, observed: Inventory, now: real, later: real)
    requires Inv(d) && AdmitOp(d, rid, observed, now, later).0.Success? && AdmitOp(d, rid, observed, now, later).0.value.Holding?
    ensures var (told, after) := AdmitOp(d, rid, observed, now, later);
      rid in after.state.claims && after.state.claims[rid] == told.value.claim
  {
  }

  /** Whoever is told that it is past is, by that very record. */
  lemma PastIsOnRecord(d: Disk, rid: Id, observed: Inventory, now: real, later: real)
    requires Inv(d) && AdmitOp(d, rid, observed, now, later).0.Success? && AdmitOp(d, rid, observed, now, later).0.value.Past?
    ensures var (told, after) := AdmitOp(d, rid, observed, now, later);
      rid in d.history && d.history[rid] == told.value.record && rid !in after.state.claims
  {
    SafeIsTicketed(d.state);
    ExpiredKeys(d, now);
  }

  /** Whoever is told to wait, or that another goes first, still waits. */
  lemma RefusedStillWaits(d: Disk, rid: Id, observed: Inventory, now: real, later: real)
    requires Inv(d) && AdmitOp(d, rid, observed, now, later).0.Success?
    requires !AdmitOp(d, rid, observed, now, later).0.value.Holding? && !AdmitOp(d, rid, observed, now, later).0.value.Past?
    ensures var after := AdmitOp(d, rid, observed, now, later).1;
      rid in after.state.tickets && rid !in after.state.claims && rid !in d.history
  {
    SafeIsTicketed(d.state);
    ExpiredKeys(d, now);
  }

  /** A failed admission changes nothing. */
  lemma AdmitRefusals(d: Disk, rid: Id, observed: Inventory, now: real, later: real)
    requires Inv(d) && AdmitOp(d, rid, observed, now, later).0.Failure?
    ensures var (told, after) := AdmitOp(d, rid, observed, now, later);
      after == d && (told.error == NotAuthorized <==> !d.state.authority.authorized) && (told.error == NotFound ==> rid !in d.state.tickets)
  {
    SafeIsTicketed(d.state);
    ExpiredKeys(d, now);
    var s := Expired(d.state, d.history, now);
    if rid in s.tickets {
      RaisesWhat(s, s.tickets[rid].ticket, observed, 0);
    }
  }

  /** What has lapsed by then is on record after every answer that is no failure, also where nothing is admitted. */
  lemma AdmitRecordsLapses(d: Disk, rid: Id, observed: Inventory, now: real, later: real)
    requires Inv(d) && AdmitOp(d, rid, observed, now, later).0.Success? && !Appears(d, Admit(rid, observed, now, later), rid)
    ensures AdmitOp(d, rid, observed, now, later).1 == Apply(d, Inspect(now))
  {
    SafeIsTicketed(d.state);
    ExpiredKeys(d, now);
    AdmissionIsAClaim(d, Admit(rid, observed, now, later), rid);
  }

  /** A request that is claimed or finished already is answered with its claim or its record. */
  lemma AdmittedAgain(d: Disk, rid: Id, observed: Inventory, now: real, later: real)
    requires Inv(d) && d.state.authority.authorized
    ensures var told := AdmitOp(d, rid, observed, now, later).0;
      && (rid in d.history ==> told == Success(Past(d.history[rid])))
      && (rid !in d.history && rid in d.state.claims ==> told.Success? && told.value.Holding? && SameClaim(told.value.claim, d.state.claims[rid]))
      && (rid !in d.history && rid !in d.state.tickets ==> told == Failure(NotFound))
  {
    SafeIsTicketed(d.state);
    ExpiredKeys(d, now);
  }

  lemma {:induction false} RaisesWhat(s: State, t: Ticket, observed: Inventory, i: nat)
    requires i <= |s.authority.devices|
    ensures FitFrom(s, t, observed, i).Raises? ==> FitFrom(s, t, observed, i).error in {ModelChanged, MemoryViolation}
    decreases |s.authority.devices| - i
  {
    if i < |s.authority.devices| {
      RaisesWhat(s, t, observed, i + 1);
    }
  }

  // ---------------------------------------------------------------------------------------------
  // What the other calls do when nothing stands against them, and how they refuse
  // ---------------------------------------------------------------------------------------------

  /** A request waits in line at most once, behind all others, within the queue's bound, and only if it could ever run. */
  lemma EnqueuedWhen(d: Disk, t: Ticket)
    requires Inv(d)
    ensures var s, rid, (told, after) := d.state, t.requestId, EnqueueOp(d, t);
      && (rid !in s.tickets ==>
            (rid in after.state.tickets <==>
               && t.residentMb >= 1 && t.workspaceMb >= 0 && 1 <= t.leaseSeconds <= s.authority.maxLeaseSeconds && t.eligible != {}
               && (forall u :: u in t.eligible ==> exists v :: v in s.authority.devices && v.uuid == u)
               && (exists v :: v in s.authority.devices && v.uuid in t.eligible && t.residentMb + t.workspaceMb <= v.vramMb)
               && rid !in d.history && |s.tickets| < s.authority.maxQueued))
      && (rid !in s.tickets && rid in after.state.tickets ==>
            && after.state.tickets[rid].ticket == t && after.state.tickets[rid].bypasses == 0 && told == Success(Item(after.state.tickets[rid]))
            && (forall other :: other in s.tickets ==> s.tickets[other].order < after.state.tickets[rid].order)
            && after == d.(state := s.(sequence := after.state.sequence, tickets := s.tickets[rid := after.state.tickets[rid]])))
      && (rid in s.tickets || rid !in after.state.tickets ==> after == d)
  {
    UuidsListed(d.state.authority);
    forall other | other in d.state.tickets ensures d.state.tickets[other].order <= d.state.sequence {
      assert TicketOk(d.state, other);
    }
  }

  lemma UuidsListed(a: Authority)
    ensures forall u :: u in Uuids(a) <==> exists v :: v in a.devices && v.uuid == u
  {
    forall v | v in a.devices ensures v.uuid in Uuids(a) {
    }
  }

  /** A repeated enqueue answers with what is known of the request, a changed one is refused; a full queue takes nobody new. */
  lemma EnqueueAnswers(d: Disk, t: Ticket)
    requires Inv(d) && WellFormedTicket(t, d.state.authority) && CanEverFit(t, d.state.authority)
    ensures var s, rid, told := d.state, t.requestId, EnqueueOp(d, t).0;
      && (rid in d.history ==> told == if d.history[rid].ticket == t then Success(Finished(d.history[rid])) else Failure(Binding))
      && (rid !in d.history && rid in s.tickets ==> told == if s.tickets[rid].ticket == t then Success(Item(s.tickets[rid])) else Failure(Binding))
      && (rid !in d.history && rid !in s.tickets && |s.tickets| >= s.authority.maxQueued ==> told == Failure(QueueLimit))
  {
  }

  /** The owner's release with a confirmed stop frees the claim and records it; without one, or without the claim, nothing happens. */
  lemma ReleasedWhen(d: Disk, token: Token, stopped: bool, now: real)
    requires Inv(d) && token.requestId !in d.history
    ensures var rid, (told, after) := token.requestId, ReleaseOp(d, token, stopped, now, false);
      var owned := rid in d.state.claims && d.state.claims[rid].uuid == token.uuid && d.state.claims[rid].epoch == token.epoch;
      && (owned && stopped ==>
            && told.Success? && told.value.Released? && SameClaim(told.value.claim, d.state.claims[rid])
            && rid in after.history && after.history[rid] == told.value && rid !in after.state.claims && rid !in after.state.tickets)
      && (owned && !stopped ==> told == Failure(StopUnconfirmed) && after == d)
      && (!owned ==> told == Failure(Fenced) && after == d)
  {
    SafeIsTicketed(d.state);
    assert token.requestId in d.state.claims ==> ClaimOk(d.state, token.requestId);
  }

  /** A repeated release is answered from the record, to the claim's own token only. */
  lemma ReleasedAgain(d: Disk, token: Token, stopped: bool, now: real, crash: bool)
    requires Inv(d) && token.requestId in d.history
    ensures var rid, (told, after) := token.requestId, ReleaseOp(d, token, stopped, now, crash);
      && after == d
      && told == if d.history[rid].Released? && token == Token(rid, d.history[rid].claim.uuid, d.history[rid].claim.epoch)
                 then Success(d.history[rid]) else Failure(Fenced)
  {
    SafeIsTicketed(d.state);
    ExpiredKeys(d, now);
    assert RecordOk(d.state, d.history, token.requestId);
  }

  lemma CancelledWhen(d: Disk, rid: Id, now: real)
    requires Inv(d)
    ensures var (told, after) := CancelOp(d, rid, now, false);
      && (rid in d.history ==> told == Success(d.history[rid]) && after == d)
      && (rid !in d.history && rid in d.state.claims ==> told == Failure(Busy) && after == d)
      && (rid !in d.history && rid !in d.state.claims && rid !in d.state.tickets ==> told == Failure(NotFound) && after == d)
      && (rid !in d.history && rid !in d.state.claims && rid in d.state.tickets ==>
            told == Success(Cancelled(d.state.tickets[rid].ticket)) && rid !in after.state.tickets && rid in after.history && after.history[rid] == told.value)
  {
    SafeIsTicketed(d.state);
    ExpiredKeys(d, now);
  }

  lemma EvictedWhen(d: Disk, key: ResidentKey, epoch: int, stopped: bool, now: real)
    requires Inv(d)
    ensures var (told, after) := EvictOp(d, key, epoch, stopped, now);
      var known := key in d.state.residents && d.state.residents[key].epoch == epoch;
      var used := exists rid :: rid in d.state.claims && rid !in d.history && d.state.claims[rid].residentKey == key;
      && (!known ==> told == Failure(Fenced)) && (known && used ==> told == Failure(Busy))
      && (known && !used && !stopped ==> told == Failure(StopUnconfirmed))
      && (known && !used && stopped ==> told.Success? && key !in after.state.residents)
      && (told.Failure? ==> after == d)
  {
    SafeIsTicketed(d.state);
    ExpiredKeys(d, now);
    ExpiredUses(d, now, key);
  }

  /** The owner renews a running claim whose lease has not run out; one in doubt must be reconciled first. */
  lemma RenewedWhen(d: Disk, token: Token, seconds: int, now: real, later: real)
    requires Inv(d)
    ensures var rid, (told, after) := token.requestId, RenewOp(d, token, seconds, now, later);
      var owned := rid in d.state.claims && rid !in d.history && d.state.claims[rid].uuid == token.uuid && d.state.claims[rid].epoch == token.epoch;
      && (!owned ==> told == Failure(Fenced) && after == d)
      && (owned && !(1 <= seconds <= d.state.authority.maxLeaseSeconds) ==> told == Failure(OutOfRange) && after == d)
      && (owned && 1 <= seconds <= d.state.authority.maxLeaseSeconds ==>
            if d.state.claims[rid].state == Live && d.state.claims[rid].leaseUntil > now
            then told.Success? && rid in after.state.claims && after.state.claims[rid] == told.value && told.value.leaseUntil == later + seconds as real
            else told == Failure(ReconcileRequired) && after == Apply(d, Inspect(now)))
  {
    SafeIsTicketed(d.state);
    ExpiredKeys(d, now);
    if token.requestId in d.state.claims {
      assert ClaimOk(d.state, token.requestId);
    }
  }

  lemma ResidentRenewedWhen(d: Disk, key: ResidentKey, epoch: int, seconds: int, now: real, later: real)
    requires Inv(d)
    ensures var (told, after) := RenewResidentOp(d, key, epoch, seconds, now, later);
      if !(1 <= seconds <= d.state.authority.maxLeaseSeconds) then told == Failure(OutOfRange) && after == d
      else if key !in d.state.residents || d.state.residents[key].epoch != epoch then told == Failure(Fenced) && after == d
      else if d.state.residents[key].state == Live && d.state.residents[key].leaseUntil > now
      then told.Success? && key in after.state.residents && after.state.residents[key] == told.value && told.value.leaseUntil >= later + seconds as real
      else told == Failure(ReconcileRequired) && after == Apply(d, Inspect(now))
  {
  }

  /** A call that stops between its two writes has written the record and left the state as it was; repeating it is then answered from the record. */
  lemma StoppedBetween(d: Disk, step: Step, rid: Id)
    requires Inv(d) && (step.Release? || step.Cancel?) && step.crash
    ensures Apply(d, step).state == d.state
    ensures step.Release? && step.token.requestId in d.state.claims && StopsClaim(step, d.state.claims[step.token.requestId]) ==>
      step.token.requestId in Apply(d, step).history
    ensures step.Cancel? && step.rid in d.state.tickets && step.rid !in d.state.claims ==> step.rid in Apply(d, step).history
  {
    SafeIsTicketed(d.state);
    ExpiredKeys(d, step.now);
    if step.Release? && step.token.requestId in d.history {
      ReleasedAgain(d, step.token, step.stopped, step.now, true);
    }
  }
}
