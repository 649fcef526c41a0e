/**
 The persisted document of src/fsf/production/resource_pool.py and the meaning of every operation on it.
 Digests are modelled by datatypes, which are injective; clocks, probes and stop observations are inputs.
 */
module PoolState {
  import opened Wrappers
  import opened Ids
  import opened Sums

  datatype Error =
    | Binding | MemoryLimit | QueueLimit | NotAuthorized | NotFound | ModelChanged | MemoryViolation
    | Fenced | ReconcileRequired | StopUnconfirmed | Busy | Integrity | OutOfRange | Interrupted

  datatype Device = Device(uuid: Id, vramMb: int, slots: int)

  datatype Authority = Authority(
    authorized: bool, devices: seq<Device>, maxLeaseSeconds: int, maxBypasses: int, maxQueued: int, maxResidentModels: int)

  datatype Mode = Shared | Exclusive

  datatype ModelKey = ModelKey(residentId: Id, modelDigest: Id, runtimeDigest: Id)

  datatype Ticket = Ticket(
    requestId: Id, jobId: Id, model: ModelKey, residentMb: int, workspaceMb: int, mode: Mode,
    eligible: set<Id>, leaseSeconds: int)

  datatype Queued = Queued(ticket: Ticket, order: int, bypasses: int)

  /** `Live` is "running" for a claim and "resident" for a resident. */
  datatype Lease = Live | Unknown

  datatype ResidentKey = ResidentKey(uuid: Id, model: ModelKey)

  datatype Resident = Resident(uuid: Id, model: ModelKey, residentMb: int, epoch: int, state: Lease, leaseUntil: real)

  datatype Claim = Claim(
    requestId: Id, jobId: Id, uuid: Id, epoch: int, residentKey: ResidentKey, residentEpoch: int,
    workspaceMb: int, mode: Mode, state: Lease, leaseUntil: real)

  datatype Record = Released(ticket: Ticket, claim: Claim) | Cancelled(ticket: Ticket)

  datatype State = State(
    authority: Authority, epoch: int, sequence: int,
    tickets: map<Id, Queued>, claims: map<Id, Claim>, residents: map<ResidentKey, Resident>)

  type History = map<Id, Record>

  datatype Observation = Observation(totalMb: int, freeMb: int, managedUsedMb: int)

  type Inventory = map<Id, Observation>

  datatype Token = Token(requestId: Id, uuid: Id, epoch: int)

  // ---------------------------------------------------------------------------------------------
  // What is on a device
  // ---------------------------------------------------------------------------------------------

  function ClaimOn(uuid: Id): Claim -> int {
    (c: Claim) => if c.uuid == uuid then 1 else 0
  }

  function WorkspaceOn(uuid: Id): Claim -> int {
    (c: Claim) => if c.uuid == uuid then c.workspaceMb else 0
  }

  function ResidentOn(uuid: Id): Resident -> int {
    (r: Resident) => if r.uuid == uuid then r.residentMb else 0
  }

  ghost function ClaimCount(s: State, uuid: Id): int {
    SumBy(s.claims, ClaimOn(uuid))
  }

  /** Memory promised on a device: resident models plus the workspaces of claims. */
  ghost function Reserved(s: State, uuid: Id): int {
    SumBy(s.residents, ResidentOn(uuid)) + SumBy(s.claims, WorkspaceOn(uuid))
  }

  // ---------------------------------------------------------------------------------------------
  // _ticket, _expire
  // ---------------------------------------------------------------------------------------------

  function Uuids(a: Authority): set<Id> {
    set i | 0 <= i < |a.devices| :: a.devices[i].uuid
  }

  predicate WellFormedTicket(t: Ticket, a: Authority) {
    && t.residentMb >= 1 && t.workspaceMb >= 0
    && 1 <= t.leaseSeconds <= a.maxLeaseSeconds
    && t.eligible != {} && t.eligible <= Uuids(a)
  }

  predicate CanEverFit(t: Ticket, a: Authority) {
    exists i :: 0 <= i < |a.devices| && a.devices[i].uuid in t.eligible
      && t.residentMb + t.workspaceMb <= a.devices[i].vramMb
  }

  predicate SameToken(a: Claim, b: Claim) {
    a.requestId == b.requestId && a.uuid == b.uuid && a.epoch == b.epoch
  }

  /** Completing a stop already recorded in the history is possible for this request. */
  predicate CompletesCleanly(s: State, h: History, rid: Id)
    requires rid in s.tickets && rid in h
  {
    && h[rid].ticket == s.tickets[rid].ticket
    && match h[rid] {
         case Released(_, claim) => rid in s.claims ==> claim.requestId == rid && SameToken(claim, s.claims[rid])
         case Cancelled(_) => rid !in s.claims
       }
  }

  predicate Completes(s: State, h: History) {
    forall rid :: rid in s.tickets && rid in h ==> CompletesCleanly(s, h, rid)
  }

  function Lapse(state: Lease, until: real, now: real): Lease {
    if state == Live && until <= now then Unknown else state
  }

  /** Recorded stops are completed, lapsed leases become unknown; nothing else is freed. */
  function Expired(s: State, h: History, now: real): State {
    s.(tickets := map rid | rid in s.tickets && rid !in h :: s.tickets[rid],
       claims := map rid | rid in s.claims && !(rid in s.tickets && rid in h) ::
                   s.claims[rid].(state := Lapse(s.claims[rid].state, s.claims[rid].leaseUntil, now)),
       residents := map k | k in s.residents ::
                   s.residents[k].(state := Lapse(s.residents[k].state, s.residents[k].leaseUntil, now)))
  }

  // ---------------------------------------------------------------------------------------------
  // _fit
  // ---------------------------------------------------------------------------------------------

  datatype Fit = NoFit | Fits(uuid: Id, key: ResidentKey) | Raises(error: Error)

  predicate ModelConflict(s: State, t: Ticket) {
    exists k :: k in s.residents && s.residents[k].model.residentId == t.model.residentId && s.residents[k].model != t.model
  }

  predicate AnyUnknown(s: State, uuid: Id) {
    || (exists rid :: rid in s.claims && s.claims[rid].uuid == uuid && s.claims[rid].state == Unknown)
    || (exists k :: k in s.residents && s.residents[k].uuid == uuid && s.residents[k].state == Unknown)
  }

  predicate AnyClaim(s: State, uuid: Id) {
    exists rid :: rid in s.claims && s.claims[rid].uuid == uuid
  }

  predicate AnyExclusive(s: State, uuid: Id) {
    exists rid :: rid in s.claims && s.claims[rid].uuid == uuid && s.claims[rid].mode == Exclusive
  }

  predicate OtherResident(s: State, uuid: Id, key: ResidentKey) {
    exists k :: k in s.residents && s.residents[k].uuid == uuid && k != key
  }

  /** The device is not considered at all: unlisted, unobserved, in doubt, full or exclusively held. */
  ghost predicate Closed(s: State, t: Ticket, d: Device, observed: Inventory) {
    || d.uuid !in t.eligible || d.uuid !in observed
    || AnyUnknown(s, d.uuid)
    || ClaimCount(s, d.uuid) >= d.slots || AnyExclusive(s, d.uuid)
  }

  ghost predicate Barred(s: State, t: Ticket, d: Device, key: ResidentKey) {
    || (t.mode == Exclusive && (AnyClaim(s, d.uuid) || OtherResident(s, d.uuid, key)))
    || (key !in s.residents && |s.residents| >= s.authority.maxResidentModels)
  }

  function Required(s: State, t: Ticket, key: ResidentKey): int {
    t.workspaceMb + if key in s.residents then 0 else t.residentMb
  }

  function Smaller2(a: int, b: int): int {
    if a <= b then a else b
  }

  ghost predicate Roomy(s: State, t: Ticket, d: Device, key: ResidentKey, o: Observation) {
    var reserved, required := Reserved(s, d.uuid), Required(s, t, key);
    && reserved + required <= Smaller2(d.vramMb, o.totalMb)
    && required <= o.freeMb - AtLeastZero(reserved - o.managedUsedMb)
  }

  ghost function FitOn(s: State, t: Ticket, d: Device, observed: Inventory): (fit: Fit)
    ensures fit.Fits? ==> fit.uuid in observed && fit.uuid in t.eligible && fit.key == ResidentKey(fit.uuid, t.model)
  {
    var key := ResidentKey(d.uuid, t.model);
    if Closed(s, t, d, observed) then NoFit
    else if key in s.residents && s.residents[key].residentMb != t.residentMb then Raises(ModelChanged)
    else if Barred(s, t, d, key) then NoFit
    else if observed[d.uuid].managedUsedMb > Reserved(s, d.uuid) then Raises(MemoryViolation)
    else if Roomy(s, t, d, key, observed[d.uuid]) then Fits(d.uuid, key)
    else NoFit
  }

  /** The first device, in the authority's order, that takes the ticket or raises. */
  ghost function FitFrom(s: State, t: Ticket, observed: Inventory, i: nat): (fit: Fit)
    requires i <= |s.authority.devices|
    ensures fit.Fits? ==> fit.uuid in observed && fit.uuid in t.eligible && fit.key == ResidentKey(fit.uuid, t.model)
    decreases |s.authority.devices| - i
  {
    if i == |s.authority.devices| then NoFit
    else
      var fit := FitOn(s, t, s.authority.devices[i], observed);
      if fit != NoFit then fit else FitFrom(s, t, observed, i + 1)
  }

  ghost function FitOf(s: State, t: Ticket, observed: Inventory): (fit: Fit)
    ensures fit.Fits? ==> fit.uuid in observed && fit.uuid in t.eligible && fit.key == ResidentKey(fit.uuid, t.model)
  {
    if ModelConflict(s, t) then Raises(ModelChanged) else FitFrom(s, t, observed, 0)
  }

  // ---------------------------------------------------------------------------------------------
  // admit
  // ---------------------------------------------------------------------------------------------

  predicate Waiting(s: State, rid: Id) {
    rid in s.tickets && rid !in s.claims
  }

  /** Waiting longer, and allowed on the chosen device. */
  predicate Older(s: State, other: Id, rid: Id, uuid: Id)
    requires rid in s.tickets
  {
    && Waiting(s, other)
    && s.tickets[other].order < s.tickets[rid].order && uuid in s.tickets[other].ticket.eligible
  }

  /** An older ticket that competes for the device: one whose model does not conflict there. */
  ghost predicate Contender(s: State, other: Id, rid: Id, uuid: Id, observed: Inventory)
    requires rid in s.tickets && uuid in observed
  {
    Older(s, other, rid, uuid) && FitOf(s, s.tickets[other].ticket, map[uuid := observed[uuid]]) != Raises(ModelChanged)
  }

  ghost predicate MustYield(s: State, other: Id, rid: Id, uuid: Id, observed: Inventory)
    requires rid in s.tickets && uuid in observed
  {
    && Contender(s, other, rid, uuid, observed)
    && (FitOf(s, s.tickets[other].ticket, map[uuid := observed[uuid]]).Fits?
        || s.tickets[other].bypasses >= s.authority.maxBypasses)
  }

  ghost predicate Yields(s: State, rid: Id, uuid: Id, observed: Inventory)
    requires rid in s.tickets && uuid in observed
  {
    exists other :: MustYield(s, other, rid, uuid, observed)
  }

  ghost function Bumped(s: State, rid: Id, uuid: Id, observed: Inventory): map<Id, Queued>
    requires rid in s.tickets && uuid in observed
  {
    map other | other in s.tickets ::
      if Contender(s, other, rid, uuid, observed) then s.tickets[other].(bypasses := s.tickets[other].bypasses + 1)
      else s.tickets[other]
  }

  function Max(a: real, b: real): real {
    if a >= b then a else b
  }

  function NewResident(s: State, t: Ticket, uuid: Id, key: ResidentKey, until: real): Resident {
    if key in s.residents then s.residents[key].(leaseUntil := Max(s.residents[key].leaseUntil, until))
    else Resident(uuid, t.model, t.residentMb, s.epoch + 1, Live, until)
  }

  function NewClaim(s: State, t: Ticket, uuid: Id, key: ResidentKey, until: real): Claim {
    Claim(t.requestId, t.jobId, uuid, s.epoch + 1, key, NewResident(s, t, uuid, key, until).epoch,
          t.workspaceMb, t.mode, Live, until)
  }

  ghost function Admitted(s: State, rid: Id, uuid: Id, key: ResidentKey, observed: Inventory, now: real): State
    requires rid in s.tickets && uuid in observed
  {
    var t := s.tickets[rid].ticket;
    var until := now + t.leaseSeconds as real;
    s.(epoch := s.epoch + 1,
       tickets := Bumped(s, rid, uuid, observed),
       residents := s.residents[key := NewResident(s, t, uuid, key, until)],
       claims := s.claims[rid := NewClaim(s, t, uuid, key, until)])
  }

  datatype Admission = Holding(claim: Claim) | Past(record: Record) | StillQueued | Unfair

  // ---------------------------------------------------------------------------------------------
  // The public operations on the two files: the state document and the history of finished requests
  // ---------------------------------------------------------------------------------------------

  datatype Disk = Disk(state: State, history: History)

  predicate Owns(s: State, token: Token) {
    && token.requestId in s.claims
    && s.claims[token.requestId].requestId == token.requestId
    && s.claims[token.requestId].uuid == token.uuid && s.claims[token.requestId].epoch == token.epoch
  }

  datatype Enqueued = Item(queued: Queued) | Finished(record: Record)

  function EnqueueOp(d: Disk, t: Ticket): (Result<Enqueued, Error>, Disk) {
    var s, rid := d.state, t.requestId;
    if !WellFormedTicket(t, s.authority) then (Failure(Binding), d)
    else if !CanEverFit(t, s.authority) then (Failure(MemoryLimit), d)
    else if rid in d.history then
      (if d.history[rid].ticket == t then Success(Finished(d.history[rid])) else Failure(Binding), d)
    else if rid in s.tickets then
      (if s.tickets[rid].ticket == t then Success(Item(s.tickets[rid])) else Failure(Binding), d)
    else if |s.tickets| >= s.authority.maxQueued then (Failure(QueueLimit), d)
    else
      var item := Queued(t, s.sequence + 1, 0);
      (Success(Item(item)), d.(state := s.(sequence := s.sequence + 1, tickets := s.tickets[rid := item])))
  }

  ghost function AdmitOp(d: Disk, rid: Id, observed: Inventory, now: real, later: real): (Result<Admission, Error>, Disk) {
    var s := Expired(d.state, d.history, now);
    var saved := d.(state := s);
    if !s.authority.authorized then (Failure(NotAuthorized), d)
    else if rid in s.claims then (Success(Holding(s.claims[rid])), saved)
    else if rid in d.history then (Success(Past(d.history[rid])), saved)
    else if rid !in s.tickets then (Failure(NotFound), d)
    else
      match FitOf(s, s.tickets[rid].ticket, observed)
      case Raises(e) => (Failure(e), d)
      case NoFit => (Success(StillQueued), saved)
      case Fits(uuid, key) =>
        if Yields(s, rid, uuid, observed) then (Success(Unfair), saved)
        else
          var after := Admitted(s, rid, uuid, key, observed, later);
          (Success(Holding(after.claims[rid])), d.(state := after))
  }

  function Renewed(s: State, rid: Id, until: real): State
    requires rid in s.claims && s.claims[rid].residentKey in s.residents
  {
    var key := s.claims[rid].residentKey;
    s.(claims := s.claims[rid := s.claims[rid].(leaseUntil := until)],
       residents := s.residents[key := s.residents[key].(leaseUntil := Max(s.residents[key].leaseUntil, until))])
  }

  /** A claim whose resident record is missing cannot be renewed; the invariant shows this never happens. */
  function RenewOp(d: Disk, token: Token, seconds: int, now: real, later: real): (Result<Claim, Error>, Disk) {
    var s, rid := Expired(d.state, d.history, now), token.requestId;
    if !Owns(s, token) then (Failure(Fenced), d)
    else if !(1 <= seconds <= s.authority.maxLeaseSeconds) then (Failure(OutOfRange), d)
    else if s.claims[rid].state != Live || s.claims[rid].residentKey !in s.residents
            || s.residents[s.claims[rid].residentKey].state != Live
      then (Failure(ReconcileRequired), d.(state := s))
    else
      var after := Renewed(s, rid, later + seconds as real);
      (Success(after.claims[rid]), d.(state := after))
  }

  function Dropped(s: State, rid: Id): State {
    s.(claims := s.claims - {rid}, tickets := s.tickets - {rid})
  }

  /** Stop evidence first goes to the history; `crash` is a stop between that write and the state write. */
  function ReleaseOp(d: Disk, token: Token, stopped: bool, now: real, crash: bool): (Result<Record, Error>, Disk) {
    var s, rid := Expired(d.state, d.history, now), token.requestId;
    if rid in d.history then
      if d.history[rid].Released? && d.history[rid].claim.requestId == rid
         && d.history[rid].claim.uuid == token.uuid && d.history[rid].claim.epoch == token.epoch
      then
        if rid !in s.claims then (Success(d.history[rid]), d)
        else if !Owns(s, token) then (Failure(Fenced), d)
        else (Success(d.history[rid]), d.(state := Dropped(s, rid)))
      else (Failure(Fenced), d)
    else if !Owns(s, token) || rid !in s.tickets then (Failure(Fenced), d)
    else if !stopped then (Failure(StopUnconfirmed), d)
    else
      var record := Released(s.tickets[rid].ticket, s.claims[rid]);
      var history := d.history[rid := record];
      if crash then (Failure(Interrupted), d.(history := history))
      else (Success(record), Disk(Dropped(s, rid), history))
  }

  function CancelOp(d: Disk, rid: Id, now: real, crash: bool): (Result<Record, Error>, Disk) {
    var s := Expired(d.state, d.history, now);
    if rid in s.claims then (Failure(Busy), d)
    else if rid in d.history then (Success(d.history[rid]), d)
    else if rid !in s.tickets then (Failure(NotFound), d)
    else
      var record := Cancelled(s.tickets[rid].ticket);
      var history := d.history[rid := record];
      if crash then (Failure(Interrupted), d.(history := history))
      else (Success(record), Disk(s.(tickets := s.tickets - {rid}), history))
  }

  predicate InUse(s: State, key: ResidentKey) {
    exists rid :: rid in s.claims && s.claims[rid].residentKey == key
  }

  function EvictOp(d: Disk, key: ResidentKey, epoch: int, stopped: bool, now: real): (Result<Resident, Error>, Disk) {
    var s := Expired(d.state, d.history, now);
    if key !in s.residents || s.residents[key].epoch != epoch then (Failure(Fenced), d)
    else if InUse(s, key) then (Failure(Busy), d)
    else if !stopped then (Failure(StopUnconfirmed), d)
    else (Success(s.residents[key]), d.(state := s.(residents := s.residents - {key})))
  }

  function RenewResidentOp(d: Disk, key: ResidentKey, epoch: int, seconds: int, now: real, later: real): (Result<Resident, Error>, Disk) {
    var s := Expired(d.state, d.history, now);
    if !(1 <= seconds <= s.authority.maxLeaseSeconds) then (Failure(OutOfRange), d)
    else if key !in s.residents || s.residents[key].epoch != epoch then (Failure(Fenced), d)
    else if s.residents[key].state != Live then (Failure(ReconcileRequired), d.(state := s))
    else
      var r := s.residents[key].(leaseUntil := Max(s.residents[key].leaseUntil, later + seconds as real));
      (Success(r), d.(state := s.(residents := s.residents[key := r])))
  }
}
