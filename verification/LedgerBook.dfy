/**
 The single-file budget of src/fsf/production/ledger.py: every decision is recomputed from the reservations. It is the
 specification of the store's cached money.
 */
module LedgerBook {
  import opened Wrappers
  import opened Ids
  import opened Sums
  import opened StoreState

  datatype Refusal =
    | BadValue | SlotRequired | PolicyUnsupported | Conflict | Unauthorized | Expired | SegmentUnauthorized
    | RoundConflict | SlotUsed | OverBudget | OptionalPaused | NeedsForecast | Unaffordable | Missing
    | RoundsExhausted | RoundEmpty | OtherPlan

  datatype Ruling<+T> = Granted(value: T) | Denied(why: Refusal)

  /** The authorization: the store's budget and, for version 2, its scope and reforecast threshold. */
  datatype Grant = Grant(money: Authorization, shots: set<Id>, segments: map<Id, set<Id>>, percent: int, plan: Id)

  datatype Entry = Entry(charge: Charge, binding: Id, essential: bool)

  /** `basis` stands for the digest of every reservation's cost. */
  datatype Estimate = Estimate(basis: map<Request, int>, remaining: int, used: int, affordable: bool)

  /** `rounds` is empty for version 1. */
  datatype Book = Book(reservations: map<Request, Entry>, consumed: int, forecast: Option<Estimate>, rounds: map<Id, int>)

  // ---------------------------------------------------------------------------------------------
  // Sums
  // ---------------------------------------------------------------------------------------------

  function EntryCost(): Entry -> int {
    (e: Entry) => Cost(e.charge)
  }

  function EntryCostOn(route: Id): Entry -> int {
    (e: Entry) => if e.charge.route == route then Cost(e.charge) else 0
  }

  function EntryFrames(): Entry -> int {
    (e: Entry) => e.charge.frames
  }

  function EntryUnknown(): Entry -> int {
    (e: Entry) => if e.charge.fee == UnknownFee then e.charge.worst else 0
  }

  function Basis(reservations: map<Request, Entry>): map<Request, int> {
    map r | r in reservations :: Cost(reservations[r].charge)
  }

  ghost function Used(b: Book): int {
    SumBy(b.reservations, EntryCost())
  }

  // ---------------------------------------------------------------------------------------------
  // reserve
  // ---------------------------------------------------------------------------------------------

  function FormError(want: Entry): Option<Refusal> {
    var c := want.charge;
    if !(0 <= c.worst <= MAX_INTEGER) || !(0 <= c.frames <= MAX_INTEGER) then Some(BadValue)
    else if c.frames != 0 && c.slot.None? then Some(SlotRequired)
    else if c.frames != 0 && !(1 <= c.slot.value.round <= 3) then Some(BadValue)
    else if c.frames == 0 && c.slot.Some? then Some(BadValue)
    else None
  }

  function AuthorityError(g: Grant, now: real): Option<Refusal> {
    if !g.money.authorized then Some(Unauthorized)
    else if g.money.v2 && now >= g.money.expiresAt as real then Some(Expired)
    else None
  }

  predicate HasSlot(b: Book, slot: Option<Slot>) {
    exists r :: r in b.reservations && b.reservations[r].charge.slot == slot
  }

  function ScopeError(g: Grant, b: Book, want: Entry): Option<Refusal> {
    var c := want.charge;
    if c.route !in g.money.routeLimits then Some(Unauthorized)
    else if c.frames != 0 && c.slot.Some? && c.slot.value.shot !in g.shots then Some(Unauthorized)
    else if c.frames != 0 && c.slot.Some? && g.money.v2
            && !(c.slot.value.shot in g.segments && c.slot.value.segment in g.segments[c.slot.value.shot]) then Some(SegmentUnauthorized)
    else if c.frames != 0 && c.slot.Some? && g.money.v2
            && !(c.slot.value.shot in b.rounds && c.slot.value.round == b.rounds[c.slot.value.shot]) then Some(RoundConflict)
    else if c.slot.Some? && HasSlot(b, c.slot) then Some(SlotUsed)
    else None
  }

  /** The money gates, from sums over every reservation. */
  ghost function MoneyError(g: Grant, b: Book, c: Charge, essential: bool): Option<Refusal>
    requires c.route in g.money.routeLimits
  {
    if Used(b) + c.worst + g.money.cleanupUnits > g.money.totalUnits
       || SumBy(b.reservations, EntryCostOn(c.route)) + c.worst > g.money.routeLimits[c.route]
       || b.consumed + c.frames > g.money.maxFrames then Some(OverBudget)
    else if !g.money.v2 || (Used(b) + c.worst) * 100 < g.money.totalUnits * g.percent then None
    else if !essential then Some(OptionalPaused)
    else if b.forecast.None? || b.forecast.value.basis != Basis(b.reservations) || b.forecast.value.remaining < c.worst
      then Some(NeedsForecast)
    else if !b.forecast.value.affordable then Some(Unaffordable)
    else None
  }

  function SameRequest(g: Grant, was: Entry, want: Entry): bool {
    && was.charge.route == want.charge.route && was.charge.worst == want.charge.worst && was.charge.frames == want.charge.frames
    && was.charge.slot == want.charge.slot && was.binding == want.binding && (g.money.v2 ==> was.essential == want.essential)
  }

  function ForecastAfterReserve(g: Grant, b: Book, used: int, reservations: map<Request, Entry>, worst: int): Option<Estimate> {
    if !g.money.v2 || b.forecast.None? then b.forecast
    else
      var left := AtLeastZero(b.forecast.value.remaining - worst);
      Some(Estimate(Basis(reservations), left, used + worst, used + worst + left + g.money.cleanupUnits <= g.money.totalUnits))
  }

  ghost function WithEntry(g: Grant, b: Book, r: Request, want: Entry): Book {
    var reservations := b.reservations[r := want];
    b.(reservations := reservations, consumed := b.consumed + want.charge.frames,
       forecast := ForecastAfterReserve(g, b, Used(b), reservations, want.charge.worst))
  }

  /** Reserving the same thing twice is one reservation; `want` is unbilled. */
  ghost function ReserveOp(g: Grant, b: Book, r: Request, want: Entry, now: real): (Ruling<Entry>, Book)
    requires want.charge.fee == Active
  {
    if FormError(want).Some? then (Denied(FormError(want).value), b)
    else if !g.money.v2 && !want.essential then (Denied(PolicyUnsupported), b)
    else if r in b.reservations then
      (if SameRequest(g, b.reservations[r], want) then Granted(b.reservations[r]) else Denied(Conflict), b)
    else if AuthorityError(g, now).Some? then (Denied(AuthorityError(g, now).value), b)
    else if ScopeError(g, b, want).Some? then (Denied(ScopeError(g, b, want).value), b)
    else if MoneyError(g, b, want.charge, want.essential).Some? then
      (Denied(MoneyError(g, b, want.charge, want.essential).value), b)
    else (Granted(want), WithEntry(g, b, r, want))
  }

  // ---------------------------------------------------------------------------------------------
  // reconcile, record_forecast, advance_repair_round, admission_status
  // ---------------------------------------------------------------------------------------------

  function Billed(e: Entry, units: Option<int>): Entry {
    match units
    case None => if e.charge.fee != Settled then e.(charge := e.charge.(fee := UnknownFee)) else e
    case Some(u) => e.(charge := e.charge.(fee := Settled, settled := u))
  }

  ghost function Refreshed(g: Grant, b: Book): Option<Estimate> {
    if !g.money.v2 || b.forecast.None? then b.forecast
    else Some(Estimate(Basis(b.reservations), b.forecast.value.remaining, Used(b),
                       Used(b) + b.forecast.value.remaining + g.money.cleanupUnits <= g.money.totalUnits))
  }

  ghost function ReconcileOp(g: Grant, b: Book, r: Request, units: Option<int>): (Ruling<Entry>, Book) {
    if r !in b.reservations then (Denied(Missing), b)
    else
      var was := b.reservations[r];
      if units.Some? && !(0 <= units.value <= was.charge.worst) then (Denied(BadValue), b)
      else if units.Some? && was.charge.fee == Settled && was.charge.settled != units.value then (Denied(Conflict), b)
      else
        var c := b.(reservations := b.reservations[r := Billed(was, units)]);
        (Granted(Billed(was, units)), c.(forecast := Refreshed(g, c)))
  }

  ghost function RecordForecastOp(g: Grant, b: Book, remaining: int, plan: Id): (Ruling<Estimate>, Book) {
    if !(0 <= remaining <= MAX_INTEGER) then (Denied(BadValue), b)
    else if !g.money.v2 then (Denied(PolicyUnsupported), b)
    else if plan != g.plan then (Denied(OtherPlan), b)
    else
      var f := Estimate(Basis(b.reservations), remaining, Used(b), Used(b) + remaining + g.money.cleanupUnits <= g.money.totalUnits);
      (Granted(f), b.(forecast := Some(f)))
  }

  predicate RoundUsed(b: Book, shot: Id, round: int) {
    exists r :: r in b.reservations && b.reservations[r].charge.slot.Some?
      && b.reservations[r].charge.slot.value.shot == shot && b.reservations[r].charge.slot.value.round == round
  }

  function AdvanceOp(g: Grant, b: Book, shot: Id, expected: int, now: real): (Ruling<int>, Book) {
    if !(1 <= expected <= 3) then (Denied(BadValue), b)
    else if !g.money.v2 then (Denied(PolicyUnsupported), b)
    else if AuthorityError(g, now).Some? then (Denied(AuthorityError(g, now).value), b)
    else if shot !in b.rounds then (Denied(Unauthorized), b)
    else if b.rounds[shot] != expected then (Denied(RoundConflict), b)
    else if b.rounds[shot] >= g.money.maxRepairRounds then (Denied(RoundsExhausted), b)
    else if !RoundUsed(b, shot, expected) then (Denied(RoundEmpty), b)
    else (Granted(expected + 1), b.(rounds := b.rounds[shot := expected + 1]))
  }

  // ---------------------------------------------------------------------------------------------
  // What the ledger keeps
  // ---------------------------------------------------------------------------------------------

  ghost predicate EntryOk(g: Grant, b: Book, r: Request)
    requires r in b.reservations
  {
    var c := b.reservations[r].charge;
    && c.worst >= 0 && c.frames >= 0 && (c.fee == Settled ==> 0 <= c.settled <= c.worst)
    && (c.slot.Some? <==> c.frames > 0) && c.route in g.money.routeLimits
    && (c.slot.Some? && g.money.v2 ==>
          c.slot.value.shot in b.rounds && 1 <= c.slot.value.round <= b.rounds[c.slot.value.shot])
  }

  ghost predicate SlotsApart(b: Book, r: Request, q: Request) {
    r in b.reservations && q in b.reservations && r != q && b.reservations[r].charge.slot.Some? ==>
      b.reservations[r].charge.slot != b.reservations[q].charge.slot
  }

  ghost predicate EstimateOk(g: Grant, b: Book) {
    b.forecast.Some? ==>
      var f := b.forecast.value;
      && f.basis == Basis(b.reservations) && f.used == Used(b) && f.remaining >= 0
      && (f.affordable <==> f.used + f.remaining + g.money.cleanupUnits <= g.money.totalUnits)
  }

  ghost predicate RouteKept(g: Grant, b: Book, route: Id)
    requires route in g.money.routeLimits
  {
    SumBy(b.reservations, EntryCostOn(route)) <= g.money.routeLimits[route]
  }

  ghost predicate GrantOk(g: Grant) {
    && (forall route :: route in g.money.routeLimits ==> g.money.routeLimits[route] >= 0)
    && g.money.maxFrames >= 0 && 1 <= g.money.maxRepairRounds <= 3
  }

  /** Sums inside their limits, one reservation per slot, rounds in range, and a forecast that is never stale. */
  ghost predicate BookOk(g: Grant, b: Book) {
    && GrantOk(g)
    && (forall r {:trigger EntryOk(g, b, r)} :: r in b.reservations ==> EntryOk(g, b, r))
    && (forall r, q {:trigger SlotsApart(b, r, q)} :: SlotsApart(b, r, q))
    && b.consumed == SumBy(b.reservations, EntryFrames()) <= g.money.maxFrames
    && (b.reservations != map[] ==> Used(b) + g.money.cleanupUnits <= g.money.totalUnits)
    && (forall route {:trigger RouteKept(g, b, route)} :: route in g.money.routeLimits ==> RouteKept(g, b, route))
    && (forall shot :: shot in b.rounds ==> 1 <= b.rounds[shot] <= g.money.maxRepairRounds)
    && (b.forecast.Some? ==> g.money.v2) && EstimateOk(g, b)
  }

  lemma EmptyBookOk(g: Grant)
    requires GrantOk(g)
    ensures BookOk(g, Book(map[], 0, None, if g.money.v2 then map s | s in g.shots :: 1 else map[]))
  {
  }

  lemma ReserveSums(g: Grant, b: Book, r: Request, want: Entry)
    requires BookOk(g, b) && r !in b.reservations && want.charge.fee == Active && want.charge.route in g.money.routeLimits
    requires MoneyError(g, b, want.charge, want.essential).None?
    ensures var after := WithEntry(g, b, r, want);
      && after.consumed == SumBy(after.reservations, EntryFrames()) <= g.money.maxFrames
      && Used(after) == Used(b) + want.charge.worst
      && Used(after) + g.money.cleanupUnits <= g.money.totalUnits
      && forall route {:trigger RouteKept(g, after, route)} :: route in g.money.routeLimits ==> RouteKept(g, after, route)
  {
    var after := WithEntry(g, b, r, want);
    Put(b.reservations, r, want, EntryCost());
    Put(b.reservations, r, want, EntryFrames());
    forall route | route in g.money.routeLimits ensures RouteKept(g, after, route) {
      assert RouteKept(g, b, route);
      Put(b.reservations, r, want, EntryCostOn(route));
    }
  }

  lemma ReserveSlots(g: Grant, b: Book, r: Request, want: Entry, p: Request, q: Request)
    requires BookOk(g, b) && r !in b.reservations && ScopeError(g, b, want).None? && FormError(want).None?
    ensures SlotsApart(WithEntry(g, b, r, want), p, q)
  {
    assert SlotsApart(b, p, q);
    assert want.charge.slot.Some? ==> !HasSlot(b, want.charge.slot);
  }

  lemma ReserveKeeps(g: Grant, b: Book, r: Request, want: Entry, now: real)
    requires BookOk(g, b) && want.charge.fee == Active
    ensures BookOk(g, ReserveOp(g, b, r, want, now).1)
  {
    var after := ReserveOp(g, b, r, want, now).1;
    if after != b {
      ReserveSums(g, b, r, want);
      forall q | q in after.reservations ensures EntryOk(g, after, q) {
        assert q != r ==> EntryOk(g, b, q);
      }
      forall p, q ensures SlotsApart(after, p, q) {
        ReserveSlots(g, b, r, want, p, q);
      }
    }
  }

  lemma BillSums(g: Grant, b: Book, r: Request, units: Option<int>)
    requires BookOk(g, b) && r in b.reservations && ReconcileOp(g, b, r, units).0.Granted?
    ensures var after := ReconcileOp(g, b, r, units).1;
      && SumBy(after.reservations, EntryFrames()) == SumBy(b.reservations, EntryFrames())
      && Used(after) <= Used(b)
      && forall route {:trigger RouteKept(g, after, route)} :: route in g.money.routeLimits ==> RouteKept(g, after, route)
  {
    var after, e := ReconcileOp(g, b, r, units).1, Billed(b.reservations[r], units);
    assert EntryOk(g, b, r);
    Put(b.reservations, r, e, EntryCost());
    Put(b.reservations, r, e, EntryFrames());
    forall route | route in g.money.routeLimits ensures RouteKept(g, after, route) {
      assert RouteKept(g, b, route);
      Put(b.reservations, r, e, EntryCostOn(route));
    }
  }

  lemma ReconcileKeeps(g: Grant, b: Book, r: Request, units: Option<int>)
    requires BookOk(g, b)
    ensures BookOk(g, ReconcileOp(g, b, r, units).1)
  {
    var after := ReconcileOp(g, b, r, units).1;
    if ReconcileOp(g, b, r, units).0.Granted? {
      BillSums(g, b, r, units);
      forall q | q in after.reservations ensures EntryOk(g, after, q) {
        assert EntryOk(g, b, q);
      }
      forall p, q ensures SlotsApart(after, p, q) {
        assert SlotsApart(b, p, q);
      }
    }
  }

  lemma ForecastKeeps(g: Grant, b: Book, remaining: int, plan: Id)
    requires BookOk(g, b)
    ensures BookOk(g, RecordForecastOp(g, b, remaining, plan).1)
  {
    var after := RecordForecastOp(g, b, remaining, plan).1;
    SameReservations(g, b, after);
  }

  lemma SameReservations(g: Grant, b: Book, after: Book)
    requires BookOk(g, b) && after.reservations == b.reservations
    requires forall shot :: shot in b.rounds ==> shot in after.rounds && b.rounds[shot] <= after.rounds[shot]
    ensures forall q {:trigger EntryOk(g, after, q)} :: q in after.reservations ==> EntryOk(g, after, q)
    ensures forall p, q {:trigger SlotsApart(after, p, q)} :: SlotsApart(after, p, q)
    ensures forall route {:trigger RouteKept(g, after, route)} :: route in g.money.routeLimits ==> RouteKept(g, after, route)
  {
    forall q | q in after.reservations ensures EntryOk(g, after, q) {
      assert EntryOk(g, b, q);
    }
    forall p, q ensures SlotsApart(after, p, q) {
      assert SlotsApart(b, p, q);
    }
    forall route | route in g.money.routeLimits ensures RouteKept(g, after, route) {
      assert RouteKept(g, b, route);
    }
  }

  lemma AdvanceKeeps(g: Grant, b: Book, shot: Id, expected: int, now: real)
    requires BookOk(g, b)
    ensures BookOk(g, AdvanceOp(g, b, shot, expected, now).1)
  {
    SameReservations(g, b, AdvanceOp(g, b, shot, expected, now).1);
  }
}
