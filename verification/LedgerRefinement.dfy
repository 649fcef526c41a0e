/**
 The store's cached money refines the ledger's recomputation: seen through its reservations a store is a ledger book,
 and claim, settle and forecast do to the book what reserve, reconcile and record_forecast do, deciding alike.
 */
module LedgerRefinement {
  import opened Wrappers
  import opened Ids
  import opened Sums
  import opened StoreState
  import opened StoreInv
  import opened LedgerBook

  /** One plan under one authorization, as `_validate_scope` and `validate_plan` demand. */
  ghost predicate Scoped(S: Setup, g: Grant, execution: Id) {
    && g.money == S.auth && g.percent == 80
    && forall k :: k in S.plan ==> ScopedTask(S, g, execution, k)
  }

  ghost predicate ScopedTask(S: Setup, g: Grant, execution: Id, k: TaskKey)
    requires k in S.plan
  {
    var doc := S.plan[k];
    && k.execution == execution && doc.shot in g.shots && doc.worst <= MAX_INTEGER && doc.frames <= MAX_INTEGER
    && (doc.frames > 0 && g.money.v2 ==> doc.shot in g.segments && doc.segment in g.segments[doc.shot])
    && (!g.money.v2 ==> doc.essential)
  }

  function Essential(S: Setup, k: TaskKey): bool {
    k in S.plan && S.plan[k].essential
  }

  function BookEntry(S: Setup, db: Db, binding: TaskKey -> Id, r: Request): Entry
    requires r in db.attempts
  {
    Entry(db.attempts[r].charge, binding(KeyOf(r)), Essential(S, KeyOf(r)))
  }

  function Entries(S: Setup, db: Db, binding: TaskKey -> Id): map<Request, Entry> {
    map r | r in db.attempts :: BookEntry(S, db, binding, r)
  }

  function BookRounds(g: Grant, db: Db, execution: Id): map<Id, int> {
    if g.money.v2 then map s | s in g.shots && ShotKey(execution, s) in db.rounds :: db.rounds[ShotKey(execution, s)] else map[]
  }

  function BookForecast(S: Setup, g: Grant, db: Db, binding: TaskKey -> Id): Option<Estimate> {
    if !g.money.v2 || db.forecast.None? then None
    else Some(Estimate(Basis(Entries(S, db, binding)), db.forecast.value.remaining, db.used, db.forecast.value.affordable))
  }

  /** The ledger a store stands for. */
  function BookOf(S: Setup, g: Grant, db: Db, execution: Id, binding: TaskKey -> Id): Book {
    Book(Entries(S, db, binding), db.frames, BookForecast(S, g, db, binding), BookRounds(g, db, execution))
  }

  lemma BookSums(S: Setup, g: Grant, db: Db, execution: Id, binding: TaskKey -> Id)
    requires MoneyOk(S, db)
    ensures var b := BookOf(S, g, db, execution, binding);
      && Used(b) == db.used && SumBy(b.reservations, EntryFrames()) == db.frames
      && forall route :: route in db.routeTotals ==> SumBy(b.reservations, EntryCostOn(route)) == db.routeTotals[route]
  {
    var entries := Entries(S, db, binding);
    Carried(db.attempts, entries, CostOf(), EntryCost());
    Carried(db.attempts, entries, FramesOf(), EntryFrames());
    forall route | route in db.routeTotals ensures SumBy(entries, EntryCostOn(route)) == db.routeTotals[route] {
      assert RouteOk(S, db, route);
      Carried(db.attempts, entries, CostOn(route), EntryCostOn(route));
    }
  }

  /** The ledger's word for a store error; a sum too big for an integer is just over budget there. */
  function AsRefusal(e: Error): Refusal {
    match e
    case BudgetExceeded => OverBudget
    case OptionalWorkPaused => OptionalPaused
    case ForecastRequired => NeedsForecast
    case ForecastUnaffordable => Unaffordable
    case RequestConflict => Conflict
    case NotFound => Missing
    case _ => BadValue
  }

  function StoreMoneyError(S: Setup, db: Db, doc: TaskDoc): Option<Error>
    requires doc.route in db.routeTotals && doc.route in S.auth.routeLimits
  {
    if BudgetError(S, db, doc).Some? then BudgetError(S, db, doc) else ForecastError(S, db, doc)
  }

  /** The cached admission test decides as the recomputing one, and for the same reason. */
  lemma MoneyAgrees(S: Setup, g: Grant, db: Db, execution: Id, binding: TaskKey -> Id, k: TaskKey, round: int)
    requires PlanOk(S) && Shaped(S, db) && MoneyOk(S, db) && ForecastOk(S, db) && Scoped(S, g, execution) && k in S.plan
    ensures var cached := StoreMoneyError(S, db, S.plan[k]);
      MoneyError(g, BookOf(S, g, db, execution, binding), NewCharge(S, k, round), S.plan[k].essential)
        == if cached.None? then None else if cached.value == Invalid then Some(OverBudget) else Some(AsRefusal(cached.value))
  {
    assert DocOk(S, k);
    BookSums(S, g, db, execution, binding);
    GatesAgree(S, g, db, BookOf(S, g, db, execution, binding), S.plan[k], NewCharge(S, k, round));
  }

  /** A book with the store's sums and, for version 2, a forecast that is current where the store's is. */
  lemma GatesAgree(S: Setup, g: Grant, db: Db, b: Book, doc: TaskDoc, c: Charge)
    requires g.money == S.auth && g.percent == 80 && doc.route in S.auth.routeLimits && doc.route in db.routeTotals
    requires c.route == doc.route && c.worst == doc.worst && c.frames == doc.frames
    requires Used(b) == db.used && SumBy(b.reservations, EntryCostOn(doc.route)) == db.routeTotals[doc.route] && b.consumed == db.frames
    requires S.auth.totalUnits <= MAX_INTEGER && S.auth.routeLimits[doc.route] <= MAX_INTEGER && S.auth.maxFrames <= MAX_INTEGER
    requires g.money.v2 ==> b.forecast.None? == db.forecast.None?
    requires g.money.v2 && b.forecast.Some? ==>
      && b.forecast.value.basis == Basis(b.reservations) && db.forecast.value.basis == db.costRevision
      && b.forecast.value.remaining == db.forecast.value.remaining && b.forecast.value.affordable == db.forecast.value.affordable
    ensures var cached := StoreMoneyError(S, db, doc);
      MoneyError(g, b, c, doc.essential)
        == if cached.None? then None else if cached.value == Invalid then Some(OverBudget) else Some(AsRefusal(cached.value))
  {
  }

  function NewCharge(S: Setup, k: TaskKey, round: int): Charge
    requires k in S.plan
  {
    Charge(SlotFor(S.plan[k], round), S.plan[k].route, S.plan[k].worst, 0, S.plan[k].frames, Active)
  }

  function NewEntry(S: Setup, k: TaskKey, round: int, binding: TaskKey -> Id): Entry
    requires k in S.plan
  {
    Entry(NewCharge(S, k, round), binding(k), Essential(S, k))
  }

  // ---------------------------------------------------------------------------------------------
  // claim is (advance, then) reserve
  // ---------------------------------------------------------------------------------------------

  /** The book after the repair round a claim moves to has been opened. */
  ghost function Opened(S: Setup, g: Grant, db: Db, execution: Id, binding: TaskKey -> Id, k: TaskKey, round: int, now: real): Book
    requires Shaped(S, db) && k in S.plan
  {
    var b := BookOf(S, g, db, execution, binding);
    if g.money.v2 && round != db.rounds[ShotOf(S, k)] then AdvanceOp(g, b, S.plan[k].shot, db.rounds[ShotOf(S, k)], now).1 else b
  }

  /** Where a claim opens the next round, the ledger allows just that step. */
  lemma RoundOpens(S: Setup, g: Grant, db: Db, execution: Id, binding: TaskKey -> Id, k: TaskKey, env: Env)
    requires Inv(S, db) && Scoped(S, g, execution) && k in S.plan && ActiveError(S, db, execution, env).None? && g.money.v2
    requires ClaimRound(S, db, k).Success? && ClaimRound(S, db, k).value != db.rounds[ShotOf(S, k)]
    ensures var b := BookOf(S, g, db, execution, binding);
      AdvanceOp(g, b, S.plan[k].shot, db.rounds[ShotOf(S, k)], env.now)
        == (Granted(ClaimRound(S, db, k).value), b.(rounds := b.rounds[S.plan[k].shot := ClaimRound(S, db, k).value]))
  {
    var b, shot, round := BookOf(S, g, db, execution, binding), S.plan[k].shot, db.rounds[ShotOf(S, k)];
    assert ScopedTask(S, g, execution, k) && ShotOf(S, k) == ShotKey(execution, shot);
    var r := db.tasks[k].request.value;
    assert PriorInRound(S, db, k) && ChargeOk(S, db, r) && TaskOk(S, db, k);
    assert r in b.reservations && b.reservations[r].charge.slot == Some(Slot(shot, S.plan[k].segment, round));
    assert RoundUsed(b, shot, round);
  }

  lemma OpenedBook(S: Setup, g: Grant, db: Db, execution: Id, binding: TaskKey -> Id, k: TaskKey, env: Env)
    requires Inv(S, db) && Scoped(S, g, execution) && k in S.plan && ActiveError(S, db, execution, env).None?
    requires ClaimRound(S, db, k).Success?
    ensures var b, c, round := BookOf(S, g, db, execution, binding),
        Opened(S, g, db, execution, binding, k, ClaimRound(S, db, k).value, env.now), ClaimRound(S, db, k).value;
      && c == Rounded(S, g, b, k, round)
      && ScopeError(g, c, NewEntry(S, k, round, binding)) ==
           if SlotTaken(db, execution, SlotFor(S.plan[k], round)) then Some(SlotUsed) else None
  {
    var round, shot := ClaimRound(S, db, k).value, S.plan[k].shot;
    var b := BookOf(S, g, db, execution, binding);
    assert ScopedTask(S, g, execution, k) && DocOk(S, k) && ShotOf(S, k) == ShotKey(execution, shot);
    if g.money.v2 {
      assert shot in b.rounds && b.rounds[shot] == db.rounds[ShotOf(S, k)];
      if round != db.rounds[ShotOf(S, k)] {
        RoundOpens(S, g, db, execution, binding, k, env);
      } else {
        assert b.rounds == b.rounds[shot := round];
      }
    }
    SlotsAgree(S, g, db, execution, binding, SlotFor(S.plan[k], round));
  }

  lemma SlotsAgree(S: Setup, g: Grant, db: Db, execution: Id, binding: TaskKey -> Id, slot: Option<Slot>)
    requires Inv(S, db) && Scoped(S, g, execution)
    ensures SlotTaken(db, execution, slot) <==> slot.Some? && HasSlot(BookOf(S, g, db, execution, binding), slot)
  {
    var b := BookOf(S, g, db, execution, binding);
    forall r | r in db.attempts ensures r.execution == execution && r in b.reservations && b.reservations[r].charge == db.attempts[r].charge {
      assert ChargeOk(S, db, r);
      assert ScopedTask(S, g, execution, KeyOf(r));
    }
  }

  /**
   For a ready task the store grants a claim exactly when the ledger, its repair round opened, grants the reservation;
   and then the store stands for the ledger's new book.
   */
  lemma ClaimRefinesReserve(S: Setup, g: Grant, db: Db, execution: Id, binding: TaskKey -> Id, k: TaskKey, owner: Id, expires: int, env: Env)
    requires Inv(S, db) && Scoped(S, g, execution) && k in S.plan && ActiveError(S, db, execution, env).None?
    requires ClaimStart(S, db, k) && |AttemptsOf(db, k)| < MAX_ATTEMPTS && ClaimRound(S, db, k).Success?
    ensures var round := ClaimRound(S, db, k).value;
      var (granted, book) := ReserveOp(
        g, Opened(S, g, db, execution, binding, k, round, env.now), Next(k, db.tasks[k]), NewEntry(S, k, round, binding), env.now);
      && (ClaimError(S, db, k, env).None? <==> granted.Granted?)
      && (granted.Granted? ==> book == BookOf(S, g, ClaimOp(S, db, k, owner, expires, env).1, execution, binding))
  {
    var round, r := ClaimRound(S, db, k).value, Next(k, db.tasks[k]);
    var b, want := BookOf(S, g, db, execution, binding), NewEntry(S, k, round, binding);
    assert ScopedTask(S, g, execution, k) && DocOk(S, k);
    NextIsNew(S, db, k);
    OpenedBook(S, g, db, execution, binding, k, env);
    RoundInRange(S, db, k);
    MoneyAgrees(S, g, db, execution, binding, k, round);
    RoundedMoney(S, g, b, k, round, want.charge, want.essential);
    ClaimGates(S, db, k, env);
    ReserveDecides(g, Rounded(S, g, b, k, round), r, want, env.now);
    ClaimedBook(S, g, db, execution, binding, k, owner, expires, round);
  }

  /** A new, well-formed, permitted request is granted exactly when scope and money allow. */
  lemma ReserveDecides(g: Grant, b: Book, r: Request, want: Entry, now: real)
    requires want.charge.fee == Active && FormError(want).None? && (g.money.v2 || want.essential) && r !in b.reservations
    requires AuthorityError(g, now).None?
    ensures var (granted, after) := ReserveOp(g, b, r, want, now);
      && (granted.Granted? <==>
           ScopeError(g, b, want).None? && want.charge.route in g.money.routeLimits && MoneyError(g, b, want.charge, want.essential).None?)
      && (granted.Granted? ==> after == WithEntry(g, b, r, want))
  {
  }

  lemma RoundInRange(S: Setup, db: Db, k: TaskKey)
    requires Inv(S, db) && k in S.plan && ClaimRound(S, db, k).Success?
    ensures 1 <= ClaimRound(S, db, k).value <= S.auth.maxRepairRounds <= 3
  {
    assert 1 <= db.rounds[ShotOf(S, k)] <= S.auth.maxRepairRounds;
  }

  lemma ClaimGates(S: Setup, db: Db, k: TaskKey, env: Env)
    requires Inv(S, db) && k in S.plan && ActiveError(S, db, k.execution, env).None?
    requires ClaimStart(S, db, k) && |AttemptsOf(db, k)| < MAX_ATTEMPTS && ClaimRound(S, db, k).Success?
    ensures ClaimError(S, db, k, env).None? <==>
      StoreMoneyError(S, db, S.plan[k]).None? && !SlotTaken(db, k.execution, SlotFor(S.plan[k], ClaimRound(S, db, k).value))
  {
    assert DocOk(S, k) && TaskOk(S, db, k);
    NextIsNew(S, db, k);
    var t := db.tasks[k];
    if t.request.Some? {
      assert LinkOk(S, db, t.request.value);
    }
  }

  lemma ClaimedEntries(S: Setup, g: Grant, db: Db, execution: Id, binding: TaskKey -> Id, k: TaskKey, owner: Id, expires: int, round: int)
    requires Shaped(S, db) && k in S.plan && Next(k, db.tasks[k]) !in db.attempts
    ensures var after := Claimed(S, db, k, owner, expires, round);
      Entries(S, after, binding) == Entries(S, db, binding)[Next(k, db.tasks[k]) := NewEntry(S, k, round, binding)]
  {
  }

  lemma ClaimedRounds(S: Setup, g: Grant, db: Db, execution: Id, k: TaskKey, owner: Id, expires: int, round: int)
    requires Shaped(S, db) && k in S.plan && ScopedTask(S, g, execution, k)
    ensures var b := BookRounds(g, db, execution);
      BookRounds(g, Claimed(S, db, k, owner, expires, round), execution) == if g.money.v2 then b[S.plan[k].shot := round] else b
  {
    assert ShotOf(S, k) == ShotKey(execution, S.plan[k].shot);
  }

  lemma ClaimedForecast(S: Setup, g: Grant, db: Db, execution: Id, binding: TaskKey -> Id, k: TaskKey, owner: Id, expires: int, round: int)
    requires Shaped(S, db) && k in S.plan && g.money == S.auth
    ensures var b, after := BookOf(S, g, db, execution, binding), Claimed(S, db, k, owner, expires, round);
      BookForecast(S, g, after, binding) == ForecastAfterReserve(g, b, db.used, Entries(S, after, binding), S.plan[k].worst)
  {
  }

  lemma ClaimedBook(S: Setup, g: Grant, db: Db, execution: Id, binding: TaskKey -> Id, k: TaskKey, owner: Id, expires: int, round: int)
    requires Shaped(S, db) && MoneyOk(S, db) && k in S.plan && Next(k, db.tasks[k]) !in db.attempts
    requires g.money == S.auth && ScopedTask(S, g, execution, k)
    ensures BookOf(S, g, Claimed(S, db, k, owner, expires, round), execution, binding)
      == WithEntry(g, Rounded(S, g, BookOf(S, g, db, execution, binding), k, round), Next(k, db.tasks[k]), NewEntry(S, k, round, binding))
  {
    BookSums(S, g, db, execution, binding);
    ClaimedEntries(S, g, db, execution, binding, k, owner, expires, round);
    ClaimedRounds(S, g, db, execution, k, owner, expires, round);
    ClaimedForecast(S, g, db, execution, binding, k, owner, expires, round);
    RoundedWithEntry(S, g, BookOf(S, g, db, execution, binding), k, round, Next(k, db.tasks[k]), NewEntry(S, k, round, binding));
  }

  /** The round of the claimed shot, where the ledger keeps rounds at all. */
  ghost function Rounded(S: Setup, g: Grant, b: Book, k: TaskKey, round: int): Book
    requires k in S.plan
  {
    b.(rounds := if g.money.v2 then b.rounds[S.plan[k].shot := round] else b.rounds)
  }

  lemma RoundedWithEntry(S: Setup, g: Grant, b: Book, k: TaskKey, round: int, r: Request, want: Entry)
    requires k in S.plan
    ensures WithEntry(g, Rounded(S, g, b, k, round), r, want)
      == Book(b.reservations[r := want], b.consumed + want.charge.frames,
              ForecastAfterReserve(g, b, Used(b), b.reservations[r := want], want.charge.worst), Rounded(S, g, b, k, round).rounds)
  {
  }

  lemma RoundedMoney(S: Setup, g: Grant, b: Book, k: TaskKey, round: int, c: Charge, essential: bool)
    requires k in S.plan && c.route in g.money.routeLimits
    ensures MoneyError(g, Rounded(S, g, b, k, round), c, essential) == MoneyError(g, b, c, essential)
  {
  }

  // ---------------------------------------------------------------------------------------------
  // settle is reconcile, forecast is record_forecast
  // ---------------------------------------------------------------------------------------------

  lemma SettledEntries(S: Setup, db: Db, binding: TaskKey -> Id, r: Request, units: Option<int>)
    requires SettleOp(S, db, r, units).0.Success?
    ensures r in db.attempts
    ensures Entries(S, SettleOp(S, db, r, units).1, binding)
      == Entries(S, db, binding)[r := Billed(BookEntry(S, db, binding, r), units)]
  {
    var after := SettleOp(S, db, r, units).1;
    SettleOneRow(S, db, r, units);
    var entries := Entries(S, db, binding);
    assert after.attempts.Keys == db.attempts.Keys;
    forall q | q in db.attempts
      ensures BookEntry(S, after, binding, q) == if q == r then Billed(entries[q], units) else entries[q]
    {
    }
  }

  lemma SettleRefinesReconcile(S: Setup, g: Grant, db: Db, execution: Id, binding: TaskKey -> Id, r: Request, units: Option<int>)
    requires Inv(S, db) && g.money == S.auth
    ensures var (result, after) := SettleOp(S, db, r, units);
      var (granted, book) := ReconcileOp(g, BookOf(S, g, db, execution, binding), r, units);
      && (result.Success? <==> granted.Granted?)
      && (result.Failure? ==> granted == Denied(AsRefusal(result.error)))
      && book == BookOf(S, g, after, execution, binding)
  {
    var (result, after) := SettleOp(S, db, r, units);
    SettleRuling(S, g, db, execution, binding, r, units);
    if result.Success? {
      SettledEntries(S, db, binding, r, units);
      SettleMoney(S, db, r, units);
      BookSums(S, g, after, execution, binding);
      SettleOnlyMoney(S, db, r, units, r);
      SettledForecast(S, db, r, units);
      SettledBook(S, g, db, after, execution, binding, r, units);
    }
  }

  lemma SettleRuling(S: Setup, g: Grant, db: Db, execution: Id, binding: TaskKey -> Id, r: Request, units: Option<int>)
    ensures var (result, after) := SettleOp(S, db, r, units);
      var b := BookOf(S, g, db, execution, binding);
      var (granted, book) := ReconcileOp(g, b, r, units);
      && (result.Success? <==> granted.Granted?)
      && (result.Failure? ==> granted == Denied(AsRefusal(result.error)) && after == db && book == b)
  {
  }

  lemma SettledBook(S: Setup, g: Grant, db: Db, after: Db, execution: Id, binding: TaskKey -> Id, r: Request, units: Option<int>)
    requires g.money == S.auth && r in db.attempts
    requires ReconcileOp(g, BookOf(S, g, db, execution, binding), r, units).0.Granted?
    requires Entries(S, after, binding) == Entries(S, db, binding)[r := Billed(BookEntry(S, db, binding, r), units)]
    requires Used(BookOf(S, g, after, execution, binding)) == after.used && after.frames == db.frames && after.rounds == db.rounds
    requires after.forecast.None? == db.forecast.None?
    requires db.forecast.Some? ==>
      && after.forecast.value.remaining == db.forecast.value.remaining
      && (after.forecast.value.affordable <==> Affordable(S, after.used, after.forecast.value.remaining))
    ensures ReconcileOp(g, BookOf(S, g, db, execution, binding), r, units).1 == BookOf(S, g, after, execution, binding)
  {
    var b := BookOf(S, g, db, execution, binding);
    var c := b.(reservations := b.reservations[r := Billed(b.reservations[r], units)]);
    assert c.reservations == Entries(S, after, binding);
    assert Used(c) == after.used;
  }

  lemma SettledForecast(S: Setup, db: Db, r: Request, units: Option<int>)
    requires ForecastOk(S, db)
    ensures var after := SettleOp(S, db, r, units).1;
      && after.forecast.None? == db.forecast.None?
      && (db.forecast.Some? ==>
            && after.forecast.value.remaining == db.forecast.value.remaining
            && (after.forecast.value.affordable <==> Affordable(S, after.used, after.forecast.value.remaining)))
  {
  }

  lemma ForecastRefinesRecord(S: Setup, g: Grant, db: Db, execution: Id, binding: TaskKey -> Id, remaining: int)
    requires PlanOk(S) && MoneyOk(S, db) && g.money == S.auth && g.money.v2
    ensures var (result, after) := ForecastOp(S, db, remaining);
      var (granted, book) := RecordForecastOp(g, BookOf(S, g, db, execution, binding), remaining, g.plan);
      && (result.Success? <==> granted.Granted? && db.used + remaining + S.auth.cleanupUnits <= MAX_INTEGER)
      && (result.Success? ==> book == BookOf(S, g, after, execution, binding))
  {
    BookSums(S, g, db, execution, binding);
    RecordedBook(S, g, db, execution, binding, remaining);
  }

  lemma RecordedBook(S: Setup, g: Grant, db: Db, execution: Id, binding: TaskKey -> Id, remaining: int)
    requires g.money == S.auth && g.money.v2 && Used(BookOf(S, g, db, execution, binding)) == db.used
    ensures var (result, after) := ForecastOp(S, db, remaining);
      var (granted, book) := RecordForecastOp(g, BookOf(S, g, db, execution, binding), remaining, g.plan);
      && (result.Success? <==> granted.Granted? && db.used + remaining + S.auth.cleanupUnits <= MAX_INTEGER)
      && (result.Success? ==> book == BookOf(S, g, after, execution, binding))
  {
    assert Entries(S, ForecastOp(S, db, remaining).1, binding) == Entries(S, db, binding);
  }

  lemma BookEntryOk(S: Setup, g: Grant, db: Db, execution: Id, binding: TaskKey -> Id, r: Request)
    requires PlanOk(S) && Scoped(S, g, execution) && r in db.attempts && ChargeOk(S, db, r)
    ensures EntryOk(g, BookOf(S, g, db, execution, binding), r)
  {
    assert DocOk(S, KeyOf(r)) && ScopedTask(S, g, execution, KeyOf(r));
    assert ShotOf(S, KeyOf(r)) == ShotKey(execution, S.plan[KeyOf(r)].shot);
  }

  lemma BookMoneyKept(S: Setup, g: Grant, db: Db, execution: Id, binding: TaskKey -> Id)
    requires Shaped(S, db) && MoneyOk(S, db) && g.money == S.auth
    ensures var b := BookOf(S, g, db, execution, binding);
      && b.consumed == SumBy(b.reservations, EntryFrames()) <= g.money.maxFrames
      && (b.reservations != map[] ==> Used(b) + g.money.cleanupUnits <= g.money.totalUnits)
      && (forall route {:trigger RouteKept(g, b, route)} :: route in g.money.routeLimits ==> RouteKept(g, b, route))
  {
    var b := BookOf(S, g, db, execution, binding);
    BookSums(S, g, db, execution, binding);
    assert db.attempts == map[] ==> b.reservations == map[];
    forall route | route in g.money.routeLimits ensures RouteKept(g, b, route) {
      assert RouteOk(S, db, route);
    }
  }

  lemma BookForecastKept(S: Setup, g: Grant, db: Db, execution: Id, binding: TaskKey -> Id)
    requires MoneyOk(S, db) && ForecastOk(S, db) && g.money == S.auth
    ensures var b := BookOf(S, g, db, execution, binding); EstimateOk(g, b) && (b.forecast.Some? ==> g.money.v2)
  {
    BookSums(S, g, db, execution, binding);
  }

  lemma BookSlotsKept(S: Setup, g: Grant, db: Db, execution: Id, binding: TaskKey -> Id, r: Request, q: Request)
    requires Inv(S, db) && Scoped(S, g, execution) && SegmentsDistinct(S)
    ensures SlotsApart(BookOf(S, g, db, execution, binding), r, q)
  {
    if r in db.attempts && q in db.attempts && r != q && db.attempts[r].charge.slot.Some? {
      SlotsDiffer(S, g, db, execution, r, q);
    }
  }

  lemma BookRowsKept(S: Setup, g: Grant, db: Db, execution: Id, binding: TaskKey -> Id)
    requires PlanOk(S) && RowsOk(S, db) && Scoped(S, g, execution)
    ensures var b := BookOf(S, g, db, execution, binding);
      forall r {:trigger EntryOk(g, b, r)} :: r in b.reservations ==> EntryOk(g, b, r)
  {
    var b := BookOf(S, g, db, execution, binding);
    forall r | r in b.reservations ensures EntryOk(g, b, r) {
      assert ChargeOk(S, db, r);
      BookEntryOk(S, g, db, execution, binding, r);
    }
  }

  lemma BookScopeKept(S: Setup, g: Grant, db: Db, execution: Id, binding: TaskKey -> Id)
    requires PlanOk(S) && RoundsOk(S, db) && g.money == S.auth
    ensures GrantOk(g)
    ensures var b := BookOf(S, g, db, execution, binding);
      forall shot :: shot in b.rounds ==> 1 <= b.rounds[shot] <= g.money.maxRepairRounds
  {
  }

  /** A store's book is always one the ledger itself could keep. */
  lemma BookKept(S: Setup, g: Grant, db: Db, execution: Id, binding: TaskKey -> Id)
    requires Inv(S, db) && Scoped(S, g, execution) && SegmentsDistinct(S)
    ensures BookOk(g, BookOf(S, g, db, execution, binding))
  {
    var b := BookOf(S, g, db, execution, binding);
    assert PlanOk(S) && RowsOk(S, db) && RoundsOk(S, db) && MoneyOk(S, db) && ForecastOk(S, db) && Shaped(S, db);
    BookMoneyKept(S, g, db, execution, binding);
    BookForecastKept(S, g, db, execution, binding);
    BookRowsKept(S, g, db, execution, binding);
    BookScopeKept(S, g, db, execution, binding);
    forall r, q ensures SlotsApart(b, r, q) {
      BookSlotsKept(S, g, db, execution, binding, r, q);
    }
  }

  lemma SlotsDiffer(S: Setup, g: Grant, db: Db, execution: Id, r: Request, q: Request)
    requires Inv(S, db) && Scoped(S, g, execution) && SegmentsDistinct(S)
    requires r in db.attempts && q in db.attempts && r != q && db.attempts[r].charge.slot.Some?
    ensures db.attempts[r].charge.slot != db.attempts[q].charge.slot
  {
    assert ChargeOk(S, db, r) && ChargeOk(S, db, q) && DocOk(S, KeyOf(r)) && DocOk(S, KeyOf(q));
    assert ScopedTask(S, g, execution, KeyOf(r)) && ScopedTask(S, g, execution, KeyOf(q));
    assert RoundsRise(db, r, q) && RoundsRise(db, q, r);
    assert db.attempts[r].charge.slot == db.attempts[q].charge.slot ==> KeyOf(r) == KeyOf(q);
    assert KeyOf(r) == KeyOf(q) ==> r.epoch != q.epoch;
  }
}
