/** What the ledger grants, bills and advances, stated on the reservations themselves. */
module LedgerLaws {
  import opened Wrappers
  import opened Ids
  import opened Sums
  import opened StoreState
  import opened LedgerBook

  // ---------------------------------------------------------------------------------------------
  // reserve
  // ---------------------------------------------------------------------------------------------

  /** Costs in range, and a generation slot exactly for work with frames. */
  predicate Formed(want: Entry) {
    && 0 <= want.charge.worst <= 0x7FFF_FFFF_FFFF_FFFF && 0 <= want.charge.frames <= 0x7FFF_FFFF_FFFF_FFFF
    && (want.charge.frames > 0 <==> want.charge.slot.Some?)
    && (want.charge.slot.Some? ==> want.charge.slot.value.round in {1, 2, 3})
  }

  predicate InForce(g: Grant, now: real) {
    g.money.authorized && (g.money.v2 ==> now < g.money.expiresAt as real)
  }

  /** The route, and for generation the shot, its segment and its current round, are authorized; the slot is free. */
  predicate InScope(g: Grant, b: Book, want: Entry) {
    && want.charge.route in g.money.routeLimits
    && (want.charge.slot.Some? ==>
          var slot := want.charge.slot.value;
          && slot.shot in g.shots
          && (g.money.v2 ==>
                && slot.shot in g.segments && slot.segment in g.segments[slot.shot]
                && slot.shot in b.rounds && slot.round == b.rounds[slot.shot])
          && forall r :: r in b.reservations ==> b.reservations[r].charge.slot != want.charge.slot)
  }

  /** One reservation more: its bill, or its worst case while it has none, in all and on its route alone; its frames; what is unknown. */
  lemma EntryAdds(reservations: map<Request, Entry>, r: Request, e: Entry, route: Id)
    requires r !in reservations
    ensures var more, c := reservations[r := e], e.charge;
      var cost := if c.fee == Settled then c.settled else c.worst;
      && SumBy(more, EntryCost()) - SumBy(reservations, EntryCost()) == cost
      && SumBy(more, EntryCostOn(route)) - SumBy(reservations, EntryCostOn(route)) == (if c.route == route then cost else 0)
      && SumBy(more, EntryFrames()) - SumBy(reservations, EntryFrames()) == c.frames
      && SumBy(more, EntryUnknown()) - SumBy(reservations, EntryUnknown()) == (if c.fee == UnknownFee then c.worst else 0)
  {
    Put(reservations, r, e, EntryCost());
    Put(reservations, r, e, EntryCostOn(route));
    Put(reservations, r, e, EntryFrames());
    Put(reservations, r, e, EntryUnknown());
  }

  ghost predicate HasRoom(g: Grant, b: Book, c: Charge)
    requires c.route in g.money.routeLimits
  {
    && SumBy(b.reservations, EntryCost()) + c.worst + g.money.cleanupUnits <= g.money.totalUnits
    && SumBy(b.reservations, EntryCostOn(c.route)) + c.worst <= g.money.routeLimits[c.route]
    && SumBy(b.reservations, EntryFrames()) + c.frames <= g.money.maxFrames
  }

  ghost predicate PastThreshold(g: Grant, b: Book, worst: int) {
    g.money.v2 && 100 * (SumBy(b.reservations, EntryCost()) + worst) >= g.percent * g.money.totalUnits
  }

  ghost predicate Planned(g: Grant, b: Book, worst: int) {
    && b.forecast.Some? && worst <= b.forecast.value.remaining
    && SumBy(b.reservations, EntryCost()) + b.forecast.value.remaining + g.money.cleanupUnits <= g.money.totalUnits
  }

  ghost predicate Reservable(g: Grant, b: Book, want: Entry, now: real) {
    && Formed(want) && (g.money.v2 || want.essential) && InForce(g, now) && InScope(g, b, want) && HasRoom(g, b, want.charge)
    && (PastThreshold(g, b, want.charge.worst) ==> want.essential && Planned(g, b, want.charge.worst))
  }

  /** A new reservation is granted exactly for authorized work in scope that fits, with a forecast from the threshold on. */
  lemma ReservedWhen(g: Grant, b: Book, r: Request, want: Entry, now: real)
    requires BookOk(g, b) && want.charge.fee == Active && r !in b.reservations
    ensures var (told, after) := ReserveOp(g, b, r, want, now);
      && (told.Granted? <==> Reservable(g, b, want, now)) && (told.Denied? ==> after == b)
      && (told.Granted? ==>
            && told.value == want && after.reservations == b.reservations[r := want]
            && after.consumed == b.consumed + want.charge.frames && after.rounds == b.rounds
            && (after.forecast.Some? <==> b.forecast.Some?)
            && (b.forecast.Some? ==>
                  after.forecast.value.remaining ==
                  if want.charge.worst <= b.forecast.value.remaining then b.forecast.value.remaining - want.charge.worst else 0))
  {
    if FormError(want).None? {
      ScopeMeans(g, b, want);
    }
    if want.charge.route in g.money.routeLimits {
      MoneyMeans(g, b, want);
    }
  }

  lemma ScopeMeans(g: Grant, b: Book, want: Entry)
    requires FormError(want).None?
    ensures ScopeError(g, b, want).None? <==> InScope(g, b, want)
  {
  }

  lemma MoneyMeans(g: Grant, b: Book, want: Entry)
    requires BookOk(g, b) && want.charge.route in g.money.routeLimits
    ensures MoneyError(g, b, want.charge, want.essential).None? <==>
      HasRoom(g, b, want.charge) && (PastThreshold(g, b, want.charge.worst) ==> want.essential && Planned(g, b, want.charge.worst))
  {
  }

  /** Asking again for the very same thing is the same reservation; for anything else under its name, a conflict. */
  lemma ReservedAgain(g: Grant, b: Book, r: Request, want: Entry, now: real)
    requires BookOk(g, b) && want.charge.fee == Active && r in b.reservations && Formed(want) && (g.money.v2 || want.essential)
    ensures var (told, after), was := ReserveOp(g, b, r, want, now), b.reservations[r];
      && after == b
      && told == if was.charge.route == want.charge.route && was.charge.worst == want.charge.worst && was.charge.frames == want.charge.frames
                    && was.charge.slot == want.charge.slot && was.binding == want.binding && (g.money.v2 ==> was.essential == want.essential)
                 then Granted(was) else Denied(Conflict)
  {
  }

  /** What stands first against a new reservation is the answer. */
  lemma ReserveRefusals(g: Grant, b: Book, r: Request, want: Entry, now: real)
    requires BookOk(g, b) && want.charge.fee == Active && r !in b.reservations && Formed(want) && (g.money.v2 || want.essential)
    ensures var told := ReserveOp(g, b, r, want, now).0;
      && (!g.money.authorized ==> told == Denied(Unauthorized))
      && (g.money.authorized && !InForce(g, now) ==> told == Denied(Expired))
      && (InForce(g, now) && !InScope(g, b, want) ==> told.Denied? && told.why in {Unauthorized, SegmentUnauthorized, RoundConflict, SlotUsed})
      && (InForce(g, now) && InScope(g, b, want) && !HasRoom(g, b, want.charge) ==> told == Denied(OverBudget))
      && (InForce(g, now) && InScope(g, b, want) && HasRoom(g, b, want.charge) && PastThreshold(g, b, want.charge.worst) ==>
            && (!want.essential ==> told == Denied(OptionalPaused))
            && (want.essential && !Planned(g, b, want.charge.worst) ==> told == Denied(NeedsForecast) || told == Denied(Unaffordable)))
  {
    ScopeMeans(g, b, want);
    if want.charge.route in g.money.routeLimits {
      MoneyMeans(g, b, want);
    }
  }

  // ---------------------------------------------------------------------------------------------
  // reconcile, record_forecast, advance_repair_round
  // ---------------------------------------------------------------------------------------------

  /** A bill within the worst case settles, once; without one an unsettled fee is unknown, and the worst case stays held. */
  lemma ReconciledWhen(g: Grant, b: Book, r: Request, units: Option<int>)
    requires BookOk(g, b)
    ensures var (told, after) := ReconcileOp(g, b, r, units);
      if r !in b.reservations then told == Denied(Missing) && after == b
      else
        var was := b.reservations[r];
        if units.Some? && (units.value < 0 || was.charge.worst < units.value) then told == Denied(BadValue) && after == b
        else if units.Some? && was.charge.fee == Settled && was.charge.settled != units.value then told == Denied(Conflict) && after == b
        else
          && told.Granted? && after.reservations == b.reservations[r := told.value] && after.consumed == b.consumed && after.rounds == b.rounds
          && told.value == was.(charge := was.charge.(fee := told.value.charge.fee, settled := told.value.charge.settled))
          && (units.Some? ==> told.value.charge.fee == Settled && told.value.charge.settled == units.value)
          && (units.None? ==> told.value.charge.fee == if was.charge.fee == Settled then Settled else UnknownFee)
          && (units.None? ==> told.value.charge.settled == was.charge.settled)
          && (after.forecast.Some? <==> b.forecast.Some?)
          && (b.forecast.Some? ==> after.forecast.value.remaining == b.forecast.value.remaining)
  {
  }

  /** A forecast of this plan in range replaces the one on record. */
  lemma ForecastWhen(g: Grant, b: Book, remaining: int, plan: Id)
    requires BookOk(g, b)
    ensures var (told, after) := RecordForecastOp(g, b, remaining, plan);
      && (told.Granted? <==> 0 <= remaining <= 0x7FFF_FFFF_FFFF_FFFF && g.money.v2 && plan == g.plan)
      && (told.Denied? ==> after == b)
      && (told.Granted? ==> after == b.(forecast := Some(told.value)) && told.value.remaining == remaining)
  {
  }

  /** A shot's round moves on by one exactly when it is the one expected, not the last, and something was reserved in it. */
  lemma AdvancedWhen(g: Grant, b: Book, shot: Id, expected: int, now: real)
    requires BookOk(g, b)
    ensures var (told, after) := AdvanceOp(g, b, shot, expected, now);
      && (told.Granted? <==>
            && g.money.v2 && InForce(g, now) && shot in b.rounds && b.rounds[shot] == expected < g.money.maxRepairRounds
            && exists r :: r in b.reservations && b.reservations[r].charge.slot.Some?
                 && b.reservations[r].charge.slot.value.shot == shot && b.reservations[r].charge.slot.value.round == expected)
      && (told.Denied? ==> after == b)
      && (told.Granted? ==> told.value == expected + 1 && after == b.(rounds := b.rounds[shot := expected + 1]))
  {
  }

  /** What stands first against a new round is the answer. */
  lemma AdvanceRefusals(g: Grant, b: Book, shot: Id, expected: int, now: real)
    requires BookOk(g, b) && AdvanceOp(g, b, shot, expected, now).0.Denied?
    ensures AdvanceOp(g, b, shot, expected, now).0.why ==
      if expected !in {1, 2, 3} then BadValue
      else if !g.money.v2 then PolicyUnsupported
      else if !g.money.authorized then Unauthorized
      else if !InForce(g, now) then Expired
      else if shot !in b.rounds then Unauthorized
      else if b.rounds[shot] != expected then RoundConflict
      else if expected >= g.money.maxRepairRounds then RoundsExhausted
      else RoundEmpty
  {
  }
}
