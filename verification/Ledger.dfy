/** The ledger as an object: each method reads its book, recomputes the sums it needs and either saves or refuses. */
module Ledger {
  import opened Wrappers
  import opened Ids
  import opened Sums
  import opened StoreState
  import opened LedgerBook

  datatype Admission = Admission(
    used: int, available: int, unknown: int, threshold: bool, forecastRequired: bool, current: bool, expired: bool,
    reason: Option<Refusal>)

  class BudgetLedger {
    const grant: Grant
    var reservations: map<Request, Entry>
    var consumed: int
    var forecast: Option<Estimate>
    var rounds: map<Id, int>

    function TheBook(): Book
      reads this
    {
      Book(reservations, consumed, forecast, rounds)
    }

    ghost predicate Valid()
      reads this
    {
      BookOk(grant, TheBook())
    }

    constructor (g: Grant)
      requires GrantOk(g)
      ensures Valid() && grant == g
      ensures TheBook() == Book(map[], 0, None, if g.money.v2 then map s | s in g.shots :: 1 else map[])
    {
      grant := g;
      reservations, consumed, forecast := map[], 0, None;
      rounds := if g.money.v2 then map s | s in g.shots :: 1 else map[];
      new;
      EmptyBookOk(g);
    }

    /** The money gates of `reserve`, with its three recomputed sums. */
    method CheckMoney(c: Charge, essential: bool) returns (e: Option<Refusal>, used: int)
      requires c.route in grant.money.routeLimits
      ensures e == MoneyError(grant, TheBook(), c, essential) && used == Used(TheBook())
    {
      var auth := grant.money;
      used := Total(reservations, EntryCost());
      var onRoute := Total(reservations, EntryCostOn(c.route));
      if used + c.worst + auth.cleanupUnits > auth.totalUnits || onRoute + c.worst > auth.routeLimits[c.route]
         || consumed + c.frames > auth.maxFrames
      {
        return Some(OverBudget), used;
      }
      if auth.v2 && (used + c.worst) * 100 >= auth.totalUnits * grant.percent {
        if !essential {
          return Some(OptionalPaused), used;
        }
        if forecast.None? || forecast.value.basis != Basis(reservations) || forecast.value.remaining < c.worst {
          return Some(NeedsForecast), used;
        }
        if !forecast.value.affordable {
          return Some(Unaffordable), used;
        }
      }
      return None, used;
    }

    method Reserve(r: Request, want: Entry, now: real) returns (v: Ruling<Entry>)
      requires Valid() && want.charge.fee == Active
      modifies this
      ensures (v, TheBook()) == ReserveOp(grant, old(TheBook()), r, want, now)
      ensures Valid()
    {
      ReserveKeeps(grant, TheBook(), r, want, now);
      var form := FormError(want);
      if form.Some? {
        return Denied(form.value);
      }
      if !grant.money.v2 && !want.essential {
        return Denied(PolicyUnsupported);
      }
      if r in reservations {
        return if SameRequest(grant, reservations[r], want) then Granted(reservations[r]) else Denied(Conflict);
      }
      var refused := AuthorityError(grant, now);
      if refused.Some? {
        return Denied(refused.value);
      }
      refused := ScopeError(grant, TheBook(), want);
      if refused.Some? {
        return Denied(refused.value);
      }
      var used: int;
      refused, used := CheckMoney(want.charge, want.essential);
      if refused.Some? {
        return Denied(refused.value);
      }
      forecast := ForecastAfterReserve(grant, TheBook(), used, reservations[r := want], want.charge.worst);
      reservations, consumed := reservations[r := want], consumed + want.charge.frames;
      return Granted(want);
    }

    method Reconcile(r: Request, units: Option<int>) returns (v: Ruling<Entry>)
      requires Valid()
      modifies this
      ensures (v, TheBook()) == ReconcileOp(grant, old(TheBook()), r, units)
      ensures Valid()
    {
      ReconcileKeeps(grant, TheBook(), r, units);
      if r !in reservations {
        return Denied(Missing);
      }
      var prior := reservations[r];
      var entry := prior;
      if units.None? {
        if prior.charge.fee != Settled {
          entry := prior.(charge := prior.charge.(fee := UnknownFee));
        }
      } else {
        if !(0 <= units.value <= prior.charge.worst) {
          return Denied(BadValue);
        }
        if prior.charge.fee == Settled && prior.charge.settled != units.value {
          return Denied(Conflict);
        }
        entry := prior.(charge := prior.charge.(fee := Settled, settled := units.value));
      }
      reservations := reservations[r := entry];
      if grant.money.v2 && forecast.Some? {
        var used := Total(reservations, EntryCost());
        var remaining := forecast.value.remaining;
        forecast := Some(Estimate(Basis(reservations), remaining, used,
                                  used + remaining + grant.money.cleanupUnits <= grant.money.totalUnits));
      }
      return Granted(entry);
    }

    method RecordForecast(remaining: int, plan: Id) returns (v: Ruling<Estimate>)
      requires Valid()
      modifies this
      ensures (v, TheBook()) == RecordForecastOp(grant, old(TheBook()), remaining, plan)
      ensures Valid()
    {
      ForecastKeeps(grant, TheBook(), remaining, plan);
      if !(0 <= remaining <= MAX_INTEGER) {
        return Denied(BadValue);
      }
      if !grant.money.v2 {
        return Denied(PolicyUnsupported);
      }
      if plan != grant.plan {
        return Denied(OtherPlan);
      }
      var used := Total(reservations, EntryCost());
      var value := Estimate(Basis(reservations), remaining, used, used + remaining + grant.money.cleanupUnits <= grant.money.totalUnits);
      forecast := Some(value);
      return Granted(value);
    }

    method AdvanceRepairRound(shot: Id, expected: int, now: real) returns (v: Ruling<int>)
      requires Valid()
      modifies this
      ensures (v, TheBook()) == AdvanceOp(grant, old(TheBook()), shot, expected, now)
      ensures Valid()
    {
      AdvanceKeeps(grant, TheBook(), shot, expected, now);
      if !(1 <= expected <= 3) {
        return Denied(BadValue);
      }
      if !grant.money.v2 {
        return Denied(PolicyUnsupported);
      }
      var refused := AuthorityError(grant, now);
      if refused.Some? {
        return Denied(refused.value);
      }
      if shot !in rounds {
        return Denied(Unauthorized);
      }
      if rounds[shot] != expected {
        return Denied(RoundConflict);
      }
      if rounds[shot] >= grant.money.maxRepairRounds {
        return Denied(RoundsExhausted);
      }
      if !RoundUsed(TheBook(), shot, expected) {
        return Denied(RoundEmpty);
      }
      rounds := rounds[shot := expected + 1];
      return Granted(expected + 1);
    }

    /** Global status only: route, frames, slot and scope are for `Reserve`. */
    method AdmissionStatus(worst: int, essential: bool, now: real) returns (v: Ruling<Admission>)
      ensures v == StatusOf(grant, TheBook(), worst, essential, now)
    {
      if !(0 <= worst <= MAX_INTEGER) {
        return Denied(BadValue);
      }
      if !grant.money.v2 {
        return Denied(PolicyUnsupported);
      }
      var auth := grant.money;
      var used := Total(reservations, EntryCost());
      var unknown := Total(reservations, EntryUnknown());
      var threshold := (used + worst) * 100 >= auth.totalUnits * grant.percent;
      var current := forecast.Some? && forecast.value.basis == Basis(reservations)
        && forecast.value.remaining >= worst && forecast.value.affordable;
      var expired := now >= auth.expiresAt as real;
      var reason := None;
      if !auth.authorized {
        reason := Some(Unauthorized);
      } else if expired {
        reason := Some(Expired);
      } else if used + worst + auth.cleanupUnits > auth.totalUnits {
        reason := Some(OverBudget);
      } else if threshold && !essential {
        reason := Some(OptionalPaused);
      } else if threshold && !current {
        reason := Some(NeedsForecast);
      }
      return Granted(Admission(used, AtLeastZero(auth.totalUnits - used - auth.cleanupUnits), unknown, threshold,
                               threshold && !current, current, expired, reason));
    }
  }

  ghost function StatusOf(g: Grant, b: Book, worst: int, essential: bool, now: real): Ruling<Admission> {
    if !(0 <= worst <= MAX_INTEGER) then Denied(BadValue)
    else if !g.money.v2 then Denied(PolicyUnsupported)
    else
      var threshold := (Used(b) + worst) * 100 >= g.money.totalUnits * g.percent;
      var current := b.forecast.Some? && b.forecast.value.basis == Basis(b.reservations)
        && b.forecast.value.remaining >= worst && b.forecast.value.affordable;
      var expired := now >= g.money.expiresAt as real;
      Granted(Admission(
        Used(b), AtLeastZero(g.money.totalUnits - Used(b) - g.money.cleanupUnits), SumBy(b.reservations, EntryUnknown()),
        threshold, threshold && !current, current, expired,
        if !g.money.authorized then Some(Unauthorized)
        else if expired then Some(Expired)
        else if Used(b) + worst + g.money.cleanupUnits > g.money.totalUnits then Some(OverBudget)
        else if threshold && !essential then Some(OptionalPaused)
        else if threshold && !current then Some(NeedsForecast)
        else None))
  }

  /** The status foretells the next reservation: with scope, route and frames in order, allowed means granted and back. */
  lemma StatusForetells(g: Grant, b: Book, r: Request, want: Entry, now: real)
    requires BookOk(g, b) && g.money.v2 && want.charge.fee == Active && FormError(want).None? && r !in b.reservations
    requires ScopeError(g, b, want).None?
    ensures var status := StatusOf(g, b, want.charge.worst, want.essential, now);
      var roomElsewhere := SumBy(b.reservations, EntryCostOn(want.charge.route)) + want.charge.worst <= g.money.routeLimits[want.charge.route]
        && b.consumed + want.charge.frames <= g.money.maxFrames;
      && status.Granted?
      && (ReserveOp(g, b, r, want, now).0.Granted? <==> status.value.reason.None? && roomElsewhere)
      && (ReserveOp(g, b, r, want, now).0.Granted? ==> want.charge.worst <= status.value.available)
  {
  }

  /** What is held for unknown fees is part of what is used. */
  lemma UnknownIsUsed(g: Grant, b: Book)
    requires BookOk(g, b)
    ensures 0 <= SumBy(b.reservations, EntryUnknown()) <= Used(b)
  {
    forall r | r in b.reservations ensures 0 <= EntryUnknown()(b.reservations[r]) <= EntryCost()(b.reservations[r]) {
      assert EntryOk(g, b, r);
    }
    NonNegative(b.reservations, EntryUnknown());
    Below(b.reservations, EntryUnknown(), EntryCost());
  }

  lemma {:induction false} Below<K, V>(m: map<K, V>, f: V -> int, g: V -> int)
    requires forall k :: k in m ==> f(m[k]) <= g(m[k])
    ensures SumBy(m, f) <= SumBy(m, g)
    decreases |m|
  {
    if m.Keys != {} {
      var k :| k in m.Keys;
      Extract(m, k, f);
      Extract(m, k, g);
      Smaller(m, k);
      Below(m - {k}, f, g);
    }
  }
}
