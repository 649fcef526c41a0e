/**
 What every operation of the resource pool keeps, over every run of operations, crashes included:
 memory and slots within each device, exclusive claims alone, live claims on live residents,
 at most one admission per request, and bounded overtaking.
 */
module PoolSafety {
  import opened Wrappers
  import opened Ids
  import opened Sums
  import opened PoolState

  // ---------------------------------------------------------------------------------------------
  // The invariant
  // ---------------------------------------------------------------------------------------------

  ghost predicate AuthorityOk(a: Authority) {
    && (forall i :: 0 <= i < |a.devices| ==> a.devices[i].vramMb >= 1 && a.devices[i].slots >= 1)
    && (forall i, j :: 0 <= i < j < |a.devices| ==> a.devices[i].uuid != a.devices[j].uuid)
    && a.maxBypasses >= 0 && a.maxResidentModels >= 1
  }

  ghost predicate OrdersApart(s: State, a: Id, b: Id) {
    a in s.tickets && b in s.tickets && s.tickets[a].order == s.tickets[b].order ==> a == b
  }

  ghost predicate TicketOk(s: State, rid: Id)
    requires rid in s.tickets
  {
    var q := s.tickets[rid];
    && q.ticket.requestId == rid && WellFormedTicket(q.ticket, s.authority)
    && 1 <= q.order <= s.sequence && 0 <= q.bypasses <= s.authority.maxBypasses
  }

  ghost predicate TicketsOk(s: State) {
    && (forall rid {:trigger TicketOk(s, rid)} :: rid in s.tickets ==> TicketOk(s, rid))
    && (forall a, b {:trigger OrdersApart(s, a, b)} :: OrdersApart(s, a, b))
  }

  /** A claim stands on a resident record of its own device; while it is running that resident is not in doubt. */
  ghost predicate ClaimOk(s: State, rid: Id)
    requires rid in s.claims
  {
    var c := s.claims[rid];
    && c.requestId == rid && rid in s.tickets && c.workspaceMb >= 0 && c.epoch <= s.epoch
    && c.residentKey in s.residents && c.residentKey.uuid == c.uuid && c.uuid in Uuids(s.authority)
    && c.residentEpoch == s.residents[c.residentKey].epoch
    && c.leaseUntil <= s.residents[c.residentKey].leaseUntil
    && (c.state == Live ==> s.residents[c.residentKey].state == Live)
  }

  ghost predicate ResidentOk(s: State, key: ResidentKey)
    requires key in s.residents
  {
    s.residents[key].uuid == key.uuid && s.residents[key].model == key.model && s.residents[key].residentMb >= 1
  }

  /** If this claim is exclusive, it is the only claim on its device and its resident the only resident there. */
  ghost predicate AloneOk(s: State, a: Id)
    requires a in s.claims
  {
    s.claims[a].mode == Exclusive ==>
      && (forall b :: b in s.claims && s.claims[b].uuid == s.claims[a].uuid ==> b == a)
      && (forall k :: k in s.residents && s.residents[k].uuid == s.claims[a].uuid ==> k == s.claims[a].residentKey)
  }

  ghost predicate DeviceOk(s: State, d: Device) {
    Reserved(s, d.uuid) <= d.vramMb && ClaimCount(s, d.uuid) <= d.slots
  }

  ghost predicate ClaimsOk(s: State) {
    && (forall rid {:trigger ClaimOk(s, rid)} :: rid in s.claims ==> ClaimOk(s, rid))
    && (forall rid {:trigger AloneOk(s, rid)} :: rid in s.claims ==> AloneOk(s, rid))
  }

  ghost predicate ResidentsOk(s: State) {
    forall k {:trigger ResidentOk(s, k)} :: k in s.residents ==> ResidentOk(s, k)
  }

  ghost predicate DevicesOk(s: State) {
    forall d {:trigger DeviceOk(s, d)} :: d in s.authority.devices ==> DeviceOk(s, d)
  }

  ghost predicate Safe(s: State) {
    && AuthorityOk(s.authority)
    && s.sequence >= 0 && |s.residents| <= s.authority.maxResidentModels
    && TicketsOk(s) && ClaimsOk(s) && ResidentsOk(s) && DevicesOk(s)
  }

  ghost predicate RecordOk(s: State, h: History, rid: Id)
    requires rid in h
  {
    && h[rid].ticket.requestId == rid
    && (rid in s.tickets ==> CompletesCleanly(s, h, rid))
    && (h[rid].Released? ==> h[rid].claim.requestId == rid)
  }

  ghost predicate HistoryOk(s: State, h: History) {
    forall rid {:trigger RecordOk(s, h, rid)} :: rid in h ==> RecordOk(s, h, rid)
  }

  ghost predicate Inv(d: Disk) {
    Safe(d.state) && HistoryOk(d.state, d.history)
  }

  /** In a reachable pair of files every recorded stop can be completed, so `_expire` never reports an integrity error. */
  lemma RecordedStopsComplete(d: Disk)
    requires Inv(d)
    ensures Completes(d.state, d.history)
  {
    forall rid | rid in d.history ensures RecordOk(d.state, d.history, rid) {
    }
  }

  lemma CreatedSafe(a: Authority)
    requires AuthorityOk(a)
    ensures Inv(Disk(State(a, 0, 0, map[], map[], map[]), map[]))
  {
  }

  // ---------------------------------------------------------------------------------------------
  // Sums on a device under the elementary changes
  // ---------------------------------------------------------------------------------------------

  /** Fewer claims and residents, or the same ones with other leases, never need more memory or slots. */
  lemma Shrink(s: State, t: State, d: Device)
    requires DeviceOk(s, d)
    requires t.claims.Keys <= s.claims.Keys && t.residents.Keys <= s.residents.Keys
    requires forall r :: r in t.claims ==> t.claims[r].uuid == s.claims[r].uuid && t.claims[r].workspaceMb == s.claims[r].workspaceMb
    requires forall r :: r in s.claims ==> s.claims[r].workspaceMb >= 0
    requires forall k :: k in t.residents ==> t.residents[k].uuid == s.residents[k].uuid && t.residents[k].residentMb == s.residents[k].residentMb
    requires forall k :: k in s.residents ==> s.residents[k].residentMb >= 1
    ensures DeviceOk(t, d)
  {
    Part(t.claims, s.claims, ClaimOn(d.uuid));
    Part(t.claims, s.claims, WorkspaceOn(d.uuid));
    Part(t.residents, s.residents, ResidentOn(d.uuid));
  }

  // ---------------------------------------------------------------------------------------------
  // Every operation keeps the invariant
  // ---------------------------------------------------------------------------------------------

  /** Same content except lease states and times. */
  ghost predicate ClaimKept(s: State, t: State, r: Id) {
    r in t.claims ==> r in s.claims && t.claims[r] == s.claims[r].(state := t.claims[r].state, leaseUntil := t.claims[r].leaseUntil)
  }

  ghost predicate ResidentKept(s: State, t: State, k: ResidentKey) {
    k in t.residents ==>
      k in s.residents && t.residents[k] == s.residents[k].(state := t.residents[k].state, leaseUntil := t.residents[k].leaseUntil)
  }

  /** `t` holds a part of `s`'s claims and residents, unchanged but for their leases. */
  ghost predicate PartOf(s: State, t: State) {
    && t.authority == s.authority
    && (forall r {:trigger ClaimKept(s, t, r)} :: ClaimKept(s, t, r))
    && (forall k {:trigger ResidentKept(s, t, k)} :: ResidentKept(s, t, k))
  }

  lemma PartDevices(s: State, t: State)
    requires Safe(s) && PartOf(s, t)
    ensures DevicesOk(t) && ResidentsOk(t) && |t.residents| <= t.authority.maxResidentModels
    ensures forall a :: a in t.claims ==> AloneOk(t, a)
  {
    forall r | r in t.claims ensures r in s.claims && t.claims[r].uuid == s.claims[r].uuid && t.claims[r].workspaceMb == s.claims[r].workspaceMb {
      assert ClaimKept(s, t, r);
    }
    forall k | k in t.residents ensures k in s.residents && t.residents[k].uuid == s.residents[k].uuid && t.residents[k].residentMb == s.residents[k].residentMb {
      assert ResidentKept(s, t, k);
    }
    PartSums(s, t);
    PartCount(s, t);
    PartRest(s, t);
  }

  lemma PartSums(s: State, t: State)
    requires Safe(s) && t.authority == s.authority && t.claims.Keys <= s.claims.Keys && t.residents.Keys <= s.residents.Keys
    requires forall r :: r in t.claims ==> t.claims[r].uuid == s.claims[r].uuid && t.claims[r].workspaceMb == s.claims[r].workspaceMb
    requires forall k :: k in t.residents ==> t.residents[k].uuid == s.residents[k].uuid && t.residents[k].residentMb == s.residents[k].residentMb
    ensures DevicesOk(t)
  {
    forall r | r in s.claims ensures s.claims[r].workspaceMb >= 0 {
      assert ClaimOk(s, r);
    }
    forall k | k in s.residents ensures s.residents[k].residentMb >= 1 {
      assert ResidentOk(s, k);
    }
    forall d | d in t.authority.devices ensures DeviceOk(t, d) {
      assert DeviceOk(s, d);
      Shrink(s, t, d);
    }
  }

  lemma PartCount(s: State, t: State)
    requires t.residents.Keys <= s.residents.Keys
    ensures |t.residents| <= |s.residents|
  {
    assert s.residents.Keys == t.residents.Keys + (s.residents.Keys - t.residents.Keys);
    assert |t.residents| == |t.residents.Keys| && |s.residents| == |s.residents.Keys|;
  }

  lemma PartRest(s: State, t: State)
    requires ClaimsOk(s) && ResidentsOk(s) && PartOf(s, t)
    ensures ResidentsOk(t)
    ensures forall a :: a in t.claims ==> AloneOk(t, a)
  {
    forall k | k in t.residents ensures ResidentOk(t, k) {
      assert ResidentKept(s, t, k) && ResidentOk(s, k);
    }
    forall a | a in t.claims ensures AloneOk(t, a) {
      assert ClaimKept(s, t, a) && AloneOk(s, a);
      if t.claims[a].mode == Exclusive {
        forall b | b in t.claims && t.claims[b].uuid == t.claims[a].uuid ensures b == a {
          assert ClaimKept(s, t, b);
        }
        forall k | k in t.residents && t.residents[k].uuid == t.claims[a].uuid ensures k == t.claims[a].residentKey {
          assert ResidentKept(s, t, k);
        }
      }
    }
  }

  /** Expiry frees nothing but recorded stops: leases lapse together and no live claim is left on a resident in doubt. */
  lemma ExpiredSafe(d: Disk, now: real)
    requires Inv(d)
    ensures Inv(d.(state := Expired(d.state, d.history, now)))
  {
    var s, t := d.state, Expired(d.state, d.history, now);
    forall r ensures ClaimKept(s, t, r) {
    }
    forall k ensures ResidentKept(s, t, k) {
    }
    PartDevices(s, t);
    forall r | r in t.claims ensures ClaimOk(t, r) {
      assert ClaimOk(s, r);
    }
    ExpiredTickets(d, now);
  }

  lemma ExpiredTickets(d: Disk, now: real)
    requires Inv(d)
    ensures var t := Expired(d.state, d.history, now); TicketsOk(t) && HistoryOk(t, d.history)
  {
    var s, t := d.state, Expired(d.state, d.history, now);
    forall r | r in t.tickets ensures TicketOk(t, r) {
      assert TicketOk(s, r);
    }
    forall a, b ensures OrdersApart(t, a, b) {
      assert OrdersApart(s, a, b);
    }
    forall r | r in d.history ensures RecordOk(t, d.history, r) {
      assert RecordOk(s, d.history, r);
    }
  }

  /** What expiry leaves: exactly the requests without a history record. */
  lemma ExpiredKeys(d: Disk, now: real)
    requires Ticketed(d.state)
    ensures var s := Expired(d.state, d.history, now);
      && s.residents.Keys == d.state.residents.Keys
      && s.tickets.Keys == d.state.tickets.Keys - d.history.Keys
      && s.claims.Keys == d.state.claims.Keys - d.history.Keys
  {
  }

  /** Every claim still has its ticket. */
  ghost predicate Ticketed(s: State) {
    s.claims.Keys <= s.tickets.Keys
  }

  lemma SafeIsTicketed(s: State)
    requires Safe(s)
    ensures Ticketed(s)
  {
    forall r | r in s.claims ensures r in s.tickets {
      assert ClaimOk(s, r);
    }
  }

  lemma EnqueueKeeps(d: Disk, t: Ticket)
    requires Inv(d)
    ensures Inv(EnqueueOp(d, t).1)
  {
    var s, after, rid := d.state, EnqueueOp(d, t).1.state, t.requestId;
    if after != s {
      forall r | r in after.tickets ensures TicketOk(after, r) {
        assert r != rid ==> TicketOk(s, r);
      }
      forall a, b ensures OrdersApart(after, a, b) {
        assert OrdersApart(s, a, b);
        assert a != rid && a in s.tickets ==> TicketOk(s, a);
        assert b != rid && b in s.tickets ==> TicketOk(s, b);
      }
      forall r | r in after.claims ensures ClaimOk(after, r) {
        assert ClaimOk(s, r);
      }
      forall r ensures ClaimKept(s, after, r) {
      }
      forall k ensures ResidentKept(s, after, k) {
      }
      PartDevices(s, after);
      forall r | r in d.history ensures RecordOk(after, d.history, r) {
        assert RecordOk(s, d.history, r);
      }
    }
  }

  /** Where a fit comes from: a listed device whose checks all passed. */
  lemma {:induction false} FitComesFrom(s: State, t: Ticket, observed: Inventory, i: nat) returns (d: Device)
    requires i <= |s.authority.devices| && FitFrom(s, t, observed, i).Fits?
    ensures d in s.authority.devices && FitFrom(s, t, observed, i) == FitOn(s, t, d, observed)
    decreases |s.authority.devices| - i
  {
    if FitOn(s, t, s.authority.devices[i], observed) != NoFit {
      d := s.authority.devices[i];
    } else {
      d := FitComesFrom(s, t, observed, i + 1);
    }
  }

  lemma OneDevice(a: Authority, d: Device, e: Device)
    requires AuthorityOk(a) && d in a.devices && e in a.devices && d.uuid == e.uuid
    ensures d == e
  {
  }

  /** What the admission of `rid` on the device `on` needs. */
  ghost predicate Granted(s: State, rid: Id, on: Device, key: ResidentKey, observed: Inventory) {
    && Waiting(s, rid) && on in s.authority.devices && on.uuid in observed
    && FitOn(s, s.tickets[rid].ticket, on, observed) == Fits(on.uuid, key)
  }

  /** An admission adds the ticket's need and one slot on the chosen device, and nothing anywhere else. */
  lemma AdmittedSums(s: State, rid: Id, on: Device, key: ResidentKey, observed: Inventory, now: real, uuid: Id)
    requires Safe(s) && Granted(s, rid, on, key, observed)
    ensures var after := Admitted(s, rid, on.uuid, key, observed, now);
      && ClaimCount(after, uuid) == ClaimCount(s, uuid) + (if uuid == on.uuid then 1 else 0)
      && Reserved(after, uuid) == Reserved(s, uuid) + (if uuid == on.uuid then Required(s, s.tickets[rid].ticket, key) else 0)
  {
    var after := Admitted(s, rid, on.uuid, key, observed, now);
    Put(s.claims, rid, after.claims[rid], ClaimOn(uuid));
    Put(s.claims, rid, after.claims[rid], WorkspaceOn(uuid));
    Put(s.residents, key, after.residents[key], ResidentOn(uuid));
    assert key in s.residents ==> ResidentOk(s, key);
  }

  lemma AdmittedDevice(s: State, rid: Id, on: Device, key: ResidentKey, observed: Inventory, now: real, d: Device)
    requires Safe(s) && Granted(s, rid, on, key, observed) && d in s.authority.devices
    ensures DeviceOk(Admitted(s, rid, on.uuid, key, observed, now), d)
  {
    AdmittedSums(s, rid, on, key, observed, now, d.uuid);
    assert DeviceOk(s, d);
    if d.uuid == on.uuid {
      OneDevice(s.authority, d, on);
      assert Roomy(s, s.tickets[rid].ticket, d, key, observed[d.uuid]);
    }
  }

  lemma AdmittedClaim(s: State, rid: Id, on: Device, key: ResidentKey, observed: Inventory, now: real, r: Id)
    requires Safe(s) && Granted(s, rid, on, key, observed)
    requires r in Admitted(s, rid, on.uuid, key, observed, now).claims
    ensures ClaimOk(Admitted(s, rid, on.uuid, key, observed, now), r)
  {
    assert TicketOk(s, rid);
    assert on.uuid in Uuids(s.authority);
    if key in s.residents {
      assert ResidentOk(s, key) && s.residents[key].state == Live;
    }
    if r != rid {
      assert ClaimOk(s, r);
    }
  }

  lemma PutCount<K, V>(m: map<K, V>, k: K, v: V)
    ensures |m[k := v]| == |m| + if k in m then 0 else 1
  {
    assert m[k := v].Keys == m.Keys + {k};
    assert |m[k := v]| == |m[k := v].Keys| && |m| == |m.Keys|;
    if k in m {
      assert m.Keys + {k} == m.Keys;
    }
  }

  lemma AdmittedResidents(s: State, rid: Id, on: Device, key: ResidentKey, observed: Inventory, now: real)
    requires Safe(s) && Granted(s, rid, on, key, observed)
    ensures var after := Admitted(s, rid, on.uuid, key, observed, now);
      ResidentsOk(after) && |after.residents| <= after.authority.maxResidentModels
  {
    var after := Admitted(s, rid, on.uuid, key, observed, now);
    assert TicketOk(s, rid);
    PutCount(s.residents, key, after.residents[key]);
    forall k | k in after.residents ensures ResidentOk(after, k) {
      assert k in s.residents ==> ResidentOk(s, k);
    }
  }

  lemma AdmittedAlone(s: State, rid: Id, on: Device, key: ResidentKey, observed: Inventory, now: real, a: Id)
    requires Safe(s) && Granted(s, rid, on, key, observed)
    requires a in Admitted(s, rid, on.uuid, key, observed, now).claims
    ensures AloneOk(Admitted(s, rid, on.uuid, key, observed, now), a)
  {
    var after := Admitted(s, rid, on.uuid, key, observed, now);
    assert key in s.residents ==> ResidentOk(s, key);
    if after.claims[a].mode == Exclusive {
      if a == rid {
        assert !AnyClaim(s, on.uuid) && !OtherResident(s, on.uuid, key);
      } else {
        assert AloneOk(s, a);
        assert !AnyExclusive(s, on.uuid);
        assert s.claims[a].uuid != on.uuid;
      }
    }
  }

  lemma AdmittedTickets(s: State, rid: Id, uuid: Id, key: ResidentKey, observed: Inventory, now: real)
    requires TicketsOk(s) && Waiting(s, rid) && uuid in observed && !Yields(s, rid, uuid, observed)
    ensures TicketsOk(Admitted(s, rid, uuid, key, observed, now))
  {
    var after := Admitted(s, rid, uuid, key, observed, now);
    forall r | r in after.tickets ensures TicketOk(after, r) {
      assert TicketOk(s, r);
      assert !MustYield(s, r, rid, uuid, observed);
    }
    forall a, b ensures OrdersApart(after, a, b) {
      assert OrdersApart(s, a, b);
    }
  }

  lemma AdmittedSafe(s: State, h: History, rid: Id, uuid: Id, key: ResidentKey, observed: Inventory, now: real)
    requires Safe(s) && HistoryOk(s, h) && Waiting(s, rid) && rid !in h
    requires FitOf(s, s.tickets[rid].ticket, observed) == Fits(uuid, key) && !Yields(s, rid, uuid, observed)
    ensures Inv(Disk(Admitted(s, rid, uuid, key, observed, now), h))
  {
    var on := FitComesFrom(s, s.tickets[rid].ticket, observed, 0);
    var after := Admitted(s, rid, uuid, key, observed, now);
    assert Granted(s, rid, on, key, observed);
    forall d | d in after.authority.devices ensures DeviceOk(after, d) {
      AdmittedDevice(s, rid, on, key, observed, now, d);
    }
    forall r | r in after.claims ensures ClaimOk(after, r) && AloneOk(after, r) {
      AdmittedClaim(s, rid, on, key, observed, now, r);
      AdmittedAlone(s, rid, on, key, observed, now, r);
    }
    AdmittedResidents(s, rid, on, key, observed, now);
    AdmittedTickets(s, rid, uuid, key, observed, now);
    forall r | r in h ensures RecordOk(after, h, r) {
      assert RecordOk(s, h, r);
    }
  }

  lemma AdmitKeeps(d: Disk, rid: Id, observed: Inventory, now: real, later: real)
    requires Inv(d)
    ensures Inv(AdmitOp(d, rid, observed, now, later).1)
  {
    ExpiredSafe(d, now);
    var s := Expired(d.state, d.history, now);
    if Waiting(s, rid) && rid !in d.history && FitOf(s, s.tickets[rid].ticket, observed).Fits? {
      var fit := FitOf(s, s.tickets[rid].ticket, observed);
      if !Yields(s, rid, fit.uuid, observed) {
        AdmittedSafe(s, d.history, rid, fit.uuid, fit.key, observed, later);
      }
    }
  }

  /** Later leases on the same records: residents may only gain time, a claim never outlives its resident. */
  lemma LeasesOnly(s: State, t: State, h: History)
    requires Safe(s) && HistoryOk(s, h) && t.(claims := s.claims, residents := s.residents) == s
    requires t.claims.Keys == s.claims.Keys && t.residents.Keys == s.residents.Keys && PartOf(s, t)
    requires forall r :: r in t.claims ==>
      && t.claims[r].state == s.claims[r].state && t.claims[r].residentKey in t.residents
      && t.claims[r].leaseUntil <= t.residents[t.claims[r].residentKey].leaseUntil
    requires forall k :: k in t.residents ==> t.residents[k].state == s.residents[k].state
    ensures Inv(Disk(t, h))
  {
    forall r | r in t.claims ensures ClaimOk(t, r) {
      assert ClaimOk(s, r) && ClaimKept(s, t, r);
      assert ResidentKept(s, t, t.claims[r].residentKey);
    }
    PartDevices(s, t);
    forall r | r in t.tickets ensures TicketOk(t, r) {
      assert TicketOk(s, r);
    }
    forall a, b ensures OrdersApart(t, a, b) {
      assert OrdersApart(s, a, b);
    }
    forall r | r in h ensures RecordOk(t, h, r) {
      assert RecordOk(s, h, r) && ClaimKept(s, t, r);
    }
  }

  lemma RenewedSafe(s: State, h: History, rid: Id, until: real)
    requires Inv(Disk(s, h)) && rid in s.claims && s.claims[rid].residentKey in s.residents
    ensures Inv(Disk(Renewed(s, rid, until), h))
  {
    var after := Renewed(s, rid, until);
    forall r | r in after.claims ensures after.claims[r].residentKey in after.residents {
      assert ClaimOk(s, r);
    }
    forall r ensures ClaimKept(s, after, r) {
    }
    forall k ensures ResidentKept(s, after, k) {
    }
    forall r | r in after.claims
      ensures after.claims[r].leaseUntil <= after.residents[after.claims[r].residentKey].leaseUntil
    {
      assert ClaimOk(s, r);
    }
    LeasesOnly(s, after, h);
  }

  lemma RenewKeeps(d: Disk, token: Token, seconds: int, now: real, later: real)
    requires Inv(d)
    ensures Inv(RenewOp(d, token, seconds, now, later).1)
  {
    ExpiredSafe(d, now);
    var s := Expired(d.state, d.history, now);
    if Owns(s, token) && s.claims[token.requestId].residentKey in s.residents {
      RenewedSafe(s, d.history, token.requestId, later + seconds as real);
    }
  }

  lemma RenewResidentKeeps(d: Disk, key: ResidentKey, epoch: int, seconds: int, now: real, later: real)
    requires Inv(d)
    ensures Inv(RenewResidentOp(d, key, epoch, seconds, now, later).1)
  {
    ExpiredSafe(d, now);
    var s := Expired(d.state, d.history, now);
    var after := RenewResidentOp(d, key, epoch, seconds, now, later).1.state;
    if after != d.state && after != s {
      forall k ensures ResidentKept(s, after, k) {
      }
      forall r | r in after.claims
        ensures ClaimKept(s, after, r) && after.claims[r].residentKey in after.residents
        ensures after.claims[r].leaseUntil <= after.residents[after.claims[r].residentKey].leaseUntil
      {
        assert ClaimOk(s, r);
      }
      LeasesOnly(s, after, d.history);
    }
  }

  /** Forgetting a ticket, together with its claim if it has one, keeps everything else in order. */
  lemma ForgetSafe(s: State, h: History, rid: Id)
    requires Inv(Disk(s, h))
    ensures Inv(Disk(Dropped(s, rid), h))
  {
    var t := Dropped(s, rid);
    forall r | r in t.claims ensures ClaimOk(t, r) {
      assert ClaimOk(s, r);
    }
    forall r ensures ClaimKept(s, t, r) {
    }
    forall k ensures ResidentKept(s, t, k) {
    }
    PartDevices(s, t);
    forall r | r in t.tickets ensures TicketOk(t, r) {
      assert TicketOk(s, r);
    }
    forall a, b ensures OrdersApart(t, a, b) {
      assert OrdersApart(s, a, b);
    }
    forall r | r in h ensures RecordOk(t, h, r) {
      assert RecordOk(s, h, r);
    }
  }

  /** Recording a stop first is harmless: the next call completes it. */
  lemma RecordSafe(d: Disk, rid: Id, record: Record)
    requires Inv(d) && rid !in d.history
    requires record.ticket.requestId == rid && (record.Released? ==> record.claim.requestId == rid)
    requires rid in d.state.tickets ==> CompletesCleanly(d.state, d.history[rid := record], rid)
    ensures Inv(d.(history := d.history[rid := record]))
  {
    var h := d.history[rid := record];
    forall r | r in h ensures RecordOk(d.state, h, r) {
      assert r != rid ==> RecordOk(d.state, d.history, r);
    }
  }

  /** Both writes of a release or a cancellation, in order. */
  lemma FinishSafe(d: Disk, rid: Id, record: Record)
    requires Inv(d) && rid !in d.history
    requires record.ticket.requestId == rid && (record.Released? ==> record.claim.requestId == rid)
    requires rid in d.state.tickets ==> CompletesCleanly(d.state, d.history[rid := record], rid)
    ensures Inv(Disk(Dropped(d.state, rid), d.history[rid := record]))
    ensures rid !in d.state.claims ==> Dropped(d.state, rid) == d.state.(tickets := d.state.tickets - {rid})
  {
    RecordSafe(d, rid, record);
    ForgetSafe(d.state, d.history[rid := record], rid);
    if rid !in d.state.claims {
      assert d.state.claims - {rid} == d.state.claims;
    }
  }

  lemma ReleaseKeeps(d: Disk, token: Token, stopped: bool, now: real, crash: bool)
    requires Inv(d)
    ensures Inv(ReleaseOp(d, token, stopped, now, crash).1)
  {
    SafeIsTicketed(d.state);
    ExpiredSafe(d, now);
    ExpiredKeys(d, now);
    var s, rid := Expired(d.state, d.history, now), token.requestId;
    if rid !in d.history && Owns(s, token) && rid in s.tickets && stopped {
      var record := Released(s.tickets[rid].ticket, s.claims[rid]);
      assert ClaimOk(s, rid) && TicketOk(s, rid);
      assert rid in d.state.claims && rid in d.state.tickets;
      if crash {
        RecordSafe(d, rid, record);
      } else {
        FinishSafe(d.(state := s), rid, record);
      }
    }
  }

  lemma CancelKeeps(d: Disk, rid: Id, now: real, crash: bool)
    requires Inv(d)
    ensures Inv(CancelOp(d, rid, now, crash).1)
  {
    SafeIsTicketed(d.state);
    ExpiredSafe(d, now);
    ExpiredKeys(d, now);
    var s := Expired(d.state, d.history, now);
    if Waiting(s, rid) && rid !in d.history {
      var record := Cancelled(s.tickets[rid].ticket);
      assert TicketOk(s, rid);
      if crash {
        RecordSafe(d, rid, record);
      } else {
        FinishSafe(d.(state := s), rid, record);
      }
    }
  }

  lemma EvictedSafe(s: State, h: History, key: ResidentKey)
    requires Inv(Disk(s, h)) && !InUse(s, key)
    ensures Inv(Disk(s.(residents := s.residents - {key}), h))
  {
    var t := s.(residents := s.residents - {key});
    forall r | r in t.claims ensures ClaimOk(t, r) {
      assert ClaimOk(s, r);
    }
    forall r ensures ClaimKept(s, t, r) {
    }
    forall k ensures ResidentKept(s, t, k) {
    }
    PartDevices(s, t);
    forall r | r in t.tickets ensures TicketOk(t, r) {
      assert TicketOk(s, r);
    }
    forall a, b ensures OrdersApart(t, a, b) {
      assert OrdersApart(s, a, b);
    }
    forall r | r in h ensures RecordOk(t, h, r) {
      assert RecordOk(s, h, r);
    }
  }

  lemma EvictKeeps(d: Disk, key: ResidentKey, epoch: int, stopped: bool, now: real)
    requires Inv(d)
    ensures Inv(EvictOp(d, key, epoch, stopped, now).1)
  {
    ExpiredSafe(d, now);
    var s := Expired(d.state, d.history, now);
    if !InUse(s, key) {
      EvictedSafe(s, d.history, key);
    }
  }

  // ---------------------------------------------------------------------------------------------
  // Runs
  // ---------------------------------------------------------------------------------------------

  /** One call, with every answer of the environment; `crash` stops the call between its two writes. */
  datatype Step =
    | Enqueue(ticket: Ticket)
    | Admit(rid: Id, observed: Inventory, now: real, later: real)
    | Renew(token: Token, seconds: int, now: real, later: real)
    | Release(token: Token, stopped: bool, now: real, crash: bool)
    | Cancel(rid: Id, now: real, crash: bool)
    | Evict(key: ResidentKey, epoch: int, stopped: bool, now: real)
    | RenewResident(key: ResidentKey, epoch: int, seconds: int, now: real, later: real)
    | Inspect(now: real)

  ghost function Apply(d: Disk, step: Step): Disk {
    match step
    case Enqueue(t) => EnqueueOp(d, t).1
    case Admit(rid, observed, now, later) => AdmitOp(d, rid, observed, now, later).1
    case Renew(token, seconds, now, later) => RenewOp(d, token, seconds, now, later).1
    case Release(token, stopped, now, crash) => ReleaseOp(d, token, stopped, now, crash).1
    case Cancel(rid, now, crash) => CancelOp(d, rid, now, crash).1
    case Evict(key, epoch, stopped, now) => EvictOp(d, key, epoch, stopped, now).1
    case RenewResident(key, epoch, seconds, now, later) => RenewResidentOp(d, key, epoch, seconds, now, later).1
    case Inspect(now) => d.(state := Expired(d.state, d.history, now))
  }

  ghost function Run(d: Disk, steps: seq<Step>): Disk
    decreases |steps|
  {
    if steps == [] then d else Run(Apply(d, steps[0]), steps[1..])
  }

  lemma StepKeeps(d: Disk, step: Step)
    requires Inv(d)
    ensures Inv(Apply(d, step))
  {
    match step
    case Enqueue(t) => EnqueueKeeps(d, t);
    case Admit(rid, observed, now, later) => AdmitKeeps(d, rid, observed, now, later);
    case Renew(token, seconds, now, later) => RenewKeeps(d, token, seconds, now, later);
    case Release(token, stopped, now, crash) => ReleaseKeeps(d, token, stopped, now, crash);
    case Cancel(rid, now, crash) => CancelKeeps(d, rid, now, crash);
    case Evict(key, epoch, stopped, now) => EvictKeeps(d, key, epoch, stopped, now);
    case RenewResident(key, epoch, seconds, now, later) => RenewResidentKeeps(d, key, epoch, seconds, now, later);
    case Inspect(now) => ExpiredSafe(d, now);
  }

  /** Safety in every reachable state, whatever the clocks, probes, stop observations and crashes. */
  lemma {:induction false} EveryRunSafe(d: Disk, steps: seq<Step>)
    requires Inv(d)
    ensures Inv(Run(d, steps))
    decreases |steps|
  {
    if steps != [] {
      StepKeeps(d, steps[0]);
      EveryRunSafe(Apply(d, steps[0]), steps[1..]);
    }
  }

  // ---------------------------------------------------------------------------------------------
  // At most one admission
  // ---------------------------------------------------------------------------------------------

  /** The device on which this call makes a new claim, if it does. */
  ghost function NewDevice(d: Disk, step: Step): set<Id> {
    if !step.Admit? then {}
    else
      var s := Expired(d.state, d.history, step.now);
      if Waiting(s, step.rid) && step.rid !in d.history && s.authority.authorized then
        match FitOf(s, s.tickets[step.rid].ticket, step.observed)
        case Fits(uuid, _) => if Yields(s, step.rid, uuid, step.observed) then {} else {uuid}
        case _ => {}
      else {}
  }

  /** The call turns the waiting request into a claim. */
  ghost predicate Admits(d: Disk, step: Step, rid: Id) {
    step.Admit? && step.rid == rid && NewDevice(d, step) != {}
  }

  /** The claim was not there before the call and is there after it. */
  ghost predicate Appears(d: Disk, step: Step, rid: Id) {
    rid !in d.state.claims && rid in Apply(d, step).state.claims
  }

  /** An admission is visible in the files, and nothing else makes a claim: it is new, on the chosen device, of a request without history. */
  lemma AdmissionIsAClaim(d: Disk, step: Step, rid: Id)
    requires Inv(d)
    ensures Admits(d, step, rid) <==> Appears(d, step, rid)
    ensures Admits(d, step, rid) ==> rid !in d.history && Apply(d, step).state.claims[rid].uuid in NewDevice(d, step)
  {
    SafeIsTicketed(d.state);
    if step.Admit? {
      ExpiredKeys(d, step.now);
    } else {
      OthersUndisturbed(d, step, rid);
    }
  }

  /** How many calls of a run make a claim of this request. */
  ghost function Admissions(d: Disk, steps: seq<Step>, rid: Id): nat
    decreases |steps|
  {
    if steps == [] then 0
    else (if Appears(d, steps[0], rid) then 1 else 0) + Admissions(Apply(d, steps[0]), steps[1..], rid)
  }

  ghost predicate Spent(d: Disk, rid: Id) {
    rid in d.state.claims || rid in d.history
  }

  /** How often this request may still be overtaken. */
  ghost function Patience(d: Disk, rid: Id): int {
    if Spent(d, rid) then 0
    else if rid in d.state.tickets then d.state.authority.maxBypasses - d.state.tickets[rid].bypasses
    else d.state.authority.maxBypasses
  }

  /** Nothing claims this request: it stays spent if it was, and otherwise keeps its patience unless it is spent now. */
  ghost predicate Undisturbed(d: Disk, after: Disk, rid: Id) {
    && (rid in after.state.claims ==> rid in d.state.claims)
    && if Spent(d, rid) then Spent(after, rid) else Spent(after, rid) || Patience(after, rid) == Patience(d, rid)
  }

  lemma EnqueueUndisturbed(d: Disk, t: Ticket, rid: Id)
    requires Ticketed(d.state)
    ensures Undisturbed(d, EnqueueOp(d, t).1, rid)
  {
  }

  lemma ExpiredUndisturbed(d: Disk, now: real, rid: Id)
    requires Ticketed(d.state)
    ensures Undisturbed(d, d.(state := Expired(d.state, d.history, now)), rid)
  {
    ExpiredKeys(d, now);
  }

  lemma RenewUndisturbed(d: Disk, token: Token, seconds: int, now: real, later: real, rid: Id)
    requires Ticketed(d.state)
    ensures Undisturbed(d, RenewOp(d, token, seconds, now, later).1, rid)
  {
    ExpiredKeys(d, now);
  }

  lemma RenewResidentUndisturbed(d: Disk, key: ResidentKey, epoch: int, seconds: int, now: real, later: real, rid: Id)
    requires Ticketed(d.state)
    ensures Undisturbed(d, RenewResidentOp(d, key, epoch, seconds, now, later).1, rid)
  {
    ExpiredKeys(d, now);
  }

  lemma EvictUndisturbed(d: Disk, key: ResidentKey, epoch: int, stopped: bool, now: real, rid: Id)
    requires Ticketed(d.state)
    ensures Undisturbed(d, EvictOp(d, key, epoch, stopped, now).1, rid)
  {
    ExpiredKeys(d, now);
  }

  lemma ReleaseUndisturbed(d: Disk, token: Token, stopped: bool, now: real, crash: bool, rid: Id)
    requires Ticketed(d.state)
    ensures Undisturbed(d, ReleaseOp(d, token, stopped, now, crash).1, rid)
  {
    ExpiredKeys(d, now);
  }

  lemma CancelUndisturbed(d: Disk, victim: Id, now: real, crash: bool, rid: Id)
    requires Ticketed(d.state)
    ensures Undisturbed(d, CancelOp(d, victim, now, crash).1, rid)
  {
    ExpiredKeys(d, now);
  }

  lemma OthersUndisturbed(d: Disk, step: Step, rid: Id)
    requires Inv(d) && !step.Admit?
    ensures Undisturbed(d, Apply(d, step), rid)
  {
    SafeIsTicketed(d.state);
    match step
    case Enqueue(t) => EnqueueUndisturbed(d, t, rid);
    case Renew(token, seconds, now, later) => RenewUndisturbed(d, token, seconds, now, later, rid);
    case Release(token, stopped, now, crash) => ReleaseUndisturbed(d, token, stopped, now, crash, rid);
    case Cancel(victim, now, crash) => CancelUndisturbed(d, victim, now, crash, rid);
    case Evict(key, epoch, stopped, now) => EvictUndisturbed(d, key, epoch, stopped, now, rid);
    case RenewResident(key, epoch, seconds, now, later) => RenewResidentUndisturbed(d, key, epoch, seconds, now, later, rid);
    case Inspect(now) => ExpiredUndisturbed(d, now, rid);
    case _ =>
  }

  lemma AdmitSpends(d: Disk, step: Step, rid: Id)
    requires Ticketed(d.state) && step.Admit? && Spent(d, rid)
    ensures Spent(AdmitOp(d, step.rid, step.observed, step.now, step.later).1, rid) && !Admits(d, step, rid)
  {
    ExpiredKeys(d, step.now);
  }

  /** Once claimed or finished, a request stays claimed or finished: no lapse, crash or retry gives it back to the queue. */
  lemma SpentForever(d: Disk, step: Step, rid: Id)
    requires Inv(d) && Spent(d, rid)
    ensures Spent(Apply(d, step), rid) && !Admits(d, step, rid)
  {
    SafeIsTicketed(d.state);
    if step.Admit? {
      AdmitSpends(d, step, rid);
    } else {
      OthersUndisturbed(d, step, rid);
    }
  }

  /** Over any run each request id is admitted at most once, and never after it was claimed, finished or cancelled. */
  lemma {:induction false} AdmittedAtMostOnce(d: Disk, steps: seq<Step>, rid: Id)
    requires Inv(d)
    ensures Admissions(d, steps, rid) <= 1
    ensures Spent(d, rid) ==> Admissions(d, steps, rid) == 0
    decreases |steps|
  {
    if steps != [] {
      var next := Apply(d, steps[0]);
      StepKeeps(d, steps[0]);
      AdmissionIsAClaim(d, steps[0], rid);
      if Spent(d, rid) {
        SpentForever(d, steps[0], rid);
      }
      AdmittedAtMostOnce(next, steps[1..], rid);
    }
  }

  // ---------------------------------------------------------------------------------------------
  // Bounded overtaking
  // ---------------------------------------------------------------------------------------------

  /** A younger ticket is admitted, on a device the waiting `rid` may use, while `rid` keeps waiting. */
  ghost predicate Overtaken(d: Disk, step: Step, rid: Id) {
    && step.Admit?
    && exists uuid :: uuid in NewDevice(d, step) && Older(Expired(d.state, d.history, step.now), rid, step.rid, uuid)
  }

  /** At that moment the waiting ticket's resident identity clashes with a loaded model. */
  ghost predicate InConflict(d: Disk, step: Step, rid: Id)
    requires Overtaken(d, step, rid)
  {
    var s := Expired(d.state, d.history, step.now);
    var uuid :| uuid in NewDevice(d, step) && Older(s, rid, step.rid, uuid);
    FitOf(s, s.tickets[rid].ticket, map[uuid := step.observed[uuid]]) == Raises(ModelChanged)
  }

  ghost function Overtakes(d: Disk, steps: seq<Step>, rid: Id): nat
    decreases |steps|
  {
    if steps == [] then 0
    else
      (if Overtaken(d, steps[0], rid) && !InConflict(d, steps[0], rid) then 1 else 0)
      + Overtakes(Apply(d, steps[0]), steps[1..], rid)
  }

  lemma AdmitBypasses(d: Disk, step: Step, rid: Id)
    requires Ticketed(d.state) && step.Admit? && !Spent(d, rid)
    requires !Spent(AdmitOp(d, step.rid, step.observed, step.now, step.later).1, rid)
    ensures Patience(AdmitOp(d, step.rid, step.observed, step.now, step.later).1, rid) ==
      Patience(d, rid) - (if Overtaken(d, step, rid) && !InConflict(d, step, rid) then 1 else 0)
  {
    ExpiredKeys(d, step.now);
    var s := Expired(d.state, d.history, step.now);
    if NewDevice(d, step) != {} {
      var uuid := FitOf(s, s.tickets[step.rid].ticket, step.observed).uuid;
      OvertakingIsCounted(d, step, rid, uuid);
      assert AdmitOp(d, step.rid, step.observed, step.now, step.later).1.state.tickets == Bumped(s, step.rid, uuid, step.observed);
    }
  }

  lemma OvertakingIsCounted(d: Disk, step: Step, rid: Id, uuid: Id)
    requires step.Admit? && NewDevice(d, step) == {uuid}
    ensures var s := Expired(d.state, d.history, step.now);
      && step.rid in s.tickets && uuid in step.observed
      && (Overtaken(d, step, rid) && !InConflict(d, step, rid) <==> Contender(s, rid, step.rid, uuid, step.observed))
  {
    var s := Expired(d.state, d.history, step.now);
    assert uuid in NewDevice(d, step);
    assert Overtaken(d, step, rid) <==> Older(s, rid, step.rid, uuid);
  }

  /**
   Bounded overtaking: over any run, a request is overtaken on its eligible devices, outside model conflicts,
   at most `max_bypasses` times in its whole wait, counted from what it has been overtaken already.
   */
  lemma {:induction false} OvertakingBounded(d: Disk, steps: seq<Step>, rid: Id)
    requires Inv(d)
    ensures Overtakes(d, steps, rid) <= Patience(d, rid) <= d.state.authority.maxBypasses
    decreases |steps|
  {
    SafeIsTicketed(d.state);
    assert rid in d.state.tickets ==> TicketOk(d.state, rid);
    if steps != [] {
      var next := Apply(d, steps[0]);
      StepKeeps(d, steps[0]);
      SafeIsTicketed(next.state);
      OvertakingBounded(next, steps[1..], rid);
      if Spent(d, rid) {
        SpentForever(d, steps[0], rid);
        NotOvertakenWhenSpent(d, steps[0], rid);
      } else if Spent(next, rid) {
        LeavingIsNotOvertaking(d, steps[0], rid);
      } else if steps[0].Admit? {
        AdmitBypasses(d, steps[0], rid);
      } else {
        OthersUndisturbed(d, steps[0], rid);
      }
    }
  }

  lemma NotOvertakenWhenSpent(d: Disk, step: Step, rid: Id)
    requires Ticketed(d.state) && Spent(d, rid)
    ensures !Overtaken(d, step, rid)
  {
    if step.Admit? {
      ExpiredKeys(d, step.now);
    }
  }

  lemma LeavingIsNotOvertaking(d: Disk, step: Step, rid: Id)
    requires Ticketed(d.state) && !Spent(d, rid) && Spent(Apply(d, step), rid)
    ensures !Overtaken(d, step, rid)
  {
    if step.Admit? {
      ExpiredKeys(d, step.now);
    }
  }

  /** A ticket that fits a device is never overtaken there: whenever it is, it did not fit. */
  lemma FittingNotOvertaken(d: Disk, step: Step, rid: Id, uuid: Id)
    requires Inv(d) && step.Admit? && uuid in NewDevice(d, step)
    requires Older(Expired(d.state, d.history, step.now), rid, step.rid, uuid)
    ensures var s := Expired(d.state, d.history, step.now);
      !FitOf(s, s.tickets[rid].ticket, map[uuid := step.observed[uuid]]).Fits?
  {
    var s := Expired(d.state, d.history, step.now);
    assert !MustYield(s, rid, step.rid, uuid, step.observed);
  }

  /** The oldest waiting ticket is admitted whenever it fits: nothing can make it yield. */
  lemma OldestIsAdmitted(d: Disk, step: Step)
    requires Inv(d) && step.Admit? && d.state.authority.authorized && step.rid !in d.history
    requires var s := Expired(d.state, d.history, step.now);
      && Waiting(s, step.rid) && FitOf(s, s.tickets[step.rid].ticket, step.observed).Fits?
      && forall other :: Waiting(s, other) ==> s.tickets[step.rid].order <= s.tickets[other].order
    ensures Admits(d, step, step.rid)
  {
  }

  /** A fit on the device a younger ticket won never meets the memory-violation error, so that error cannot interrupt the fairness scan. */
  lemma FairnessScanNeverViolates(s: State, rid: Id, uuid: Id, key: ResidentKey, observed: Inventory, other: Id)
    requires Safe(s) && Waiting(s, rid) && FitOf(s, s.tickets[rid].ticket, observed) == Fits(uuid, key)
    requires Older(s, other, rid, uuid)
    ensures FitOf(s, s.tickets[other].ticket, map[uuid := observed[uuid]]) != Raises(MemoryViolation)
  {
    var on := FitComesFrom(s, s.tickets[rid].ticket, observed, 0);
    NoViolationFrom(s, s.tickets[other].ticket, on, map[uuid := observed[uuid]], 0);
  }

  lemma {:induction false} NoViolationFrom(s: State, t: Ticket, on: Device, observed: Inventory, i: nat)
    requires AuthorityOk(s.authority) && on in s.authority.devices && i <= |s.authority.devices|
    requires observed.Keys == {on.uuid} && observed[on.uuid].managedUsedMb <= Reserved(s, on.uuid)
    ensures FitFrom(s, t, observed, i) != Raises(MemoryViolation)
    decreases |s.authority.devices| - i
  {
    if i < |s.authority.devices| {
      var d := s.authority.devices[i];
      if d.uuid == on.uuid {
        OneDevice(s.authority, d, on);
      }
      NoViolationFrom(s, t, on, observed, i + 1);
    }
  }
}
