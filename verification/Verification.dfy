/**
 The resumable verification sweep of src/fsf/production/store_runner.py. An execution's accepted rows change only
 together with its revision, which also invalidates every sweep in progress. A sweep reads rows, verifies them one by
 one and records each under the revision it started from, while other processes may change the execution at any point.
 */
module Verification {
  import opened Wrappers
  import opened Ids

  datatype Phase = Verifying | Complete | Invalid
  datatype Kind = Delivery | Observation

  /** `accepted` is the evidence of the accepted result, `None` for a task that has none. */
  datatype Row = Row(request: Id, accepted: Option<Id>)
  datatype Run = Run(revision: int, driver: Id, policy: Id, phase: Phase, kind: Kind, position: nat)
  datatype Item = Item(request: Id, evidence: Id)

  datatype Outcome = MachineAccepted(run: nat) | OutOfTime | SourceChanged | VerificationFailed

  const LIMIT: nat := 32

  /** The item recorded for ordinal `i` is what the row said. */
  ghost predicate ItemOf(items: map<(nat, nat), Item>, run: nat, i: nat, rows: seq<Row>) {
    && i < |rows| && rows[i].accepted.Some?
    && (run, i) in items && items[(run, i)] == Item(rows[i].request, rows[i].accepted.value)
  }

  /** The recorded items of one run: one for each ordinal below `count`, given the rows of the run's own revision. */
  ghost predicate ItemsOf(items: map<(nat, nat), Item>, run: nat, count: nat, rows: seq<Row>) {
    && count <= |rows|
    && (forall i: nat {:trigger ItemOf(items, run, i, rows)} :: i < count ==> ItemOf(items, run, i, rows))
    && (forall i: nat :: (run, i) in items ==> i < count)
  }

  /** Whatever became of it, a run's items all come from the one revision it was started under. */
  ghost predicate RunOk(runs: seq<Run>, run: nat, items: map<(nat, nat), Item>, seen: map<int, seq<Row>>, revision: int)
    requires run < |runs|
  {
    var r := runs[run];
    && r.revision in seen && r.revision <= revision
    && ItemsOf(items, run, r.position, seen[r.revision])
    && (r.phase == Complete ==> r.position == |seen[r.revision]|)
    && (r.phase == Verifying && r.position > 0 ==> r.revision == revision)
  }

  /** Recording the next row extends its run and leaves every other run's items alone. */
  lemma OneMore(items: map<(nat, nat), Item>, run: nat, position: nat, rows: seq<Row>, k: nat, count: nat, others: seq<Row>)
    requires ItemsOf(items, run, position, rows) && position < |rows| && rows[position].accepted.Some?
    requires ItemsOf(items, k, count, others) && (k == run ==> count == position && others == rows)
    ensures ItemsOf(items[(run, position) := Item(rows[position].request, rows[position].accepted.value)],
                    k, if k == run then count + 1 else count, others)
  {
    var after, grown := items[(run, position) := Item(rows[position].request, rows[position].accepted.value)], if k == run then count + 1 else count;
    forall i: nat | i < grown ensures ItemOf(after, k, i, others) {
      assert (k, i) == (run, position) || ItemOf(items, k, i, others);
    }
  }

  class Sweeps {
    var rows: seq<Row>
    var revision: int
    /** In rowid order. */
    var runs: seq<Run>
    /** Keyed by run and task ordinal, as the table's primary key is. */
    var items: map<(nat, nat), Item>
    /** The rows at each revision so far. */
    ghost var seen: map<int, seq<Row>>

    ghost predicate Valid()
      reads this
    {
      && revision in seen && seen[revision] == rows
      && (forall v :: v in seen ==> v <= revision && |seen[v]| == |rows|)
      && (forall run {:trigger RunOk(runs, run, items, seen, revision)} :: 0 <= run < |runs| ==> RunOk(runs, run, items, seen, revision))
      && (forall run: nat, i: nat :: (run, i) in items ==> run < |runs|)
    }

    constructor (initial: seq<Row>)
      ensures Valid() && rows == initial && runs == []
    {
      rows, revision, runs, items := initial, 0, [], map[];
      seen := map[0 := initial];
    }

    /** An event with an execution change: new rows, a new revision, and no sweep in progress survives. */
    method Change(updated: seq<Row>)
      requires Valid() && |updated| == |rows|
      modifies this
      ensures Valid() && rows == updated && revision == old(revision) + 1
      ensures seen == old(seen)[revision := updated] && items == old(items) && |runs| == |old(runs)|
      ensures forall run :: 0 <= run < |runs| ==> runs[run] == Stopped(old(runs)[run])
    {
      ghost var runs0, seen0 := runs, seen;
      rows, revision := updated, revision + 1;
      seen := seen[revision := updated];
      runs := seq(|runs|, i requires 0 <= i < |runs| reads this => Stopped(runs[i]));
      forall k | 0 <= k < |runs| ensures RunOk(runs, k, items, seen, revision) {
        assert RunOk(runs0, k, items, seen0, revision - 1);
      }
    }

    /** Other processes: any number of execution changes. What was seen stays seen. */
    method Others()
      requires Valid()
      modifies this
      ensures Valid() && items == old(items) && |runs| == |old(runs)| && |rows| == |old(rows)|
      ensures revision >= old(revision) && forall v :: v in old(seen) ==> v in seen && seen[v] == old(seen)[v]
      ensures revision == old(revision) ==> runs == old(runs)
      ensures forall run :: 0 <= run < |runs| ==> SameSweep(old(runs)[run], runs[run])
    {
      var changes: int := *;
      for i := 0 to if changes >= 0 then changes else 0
        invariant Valid() && items == old(items) && |runs| == |old(runs)| && |rows| == |old(rows)|
        invariant revision >= old(revision) && forall v :: v in old(seen) ==> v in seen && seen[v] == old(seen)[v]
        invariant revision == old(revision) ==> runs == old(runs)
        invariant forall run :: 0 <= run < |runs| ==> SameSweep(old(runs)[run], runs[run])
      {
        var updated: seq<Row> := *;
        if |updated| == |rows| {
          Change(updated);
        }
      }
    }

    /** The last sweep in progress, if any. */
    method Latest() returns (found: bool, run: nat)
      ensures found ==> run < |runs| && runs[run].phase == Verifying
      ensures forall k :: (if found then run else -1) < k < |runs| ==> runs[k].phase != Verifying
    {
      found, run := false, 0;
      for k := 0 to |runs|
        invariant found ==> run < k && runs[run].phase == Verifying
        invariant forall j :: (if found then run else -1) < j < k ==> runs[j].phase != Verifying
      {
        if runs[k].phase == Verifying {
          found, run := true, k;
        }
      }
    }

    /** The transaction that abandons whatever is in progress and starts afresh under a revision read earlier. */
    method Begin(current: int, driver: Id, policy: Id, delivery: bool) returns (run: nat)
      requires Valid() && current in seen
      modifies this
      ensures Valid() && run == |old(runs)| && |runs| == run + 1
      ensures runs[run] == Run(current, driver, policy, Verifying, if delivery then Delivery else Observation, 0)
      ensures forall k :: 0 <= k < run ==> runs[k] == Stopped(old(runs)[k])
      ensures rows == old(rows) && revision == old(revision) && items == old(items) && seen == old(seen)
      ensures forall i: nat :: (run, i) !in items
    {
      ghost var runs0 := runs;
      run := |runs|;
      assert forall i: nat :: (run, i) !in items;
      runs := seq(|runs|, i requires 0 <= i < |runs| reads this => Stopped(runs[i]))
        + [Run(current, driver, policy, Verifying, if delivery then Delivery else Observation, 0)];
      forall k | 0 <= k < |runs| ensures RunOk(runs, k, items, seen, revision) {
        assert k < run ==> RunOk(runs0, k, items, seen, revision);
      }
    }

    /** The transaction that records one verified row; refused once the execution has moved on. */
    method Record(run: nat, current: int, position: nat, row: Row) returns (ok: bool)
      requires Valid() && run < |runs| && runs[run].revision == current && runs[run].position == position
      requires runs[run].phase != Complete && position < |rows| && row.accepted.Some?
      requires revision == current ==> row == rows[position]
      modifies this
      ensures Valid() && ok == (revision == current)
      ensures rows == old(rows) && revision == old(revision) && seen == old(seen) && |runs| == |old(runs)|
      ensures !ok ==> runs == old(runs) && items == old(items)
      ensures ok ==> (run, position) !in old(items) && items == old(items)[(run, position) := Item(row.request, row.accepted.value)]
      ensures ok ==> runs == old(runs)[run := old(runs)[run].(position := position + 1)]
    {
      if revision != current {
        return false;
      }
      ghost var runs0, items0 := runs, items;
      assert RunOk(runs0, run, items0, seen, revision);
      items := items[(run, position) := Item(row.request, row.accepted.value)];
      runs := runs[run := runs[run].(position := position + 1)];
      forall k | 0 <= k < |runs| ensures RunOk(runs, k, items, seen, revision) {
        assert RunOk(runs0, k, items0, seen, revision);
        OneMore(items0, run, position, seen[current], k, runs0[k].position, seen[runs0[k].revision]);
      }
      return true;
    }

    /** The closing transaction. */
    method Finish(run: nat, current: int) returns (ok: bool)
      requires Valid() && run < |runs| && runs[run].revision == current && runs[run].position == |rows|
      modifies this
      ensures Valid() && ok == (revision == current)
      ensures rows == old(rows) && revision == old(revision) && seen == old(seen) && items == old(items) && |runs| == |old(runs)|
      ensures runs == if ok then old(runs)[run := old(runs)[run].(phase := Complete)] else old(runs)
    {
      if revision != current {
        return false;
      }
      ghost var runs0 := runs;
      runs := runs[run := runs[run].(phase := Complete)];
      forall k | 0 <= k < |runs| ensures RunOk(runs, k, items, seen, revision) {
        assert RunOk(runs0, k, items, seen, revision);
      }
      return true;
    }

    /** Rows of one page, verified and recorded one by one until time is up, a check fails or the execution has moved on. */
    method Page(run: nat, current: int, start: nat, page: seq<Row>) returns (stop: Stop, position: nat)
      requires Valid() && run < |runs| && runs[run].revision == current && runs[run].position == start
      requires current <= revision && runs[run].phase != Complete && start + |page| <= |rows|
      requires forall j :: 0 <= j < |page| ==> revision == current ==> page[j] == rows[start + j]
      modifies this
      ensures Valid() && |rows| == |old(rows)| && |runs| == |old(runs)| && position <= |rows|
      ensures revision >= old(revision) && forall v :: v in old(seen) ==> v in seen && seen[v] == old(seen)[v]
      ensures runs[run].revision == current && runs[run].position == position && runs[run].phase != Complete
      ensures start <= position && (stop == GoOn ==> position == start + |page|)
      ensures forall i: nat, k: nat :: (k, i) in items && (k, i) !in old(items) ==> k == run
      ensures forall k :: 0 <= k < |runs| && k != run ==> SameSweep(old(runs)[k], runs[k])
      ensures SameSweep(old(runs)[run].(position := position), runs[run])
    {
      position := start;
      for j := 0 to |page|
        invariant Valid() && position == start + j && |rows| == |old(rows)| && |runs| == |old(runs)| && revision >= old(revision)
        invariant forall v :: v in old(seen) ==> v in seen && seen[v] == old(seen)[v]
        invariant runs[run].revision == current && runs[run].position == position && runs[run].phase != Complete
        invariant forall i: nat, k: nat :: (k, i) in items && (k, i) !in old(items) ==> k == run
        invariant forall k :: 0 <= k < |runs| && k != run ==> SameSweep(old(runs)[k], runs[k])
        invariant SameSweep(old(runs)[run].(position := position), runs[run])
      {
        var late: bool, passes: bool := *, *;
        if late {
          return TimeUp, position;
        }
        if !page[j].accepted.Some? || !passes {
          return Broken, position;
        }
        Others();
        assert revision == current ==> seen[current] == old(rows);
        var ok := Record(run, current, position, page[j]);
        if !ok {
          return Moved, position;
        }
        position := position + 1;
      }
      return GoOn, position;
    }

    /** Resume the latest sweep in progress if it is of this revision and driver, except for delivery; else begin one. */
    method Resume(driver: Id, policy: Id, delivery: bool) returns (run: nat, position: nat, current: int)
      requires Valid()
      modifies this
      ensures Valid() && run < |runs| && runs[run].revision == current <= revision && runs[run].driver == driver
      ensures runs[run].position == position <= |rows| && runs[run].phase != Complete
      ensures items == old(items) && (delivery ==> runs[run].kind == Delivery && position == 0 && forall i: nat :: (run, i) !in items)
    {
      current := revision;
      Others();
      var found: bool;
      found, run := Latest();
      if delivery || !found || runs[run].revision != current || runs[run].driver != driver {
        Others();
        run := Begin(current, driver, policy, delivery);
        position := 0;
      } else {
        position := runs[run].position;
        assert RunOk(runs, run, items, seen, revision);
      }
    }

    /**
     The sweep after every task was found accepted. Acceptance of the batch means one run holds one item per task, all
     recorded at the revision that is current right now, and a delivery run owes nothing to an earlier call.
     */
    method Sweep(driver: Id, policy: Id, delivery: bool) returns (outcome: Outcome)
      requires Valid()
      modifies this
      ensures Valid()
      ensures outcome.MachineAccepted? ==>
        var run := outcome.run;
        && run < |runs| && runs[run].phase == Complete && runs[run].revision == revision && runs[run].driver == driver
        && ItemsOf(items, run, |rows|, rows)
        && (delivery ==> runs[run].kind == Delivery && forall i: nat :: (run, i) !in old(items))
    {
      var run, position, current := Resume(driver, policy, delivery);
      ghost var first := runs[run];
      var late: bool := *;
      while !late
        invariant Valid() && run < |runs| && runs[run].revision == current <= revision && runs[run].position == position <= |rows|
        invariant runs[run].phase != Complete && SameSweep(first.(position := position), runs[run])
        invariant delivery ==> forall i: nat :: (run, i) !in old(items)
        decreases |rows| - position, !late
      {
        Others();
        var page := rows[position..if position + LIMIT < |rows| then position + LIMIT else |rows|];
        if page == [] {
          var ok := Finish(run, current);
          if !ok {
            return SourceChanged;
          }
          assert RunOk(runs, run, items, seen, revision);
          return MachineAccepted(run);
        }
        var stop: Stop;
        stop, position := Page(run, current, position, page);
        match stop
        case GoOn => late := *;
        case TimeUp => late := true;
        case Broken => return VerificationFailed;
        case Moved => return SourceChanged;
      }
      return OutOfTime;
    }
  }

  datatype Stop = GoOn | TimeUp | Broken | Moved

  /** The same sweep, perhaps invalidated meanwhile. */
  ghost predicate SameSweep(r: Run, s: Run) {
    s == r || s == Stopped(r)
  }

  function Stopped(r: Run): Run {
    if r.phase == Verifying then r.(phase := Invalid) else r
  }
}
