/**
 The indexed work loop of src/fsf/production/store_runner.py over the store and a provider, with other processes
 cancelling, billing, pausing and revoking between its transactions. The loop ends without help from its deadline, keeps
 the store in order, hands no request to the provider twice, and leaves none that moved on unsent but the cancelled ones.
 */
module StoreRunner {
  import opened Wrappers
  import opened Ids
  import opened Graph
  import opened StoreState
  import opened StoreInv
  import opened StoreRuns
  import opened Store

  // ---------------------------------------------------------------------------------------------
  // What moves forward
  // ---------------------------------------------------------------------------------------------

  /** No attempt is added, nothing accepted is reopened, nothing finished comes back to life. */
  ghost predicate Polled(db: Db, after: Db) {
    && after.attempts.Keys == db.attempts.Keys && after.tasks.Keys == db.tasks.Keys && after.paused.Keys == db.paused.Keys
    && (forall k :: k in db.tasks && db.tasks[k].accepted.Some? ==> after.tasks[k].accepted.Some?)
    && (forall r :: r in db.attempts && Live(after.attempts[r].status) ==> Live(db.attempts[r].status))
  }

  ghost predicate Forward(db: Db, after: Db) {
    Polled(db, after) && RecordGrows(db, after)
  }

  lemma ForwardTransitive(a: Db, b: Db, c: Db)
    requires Forward(a, b) && Forward(b, c)
    ensures Forward(a, c)
  {
    RecordGrowsTransitive(a, b, c);
  }

  lemma ObserveForward(S: Setup, db: Db, r: Request, epoch: int, status: Status)
    requires Inv(S, db)
    ensures Forward(db, ObserveOp(db, r, epoch, status).1)
  {
    ObserveGrows(S, db, r, epoch, status);
    if r in db.attempts {
      assert LinkOk(S, db, r);
    }
    ObservePolled(db, r, epoch, status);
  }

  lemma ObservePolled(db: Db, r: Request, epoch: int, status: Status)
    requires r in db.attempts ==> Live(db.attempts[r].status) || Terminal(db.attempts[r].status)
    ensures Polled(db, ObserveOp(db, r, epoch, status).1)
  {
  }

  lemma SettleForward(S: Setup, db: Db, r: Request, units: Option<int>)
    ensures Forward(db, SettleOp(S, db, r, units).1)
  {
    SettleGrows(S, db, r, units);
    SettleOneRow(S, db, r, units);
  }

  lemma RenewForward(S: Setup, db: Db, r: Request, epoch: int, owner: Id, expires: int, env: Env)
    ensures Forward(db, RenewPreparedOp(S, db, r, epoch, owner, expires, env).1)
  {
    RenewGrows(S, db, r, epoch, owner, expires, env);
  }

  lemma SendForward(S: Setup, db: Db, r: Request, epoch: int, env: Env)
    requires Inv(S, db)
    ensures Forward(db, MarkSendingOp(S, db, r, epoch, env).1)
  {
    MarkSendingGrows(S, db, r, epoch, env);
    if r in db.attempts {
      assert LinkOk(S, db, r);
    }
    SendPolled(S, db, r, epoch, env);
  }

  lemma SendPolled(S: Setup, db: Db, r: Request, epoch: int, env: Env)
    requires r in db.attempts && db.attempts[r].outbox == Prepared ==> Live(db.attempts[r].status)
    ensures Polled(db, MarkSendingOp(S, db, r, epoch, env).1)
  {
  }

  lemma RejectForward(S: Setup, db: Db, r: Request, epoch: int, evidence: Evidence, file: Option<Id>)
    requires Shaped(S, db)
    ensures Forward(db, RejectOp(db, r, epoch, evidence, file).1)
  {
    RejectGrows(db, r, epoch, evidence, file);
  }

  lemma AcceptForward(S: Setup, db: Db, r: Request, epoch: int, file: Id, evidence: Evidence, receipts: Receipts)
    requires Inv(S, db)
    ensures Forward(db, AcceptOp(S, db, r, epoch, file, evidence, receipts).1)
  {
    AcceptGrows(S, db, r, epoch, file, evidence, receipts);
    if r in db.attempts {
      assert LinkOk(S, db, r);
    }
  }

  lemma MarkCancelForward(db: Db, r: Request, epoch: int, mark: CancelState)
    ensures Forward(db, CancelMarkOp(db, r, epoch, mark).1)
  {
    MarkCancelGrows(db, r, epoch, mark);
  }

  lemma UnmovedForward(db: Db, after: Db)
    requires after.attempts == db.attempts && after.rounds == db.rounds && after.tasks.Keys == db.tasks.Keys && after.paused.Keys == db.paused.Keys
    requires forall k :: k in db.tasks ==> after.tasks[k].accepted == db.tasks[k].accepted
    ensures Forward(db, after)
  {
    Unmoved(db, after);
  }

  // ---------------------------------------------------------------------------------------------
  // The measure
  // ---------------------------------------------------------------------------------------------

  /** Attempts the plan may still reserve, as (task, number of attempts before it). */
  ghost function OpenSlots(S: Setup, db: Db): set<(TaskKey, int)> {
    set k, i | k in S.plan && i in {0, 1, 2} && i >= |AttemptsOf(db, k)| :: (k, i)
  }

  ghost function OpenTasks(db: Db): set<TaskKey> {
    set k | k in db.tasks && db.tasks[k].accepted.None?
  }

  ghost function LiveAttempts(db: Db): set<Request> {
    set r | r in db.attempts && Live(db.attempts[r].status)
  }

  ghost function Unpolled(S: Setup, execution: Id, position: int): set<TaskKey> {
    set k | k in S.plan && k.execution == execution && S.plan[k].ordinal > position
  }

  ghost function ClaimableRows(db: Db): set<TaskKey> {
    set k | k in db.tasks && Claimable(db.tasks[k].status)
  }

  /** Attempts left, unaccepted tasks, live attempts, ordinals not polled yet, claimable rows. */
  datatype Measure = Measure(slots: nat, open: nat, live: nat, unpolled: nat, claimable: nat)

  ghost function MeasureOf(S: Setup, execution: Id, db: Db, position: int): Measure {
    Measure(|OpenSlots(S, db)|, |OpenTasks(db)|, |LiveAttempts(db)|, |Unpolled(S, execution, position)|, |ClaimableRows(db)|)
  }

  /** Lexicographically smaller. */
  ghost predicate Below(a: Measure, b: Measure) {
    a.slots < b.slots || (a.slots == b.slots && (a.open < b.open || (a.open == b.open && (a.live < b.live || (a.live == b.live
      && (a.unpolled < b.unpolled || (a.unpolled == b.unpolled && a.claimable < b.claimable)))))))
  }

  ghost predicate Closer(S: Setup, execution: Id, db: Db, position: int, after: Db, next: int) {
    Below(MeasureOf(S, execution, after, next), MeasureOf(S, execution, db, position))
  }

  lemma SetsShrink<T>(a: set<T>, b: set<T>)
    requires a <= b
    ensures |a| <= |b| && (a != b ==> |a| < |b|)
  {
    assert b == a + (b - a);
  }

  lemma AttemptsOfGrow(S: Setup, db: Db, after: Db, k: TaskKey)
    requires db.attempts.Keys <= after.attempts.Keys
    ensures |AttemptsOf(db, k)| <= |AttemptsOf(after, k)|
  {
    SetsShrink(AttemptsOf(db, k), AttemptsOf(after, k));
  }

  lemma SlotsOnlyClose(S: Setup, db: Db, after: Db)
    requires db.attempts.Keys <= after.attempts.Keys
    ensures OpenSlots(S, after) <= OpenSlots(S, db) && |OpenSlots(S, after)| <= |OpenSlots(S, db)|
  {
    forall k, i | (k, i) in OpenSlots(S, after) ensures (k, i) in OpenSlots(S, db) {
      AttemptsOfGrow(S, db, after, k);
    }
    SetsShrink(OpenSlots(S, after), OpenSlots(S, db));
  }

  /** Every claim uses up one of the task's three attempts. */
  lemma ClaimUsesSlot(S: Setup, db: Db, k: TaskKey, owner: Id, expires: int, env: Env)
    requires Inv(S, db) && ClaimOp(S, db, k, owner, expires, env).0.Success?
    ensures |OpenSlots(S, ClaimOp(S, db, k, owner, expires, env).1)| < |OpenSlots(S, db)|
  {
    var after, r := ClaimOp(S, db, k, owner, expires, env).1, Next(k, db.tasks[k]);
    NextIsNew(S, db, k);
    assert AttemptsOf(after, k) == AttemptsOf(db, k) + {r};
    SlotsOnlyClose(S, db, after);
    var used := (k, |AttemptsOf(db, k)|);
    assert used in OpenSlots(S, db) && used !in OpenSlots(S, after);
    SetsShrink(OpenSlots(S, after), OpenSlots(S, db));
  }

  lemma ForwardShrinks(S: Setup, db: Db, after: Db)
    requires Forward(db, after)
    ensures |OpenSlots(S, after)| == |OpenSlots(S, db)|
    ensures |OpenTasks(after)| <= |OpenTasks(db)| && |LiveAttempts(after)| <= |LiveAttempts(db)|
  {
    SlotsOnlyClose(S, db, after);
    SlotsOnlyClose(S, after, db);
    SetsShrink(OpenTasks(after), OpenTasks(db));
    SetsShrink(LiveAttempts(after), LiveAttempts(db));
  }

  /** What other processes do: whatever changes a task's row is a confirmed stop, which also ends a live attempt. */
  ghost predicate Aside(db: Db, after: Db) {
    && Forward(db, after) && (after.tasks == db.tasks || |LiveAttempts(after)| < |LiveAttempts(db)|)
    && (forall k {:trigger Bystander(db, after, k)} :: Bystander(db, after, k))
    && forall r {:trigger Spectator(db, after, r)} :: Spectator(db, after, r)
  }

  ghost predicate Spectator(db: Db, after: Db, r: Request) {
    r in db.attempts ==> r in after.attempts && after.attempts[r].status in {db.attempts[r].status, Cancelled}
  }

  ghost predicate Bystander(db: Db, after: Db, k: TaskKey) {
    k in db.tasks ==>
      && k in after.tasks && after.tasks[k].request == db.tasks[k].request
      && after.tasks[k].status in {db.tasks[k].status, Cancelled}
  }

  lemma AsideTransitive(S: Setup, a: Db, b: Db, c: Db)
    requires Aside(a, b) && Aside(b, c)
    ensures Aside(a, c)
  {
    ForwardTransitive(a, b, c);
    ForwardShrinks(S, a, b);
    ForwardShrinks(S, b, c);
    forall k ensures Bystander(a, c, k) {
      assert Bystander(a, b, k) && Bystander(b, c, k);
    }
    forall r ensures Spectator(a, c, r) {
      assert Spectator(a, b, r) && Spectator(b, c, r);
    }
  }

  lemma StopAside(S: Setup, db: Db, r: Request, epoch: int)
    requires Inv(S, db)
    ensures Aside(db, ObserveOp(db, r, epoch, Cancelled).1)
  {
    ObserveForward(S, db, r, epoch, Cancelled);
    StopOnlyCancels(db, r, epoch);
    var after := ObserveOp(db, r, epoch, Cancelled).1;
    if after != db {
      assert LinkOk(S, db, r);
      assert r in LiveAttempts(db) && r !in LiveAttempts(after);
      SetsShrink(LiveAttempts(after), LiveAttempts(db));
    }
  }

  lemma StopOnlyCancels(db: Db, r: Request, epoch: int)
    ensures forall k {:trigger Bystander(db, ObserveOp(db, r, epoch, Cancelled).1, k)} :: Bystander(db, ObserveOp(db, r, epoch, Cancelled).1, k)
    ensures forall q {:trigger Spectator(db, ObserveOp(db, r, epoch, Cancelled).1, q)} :: Spectator(db, ObserveOp(db, r, epoch, Cancelled).1, q)
  {
  }

  lemma MarkCancelAside(db: Db, r: Request, epoch: int, mark: CancelState)
    ensures Aside(db, CancelMarkOp(db, r, epoch, mark).1)
  {
    MarkCancelForward(db, r, epoch, mark);
  }

  lemma SettleAside(S: Setup, db: Db, r: Request, units: Option<int>)
    ensures Aside(db, SettleOp(S, db, r, units).1)
  {
    SettleForward(S, db, r, units);
    SettleKeepsStatus(S, db, r, units);
  }

  lemma SettleKeepsStatus(S: Setup, db: Db, r: Request, units: Option<int>)
    ensures SettleOp(S, db, r, units).1.tasks == db.tasks
    ensures forall q {:trigger Spectator(db, SettleOp(S, db, r, units).1, q)} :: Spectator(db, SettleOp(S, db, r, units).1, q)
  {
    SettleOneRow(S, db, r, units);
  }

  /** What one pass achieves: it claimed, or it polled further on, or it put one row to wait. */
  ghost predicate Moved(S: Setup, execution: Id, db: Db, position: int, after: Db, next: int) {
    || |OpenSlots(S, after)| < |OpenSlots(S, db)|
    || (Forward(db, after) && Unpolled(S, execution, next) < Unpolled(S, execution, position))
    || (Forward(db, after) && next == position && after.attempts == db.attempts && ClaimableRows(after) < ClaimableRows(db))
  }

  lemma StepCloser(S: Setup, execution: Id, db: Db, mid: Db, position: int, after: Db, next: int)
    requires Aside(db, mid) && Moved(S, execution, mid, position, after, next)
    ensures Closer(S, execution, db, position, after, next)
  {
    ForwardShrinks(S, db, mid);
    if |OpenSlots(S, after)| >= |OpenSlots(S, mid)| {
      ForwardShrinks(S, mid, after);
      SetsShrink(Unpolled(S, execution, next), Unpolled(S, execution, position));
      if ClaimableRows(after) < ClaimableRows(mid) {
        SetsShrink(ClaimableRows(after), ClaimableRows(mid));
      }
    }
  }

  lemma AsideCloser(S: Setup, execution: Id, db: Db, mid: Db, position: int, after: Db, next: int)
    requires Aside(db, mid) && Closer(S, execution, mid, position, after, next)
    ensures Closer(S, execution, db, position, after, next)
  {
    ForwardShrinks(S, db, mid);
  }

  // ---------------------------------------------------------------------------------------------
  // The provider
  // ---------------------------------------------------------------------------------------------

  datatype Answer = TooLate | Malformed | Reported(status: Status, units: Option<int>)
  datatype Checked = Expired | Broken | Inspected(file: Id, evidence: Evidence)

  /** The quality gate's opinion of a result its driver accepts. */
  datatype Graded = Ungraded | Graded(quality: Quality, report: Id)

  /** How far `stage_acceptance` came before its last transaction: to a published file and its intent's report, or not. */
  datatype Staged = Unplaced(late: bool) | Placed(file: Id, evidence: Evidence, result: Option<Quality>)

  /** What passed between a batch and its provider: requests handed over, after how many looks at results, and those looks. */
  datatype Notes = Notes(submitted: seq<Request>, handed: map<Request, nat>, checks: seq<(Request, Checked)>)

  /** Every request handed over and every look is kept, in order and with repetition; what the provider answers is not determined. */
  class Provider {
    var submitted: seq<Request>
    var handed: map<Request, nat>
    var checks: seq<(Request, Checked)>
    var answers: seq<(Request, Answer)>

    constructor ()
      ensures submitted == [] && handed == map[] && checks == [] && answers == []
    {
      submitted, handed, checks, answers := [], map[], [], [];
    }

    function Written(): Notes
      reads this
    {
      Notes(submitted, handed, checks)
    }

    /** An error does not mean the request was not taken. */
    method Submit(r: Request) returns (ok: bool)
      modifies this`submitted, this`handed
      ensures submitted == old(submitted) + [r] && handed == old(handed)[r := |checks|]
    {
      submitted, handed := submitted + [r], handed[r := |checks|];
      ok := *;
    }

    method Observe(r: Request) returns (answer: Answer)
      modifies this`answers
      ensures answers == old(answers) + [(r, answer)]
    {
      answer := *;
      answers := answers + [(r, answer)];
    }

    method Verify(r: Request) returns (checked: Checked)
      modifies this`checks
      ensures checks == old(checks) + [(r, checked)]
    {
      checked := *;
      checks := checks + [(r, checked)];
    }

    method Assess(r: Request) returns (graded: Graded) {
      graded := *;
    }

    method Stage(r: Request) returns (staged: Staged) {
      staged := *;
    }
  }

  /** Nothing was handed over but possibly this request, before any further look; the looks before stay. */
  ghost predicate Gave(a: Notes, b: Notes, r: Request) {
    && a.checks <= b.checks
    && ((b.submitted == a.submitted && b.handed == a.handed)
        || (b.submitted == a.submitted + [r] && b.handed == a.handed[r := |a.checks|]))
  }

  /** The same for whatever request the task has. */
  ghost predicate GaveFor(a: Notes, b: Notes, k: TaskKey) {
    exists r :: KeyOf(r) == k && Gave(a, b, r)
  }

  /** Each request was handed over once, and the store has it past "prepared". */
  ghost predicate Sent(db: Db, submitted: seq<Request>) {
    && (forall i, j :: 0 <= i < j < |submitted| ==> submitted[i] != submitted[j])
    && (forall r :: r in submitted ==> r in db.attempts && db.attempts[r].outbox != Prepared)
  }

  lemma SentStays(db: Db, after: Db, submitted: seq<Request>)
    requires Sent(db, submitted) && RecordGrows(db, after)
    ensures Sent(after, submitted)
  {
    forall r | r in submitted ensures r in after.attempts && after.attempts[r].outbox != Prepared {
      assert AttemptGrows(db, after, r);
    }
  }

  lemma SentMore(S: Setup, db: Db, submitted: seq<Request>, r: Request, epoch: int, env: Env)
    requires Inv(S, db) && Sent(db, submitted) && MarkSendingOp(S, db, r, epoch, env).0.Success?
    ensures Sent(MarkSendingOp(S, db, r, epoch, env).1, submitted + [r])
  {
    SendForward(S, db, r, epoch, env);
    SentStays(db, MarkSendingOp(S, db, r, epoch, env).1, submitted);
    assert r !in submitted;
  }

  // ---------------------------------------------------------------------------------------------
  // How requests leave "prepared" while a batch runs
  // ---------------------------------------------------------------------------------------------

  /** A request that left "prepared" between two states, or was claimed between them and did, was submitted or its stop confirmed. */
  ghost predicate Handled(db: Db, after: Db, submitted: seq<Request>, q: Request) {
    q in after.attempts && after.attempts[q].outbox != Prepared && (q in db.attempts ==> db.attempts[q].outbox == Prepared) ==>
      q in submitted || (after.attempts[q].outbox == Observed && after.attempts[q].status == Cancelled)
  }

  ghost predicate Proper(db: Db, after: Db, submitted: seq<Request>) {
    forall q {:trigger Handled(db, after, submitted, q)} :: Handled(db, after, submitted, q)
  }

  lemma ProperTransitive(a: Db, b: Db, c: Db, s: seq<Request>, t: seq<Request>)
    requires Proper(a, b, s) && Proper(b, c, t) && s <= t && RecordGrows(b, c)
    ensures Proper(a, c, t)
  {
    forall q ensures Handled(a, c, t, q) {
      assert Handled(a, b, s, q) && Handled(b, c, t, q) && AttemptGrows(b, c, q);
      assert q in s ==> q in t;
    }
  }

  lemma ProperMore(db: Db, after: Db, s: seq<Request>, t: seq<Request>)
    requires Proper(db, after, s) && s <= t
    ensures Proper(db, after, t)
  {
    forall q ensures Handled(db, after, t, q) {
      assert Handled(db, after, s, q);
      assert q in s ==> q in t;
    }
  }

  /** No outbox moved. */
  lemma OutboxesAlone(db: Db, after: Db, submitted: seq<Request>)
    requires after.attempts.Keys == db.attempts.Keys && forall q :: q in db.attempts ==> after.attempts[q].outbox == db.attempts[q].outbox
    ensures Proper(db, after, submitted)
  {
    forall q ensures Handled(db, after, submitted, q) {
    }
  }

  /** Any transaction that is neither a claim, a mark nor a report leaves the outboxes alone. */
  lemma CommitProper(S: Setup, db: Db, tx: Tx, submitted: seq<Request>)
    requires Inv(S, db) && !tx.Observe? && !tx.MarkSending? && !tx.Claim?
    requires Commit(S, db, tx).attempts.Keys == db.attempts.Keys
    ensures Proper(db, Commit(S, db, tx), submitted)
  {
    forall q | q in db.attempts ensures Commit(S, db, tx).attempts[q].outbox == db.attempts[q].outbox {
      OutboxStays(S, db, tx, q);
    }
    OutboxesAlone(db, Commit(S, db, tx), submitted);
  }

  lemma ClaimProper(S: Setup, db: Db, k: TaskKey, owner: Id, expires: int, env: Env, submitted: seq<Request>)
    requires Inv(S, db)
    ensures Proper(db, ClaimOp(S, db, k, owner, expires, env).1, submitted)
  {
    var after := ClaimOp(S, db, k, owner, expires, env).1;
    forall q ensures Handled(db, after, submitted, q) {
    }
  }

  lemma SendProper(S: Setup, db: Db, r: Request, epoch: int, env: Env, submitted: seq<Request>)
    requires MarkSendingOp(S, db, r, epoch, env).0.Success? ==> r in submitted
    ensures Proper(db, MarkSendingOp(S, db, r, epoch, env).1, submitted)
  {
    var after := MarkSendingOp(S, db, r, epoch, env).1;
    forall q ensures Handled(db, after, submitted, q) {
    }
  }

  /** A report is harmless on a request already sent, and when it confirms a stop. */
  lemma ObserveProper(db: Db, r: Request, epoch: int, status: Status, submitted: seq<Request>)
    requires (r in db.attempts && db.attempts[r].outbox != Prepared) || status == Cancelled
    ensures Proper(db, ObserveOp(db, r, epoch, status).1, submitted)
  {
    var after := ObserveOp(db, r, epoch, status).1;
    forall q ensures Handled(db, after, submitted, q) {
    }
  }

  // ---------------------------------------------------------------------------------------------
  // One iteration
  // ---------------------------------------------------------------------------------------------

  datatype Reason = Refused(error: Error) | PolicyChanged | SourceChanged | ProviderFailed

  datatype Stop =
    | Paused | Quiet | Late
    | UnknownResult(r: Request) | QualityUnknown
    | Raised(reason: Reason)

  /** One transaction of another process: a cancellation's mark or its confirmed stop, a late bill, pause, revocation. */
  method OtherStep(store: ProductionStore)
    requires store.Valid()
    modifies store
    ensures store.Valid() && Aside(old(store.Tables()), store.Tables())
    ensures Proper(old(store.Tables()), store.Tables(), [])
  {
    ghost var before := store.Tables();
    var r: Request, epoch: int := *, *;
    UnmovedForward(before, before);
    if
    case true =>
      var mark: CancelState := *;
      CommitProper(store.setup, before, MarkCancel(r, epoch, mark), []);
      MarkCancelAside(before, r, epoch, mark);
      var _ := store.MarkCancel(r, epoch, mark);
    case true =>
      StopAside(store.setup, before, r, epoch);
      ObserveProper(before, r, epoch, Cancelled, []);
      var _ := store.Observe(r, epoch, Cancelled);
    case true =>
      var units: Option<int> := *;
      SettleAside(store.setup, before, r, units);
      SettleOneRow(store.setup, before, r, units);
      CommitProper(store.setup, before, Settle(r, units), []);
      var _ := store.Settle(r, units);
    case true =>
      var enabled: bool := *;
      var _ := store.SetPaused(r.execution, enabled);
      UnmovedForward(before, store.Tables());
      OutboxesAlone(before, store.Tables(), []);
    case true =>
      store.Revoke();
      UnmovedForward(before, store.Tables());
      OutboxesAlone(before, store.Tables(), []);
  }

  method Others(store: ProductionStore)
    requires store.Valid()
    modifies store
    ensures store.Valid() && Aside(old(store.Tables()), store.Tables())
    ensures Proper(old(store.Tables()), store.Tables(), [])
  {
    ghost var before := store.Tables();
    UnmovedForward(before, before);
    OutboxesAlone(before, before, []);
    var steps: int := *;
    for i := 0 to AtLeastZero(steps)
      invariant store.Valid() && Aside(before, store.Tables()) && Proper(before, store.Tables(), [])
    {
      ghost var mid := store.Tables();
      OtherStep(store);
      ProperTransitive(before, mid, store.Tables(), [], []);
      AsideTransitive(store.setup, before, mid, store.Tables());
    }
  }

  datatype Obtained = Got(r: Request) | Waiting | Denied(error: Error)

  /** The same inside a pass: what has been achieved since a base state still holds after whatever others do. */
  method Meanwhile(store: ProductionStore, ghost base: Db, ghost submitted: seq<Request>)
    requires store.Valid() && Forward(base, store.Tables()) && Sent(store.Tables(), submitted) && Proper(base, store.Tables(), submitted)
    modifies store
    ensures store.Valid() && Forward(base, store.Tables()) && Sent(store.Tables(), submitted) && Proper(base, store.Tables(), submitted)
    ensures Aside(old(store.Tables()), store.Tables())
  {
    ghost var mid := store.Tables();
    Others(store);
    ForwardTransitive(base, mid, store.Tables());
    SentStays(mid, store.Tables(), submitted);
    ProperMore(mid, store.Tables(), [], submitted);
    ProperTransitive(base, mid, store.Tables(), submitted, submitted);
  }

  /** One claim under whatever clock and hold file it meets. */
  method TryClaim(store: ProductionStore, k: TaskKey) returns (c: Result<Request, Error>)
    requires store.Valid()
    modifies store
    ensures store.Valid() && RecordGrows(old(store.Tables()), store.Tables())
    ensures c.Success? ==>
      && |OpenSlots(store.setup, store.Tables())| < |OpenSlots(store.setup, old(store.Tables()))|
      && c.value in store.attempts && KeyOf(c.value) == k
    ensures c.Failure? ==> store.Tables() == old(store.Tables())
    ensures store.paused.Keys == old(store.paused.Keys)
    ensures Proper(old(store.Tables()), store.Tables(), [])
  {
    var owner: Id, expires: int, env: Env := *, *, *;
    ghost var S, before := store.setup, store.Tables();
    ClaimGrows(S, before, k, owner, expires, env);
    ClaimProper(S, before, k, owner, expires, env, []);
    c := store.Claim(k, owner, expires, env);
    if c.Success? {
      ClaimUsesSlot(S, before, k, owner, expires, env);
    }
  }

  /** Record what is left as the forecast. */
  method Reforecast(store: ProductionStore) returns (e: Option<Error>)
    requires store.Valid()
    modifies store
    ensures e.None? ==> store.forecast.Some? && store.forecast.value.remaining == Unreserved(store.setup, old(store.Tables()))
    ensures store.Valid() && Forward(old(store.Tables()), store.Tables()) && Proper(old(store.Tables()), store.Tables(), [])
  {
    ghost var before := store.Tables();
    UnmovedForward(before, before);
    OutboxesAlone(before, before, []);
    var remaining := store.RemainingForecast();
    if remaining.Failure? {
      return Some(remaining.error);
    }
    Meanwhile(store, before, []);
    ghost var mid := store.Tables();
    e := Remember(store, remaining.value);
    ForwardTransitive(before, mid, store.Tables());
    ProperTransitive(before, mid, store.Tables(), [], []);
  }

  method Remember(store: ProductionStore, remaining: int) returns (e: Option<Error>)
    requires store.Valid()
    modifies store
    ensures e.None? ==> store.forecast.Some? && store.forecast.value.remaining == remaining
    ensures store.Valid() && Forward(old(store.Tables()), store.Tables()) && Proper(old(store.Tables()), store.Tables(), [])
  {
    ghost var before := store.Tables();
    var recorded := store.RecordForecast(remaining);
    UnmovedForward(before, store.Tables());
    OutboxesAlone(before, store.Tables(), []);
    return if recorded.Failure? then Some(recorded.error) else None;
  }

  /** Claim; when only a forecast is missing, record the recomputed remainder and claim again. */
  method Obtain(store: ProductionStore, k: TaskKey) returns (c: Obtained)
    requires store.Valid()
    modifies store
    ensures store.Valid() && RecordGrows(old(store.Tables()), store.Tables())
    ensures c.Got? ==>
      && |OpenSlots(store.setup, store.Tables())| < |OpenSlots(store.setup, old(store.Tables()))|
      && c.r in store.attempts && KeyOf(c.r) == k
    ensures c.Waiting? ==> Aside(old(store.Tables()), store.Tables())
    ensures store.paused.Keys == old(store.paused.Keys)
    ensures Proper(old(store.Tables()), store.Tables(), [])
  {
    ghost var before := store.Tables();
    var first := TryClaim(store, k);
    if first.Success? {
      return Got(first.value);
    }
    if first.error == RepairWaiting {
      Others(store);
      return Waiting;
    }
    if first.error != ForecastRequired {
      return Denied(first.error);
    }
    var refused := Reforecast(store);
    if refused.Some? {
      return Denied(refused.value);
    }
    Meanwhile(store, before, []);
    ghost var mid := store.Tables();
    ForwardShrinks(store.setup, before, mid);
    var second := TryClaim(store, k);
    RecordGrowsTransitive(before, mid, store.Tables());
    ProperTransitive(before, mid, store.Tables(), [], []);
    return if second.Failure? then Denied(second.error) else Got(second.value);
  }

  /** Hand a prepared request to the provider, once: the sending mark is committed first. */
  method Send(store: ProductionStore, provider: Provider, r: Request, owner: Id, expires: int) returns (stop: Option<Stop>)
    requires store.Valid() && r in store.attempts && Sent(store.Tables(), provider.submitted)
    modifies store, provider
    ensures store.Valid() && Forward(old(store.Tables()), store.Tables()) && Sent(store.Tables(), provider.submitted)
    ensures old(provider.submitted) <= provider.submitted && Gave(old(provider.Written()), provider.Written(), r)
    ensures stop != Some(Quiet)
    ensures stop.None? ==> provider.submitted == old(provider.submitted) + [r]
    ensures Proper(old(store.Tables()), store.Tables(), provider.submitted)
    ensures stop.None? ==> r in store.attempts && store.attempts[r].outbox != Prepared
  {
    ghost var S, before := store.setup, store.Tables();
    UnmovedForward(before, before);
    OutboxesAlone(before, before, provider.submitted);
    var env: Env, late: bool, admitted: bool := *, *, *;
    if late || !admitted {
      return Some(Late);
    }
    if expires as real <= env.now {
      var renewal: int := *;
      RenewForward(S, before, r, r.epoch, owner, renewal, env);
      CommitProper(S, before, Renew(r, r.epoch, owner, renewal, env), provider.submitted);
      var renewed := store.RenewPrepared(r, r.epoch, owner, renewal, env);
      SentStays(before, store.Tables(), provider.submitted);
      if renewed.Failure? {
        return Some(Raised(Refused(renewed.error)));
      }
    }
    Meanwhile(store, before, provider.submitted);
    ghost var mid, given := store.Tables(), provider.submitted;
    stop := MarkAndSubmit(store, provider, r);
    ForwardTransitive(before, mid, store.Tables());
    ProperTransitive(before, mid, store.Tables(), given, provider.submitted);
  }

  method MarkAndSubmit(store: ProductionStore, provider: Provider, r: Request) returns (stop: Option<Stop>)
    requires store.Valid() && Sent(store.Tables(), provider.submitted)
    modifies store, provider
    ensures store.Valid() && Forward(old(store.Tables()), store.Tables()) && Sent(store.Tables(), provider.submitted)
    ensures old(provider.submitted) <= provider.submitted <= old(provider.submitted) + [r]
    ensures Gave(old(provider.Written()), provider.Written(), r)
    ensures stop != Some(Quiet)
    ensures stop.None? ==> provider.submitted == old(provider.submitted) + [r]
    ensures Proper(old(store.Tables()), store.Tables(), provider.submitted)
    ensures stop.None? ==> r in store.attempts && store.attempts[r].outbox != Prepared
  {
    ghost var S, before := store.setup, store.Tables();
    var env: Env := *;
    SendForward(S, before, r, r.epoch, env);
    SendProper(S, before, r, r.epoch, env, provider.submitted + [r]);
    var marked := store.MarkSending(r, r.epoch, env);
    if marked.Failure? {
      OutboxesAlone(before, before, provider.submitted);
      return Some(Raised(Refused(marked.error)));
    }
    SentMore(S, before, provider.submitted, r, r.epoch, env);
    Meanwhile(store, before, provider.submitted + [r]);
    ghost var mid := store.Tables();
    stop := HandOver(store, provider, r);
    ForwardTransitive(before, mid, store.Tables());
    ProperMore(mid, store.Tables(), [], provider.submitted);
    ProperTransitive(before, mid, store.Tables(), provider.submitted, provider.submitted);
  }

  /** The provider call; an error leaves the request in doubt. */
  method HandOver(store: ProductionStore, provider: Provider, r: Request) returns (stop: Option<Stop>)
    requires store.Valid() && Sent(store.Tables(), provider.submitted + [r])
    modifies store, provider
    ensures Gave(old(provider.Written()), provider.Written(), r)
    ensures store.Valid() && Forward(old(store.Tables()), store.Tables()) && Sent(store.Tables(), provider.submitted)
    ensures provider.submitted == old(provider.submitted) + [r] && stop != Some(Quiet)
    ensures Proper(old(store.Tables()), store.Tables(), [])
    ensures r in store.attempts && store.attempts[r].outbox != Prepared
    ensures stop == Some(Raised(Refused(ReconcileRequired))) ==>
      store.attempts[r].status in {Unknown, Cancelled} && store.attempts[r].charge.fee != Active
  {
    ghost var before := store.Tables();
    UnmovedForward(before, before);
    OutboxesAlone(before, before, []);
    assert r in provider.submitted + [r];
    var ok := provider.Submit(r);
    if ok {
      return None;
    }
    var refused := NoteAndBill(store, r, Unknown, None);
    SentStays(before, store.Tables(), provider.submitted);
    return Some(Raised(Refused(if refused.Some? then refused.value else ReconcileRequired)));
  }

  /** Record what the provider said about a request already sent, then its fee. */
  method NoteAndBill(store: ProductionStore, r: Request, status: Status, units: Option<int>) returns (e: Option<Error>)
    requires store.Valid()
    requires r in store.attempts && store.attempts[r].outbox != Prepared
    modifies store
    ensures store.Valid() && Forward(old(store.Tables()), store.Tables())
    ensures e.None? ==> r in store.attempts && store.attempts[r].status in {status, Cancelled} && Heard(store.attempts[r].charge, units)
    ensures e != Some(ReconcileRequired)
    ensures Proper(old(store.Tables()), store.Tables(), [])
  {
    ghost var S, before := store.setup, store.Tables();
    ObserveForward(S, before, r, r.epoch, status);
    ObserveProper(before, r, r.epoch, status, []);
    ObservedCharge(before, r, r.epoch, status);
    var noted := store.Observe(r, r.epoch, status);
    if noted.Failure? {
      return Some(noted.error);
    }
    ghost var reported := store.Tables();
    Meanwhile(store, before, []);
    assert Spectator(reported, store.Tables(), r);
    ghost var mid := store.Tables();
    e := BillFor(store, r, units);
    ForwardTransitive(before, mid, store.Tables());
    ProperTransitive(before, mid, store.Tables(), [], []);
  }

  /** The bill has come, or the fee is no longer taken for running: unknown until there is one. */
  predicate Heard(c: Charge, units: Option<int>) {
    if units.Some? then c.fee == Settled && c.settled == units.value else c.fee != Active
  }

  method BillFor(store: ProductionStore, r: Request, units: Option<int>) returns (e: Option<Error>)
    requires store.Valid() && r in store.attempts
    modifies store
    ensures store.Valid() && Forward(old(store.Tables()), store.Tables()) && Proper(old(store.Tables()), store.Tables(), [])
    ensures r in store.attempts && store.attempts[r].status == old(store.attempts)[r].status
    ensures e.None? ==> Heard(store.attempts[r].charge, units)
    ensures e != Some(ReconcileRequired)
  {
    ghost var S, before := store.setup, store.Tables();
    SettleForward(S, before, r, units);
    SettleOnlyMoney(S, before, r, units, r);
    CommitProper(S, before, Settle(r, units), []);
    var billed := store.Settle(r, units);
    return if billed.Failure? then Some(billed.error) else None;
  }

  /** The result was judged by this look: under the policy, with its very report, or under a quality gate with the gate's. */
  predicate Judged(gate: Option<Id>, policy: Id, look: (Request, Checked), r: Request, a: Attempt) {
    && look.0 == r && look.1.Inspected? && look.1.evidence.policy == policy && a.evidence.Some?
    && (gate.None? ==> a.evidence.value == look.1.evidence)
    && (gate.Some? && a.status == MachineAccepted ==> Gated(gate.value, r, a))
    && (gate.Some? && a.status == Rejected ==>
          a.evidence.value.verdict == Reject && (a.evidence.value == look.1.evidence || a.evidence.value.technical == Some(look.1.evidence)))
  }

  /** Judge a produced result, with the quality gate's opinion where there is one: accept it, reject it, or stop because nobody can tell. */
  method Judge(store: ProductionStore, provider: Provider, gate: Option<Id>, r: Request, policy: Id) returns (stop: Option<Stop>)
    requires store.Valid()
    modifies store, provider`checks
    ensures old(provider.checks) <= provider.checks
    ensures store.Valid() && Forward(old(store.Tables()), store.Tables())
    ensures stop != Some(Quiet)
    ensures stop.None? ==> r in store.attempts && store.attempts[r].status in {MachineAccepted, Rejected}
    ensures stop.None? ==> provider.checks != [] && Judged(gate, policy, provider.checks[|provider.checks| - 1], r, store.attempts[r])
    ensures Proper(old(store.Tables()), store.Tables(), [])
  {
    ghost var S, before := store.setup, store.Tables();
    UnmovedForward(before, before);
    OutboxesAlone(before, before, []);
    var late: bool := *;
    if late {
      return Some(Late);
    }
    var checked := provider.Verify(r);
    if checked.Expired? {
      return Some(Late);
    }
    if checked.Broken? {
      return Some(Raised(ProviderFailed));
    }
    var evidence := checked.evidence;
    if evidence.policy != policy {
      return Some(Raised(PolicyChanged));
    }
    if gate.Some? && evidence.verdict == Accept {
      var graded := provider.Assess(r);
      if graded.Ungraded? || graded.quality.verdict == Doubt {
        return Some(if graded.Ungraded? then Raised(ProviderFailed) else QualityUnknown);
      }
      evidence := evidence.(isSealed := true, verdict := graded.quality.verdict, technical := Some(evidence),
                            quality := Some(graded.quality), report := graded.report);
    }
    match evidence.verdict {
      case Reject =>
        var file := if gate.Some? then Some(checked.file) else None;
        RejectForward(S, before, r, r.epoch, evidence, file);
        CommitProper(S, before, RejectResult(r, r.epoch, evidence, file), []);
        var rejected := store.RejectResult(r, r.epoch, evidence, file);
        return if rejected.Failure? then Some(Raised(Refused(rejected.error))) else None;
      case Doubt =>
        return Some(QualityUnknown);
      case Accept =>
        if gate.Some? {
          stop := Publish(store, provider, gate.value, r);
        } else {
          stop := TakeIn(store, r, checked.file, evidence, Unbound);
        }
    }
  }

  /** Publish a result, or go on with a publication begun earlier, and accept it with its intent's report. */
  method Publish(store: ProductionStore, provider: Provider, gate: Id, r: Request) returns (stop: Option<Stop>)
    requires store.Valid()
    modifies store
    ensures store.Valid() && Forward(old(store.Tables()), store.Tables())
    ensures stop.None? ==> r in store.attempts && Gated(gate, r, store.attempts[r])
    ensures stop != Some(Quiet)
    ensures stop.None? ==> r in store.attempts && store.attempts[r].status == MachineAccepted
    ensures Proper(old(store.Tables()), store.Tables(), [])
  {
    var staged := provider.Stage(r);
    match staged
    case Unplaced(late) =>
      UnmovedForward(store.Tables(), store.Tables());
      OutboxesAlone(store.Tables(), store.Tables(), []);
      return Some(if late then Late else Raised(SourceChanged));
    case Placed(file, evidence, result) =>
      stop := TakeIn(store, r, file, evidence, Bound(gate, Some(evidence), true, result));
  }

  /** An acceptance under a quality gate rests on the gate's own accepting result for this very request. */
  predicate Gated(gate: Id, r: Request, a: Attempt) {
    && a.evidence.Some? && a.evidence.value.request == Some(r)
    && a.evidence.value.quality.Some? && a.evidence.value.quality.value.binding == gate && a.evidence.value.quality.value.verdict == Accept
  }

  method TakeIn(store: ProductionStore, r: Request, file: Id, evidence: Evidence, receipts: Receipts) returns (stop: Option<Stop>)
    requires store.Valid()
    modifies store
    ensures stop.None? ==> r in store.attempts && store.attempts[r].evidence == Some(evidence) && ReceiptsOk(r, receipts, evidence)
    ensures store.Valid() && Forward(old(store.Tables()), store.Tables())
    ensures stop != Some(Quiet)
    ensures stop.None? ==> r in store.attempts && store.attempts[r].status == MachineAccepted
    ensures Proper(old(store.Tables()), store.Tables(), [])
  {
    ghost var S, before := store.setup, store.Tables();
    AcceptForward(S, before, r, r.epoch, file, evidence, receipts);
    CommitProper(S, before, AcceptResult(r, r.epoch, file, evidence, receipts), []);
    var accepted := store.AcceptResult(r, r.epoch, file, evidence, receipts);
    return if accepted.Failure? then Some(Raised(Refused(accepted.error))) else None;
  }

  /** The attempt stands as an answer says, its fee included; a produced result as it was judged. */
  ghost predicate ActedOn(gate: Option<Id>, policy: Id, status: Status, units: Option<int>, checks: seq<(Request, Checked)>, r: Request, a: Attempt) {
    && status in {Running, Produced, Failed, Cancelled} && Heard(a.charge, units)
    && (status == Produced ==> checks != [] && a.status in {MachineAccepted, Rejected} && Judged(gate, policy, checks[|checks| - 1], r, a))
    && (status != Produced ==> a.status in {status, Cancelled})
  }

  /** The provider's last answer was about this request, and the attempt stands as it says. */
  ghost predicate Acted(gate: Option<Id>, policy: Id, answers: seq<(Request, Answer)>, checks: seq<(Request, Checked)>, r: Request, a: Attempt) {
    && answers != [] && answers[|answers| - 1].0 == r && answers[|answers| - 1].1.Reported?
    && ActedOn(gate, policy, answers[|answers| - 1].1.status, answers[|answers| - 1].1.units, checks, r, a)
  }

  /** A produced result is judged whatever others do meanwhile, and its fee stays as heard. */
  method JudgeProduced(store: ProductionStore, provider: Provider, gate: Option<Id>, r: Request, policy: Id, ghost units: Option<int>)
    returns (stop: Option<Stop>)
    requires store.Valid() && r in store.attempts && Heard(store.attempts[r].charge, units)
    modifies store, provider`checks
    ensures old(provider.checks) <= provider.checks && stop != Some(Quiet)
    ensures store.Valid() && Forward(old(store.Tables()), store.Tables()) && Proper(old(store.Tables()), store.Tables(), [])
    ensures stop.None? ==>
      && r in store.attempts && store.attempts[r].status in {MachineAccepted, Rejected} && Heard(store.attempts[r].charge, units)
      && provider.checks != [] && Judged(gate, policy, provider.checks[|provider.checks| - 1], r, store.attempts[r])
  {
    ghost var noted := store.Tables();
    Others(store);
    ghost var kept := store.Tables();
    stop := Judge(store, provider, gate, r, policy);
    Continued(noted, kept, store.Tables(), []);
    assert AttemptGrows(noted, store.Tables(), r);
  }

  /** Ask the provider about a request and act on the answer. */
  method Reconcile(store: ProductionStore, provider: Provider, gate: Option<Id>, r: Request, policy: Id) returns (stop: Option<Stop>)
    requires store.Valid()
    requires r in store.attempts && store.attempts[r].outbox != Prepared
    modifies store, provider`checks, provider`answers
    ensures old(provider.checks) <= provider.checks
    ensures stop.None? ==> r in store.attempts && Acted(gate, policy, provider.answers, provider.checks, r, store.attempts[r])
    ensures store.Valid() && Forward(old(store.Tables()), store.Tables())
    ensures stop != Some(Quiet)
    ensures stop.None? ==> store.attempts[r].status in {Running, Failed, Cancelled, MachineAccepted, Rejected}
    ensures Proper(old(store.Tables()), store.Tables(), [])
  {
    ghost var before := store.Tables();
    var late: bool := *;
    var answer := provider.Observe(r);
    Others(store);
    if late || answer.TooLate? || answer.Malformed? || answer.status !in {Running, Produced, Unknown, Failed, Cancelled} {
      return Some(if late || answer.TooLate? then Late else Raised(Refused(ProviderInvalid)));
    }
    assert AttemptGrows(before, store.Tables(), r);
    ghost var asked := store.Tables();
    stop := ActOn(store, provider, gate, r, policy, answer.status, answer.units);
    Continued(before, asked, store.Tables(), []);
  }

  /** Note the answer and its bill, and judge what was produced. */
  method ActOn(store: ProductionStore, provider: Provider, gate: Option<Id>, r: Request, policy: Id, status: Status, units: Option<int>)
    returns (stop: Option<Stop>)
    requires store.Valid() && r in store.attempts && store.attempts[r].outbox != Prepared && status in {Running, Produced, Unknown, Failed, Cancelled}
    modifies store, provider`checks
    ensures old(provider.checks) <= provider.checks && stop != Some(Quiet)
    ensures store.Valid() && Forward(old(store.Tables()), store.Tables()) && Proper(old(store.Tables()), store.Tables(), [])
    ensures stop.None? ==> r in store.attempts && ActedOn(gate, policy, status, units, provider.checks, r, store.attempts[r])
  {
    var refused := NoteAndBill(store, r, status, units);
    if refused.Some? {
      return Some(Raised(Refused(refused.value)));
    }
    if status == Unknown {
      return Some(UnknownResult(r));
    }
    if status != Produced {
      return None;
    }
    ghost var before, noted := old(store.Tables()), store.Tables();
    stop := JudgeProduced(store, provider, gate, r, policy, units);
    Continued(before, noted, store.Tables(), []);
  }

  /** A publication begun earlier, as the events say, goes on without asking the provider again. */
  method Resume(store: ProductionStore, provider: Provider, gate: Id, r: Request) returns (stop: Option<Stop>)
    requires store.Valid() && r in store.attempts && store.attempts[r].status in {Produced, Verified} && Sent(store.Tables(), provider.submitted)
    modifies store
    ensures store.Valid() && Forward(old(store.Tables()), store.Tables()) && Sent(store.Tables(), provider.submitted)
    ensures old(store.attempts)[r].outbox != Prepared && stop != Some(Quiet)
    ensures stop.None? ==> r in store.attempts && store.attempts[r].status == MachineAccepted
    ensures stop.None? ==> Gated(gate, r, store.attempts[r])
    ensures Proper(old(store.Tables()), store.Tables(), provider.submitted)
  {
    ghost var before := store.Tables();
    assert LinkOk(store.setup, before, r);
    stop := Publish(store, provider, gate, r);
    SentStays(before, store.Tables(), provider.submitted);
    ProperMore(before, store.Tables(), [], provider.submitted);
  }

  /** What a sent request's provider has to say, nothing being handed over. */
  method Watch(store: ProductionStore, provider: Provider, gate: Option<Id>, r: Request, policy: Id) returns (stop: Option<Stop>)
    requires store.Valid() && r in store.attempts && store.attempts[r].outbox != Prepared && Sent(store.Tables(), provider.submitted)
    modifies store, provider`checks, provider`answers
    ensures store.Valid() && Forward(old(store.Tables()), store.Tables()) && Sent(store.Tables(), provider.submitted)
    ensures old(provider.checks) <= provider.checks && stop != Some(Quiet)
    ensures stop.None? ==> r in store.attempts && store.attempts[r].status in {Running, Failed, Cancelled, MachineAccepted, Rejected}
    ensures stop.None? ==> Acted(gate, policy, provider.answers, provider.checks, r, store.attempts[r])
    ensures Proper(old(store.Tables()), store.Tables(), provider.submitted)
  {
    ghost var sent := store.Tables();
    stop := Reconcile(store, provider, gate, r, policy);
    SentStays(sent, store.Tables(), provider.submitted);
    ProperMore(sent, store.Tables(), [], provider.submitted);
  }

  /** Send a request if it was never sent, then only observe. */
  method SendAndObserve(store: ProductionStore, provider: Provider, gate: Option<Id>, r: Request, policy: Id) returns (stop: Option<Stop>)
    requires store.Valid() && r in store.attempts && Sent(store.Tables(), provider.submitted)
    modifies store, provider
    ensures store.Valid() && Forward(old(store.Tables()), store.Tables()) && Sent(store.Tables(), provider.submitted)
    ensures old(provider.submitted) <= provider.submitted && Gave(old(provider.Written()), provider.Written(), r)
    ensures stop != Some(Quiet)
    ensures stop.None? ==> provider.submitted == old(provider.submitted) + (if old(store.attempts)[r].outbox == Prepared then [r] else [])
    ensures stop.None? ==> r in store.attempts && store.attempts[r].status in {Running, Failed, Cancelled, MachineAccepted, Rejected}
    ensures stop.None? ==> Acted(gate, policy, provider.answers, provider.checks, r, store.attempts[r])
    ensures Proper(old(store.Tables()), store.Tables(), provider.submitted)
  {
    var attempt := store.attempts[r];
    if attempt.outbox != Prepared {
      stop := Watch(store, provider, gate, r, policy);
      return;
    }
    ghost var before := store.Tables();
    stop := Send(store, provider, r, attempt.owner, attempt.expires);
    if stop.None? {
      ghost var sent := store.Tables();
      stop := Watch(store, provider, gate, r, policy);
      Continued(before, sent, store.Tables(), provider.submitted);
    }
  }

  /** What the provider's answers lead to after a send neither loses what was achieved nor touches what was sent. */
  lemma Continued(db: Db, mid: Db, after: Db, submitted: seq<Request>)
    requires Forward(db, mid) && Forward(mid, after) && Proper(db, mid, submitted) && Proper(mid, after, submitted)
    ensures Forward(db, after) && Proper(db, after, submitted)
  {
    ForwardTransitive(db, mid, after);
    ProperTransitive(db, mid, after, submitted, submitted);
  }

  /** From a request in hand to the end of the iteration: an intended publication goes on, anything else is sent once and observed. */
  method Advance(store: ProductionStore, provider: Provider, gate: Option<Id>, r: Request, policy: Id) returns (stop: Option<Stop>)
    requires store.Valid() && r in store.attempts && Sent(store.Tables(), provider.submitted)
    modifies store, provider
    ensures store.Valid() && Forward(old(store.Tables()), store.Tables()) && Sent(store.Tables(), provider.submitted)
    ensures old(provider.submitted) <= provider.submitted && Gave(old(provider.Written()), provider.Written(), r)
    ensures stop != Some(Quiet)
    ensures stop.None? ==> provider.submitted == old(provider.submitted) + (if old(store.attempts)[r].outbox == Prepared then [r] else [])
    ensures stop.None? ==> r in store.attempts && store.attempts[r].status in {Running, Failed, Cancelled, MachineAccepted, Rejected}
    ensures stop.None? ==>
      || (gate.Some? && store.attempts[r].status == MachineAccepted && Gated(gate.value, r, store.attempts[r]))
      || Acted(gate, policy, provider.answers, provider.checks, r, store.attempts[r])
    ensures Proper(old(store.Tables()), store.Tables(), provider.submitted)
  {
    var intended: bool := *;
    if gate.Some? && store.attempts[r].status in {Produced, Verified} && intended {
      stop := Resume(store, provider, gate.value, r);
    } else {
      stop := SendAndObserve(store, provider, gate, r, policy);
    }
  }

  /**
   What `_verify` compares, looking at an accepted request again: of a published result the intent's report and the published
   file, of any other the driver's report and artifact, with the technical report where the quality gate put its own around it.
   */
  predicate Confirms(r: Request, accepted: Evidence, file: Id, evidence: Evidence) {
    && file == accepted.artifact
    && if accepted.request.Some? then accepted.request == Some(r) && evidence == accepted
       else evidence == if accepted.technical.Some? then accepted.technical.value else accepted
  }

  /** A look at a task's accepted request confirmed it. */
  ghost predicate Vouches(db: Db, k: TaskKey, look: (Request, Checked)) {
    && KeyOf(look.0) == k && look.0 in db.attempts && db.attempts[look.0].status == MachineAccepted && db.attempts[look.0].evidence.Some?
    && look.1.Inspected? && Confirms(look.0, db.attempts[look.0].evidence.value, look.1.file, look.1.evidence)
  }

  /** One of the looks from `from` up to `upto` did. */
  ghost predicate Vouched(db: Db, k: TaskKey, checks: seq<(Request, Checked)>, from: nat, upto: nat) {
    exists j: nat :: from <= j < upto && j < |checks| && Vouches(db, k, checks[j])
  }

  ghost predicate InputsVouched(S: Setup, db: Db, k: TaskKey, checks: seq<(Request, Checked)>, from: nat, upto: nat) {
    k in S.plan && forall p {:trigger Vouched(db, TaskKey(k.execution, p), checks, from, upto)} :: p in S.plan[k].parents ==>
      Vouched(db, TaskKey(k.execution, p), checks, from, upto)
  }

  lemma VouchedStays(db: Db, after: Db, k: TaskKey, a: seq<(Request, Checked)>, b: seq<(Request, Checked)>, from: nat, upto: nat, more: nat)
    requires Vouched(db, k, a, from, upto) && RecordGrows(db, after) && a <= b && upto <= more
    ensures Vouched(after, k, b, from, more)
  {
    var j: nat :| from <= j < upto && j < |a| && Vouches(db, k, a[j]);
    assert AttemptGrows(db, after, a[j].0);
    assert b[j] == a[j] && Vouches(after, k, b[j]);
  }

  lemma InputsVouchedStay(S: Setup, db: Db, after: Db, k: TaskKey, a: seq<(Request, Checked)>, b: seq<(Request, Checked)>, from: nat, upto: nat)
    requires InputsVouched(S, db, k, a, from, upto) && RecordGrows(db, after) && a <= b
    ensures InputsVouched(S, after, k, b, from, upto)
  {
    forall p | p in S.plan[k].parents ensures Vouched(after, TaskKey(k.execution, p), b, from, upto) {
      VouchedStays(db, after, TaskKey(k.execution, p), a, b, from, upto, upto);
    }
  }

  /** The i-th request was handed over only after all its inputs had been looked at and confirmed, no earlier than `from`. */
  ghost predicate GroundedAt(S: Setup, db: Db, notes: Notes, from: nat, i: nat) {
    i < |notes.submitted| ==>
      && notes.submitted[i] in notes.handed && notes.handed[notes.submitted[i]] <= |notes.checks|
      && InputsVouched(S, db, KeyOf(notes.submitted[i]), notes.checks, from, notes.handed[notes.submitted[i]])
  }

  ghost predicate Grounded(S: Setup, db: Db, notes: Notes, n: nat, from: nat) {
    forall i: nat {:trigger GroundedAt(S, db, notes, from, i)} :: n <= i ==> GroundedAt(S, db, notes, from, i)
  }

  /** A pass looks at the inputs of one task and then hands over at most a request of it. */
  lemma GroundedPass(S: Setup, db: Db, after: Db, a: Notes, b: Notes, c: Notes, k: TaskKey, n: nat, from: nat)
    requires Grounded(S, db, a, n, from) && RecordGrows(db, after) && from <= |a.checks|
    requires b == a.(checks := b.checks) && a.checks <= b.checks && GaveFor(b, c, k)
    requires c.submitted != a.submitted ==> InputsVouched(S, db, k, b.checks, from, |b.checks|)
    requires forall i, j :: 0 <= i < j < |c.submitted| ==> c.submitted[i] != c.submitted[j]
    ensures Grounded(S, after, c, n, from)
  {
    var r :| KeyOf(r) == k && Gave(b, c, r);
    forall i: nat | n <= i ensures GroundedAt(S, after, c, from, i) {
      if i < |a.submitted| {
        assert GroundedAt(S, db, a, from, i);
        assert c.submitted[i] == a.submitted[i];
        assert c.submitted != a.submitted ==> c.submitted[|a.submitted|] == r && c.submitted[i] != r;
        InputsVouchedStay(S, db, after, KeyOf(a.submitted[i]), a.checks, c.checks, from, a.handed[a.submitted[i]]);
      } else if i < |c.submitted| {
        assert c.submitted[i] == r && c.handed[r] == |b.checks|;
        InputsVouchedStay(S, db, after, k, b.checks, c.checks, from, |b.checks|);
      }
    }
  }

  lemma InputsVouchedFrom(S: Setup, db: Db, k: TaskKey, checks: seq<(Request, Checked)>, from: nat, later: nat)
    requires InputsVouched(S, db, k, checks, later, |checks|) && from <= later
    ensures InputsVouched(S, db, k, checks, from, |checks|)
  {
    forall p | p in S.plan[k].parents ensures Vouched(db, TaskKey(k.execution, p), checks, from, |checks|) {
      assert Vouched(db, TaskKey(k.execution, p), checks, later, |checks|);
    }
  }

  lemma GroundedStays(S: Setup, db: Db, after: Db, notes: Notes, n: nat, from: nat)
    requires Grounded(S, db, notes, n, from) && RecordGrows(db, after)
    ensures Grounded(S, after, notes, n, from)
  {
    forall i: nat | n <= i ensures GroundedAt(S, after, notes, from, i) {
      assert GroundedAt(S, db, notes, from, i);
      if i < |notes.submitted| {
        var r := notes.submitted[i];
        InputsVouchedStay(S, db, after, KeyOf(r), notes.checks, notes.checks, from, notes.handed[r]);
      }
    }
  }

  /** The last look decided against the inputs: too late, broken, or not what was accepted. */
  ghost predicate Contradicts(db: Db, k: TaskKey, look: (Request, Checked), stop: Stop) {
    && KeyOf(look.0) == k && !Vouches(db, k, look)
    && stop == match look.1 { case Expired => Late case Broken => Raised(ProviderFailed) case Inspected(_, _) => Raised(SourceChanged) }
  }

  /** Every parent has accepted evidence; each is looked at again until one does not confirm it, and that one decides. */
  method CheckInputs(store: ProductionStore, provider: Provider, k: TaskKey) returns (stop: Option<Stop>)
    requires store.Valid() && k in store.setup.plan && store.tasks[k].remaining == 0
    modifies provider`checks
    ensures old(provider.checks) <= provider.checks
    ensures stop.None? ==> InputsVouched(store.setup, store.Tables(), k, provider.checks, |old(provider.checks)|, |provider.checks|)
    ensures stop.Some? ==> |old(provider.checks)| < |provider.checks|
    ensures stop.Some? ==>
      exists p :: p in store.setup.plan[k].parents && Contradicts(store.Tables(), TaskKey(k.execution, p), provider.checks[|provider.checks| - 1], stop.value)
  {
    ghost var db, from := store.Tables(), |provider.checks|;
    var parents := store.setup.plan[k].parents;
    var pending := parents;
    while pending != {}
      invariant pending <= parents && old(provider.checks) <= provider.checks
      invariant forall p :: p in parents - pending ==> Vouched(db, TaskKey(k.execution, p), provider.checks, from, |provider.checks|)
      decreases pending
    {
      var p :| p in pending;
      pending := pending - {p};
      InputEvidence(store.setup, db, k, p);
      var source := store.tasks[TaskKey(k.execution, p)];
      ghost var before := provider.checks;
      var checked := provider.Verify(source.request.value);
      ghost var look := provider.checks[|before|];
      forall q | q in parents - pending && q != p ensures Vouched(db, TaskKey(k.execution, q), provider.checks, from, |provider.checks|) {
        Unmoved(db, db);
        VouchedStays(db, db, TaskKey(k.execution, q), before, provider.checks, from, |before|, |provider.checks|);
      }
      match checked
      case Expired =>
        assert Contradicts(db, TaskKey(k.execution, p), look, Late);
        return Some(Late);
      case Broken =>
        assert Contradicts(db, TaskKey(k.execution, p), look, Raised(ProviderFailed));
        return Some(Raised(ProviderFailed));
      case Inspected(file, evidence) =>
        if !Confirms(source.request.value, source.accepted.value, file, evidence) {
          assert Contradicts(db, TaskKey(k.execution, p), look, Raised(SourceChanged));
          return Some(Raised(SourceChanged));
        }
        assert Vouches(db, TaskKey(k.execution, p), look);
    }
    return None;
  }

  lemma InputEvidence(S: Setup, db: Db, k: TaskKey, p: Id)
    requires Inv(S, db) && k in S.plan && db.tasks[k].remaining == 0 && p in S.plan[k].parents
    ensures TaskKey(k.execution, p) in db.tasks
    ensures var parent := db.tasks[TaskKey(k.execution, p)];
      && parent.accepted.Some? && parent.request.Some? && KeyOf(parent.request.value) == TaskKey(k.execution, p)
      && parent.request.value in db.attempts && db.attempts[parent.request.value].status == MachineAccepted
      && db.attempts[parent.request.value].evidence == parent.accepted
  {
    assert DocOk(S, k) && CountOk(S, db.tasks, k);
    assert p !in UnacceptedParents(S, db.tasks, k);
    assert TaskOk(S, db, TaskKey(k.execution, p));
  }

  const LIVE: set<Status> := {Reserved, Submitted, Running, Unknown, Produced, Verified}

  /** Nothing of the execution can move without the passing of time or another process. */
  ghost predicate Stuck(S: Setup, db: Db, execution: Id, position: int) {
    forall k :: k in S.plan && k in db.tasks && k.execution == execution ==>
      var t := db.tasks[k];
      || t.accepted.Some? || t.status == RepairWait || (Claimable(t.status) && t.remaining != 0)
      || (Live(t.status) && S.plan[k].ordinal <= position)
  }

  datatype Turn = Start(k: TaskKey) | Poll(k: TaskKey) | Rest

  /** The next ready task, else the next active one after the position, else nothing. */
  method Select(store: ProductionStore, execution: Id, position: int) returns (turn: Turn)
    requires store.Valid()
    ensures turn.Start? ==> ReadyRow(store.setup, store.tasks, execution, turn.k)
    ensures turn.Poll? ==> RowMatches(store.setup, store.tasks, execution, LIVE, position, false, turn.k)
    ensures !turn.Start? ==> forall k :: !ReadyRow(store.setup, store.tasks, execution, k)
    ensures turn.Rest? ==> Stuck(store.setup, store.Tables(), execution, position)
  {
    var ready := store.NextReady(execution);
    if ready.Some? {
      return Start(ready.value);
    }
    var active := store.FirstRow(execution, LIVE, position, false);
    if active.Some? {
      return Poll(active.value);
    }
    RestIsStuck(store.setup, store.Tables(), execution, position);
    return Rest;
  }

  lemma RestIsStuck(S: Setup, db: Db, execution: Id, position: int)
    requires Inv(S, db)
    requires forall k :: !ReadyRow(S, db.tasks, execution, k)
    requires forall k :: !RowMatches(S, db.tasks, execution, LIVE, position, false, k)
    ensures Stuck(S, db, execution, position)
  {
    forall k | k in S.plan && k in db.tasks && k.execution == execution
      ensures var t := db.tasks[k];
        || t.accepted.Some? || t.status == RepairWait || (Claimable(t.status) && t.remaining != 0)
        || (Live(t.status) && S.plan[k].ordinal <= position)
    {
      assert TaskOk(S, db, k) && !ReadyRow(S, db.tasks, execution, k) && !RowMatches(S, db.tasks, execution, LIVE, position, false, k);
    }
  }

  /** The row an active poll picks points to its live attempt, whose inputs are all accepted. */
  lemma PolledIsLive(S: Setup, db: Db, k: TaskKey)
    requires Inv(S, db) && k in S.plan && Live(db.tasks[k].status)
    ensures db.tasks[k].request.Some? && db.tasks[k].request.value in db.attempts && db.tasks[k].remaining == 0
    ensures Live(db.attempts[db.tasks[k].request.value].status)
  {
    assert TaskOk(S, db, k);
    assert LinkOk(S, db, db.tasks[k].request.value);
  }

  lemma WaitCloser(S: Setup, db: Db, k: TaskKey)
    requires Inv(S, db) && k in S.plan && Claimable(db.tasks[k].status)
    ensures db.tasks[k].accepted.None?
    ensures Forward(db, RepairWaitOp(db, k)) && ClaimableRows(RepairWaitOp(db, k)) < ClaimableRows(db)
  {
    assert TaskOk(S, db, k);
    UnmovedForward(db, RepairWaitOp(db, k));
    assert k in ClaimableRows(db);
  }

  /** Claim a ready task, or put it to wait for its shot's repair round. */
  method Begin(store: ProductionStore, provider: Provider, gate: Option<Id>, ghost execution: Id, k: TaskKey, policy: Id, ghost position: int)
    returns (stop: Option<Stop>)
    requires store.Valid() && k in store.setup.plan && Claimable(store.tasks[k].status) && Sent(store.Tables(), provider.submitted)
    modifies store, provider
    ensures store.Valid() && Sent(store.Tables(), provider.submitted) && old(provider.submitted) <= provider.submitted
    ensures GaveFor(old(provider.Written()), provider.Written(), k)
    ensures RecordGrows(old(store.Tables()), store.Tables())
    ensures stop.None? ==> Closer(store.setup, execution, old(store.Tables()), position, store.Tables(), position)
    ensures stop != Some(Quiet)
    ensures store.paused.Keys == old(store.paused.Keys)
    ensures Proper(old(store.Tables()), store.Tables(), provider.submitted)
  {
    ghost var before, given := store.Tables(), provider.submitted;
    var obtained := Obtain(store, k);
    ProperMore(before, store.Tables(), [], given);
    SentStays(before, store.Tables(), given);
    match obtained
    case Waiting =>
      Hold(store, before, given, execution, k, position);
      GaveNothing(provider.Written(), k);
      return None;
    case Denied(error) =>
      GaveNothing(provider.Written(), k);
      return Some(Raised(Refused(error)));
    case Got(r) =>
      stop := Proceed(store, provider, gate, before, execution, r, policy, position);
  }

  lemma GaveNothing(notes: Notes, k: TaskKey)
    ensures GaveFor(notes, notes, k)
  {
    assert KeyOf(Request(k.execution, k.task, 0)) == k && Gave(notes, notes, Request(k.execution, k.task, 0));
  }

  lemma FewerSlots(S: Setup, execution: Id, db: Db, mid: Db, position: int, after: Db)
    requires |OpenSlots(S, mid)| < |OpenSlots(S, db)| && Forward(mid, after)
    ensures Closer(S, execution, db, position, after, position)
  {
    SlotsOnlyClose(S, mid, after);
  }

  /** A new request in hand. */
  method Proceed(store: ProductionStore, provider: Provider, gate: Option<Id>, ghost base: Db, ghost execution: Id, r: Request, policy: Id, ghost position: int)
    returns (stop: Option<Stop>)
    requires store.Valid() && r in store.attempts && Sent(store.Tables(), provider.submitted)
    requires RecordGrows(base, store.Tables()) && Proper(base, store.Tables(), provider.submitted)
    requires |OpenSlots(store.setup, store.Tables())| < |OpenSlots(store.setup, base)|
    modifies store, provider
    ensures store.Valid() && Sent(store.Tables(), provider.submitted) && old(provider.submitted) <= provider.submitted
    ensures Gave(old(provider.Written()), provider.Written(), r)
    ensures RecordGrows(base, store.Tables()) && store.paused.Keys == old(store.paused.Keys) && stop != Some(Quiet)
    ensures stop.None? ==> Closer(store.setup, execution, base, position, store.Tables(), position)
    ensures Proper(base, store.Tables(), provider.submitted)
  {
    ghost var mid, given := store.Tables(), provider.submitted;
    stop := Advance(store, provider, gate, r, policy);
    FewerSlots(store.setup, execution, base, mid, position, store.Tables());
    RecordGrowsTransitive(base, mid, store.Tables());
    ProperTransitive(base, mid, store.Tables(), given, provider.submitted);
  }

  /** A claim refused for its repair round, and what others did since: the task waits. */
  method Hold(store: ProductionStore, ghost base: Db, ghost submitted: seq<Request>, ghost execution: Id, k: TaskKey, ghost position: int)
    requires store.Valid() && Sent(store.Tables(), submitted) && Aside(base, store.Tables()) && Proper(base, store.Tables(), submitted)
    requires k in store.setup.plan && k in base.tasks && Claimable(base.tasks[k].status)
    modifies store
    ensures store.Valid() && Sent(store.Tables(), submitted)
    ensures RecordGrows(base, store.Tables()) && store.paused.Keys == old(store.paused.Keys)
    ensures Closer(store.setup, execution, base, position, store.Tables(), position)
    ensures Proper(base, store.Tables(), submitted)
  {
    ghost var mid := store.Tables();
    assert Bystander(base, mid, k);
    PutToWait(store, execution, k, position);
    StepCloser(store.setup, execution, base, mid, position, store.Tables(), position);
    RecordGrowsTransitive(base, mid, store.Tables());
    ProperMore(mid, store.Tables(), [], submitted);
    ProperTransitive(base, mid, store.Tables(), submitted, submitted);
    SentStays(mid, store.Tables(), submitted);
  }

  method PutToWait(store: ProductionStore, ghost execution: Id, k: TaskKey, ghost position: int)
    requires store.Valid() && k in store.setup.plan && Claimable(store.tasks[k].status)
    modifies store
    ensures store.Valid() && RecordGrows(old(store.Tables()), store.Tables()) && store.paused.Keys == old(store.paused.Keys)
    ensures Moved(store.setup, execution, old(store.Tables()), position, store.Tables(), position)
    ensures Proper(old(store.Tables()), store.Tables(), [])
  {
    ghost var before := store.Tables();
    WaitCloser(store.setup, before, k);
    store.WaitForRepair(k);
    OutboxesAlone(before, store.Tables(), []);
  }

  /** A ready row stays claimable and an active one keeps its live or just cancelled request, whatever others do. */
  lemma RowStays(S: Setup, base: Db, mid: Db, k: TaskKey)
    requires Inv(S, base) && Shaped(S, mid) && Aside(base, mid) && k in S.plan
    ensures k in base.tasks && k in mid.tasks
    ensures Claimable(base.tasks[k].status) ==> Claimable(mid.tasks[k].status)
    ensures Live(base.tasks[k].status) ==>
      mid.tasks[k].request.Some? && mid.tasks[k].request.value in mid.attempts && KeyOf(mid.tasks[k].request.value) == k
  {
    assert Bystander(base, mid, k) && TaskOk(S, base, k);
    if Live(base.tasks[k].status) {
      assert AttemptGrows(base, mid, base.tasks[k].request.value);
    }
  }

  /** A chosen row whose inputs were confirmed, after whatever others did meanwhile: claim it, or go on with its request. */
  method Pursue(store: ProductionStore, provider: Provider, gate: Option<Id>, ghost base: Db, ghost execution: Id, policy: Id, turn: Turn,
                ghost position: int, ghost next: int)
    returns (stop: Option<Stop>)
    requires store.Valid() && Sent(store.Tables(), provider.submitted) && !turn.Rest? && turn.k in store.setup.plan && turn.k in store.tasks
    requires Aside(base, store.Tables())
    requires turn.Start? ==> Claimable(store.tasks[turn.k].status) && next == position
    requires turn.Poll? ==>
      && store.tasks[turn.k].request.Some? && store.tasks[turn.k].request.value in store.attempts && KeyOf(store.tasks[turn.k].request.value) == turn.k
      && Unpolled(store.setup, execution, next) < Unpolled(store.setup, execution, position)
    modifies store, provider
    ensures store.Valid() && Sent(store.Tables(), provider.submitted) && old(provider.submitted) <= provider.submitted
    ensures GaveFor(old(provider.Written()), provider.Written(), turn.k)
    ensures RecordGrows(old(store.Tables()), store.Tables()) && store.paused.Keys == old(store.paused.Keys)
    ensures stop.None? ==> Closer(store.setup, execution, base, position, store.Tables(), next)
    ensures stop != Some(Quiet)
    ensures Proper(old(store.Tables()), store.Tables(), provider.submitted)
  {
    ghost var S, mid := store.setup, store.Tables();
    if turn.Start? {
      stop := Begin(store, provider, gate, execution, turn.k, policy, position);
      if stop.None? {
        AsideCloser(S, execution, base, mid, position, store.Tables(), position);
      }
    } else {
      stop := Advance(store, provider, gate, store.tasks[turn.k].request.value, policy);
      if stop.None? {
        StepCloser(S, execution, base, mid, position, store.Tables(), next);
      }
    }
  }

  /** Where the poll stands after a turn. */
  function NextPosition(S: Setup, turn: Turn, position: int): int
    requires !turn.Rest? && turn.k in S.plan
  {
    if turn.Poll? then S.plan[turn.k].ordinal else position
  }

  lemma TurnTaken(S: Setup, db: Db, execution: Id, turn: Turn, position: int)
    requires Inv(S, db) && !turn.Rest?
    requires turn.Start? ==> ReadyRow(S, db.tasks, execution, turn.k)
    requires turn.Poll? ==> RowMatches(S, db.tasks, execution, LIVE, position, false, turn.k)
    ensures turn.k in S.plan && turn.k in db.tasks && db.tasks[turn.k].remaining == 0
    ensures turn.Start? ==> Claimable(db.tasks[turn.k].status)
    ensures turn.Poll? ==> Live(db.tasks[turn.k].status) && Unpolled(S, execution, NextPosition(S, turn, position)) < Unpolled(S, execution, position)
  {
    if turn.Poll? {
      PolledIsLive(S, db, turn.k);
      var next := NextPosition(S, turn, position);
      assert turn.k in Unpolled(S, execution, position) && turn.k !in Unpolled(S, execution, next);
    }
  }

  /** What a pass leaves on record, its looks, what others did and its pursuit put together. */
  lemma PassDone(S: Setup, db: Db, mid: Db, after: Db, notes: Notes, looked: Notes, later: Notes, k: TaskKey, n: nat, from: nat)
    requires Grounded(S, db, notes, n, from) && from <= |notes.checks| && RecordGrows(db, mid) && RecordGrows(mid, after)
    requires looked == notes.(checks := looked.checks) && notes.checks <= looked.checks && GaveFor(looked, later, k)
    requires InputsVouched(S, db, k, looked.checks, |notes.checks|, |looked.checks|)
    requires Sent(after, later.submitted) && Proper(db, mid, notes.submitted) && Proper(mid, after, later.submitted) && notes.submitted <= later.submitted
    ensures RecordGrows(db, after) && Proper(db, after, later.submitted) && Grounded(S, after, later, n, from)
  {
    RecordGrowsTransitive(db, mid, after);
    InputsVouchedFrom(S, db, k, looked.checks, from, |notes.checks|);
    GroundedPass(S, db, after, notes, looked, later, k, n, from);
    ProperTransitive(db, mid, after, notes.submitted, later.submitted);
  }

  /** A pass that stopped at its looks has left everything else as it was. */
  lemma PassStopped(S: Setup, db: Db, notes: Notes, looked: Notes, k: TaskKey, n: nat, from: nat)
    requires Grounded(S, db, notes, n, from) && from <= |notes.checks| && Sent(db, notes.submitted)
    requires looked == notes.(checks := looked.checks) && notes.checks <= looked.checks
    ensures RecordGrows(db, db) && Proper(db, db, notes.submitted) && Grounded(S, db, looked, n, from)
  {
    Unmoved(db, db);
    GaveNothing(looked, k);
    GroundedPass(S, db, db, notes, looked, looked, k, n, from);
    OutboxesAlone(db, db, notes.submitted);
  }

  /** What follows the choice of a row. */
  method Act(store: ProductionStore, provider: Provider, gate: Option<Id>, execution: Id, policy: Id, turn: Turn, position: int,
             ghost n: nat, ghost from: nat)
    returns (stop: Option<Stop>, next: int)
    requires store.Valid() && execution in store.paused && Sent(store.Tables(), provider.submitted)
    requires turn.Start? ==> ReadyRow(store.setup, store.tasks, execution, turn.k)
    requires turn.Poll? ==> RowMatches(store.setup, store.tasks, execution, LIVE, position, false, turn.k)
    requires !turn.Rest?
    requires Grounded(store.setup, store.Tables(), provider.Written(), n, from) && from <= |provider.checks|
    modifies store, provider
    ensures Grounded(store.setup, store.Tables(), provider.Written(), n, from) && from <= |provider.checks|
    ensures store.Valid() && Sent(store.Tables(), provider.submitted) && old(provider.submitted) <= provider.submitted
    ensures RecordGrows(old(store.Tables()), store.Tables()) && execution in store.paused
    ensures stop.None? ==> Closer(store.setup, execution, old(store.Tables()), position, store.Tables(), next)
    ensures stop != Some(Quiet)
    ensures Proper(old(store.Tables()), store.Tables(), provider.submitted)
  {
    ghost var S, before, notes := store.setup, store.Tables(), provider.Written();
    TurnTaken(S, before, execution, turn, position);
    next := NextPosition(store.setup, turn, position);
    stop := CheckInputs(store, provider, turn.k);
    ghost var looked := provider.Written();
    if stop.Some? {
      PassStopped(S, before, notes, looked, turn.k, n, from);
      return;
    }
    Others(store);
    ghost var mid := store.Tables();
    ProperMore(before, mid, [], notes.submitted);
    SentStays(before, mid, notes.submitted);
    RowStays(S, before, mid, turn.k);
    stop := Pursue(store, provider, gate, before, execution, policy, turn, position, next);
    PassDone(S, before, mid, store.Tables(), notes, looked, provider.Written(), turn.k, n, from);
  }

  /** One pass of the loop body. */
  method Iterate(store: ProductionStore, provider: Provider, gate: Option<Id>, execution: Id, policy: Id, position: int,
                 ghost n: nat, ghost from: nat)
    returns (stop: Option<Stop>, next: int)
    requires store.Valid() && execution in store.paused && Sent(store.Tables(), provider.submitted)
    requires Grounded(store.setup, store.Tables(), provider.Written(), n, from) && from <= |provider.checks|
    modifies store, provider
    ensures Grounded(store.setup, store.Tables(), provider.Written(), n, from) && from <= |provider.checks|
    ensures store.Valid() && Sent(store.Tables(), provider.submitted) && old(provider.submitted) <= provider.submitted
    ensures RecordGrows(old(store.Tables()), store.Tables()) && execution in store.paused
    ensures stop.None? ==> Closer(store.setup, execution, old(store.Tables()), position, store.Tables(), next)
    ensures stop == Some(Quiet) ==> Stuck(store.setup, store.Tables(), execution, next)
    ensures Proper(old(store.Tables()), store.Tables(), provider.submitted)
  {
    ghost var S, before := store.setup, store.Tables();
    Others(store);
    ghost var mid, given := store.Tables(), provider.submitted;
    ProperMore(before, mid, [], given);
    SentStays(before, mid, provider.submitted);
    GroundedStays(S, before, mid, provider.Written(), n, from);
    var late: bool := *;
    if late {
      return Some(Late), position;
    }
    if store.paused[execution] {
      return Some(Paused), position;
    }
    var turn := Select(store, execution, position);
    if turn.Rest? {
      return Some(Quiet), position;
    }
    stop, next := Act(store, provider, gate, execution, policy, turn, position, n, from);
    RecordGrowsTransitive(before, mid, store.Tables());
    ProperTransitive(before, mid, store.Tables(), given, provider.submitted);
    if stop.None? {
      AsideCloser(S, execution, before, mid, position, store.Tables(), next);
    }
  }

  /**
   The batch: wake waiting repairs, then iterate. No iteration limit and no deadline is needed for it to end. Of the
   requests that leave "prepared" meanwhile each was submitted, except where a stop was confirmed first; and none is
   submitted before, in this batch, each of its inputs was looked at again and confirmed.
   */
  method RunBatch(store: ProductionStore, provider: Provider, gate: Option<Id>, execution: Id, policy: Id)
    returns (stop: Stop, position: int, ghost woken: Db)
    requires store.Valid() && execution in store.paused && Sent(store.Tables(), provider.submitted)
    modifies store, provider
    ensures store.Valid() && Sent(store.Tables(), provider.submitted) && old(provider.submitted) <= provider.submitted
    ensures woken == WakeRepairs(old(store.Tables()), execution) && RecordGrows(woken, store.Tables())
    ensures RecordGrows(old(store.Tables()), store.Tables())
    ensures stop == Quiet ==> Stuck(store.setup, store.Tables(), execution, position)
    ensures Proper(old(store.Tables()), store.Tables(), provider.submitted)
    ensures Grounded(store.setup, store.Tables(), provider.Written(), |old(provider.submitted)|, |old(provider.checks)|)
  {
    ghost var S, start, n, from := store.setup, store.Tables(), |provider.submitted|, |provider.checks|;
    store.Wake(execution);
    woken := store.Tables();
    Unmoved(start, woken);
    Unmoved(woken, woken);
    OutboxesAlone(start, store.Tables(), provider.submitted);
    SentStays(start, store.Tables(), provider.submitted);
    position := -1;
    ghost var m := MeasureOf(S, execution, store.Tables(), position);
    while true
      invariant store.Valid() && execution in store.paused && Sent(store.Tables(), provider.submitted)
      invariant old(provider.submitted) <= provider.submitted && RecordGrows(start, store.Tables()) && RecordGrows(woken, store.Tables())
      invariant Proper(start, store.Tables(), provider.submitted)
      invariant Grounded(S, store.Tables(), provider.Written(), n, from) && from <= |provider.checks|
      invariant m == MeasureOf(S, execution, store.Tables(), position)
      decreases m.slots, m.open, m.live, m.unpolled, m.claimable
    {
      ghost var before, given := store.Tables(), provider.submitted;
      var ended: Option<Stop>;
      ended, position := Iterate(store, provider, gate, execution, policy, position, n, from);
      RecordGrowsTransitive(start, before, store.Tables());
      RecordGrowsTransitive(woken, before, store.Tables());
      ProperTransitive(start, before, store.Tables(), given, provider.submitted);
      if ended.Some? {
        return ended.value, position, woken;
      }
      m := MeasureOf(S, execution, store.Tables(), position);
    }
  }

  /** In an acyclic plan the loop never gives up on work it could do: what is left waits for the provider or a repair round. */
  lemma QuietMeansWaiting(S: Setup, db: Db, execution: Id, position: int)
    requires Inv(S, db) && Stuck(S, db, execution, position) && !HasCycle(Children(S))
    requires exists k :: k in S.plan && k.execution == execution && db.tasks[k].accepted.None?
    ensures exists k :: && k in S.plan && k.execution == execution && db.tasks[k].accepted.None?
                        && (db.tasks[k].status == RepairWait || (Live(db.tasks[k].status) && S.plan[k].ordinal <= position))
  {
    var open := set k | k in S.plan && k.execution == execution && db.tasks[k].accepted.None?;
    if forall k :: k in open ==> Claimable(db.tasks[k].status) && db.tasks[k].remaining != 0 {
      forall k | k in open ensures HasParent(Children(S), open, k) {
        WaitsForParent(S, db, open, k);
      }
      var k :| k in S.plan && k.execution == execution && db.tasks[k].accepted.None?;
      assert k in open;
      StuckHasCycle(Children(S), open);
    }
  }

  lemma WaitsForParent(S: Setup, db: Db, open: set<TaskKey>, k: TaskKey)
    requires Inv(S, db) && k in S.plan && db.tasks[k].remaining != 0
    requires forall j :: j in S.plan && j.execution == k.execution && db.tasks[j].accepted.None? ==> j in open
    ensures HasParent(Children(S), open, k)
  {
    assert CountOk(S, db.tasks, k) && DocOk(S, k);
    var waiting := UnacceptedParents(S, db.tasks, k);
    assert |waiting| != 0;
    var p :| p in waiting;
    var parent := TaskKey(k.execution, p);
    assert parent in open && Step(Children(S), parent, k);
  }
}
