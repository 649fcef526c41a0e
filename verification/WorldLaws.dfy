/** What replay makes of the declared changes: each fact has the value it was last given, and only if every change was due and allowed. */
module WorldLaws {
  import opened Wrappers
  import opened Ids
  import opened WorldMotion
  import opened WorldFacts

  // ---------------------------------------------------------------------------------------------
  // A list of changes
  // ---------------------------------------------------------------------------------------------

  /** `k` is the last change of this fact. */
  predicate LastOf(changes: seq<Change>, fact: Id, k: nat) {
    k < |changes| && changes[k].fact == fact && forall j :: k < j < |changes| ==> changes[j].fact != fact
  }

  predicate Untouched(changes: seq<Change>, fact: Id) {
    forall c :: c in changes ==> c.fact != fact
  }

  /** What the fact holds after the changes: what it was last given, or what it held from the start. */
  ghost predicate Holds(was: Value, changes: seq<Change>, fact: Id, value: Value) {
    if Untouched(changes, fact) then value == was else exists k: nat :: LastOf(changes, fact, k) && value == changes[k].after
  }

  lemma HoldsMore(was: Value, changes: seq<Change>, c: Change, fact: Id, value: Value)
    requires Holds(was, changes, fact, value)
    ensures Holds(was, changes + [c], fact, if c.fact == fact then c.after else value)
  {
    var more := changes + [c];
    assert c in more && forall b :: b in more <==> b in changes || b == c;
    if c.fact == fact {
      assert LastOf(more, fact, |changes|);
    } else if !Untouched(changes, fact) {
      var k: nat :| LastOf(changes, fact, k) && value == changes[k].after;
      assert LastOf(more, fact, k);
    }
  }

  lemma HoldsOne(was: Value, changes: seq<Change>, fact: Id, v: Value, u: Value)
    requires Holds(was, changes, fact, v) && Holds(was, changes, fact, u)
    ensures v == u
  {
    if !Untouched(changes, fact) {
      var k: nat :| LastOf(changes, fact, k) && v == changes[k].after;
      var j: nat :| LastOf(changes, fact, j) && u == changes[j].after;
      assert k == j;
    }
  }

  /** The change is of a known, changeable fact, and was declared against what the fact holds by then. */
  ghost predicate Applies(facts: map<Id, Fact>, changes: seq<Change>, k: nat)
    requires k < |changes|
  {
    var c := changes[k];
    c.fact in facts && facts[c.fact].changeable && Holds(facts[c.fact].value, changes[..k], c.fact, c.before)
  }

  ghost predicate AllApply(facts: map<Id, Fact>, changes: seq<Change>) {
    forall k {:trigger Applies(facts, changes, k)} :: 0 <= k < |changes| ==> Applies(facts, changes, k)
  }

  lemma AllApplyLess(facts: map<Id, Fact>, changes: seq<Change>)
    requires changes != []
    ensures AllApply(facts, changes) <==> AllApply(facts, changes[..|changes| - 1]) && Applies(facts, changes, |changes| - 1)
  {
    var front := changes[..|changes| - 1];
    forall k: nat | k < |front| ensures Applies(facts, changes, k) <==> Applies(facts, front, k) {
      assert front[..k] == changes[..k];
    }
  }

  /** A list of changes goes through exactly when each applies; then every fact is the same but for the value it was last given. */
  lemma {:induction false} ChangedWhen(facts: map<Id, Fact>, changes: seq<Change>)
    ensures Changed(facts, changes).Some? <==> AllApply(facts, changes)
    ensures Changed(facts, changes).Some? ==>
      var after := Changed(facts, changes).value;
      && after.Keys == facts.Keys
      && forall i :: i in facts ==> after[i] == facts[i].(value := after[i].value) && Holds(facts[i].value, changes, i, after[i].value)
    decreases |changes|
  {
    if changes != [] {
      var front, c := changes[..|changes| - 1], changes[|changes| - 1];
      assert changes == front + [c];
      ChangedWhen(facts, front);
      AllApplyLess(facts, changes);
      if Changed(facts, front).Some? {
        OneMore(facts, front, c, Changed(facts, front).value);
      }
    }
  }

  lemma OneMore(facts: map<Id, Fact>, front: seq<Change>, c: Change, mid: map<Id, Fact>)
    requires mid.Keys == facts.Keys
    requires forall i :: i in facts ==> mid[i] == facts[i].(value := mid[i].value) && Holds(facts[i].value, front, i, mid[i].value)
    ensures Applies(facts, front + [c], |front|) <==> c.fact in mid && mid[c.fact].changeable && mid[c.fact].value == c.before
    ensures forall i :: i in facts ==> Holds(facts[i].value, front + [c], i, if c.fact == i then c.after else mid[i].value)
  {
    assert (front + [c])[..|front|] == front;
    if c.fact in facts && Holds(facts[c.fact].value, front, c.fact, c.before) {
      HoldsOne(facts[c.fact].value, front, c.fact, c.before, mid[c.fact].value);
    }
    forall i | i in facts ensures Holds(facts[i].value, front + [c], i, if c.fact == i then c.after else mid[i].value) {
      HoldsMore(facts[i].value, front, c, i, mid[i].value);
    }
  }

  // ---------------------------------------------------------------------------------------------
  // Replay
  // ---------------------------------------------------------------------------------------------

  /** All changes of the first events, in order. */
  function ChangesOf(events: seq<Event>, n: nat): seq<Change>
    requires n <= |events|
  {
    if n == 0 then [] else ChangesOf(events, n - 1) + events[n - 1].changes
  }

  lemma {:induction false} ChangedJoins(facts: map<Id, Fact>, a: seq<Change>, b: seq<Change>)
    ensures Changed(facts, a + b) == match Changed(facts, a) case None => None case Some(mid) => Changed(mid, b)
    decreases |b|
  {
    if b == [] {
      assert a + b == a;
    } else {
      assert (a + b)[..|a + b| - 1] == a + b[..|b| - 1];
      ChangedJoins(facts, a, b[..|b| - 1]);
    }
  }

  /** Every state on the way to the n-th event is well-formed. */
  ghost predicate GoodUpTo(facts: map<Id, Fact>, known: set<Id>, events: seq<Event>, n: nat)
    requires n <= |events|
  {
    forall m: nat {:trigger ChangesOf(events, m)} :: m <= n ==>
      Changed(facts, ChangesOf(events, m)).Some? && FactsOk(Changed(facts, ChangesOf(events, m)).value, known)
  }

  /** Replay gives the facts with all changes of the due events, exactly when those apply and leave no bad state on the way. */
  lemma {:induction false} ReplayedWhen(facts: map<Id, Fact>, known: set<Id>, events: seq<Event>, n: nat)
    requires n <= |events|
    ensures After(facts, known, events, n).Some? <==> GoodUpTo(facts, known, events, n)
    ensures After(facts, known, events, n).Some? ==> After(facts, known, events, n) == Changed(facts, ChangesOf(events, n))
  {
    if n == 0 {
      assert ChangesOf(events, 0) == [];
    } else {
      ReplayedWhen(facts, known, events, n - 1);
      ChangedJoins(facts, ChangesOf(events, n - 1), events[n - 1].changes);
      assert ChangesOf(events, n) == ChangesOf(events, n - 1) + events[n - 1].changes;
      if After(facts, known, events, n).Some? {
        forall m: nat | m <= n
          ensures Changed(facts, ChangesOf(events, m)).Some? && FactsOk(Changed(facts, ChangesOf(events, m)).value, known)
        {
          assert m == n || GoodUpTo(facts, known, events, n - 1);
        }
      }
    }
  }

  /** So at every frame each fact holds what an event up to that frame last gave it, or what it held from the start. */
  lemma ValueAtFrame(facts: map<Id, Fact>, known: set<Id>, events: seq<Event>, frame: int, i: Id)
    requires After(facts, known, events, Due(events, frame)).Some? && i in facts
    ensures var after, changes := After(facts, known, events, Due(events, frame)).value, ChangesOf(events, Due(events, frame));
      i in after && after[i] == facts[i].(value := after[i].value) && Holds(facts[i].value, changes, i, after[i].value) && AllApply(facts, changes)
  {
    ReplayedWhen(facts, known, events, Due(events, frame));
    ChangedWhen(facts, ChangesOf(events, Due(events, frame)));
  }

  // ---------------------------------------------------------------------------------------------
  // What validation lets through
  // ---------------------------------------------------------------------------------------------

  /** Each motion starts within the film after the one before has ended, where that one ended, with a frame for every anchor. */
  ghost predicate OneAfterAnother(anchors: map<Id, Vec>, initial: Id, motions: seq<Motion>, count: int) {
    && initial in anchors
    && (forall i :: 0 <= i < |motions| ==>
          && |motions[i].path| > 1 && (forall a :: a in motions[i].path ==> a in anchors)
          && 0 <= motions[i].start < count && 0 < motions[i].end <= count && motions[i].start + |motions[i].path| <= motions[i].end)
    && (motions != [] ==> motions[0].path[0] == initial)
    && (forall i :: 0 < i < |motions| ==>
          motions[i - 1].end <= motions[i].start && motions[i].path[0] == motions[i - 1].path[|motions[i - 1].path| - 1])
  }

  lemma MotionsMean(anchors: map<Id, Vec>, initial: Id, motions: seq<Motion>, count: int)
    ensures MotionsOk(anchors, initial, motions, count) <==> OneAfterAnother(anchors, initial, motions, count)
  {
    if MotionsOk(anchors, initial, motions, count) {
      MotionsFollow(anchors, initial, motions, count);
    }
    if OneAfterAnother(anchors, initial, motions, count) {
      forall m | m in motions ensures |m.path| >= 2 {
        var i :| 0 <= i < |motions| && motions[i] == m;
      }
      forall i: nat | i < |motions| ensures MotionOk(anchors, initial, motions, count, i) {
      }
    }
  }

  lemma MotionsFollow(anchors: map<Id, Vec>, initial: Id, motions: seq<Motion>, count: int)
    requires MotionsOk(anchors, initial, motions, count)
    ensures OneAfterAnother(anchors, initial, motions, count)
  {
    forall i: nat | i < |motions| ensures |motions[i].path| >= 2 && MotionOk(anchors, initial, motions, count, i) {
      assert motions[i] in motions;
    }
  }

  /** A fact passes when an owner or attachment is an entity or none, visibility a flag, an offset a vector, and a path offset fixed. */
  lemma FactMeans(f: Fact, known: set<Id>)
    ensures FactOk(f, known) <==> match f.attribute
      case Owner => f.value == Nothing || (f.value.Ref? && f.value.id in known)
      case Attachment => f.value == Nothing || (f.value.Ref? && f.value.id in known)
      case Visible => f.value.Flag?
      case AttachmentOffset => f.value.Vector?
      case PathOffset => f.value.Vector? && !f.changeable
      case Named(_) => true
  {
  }
}
