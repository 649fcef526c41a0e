/**
 Facts of the world of src/fsf/production/memory.py: replay of declared events, attachment links without circles, and
 the attached entities' positions, memoised in any order.
 */
module WorldFacts {
  import opened Wrappers
  import opened Ids
  import opened WorldMotion

  datatype Attribute = Owner | Attachment | Visible | AttachmentOffset | PathOffset | Named(name: Id)
  datatype Value = Nothing | Ref(id: Id) | Flag(b: bool) | Vector(v: Vec) | Other(id: Id)

  datatype Fact = Fact(entity: Id, attribute: Attribute, changeable: bool, value: Value)

  /** `before` stands for the digest the change was declared against. */
  datatype Change = Change(fact: Id, before: Value, after: Value)
  datatype Event = Event(frame: int, changes: seq<Change>)

  // ---------------------------------------------------------------------------------------------
  // Attachment links
  // ---------------------------------------------------------------------------------------------

  /** `n` links lead from an entity to one that hangs on nothing. */
  ghost predicate Hangs(links: map<Id, Id>, e: Id, n: nat) {
    if n == 0 then e !in links else e in links && Hangs(links, links[e], n - 1)
  }

  ghost predicate Grounded(links: map<Id, Id>, e: Id) {
    exists n: nat :: Hangs(links, e, n)
  }

  /** Following links from anywhere ends. */
  ghost predicate NoCircle(links: map<Id, Id>) {
    forall e :: e in links ==> Grounded(links, e)
  }

  lemma {:induction false} HangsOnce(links: map<Id, Id>, e: Id, n: nat, m: nat)
    requires Hangs(links, e, n) && Hangs(links, e, m)
    ensures n == m
  {
    if n > 0 && m > 0 {
      HangsOnce(links, links[e], n - 1, m - 1);
    }
  }

  /** The entity `i` links up. */
  function Up(links: map<Id, Id>, e: Id, i: nat): Id {
    if i == 0 then e
    else
      var below := Up(links, e, i - 1);
      if below in links then links[below] else below
  }

  lemma {:induction false} HangsFrom(links: map<Id, Id>, e: Id, n: nat, i: nat)
    requires Hangs(links, e, n) && forall j: nat :: j < i ==> Up(links, e, j) in links
    ensures i <= n && Hangs(links, Up(links, e, i), n - i)
  {
    if i > 0 {
      HangsFrom(links, e, n, i - 1);
      assert Up(links, e, i - 1) in links;
    }
  }

  lemma {:induction false} GroundedFrom(links: map<Id, Id>, e: Id, i: nat)
    requires (forall j: nat :: j < i ==> Up(links, e, j) in links) && Grounded(links, Up(links, e, i))
    ensures Grounded(links, e)
  {
    if i > 0 {
      var x := Up(links, e, i - 1);
      assert x in links && Up(links, e, i) == links[x];
      var n: nat :| Hangs(links, links[x], n);
      assert Hangs(links, x, n + 1);
      GroundedFrom(links, e, i - 1);
    }
  }

  lemma Circles(links: map<Id, Id>, e: Id, j: nat, i: nat)
    requires j < i && Up(links, e, j) == Up(links, e, i) && forall k: nat :: k < i ==> Up(links, e, k) in links
    ensures !Grounded(links, e)
  {
    if Grounded(links, e) {
      var n: nat :| Hangs(links, e, n);
      HangsFrom(links, e, n, i);
      HangsFrom(links, e, n, j);
      HangsOnce(links, Up(links, e, i), n - i, n - j);
    }
  }

  /** Nodes seen on a walk, each with the step it was seen at. */
  ghost predicate Trodden(links: map<Id, Id>, e: Id, seen: set<Id>, at: map<Id, nat>, i: nat) {
    && seen <= links.Keys && at.Keys == seen
    && (forall k: nat :: k < i ==> Up(links, e, k) in links)
    && (forall x :: x in at ==> at[x] < i && Up(links, e, at[x]) == x)
  }

  lemma OneStep(links: map<Id, Id>, e: Id, seen: set<Id>, at: map<Id, nat>, i: nat, node: Id)
    requires Trodden(links, e, seen, at, i) && node == Up(links, e, i) && node in links && node !in seen
    ensures Trodden(links, e, seen + {node}, at[node := i], i + 1) && links[node] == Up(links, e, i + 1)
    ensures |links.Keys - (seen + {node})| < |links.Keys - seen|
  {
    assert links.Keys - seen == (links.Keys - (seen + {node})) + {node};
  }

  lemma MetAgain(links: map<Id, Id>, e: Id, seen: set<Id>, at: map<Id, nat>, i: nat, node: Id)
    requires Trodden(links, e, seen, at, i) && node == Up(links, e, i) && node in seen
    ensures !Grounded(links, e)
  {
    Circles(links, e, at[node], i);
  }

  lemma WayEnds(links: map<Id, Id>, e: Id, seen: set<Id>, at: map<Id, nat>, i: nat, node: Id)
    requires Trodden(links, e, seen, at, i) && node == Up(links, e, i) && node !in links
    ensures Grounded(links, e)
  {
    assert Hangs(links, node, 0);
    GroundedFrom(links, e, i);
  }

  /** The walk with a set of seen nodes: a node met twice is on a circle. */
  method Walk(links: map<Id, Id>, e: Id) returns (ok: bool)
    ensures ok <==> Grounded(links, e)
  {
    var seen: set<Id>, node := {}, e;
    ghost var i: nat, at: map<Id, nat> := 0, map[];
    while node in links
      invariant node == Up(links, e, i) && Trodden(links, e, seen, at, i)
      decreases |links.Keys - seen|
    {
      if node in seen {
        MetAgain(links, e, seen, at, i, node);
        return false;
      }
      OneStep(links, e, seen, at, i, node);
      at, i := at[node := i], i + 1;
      seen := seen + {node};
      node := links[node];
    }
    WayEnds(links, e, seen, at, i, node);
    return true;
  }

  // ---------------------------------------------------------------------------------------------
  // _attachments
  // ---------------------------------------------------------------------------------------------

  predicate FactOk(f: Fact, known: set<Id>) {
    && (f.attribute in {Owner, Attachment} ==> f.value.Nothing? || (f.value.Ref? && f.value.id in known))
    && (f.attribute == Visible ==> f.value.Flag?)
    && (f.attribute in {AttachmentOffset, PathOffset} ==> f.value.Vector?)
    && (f.attribute == PathOffset ==> !f.changeable)
  }

  /** One fact per entity and attribute. */
  ghost predicate Keyed(facts: map<Id, Fact>) {
    forall i, j :: i in facts && j in facts && facts[i].entity == facts[j].entity && facts[i].attribute == facts[j].attribute ==> i == j
  }

  predicate Attaches(f: Fact) {
    f.attribute == Attachment && f.value.Ref?
  }

  ghost predicate LinksOf(facts: map<Id, Fact>, links: map<Id, Id>) {
    && (forall i :: i in facts && Attaches(facts[i]) ==> facts[i].entity in links && links[facts[i].entity] == facts[i].value.id)
    && (forall e :: e in links ==> exists i :: i in facts && Attaches(facts[i]) && facts[i].entity == e)
  }

  ghost predicate FactsOk(facts: map<Id, Fact>, known: set<Id>) {
    (forall i :: i in facts ==> FactOk(facts[i], known)) && forall links :: LinksOf(facts, links) ==> NoCircle(links)
  }

  lemma LinksUnique(facts: map<Id, Fact>, a: map<Id, Id>, b: map<Id, Id>)
    requires LinksOf(facts, a) && LinksOf(facts, b)
    ensures a == b
  {
    forall e | e in a ensures e in b && a[e] == b[e] {
      var i :| i in facts && Attaches(facts[i]) && facts[i].entity == e;
    }
    forall e | e in b ensures e in a {
      var i :| i in facts && Attaches(facts[i]) && facts[i].entity == e;
    }
  }

  /** Collect the links of well-formed facts and walk each. */
  method Attachments(facts: map<Id, Fact>, known: set<Id>) returns (ok: bool, links: map<Id, Id>)
    requires Keyed(facts)
    ensures ok <==> FactsOk(facts, known)
    ensures ok ==> LinksOf(facts, links) && NoCircle(links)
  {
    links := map[];
    var rest := facts.Keys;
    while rest != {}
      invariant rest <= facts.Keys
      invariant forall i :: i in facts.Keys - rest ==> FactOk(facts[i], known)
      invariant forall i :: i in facts.Keys - rest && Attaches(facts[i]) ==> facts[i].entity in links && links[facts[i].entity] == facts[i].value.id
      invariant forall e :: e in links ==> exists i :: i in facts.Keys - rest && Attaches(facts[i]) && facts[i].entity == e
      decreases rest
    {
      var i :| i in rest;
      if !FactOk(facts[i], known) {
        return false, links;
      }
      if Attaches(facts[i]) {
        links := links[facts[i].entity := facts[i].value.id];
      }
      rest := rest - {i};
    }
    assert LinksOf(facts, links);
    var starts := links.Keys;
    while starts != {}
      invariant starts <= links.Keys
      invariant forall e :: e in links.Keys - starts ==> Grounded(links, e)
      decreases starts
    {
      var e :| e in starts;
      ok := Walk(links, e);
      if !ok {
        return false, links;
      }
      starts := starts - {e};
    }
    forall other | LinksOf(facts, other) ensures NoCircle(other) {
      LinksUnique(facts, links, other);
    }
    return true, links;
  }

  // ---------------------------------------------------------------------------------------------
  // _replay
  // ---------------------------------------------------------------------------------------------

  function Changed(facts: map<Id, Fact>, changes: seq<Change>): Option<map<Id, Fact>> {
    if changes == [] then Some(facts)
    else match Changed(facts, changes[..|changes| - 1])
      case None => None
      case Some(mid) =>
        var c := changes[|changes| - 1];
        if c.fact !in mid || !mid[c.fact].changeable || mid[c.fact].value != c.before then None
        else Some(mid[c.fact := mid[c.fact].(value := c.after)])
  }

  /** The facts after the first `n` events, if the declared changes apply and no state on the way is bad. */
  ghost function After(facts: map<Id, Fact>, known: set<Id>, events: seq<Event>, n: nat): Option<map<Id, Fact>>
    requires n <= |events|
  {
    if n == 0 then (if FactsOk(facts, known) then Some(facts) else None)
    else match After(facts, known, events, n - 1)
      case None => None
      case Some(mid) =>
        match Changed(mid, events[n - 1].changes)
        case None => None
        case Some(next) => if FactsOk(next, known) then Some(next) else None
  }

  /** Leading events no later than a frame. */
  function Due(events: seq<Event>, through: int): (n: nat)
    ensures n <= |events| && (forall i :: 0 <= i < n ==> events[i].frame <= through) && (n < |events| ==> events[n].frame > through)
  {
    DueFrom(events, through, 0)
  }

  function DueFrom(events: seq<Event>, through: int, k: nat): (n: nat)
    requires k <= |events| && forall i :: 0 <= i < k ==> events[i].frame <= through
    ensures n <= |events| && (forall i :: 0 <= i < n ==> events[i].frame <= through) && (n < |events| ==> events[n].frame > through)
    decreases |events| - k
  {
    if k == |events| || events[k].frame > through then k else DueFrom(events, through, k + 1)
  }

  lemma {:induction false} ChangedKeyed(facts: map<Id, Fact>, changes: seq<Change>)
    requires Keyed(facts) && Changed(facts, changes).Some?
    ensures Keyed(Changed(facts, changes).value)
    decreases |changes|
  {
    if changes != [] {
      ChangedKeyed(facts, changes[..|changes| - 1]);
    }
  }

  method ApplyChanges(facts: map<Id, Fact>, changes: seq<Change>) returns (r: Option<map<Id, Fact>>)
    ensures r == Changed(facts, changes)
  {
    var state := facts;
    for i := 0 to |changes|
      invariant Changed(facts, changes[..i]) == Some(state)
    {
      assert changes[..i + 1][..i] == changes[..i];
      var c := changes[i];
      if c.fact !in state || !state[c.fact].changeable || state[c.fact].value != c.before {
        assert Changed(facts, changes[..i + 1]).None?;
        Sticks(facts, changes, i + 1);
        return None;
      }
      state := state[c.fact := state[c.fact].(value := c.after)];
    }
    assert changes[..|changes|] == changes;
    return Some(state);
  }

  lemma {:induction false} Sticks(facts: map<Id, Fact>, changes: seq<Change>, k: nat)
    requires k <= |changes| && Changed(facts, changes[..k]).None?
    ensures Changed(facts, changes).None?
    decreases |changes|
  {
    if k == |changes| {
      assert changes[..k] == changes;
    } else {
      assert changes[..|changes| - 1][..k] == changes[..k];
      Sticks(facts, changes[..|changes| - 1], k);
    }
  }

  method Replay(facts: map<Id, Fact>, known: set<Id>, events: seq<Event>, through: int) returns (r: Option<map<Id, Fact>>)
    requires Keyed(facts)
    ensures r == After(facts, known, events, Due(events, through))
  {
    var ok, links := Attachments(facts, known);
    if !ok {
      FailsOn(facts, known, events, 0, Due(events, through));
      return None;
    }
    var state, n := facts, 0;
    while n < |events| && events[n].frame <= through
      invariant 0 <= n <= Due(events, through) && After(facts, known, events, n) == Some(state) && Keyed(state)
    {
      var next := ApplyChanges(state, events[n].changes);
      if next.None? {
        FailsOn(facts, known, events, n + 1, Due(events, through));
        return None;
      }
      ChangedKeyed(state, events[n].changes);
      ok, links := Attachments(next.value, known);
      if !ok {
        FailsOn(facts, known, events, n + 1, Due(events, through));
        return None;
      }
      state, n := next.value, n + 1;
    }
    return Some(state);
  }

  lemma {:induction false} FailsOn(facts: map<Id, Fact>, known: set<Id>, events: seq<Event>, k: nat, n: nat)
    requires k <= n <= |events| && After(facts, known, events, k).None?
    ensures After(facts, known, events, n).None?
    decreases n
  {
    if k < n {
      FailsOn(facts, known, events, k, n - 1);
    }
  }

  /** A world whose replay succeeds to the last frame can be replayed to every frame. */
  lemma ReplayNeverFails(facts: map<Id, Fact>, known: set<Id>, events: seq<Event>, last: int, frame: int)
    requires After(facts, known, events, Due(events, last)).Some? && frame <= last
    ensures After(facts, known, events, Due(events, frame)).Some?
  {
    var n, k := Due(events, last), Due(events, frame);
    assert k <= n;
    if After(facts, known, events, k).None? {
      FailsOn(facts, known, events, k, n);
    }
  }

  // ---------------------------------------------------------------------------------------------
  // Positions of attached entities
  // ---------------------------------------------------------------------------------------------

  function Plus(a: Vec, b: Vec): Vec {
    Vec(a.x + b.x, a.y + b.y, a.z + b.z)
  }

  function OffsetOf(offsets: map<Id, Vec>, e: Id): Vec {
    if e in offsets then offsets[e] else Vec(0.0, 0.0, 0.0)
  }

  /** The position of what an entity finally hangs on, plus every offset on the way. */
  ghost function Hung(links: map<Id, Id>, base: map<Id, Vec>, offsets: map<Id, Vec>, e: Id, n: nat): Vec
    requires Hangs(links, e, n) && Sited(links, base) && e in base
  {
    if n == 0 then base[e] else Plus(Hung(links, base, offsets, links[e], n - 1), OffsetOf(offsets, e))
  }

  /** Every linked entity and every one it hangs on has a position. */
  ghost predicate Sited(links: map<Id, Id>, base: map<Id, Vec>) {
    forall e :: e in links ==> e in base && links[e] in base
  }

  /** Done entities are where they finally belong, the others still where they were. */
  ghost predicate Settled(links: map<Id, Id>, base: map<Id, Vec>, offsets: map<Id, Vec>, positions: map<Id, Vec>, done: set<Id>, e: Id) {
    e in base ==> e in positions && (if e in done then AtHome(links, base, offsets, e, positions[e]) else positions[e] == base[e])
  }

  ghost predicate AtHome(links: map<Id, Id>, base: map<Id, Vec>, offsets: map<Id, Vec>, e: Id, p: Vec)
    requires e in base
  {
    Sited(links, base) && exists n: nat :: Hangs(links, e, n) && p == Hung(links, base, offsets, e, n)
  }

  ghost predicate AllSettled(links: map<Id, Id>, base: map<Id, Vec>, offsets: map<Id, Vec>, positions: map<Id, Vec>, done: set<Id>) {
    && positions.Keys == base.Keys
    && forall e {:trigger Settled(links, base, offsets, positions, done, e)} :: Settled(links, base, offsets, positions, done, e)
  }

  /** `attach`, memoised: refused where an attached entity is also moving on its own. */
  method Attach(links: map<Id, Id>, base: map<Id, Vec>, offsets: map<Id, Vec>, moving: set<Id>,
                positions: map<Id, Vec>, done: set<Id>, e: Id, ghost n: nat)
    returns (ok: bool, after: map<Id, Vec>, finished: set<Id>)
    requires Sited(links, base) && e in base && Hangs(links, e, n) && AllSettled(links, base, offsets, positions, done)
    ensures ok ==> AllSettled(links, base, offsets, after, finished) && done <= finished && e in finished
    ensures ok ==> forall x :: x in finished - done && x in links ==> x !in moving
    ensures !ok ==> exists x :: x in links && x in moving
    decreases n
  {
    after, finished := positions, done;
    if e in done {
      return true, after, finished;
    }
    if e in links {
      if e in moving {
        return false, after, finished;
      }
      ok, after, finished := Attach(links, base, offsets, moving, positions, done, links[e], n - 1);
      if !ok {
        return false, after, finished;
      }
      assert Settled(links, base, offsets, after, finished, links[e]);
      Joined(links, base, offsets, e, after[links[e]], n);
      var p := Plus(after[links[e]], OffsetOf(offsets, e));
      Resettled(links, base, offsets, after, finished, e, p);
      after, finished := after[e := p], finished + {e};
    } else {
      assert Settled(links, base, offsets, positions, done, e);
      assert Hung(links, base, offsets, e, 0) == base[e];
      Resettled(links, base, offsets, after, finished, e, base[e]);
      assert after[e := base[e]] == after;
      finished := finished + {e};
    }
    return true, after, finished;
  }

  lemma Joined(links: map<Id, Id>, base: map<Id, Vec>, offsets: map<Id, Vec>, e: Id, p: Vec, n: nat)
    requires Sited(links, base) && e in links && Hangs(links, e, n) && AtHome(links, base, offsets, links[e], p)
    ensures AtHome(links, base, offsets, e, Plus(p, OffsetOf(offsets, e)))
  {
    var k: nat :| Hangs(links, links[e], k) && p == Hung(links, base, offsets, links[e], k);
    assert Hangs(links, e, k + 1);
    assert Plus(p, OffsetOf(offsets, e)) == Hung(links, base, offsets, e, k + 1);
  }

  lemma Resettled(links: map<Id, Id>, base: map<Id, Vec>, offsets: map<Id, Vec>, positions: map<Id, Vec>, done: set<Id>, e: Id, p: Vec)
    requires AllSettled(links, base, offsets, positions, done) && e in base && AtHome(links, base, offsets, e, p)
    ensures AllSettled(links, base, offsets, positions[e := p], done + {e})
  {
    var moved, more := positions[e := p], done + {e};
    forall x ensures Settled(links, base, offsets, moved, more, x) {
      assert Settled(links, base, offsets, positions, done, x);
    }
  }

  /** In whatever order the entities are attached, each ends at its root's position plus the offsets of its chain. */
  method AttachAll(links: map<Id, Id>, base: map<Id, Vec>, offsets: map<Id, Vec>, moving: set<Id>, order: seq<Id>)
    returns (ok: bool, positions: map<Id, Vec>)
    requires Sited(links, base) && NoCircle(links) && forall e :: e in order <==> e in base
    ensures ok <==> forall e :: e in links ==> e !in moving
    ensures ok ==> positions.Keys == base.Keys && forall e :: e in base ==> AtHome(links, base, offsets, e, positions[e])
  {
    positions := base;
    var done: set<Id> := {};
    for i := 0 to |order|
      invariant AllSettled(links, base, offsets, positions, done)
      invariant forall j :: 0 <= j < i ==> order[j] in done
      invariant forall x :: x in done && x in links ==> x !in moving
    {
      var e := order[i];
      assert e in order;
      assert e !in links ==> Hangs(links, e, 0);
      assert Grounded(links, e);
      ghost var n: nat :| Hangs(links, e, n);
      ok, positions, done := Attach(links, base, offsets, moving, positions, done, e, n);
      if !ok {
        return false, positions;
      }
    }
    forall e | e in base ensures AtHome(links, base, offsets, e, positions[e]) && e in done {
      assert e in order;
      assert Settled(links, base, offsets, positions, done, e);
    }
    return true, positions;
  }

  /** There is only one such place. */
  lemma HomeUnique(links: map<Id, Id>, base: map<Id, Vec>, offsets: map<Id, Vec>, e: Id, p: Vec, q: Vec)
    requires e in base && AtHome(links, base, offsets, e, p) && AtHome(links, base, offsets, e, q)
    ensures p == q
  {
    var n: nat :| Hangs(links, e, n) && p == Hung(links, base, offsets, e, n);
    var m: nat :| Hangs(links, e, m) && q == Hung(links, base, offsets, e, m);
    HangsOnce(links, e, n, m);
  }

  predicate Adds(p: Vec, a: Vec, b: Vec) {
    p.x == a.x + b.x && p.y == a.y + b.y && p.z == a.z + b.z
  }

  /** An attached entity stands at its own offset from what it is attached to, coordinate by coordinate. */
  lemma {:induction false} HomeOfAttached(links: map<Id, Id>, base: map<Id, Vec>, offsets: map<Id, Vec>, e: Id, p: Vec, q: Vec)
    requires e in links && links[e] in base && e in base
    requires AtHome(links, base, offsets, e, p) && AtHome(links, base, offsets, links[e], q)
    ensures Adds(p, q, if e in offsets then offsets[e] else Vec(0.0, 0.0, 0.0))
  {
    var n: nat :| Hangs(links, e, n) && p == Hung(links, base, offsets, e, n);
    var above := Hung(links, base, offsets, links[e], n - 1);
    assert AtHome(links, base, offsets, links[e], above);
    HomeUnique(links, base, offsets, links[e], q, above);
  }

  /** What is attached to nothing stays where it is. */
  lemma {:induction false} HomeOfRoot(links: map<Id, Id>, base: map<Id, Vec>, offsets: map<Id, Vec>, e: Id, p: Vec)
    requires e in base && e !in links && AtHome(links, base, offsets, e, p)
    ensures p == base[e]
  {
    var n: nat :| Hangs(links, e, n) && p == Hung(links, base, offsets, e, n);
    assert n == 0;
  }
}
