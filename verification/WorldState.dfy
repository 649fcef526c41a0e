/**
 The whole of `state_at` in src/fsf/production/memory.py: motion, replayed facts, path offsets and attachment together,
 for every entity of a validated world at every frame.
 */
module WorldState {
  import opened Wrappers
  import opened Ids
  import opened WorldMotion
  import opened WorldFacts

  datatype Moving = Moving(entity: Id, motion: Motion)

  /** `motions` in order of their start frames; sorting is stable, so each entity's own are in that order too. */
  datatype World = World(
    anchors: map<Id, Vec>, initial: map<Id, Id>, motions: seq<Moving>, facts: map<Id, Fact>, events: seq<Event>, count: int)

  datatype State = At(facts: map<Id, Fact>, positions: map<Id, Vec>) | SpatialConflict | NoSuchFrame

  function MotionsOf(motions: seq<Moving>, e: Id): seq<Motion> {
    if motions == [] then []
    else
      var rest := MotionsOf(motions[..|motions| - 1], e);
      if motions[|motions| - 1].entity == e then rest + [motions[|motions| - 1].motion] else rest
  }

  /** What validation leaves: anchored entities, connected motions, facts about entities, and a replay that succeeds to the end. */
  ghost predicate WorldValid(w: World) {
    && (forall e {:trigger EntityOk(w, e)} :: e in w.initial ==> EntityOk(w, e))
    && (forall m :: m in w.motions ==> m.entity in w.initial)
    && Keyed(w.facts) && (forall i :: i in w.facts ==> w.facts[i].entity in w.initial)
    && After(w.facts, w.initial.Keys, w.events, Due(w.events, w.count - 1)).Some?
  }

  ghost predicate EntityOk(w: World, e: Id)
    requires e in w.initial
  {
    MotionsOk(w.anchors, w.initial[e], MotionsOf(w.motions, e), w.count)
  }

  // ---------------------------------------------------------------------------------------------
  // Prefixes of the motions
  // ---------------------------------------------------------------------------------------------

  lemma PrefixOk(anchors: map<Id, Vec>, initial: Id, motions: seq<Motion>, more: Motion, count: int)
    requires MotionsOk(anchors, initial, motions + [more], count)
    ensures MotionsOk(anchors, initial, motions, count)
  {
    var all := motions + [more];
    forall m | m in motions ensures |m.path| >= 2 {
      assert m in all;
    }
    forall i | 0 <= i < |motions| ensures MotionOk(anchors, initial, motions, count, i) {
      assert MotionOk(anchors, initial, all, count, i);
    }
  }

  lemma {:induction false} PrefixesOk(w: World, e: Id, n: nat)
    requires e in w.initial && EntityOk(w, e) && n <= |w.motions|
    ensures MotionsOk(w.anchors, w.initial[e], MotionsOf(w.motions[..n], e), w.count)
    decreases |w.motions| - n
  {
    if n == |w.motions| {
      assert w.motions[..n] == w.motions;
    } else {
      PrefixesOk(w, e, n + 1);
      assert w.motions[..n + 1][..n] == w.motions[..n];
      if w.motions[n].entity == e {
        PrefixOk(w.anchors, w.initial[e], MotionsOf(w.motions[..n], e), w.motions[n].motion, w.count);
      }
    }
  }

  ghost function Motioned(w: World, e: Id, n: nat, frame: int): Vec
    requires e in w.initial && EntityOk(w, e) && n <= |w.motions|
  {
    PrefixesOk(w, e, n);
    Where(w.anchors, w.initial[e], MotionsOf(w.motions[..n], e), w.count, frame)
  }

  /** One more motion of an entity: the position is its own once it has begun, and otherwise what it was. */
  lemma OneMotion(w: World, n: nat, frame: int)
    requires n < |w.motions| && w.motions[n].entity in w.initial && EntityOk(w, w.motions[n].entity)
    ensures var e, m := w.motions[n].entity, w.motions[n].motion;
      && |m.path| >= 2 && m.end - m.start >= |m.path| && (forall a :: a in m.path ==> a in w.anchors)
      && Motioned(w, e, n + 1, frame) == if m.start <= frame then Along(w.anchors, m, frame) else Motioned(w, e, n, frame)
  {
    var e := w.motions[n].entity;
    PrefixesOk(w, e, n);
    PrefixesOk(w, e, n + 1);
    assert w.motions[..n + 1][..n] == w.motions[..n];
    var before, all := MotionsOf(w.motions[..n], e), MotionsOf(w.motions[..n + 1], e);
    assert all == before + [w.motions[n].motion];
    Places(w.anchors, w.initial[e], all, w.count, |before|);
    assert all[..|all| - 1] == before;
  }

  lemma OtherMotion(w: World, e: Id, n: nat, frame: int)
    requires n < |w.motions| && e in w.initial && EntityOk(w, e) && w.motions[n].entity != e
    ensures Motioned(w, e, n + 1, frame) == Motioned(w, e, n, frame)
  {
    assert w.motions[..n + 1][..n] == w.motions[..n];
  }

  /** After the first `n` motions an entity is where its own among them put it. */
  ghost predicate Placed(w: World, n: nat, frame: int, positions: map<Id, Vec>, e: Id)
    requires n <= |w.motions|
  {
    e in w.initial ==> e in positions && EntityOk(w, e) && positions[e] == Motioned(w, e, n, frame)
  }

  lemma PlacedFirst(w: World, frame: int, positions: map<Id, Vec>, e: Id)
    requires WorldValid(w) && (e in w.initial ==> w.initial[e] in w.anchors && e in positions && positions[e] == w.anchors[w.initial[e]])
    ensures Placed(w, 0, frame, positions, e)
  {
    if e in w.initial {
      assert EntityOk(w, e);
    }
  }

  lemma PlacedNext(w: World, n: nat, frame: int, positions: map<Id, Vec>, after: map<Id, Vec>, o: Id)
    requires n < |w.motions| && Placed(w, n, frame, positions, o) && w.motions[n].entity in w.initial && EntityOk(w, w.motions[n].entity)
    requires var e, m := w.motions[n].entity, w.motions[n].motion;
      && |m.path| >= 2 && m.end - m.start >= |m.path| && (forall a :: a in m.path ==> a in w.anchors)
      && after == if m.start <= frame then positions[e := Along(w.anchors, m, frame)] else positions
    ensures Placed(w, n + 1, frame, after, o)
  {
    if o in w.initial {
      if o == w.motions[n].entity {
        OneMotion(w, n, frame);
      } else {
        OtherMotion(w, o, n, frame);
      }
    }
  }

  /** The loop over all motions. */
  method Motions(w: World, frame: int) returns (positions: map<Id, Vec>)
    requires WorldValid(w)
    ensures positions.Keys == w.initial.Keys
    ensures forall e {:trigger Placed(w, |w.motions|, frame, positions, e)} :: Placed(w, |w.motions|, frame, positions, e)
  {
    forall e | e in w.initial ensures w.initial[e] in w.anchors {
      assert EntityOk(w, e);
    }
    positions := map e | e in w.initial :: w.anchors[w.initial[e]];
    forall e ensures Placed(w, 0, frame, positions, e) {
      PlacedFirst(w, frame, positions, e);
    }
    for n := 0 to |w.motions|
      invariant positions.Keys == w.initial.Keys
      invariant forall e {:trigger Placed(w, n, frame, positions, e)} :: Placed(w, n, frame, positions, e)
    {
      var e, m := w.motions[n].entity, w.motions[n].motion;
      assert w.motions[n] in w.motions && EntityOk(w, e);
      OneMotion(w, n, frame);
      ghost var before := positions;
      if m.start <= frame {
        positions := positions[e := Along(w.anchors, m, frame)];
      }
      ghost var next := n + 1;
      forall o ensures Placed(w, next, frame, positions, o) {
        assert Placed(w, n, frame, before, o);
        PlacedNext(w, n, frame, before, positions, o);
      }
    }
  }

  // ---------------------------------------------------------------------------------------------
  // An entity's own way
  // ---------------------------------------------------------------------------------------------

  /** An entity's motions are those that name it. */
  lemma {:induction false} OwnMotions(motions: seq<Moving>, e: Id, m: Motion)
    ensures m in MotionsOf(motions, e) <==> Moving(e, m) in motions
    decreases |motions|
  {
    if motions != [] {
      var front, last := motions[..|motions| - 1], motions[|motions| - 1];
      assert motions == front + [last];
      OwnMotions(front, e, m);
    }
  }

  /** An entity on its way at a frame, without path offset, attachment or anything it hangs on. */
  ghost function OwnPlace(w: World, e: Id, frame: int): Vec
    requires e in w.initial && EntityOk(w, e)
  {
    Motioned(w, e, |w.motions|, frame)
  }

  lemma OwnIsWhere(w: World, e: Id, frame: int)
    requires e in w.initial && EntityOk(w, e)
    ensures OwnPlace(w, e, frame) == Where(w.anchors, w.initial[e], MotionsOf(w.motions, e), w.count, frame)
  {
    assert w.motions[..|w.motions|] == w.motions;
  }

  /** In a motion of a validated world the entity divides the edge it is on evenly, whatever its other motions. */
  lemma InMotionDivides(w: World, moving: Moving, frame: int, k: nat)
    requires WorldValid(w) && moving in w.motions && moving.motion.start <= frame < moving.motion.end
    requires var m := moving.motion;
      k + 1 < |m.path| && k * (m.end - m.start - 1) <= (frame - m.start) * (|m.path| - 1) <= (k + 1) * (m.end - m.start - 1)
    ensures moving.entity in w.initial && EntityOk(w, moving.entity)
    ensures var m := moving.motion;
      && m.path[k] in w.anchors && m.path[k + 1] in w.anchors
      && Divides(OwnPlace(w, moving.entity, frame), w.anchors[m.path[k]], w.anchors[m.path[k + 1]],
                 (frame - m.start) * (|m.path| - 1) - k * (m.end - m.start - 1), m.end - m.start - 1)
  {
    var e, own := moving.entity, MotionsOf(w.motions, moving.entity);
    assert EntityOk(w, e);
    OwnMotions(w.motions, e, moving.motion);
    var i :| 0 <= i < |own| && own[i] == moving.motion;
    OwnIsWhere(w, e, frame);
    InsideEdge(w.anchors, w.initial[e], own, w.count, frame, i, k);
  }

  /** Once a motion is over, and until the entity's next, it stays at the motion's last anchor. */
  lemma AfterMotion(w: World, moving: Moving, frame: int)
    requires WorldValid(w) && moving in w.motions && moving.motion.end - 1 <= frame
    requires forall other :: other in w.motions && other.entity == moving.entity ==> other.motion.start <= moving.motion.start || frame < other.motion.start
    ensures moving.entity in w.initial && EntityOk(w, moving.entity)
    ensures var path := moving.motion.path;
      |path| >= 2 && path[|path| - 1] in w.anchors && OwnPlace(w, moving.entity, frame) == w.anchors[path[|path| - 1]]
  {
    var e, own := moving.entity, MotionsOf(w.motions, moving.entity);
    assert EntityOk(w, e);
    OwnMotions(w.motions, e, moving.motion);
    var i :| 0 <= i < |own| && own[i] == moving.motion;
    Places(w.anchors, w.initial[e], own, w.count, i);
    if i + 1 < |own| {
      StartsRise(w.anchors, w.initial[e], own, w.count, i, i + 1);
      OwnMotions(w.motions, e, own[i + 1]);
    }
    OwnIsWhere(w, e, frame);
    MotionEnds(w.anchors, w.initial[e], own, w.count, i, frame);
  }

  /** Before its first motion an entity is at its initial anchor. */
  lemma BeforeMotions(w: World, e: Id, frame: int)
    requires WorldValid(w) && e in w.initial && forall moving :: moving in w.motions && moving.entity == e ==> frame < moving.motion.start
    ensures EntityOk(w, e) && w.initial[e] in w.anchors && OwnPlace(w, e, frame) == w.anchors[w.initial[e]]
  {
    assert EntityOk(w, e);
    OwnIsWhere(w, e, frame);
    forall m | m in MotionsOf(w.motions, e) ensures frame < m.start {
      OwnMotions(w.motions, e, m);
      assert Moving(e, m) in w.motions;
    }
    BeforeFirst(w.anchors, w.initial[e], MotionsOf(w.motions, e), w.count, frame);
  }

  // ---------------------------------------------------------------------------------------------
  // Facts
  // ---------------------------------------------------------------------------------------------

  /** Replay changes values only. */
  lemma {:induction false} ChangedShape(facts: map<Id, Fact>, changes: seq<Change>)
    requires Changed(facts, changes).Some?
    ensures var after := Changed(facts, changes).value;
      after.Keys == facts.Keys && forall i :: i in facts ==> after[i].entity == facts[i].entity && after[i].attribute == facts[i].attribute
    decreases |changes|
  {
    if changes != [] {
      ChangedShape(facts, changes[..|changes| - 1]);
    }
  }

  lemma {:induction false} AfterShape(facts: map<Id, Fact>, known: set<Id>, events: seq<Event>, n: nat)
    requires n <= |events| && After(facts, known, events, n).Some? && Keyed(facts)
    ensures var after := After(facts, known, events, n).value;
      && after.Keys == facts.Keys && FactsOk(after, known) && Keyed(after)
      && forall i :: i in facts ==> after[i].entity == facts[i].entity && after[i].attribute == facts[i].attribute
  {
    if n > 0 {
      AfterShape(facts, known, events, n - 1);
      var mid := After(facts, known, events, n - 1).value;
      ChangedShape(mid, events[n - 1].changes);
      ChangedKeyed(mid, events[n - 1].changes);
    }
  }

  /** The vectors of one attribute, by entity. */
  ghost predicate OffsetsOf(facts: map<Id, Fact>, attribute: Attribute, offsets: map<Id, Vec>) {
    && (forall i :: i in facts && facts[i].attribute == attribute ==>
          facts[i].entity in offsets && facts[i].value == Vector(offsets[facts[i].entity]))
    && (forall e :: e in offsets ==> exists i :: i in facts && facts[i].attribute == attribute && facts[i].entity == e)
  }

  method Offsets(facts: map<Id, Fact>, attribute: Attribute) returns (offsets: map<Id, Vec>)
    requires Keyed(facts) && forall i :: i in facts && facts[i].attribute == attribute ==> facts[i].value.Vector?
    ensures OffsetsOf(facts, attribute, offsets)
  {
    offsets := map[];
    var rest := facts.Keys;
    while rest != {}
      invariant rest <= facts.Keys
      invariant forall i :: i in facts.Keys - rest && facts[i].attribute == attribute ==>
        facts[i].entity in offsets && facts[i].value == Vector(offsets[facts[i].entity])
      invariant forall e :: e in offsets ==> exists i :: i in facts.Keys - rest && facts[i].attribute == attribute && facts[i].entity == e
      decreases rest
    {
      var i :| i in rest;
      if facts[i].attribute == attribute {
        offsets := offsets[facts[i].entity := facts[i].value.v];
      }
      rest := rest - {i};
    }
  }

  // ---------------------------------------------------------------------------------------------
  // state_at
  // ---------------------------------------------------------------------------------------------

  /** Where an entity is before attachment: on its way, plus its path offset. */
  ghost predicate BasedOn(w: World, frame: int, paths: map<Id, Vec>, base: map<Id, Vec>) {
    base.Keys == w.initial.Keys
    && forall e :: e in w.initial ==> EntityOk(w, e) && base[e] == Plus(Motioned(w, e, |w.motions|, frame), OffsetOf(paths, e))
  }

  /** An attached entity stands at its offset from what it is attached to, any other at its path offset from its own way. */
  ghost predicate Stands(w: World, frame: int, links: map<Id, Id>, paths: map<Id, Vec>, offsets: map<Id, Vec>, positions: map<Id, Vec>, e: Id)
    requires e in positions
  {
    if e in links then links[e] in positions && Adds(positions[e], positions[links[e]], OffsetOf(offsets, e))
    else e in w.initial && EntityOk(w, e) && Adds(positions[e], OwnPlace(w, e, frame), OffsetOf(paths, e))
  }

  /** Everybody at home stands like that. */
  lemma {:induction false} HomeStands(w: World, frame: int, links: map<Id, Id>, paths: map<Id, Vec>, base: map<Id, Vec>, offsets: map<Id, Vec>, positions: map<Id, Vec>, e: Id)
    requires BasedOn(w, frame, paths, base) && Sited(links, base) && positions.Keys == base.Keys && e in base
    requires forall x :: x in base ==> AtHome(links, base, offsets, x, positions[x])
    ensures Stands(w, frame, links, paths, offsets, positions, e)
  {
    if e in links {
      HomeOfAttached(links, base, offsets, e, positions[e], positions[links[e]]);
    } else {
      HomeOfRoot(links, base, offsets, e, positions[e]);
    }
  }

  /** The links, path offsets and attachment offsets that the facts state. */
  ghost predicate Reads(facts: map<Id, Fact>, links: map<Id, Id>, paths: map<Id, Vec>, offsets: map<Id, Vec>) {
    LinksOf(facts, links) && OffsetsOf(facts, PathOffset, paths) && OffsetsOf(facts, AttachmentOffset, offsets)
  }

  /** What the facts of an entity say of its place: what it is attached to and how far from it, and how far it is off its own way. */
  predicate Says(facts: map<Id, Fact>, links: map<Id, Id>, paths: map<Id, Vec>, offsets: map<Id, Vec>, i: Id)
    requires i in facts
  {
    var e, v := facts[i].entity, facts[i].value;
    match facts[i].attribute
    case Attachment => if v == Nothing then e !in links else e in links && v == Ref(links[e])
    case PathOffset => v == Vector(OffsetOf(paths, e))
    case AttachmentOffset => v == Vector(OffsetOf(offsets, e))
    case _ => true
  }

  /** Every fact counts, and where no fact says anything an entity is not attached and not off its way. */
  lemma ReadsMean(facts: map<Id, Fact>, known: set<Id>, links: map<Id, Id>, paths: map<Id, Vec>, offsets: map<Id, Vec>)
    requires Keyed(facts) && FactsOk(facts, known) && Reads(facts, links, paths, offsets)
    ensures forall i :: i in facts ==> Says(facts, links, paths, offsets, i)
    ensures forall e :: (forall i :: i in facts && facts[i].entity == e ==> facts[i].attribute != Attachment) ==> e !in links
    ensures forall e :: (forall i :: i in facts && facts[i].entity == e ==> facts[i].attribute != PathOffset) ==> OffsetOf(paths, e) == Vec(0.0, 0.0, 0.0)
    ensures forall e :: (forall i :: i in facts && facts[i].entity == e ==> facts[i].attribute != AttachmentOffset) ==> OffsetOf(offsets, e) == Vec(0.0, 0.0, 0.0)
  {
    forall i | i in facts ensures Says(facts, links, paths, offsets, i) {
      assert FactOk(facts[i], known);
    }
  }

  lemma LinksSited(facts: map<Id, Fact>, known: set<Id>, links: map<Id, Id>, base: map<Id, Vec>)
    requires FactsOk(facts, known) && LinksOf(facts, links) && base.Keys == known && forall i :: i in facts ==> facts[i].entity in known
    ensures Sited(links, base)
  {
    forall e | e in links ensures e in base && links[e] in base {
      var i :| i in facts && Attaches(facts[i]) && facts[i].entity == e;
      assert FactOk(facts[i], known);
    }
  }

  /** The facts at a frame and what they say about place; for a validated world there always are some. */
  method FactsAt(w: World, frame: int) returns (facts: map<Id, Fact>, links: map<Id, Id>, paths: map<Id, Vec>, offsets: map<Id, Vec>)
    requires WorldValid(w) && frame < w.count
    ensures After(w.facts, w.initial.Keys, w.events, Due(w.events, frame)) == Some(facts)
    ensures Reads(facts, links, paths, offsets) && NoCircle(links) && forall i :: i in facts ==> Says(facts, links, paths, offsets, i)
    ensures FactsOk(facts, w.initial.Keys) && forall i :: i in facts ==> facts[i].entity in w.initial
  {
    var known := w.initial.Keys;
    ReplayNeverFails(w.facts, known, w.events, w.count - 1, frame);
    AfterShape(w.facts, known, w.events, Due(w.events, frame));
    var replayed := Replay(w.facts, known, w.events, frame);
    facts := replayed.value;
    var ok;
    ok, links := Attachments(facts, known);
    forall i | i in facts && facts[i].attribute in {PathOffset, AttachmentOffset} ensures facts[i].value.Vector? {
      assert FactOk(facts[i], known);
    }
    paths := Offsets(facts, PathOffset);
    offsets := Offsets(facts, AttachmentOffset);
    ReadsMean(facts, known, links, paths, offsets);
  }

  method Bases(w: World, frame: int, paths: map<Id, Vec>) returns (base: map<Id, Vec>)
    requires WorldValid(w)
    ensures BasedOn(w, frame, paths, base)
  {
    var positions := Motions(w, frame);
    base := map e | e in positions :: if e in paths then Plus(positions[e], paths[e]) else positions[e];
    forall e | e in w.initial ensures EntityOk(w, e) && base[e] == Plus(Motioned(w, e, |w.motions|, frame), OffsetOf(paths, e)) {
      assert Placed(w, |w.motions|, frame, positions, e);
    }
  }

  /** What a frame shows: facts, and the links and offsets they state. */
  ghost predicate Shows(w: World, frame: int, facts: map<Id, Fact>, links: map<Id, Id>, paths: map<Id, Vec>, offsets: map<Id, Vec>) {
    After(w.facts, w.initial.Keys, w.events, Due(w.events, frame)) == Some(facts) && Reads(facts, links, paths, offsets)
  }

  /**
   A validated world can be read at every frame of it. The facts are those of the due events; each attached entity stands at
   its offset from what it is attached to, and every other at its path offset from where its own motions have brought it.
   The one refusal is an attached entity that is moving by itself.
   */
  method StateAt(w: World, frame: int) returns (state: State, ghost links: map<Id, Id>, ghost paths: map<Id, Vec>, ghost offsets: map<Id, Vec>)
    requires WorldValid(w)
    ensures state.NoSuchFrame? <==> !(0 <= frame < w.count)
    ensures !state.NoSuchFrame? ==> exists facts :: Shows(w, frame, facts, links, paths, offsets)
    ensures !state.NoSuchFrame? ==> (state.SpatialConflict? <==>
      exists m :: m in w.motions && m.entity in links && m.motion.start <= frame < m.motion.end)
    ensures state.At? ==>
      && Shows(w, frame, state.facts, links, paths, offsets) && NoCircle(links) && state.positions.Keys == w.initial.Keys
      && (forall i :: i in state.facts ==> Says(state.facts, links, paths, offsets, i))
      && forall e :: e in state.positions ==> Stands(w, frame, links, paths, offsets, state.positions, e)
  {
    links, paths, offsets := map[], map[], map[];
    if !(0 <= frame < w.count) {
      return NoSuchFrame, links, paths, offsets;
    }
    var facts, linked, shifts, placed := FactsAt(w, frame);
    var moved := Bases(w, frame, shifts);
    links, paths, offsets := linked, shifts, placed;
    assert Shows(w, frame, facts, links, paths, offsets);
    LinksSited(facts, w.initial.Keys, linked, moved);
    var moving := set m | m in w.motions && m.motion.start <= frame < m.motion.end :: m.entity;
    var order := Order(w.initial.Keys);
    var ok, settled := AttachAll(linked, moved, placed, moving, order);
    if !ok {
      return SpatialConflict, links, paths, offsets;
    }
    forall e | e in settled ensures Stands(w, frame, linked, shifts, placed, settled, e) {
      HomeStands(w, frame, linked, shifts, moved, placed, settled, e);
    }
    return At(facts, settled), links, paths, offsets;
  }

  /** The entities in some order. */
  method Order(known: set<Id>) returns (order: seq<Id>)
    ensures forall e :: e in order <==> e in known
  {
    order := [];
    var rest := known;
    while rest != {}
      invariant rest <= known && forall e :: e in order <==> e in known - rest
      decreases rest
    {
      var e :| e in rest;
      order, rest := order + [e], rest - {e};
    }
  }
}
