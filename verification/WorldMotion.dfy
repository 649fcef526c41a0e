/**
 Motion of an entity through the world of src/fsf/production/memory.py, in exact arithmetic: routes walked at constant
 speed between frames, at most one edge a frame, from anchor to anchor.
 */
module WorldMotion {
  import opened Wrappers
  import opened Ids
  import opened Reals

  datatype Vec = Vec(x: real, y: real, z: real)

  /** One motion, its route already in the direction of travel. */
  datatype Motion = Motion(path: seq<Id>, start: int, end: int)

  // ---------------------------------------------------------------------------------------------
  // Validation
  // ---------------------------------------------------------------------------------------------

  /** Where the entity is when motion `i` may begin, and the first frame it may begin at. */
  function PlaceBefore(initial: Id, motions: seq<Motion>, i: nat): Id
    requires i <= |motions| && forall m :: m in motions ==> |m.path| >= 2
  {
    if i == 0 then initial else motions[i - 1].path[|motions[i - 1].path| - 1]
  }

  function FreeFrom(motions: seq<Motion>, i: nat): int
    requires i <= |motions|
  {
    if i == 0 then 0 else motions[i - 1].end
  }

  predicate MotionOk(anchors: map<Id, Vec>, initial: Id, motions: seq<Motion>, count: int, i: nat)
    requires i < |motions| && forall m :: m in motions ==> |m.path| >= 2
  {
    var m := motions[i];
    && (forall a :: a in m.path ==> a in anchors)
    && 0 <= m.start < count && 1 <= m.end <= count
    && m.start >= FreeFrom(motions, i) && m.end - m.start >= |m.path| && m.path[0] == PlaceBefore(initial, motions, i)
  }

  /** Motions of one entity in order: no overlap, time for every edge, each from where the last one ended. */
  ghost predicate MotionsOk(anchors: map<Id, Vec>, initial: Id, motions: seq<Motion>, count: int) {
    && initial in anchors && (forall m :: m in motions ==> |m.path| >= 2)
    && forall i {:trigger MotionOk(anchors, initial, motions, count, i)} :: 0 <= i < |motions| ==> MotionOk(anchors, initial, motions, count, i)
  }

  method ValidateMotions(anchors: map<Id, Vec>, initial: Id, motions: seq<Motion>, count: int) returns (ok: bool)
    requires initial in anchors && forall m :: m in motions ==> |m.path| >= 2
    ensures ok <==> MotionsOk(anchors, initial, motions, count)
  {
    var position, end := initial, 0;
    for i := 0 to |motions|
      invariant position == PlaceBefore(initial, motions, i) && end == FreeFrom(motions, i)
      invariant forall j {:trigger MotionOk(anchors, initial, motions, count, j)} :: 0 <= j < i ==> MotionOk(anchors, initial, motions, count, j)
    {
      var m := motions[i];
      assert m in motions;
      if !(0 <= m.start < count) || !(1 <= m.end <= count) || (exists a :: a in m.path && a !in anchors)
         || m.start < end || m.end - m.start < |m.path| || m.path[0] != position
      {
        assert !MotionOk(anchors, initial, motions, count, i);
        return false;
      }
      assert MotionOk(anchors, initial, motions, count, i);
      position, end := m.path[|m.path| - 1], m.end;
    }
    return true;
  }

  // ---------------------------------------------------------------------------------------------
  // state_at
  // ---------------------------------------------------------------------------------------------

  function Lerp(a: real, b: real, alpha: real): real {
    a * (1.0 - alpha) + b * alpha
  }

  function Between(p: Vec, q: Vec, alpha: real): Vec {
    Vec(Lerp(p.x, q.x, alpha), Lerp(p.y, q.y, alpha), Lerp(p.z, q.z, alpha))
  }

  function Edge(path: seq<Id>, progress: real): int {
    if progress.Floor <= |path| - 2 then progress.Floor else |path| - 2
  }

  /** The point reached after a number of edges of a route. */
  function Point(anchors: map<Id, Vec>, path: seq<Id>, progress: real): Vec
    requires |path| >= 2 && (forall a :: a in path ==> a in anchors) && 0.0 <= progress <= (|path| - 1) as real
  {
    var edge := Edge(path, progress);
    Between(anchors[path[edge]], anchors[path[edge + 1]], progress - edge as real)
  }

  /** Edges walked at a frame: an even share of the route per frame, the last frame being at the end. */
  function Progress(m: Motion, frame: int): real
    requires m.end - m.start > 1
  {
    (frame - m.start) as real / (m.end - m.start - 1) as real * (|m.path| - 1) as real
  }

  /** A share of a route of so many edges lies on the route. */
  lemma ShareRange(done: real, span: real, edges: real)
    requires 0.0 <= done <= span && span > 0.0 && edges >= 0.0
    ensures 0.0 <= done / span * edges <= edges
    ensures (done == 0.0 ==> done / span * edges == 0.0) && (done == span ==> done / span * edges == edges)
  {
    QuotientBounds(done, span);
    MulLe(0.0, done / span, edges);
    MulLe(done / span, 1.0, edges);
  }

  /** One frame's share is at most one edge. */
  lemma OneShare(span: real, edges: real)
    requires 0.0 <= edges <= span && span > 0.0
    ensures 0.0 <= 1.0 / span * edges <= 1.0
  {
    Positive(span);
    MulLe(0.0, 1.0 / span, edges);
    MulLe(edges, span, 1.0 / span);
    Quotient(1.0, span);
  }

  lemma Positive(n: real)
    requires n > 0.0
    ensures 1.0 / n > 0.0
  {
  }

  lemma NextShare(done: real, span: real, edges: real)
    requires span > 0.0
    ensures (done + 1.0) / span * edges == done / span * edges + 1.0 / span * edges
  {
    SumOver(done, 1.0, span);
    DistributeRight(done / span, 1.0 / span, edges);
  }

  /** The same for counted frames and edges. */
  lemma ShareOf(done: int, span: int, edges: int)
    requires 0 <= done <= span && 0 <= edges <= span && span > 0
    ensures 0.0 <= done as real / span as real * edges as real <= edges as real
    ensures (done == 0 ==> done as real / span as real * edges as real == 0.0)
    ensures (done == span ==> done as real / span as real * edges as real == edges as real)
  {
    ShareRange(done as real, span as real, edges as real);
  }

  lemma NextShareOf(done: int, span: int, edges: int)
    requires 0 <= edges <= span && span > 0
    ensures var share, next := done as real / span as real * edges as real, (done + 1) as real / span as real * edges as real;
      share <= next <= share + 1.0
  {
    OneShare(span as real, edges as real);
    NextShare(done as real, span as real, edges as real);
    assert (done + 1) as real == done as real + 1.0;
  }

  lemma ProgressRange(m: Motion, frame: int)
    requires |m.path| >= 2 && m.end - m.start >= |m.path| && m.start <= frame < m.end
    ensures 0.0 <= Progress(m, frame) <= (|m.path| - 1) as real
    ensures frame == m.start ==> Progress(m, frame) == 0.0
    ensures frame == m.end - 1 ==> Progress(m, frame) == (|m.path| - 1) as real
    ensures frame + 1 < m.end ==> Progress(m, frame) <= Progress(m, frame + 1) <= Progress(m, frame) + 1.0
  {
    ShareOf(frame - m.start, m.end - m.start - 1, |m.path| - 1);
    NextShareOf(frame - m.start, m.end - m.start - 1, |m.path| - 1);
    assert frame + 1 - m.start == frame - m.start + 1;
  }

  lemma QuotientBounds(a: real, n: real)
    requires n > 0.0 && 0.0 <= a <= n
    ensures 0.0 <= a / n <= 1.0 && (a == 0.0 ==> a / n == 0.0) && (a == n ==> a / n == 1.0)
  {
  }

  lemma SumOver(a: real, b: real, n: real)
    requires n > 0.0
    ensures (a + b) / n == a / n + b / n
  {
  }

  lemma DistributeRight(a: real, b: real, k: real)
    ensures (a + b) * k == a * k + b * k
  {
  }

  /** The last motion begun by a frame decides; `Where(.., 0)` is the initial anchor. */
  function Begun(motions: seq<Motion>, frame: int): (n: nat)
    ensures n <= |motions|
  {
    if motions == [] then 0
    else if motions[|motions| - 1].start <= frame then |motions|
    else Begun(motions[..|motions| - 1], frame)
  }

  function Where(anchors: map<Id, Vec>, initial: Id, motions: seq<Motion>, count: int, frame: int): Vec
    requires MotionsOk(anchors, initial, motions, count)
  {
    var n := Begun(motions, frame);
    if n == 0 then anchors[initial]
    else
      BegunAt(motions, frame);
      Places(anchors, initial, motions, count, n - 1);
      Along(anchors, motions[n - 1], frame)
  }

  function Along(anchors: map<Id, Vec>, m: Motion, frame: int): Vec
    requires |m.path| >= 2 && m.end - m.start >= |m.path| && m.start <= frame && forall a :: a in m.path ==> a in anchors
  {
    if frame >= m.end - 1 then anchors[m.path[|m.path| - 1]]
    else
      ProgressRange(m, frame);
      Point(anchors, m.path, Progress(m, frame))
  }

  lemma Places(anchors: map<Id, Vec>, initial: Id, motions: seq<Motion>, count: int, i: nat)
    requires MotionsOk(anchors, initial, motions, count) && i < |motions|
    ensures var m := motions[i];
      && |m.path| >= 2 && m.end - m.start >= |m.path| && (forall a :: a in m.path ==> a in anchors)
      && m.start >= FreeFrom(motions, i) && m.path[0] == PlaceBefore(initial, motions, i)
  {
    assert motions[i] in motions;
    assert MotionOk(anchors, initial, motions, count, i);
  }

  lemma {:induction false} BegunAt(motions: seq<Motion>, frame: int)
    ensures Begun(motions, frame) > 0 ==> motions[Begun(motions, frame) - 1].start <= frame
    ensures forall i :: Begun(motions, frame) <= i < |motions| ==> motions[i].start > frame
    decreases |motions|
  {
    if motions != [] && motions[|motions| - 1].start > frame {
      BegunAt(motions[..|motions| - 1], frame);
    }
  }

  /** Motions of one entity come one after the other. */
  lemma {:induction false} StartsRise(anchors: map<Id, Vec>, initial: Id, motions: seq<Motion>, count: int, i: nat, j: nat)
    requires MotionsOk(anchors, initial, motions, count) && i < j < |motions|
    ensures motions[i].end <= motions[j].start && motions[i].start < motions[j].start
    decreases j
  {
    Places(anchors, initial, motions, count, j);
    Places(anchors, initial, motions, count, i);
    if i < j - 1 {
      StartsRise(anchors, initial, motions, count, i, j - 1);
      Places(anchors, initial, motions, count, j - 1);
    }
  }

  lemma BegunIs(anchors: map<Id, Vec>, initial: Id, motions: seq<Motion>, count: int, frame: int, n: nat)
    requires MotionsOk(anchors, initial, motions, count) && n <= |motions|
    requires (n > 0 ==> motions[n - 1].start <= frame) && (n < |motions| ==> frame < motions[n].start)
    ensures Begun(motions, frame) == n
  {
    BegunAt(motions, frame);
    forall i, j | 0 <= i < j < |motions| ensures motions[i].start < motions[j].start {
      StartsRise(anchors, initial, motions, count, i, j);
    }
  }

  /** The loop of `state_at` over the motions, for one entity. */
  method PositionAt(anchors: map<Id, Vec>, initial: Id, motions: seq<Motion>, count: int, frame: int) returns (p: Vec)
    requires MotionsOk(anchors, initial, motions, count)
    ensures p == Where(anchors, initial, motions, count, frame)
  {
    p := anchors[initial];
    ghost var n := 0;
    for i := 0 to |motions|
      invariant n <= i && (n > 0 ==> motions[n - 1].start <= frame)
      invariant forall k :: n <= k < i ==> motions[k].start > frame
      invariant n == 0 ==> p == anchors[initial]
      invariant n > 0 ==> Walked(anchors, initial, motions, count, frame, n, p)
    {
      var m := motions[i];
      Places(anchors, initial, motions, count, i);
      if m.start <= frame {
        n := i + 1;
        if frame >= m.end - 1 {
          p := anchors[m.path[|m.path| - 1]];
        } else {
          ProgressRange(m, frame);
          var progress := Progress(m, frame);
          var edge := Edge(m.path, progress);
          p := Between(anchors[m.path[edge]], anchors[m.path[edge + 1]], progress - edge as real);
        }
      }
    }
    BegunIs(anchors, initial, motions, count, frame, n);
  }

  ghost predicate Walked(anchors: map<Id, Vec>, initial: Id, motions: seq<Motion>, count: int, frame: int, n: nat, p: Vec)
    requires MotionsOk(anchors, initial, motions, count) && 0 < n <= |motions|
  {
    Places(anchors, initial, motions, count, n - 1);
    motions[n - 1].start <= frame && p == Along(anchors, motions[n - 1], frame)
  }

  // ---------------------------------------------------------------------------------------------
  // What the motion looks like
  // ---------------------------------------------------------------------------------------------

  lemma LerpEnds(a: real, b: real)
    ensures Lerp(a, b, 0.0) == a && Lerp(a, b, 1.0) == b
  {
  }

  lemma BetweenEnds(p: Vec, q: Vec)
    ensures Between(p, q, 0.0) == p && Between(p, q, 1.0) == q
  {
    LerpEnds(p.x, q.x);
    LerpEnds(p.y, q.y);
    LerpEnds(p.z, q.z);
  }

  /** A route begins at its first anchor and ends at its last. */
  lemma PointEnds(anchors: map<Id, Vec>, path: seq<Id>)
    requires |path| >= 2 && forall a :: a in path ==> a in anchors
    ensures Point(anchors, path, 0.0) == anchors[path[0]]
    ensures Point(anchors, path, (|path| - 1) as real) == anchors[path[|path| - 1]]
  {
    BetweenEnds(anchors[path[0]], anchors[path[1]]);
    BetweenEnds(anchors[path[|path| - 2]], anchors[path[|path| - 1]]);
    assert Edge(path, 0.0) == 0;
    assert ((|path| - 1) as real).Floor == |path| - 1;
    assert (|path| - 1) as real - (|path| - 2) as real == 1.0;
  }

  /** At its start frame a motion is at its first anchor; from its last frame until the next motion, at its last. */
  lemma MotionEnds(anchors: map<Id, Vec>, initial: Id, motions: seq<Motion>, count: int, i: nat, frame: int)
    requires MotionsOk(anchors, initial, motions, count) && i < |motions|
    requires motions[i].start <= frame && (i + 1 < |motions| ==> frame < motions[i + 1].start)
    ensures |motions[i].path| >= 2 && motions[i].path[0] in anchors && motions[i].path[|motions[i].path| - 1] in anchors
    ensures frame == motions[i].start ==> Where(anchors, initial, motions, count, frame) == anchors[motions[i].path[0]]
    ensures frame >= motions[i].end - 1 ==>
      Where(anchors, initial, motions, count, frame) == anchors[motions[i].path[|motions[i].path| - 1]]
  {
    Places(anchors, initial, motions, count, i);
    BegunIs(anchors, initial, motions, count, frame, i + 1);
    if frame == motions[i].start {
      ProgressRange(motions[i], frame);
      PointEnds(anchors, motions[i].path);
    }
  }

  // ---------------------------------------------------------------------------------------------
  // Where on an edge
  // ---------------------------------------------------------------------------------------------

  /** `p` divides the stretch from `a` to `b`: `part` of `whole` equal steps lie behind it. */
  predicate Cuts(p: real, a: real, b: real, part: int, whole: int) {
    p * whole as real == (whole - part) as real * a + part as real * b
  }

  predicate Divides(p: Vec, a: Vec, b: Vec, part: int, whole: int) {
    Cuts(p.x, a.x, b.x, part, whole) && Cuts(p.y, a.y, b.y, part, whole) && Cuts(p.z, a.z, b.z, part, whole)
  }

  lemma LerpDivides(a: real, b: real, alpha: real, part: int, whole: int)
    requires alpha * whole as real == part as real
    ensures Cuts(Lerp(a, b, alpha), a, b, part, whole)
  {
    var w := whole as real;
    Associate(a, 1.0 - alpha, w);
    Associate(b, alpha, w);
    DistributeLeft(1.0, alpha, w);
    assert (whole - part) as real == w - part as real;
  }

  lemma BetweenDivides(a: Vec, b: Vec, alpha: real, part: int, whole: int)
    requires alpha * whole as real == part as real
    ensures Divides(Between(a, b, alpha), a, b, part, whole)
  {
    LerpDivides(a.x, b.x, alpha, part, whole);
    LerpDivides(a.y, b.y, alpha, part, whole);
    LerpDivides(a.z, b.z, alpha, part, whole);
  }

  lemma WholeDivides(a: Vec, b: Vec, whole: int)
    ensures Divides(b, a, b, whole, whole) && Divides(a, a, b, 0, whole)
  {
  }

  /** After `done` of `span` frames of a route of `edges` edges the share, in steps of 1/span of an edge. */
  lemma ShareSteps(done: int, span: int, edges: int, k: int)
    requires span > 0
    ensures var s := done as real / span as real * edges as real; (s - k as real) * span as real == (done * edges - k * span) as real
  {
    var d, l, e, s := done as real, span as real, edges as real, done as real / span as real * edges as real;
    Quotient(d, l);
    Associate(d / l, e, l);
    Associate(d / l, l, e);
    assert e * l == l * e;
    DistributeLeft(s, k as real, l);
    assert (done * edges) as real == d * e && (k * span) as real == k as real * l;
  }

  /** A share between two whole numbers of edges is on the edge between them, or at its end. */
  lemma ShareEdge(s: real, k: int, span: int, steps: int)
    requires span > 0 && (s - k as real) * span as real == steps as real && 0 <= steps <= span
    ensures k as real <= s <= (k + 1) as real && (s == (k + 1) as real <==> steps == span)
  {
    QuotientUnique(steps as real, span as real, s - k as real);
    QuotientBounds(steps as real, span as real);
    assert (k + 1) as real == k as real + 1.0;
  }

  /**
   Inside an edge: of a motion over n anchors lasting `span` frames to its end, after `done` frames, with k edges behind it,
   the entity has gone done * (n - 1) - k * span of `span` equal steps from anchor k to anchor k + 1.
   */
  lemma InsideEdge(anchors: map<Id, Vec>, initial: Id, motions: seq<Motion>, count: int, frame: int, i: nat, k: nat)
    requires MotionsOk(anchors, initial, motions, count) && i < |motions| && motions[i].start <= frame < motions[i].end
    requires var m := motions[i];
      k + 1 < |m.path| && k * (m.end - m.start - 1) <= (frame - m.start) * (|m.path| - 1) <= (k + 1) * (m.end - m.start - 1)
    ensures var m, p := motions[i], Where(anchors, initial, motions, count, frame);
      && m.path[k] in anchors && m.path[k + 1] in anchors && m.end - m.start > 1
      && Divides(p, anchors[m.path[k]], anchors[m.path[k + 1]],
                 (frame - m.start) * (|m.path| - 1) - k * (m.end - m.start - 1), m.end - m.start - 1)
  {
    var m := motions[i];
    Places(anchors, initial, motions, count, i);
    if i + 1 < |motions| {
      StartsRise(anchors, initial, motions, count, i, i + 1);
    }
    BegunIs(anchors, initial, motions, count, frame, i + 1);
    AlongDivides(anchors, m, frame, k);
  }

  lemma AlongDivides(anchors: map<Id, Vec>, m: Motion, frame: int, k: nat)
    requires |m.path| >= 2 && m.end - m.start >= |m.path| && m.start <= frame < m.end && forall a :: a in m.path ==> a in anchors
    requires k + 1 < |m.path| && k * (m.end - m.start - 1) <= (frame - m.start) * (|m.path| - 1) <= (k + 1) * (m.end - m.start - 1)
    ensures Divides(Along(anchors, m, frame), anchors[m.path[k]], anchors[m.path[k + 1]],
                    (frame - m.start) * (|m.path| - 1) - k * (m.end - m.start - 1), m.end - m.start - 1)
  {
    var span, edges, done := m.end - m.start - 1, |m.path| - 1, frame - m.start;
    var steps := done * edges - k * span;
    assert (k + 1) * span == k * span + span;
    if frame >= m.end - 1 {
      LastEdge(span, edges, k);
      WholeDivides(anchors[m.path[k]], anchors[m.path[k + 1]], span);
    } else {
      ProgressRange(m, frame);
      PointDivides(anchors, m, frame, k, steps);
    }
  }

  lemma LastEdge(span: int, edges: int, k: int)
    requires span > 0 && span * edges <= (k + 1) * span && k + 1 <= edges
    ensures k + 1 == edges && span * edges - k * span == span
  {
    assert (edges - k - 1) * span == span * edges - (k + 1) * span;
    assert (k + 1) * span == k * span + span;
    if k + 1 < edges {
      Times(edges - k - 1, span);
    }
  }

  lemma Times(a: int, b: int)
    requires a > 0 && b > 0
    ensures a * b > 0
  {
  }

  lemma PointDivides(anchors: map<Id, Vec>, m: Motion, frame: int, k: nat, steps: int)
    requires |m.path| >= 2 && m.end - m.start >= |m.path| && m.start <= frame < m.end && forall a :: a in m.path ==> a in anchors
    requires k + 1 < |m.path| && 0.0 <= Progress(m, frame) <= (|m.path| - 1) as real
    requires steps == (frame - m.start) * (|m.path| - 1) - k * (m.end - m.start - 1) && 0 <= steps <= m.end - m.start - 1
    ensures Divides(Point(anchors, m.path, Progress(m, frame)), anchors[m.path[k]], anchors[m.path[k + 1]], steps, m.end - m.start - 1)
  {
    var span, s := m.end - m.start - 1, Progress(m, frame);
    ShareSteps(frame - m.start, span, |m.path| - 1, k);
    ShareEdge(s, k, span, steps);
    var edge := Edge(m.path, s);
    if edge == k {
      BetweenDivides(anchors[m.path[k]], anchors[m.path[k + 1]], s - k as real, steps, span);
    } else {
      assert s == (k + 1) as real && edge == k + 1;
      BetweenEnds(anchors[m.path[edge]], anchors[m.path[edge + 1]]);
      WholeDivides(anchors[m.path[k]], anchors[m.path[k + 1]], span);
    }
  }

  /** Every frame of a motion is on some edge of its route. */
  lemma OnSomeEdge(m: Motion, frame: int) returns (k: nat)
    requires |m.path| >= 2 && m.end - m.start >= |m.path| && m.start <= frame < m.end
    ensures k + 1 < |m.path| && k * (m.end - m.start - 1) <= (frame - m.start) * (|m.path| - 1) <= (k + 1) * (m.end - m.start - 1)
  {
    LessTimes(0, frame - m.start, |m.path| - 1);
    LessTimes(frame - m.start, m.end - m.start - 1, |m.path| - 1);
    k := EdgeFrom((frame - m.start) * (|m.path| - 1), m.end - m.start - 1, |m.path| - 1, 0);
  }

  lemma {:induction false} EdgeFrom(steps: int, span: int, edges: nat, from: nat) returns (k: nat)
    requires from < edges && from * span <= steps <= edges * span
    ensures k < edges && k * span <= steps <= (k + 1) * span
    decreases edges - from
  {
    if steps <= (from + 1) * span || from + 1 == edges {
      k := from;
    } else {
      k := EdgeFrom(steps, span, edges, from + 1);
    }
  }

  lemma LessTimes(a: int, b: int, t: int)
    requires a <= b && t >= 0
    ensures a * t <= t * b
  {
  }

  /** `more` of `whole` equal steps of the stretch from `a` to `b` lie between `p` and `q`. */
  predicate Paced(p: real, q: real, a: real, b: real, more: int, whole: int) {
    (q - p) * whole as real == more as real * (b - a)
  }

  predicate StepsApart(p: Vec, q: Vec, a: Vec, b: Vec, more: int, whole: int) {
    Paced(p.x, q.x, a.x, b.x, more, whole) && Paced(p.y, q.y, a.y, b.y, more, whole) && Paced(p.z, q.z, a.z, b.z, more, whole)
  }

  /** Equal steps: two successive frames on one edge are as far apart as on any other, the edges shared evenly over the frames. */
  lemma {:induction false} EqualSteps(anchors: map<Id, Vec>, initial: Id, motions: seq<Motion>, count: int, frame: int, i: nat, k: nat)
    requires MotionsOk(anchors, initial, motions, count) && i < |motions| && motions[i].start <= frame && frame + 1 < motions[i].end
    requires var m := motions[i];
      && k + 1 < |m.path| && k * (m.end - m.start - 1) <= (frame - m.start) * (|m.path| - 1)
      && (frame + 1 - m.start) * (|m.path| - 1) <= (k + 1) * (m.end - m.start - 1)
    ensures var m, p, q := motions[i], Where(anchors, initial, motions, count, frame), Where(anchors, initial, motions, count, frame + 1);
      && m.path[k] in anchors && m.path[k + 1] in anchors
      && StepsApart(p, q, anchors[m.path[k]], anchors[m.path[k + 1]], |m.path| - 1, m.end - m.start - 1)
  {
    var m, done := motions[i], frame - motions[i].start;
    NextFrame(done, |m.path| - 1);
    assert frame + 1 - m.start == done + 1;
    InsideEdge(anchors, initial, motions, count, frame, i, k);
    InsideEdge(anchors, initial, motions, count, frame + 1, i, k);
    DividesApart(Where(anchors, initial, motions, count, frame), Where(anchors, initial, motions, count, frame + 1), anchors[m.path[k]],
                 anchors[m.path[k + 1]], done * (|m.path| - 1) - k * (m.end - m.start - 1), |m.path| - 1, m.end - m.start - 1);
  }

  lemma NextFrame(done: int, edges: nat)
    ensures done * edges <= (done + 1) * edges == done * edges + edges
  {
  }

  lemma DividesApart(p: Vec, q: Vec, a: Vec, b: Vec, part: int, more: int, whole: int)
    requires Divides(p, a, b, part, whole) && Divides(q, a, b, part + more, whole)
    ensures StepsApart(p, q, a, b, more, whole)
  {
    Apart(p.x, q.x, a.x, b.x, part, more, whole);
    Apart(p.y, q.y, a.y, b.y, part, more, whole);
    Apart(p.z, q.z, a.z, b.z, part, more, whole);
  }

  lemma Apart(p: real, q: real, a: real, b: real, part: int, more: int, whole: int)
    requires Cuts(p, a, b, part, whole) && Cuts(q, a, b, part + more, whole)
    ensures Paced(p, q, a, b, more, whole)
  {
    DistributeLeft(q, p, whole as real);
    Distribute(more as real, b, a);
    DistributeLeft((whole - part) as real, more as real, a);
    DistributeRight(part as real, more as real, b);
    assert (whole - (part + more)) as real == (whole - part) as real - more as real;
    assert (part + more) as real == part as real + more as real;
  }

  /** Before its first motion an entity is at its initial anchor. */
  lemma BeforeFirst(anchors: map<Id, Vec>, initial: Id, motions: seq<Motion>, count: int, frame: int)
    requires MotionsOk(anchors, initial, motions, count) && forall m :: m in motions ==> frame < m.start
    ensures Where(anchors, initial, motions, count, frame) == anchors[initial]
  {
    if motions != [] {
      assert motions[0] in motions;
    }
    BegunIs(anchors, initial, motions, count, frame, 0);
  }

  /** A motion is under way at a frame when the next frame still lies on its route. */
  predicate UnderWay(m: Motion, frame: int) {
    m.start <= frame < m.end - 1
  }

  /** From p to q along the motion's own route, by its share for one frame, which is at most one edge. */
  ghost predicate Walks(anchors: map<Id, Vec>, m: Motion, frame: int, p: Vec, q: Vec) {
    UnderWay(m, frame) && |m.path| >= 2 && m.end - m.start >= |m.path| && (forall a :: a in m.path ==> a in anchors) &&
    var x, y := Progress(m, frame), Progress(m, frame + 1);
    && 0.0 <= x <= y <= x + 1.0 && y <= (|m.path| - 1) as real
    && p == Point(anchors, m.path, x) && q == Point(anchors, m.path, y)
  }

  /**
   From each frame to the next: while a motion is under way the entity goes along that motion's route, at most one edge of
   it; otherwise, also where a motion begins at the next frame, it stays where it is.
   */
  lemma AtMostOneEdge(anchors: map<Id, Vec>, initial: Id, motions: seq<Motion>, count: int, frame: int)
    requires MotionsOk(anchors, initial, motions, count)
    ensures var p, q := Where(anchors, initial, motions, count, frame), Where(anchors, initial, motions, count, frame + 1);
      && (forall i :: 0 <= i < |motions| && UnderWay(motions[i], frame) ==> Walks(anchors, motions[i], frame, p, q))
      && ((forall i :: 0 <= i < |motions| ==> !UnderWay(motions[i], frame)) ==> p == q)
  {
    forall i | 0 <= i < |motions| && UnderWay(motions[i], frame)
      ensures Walks(anchors, motions[i], frame, Where(anchors, initial, motions, count, frame), Where(anchors, initial, motions, count, frame + 1))
    {
      Places(anchors, initial, motions, count, i);
      WalksOn(anchors, initial, motions, count, frame, i);
    }
    if forall i :: 0 <= i < |motions| ==> !UnderWay(motions[i], frame) {
      StaysPut(anchors, initial, motions, count, frame);
    }
  }

  lemma WalksOn(anchors: map<Id, Vec>, initial: Id, motions: seq<Motion>, count: int, frame: int, i: nat)
    requires MotionsOk(anchors, initial, motions, count) && i < |motions| && UnderWay(motions[i], frame)
    requires |motions[i].path| >= 2 && motions[i].end - motions[i].start >= |motions[i].path|
    requires forall a :: a in motions[i].path ==> a in anchors
    ensures Walks(anchors, motions[i], frame, Where(anchors, initial, motions, count, frame), Where(anchors, initial, motions, count, frame + 1))
  {
    var m := motions[i];
    if i + 1 < |motions| {
      StartsRise(anchors, initial, motions, count, i, i + 1);
    }
    BegunIs(anchors, initial, motions, count, frame, i + 1);
    BegunIs(anchors, initial, motions, count, frame + 1, i + 1);
    ProgressRange(m, frame);
    ProgressRange(m, frame + 1);
    PointEnds(anchors, m.path);
  }

  lemma StaysPut(anchors: map<Id, Vec>, initial: Id, motions: seq<Motion>, count: int, frame: int)
    requires MotionsOk(anchors, initial, motions, count) && forall i :: 0 <= i < |motions| ==> !UnderWay(motions[i], frame)
    ensures Where(anchors, initial, motions, count, frame) == Where(anchors, initial, motions, count, frame + 1)
  {
    BegunAt(motions, frame);
    var n := Begun(motions, frame);
    if n < |motions| && motions[n].start == frame + 1 {
      StartsNext(anchors, initial, motions, count, frame, n);
    } else {
      BegunIs(anchors, initial, motions, count, frame + 1, n);
      if n > 0 {
        Places(anchors, initial, motions, count, n - 1);
      }
    }
  }

  /** A motion starts where the entity already is. */
  lemma StartsNext(anchors: map<Id, Vec>, initial: Id, motions: seq<Motion>, count: int, frame: int, n: nat)
    requires MotionsOk(anchors, initial, motions, count) && n < |motions| && motions[n].start == frame + 1
    ensures Where(anchors, initial, motions, count, frame) == Where(anchors, initial, motions, count, frame + 1)
  {
    Places(anchors, initial, motions, count, n);
    if n + 1 < |motions| {
      StartsRise(anchors, initial, motions, count, n, n + 1);
    }
    MotionEnds(anchors, initial, motions, count, n, frame + 1);
    if n > 0 {
      Places(anchors, initial, motions, count, n - 1);
      MotionEnds(anchors, initial, motions, count, n - 1, frame);
    } else {
      BegunIs(anchors, initial, motions, count, frame, 0);
    }
  }
}
