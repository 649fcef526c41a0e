/**
 The ducking envelope of src/fsf/production/speech.py: a sweep over ramp edges that keeps the active
 lines, cuts every elementary interval at the rounded-up crossings of its lines, picks the lowest line
 on each part and merges neighbours. The specification is the pointwise minimum of the events' clipped
 attack/hold/release gains. Exact fractions are modelled by `real`.
 */
module Ducking {
  import opened Wrappers
  import opened Reals
  import opened Sorting

  const MAX_INTEGER: int := 0x7FFF_FFFF_FFFF_FFFF
  const MAX_ATTENUATION: int := 120000
  const MAX_EVENTS: int := 10000

  /** OutOfRange is PRODUCTION_INVALID (an integer outside its bounds); the others are the speech and ducking codes. */
  datatype Error = OutOfRange | Invalid | SelfTarget | Complexity

  datatype Event = Event(eventId: string, trackId: string, startSample: int, endSample: int)

  datatype Coverage = Coverage(timelineSamples: int, intervals: seq<Event>)

  datatype Settings = Settings(
    targetTrackId: string, attenuation: int, attackSamples: int, releaseSamples: int, maxOperations: int)

  datatype Piece = Piece(startSample: int, endSample: int, startGain: real, endGain: real)

  datatype Envelope = Envelope(timelineSamples: int, settings: Settings, pieces: seq<Piece>)

  datatype Line = Line(slope: real, intercept: real) {
    function At(x: int): real {
      slope * (x as real) + intercept
    }
  }

  // ---------------------------------------------------------------------------------------------
  // Specification: the pointwise minimum over events
  // ---------------------------------------------------------------------------------------------

  function Min(a: real, b: real): real {
    if a <= b then a else b
  }

  /** The gain one event asks for at a sample: attack ramp, full attenuation, release ramp, otherwise none. */
  ghost function EventGain(e: Event, c: Settings, s: int): real {
    var amount := c.attenuation as real;
    if e.startSample - c.attackSamples <= s < e.startSample then
      -amount * ((s - (e.startSample - c.attackSamples)) as real) / (c.attackSamples as real)
    else if e.startSample <= s < e.endSample then
      -amount
    else if e.endSample <= s < e.endSample + c.releaseSamples then
      -amount + amount * ((s - e.endSample) as real) / (c.releaseSamples as real)
    else
      0.0
  }

  ghost function TargetGain(events: seq<Event>, c: Settings, s: int): real {
    if events == [] then 0.0
    else Min(TargetGain(events[..|events| - 1], c, s), EventGain(events[|events| - 1], c, s))
  }

  /** What an envelope says at a sample: linear interpolation inside the first piece containing it. */
  function PieceGain(p: Piece, s: int): real
    requires p.startSample < p.endSample
  {
    p.startGain + (p.endGain - p.startGain) * (((s - p.startSample) as real) / ((p.endSample - p.startSample) as real))
  }

  ghost function EnvelopeGain(pieces: seq<Piece>, s: int): real
    requires forall i :: 0 <= i < |pieces| ==> pieces[i].startSample < pieces[i].endSample
  {
    if pieces == [] then 0.0
    else if pieces[0].startSample <= s < pieces[0].endSample then PieceGain(pieces[0], s)
    else EnvelopeGain(pieces[1..], s)
  }

  ghost predicate PiecesTile(pieces: seq<Piece>, from: int, to: int) {
    && (pieces == [] ==> from == to)
    && (forall i :: 0 <= i < |pieces| ==> pieces[i].startSample < pieces[i].endSample)
    && (pieces != [] ==> pieces[0].startSample == from && pieces[|pieces| - 1].endSample == to)
    && (forall i :: 0 < i < |pieces| ==> pieces[i - 1].endSample == pieces[i].startSample)
  }

  ghost predicate GainsWithin(pieces: seq<Piece>, amount: int) {
    forall i :: 0 <= i < |pieces| ==>
      -(amount as real) <= pieces[i].startGain <= 0.0 && -(amount as real) <= pieces[i].endGain <= 0.0
  }

  predicate SettingsInRange(c: Settings) {
    && 0 <= c.attenuation <= MAX_ATTENUATION
    && 0 <= c.attackSamples <= MAX_INTEGER
    && 0 <= c.releaseSamples <= MAX_INTEGER
    && 1 <= c.maxOperations <= MAX_INTEGER
  }

  ghost predicate ValidEnvelope(env: Envelope) {
    && 1 <= env.timelineSamples <= MAX_INTEGER
    && 0 <= env.settings.attenuation <= MAX_ATTENUATION
    && 0 <= env.settings.attackSamples <= MAX_INTEGER
    && 0 <= env.settings.releaseSamples <= MAX_INTEGER
    && env.pieces != []
    && PiecesTile(env.pieces, 0, env.timelineSamples)
    && GainsWithin(env.pieces, env.settings.attenuation)
  }

  // ---------------------------------------------------------------------------------------------
  // Which inputs are refused, and with which error
  // ---------------------------------------------------------------------------------------------

  function EventError(events: seq<Event>, k: nat, c: Settings, total: int): Option<Error>
    requires k < |events|
  {
    var e := events[k];
    if exists j :: 0 <= j < k && events[j].eventId == e.eventId then Some(Invalid)
    else if e.trackId == c.targetTrackId then Some(SelfTarget)
    else if !(0 <= e.startSample <= MAX_INTEGER && 0 <= e.endSample <= MAX_INTEGER) then Some(OutOfRange)
    else if !(e.startSample < e.endSample <= total) then Some(Invalid)
    else None
  }

  /** The error of the first refused event from position `k` on. */
  function FirstEventError(events: seq<Event>, k: nat, c: Settings, total: int): Option<Error>
    requires k <= |events|
    decreases |events| - k
  {
    if k == |events| then None
    else if EventError(events, k, c, total).Some? then EventError(events, k, c, total)
    else FirstEventError(events, k + 1, c, total)
  }

  function InputError(coverage: Coverage, c: Settings): Option<Error> {
    if !(SettingsInRange(c) && 1 <= coverage.timelineSamples <= MAX_INTEGER) then Some(OutOfRange)
    else if |coverage.intervals| > MAX_EVENTS then Some(Invalid)
    else FirstEventError(coverage.intervals, 0, c, coverage.timelineSamples)
  }

  // ---------------------------------------------------------------------------------------------
  // The lines the sweep works with, as a sequence in order of creation
  // ---------------------------------------------------------------------------------------------

  datatype Span = Span(left: int, right: int, line: Line) {
    predicate Covers(s: int) {
      left <= s < right
    }
  }

  function Clip(left: int, right: int, line: Line, total: int): seq<Span> {
    var l := if left > 0 then left else 0;
    var r := if right < total then right else total;
    if l >= r then [] else [Span(l, r, line)]
  }

  function AttackLine(e: Event, c: Settings): Line
    requires c.attackSamples > 0
  {
    var slope := -(c.attenuation as real) / (c.attackSamples as real);
    Line(slope, -slope * ((e.startSample - c.attackSamples) as real))
  }

  function HoldLine(c: Settings): Line {
    Line(0.0, -(c.attenuation as real))
  }

  function ReleaseLine(e: Event, c: Settings): Line
    requires c.releaseSamples > 0
  {
    var slope := (c.attenuation as real) / (c.releaseSamples as real);
    Line(slope, -(c.attenuation as real) - slope * (e.endSample as real))
  }

  ghost function AttackSpans(e: Event, c: Settings, total: int): seq<Span> {
    if c.attackSamples > 0 then Clip(e.startSample - c.attackSamples, e.startSample, AttackLine(e, c), total) else []
  }

  ghost function HoldSpans(e: Event, c: Settings, total: int): seq<Span> {
    Clip(e.startSample, e.endSample, HoldLine(c), total)
  }

  ghost function ReleaseSpans(e: Event, c: Settings, total: int): seq<Span> {
    if c.releaseSamples > 0 then Clip(e.endSample, e.endSample + c.releaseSamples, ReleaseLine(e, c), total) else []
  }

  ghost function SpansOf(events: seq<Event>, c: Settings, total: int): seq<Span> {
    if events == [] then []
    else
      var e := events[|events| - 1];
      SpansOf(events[..|events| - 1], c, total) + AttackSpans(e, c, total) + HoldSpans(e, c, total) + ReleaseSpans(e, c, total)
  }

  /** The lower envelope of the base line 0 and every span covering the sample. */
  ghost function Lower(spans: seq<Span>, s: int): real {
    if spans == [] then 0.0
    else
      var rest := Lower(spans[..|spans| - 1], s);
      var last := spans[|spans| - 1];
      if last.Covers(s) then Min(rest, last.line.At(s)) else rest
  }

  ghost predicate Bounded(span: Span, amount: int) {
    && span.left < span.right
    && forall x :: span.left <= x <= span.right ==> -(amount as real) <= span.line.At(x) <= 0.0
  }

  lemma {:induction false} LowerAppend(a: seq<Span>, b: seq<Span>, s: int)
    ensures Lower(a + b, s) == Min(Lower(a, s), Lower(b, s))
  {
    if b == [] {
      assert a + b == a;
      LowerBounds(a, s);
    } else {
      assert (a + b)[..|a + b| - 1] == a + b[..|b| - 1];
      LowerAppend(a, b[..|b| - 1], s);
    }
  }

  /** `Lower` really is the minimum: below every candidate and equal to one of them. */
  lemma {:induction false} LowerBounds(spans: seq<Span>, s: int)
    ensures Lower(spans, s) <= 0.0
    ensures forall k :: 0 <= k < |spans| && spans[k].Covers(s) ==> Lower(spans, s) <= spans[k].line.At(s)
    ensures Lower(spans, s) == 0.0 || exists k :: 0 <= k < |spans| && spans[k].Covers(s) && Lower(spans, s) == spans[k].line.At(s)
  {
    if spans != [] {
      var init := spans[..|spans| - 1];
      LowerBounds(init, s);
      if Lower(init, s) != 0.0 {
        var k :| 0 <= k < |init| && init[k].Covers(s) && Lower(init, s) == init[k].line.At(s);
        assert spans[k] == init[k];
      }
      forall k | 0 <= k < |spans| && spans[k].Covers(s) ensures Lower(spans, s) <= spans[k].line.At(s) {
        if k < |init| {
          assert init[k] == spans[k];
        }
      }
      assert spans[|spans| - 1].Covers(s) || Lower(spans, s) == Lower(init, s);
    }
  }

  // ---------------------------------------------------------------------------------------------
  // Nonlinear facts about ramps and crossings
  // ---------------------------------------------------------------------------------------------

  lemma RampBounds(amount: real, t: real, n: real)
    requires amount >= 0.0 && 0.0 <= t <= n && n > 0.0
    ensures 0.0 <= amount / n * t <= amount
    ensures amount / n * t == amount * t / n
  {
    var q := amount / n;
    Quotient(amount, n);
    assert q >= 0.0;
    MulLe(0.0, q, t);
    MulLe(t, n, q);
    Associate(q, t, n);
    Associate(q, n, t);
    QuotientUnique(amount * t, n, q * t);
  }

  /** slope * x + (-slope * from) is slope times the distance from `from`. */
  lemma PointSlope(slope: real, x: int, from: int)
    ensures slope * (x as real) - slope * (from as real) == slope * ((x - from) as real)
    ensures -slope * (from as real) == -(slope * (from as real))
  {
    Distribute(slope, x as real, from as real);
    MulNeg(slope, from as real);
  }

  lemma AttackLineValue(e: Event, c: Settings, x: int)
    requires c.attackSamples > 0 && c.attenuation >= 0
    requires e.startSample - c.attackSamples <= x <= e.startSample
    ensures AttackLine(e, c).At(x) == -(c.attenuation as real) * ((x - (e.startSample - c.attackSamples)) as real) / (c.attackSamples as real)
    ensures -(c.attenuation as real) <= AttackLine(e, c).At(x) <= 0.0
  {
    var amount, n := c.attenuation as real, c.attackSamples as real;
    var from := e.startSample - c.attackSamples;
    var t, q := (x - from) as real, amount / n;
    var slope := -amount / n;
    PointSlope(slope, x, from);
    RampBounds(amount, t, n);
    Quotient(amount, n);
    MulNeg(q, n);
    QuotientUnique(-amount, n, -q);
    MulNeg(q, t);
    MulNeg(amount, t);
    Quotient(amount * t, n);
    MulNeg(amount * t / n, n);
    QuotientUnique(-(amount * t), n, -(amount * t / n));
  }

  lemma ReleaseLineValue(e: Event, c: Settings, x: int)
    requires c.releaseSamples > 0 && c.attenuation >= 0
    requires e.endSample <= x <= e.endSample + c.releaseSamples
    ensures ReleaseLine(e, c).At(x) == -(c.attenuation as real) + (c.attenuation as real) * ((x - e.endSample) as real) / (c.releaseSamples as real)
    ensures -(c.attenuation as real) <= ReleaseLine(e, c).At(x) <= 0.0
  {
    var amount, n := c.attenuation as real, c.releaseSamples as real;
    PointSlope(amount / n, x, e.endSample);
    RampBounds(amount, (x - e.endSample) as real, n);
  }

  /** Where two lines of different slope meet. */
  function Cross(p: Line, q: Line): real
    requires p.slope != q.slope
  {
    (q.intercept - p.intercept) / (p.slope - q.slope)
  }

  function Ceil(x: real): int {
    -((-x).Floor)
  }

  /** If `p` is below `q` at `start` and above it at `s`, they cross in between, at a place that rounds up to at most `s`. */
  lemma CrossingBetween(p: Line, q: Line, start: int, s: int)
    requires start < s
    requires p.At(start) < q.At(start) && q.At(s) < p.At(s)
    ensures p.slope != q.slope
    ensures start as real < Cross(p, q) < s as real
    ensures start < Ceil(Cross(p, q)) <= s
  {
    var a, b := start as real, s as real;
    DistributeLeft(p.slope, q.slope, a);
    DistributeLeft(p.slope, q.slope, b);
    RootBetween(p.slope - q.slope, q.intercept - p.intercept, a, b);
  }

  lemma CrossSymmetric(p: Line, q: Line)
    requires p.slope != q.slope
    ensures Cross(p, q) == Cross(q, p)
  {
    var k, d := p.slope - q.slope, q.intercept - p.intercept;
    Quotient(d, k);
    MulNeg(k, d / k);
    QuotientUnique(-d, -k, d / k);
  }

  /** On one line, the difference of two values is the slope times the distance. */
  lemma LineStep(line: Line, from: int, x: int)
    ensures line.At(x) == line.At(from) + line.slope * ((x - from) as real)
  {
    PointSlope(line.slope, x, from);
  }

  /** Interpolating between two points of a line gives the line. */
  lemma InterpolationExact(line: Line, l: int, r: int, s: int)
    requires l < r
    ensures PieceGain(Piece(l, r, line.At(l), line.At(r)), s) == line.At(s)
  {
    var n, t := (r - l) as real, (s - l) as real;
    LineStep(line, l, r);
    LineStep(line, l, s);
    Quotient(t, n);
    Associate(line.slope, n, t / n);
  }

  // ---------------------------------------------------------------------------------------------
  // Spans against events
  // ---------------------------------------------------------------------------------------------

  ghost predicate EventOk(e: Event, total: int) {
    0 <= e.startSample < e.endSample <= total
  }

  lemma LowerOfClip(left: int, right: int, line: Line, total: int, s: int)
    requires 0 <= s < total
    ensures Lower(Clip(left, right, line, total), s) == if left <= s < right then Min(0.0, line.At(s)) else 0.0
  {
    var spans := Clip(left, right, line, total);
    if spans != [] {
      assert spans[..|spans| - 1] == [];
    }
  }

  lemma AttackSpansMatch(e: Event, c: Settings, total: int, s: int)
    requires SettingsInRange(c) && EventOk(e, total) && 0 <= s < total
    ensures -(c.attenuation as real) <= Lower(AttackSpans(e, c, total), s) <= 0.0
    ensures Lower(AttackSpans(e, c, total), s) ==
            if e.startSample - c.attackSamples <= s < e.startSample then EventGain(e, c, s) else 0.0
  {
    if c.attackSamples > 0 {
      LowerOfClip(e.startSample - c.attackSamples, e.startSample, AttackLine(e, c), total, s);
      if e.startSample - c.attackSamples <= s < e.startSample {
        AttackLineValue(e, c, s);
      }
    }
  }

  lemma ReleaseSpansMatch(e: Event, c: Settings, total: int, s: int)
    requires SettingsInRange(c) && EventOk(e, total) && 0 <= s < total
    ensures -(c.attenuation as real) <= Lower(ReleaseSpans(e, c, total), s) <= 0.0
    ensures Lower(ReleaseSpans(e, c, total), s) ==
            if e.endSample <= s < e.endSample + c.releaseSamples then EventGain(e, c, s) else 0.0
  {
    if c.releaseSamples > 0 {
      LowerOfClip(e.endSample, e.endSample + c.releaseSamples, ReleaseLine(e, c), total, s);
      if e.endSample <= s < e.endSample + c.releaseSamples {
        ReleaseLineValue(e, c, s);
      }
    }
  }

  lemma HoldSpansMatch(e: Event, c: Settings, total: int, s: int)
    requires SettingsInRange(c) && EventOk(e, total) && 0 <= s < total
    ensures Lower(HoldSpans(e, c, total), s) ==
            if e.startSample <= s < e.endSample then -(c.attenuation as real) else 0.0
  {
    LowerOfClip(e.startSample, e.endSample, HoldLine(c), total, s);
    assert HoldLine(c).At(s) == -(c.attenuation as real);
  }

  lemma EventSpansMatch(e: Event, c: Settings, total: int, s: int)
    requires SettingsInRange(c) && EventOk(e, total) && 0 <= s < total
    ensures Min(Min(Lower(AttackSpans(e, c, total), s), Lower(HoldSpans(e, c, total), s)), Lower(ReleaseSpans(e, c, total), s))
         == EventGain(e, c, s)
    ensures -(c.attenuation as real) <= EventGain(e, c, s) <= 0.0
  {
    AttackSpansMatch(e, c, total, s);
    HoldSpansMatch(e, c, total, s);
    ReleaseSpansMatch(e, c, total, s);
  }

  /** The lower envelope of the sweep's lines is the pointwise minimum of the events' gains. */
  lemma {:induction false} SpansMatchEvents(events: seq<Event>, c: Settings, total: int, s: int)
    requires SettingsInRange(c) && 0 <= s < total
    requires forall k :: 0 <= k < |events| ==> EventOk(events[k], total)
    ensures Lower(SpansOf(events, c, total), s) == TargetGain(events, c, s)
  {
    if events != [] {
      var init, e := events[..|events| - 1], events[|events| - 1];
      SpansMatchEvents(init, c, total, s);
      EventSpansMatch(e, c, total, s);
      var a, h, r := AttackSpans(e, c, total), HoldSpans(e, c, total), ReleaseSpans(e, c, total);
      var base := SpansOf(init, c, total);
      LowerAppend(base, a, s);
      LowerAppend(base + a, h, s);
      LowerAppend(base + a + h, r, s);
    }
  }

  ghost predicate SpansBounded(spans: seq<Span>, amount: int, total: int) {
    forall k :: 0 <= k < |spans| ==> Bounded(spans[k], amount) && 0 <= spans[k].left && spans[k].right <= total
  }

  lemma EventSpansBounded(e: Event, c: Settings, total: int)
    requires SettingsInRange(c) && EventOk(e, total)
    ensures SpansBounded(AttackSpans(e, c, total), c.attenuation, total)
    ensures SpansBounded(HoldSpans(e, c, total), c.attenuation, total)
    ensures SpansBounded(ReleaseSpans(e, c, total), c.attenuation, total)
  {
    forall x ensures HoldLine(c).At(x) == -(c.attenuation as real) {
    }
    if c.attackSamples > 0 {
      forall x | e.startSample - c.attackSamples <= x <= e.startSample
        ensures -(c.attenuation as real) <= AttackLine(e, c).At(x) <= 0.0
      {
        AttackLineValue(e, c, x);
      }
    }
    if c.releaseSamples > 0 {
      forall x | e.endSample <= x <= e.endSample + c.releaseSamples
        ensures -(c.attenuation as real) <= ReleaseLine(e, c).At(x) <= 0.0
      {
        ReleaseLineValue(e, c, x);
      }
    }
  }

  // ---------------------------------------------------------------------------------------------
  // What the envelope means
  // ---------------------------------------------------------------------------------------------

  /** The target is a minimum: no event asks for less, and it is 0 or asked for by some event. */
  lemma {:induction false} TargetIsMinimum(events: seq<Event>, c: Settings, total: int, s: int)
    requires SettingsInRange(c) && 0 <= s < total
    requires forall k :: 0 <= k < |events| ==> EventOk(events[k], total)
    ensures forall k :: 0 <= k < |events| ==> TargetGain(events, c, s) <= EventGain(events[k], c, s)
    ensures TargetGain(events, c, s) == 0.0 || exists k :: 0 <= k < |events| && TargetGain(events, c, s) == EventGain(events[k], c, s)
    ensures -(c.attenuation as real) <= TargetGain(events, c, s) <= 0.0
  {
    if events != [] {
      var init, n := events[..|events| - 1], |events| - 1;
      TargetIsMinimum(init, c, total, s);
      EventSpansMatch(events[n], c, total, s);
      if TargetGain(init, c, s) != 0.0 {
        var k :| 0 <= k < |init| && TargetGain(init, c, s) == EventGain(init[k], c, s);
        assert events[k] == init[k];
      }
      forall k | 0 <= k < |events| ensures TargetGain(events, c, s) <= EventGain(events[k], c, s) {
        if k < n {
          assert events[k] == init[k];
        }
      }
    }
  }

  /** However events overlap, a sample inside any dialogue interval gets exactly the full attenuation: never doubled. */
  lemma DialogueFullyDucked(events: seq<Event>, c: Settings, total: int, s: int, k: nat)
    requires SettingsInRange(c) && 0 <= s < total && k < |events|
    requires forall j :: 0 <= j < |events| ==> EventOk(events[j], total)
    requires events[k].startSample <= s < events[k].endSample
    ensures TargetGain(events, c, s) == -(c.attenuation as real)
  {
    TargetIsMinimum(events, c, total, s);
    assert EventGain(events[k], c, s) == -(c.attenuation as real);
  }

  // ---------------------------------------------------------------------------------------------
  // The sweep's board: edges by position, lines by ordinal
  // ---------------------------------------------------------------------------------------------

  datatype Edge = Edge(add: seq<int>, remove: seq<int>)

  datatype Board = Board(edges: map<int, Edge>, lines: map<int, Line>, ordinal: int)

  ghost function Ends(spans: seq<Span>): set<int> {
    (set k | 0 <= k < |spans| :: spans[k].left) + (set k | 0 <= k < |spans| :: spans[k].right)
  }

  ghost predicate EdgesList(edges: map<int, Edge>, spans: seq<Span>) {
    forall p, id :: p in edges ==>
      && (id in edges[p].add <==> 1 <= id <= |spans| && spans[id - 1].left == p)
      && (id in edges[p].remove <==> 1 <= id <= |spans| && spans[id - 1].right == p)
  }

  ghost predicate BoardOk(b: Board, spans: seq<Span>, total: int) {
    && b.ordinal == |spans|
    && (forall id :: id in b.lines <==> 1 <= id <= |spans|)
    && (forall id :: 1 <= id <= |spans| ==> b.lines[id] == spans[id - 1].line)
    && b.edges.Keys == {0, total} + Ends(spans)
    && EdgesList(b.edges, spans)
  }

  function EdgeAt(edges: map<int, Edge>, p: int): Edge {
    if p in edges then edges[p] else Edge([], [])
  }

  lemma EndsAppend(spans: seq<Span>, x: Span)
    ensures Ends(spans + [x]) == Ends(spans) + {x.left, x.right}
  {
    var all := spans + [x];
    assert all[|spans|] == x;
    forall p ensures p in Ends(all) <==> p in Ends(spans) + {x.left, x.right} {
      if p in Ends(spans) {
        var k :| 0 <= k < |spans| && (p == spans[k].left || p == spans[k].right);
        assert all[k] == spans[k];
      }
    }
  }

  /** The nested `add`: clip to the timeline, drop an empty span, number the line and file it under both ends. */
  method AddLine(b: Board, left: int, right: int, line: Line, total: int, ghost spans: seq<Span>) returns (r: Board)
    requires BoardOk(b, spans, total)
    ensures BoardOk(r, spans + Clip(left, right, line, total), total)
  {
    var l := if left > 0 then left else 0;
    var h := if right < total then right else total;
    if l >= h {
      assert spans + [] == spans;
      return b;
    }
    var id := b.ordinal + 1;
    var lines := b.lines[id := line];
    var edges := b.edges;
    var e := EdgeAt(edges, l);
    edges := edges[l := e.(add := e.add + [id])];
    e := EdgeAt(edges, h);
    edges := edges[h := e.(remove := e.remove + [id])];
    r := Board(edges, lines, id);
    AddLineOk(b, r, spans, Span(l, h, line), total);
  }

  /** What is filed at a position, also when nothing is. */
  lemma EdgeAtLists(b: Board, spans: seq<Span>, total: int, p: int, id: int)
    requires BoardOk(b, spans, total)
    ensures id in EdgeAt(b.edges, p).add <==> 1 <= id <= |spans| && spans[id - 1].left == p
    ensures id in EdgeAt(b.edges, p).remove <==> 1 <= id <= |spans| && spans[id - 1].right == p
  {
    if p !in b.edges && 1 <= id <= |spans| {
      assert spans[id - 1].left in Ends(spans) && spans[id - 1].right in Ends(spans);
    }
  }

  ghost predicate FiledAlso(b: Board, r: Board, x: Span) {
    && r.ordinal == b.ordinal + 1 && r.lines == b.lines[r.ordinal := x.line]
    && r.edges.Keys == b.edges.Keys + {x.left, x.right}
    && forall p :: p in r.edges ==>
      && r.edges[p].add == EdgeAt(b.edges, p).add + (if p == x.left then [r.ordinal] else [])
      && r.edges[p].remove == EdgeAt(b.edges, p).remove + (if p == x.right then [r.ordinal] else [])
  }

  lemma EdgesAlso(b: Board, r: Board, spans: seq<Span>, x: Span, total: int)
    requires BoardOk(b, spans, total) && FiledAlso(b, r, x)
    ensures EdgesList(r.edges, spans + [x])
  {
    var all := spans + [x];
    forall p, id | p in r.edges
      ensures id in r.edges[p].add <==> 1 <= id <= |all| && all[id - 1].left == p
      ensures id in r.edges[p].remove <==> 1 <= id <= |all| && all[id - 1].right == p
    {
      EdgeAtLists(b, spans, total, p, id);
    }
  }

  /** Filing one more line under both its ends keeps the board in step with the spans. */
  lemma AddLineOk(b: Board, r: Board, spans: seq<Span>, x: Span, total: int)
    requires BoardOk(b, spans, total) && FiledAlso(b, r, x)
    ensures BoardOk(r, spans + [x], total)
  {
    EndsAppend(spans, x);
    EdgesAlso(b, r, spans, x, total);
  }

  method AddEvent(b: Board, e: Event, c: Settings, total: int, ghost spans: seq<Span>) returns (r: Board)
    requires BoardOk(b, spans, total)
    requires SettingsInRange(c)
    ensures BoardOk(r, spans + AttackSpans(e, c, total) + HoldSpans(e, c, total) + ReleaseSpans(e, c, total), total)
  {
    r := b;
    if c.attackSamples > 0 {
      r := AddLine(r, e.startSample - c.attackSamples, e.startSample, AttackLine(e, c), total, spans);
    }
    ghost var s := spans + AttackSpans(e, c, total);
    assert c.attackSamples == 0 ==> s == spans;
    r := AddLine(r, e.startSample, e.endSample, HoldLine(c), total, s);
    s := s + HoldSpans(e, c, total);
    if c.releaseSamples > 0 {
      r := AddLine(r, e.endSample, e.endSample + c.releaseSamples, ReleaseLine(e, c), total, s);
    } else {
      assert s + ReleaseSpans(e, c, total) == s;
    }
  }

  // ---------------------------------------------------------------------------------------------
  // The active set
  // ---------------------------------------------------------------------------------------------

  ghost predicate CoversId(spans: seq<Span>, id: int, p: int) {
    1 <= id <= |spans| && spans[id - 1].Covers(p)
  }

  ghost function CoverIds(spans: seq<Span>, p: int): set<int> {
    set id | 1 <= id <= |spans| && CoversId(spans, id, p)
  }

  ghost predicate ActiveOk(active: map<int, Line>, spans: seq<Span>, p: int) {
    && active.Keys == {0} + CoverIds(spans, p)
    && active[0] == Line(0.0, 0.0)
    && forall id :: id in CoverIds(spans, p) ==> active[id] == spans[id - 1].line
  }

  /** No span begins or ends strictly between the two positions. */
  ghost predicate Quiet(spans: seq<Span>, p: int, q: int) {
    forall k :: 0 <= k < |spans| ==> !(p < spans[k].left < q) && !(p < spans[k].right < q)
  }

  method RemoveAll(active: map<int, Line>, out: seq<int>) returns (r: map<int, Line>)
    ensures forall id :: id in r <==> id in active && id !in out
    ensures forall id :: id in r ==> r[id] == active[id]
  {
    r := active;
    for i := 0 to |out|
      invariant forall id :: id in r <==> id in active && id !in out[..i]
      invariant forall id :: id in r ==> r[id] == active[id]
    {
      r := r - {out[i]};
    }
    assert out[..|out|] == out;
  }

  method AddAll(active: map<int, Line>, into: seq<int>, lines: map<int, Line>) returns (r: map<int, Line>)
    requires forall id :: id in into ==> id in lines
    ensures forall id :: id in r <==> id in active || id in into
    ensures forall id :: id in r ==> r[id] == if id in into then lines[id] else active[id]
  {
    r := active;
    for i := 0 to |into|
      invariant forall id :: id in r <==> id in active || id in into[..i]
      invariant forall id :: id in r && id in into[..i] ==> r[id] == lines[id]
      invariant forall id :: id in r && id !in into[..i] ==> r[id] == active[id]
    {
      var id := into[i];
      assert id in into;
      r := r[id := lines[id]];
    }
    assert into[..|into|] == into;
  }

  /** Apply the removals, then the additions, recorded at one position. */
  method StepActive(active: map<int, Line>, b: Board, ghost spans: seq<Span>, ghost total: int, ghost prev: int, left: int)
    returns (r: map<int, Line>)
    requires BoardOk(b, spans, total) && left in b.edges
    requires prev < left && ActiveOk(active, spans, prev) && Quiet(spans, prev, left)
    requires forall k :: 0 <= k < |spans| ==> spans[k].left < spans[k].right
    ensures ActiveOk(r, spans, left)
  {
    var kept := RemoveAll(active, b.edges[left].remove);
    forall id | id in b.edges[left].add ensures id in b.lines {
      assert 1 <= id <= |spans|;
    }
    r := AddAll(kept, b.edges[left].add, b.lines);
    forall id ensures id in r <==> id == 0 || id in CoverIds(spans, left) {
      CoverStep(spans, prev, left, id);
    }
  }

  lemma CoverStep(spans: seq<Span>, prev: int, left: int, id: int)
    requires prev < left && Quiet(spans, prev, left)
    requires forall k :: 0 <= k < |spans| ==> spans[k].left < spans[k].right
    ensures 1 <= id <= |spans| ==>
      (CoversId(spans, id, left) <==>
       spans[id - 1].left == left || (CoversId(spans, id, prev) && spans[id - 1].right != left))
  {
  }

  lemma HasKey(s: set<int>)
    ensures s == {} || exists x :: x in s
  {
    HasElement(s);
  }

  /** list(active.values()) in some order. */
  method Values(active: map<int, Line>) returns (r: seq<Line>)
    ensures |r| == |active|
    ensures forall v :: v in r <==> exists id :: id in active && active[id] == v
  {
    r := [];
    var rest := active.Keys;
    while rest != {}
      invariant rest <= active.Keys
      invariant |r| + |rest| == |active|
      invariant forall v :: v in r ==> exists id :: id in active && active[id] == v
      invariant forall id :: id in active && id !in rest ==> active[id] in r
      decreases rest
    {
      HasKey(rest);
      var id :| id in rest;
      r := r + [active[id]];
      rest := rest - {id};
    }
  }

  // ---------------------------------------------------------------------------------------------
  // Cutting an elementary interval
  // ---------------------------------------------------------------------------------------------

  ghost predicate CutBy(cuts: set<int>, p: Line, q: Line, left: int, right: int) {
    (p.slope != q.slope && left as real < Cross(p, q) < right as real && left < Ceil(Cross(p, q)) < right) ==>
      Ceil(Cross(p, q)) in cuts
  }

  lemma CutByMonotone(cuts: set<int>, more: set<int>, p: Line, q: Line, left: int, right: int)
    requires cuts <= more && CutBy(cuts, p, q, left, right)
    ensures CutBy(more, p, q, left, right)
  {
  }

  method CutPair(cuts: set<int>, p: Line, q: Line, left: int, right: int) returns (r: set<int>)
    ensures cuts <= r && CutBy(r, p, q, left, right)
    ensures forall x :: x in r ==> x in cuts || left < x < right
  {
    r := cuts;
    if p.slope != q.slope {
      var cross := Cross(p, q);
      if left as real < cross < right as real {
        var cut := Ceil(cross);
        if left < cut < right {
          r := cuts + {cut};
        }
      }
    }
  }

  /** Every pair (m, n) with m < n and m < i, or m == i and n < j, has been cut. */
  ghost predicate CutUpTo(cuts: set<int>, values: seq<Line>, i: int, j: int, left: int, right: int) {
    forall m, n :: 0 <= m < n < |values| && (m < i || (m == i && n < j)) ==> CutBy(cuts, values[m], values[n], left, right)
  }

  method Cuts(values: seq<Line>, left: int, right: int) returns (cuts: set<int>)
    requires left < right
    ensures left in cuts && right in cuts
    ensures forall x :: x in cuts ==> left <= x <= right
    ensures forall p, q :: p in values && q in values ==> CutBy(cuts, p, q, left, right)
  {
    cuts := {left, right};
    var i := 0;
    while i < |values|
      invariant 0 <= i <= |values|
      invariant left in cuts && right in cuts
      invariant forall x :: x in cuts ==> left <= x <= right
      invariant CutUpTo(cuts, values, i, i + 1, left, right)
    {
      var j := i + 1;
      while j < |values|
        invariant i < j <= |values|
        invariant left in cuts && right in cuts
        invariant forall x :: x in cuts ==> left <= x <= right
        invariant CutUpTo(cuts, values, i, j, left, right)
      {
        var more := CutPair(cuts, values[i], values[j], left, right);
        forall m, n | 0 <= m < n < |values| && (m < i || (m == i && n < j)) ensures CutBy(more, values[m], values[n], left, right) {
          CutByMonotone(cuts, more, values[m], values[n], left, right);
        }
        cuts := more;
        j := j + 1;
      }
      i := i + 1;
    }
    forall p, q | p in values && q in values ensures CutBy(cuts, p, q, left, right) {
      PairIsCut(cuts, values, left, right, p, q);
    }
  }

  lemma PairIsCut(cuts: set<int>, values: seq<Line>, left: int, right: int, p: Line, q: Line)
    requires CutUpTo(cuts, values, |values|, |values|, left, right) && p in values && q in values
    ensures CutBy(cuts, p, q, left, right)
  {
    var m :| 0 <= m < |values| && values[m] == p;
    var n :| 0 <= n < |values| && values[n] == q;
    if m < n {
      assert CutBy(cuts, values[m], values[n], left, right);
    } else if n < m {
      assert CutBy(cuts, values[n], values[m], left, right);
      if p.slope != q.slope {
        CrossSymmetric(p, q);
      }
    }
  }

  /** The line with the smallest value at `start`, ties going to the smallest slope. */
  method Lowest(values: seq<Line>, start: int) returns (best: Line)
    requires values != []
    ensures best in values
    ensures forall v :: v in values ==>
      best.At(start) < v.At(start) || (best.At(start) == v.At(start) && best.slope <= v.slope)
  {
    best := values[0];
    for i := 1 to |values|
      invariant best in values
      invariant forall k :: 0 <= k < i ==>
        best.At(start) < values[k].At(start) || (best.At(start) == values[k].At(start) && best.slope <= values[k].slope)
    {
      var v := values[i];
      if v.At(start) < best.At(start) || (v.At(start) == best.At(start) && v.slope < best.slope) {
        best := v;
      }
    }
  }

  lemma TieStays(p: Line, q: Line, start: int, s: int)
    requires p.At(start) == q.At(start) && p.slope <= q.slope && start <= s
    ensures p.At(s) <= q.At(s)
  {
    var t := (s - start) as real;
    LineStep(p, start, s);
    LineStep(q, start, s);
    MulLe(p.slope, q.slope, t);
    var a, b := p.At(start), q.At(start);
    var m, n := p.slope * t, q.slope * t;
    assert p.At(s) == a + m && q.At(s) == b + n;
  }

  /** A line that wins at `start` keeps winning at every integer sample before the next cut. */
  lemma WinnerStays(values: seq<Line>, cuts: set<int>, best: Line, left: int, start: int, end: int, right: int, s: int, v: Line)
    requires left <= start < end <= right && start <= s < end
    requires best in values && v in values
    requires best.At(start) < v.At(start) || (best.At(start) == v.At(start) && best.slope <= v.slope)
    requires CutBy(cuts, best, v, left, right)
    requires forall x :: x in cuts ==> x <= start || end <= x
    ensures best.At(s) <= v.At(s)
  {
    if best.At(start) == v.At(start) {
      TieStays(best, v, start, s);
    } else if s > start && v.At(s) < best.At(s) {
      CrossingBetween(best, v, start, s);
      assert false;
    }
  }

  // ---------------------------------------------------------------------------------------------
  // Emitting and merging pieces
  // ---------------------------------------------------------------------------------------------

  /** A piece together with the line it was cut from, which the builder drops at the end. */
  datatype Draft = Draft(piece: Piece, line: Line)

  ghost predicate DraftOk(d: Draft, spans: seq<Span>, amount: int) {
    var p := d.piece;
    && p.startSample < p.endSample
    && p.startGain == d.line.At(p.startSample) && p.endGain == d.line.At(p.endSample)
    && -(amount as real) <= p.startGain <= 0.0 && -(amount as real) <= p.endGain <= 0.0
    && forall s :: p.startSample <= s < p.endSample ==> d.line.At(s) == Lower(spans, s)
  }

  ghost predicate DraftsOk(drafts: seq<Draft>, spans: seq<Span>, amount: int, upto: int) {
    && (drafts == [] ==> upto == 0)
    && (drafts != [] ==> drafts[0].piece.startSample == 0 && drafts[|drafts| - 1].piece.endSample == upto)
    && (forall i :: 0 <= i < |drafts| ==> DraftOk(drafts[i], spans, amount))
    && (forall i, j :: 0 <= i < j < |drafts| && j == i + 1 ==>
          drafts[i].piece.endSample == drafts[j].piece.startSample && drafts[i].line != drafts[j].line)
  }

  /** Each piece is cut from one line, and no two neighbours are cut from the same one: nothing is left to merge. */
  ghost predicate Merged(pieces: seq<Piece>, lines: seq<Line>) {
    && |lines| == |pieces|
    && (forall i :: 0 <= i < |pieces| ==>
          pieces[i].startGain == lines[i].At(pieces[i].startSample) && pieces[i].endGain == lines[i].At(pieces[i].endSample))
    && (forall i :: 0 < i < |pieces| ==> lines[i - 1] != lines[i])
  }

  lemma LineWins(active: map<int, Line>, values: seq<Line>, spans: seq<Span>, left: int, right: int, best: Line, s: int)
    requires ActiveOk(active, spans, left) && Quiet(spans, left, right) && left <= s < right
    requires forall v :: v in values <==> exists id :: id in active && active[id] == v
    requires best in values && forall v :: v in values ==> best.At(s) <= v.At(s)
    ensures best.At(s) == Lower(spans, s)
  {
    LowerBounds(spans, s);
    forall k | 0 <= k < |spans| ensures spans[k].Covers(s) <==> k + 1 in CoverIds(spans, left) {
    }
    assert active[0] in values && active[0].At(s) == 0.0;
    var id :| id in active && active[id] == best;
    if id != 0 {
      assert spans[id - 1].Covers(s);
    }
    if Lower(spans, s) != 0.0 {
      var k :| 0 <= k < |spans| && spans[k].Covers(s) && Lower(spans, s) == spans[k].line.At(s);
      assert active[k + 1] in values;
    }
  }

  lemma LineInRange(active: map<int, Line>, spans: seq<Span>, amount: int, total: int, left: int, right: int, line: Line, x: int)
    requires ActiveOk(active, spans, left) && Quiet(spans, left, right) && SpansBounded(spans, amount, total)
    requires left <= x <= right && left < right && amount >= 0
    requires exists id :: id in active && active[id] == line
    ensures -(amount as real) <= line.At(x) <= 0.0
  {
    var id :| id in active && active[id] == line;
    if id != 0 {
      assert spans[id - 1].Covers(left) && Bounded(spans[id - 1], amount);
    }
  }

  /** One elementary interval: choose the winner on each part and merge it with the previous piece when the line is the same. */
  method Emit(drafts: seq<Draft>, active: map<int, Line>, values: seq<Line>, left: int, right: int,
              ghost spans: seq<Span>, ghost amount: int, ghost total: int) returns (r: seq<Draft>)
    requires left < right && amount >= 0
    requires DraftsOk(drafts, spans, amount, left)
    requires ActiveOk(active, spans, left) && Quiet(spans, left, right) && SpansBounded(spans, amount, total)
    requires forall v :: v in values <==> exists id :: id in active && active[id] == v
    ensures DraftsOk(r, spans, amount, right) && r != []
  {
    assert active[0] in values;
    var cuts := Cuts(values, left, right);
    var ordered := Sort(cuts);
    assert left in ordered && right in ordered;
    assert ordered[0] == left && ordered[|ordered| - 1] == right by {
      assert ordered[0] in ordered && ordered[|ordered| - 1] in ordered;
    }
    r := drafts;
    for i := 0 to |ordered| - 1
      invariant DraftsOk(r, spans, amount, ordered[i])
      invariant i > 0 ==> r != []
    {
      var start, end := ordered[i], ordered[i + 1];
      assert start in ordered && end in ordered;
      var line := Lowest(values, start);
      forall s, v | start <= s < end && v in values ensures line.At(s) <= v.At(s) {
        forall x | x in cuts ensures x <= start || end <= x {
          NoneBetween(ordered, cuts, i, x);
        }
        WinnerStays(values, cuts, line, left, start, end, right, s, v);
      }
      forall s | start <= s < end ensures line.At(s) == Lower(spans, s) {
        LineWins(active, values, spans, left, right, line, s);
      }
      LineInRange(active, spans, amount, total, left, right, line, start);
      LineInRange(active, spans, amount, total, left, right, line, end);
      r := AppendOrMerge(r, line, start, end, spans, amount);
    }
  }

  method AppendOrMerge(drafts: seq<Draft>, line: Line, start: int, end: int, ghost spans: seq<Span>, ghost amount: int)
    returns (r: seq<Draft>)
    requires start < end && DraftsOk(drafts, spans, amount, start)
    requires -(amount as real) <= line.At(start) <= 0.0 && -(amount as real) <= line.At(end) <= 0.0
    requires forall s :: start <= s < end ==> line.At(s) == Lower(spans, s)
    ensures DraftsOk(r, spans, amount, end) && r != []
  {
    var n := |drafts|;
    if n > 0 && drafts[n - 1].piece.endSample == start && drafts[n - 1].line == line {
      var last := drafts[n - 1].piece;
      var merged := Draft(last.(endSample := end, endGain := line.At(end)), line);
      assert DraftOk(drafts[n - 1], spans, amount);
      assert DraftOk(merged, spans, amount);
      r := drafts[n - 1 := merged];
    } else {
      r := drafts + [Draft(Piece(start, end, line.At(start), line.At(end)), line)];
    }
  }

  // ---------------------------------------------------------------------------------------------
  // The operation budget
  // ---------------------------------------------------------------------------------------------

  /** The square of the number of lines (base line included) active on each elementary interval, summed. */
  ghost function Work(spans: seq<Span>, positions: seq<int>, upto: nat): int
    requires upto <= |positions|
  {
    if upto == 0 then 0
    else
      var n := 1 + |CoverIds(spans, positions[upto - 1])|;
      Work(spans, positions, upto - 1) + n * n
  }

  lemma {:induction false} WorkGrows(spans: seq<Span>, positions: seq<int>, i: nat, j: nat)
    requires i <= j <= |positions|
    ensures 0 <= Work(spans, positions, i) <= Work(spans, positions, j)
    decreases j
  {
    if i < j {
      WorkGrows(spans, positions, i, j - 1);
    } else if i > 0 {
      WorkGrows(spans, positions, i - 1, j - 1);
      var n := 1 + |CoverIds(spans, positions[i - 1])|;
      assert n * n >= 0;
    }
  }

  /** Total cost of an input, defined on the sorted edge positions. */
  ghost predicate Costs(coverage: Coverage, c: Settings, work: int) {
    exists positions :: PositionsOf(coverage, c, positions) && |positions| > 0
      && work == Work(SpansOf(coverage.intervals, c, coverage.timelineSamples), positions, |positions| - 1)
  }

  ghost predicate PositionsOf(coverage: Coverage, c: Settings, positions: seq<int>) {
    Lists(positions, {0, coverage.timelineSamples} + Ends(SpansOf(coverage.intervals, c, coverage.timelineSamples)))
  }

  lemma CostUnique(coverage: Coverage, c: Settings, w1: int, w2: int)
    requires Costs(coverage, c, w1) && Costs(coverage, c, w2)
    ensures w1 == w2
  {
    var spans := SpansOf(coverage.intervals, c, coverage.timelineSamples);
    var xs :| PositionsOf(coverage, c, xs) && |xs| > 0 && w1 == Work(spans, xs, |xs| - 1);
    var ys :| PositionsOf(coverage, c, ys) && |ys| > 0 && w2 == Work(spans, ys, |ys| - 1);
    ListingUnique(xs, ys, {0, coverage.timelineSamples} + Ends(spans));
  }

  // ---------------------------------------------------------------------------------------------
  // Building, validating, reading
  // ---------------------------------------------------------------------------------------------

  lemma {:induction false} EventsOkFromErrors(events: seq<Event>, k: nat, c: Settings, total: int)
    requires k <= |events| && FirstEventError(events, k, c, total) == None
    ensures forall j :: k <= j < |events| ==> EventError(events, j, c, total) == None && EventOk(events[j], total)
    decreases |events| - k
  {
    if k < |events| {
      EventsOkFromErrors(events, k + 1, c, total);
    }
  }

  lemma {:induction false} SpansOfBounded(events: seq<Event>, c: Settings, total: int)
    requires SettingsInRange(c) && forall k :: 0 <= k < |events| ==> EventOk(events[k], total)
    ensures SpansBounded(SpansOf(events, c, total), c.attenuation, total)
  {
    if events != [] {
      SpansOfBounded(events[..|events| - 1], c, total);
      EventSpansBounded(events[|events| - 1], c, total);
    }
  }

  method CheckEvent(events: seq<Event>, i: nat, seen: set<string>, c: Settings, total: int) returns (error: Option<Error>)
    requires i < |events| && seen == set j | 0 <= j < i :: events[j].eventId
    ensures error == EventError(events, i, c, total)
  {
    var e := events[i];
    if e.eventId in seen {
      return Some(Invalid);
    }
    if e.trackId == c.targetTrackId {
      return Some(SelfTarget);
    }
    if !(0 <= e.startSample <= MAX_INTEGER && 0 <= e.endSample <= MAX_INTEGER) {
      return Some(OutOfRange);
    }
    if !(e.startSample < e.endSample <= total) {
      return Some(Invalid);
    }
    return None;
  }

  method FileEvents(coverage: Coverage, c: Settings) returns (r: Result<Board, Error>)
    requires SettingsInRange(c) && coverage.timelineSamples >= 1
    ensures FirstEventError(coverage.intervals, 0, c, coverage.timelineSamples) == if r.Failure? then Some(r.error) else None
    ensures r.Success? ==>
      BoardOk(r.value, SpansOf(coverage.intervals, c, coverage.timelineSamples), coverage.timelineSamples)
  {
    var events, total := coverage.intervals, coverage.timelineSamples;
    var b := Board(map[0 := Edge([], []), total := Edge([], [])], map[], 0);
    var seen: set<string> := {};
    for i := 0 to |events|
      invariant FirstEventError(events, 0, c, total) == FirstEventError(events, i, c, total)
      invariant seen == set j | 0 <= j < i :: events[j].eventId
      invariant BoardOk(b, SpansOf(events[..i], c, total), total)
    {
      var e := events[i];
      var error := CheckEvent(events, i, seen, c, total);
      if error.Some? {
        return Failure(error.value);
      }
      seen := seen + {e.eventId};
      assert events[..i + 1][..i] == events[..i];
      b := AddEvent(b, e, c, total, SpansOf(events[..i], c, total));
    }
    assert events[..|events|] == events;
    r := Success(b);
  }

  /** The state of the sweep before interval `index`: everything left of it is drafted. */
  ghost predicate SweepInv(active: map<int, Line>, drafts: seq<Draft>, operations: int, spans: seq<Span>,
                           places: seq<int>, index: int, c: Settings)
  {
    && 0 <= index < |places| && operations <= c.maxOperations
    && ActiveOk(active, spans, if index == 0 then -1 else places[index - 1])
    && DraftsOk(drafts, spans, c.attenuation, places[index])
    && (index > 0 ==> drafts != [])
  }

  /** The same after some intervals, or the budget is already spent. */
  ghost predicate Swept(active: map<int, Line>, drafts: seq<Draft>, operations: int, over: bool, spans: seq<Span>,
                        places: seq<int>, index: int, c: Settings)
  {
    && 0 <= index < |places| && operations == Work(spans, places, index)
    && if over then operations > c.maxOperations else SweepInv(active, drafts, operations, spans, places, index, c)
  }

  /** What the sweep goes by, unchanged throughout. */
  ghost predicate Ground(b: Board, c: Settings, total: int, spans: seq<Span>, places: seq<int>) {
    && BoardOk(b, spans, total) && SettingsInRange(c) && SpansBounded(spans, c.attenuation, total)
    && Lists(places, b.edges.Keys) && |places| >= 2 && places[0] == 0
  }

  method SweepInterval(active: map<int, Line>, drafts: seq<Draft>, operations: int, b: Board, c: Settings, total: int,
                       ghost spans: seq<Span>, places: seq<int>, index: int)
    returns (active': map<int, Line>, drafts': seq<Draft>, operations': int, over: bool)
    requires Ground(b, c, total, spans, places) && index + 1 < |places|
    requires Swept(active, drafts, operations, false, spans, places, index, c)
    ensures Swept(active', drafts', operations', over, spans, places, index + 1, c)
  {
    var left, right := places[index], places[index + 1];
    assert left in places;
    assert forall k :: 0 <= k < |spans| ==> Bounded(spans[k], c.attenuation);
    QuietBetween(places, spans, total, index);
    ghost var prev := if index == 0 then -1 else places[index - 1];
    active' := StepActive(active, b, spans, total, prev, left);
    var values := Values(active');
    ActiveSize(active', spans, left);
    operations' := operations + |values| * |values|;
    over := operations' > c.maxOperations;
    drafts' := drafts;
    if !over {
      drafts' := Emit(drafts, active', values, left, right, spans, c.attenuation, total);
    }
  }

  lemma SweepStart(places: seq<int>, spans: seq<Span>, c: Settings, total: int)
    requires Lists(places, {0, total} + Ends(spans)) && SettingsInRange(c) && total >= 1
    requires SpansBounded(spans, c.attenuation, total)
    ensures |places| >= 2 && places[0] == 0 && places[|places| - 1] == total
    ensures Swept(map[0 := Line(0.0, 0.0)], [], 0, false, spans, places, 0, c)
  {
    PositionsSpan(places, spans, total, c.attenuation);
  }

  lemma SweepEnd(active: map<int, Line>, drafts: seq<Draft>, operations: int, spans: seq<Span>, places: seq<int>, index: int, c: Settings, total: int)
    requires Swept(active, drafts, operations, false, spans, places, index, c)
    requires index == |places| - 1 > 0 && places[index] == total
    ensures Work(spans, places, |places| - 1) <= c.maxOperations
    ensures drafts != [] && DraftsOk(drafts, spans, c.attenuation, total)
  {
  }

  /** The sweep over elementary intervals, until the last one or past the operation budget. */
  method SweepLoop(b: Board, c: Settings, total: int, ghost spans: seq<Span>, places: seq<int>)
    returns (active: map<int, Line>, drafts: seq<Draft>, operations: int, index: int, over: bool)
    requires Ground(b, c, total, spans, places)
    requires Swept(map[0 := Line(0.0, 0.0)], [], 0, false, spans, places, 0, c)
    ensures Swept(active, drafts, operations, over, spans, places, index, c) && (!over ==> index == |places| - 1)
  {
    active, drafts, operations := map[0 := Line(0.0, 0.0)], [], 0;
    index, over := 0, false;
    while index < |places| - 1 && !over
      invariant 0 <= index < |places| && Swept(active, drafts, operations, over, spans, places, index, c)
      decreases |places| - index
    {
      active, drafts, operations, over := SweepInterval(active, drafts, operations, b, c, total, spans, places, index);
      index := index + 1;
    }
  }

  method SweepLines(b: Board, c: Settings, total: int, ghost spans: seq<Span>)
    returns (r: Result<seq<Draft>, Error>, ghost work: int, ghost positions: seq<int>)
    requires BoardOk(b, spans, total) && SettingsInRange(c) && total >= 1
    requires SpansBounded(spans, c.attenuation, total)
    ensures Lists(positions, {0, total} + Ends(spans)) && |positions| > 0
    ensures work == Work(spans, positions, |positions| - 1)
    ensures if work > c.maxOperations then r == Failure(Complexity)
            else r.Success? && r.value != [] && DraftsOk(r.value, spans, c.attenuation, total)
  {
    var places := Sort(b.edges.Keys);
    SweepStart(places, spans, c, total);
    var active, drafts, operations, index, over := SweepLoop(b, c, total, spans, places);
    work := Work(spans, places, |places| - 1);
    if over {
      WorkGrows(spans, places, index, |places| - 1);
      return Failure(Complexity), work, places;
    }
    SweepEnd(active, drafts, operations, spans, places, index, c, total);
    return Success(drafts), work, places;
  }

  method BuildDuckingEnvelope(coverage: Coverage, c: Settings) returns (r: Result<Envelope, Error>)
    ensures InputError(coverage, c).Some? ==> r == Failure(InputError(coverage, c).value)
    ensures InputError(coverage, c).None? ==>
      exists work :: Costs(coverage, c, work) && (if work > c.maxOperations then r == Failure(Complexity) else r.Success?)
    ensures r.Success? ==>
      && r.value.timelineSamples == coverage.timelineSamples && r.value.settings == c
      && ValidEnvelope(r.value)
      && forall s :: 0 <= s < coverage.timelineSamples ==>
           EnvelopeGain(r.value.pieces, s) == TargetGain(coverage.intervals, c, s)
    ensures r.Success? ==> exists lines :: Merged(r.value.pieces, lines)
  {
    var total := coverage.timelineSamples;
    if !(SettingsInRange(c) && 1 <= total <= MAX_INTEGER) {
      return Failure(OutOfRange);
    }
    if |coverage.intervals| > MAX_EVENTS {
      return Failure(Invalid);
    }
    var filed := FileEvents(coverage, c);
    if filed.Failure? {
      return Failure(filed.error);
    }
    var b := filed.value;
    ghost var spans := SpansOf(coverage.intervals, c, total);
    EventsOkFromErrors(coverage.intervals, 0, c, total);
    SpansOfBounded(coverage.intervals, c, total);

    var swept, work, positions := SweepLines(b, c, total, spans);
    assert PositionsOf(coverage, c, positions);
    assert Costs(coverage, c, work);
    if swept.Failure? {
      return Failure(swept.error);
    }
    var drafts := swept.value;
    var pieces := seq(|drafts|, i requires 0 <= i < |drafts| => drafts[i].piece);
    r := Success(Envelope(total, c, pieces));
    DraftsTile(drafts, pieces, spans, c.attenuation, total);
    DraftsMerged(drafts, pieces, spans, c.attenuation, total);
    forall s | 0 <= s < total ensures EnvelopeGain(pieces, s) == TargetGain(coverage.intervals, c, s) {
      DraftsRead(drafts, pieces, spans, c.attenuation, total, s);
      SpansMatchEvents(coverage.intervals, c, total, s);
    }
  }

  lemma DraftsTile(drafts: seq<Draft>, pieces: seq<Piece>, spans: seq<Span>, amount: int, total: int)
    requires DraftsOk(drafts, spans, amount, total)
    requires |pieces| == |drafts| && forall i :: 0 <= i < |drafts| ==> pieces[i] == drafts[i].piece
    ensures PiecesTile(pieces, 0, total) && GainsWithin(pieces, amount)
  {
    assert forall i :: 0 <= i < |drafts| ==> DraftOk(drafts[i], spans, amount);
  }

  lemma DraftsMerged(drafts: seq<Draft>, pieces: seq<Piece>, spans: seq<Span>, amount: int, total: int)
    requires DraftsOk(drafts, spans, amount, total)
    requires |pieces| == |drafts| && forall i :: 0 <= i < |drafts| ==> pieces[i] == drafts[i].piece
    ensures exists lines :: Merged(pieces, lines)
  {
    var lines := seq(|drafts|, i requires 0 <= i < |drafts| => drafts[i].line);
    assert forall i :: 0 <= i < |drafts| ==> DraftOk(drafts[i], spans, amount);
    assert Merged(pieces, lines);
  }

  /** Every span lies between the first position 0 and the last position `total`. */
  lemma PositionsSpan(positions: seq<int>, spans: seq<Span>, total: int, amount: int)
    requires Lists(positions, {0, total} + Ends(spans)) && SpansBounded(spans, amount, total) && total >= 1
    ensures |positions| >= 2 && positions[0] == 0 && positions[|positions| - 1] == total
    ensures ActiveOk(map[0 := Line(0.0, 0.0)], spans, -1)
  {
    assert 0 in positions && total in positions;
    forall p | p in positions ensures 0 <= p <= total {
      if p in Ends(spans) {
        var k :| 0 <= k < |spans| && (p == spans[k].left || p == spans[k].right);
        assert Bounded(spans[k], amount);
      }
    }
    assert positions[0] in positions && positions[|positions| - 1] in positions;
    assert CoverIds(spans, -1) == {};
  }

  lemma QuietBetween(positions: seq<int>, spans: seq<Span>, total: int, index: nat)
    requires Lists(positions, {0, total} + Ends(spans)) && index + 1 < |positions|
    requires positions[0] == 0
    requires forall k :: 0 <= k < |spans| ==> 0 <= spans[k].left && 0 <= spans[k].right
    ensures Quiet(spans, positions[index], positions[index + 1])
    ensures Quiet(spans, if index == 0 then -1 else positions[index - 1], positions[index])
  {
    forall k | 0 <= k < |spans| ensures spans[k].left in Ends(spans) && spans[k].right in Ends(spans) {
    }
    var all := {0, total} + Ends(spans);
    forall x | x in all ensures x <= positions[index] || positions[index + 1] <= x {
      NoneBetween(positions, all, index, x);
    }
    if index > 0 {
      forall x | x in all ensures x <= positions[index - 1] || positions[index] <= x {
        NoneBetween(positions, all, index - 1, x);
      }
    }
  }

  lemma ActiveSize(active: map<int, Line>, spans: seq<Span>, p: int)
    requires ActiveOk(active, spans, p)
    ensures |active| == 1 + |CoverIds(spans, p)|
  {
    assert |active| == |active.Keys|;
    assert 0 !in CoverIds(spans, p);
  }

  lemma {:induction false} DraftsRead(drafts: seq<Draft>, pieces: seq<Piece>, spans: seq<Span>, amount: int, total: int, s: int)
    requires DraftsOk(drafts, spans, amount, total) && 0 <= s < total
    requires |pieces| == |drafts| && forall i :: 0 <= i < |drafts| ==> pieces[i] == drafts[i].piece
    ensures forall i :: 0 <= i < |pieces| ==> pieces[i].startSample < pieces[i].endSample
    ensures EnvelopeGain(pieces, s) == Lower(spans, s)
  {
    assert forall i :: 0 <= i < |drafts| ==> DraftOk(drafts[i], spans, amount);
    DraftsReadFrom(drafts, pieces, spans, amount, 0, s);
  }

  lemma {:induction false} DraftsReadFrom(drafts: seq<Draft>, pieces: seq<Piece>, spans: seq<Span>, amount: int, k: nat, s: int)
    requires k < |drafts| == |pieces|
    requires forall i :: 0 <= i < |drafts| ==> pieces[i] == drafts[i].piece && DraftOk(drafts[i], spans, amount)
    requires forall i :: 0 < i < |drafts| ==> pieces[i - 1].endSample == pieces[i].startSample
    requires forall i :: 0 <= i < |pieces| ==> pieces[i].startSample < pieces[i].endSample
    requires pieces[k].startSample <= s < pieces[|pieces| - 1].endSample
    ensures EnvelopeGain(pieces[k..], s) == Lower(spans, s)
    decreases |drafts| - k
  {
    var p := pieces[k];
    assert pieces[k..][0] == p && DraftOk(drafts[k], spans, amount);
    if s < p.endSample {
      InterpolationExact(drafts[k].line, p.startSample, p.endSample, s);
    } else {
      assert pieces[k..][1..] == pieces[k + 1..];
      DraftsReadFrom(drafts, pieces, spans, amount, k + 1, s);
    }
  }

  method ValidateDuckingEnvelope(env: Envelope) returns (ok: bool)
    ensures ok <==> ValidEnvelope(env)
  {
    var c := env.settings;
    if !(1 <= env.timelineSamples <= MAX_INTEGER && 0 <= c.attenuation <= MAX_ATTENUATION
         && 0 <= c.attackSamples <= MAX_INTEGER && 0 <= c.releaseSamples <= MAX_INTEGER) || env.pieces == []
    {
      return false;
    }
    var amount := c.attenuation as real;
    var end := 0;
    for i := 0 to |env.pieces|
      invariant PiecesTile(env.pieces[..i], 0, end)
      invariant GainsWithin(env.pieces[..i], c.attenuation)
      invariant end <= env.timelineSamples
    {
      var p := env.pieces[i];
      if !(p.startSample == end && p.startSample < p.endSample <= env.timelineSamples)
         || !(-amount <= p.startGain <= 0.0) || !(-amount <= p.endGain <= 0.0)
      {
        RefusedPiece(env, i, end);
        return false;
      }
      end := p.endSample;
    }
    assert env.pieces[..|env.pieces|] == env.pieces;
    return end == env.timelineSamples;
  }

  /** A piece refused by the scan spoils the whole envelope. */
  lemma RefusedPiece(env: Envelope, i: nat, end: int)
    requires i < |env.pieces| && PiecesTile(env.pieces[..i], 0, end)
    requires var p, amount := env.pieces[i], env.settings.attenuation as real;
      !(p.startSample == end && p.startSample < p.endSample <= env.timelineSamples)
      || !(-amount <= p.startGain <= 0.0) || !(-amount <= p.endGain <= 0.0)
    ensures !ValidEnvelope(env)
  {
    if ValidEnvelope(env) {
      TileEndsGrow(env.pieces, 0, env.timelineSamples, i);
      PrefixEnd(env.pieces, 0, env.timelineSamples, i, end);
      assert false;
    }
  }

  lemma PrefixEnd(pieces: seq<Piece>, from: int, to: int, i: nat, end: int)
    requires PiecesTile(pieces, from, to) && i < |pieces| && PiecesTile(pieces[..i], from, end)
    ensures end == pieces[i].startSample
  {
    if i > 0 {
      assert pieces[..i][i - 1] == pieces[i - 1];
    }
  }

  lemma {:induction false} TileEndsGrow(pieces: seq<Piece>, from: int, to: int, i: nat)
    requires PiecesTile(pieces, from, to) && i < |pieces|
    ensures pieces[i].endSample <= to
    decreases |pieces| - i
  {
    if i + 1 < |pieces| {
      TileEndsGrow(pieces, from, to, i + 1);
    }
  }

  method DuckingGainAt(env: Envelope, sample: int) returns (r: Result<real, Error>)
    ensures !ValidEnvelope(env) ==> r.Failure?
    ensures ValidEnvelope(env) ==>
      r == if !(0 <= sample <= MAX_INTEGER) then Failure(OutOfRange)
           else if sample >= env.timelineSamples then Failure(Invalid)
           else Success(EnvelopeGain(env.pieces, sample))
  {
    var ok := ValidateDuckingEnvelope(env);
    if !ok {
      return Failure(Invalid);
    }
    if !(0 <= sample <= MAX_INTEGER) {
      return Failure(OutOfRange);
    }
    if sample >= env.timelineSamples {
      return Failure(Invalid);
    }
    for i := 0 to |env.pieces|
      invariant EnvelopeGain(env.pieces, sample) == EnvelopeGain(env.pieces[i..], sample)
      invariant i < |env.pieces| ==> env.pieces[i].startSample <= sample
      invariant i == |env.pieces| ==> env.timelineSamples <= sample
    {
      var p := env.pieces[i];
      assert env.pieces[i..][0] == p && env.pieces[i..][1..] == env.pieces[i + 1..];
      if p.startSample <= sample < p.endSample {
        return Success(PieceGain(p, sample));
      }
    }
    assert false;
  }

  /** Building and reading back: at every sample of an accepted coverage the reader returns the specified gain. */
  method BuildThenRead(coverage: Coverage, c: Settings, sample: int) returns (r: Result<real, Error>)
    ensures r.Success? ==> 0 <= sample < coverage.timelineSamples && r.value == TargetGain(coverage.intervals, c, sample)
    ensures r.Success? ==> -(c.attenuation as real) <= r.value <= 0.0
    ensures 0 <= sample < coverage.timelineSamples && InputError(coverage, c).None? && r.Failure? ==> r.error == Complexity
  {
    var built := BuildDuckingEnvelope(coverage, c);
    if built.Failure? {
      return Failure(built.error);
    }
    r := DuckingGainAt(built.value, sample);
    if r.Success? {
      EventsOkFromErrors(coverage.intervals, 0, c, coverage.timelineSamples);
      TargetIsMinimum(coverage.intervals, c, coverage.timelineSamples, sample);
    }
  }
}
