/** Events on clips and timelines: their sample spans, and the overlap check of each track. */
module AudioEvents {
  import opened Wrappers
  import opened Ids
  import opened Integers
  import opened AudioLayout
  import opened Editing

  /** `current`: the recorded timing anchor is that of the edit as it stands. */
  datatype Placement = Timeline(start: int, current: bool) | InClip(clip: Id, start: int)

  datatype Event = Event(id: Id, track: Id, place: Placement, first: int, end: int, toEnd: bool)

  datatype Span = Span(start: int, content: int, end: int)

  datatype AudioError = BadEvent | Stale | Overlapping

  datatype Laid<+T> = Fits(value: T) | Refused(why: AudioError)

  // ---------------------------------------------------------------------------------------------
  // event_layout
  // ---------------------------------------------------------------------------------------------

  /** The sample at which each frame begins. */
  function Samples(clock: Clock): int -> int
    requires Ticking(clock)
  {
    (frame: int) => if Ticking(clock) then FrameSample(frame, clock) else 0
  }

  ghost predicate Monotone(at: int -> int) {
    forall a, b :: a <= b ==> at(a) <= at(b)
  }

  /** Two places of a clip differ by the same number of samples at every frame of it. */
  ghost predicate Shifts(at: int -> int, o: int, p: int, f: int) {
    at(p + f) - at(o + f) == at(p) - at(o)
  }

  ghost predicate Rigid(at: int -> int) {
    forall o, p, f {:trigger Shifts(at, o, p, f)} :: Shifts(at, o, p, f)
  }

  lemma SamplesMonotone(clock: Clock)
    requires Ticking(clock)
    ensures Monotone(Samples(clock)) && Samples(clock)(0) == 0
  {
    forall a, b | a <= b ensures Samples(clock)(a) <= Samples(clock)(b) {
      FrameSampleMonotone(a, b, clock);
    }
    FrameZero(clock);
  }

  lemma SamplesRigid(clock: Clock)
    requires Ticking(clock) && WholeSamples(clock)
    ensures Rigid(Samples(clock))
  {
    var s :| clock.den * 48000 == s * clock.num;
    forall o, p, f ensures Shifts(Samples(clock), o, p, f) {
      WholeFrames(clock, s, p + f);
      WholeFrames(clock, s, o + f);
      WholeFrames(clock, s, p);
      WholeFrames(clock, s, o);
      Distribute(p, f, s);
      Distribute(o, f, s);
    }
  }

  /** The span of an event's content from a frame, if it fits before the limit. */
  function Fit(at: int -> int, frame: int, e: Event, limit: int): Laid<Span> {
    var start, length := at(frame), e.end - e.first;
    if length < 2 || start < 0 || start + length > limit then Refused(BadEvent)
    else Fits(Span(start, length, if e.toEnd then limit else start + length))
  }

  function SpanOf(clips: seq<Clip>, at: int -> int, e: Event): Laid<Span> {
    match e.place
    case Timeline(start, current) =>
      if !current then Refused(Stale) else Fit(at, start, e, at(Offset(clips, |clips|)))
    case InClip(id, start) =>
      match IndexOf(clips, id)
      case None => Refused(BadEvent)
      case Some(i) =>
        IdAt(clips, id);
        SpanIn(clips, at, e, i)
  }

  /** The span of an event of the i-th clip. */
  function SpanIn(clips: seq<Clip>, at: int -> int, e: Event, i: nat): Laid<Span>
    requires i < |clips|
  {
    SpanFrom(at, e, Offset(clips, i), Duration(clips[i]))
  }

  /** The span of an event of a clip that begins at a timeline frame. */
  function SpanFrom(at: int -> int, e: Event, offset: int, duration: int): Laid<Span> {
    if e.place.start >= duration then Refused(BadEvent) else Fit(at, offset + e.place.start, e, at(offset + duration))
  }

  /** First the clips' starts, then one event after the other; the first bad event decides. */
  method EventLayout(clips: seq<Clip>, clock: Clock, events: seq<Event>) returns (r: Laid<seq<Span>>)
    requires Ticking(clock)
    ensures r.Fits? ==> |r.value| == |events| && forall i :: 0 <= i < |events| ==> SpanOf(clips, Samples(clock), events[i]) == Fits(r.value[i])
    ensures r.Refused? ==> exists i :: && 0 <= i < |events| && SpanOf(clips, Samples(clock), events[i]) == Refused(r.why)
                                            && forall j :: 0 <= j < i ==> SpanOf(clips, Samples(clock), events[j]).Fits?
  {
    var at := Samples(clock);
    var starts, position := Starts(clips);
    var spans: seq<Span> := [];
    for i := 0 to |events|
      invariant |spans| == i && forall j :: 0 <= j < i ==> SpanOf(clips, at, events[j]) == Fits(spans[j])
    {
      var e := events[i];
      var fit: Laid<Span>;
      match e.place {
        case Timeline(start, current) =>
          fit := if !current then Refused(Stale) else Fit(at, start, e, at(position));
        case InClip(id, start) =>
          IdFound(clips, id);
          var k := IndexOf(clips, id);
          fit := if k.None? || start >= Duration(clips[k.value]) then Refused(BadEvent)
                 else Fit(at, starts[k.value] + start, e, at(starts[k.value] + Duration(clips[k.value])));
      }
      if fit.Refused? {
        return Refused(fit.why);
      }
      spans := spans + [fit.value];
    }
    return Fits(spans);
  }

  method Starts(clips: seq<Clip>) returns (starts: seq<int>, position: int)
    ensures |starts| == |clips| && position == Offset(clips, |clips|)
    ensures forall i :: 0 <= i < |clips| ==> starts[i] == Offset(clips, i)
  {
    starts, position := [], 0;
    for i := 0 to |clips|
      invariant |starts| == i && position == Offset(clips, i)
      invariant forall j :: 0 <= j < i ==> starts[j] == Offset(clips, j)
    {
      starts := starts + [position];
      position := position + Duration(clips[i]);
    }
  }

  // ---------------------------------------------------------------------------------------------
  // What a laid event is
  // ---------------------------------------------------------------------------------------------

  /** From the sample of a frame on there is room for the event's content, at least two samples, before the anchor's end. */
  predicate HasRoom(clock: Clock, e: Event, frame: int, anchorEnd: int)
    requires Ticking(clock)
  {
    && e.end - e.first >= 2 && FrameSample(frame, clock) >= 0
    && FrameSample(frame, clock) + (e.end - e.first) <= FrameSample(anchorEnd, clock)
  }

  /** The content begins with its frame; the span ends with the content, or with the anchor where the tail is silence. */
  predicate LaidAt(clock: Clock, e: Event, frame: int, anchorEnd: int, span: Span)
    requires Ticking(clock)
  {
    && span.start == FrameSample(frame, clock) && span.content == e.end - e.first
    && (e.toEnd ==> span.end == FrameSample(anchorEnd, clock)) && (!e.toEnd ==> span.end == FrameSample(frame, clock) + (e.end - e.first))
  }

  /** An event on the timeline is anchored to the whole film: refused as stale, or else exactly when it has no room. */
  lemma TimelineEvent(clips: seq<Clip>, clock: Clock, e: Event)
    requires Ticking(clock) && e.place.Timeline?
    ensures var laid, frame, filmEnd := SpanOf(clips, Samples(clock), e), e.place.start, Offset(clips, |clips|);
      && (!e.place.current <==> laid == Refused(Stale))
      && (laid.Fits? <==> e.place.current && HasRoom(clock, e, frame, filmEnd))
      && (laid.Fits? ==> LaidAt(clock, e, frame, filmEnd, laid.value))
  {
  }

  /** An event of a clip is anchored to it: refused exactly when it begins past the clip or has no room in it. */
  lemma ClipEvent(clips: seq<Clip>, clock: Clock, e: Event, i: nat)
    requires Ticking(clock) && e.place.InClip? && Unique(clips) && i < |clips| && clips[i].id == e.place.clip
    ensures var laid, frame, clipEnd := SpanOf(clips, Samples(clock), e), Offset(clips, i) + e.place.start, Offset(clips, i + 1);
      && laid != Refused(Stale)
      && (laid.Fits? <==> e.place.start < clips[i].end - clips[i].first && HasRoom(clock, e, frame, clipEnd))
      && (laid.Fits? ==> LaidAt(clock, e, frame, clipEnd, laid.value))
  {
    SeatOf(clips, i);
    PlacedFrom(clock, e, Offset(clips, i), clips[i].end - clips[i].first);
  }

  lemma SeatOf(clips: seq<Clip>, i: nat)
    requires Unique(clips) && i < |clips|
    ensures IndexOf(clips, clips[i].id) == Some(i)
  {
    IdOf(clips, i);
    IdFound(clips, clips[i].id);
  }

  lemma PlacedFrom(clock: Clock, e: Event, offset: int, duration: int)
    requires Ticking(clock)
    ensures var laid := SpanFrom(Samples(clock), e, offset, duration);
      && laid != Refused(Stale)
      && (laid.Fits? <==> e.place.start < duration && HasRoom(clock, e, offset + e.place.start, offset + duration))
      && (laid.Fits? ==> LaidAt(clock, e, offset + e.place.start, offset + duration, laid.value))
  {
  }

  /** An event of a clip that is not in the edit is refused. */
  lemma NoClipEvent(clips: seq<Clip>, clock: Clock, e: Event)
    requires Ticking(clock) && e.place.InClip? && forall c :: c in clips ==> c.id != e.place.clip
    ensures SpanOf(clips, Samples(clock), e) == Refused(BadEvent)
  {
    IdAt(clips, e.place.clip);
  }

  // ---------------------------------------------------------------------------------------------
  // Clips keep their events apart
  // ---------------------------------------------------------------------------------------------

  predicate Clear(a: Span, b: Span) {
    a.end <= b.start || b.end <= a.start
  }

  /** A clip-relative event that fits; its start is never negative. */
  ghost predicate Seated(clips: seq<Clip>, at: int -> int, e: Event) {
    e.place.InClip? && e.place.start >= 0 && SpanOf(clips, at, e).Fits?
  }

  /** An event of a clip sounds only between the clip's own first and last sample. */
  lemma InsideClip(clips: seq<Clip>, at: int -> int, e: Event)
    requires Monotone(at) && Seated(clips, at, e)
    ensures IndexOf(clips, e.place.clip).Some? && IndexOf(clips, e.place.clip).value < |clips|
    ensures var i, span := IndexOf(clips, e.place.clip).value, SpanOf(clips, at, e).value;
      && at(Offset(clips, i)) <= span.start
      && span.start + 2 <= span.end <= at(Offset(clips, i) + Duration(clips[i]))
  {
    IdAt(clips, e.place.clip);
    var o := Offset(clips, IndexOf(clips, e.place.clip).value);
    assert at(o) <= at(o + e.place.start);
  }

  lemma {:induction false} StartsRise(clips: seq<Clip>, i: nat, j: nat)
    requires (forall c :: c in clips ==> c.first < c.end) && i < j <= |clips|
    ensures Offset(clips, i) + Duration(clips[i]) <= Offset(clips, j)
    decreases j
  {
    assert clips[j - 1] in clips;
    if i < j - 1 {
      StartsRise(clips, i, j - 1);
    }
  }

  /** Events of different clips never overlap, for any clock, any clips in any order. */
  lemma DifferentClipsClear(clips: seq<Clip>, clock: Clock, d: Event, e: Event)
    requires Ticking(clock) && (forall c :: c in clips ==> c.first < c.end)
    requires Seated(clips, Samples(clock), d) && Seated(clips, Samples(clock), e) && d.place.clip != e.place.clip
    ensures Clear(SpanOf(clips, Samples(clock), d).value, SpanOf(clips, Samples(clock), e).value)
  {
    SamplesMonotone(clock);
    ApartBySampling(clips, Samples(clock), d, e);
  }

  lemma ApartBySampling(clips: seq<Clip>, at: int -> int, d: Event, e: Event)
    requires Monotone(at) && (forall c :: c in clips ==> c.first < c.end)
    requires Seated(clips, at, d) && Seated(clips, at, e) && d.place.clip != e.place.clip
    ensures Clear(SpanOf(clips, at, d).value, SpanOf(clips, at, e).value)
  {
    InsideClip(clips, at, d);
    InsideClip(clips, at, e);
    IdAt(clips, d.place.clip);
    IdAt(clips, e.place.clip);
    var i, j := IndexOf(clips, d.place.clip).value, IndexOf(clips, e.place.clip).value;
    if i < j {
      StartsRise(clips, i, j);
      assert at(Offset(clips, i) + Duration(clips[i])) <= at(Offset(clips, j));
    } else {
      StartsRise(clips, j, i);
      assert at(Offset(clips, j) + Duration(clips[j])) <= at(Offset(clips, i));
    }
  }

  /** Where frames are rigid, moving a clip moves its events' spans as one. */
  lemma MovesRigidly(at: int -> int, o: int, p: int, e: Event, duration: int)
    requires Shifts(at, o, p, e.place.start) && Shifts(at, o, p, duration) && 0 <= at(p + e.place.start)
    requires SpanFrom(at, e, o, duration).Fits?
    ensures var shift, span := at(p) - at(o), SpanFrom(at, e, o, duration).value;
      SpanFrom(at, e, p, duration) == Fits(Span(span.start + shift, span.content, span.end + shift))
  {
  }

  lemma MoveOne(at: int -> int, o: int, p: int, e: Event, duration: int)
    requires Rigid(at) && 0 <= at(p + e.place.start) && SpanFrom(at, e, o, duration).Fits?
    ensures var shift, span := at(p) - at(o), SpanFrom(at, e, o, duration).value;
      SpanFrom(at, e, p, duration) == Fits(Span(span.start + shift, span.content, span.end + shift))
  {
    assert Shifts(at, o, p, e.place.start) && Shifts(at, o, p, duration);
    MovesRigidly(at, o, p, e, duration);
  }

  lemma NotNegative(at: int -> int, f: int)
    requires Monotone(at) && at(0) == 0 && f >= 0
    ensures at(f) >= 0
  {
  }

  /** Where the clip of a seated event is, before and after a reorder. */
  lemma SeatMoves(clips: seq<Clip>, after: seq<Clip>, at: int -> int, e: Event) returns (i: nat, k: nat)
    requires Monotone(at) && at(0) == 0 && Unique(after) && Seated(clips, at, e)
    requires (forall c :: c in clips ==> c.first < c.end) && forall c :: c in after <==> c in clips
    ensures i < |clips| && k < |after| && clips[i] == after[k] && (i, k) == SeatsOf(clips, after, e)
    ensures SpanOf(clips, at, e) == SpanFrom(at, e, Offset(clips, i), Duration(clips[i]))
    ensures SpanOf(after, at, e) == SpanFrom(at, e, Offset(after, k), Duration(clips[i]))
    ensures at(Offset(after, k) + e.place.start) >= 0
  {
    IdAt(clips, e.place.clip);
    SameClip(clips, after, e.place.clip);
    i, k := IndexOf(clips, e.place.clip).value, IndexOf(after, e.place.clip).value;
    OffsetGrows(after, k);
    NotNegative(at, Offset(after, k) + e.place.start);
  }

  ghost function SeatsOf(clips: seq<Clip>, after: seq<Clip>, e: Event): (nat, nat)
    requires e.place.InClip?
  {
    (match IndexOf(clips, e.place.clip) case None => 0 case Some(i) => i, match IndexOf(after, e.place.clip) case None => 0 case Some(k) => k)
  }

  lemma SameClip(clips: seq<Clip>, after: seq<Clip>, id: Id)
    requires Unique(after) && IndexOf(clips, id).Some? && forall c :: c in after <==> c in clips
    ensures IndexOf(after, id).Some? && IndexOf(clips, id).value < |clips| && IndexOf(after, id).value < |after|
    ensures after[IndexOf(after, id).value] == clips[IndexOf(clips, id).value]
  {
    IdFound(clips, id);
    var clip := clips[IndexOf(clips, id).value];
    assert clip in after;
    var j :| 0 <= j < |after| && after[j] == clip;
    IdOf(after, j);
    IdFound(after, id);
  }

  /** With a whole number of samples a frame, a reorder of clips keeps every pair of events clear, and all that fitted still fits. */
  lemma ReorderStaysClear(clips: seq<Clip>, after: seq<Clip>, clock: Clock, d: Event, e: Event)
    requires Ticking(clock) && WholeSamples(clock) && Unique(after)
    requires (forall c :: c in clips ==> c.first < c.end) && forall c :: c in after <==> c in clips
    requires Seated(clips, Samples(clock), d) && Seated(clips, Samples(clock), e)
    requires Clear(SpanOf(clips, Samples(clock), d).value, SpanOf(clips, Samples(clock), e).value)
    ensures Seated(after, Samples(clock), d) && Seated(after, Samples(clock), e)
    ensures Clear(SpanOf(after, Samples(clock), d).value, SpanOf(after, Samples(clock), e).value)
  {
    SamplesMonotone(clock);
    SamplesRigid(clock);
    ReorderBySampling(clips, after, Samples(clock), d, e);
  }

  lemma ReorderBySampling(clips: seq<Clip>, after: seq<Clip>, at: int -> int, d: Event, e: Event)
    requires Monotone(at) && at(0) == 0 && Rigid(at) && Unique(after)
    requires (forall c :: c in clips ==> c.first < c.end) && forall c :: c in after <==> c in clips
    requires Seated(clips, at, d) && Seated(clips, at, e) && Clear(SpanOf(clips, at, d).value, SpanOf(clips, at, e).value)
    ensures Seated(after, at, d) && Seated(after, at, e) && Clear(SpanOf(after, at, d).value, SpanOf(after, at, e).value)
  {
    var i, k := SeatMoves(clips, after, at, d);
    var j, l := SeatMoves(clips, after, at, e);
    MoveOne(at, Offset(clips, i), Offset(after, k), d, Duration(clips[i]));
    MoveOne(at, Offset(clips, j), Offset(after, l), e, Duration(clips[j]));
    if d.place.clip != e.place.clip {
      ApartBySampling(after, at, d, e);
    }
  }

  // ---------------------------------------------------------------------------------------------
  // Otherwise some reorder makes clear events overlap
  // ---------------------------------------------------------------------------------------------

  /** The same clips in another order. */
  ghost predicate Reordered(clips: seq<Clip>, after: seq<Clip>) {
    && Unique(clips) && Unique(after)
    && (forall c :: c in clips ==> c.first < c.end) && forall c :: c in after <==> c in clips
  }

  /** Two events of these clips that fit and are clear, and still fit after the reorder, are clear then. */
  ghost predicate KeepsClear(clips: seq<Clip>, after: seq<Clip>, at: int -> int, d: Event, e: Event) {
    Reordered(clips, after) && Seated(clips, at, d) && Seated(clips, at, e) && Seated(after, at, d) && Seated(after, at, e) ==>
      (Clear(SpanOf(clips, at, d).value, SpanOf(clips, at, e).value) ==> Clear(SpanOf(after, at, d).value, SpanOf(after, at, e).value))
  }

  ghost predicate ReorderSafe(at: int -> int) {
    forall clips, after, d, e {:trigger KeepsClear(clips, after, at, d, e)} :: KeepsClear(clips, after, at, d, e)
  }

  /** A clip of `n` frames and one of twice `num` frames and one more, in either order. */
  ghost function Pair(x: Id, y: Id, n: nat, num: nat, longFirst: bool): seq<Clip> {
    var short, long := Clip(x, x, 0, n, x, []), Clip(y, y, 0, 2 * num + 1, y, []);
    if longFirst then [long, short] else [short, long]
  }

  /** An event at the start of the long clip, and another of two samples `num + 1` frames into it. */
  ghost function Opening(x: Id, y: Id, length: int): Event {
    Event(x, y, InClip(y, 0), 0, length, false)
  }

  ghost function Closing(y: Id, num: nat): Event {
    Event(y, y, InClip(y, num + 1), 0, 2, false)
  }

  /** The spans of the two events, for an opening event not longer than a second period leaves room for. */
  lemma PairSpans(x: Id, y: Id, n: nat, num: nat, longFirst: bool, at: int -> int, length: int)
    requires x != y && n >= 1 && num >= 1 && length >= 2
    requires var o := if longFirst then 0 else n;
      && 0 <= at(o) && 0 <= at(o + num + 1) && at(o) + length <= at(o + 2 * num + 1) && at(o + num + 1) + 2 <= at(o + 2 * num + 1)
    ensures var o, clips := if longFirst then 0 else n, Pair(x, y, n, num, longFirst);
      && Seated(clips, at, Opening(x, y, length)) && Seated(clips, at, Closing(y, num))
      && SpanOf(clips, at, Opening(x, y, length)).value == Span(at(o), length, at(o) + length)
      && SpanOf(clips, at, Closing(y, num)).value == Span(at(o + num + 1), 2, at(o + num + 1) + 2)
  {
    var clips, j := Pair(x, y, n, num, longFirst), if longFirst then 0 else 1;
    assert IndexOf(clips, y) == Some(j) by {
      assert clips[1..][0] == clips[1];
    }
    assert Offset(clips, 0) == 0;
    assert Offset(clips, j) == if longFirst then 0 else n;
    assert clips[j] == Clip(y, y, 0, 2 * num + 1, y, []);
  }

  lemma PairReordered(x: Id, y: Id, n: nat, num: nat, longFirst: bool)
    requires x != y && n >= 1
    ensures Reordered(Pair(x, y, n, num, longFirst), Pair(x, y, n, num, !longFirst))
  {
  }

  /** Any `num + 1` frames last a period and one frame more, which leaves a period of room in the long clip. */
  lemma PeriodAndOne(clock: Clock, n: nat)
    requires Ticking(clock)
    ensures FrameSample(n + clock.num + 1, clock) == FrameSample(n + 1, clock) + clock.den * 48000
    ensures FrameSample(n + 2 * clock.num + 1, clock) == FrameSample(n + 1, clock) + 2 * clock.den * 48000
    ensures FrameSample(n, clock) <= FrameSample(n + 1, clock) <= FrameSample(n, clock) + clock.den * 48000
  {
    FullPeriod(clock, n);
    FullPeriod(clock, n + 1);
    FullPeriod(clock, n + 1 + clock.num);
    FrameSampleMonotone(n, n + 1, clock);
    FrameSampleMonotone(n + 1, n + clock.num, clock);
    assert n + 1 + clock.num + clock.num == n + 2 * clock.num + 1;
  }

  /** If the opening of the long clip gets shorter by the reorder, the two events that just met overlap. */
  lemma Shrinks(x: Id, y: Id, at: int -> int, n: nat, num: nat, longFirst: bool)
    requires ReorderSafe(at) && x != y && n >= 1 && num >= 1
    requires var o, p := if longFirst then 0 else n, if longFirst then n else 0;
      && Roomy(at, o, num) && Roomy(at, p, num) && at(o + num + 1) - at(o) <= at(p + 2 * num + 1) - at(p)
    ensures var o, p := if longFirst then 0 else n, if longFirst then n else 0;
      at(o + num + 1) - at(o) <= at(p + num + 1) - at(p)
  {
    var o := if longFirst then 0 else n;
    var length := at(o + num + 1) - at(o);
    PairReordered(x, y, n, num, longFirst);
    PairSpans(x, y, n, num, longFirst, at, length);
    PairSpans(x, y, n, num, !longFirst, at, length);
    assert KeepsClear(Pair(x, y, n, num, longFirst), Pair(x, y, n, num, !longFirst), at, Opening(x, y, length), Closing(y, num));
  }

  /** From `o` on the two events fit. */
  ghost predicate Roomy(at: int -> int, o: int, num: int) {
    0 <= at(o) && at(o) + 2 <= at(o + num + 1) && at(o + num + 1) + 2 <= at(o + 2 * num + 1)
  }

  /** `num` frames last `second`, wherever they start, and one frame more lasts one frame more. */
  ghost predicate Period(at: int -> int, o: int, num: int, second: int) {
    && 0 <= at(o) <= at(o + 1) <= at(o) + second
    && at(o + num + 1) == at(o + 1) + second && at(o + 2 * num + 1) == at(o + 1) + 2 * second
  }

  lemma PeriodOf(clock: Clock, n: nat)
    requires Ticking(clock)
    ensures Period(Samples(clock), n, clock.num, clock.den * 48000)
  {
    SamplesMonotone(clock);
    NotNegative(Samples(clock), n);
    PeriodAndOne(clock, n);
  }

  /** So the first frame of the long clip lasts equally long in both places. */
  lemma SameFrame(x: Id, y: Id, at: int -> int, n: nat, num: nat, second: int)
    requires ReorderSafe(at) && x != y && n >= 1 && num >= 1 && second >= 2
    requires Period(at, 0, num, second) && Period(at, n, num, second)
    ensures at(n + 1) - at(n) == at(1) - at(0)
  {
    Shrinks(x, y, at, n, num, true);
    Shrinks(x, y, at, n, num, false);
  }

  /** Reordering clips never makes clear events overlap exactly when a frame is a whole number of samples. */
  lemma ReorderSafeIffWhole(x: Id, y: Id, clock: Clock)
    requires Ticking(clock) && x != y
    ensures ReorderSafe(Samples(clock)) <==> WholeSamples(clock)
  {
    if ReorderSafe(Samples(clock)) {
      forall n: nat ensures EvenStep(clock, n) {
        if n >= 1 {
          PeriodOf(clock, 0);
          PeriodOf(clock, n);
          SameFrame(x, y, Samples(clock), n, clock.num, clock.den * 48000);
        }
      }
      EvenIsWhole(clock);
    }
    if WholeSamples(clock) {
      SamplesMonotone(clock);
      SamplesRigid(clock);
      forall clips, after, d, e ensures KeepsClear(clips, after, Samples(clock), d, e) {
        WholeKeeps(clips, after, Samples(clock), d, e);
      }
    }
  }

  lemma WholeKeeps(clips: seq<Clip>, after: seq<Clip>, at: int -> int, d: Event, e: Event)
    requires Monotone(at) && at(0) == 0 && Rigid(at)
    ensures KeepsClear(clips, after, at, d, e)
  {
    if Reordered(clips, after) && Seated(clips, at, d) && Seated(clips, at, e) && Clear(SpanOf(clips, at, d).value, SpanOf(clips, at, e).value) {
      ReorderBySampling(clips, after, at, d, e);
    }
  }

  /** At 30000/1001 frames a second: in the film's first clip the events meet at sample 1602; behind a clip of one frame they overlap. */
  lemma NtscReorder(x: Id, y: Id)
    requires x != y
    ensures var clips, after, at := Pair(x, y, 1, 10, true), Pair(x, y, 1, 10, false), Samples(Clock(30000, 1001));
      var d, e := Opening(x, y, 1602), Event(y, y, InClip(y, 1), 0, 1602, false);
      && Reordered(clips, after)
      && SpanOf(clips, at, d) == Fits(Span(0, 1602, 1602)) && SpanOf(clips, at, e) == Fits(Span(1602, 1602, 3204))
      && SpanOf(after, at, d) == Fits(Span(1602, 1602, 3204)) && SpanOf(after, at, e) == Fits(Span(3203, 1602, 4805))
  {
    var clips, after, c := Pair(x, y, 1, 10, true), Pair(x, y, 1, 10, false), Clock(30000, 1001);
    ModOf(0, 30000, 0, 0);
    ModOf(48048000, 30000, 1601, 18000);
    ModOf(96096000, 30000, 3203, 6000);
    ModOf(1009008000, 30000, 33633, 18000);
    ModOf(1057056000, 30000, 35235, 6000);
    assert FrameSample(0, c) == 0 && FrameSample(1, c) == 1602 && FrameSample(2, c) == 3203;
    assert FrameSample(21, c) == 33634 && FrameSample(22, c) == 35235;
    PairReordered(x, y, 1, 10, true);
    assert clips[1..][0] == clips[1] && after[1..][0] == after[1];
    assert IndexOf(clips, y) == Some(0) && IndexOf(after, y) == Some(1);
    assert Offset(clips, 0) == 0 && Offset(after, 0) == 0 && Offset(after, 1) == 1;
  }

  // ---------------------------------------------------------------------------------------------
  // The overlap check of a track
  // ---------------------------------------------------------------------------------------------

  predicate Before(a: Span, b: Span) {
    a.start < b.start || (a.start == b.start && a.end <= b.end)
  }

  ghost predicate Sorted(spans: seq<Span>) {
    forall i, j :: 0 <= i < j < |spans| ==> Before(spans[i], spans[j])
  }

  method Insert(spans: seq<Span>, x: Span) returns (r: seq<Span>)
    requires Sorted(spans)
    ensures Sorted(r) && multiset(r) == multiset(spans) + multiset{x}
  {
    var i := 0;
    while i < |spans| && Before(spans[i], x)
      invariant 0 <= i <= |spans| && forall k :: 0 <= k < i ==> Before(spans[k], x)
    {
      i := i + 1;
    }
    r := spans[..i] + [x] + spans[i..];
    assert spans == spans[..i] + spans[i..];
    forall j, k | 0 <= j < k < |r| ensures Before(r[j], r[k]) {
      if j == i {
        assert r[k] == spans[k - 1] && (i == k - 1 || Before(spans[i], spans[k - 1]));
      }
    }
  }

  method Sort(spans: seq<Span>) returns (r: seq<Span>)
    ensures Sorted(r) && multiset(r) == multiset(spans)
  {
    r := [];
    for i := 0 to |spans|
      invariant Sorted(r) && multiset(r) == multiset(spans[..i])
    {
      assert spans[..i + 1] == spans[..i] + [spans[i]];
      r := Insert(r, spans[i]);
    }
    assert spans[..|spans|] == spans;
  }

  ghost predicate AllClear(spans: seq<Span>) {
    forall i, j :: 0 <= i < j < |spans| ==> Clear(spans[i], spans[j])
  }

  /** In sorted order, neighbours that do not overlap mean that nothing does. */
  lemma {:induction false} NeighboursSuffice(spans: seq<Span>, i: nat, j: nat)
    requires i < j < |spans| && (forall k :: 0 <= k < |spans| ==> spans[k].start < spans[k].end)
    requires forall k :: 0 <= k < |spans| - 1 ==> spans[k].end <= spans[k + 1].start
    ensures spans[i].end <= spans[j].start
    decreases j
  {
    if i < j - 1 {
      NeighboursSuffice(spans, i, j - 1);
    }
  }

  /** Whether nothing overlaps does not depend on the order. */
  lemma ClearEitherWay(a: seq<Span>, b: seq<Span>)
    requires multiset(a) == multiset(b) && AllClear(a)
    requires forall s :: s in a ==> s.start < s.end
    ensures AllClear(b) && forall s :: s in b ==> s.start < s.end
  {
    forall s | s in b ensures s in a {
      assert s in multiset(b);
    }
    forall i, j | 0 <= i < j < |b| ensures Clear(b[i], b[j]) {
      assert b == b[..i] + [b[i]] + b[i + 1..j] + [b[j]] + b[j + 1..];
      if b[i] == b[j] {
        assert multiset(b)[b[i]] >= 2;
        TwiceOverlaps(a, b[i]);
      } else {
        assert b[i] in a && b[j] in a;
      }
    }
  }

  lemma TwiceOverlaps(a: seq<Span>, s: Span)
    requires AllClear(a) && s.start < s.end
    ensures multiset(a)[s] <= 1
  {
    if s in a {
      var k :| 0 <= k < |a| && a[k] == s;
      assert a == a[..k] + [s] + a[k + 1..];
      assert s !in a[..k] && s !in a[k + 1..];
    }
  }

  /** Sort a track's spans and compare neighbours: refused exactly when some two overlap. */
  method TrackClear(spans: seq<Span>) returns (ok: bool)
    requires forall s :: s in spans ==> s.start < s.end
    ensures ok <==> AllClear(spans)
  {
    var sorted := Sort(spans);
    forall s | s in sorted ensures s in spans {
      assert s in multiset(sorted);
    }
    var i := 1;
    while i < |sorted|
      invariant 1 <= i && forall k :: 0 <= k < i - 1 && k < |sorted| - 1 ==> sorted[k].end <= sorted[k + 1].start
    {
      if sorted[i - 1].end > sorted[i].start {
        assert Before(sorted[i - 1], sorted[i]) && !Clear(sorted[i - 1], sorted[i]);
        if AllClear(spans) {
          ClearEitherWay(spans, sorted);
        }
        return false;
      }
      i := i + 1;
    }
    forall k | 0 <= k < |sorted| ensures sorted[k].start < sorted[k].end {
      assert sorted[k] in multiset(sorted);
    }
    forall i, j | 0 <= i < j < |sorted| ensures Clear(sorted[i], sorted[j]) {
      NeighboursSuffice(sorted, i, j);
    }
    ClearEitherWay(sorted, spans);
    return true;
  }
}
