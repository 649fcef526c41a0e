/**
 The window mapping of src/fsf/production/segments.py: a film of `count` frames is covered by overlapping model windows
 of legal lengths 1 + k*step, and its consumer, the checkpoint receipt of sequence_checkpoints.py.
 */
module Segments {
  import opened Wrappers
  import opened Integers

  /** A measured model: `max_frames`, `frame_step`, `overlap_frames`, continuation from the previous frame, explicit tail padding. */
  datatype Capability = Capability(limit: nat, step: nat, overlap: nat, continues: bool, pads: bool)

  /** Segment ids are numbered from 1. */
  datatype Window = Window(id: nat, start: int, end: int, left: int, right: int, padding: int, frames: int, dependsOn: seq<nat>)

  datatype Error = Unsupported | TailUnsupported

  ghost predicate Measured(cap: Capability) {
    cap.limit >= 1 && cap.step >= 1
  }

  function Min(a: int, b: int): int {
    if a <= b then a else b
  }

  function Max(a: int, b: int): int {
    if a >= b then a else b
  }

  /** The longest legal length within the limit. */
  function Length(cap: Capability): int
    requires Measured(cap)
  {
    1 + ((cap.limit - 1) / cap.step) * cap.step
  }

  /** Frames of padding that make a length legal; Python's remainder of a negative number is nonnegative, as here. */
  function Padding(real_length: int, step: nat): int
    requires step >= 1
  {
    (1 - real_length) % step
  }

  // ---------------------------------------------------------------------------------------------
  // The mapping in closed form, for windows of one full length
  // ---------------------------------------------------------------------------------------------

  /** Where window `i` begins when each begins `advance` frames after the one before: `i * advance`. */
  function Left(advance: int, i: nat): int {
    if i == 0 then 0 else Left(advance, i - 1) + advance
  }

  function WindowAt(count: nat, length: int, cap: Capability, i: nat): Window
    requires Measured(cap)
  {
    var left := Left(length - cap.overlap, i);
    var end := Min(count, left + length);
    Window(i + 1, if i == 0 then 0 else left + cap.overlap, end, left, end, Padding(end - left, cap.step),
           end - left + Padding(end - left, cap.step), if i > 0 && cap.continues then [i] else [])
  }

  /** Number of windows: after the first, one for every further `advance` frames. */
  function Count(count: nat, length: int, advance: int): nat {
    if count == 0 then 0
    else if count <= length || advance <= 0 then 1
    else Later(count - length, advance)
  }

  function Later(rest: int, advance: int): nat
    requires rest > 0 && advance > 0
  {
    1 + (rest + advance - 1) / advance
  }

  /** Exactly when windows of a length can cover the film: a usable overlap, */
  ghost predicate Usable(count: nat, length: int, cap: Capability) {
    cap.overlap < cap.limit && (cap.continues ==> cap.overlap >= 1) && (count <= length || cap.overlap < length)
  }

  /** and a last window that needs no padding where none is allowed. */
  ghost predicate Mappable(count: nat, length: int, cap: Capability)
    requires Measured(cap)
  {
    && Usable(count, length, cap)
    && (cap.pads || count == 0 || WindowAt(count, length, cap, Count(count, length, length - cap.overlap) - 1).padding == 0)
  }

  // ---------------------------------------------------------------------------------------------
  // Arithmetic
  // ---------------------------------------------------------------------------------------------

  lemma LengthBounds(cap: Capability)
    requires Measured(cap)
    ensures 1 <= Length(cap) <= cap.limit < Length(cap) + cap.step && (Length(cap) - 1) % cap.step == 0
  {
    var q := (cap.limit - 1) / cap.step;
    assert cap.limit - 1 == q * cap.step + (cap.limit - 1) % cap.step;
    ModOf(q * cap.step, cap.step, q, 0);
    Product(q, cap.step);
  }

  lemma {:induction false} LeftIsProduct(advance: int, i: nat)
    ensures Left(advance, i) == i * advance
  {
    if i > 0 {
      LeftIsProduct(advance, i - 1);
    }
  }

  lemma {:induction false} LeftsRise(advance: int, i: nat, j: nat)
    requires advance > 0 && i <= j
    ensures 0 <= Left(advance, i) <= Left(advance, j) && (i < j ==> Left(advance, i) < Left(advance, j))
    decreases j
  {
    if i < j {
      LeftsRise(advance, i, j - 1);
    } else if i > 0 {
      LeftsRise(advance, i - 1, i - 1);
    }
  }

  /** The last window is the first to reach the end. */
  lemma CountReaches(count: nat, length: int, advance: int)
    requires count > 0 && length >= 1 && (count <= length || advance > 0)
    ensures Count(count, length, advance) >= 1 && Left(advance, Count(count, length, advance) - 1) + length >= count
    ensures forall i: nat :: i + 1 < Count(count, length, advance) ==> Left(advance, i) + length < count
  {
    if count > length {
      var rest := count - length;
      var n := (rest + advance - 1) / advance;
      assert rest + advance - 1 == n * advance + (rest + advance - 1) % advance;
      LeftIsProduct(advance, n);
      forall i: nat | i + 1 < Count(count, length, advance) ensures Left(advance, i) + length < count {
        LeftsRise(advance, i, n - 1);
      }
    }
  }

  /** Padding makes a legal length, and one that still fits whatever legal length the real one fits. */
  lemma PaddingFits(x: int, step: nat, whole: int)
    requires step >= 1 && x <= whole && (whole - 1) % step == 0
    ensures 0 <= Padding(x, step) < step && (x + Padding(x, step) - 1) % step == 0 && x + Padding(x, step) <= whole
    ensures x == whole ==> Padding(x, step) == 0
  {
    var p, q, w := Padding(x, step), (1 - x) / step, (whole - 1) / step;
    assert 1 - x == q * step + p;
    assert x + p - 1 == (-q) * step;
    ModOf(x + p - 1, step, -q, 0);
    assert whole - 1 == w * step;
    if x + p > whole || x == whole {
      assert (-q - w) * step == x + p - whole;
      if x + p < whole + step {
        Squeeze(-q - w, step, x + p - whole);
      }
    }
  }

  // ---------------------------------------------------------------------------------------------
  // map_windows
  // ---------------------------------------------------------------------------------------------

  method MapWindows(count: nat, cap: Capability) returns (r: Result<seq<Window>, Error>)
    requires Measured(cap)
    ensures r.Success? <==> Mappable(count, Length(cap), cap)
    ensures r.Failure? ==> r.error == if Usable(count, Length(cap), cap) then TailUnsupported else Unsupported
    ensures r.Success? ==> Covers(count, Length(cap), cap, r.value)
  {
    if cap.overlap >= cap.limit || (cap.continues && cap.overlap < 1) {
      return Failure(Unsupported);
    }
    LengthBounds(cap);
    r := Cover(count, Length(cap), cap);
  }

  /** The windows of the closed form, all of them. */
  ghost predicate Covers(count: nat, length: int, cap: Capability, segments: seq<Window>)
    requires Measured(cap)
  {
    |segments| == Count(count, length, length - cap.overlap)
    && forall i {:trigger Placed(count, length, cap, segments, i)} :: 0 <= i < |segments| ==> Placed(count, length, cap, segments, i)
  }

  ghost predicate Placed(count: nat, length: int, cap: Capability, segments: seq<Window>, i: nat)
    requires Measured(cap) && i < |segments|
  {
    segments[i] == WindowAt(count, length, cap, i)
  }

  /** The loop of `map_windows`. */
  method Cover(count: nat, length: int, cap: Capability) returns (r: Result<seq<Window>, Error>)
    requires Measured(cap) && cap.overlap < cap.limit && (cap.continues ==> cap.overlap >= 1)
    requires 1 <= length && (length - 1) % cap.step == 0
    ensures r.Success? <==> Mappable(count, length, cap)
    ensures r.Failure? ==> r.error == if Usable(count, length, cap) then TailUnsupported else Unsupported
    ensures r.Success? ==> Covers(count, length, cap, r.value)
  {
    var segments: seq<Window>, start := [], 0;
    while start < count
      invariant Mapped(count, length, cap, segments, start)
      invariant start >= count && count > 0 ==> Whole(count, length, cap, segments)
      decreases count - start
    {
      var next := Pass(count, length, cap, segments, start);
      if next.Failure? {
        return Failure(next.error);
      }
      segments := segments + [next.value];
      start := next.value.end;
    }
    WholeCovers(count, length, cap, segments);
    return Success(segments);
  }

  /** The loop body: the next window, or why there is none. */
  method Pass(count: nat, length: int, cap: Capability, segments: seq<Window>, start: int) returns (r: Result<Window, Error>)
    requires Measured(cap) && cap.overlap < cap.limit && (cap.continues ==> cap.overlap >= 1) && 0 <= start < count
    requires 1 <= length && (length - 1) % cap.step == 0 && Mapped(count, length, cap, segments, start)
    ensures r.Success? ==> start < r.value.end <= count && Mapped(count, length, cap, segments + [r.value], r.value.end)
    ensures r.Success? && r.value.end == count ==> Whole(count, length, cap, segments + [r.value])
    ensures r.Failure? ==> !Mappable(count, length, cap) && r.error == if Usable(count, length, cap) then TailUnsupported else Unsupported
  {
    var left := Max(0, start - cap.overlap);
    var end := Min(count, left + length);
    Refused(count, length, cap, segments, start);
    if end <= start {
      return Failure(Unsupported);
    }
    NextWindow(count, length, cap, segments, start);
    var padding := Padding(end - left, cap.step);
    if padding != 0 && !cap.pads {
      return Failure(TailUnsupported);
    }
    var window := Window(|segments| + 1, start, end, left, end, padding, end - left + padding,
                         if segments != [] && cap.continues then [segments[|segments| - 1].id] else []);
    MappedMore(count, length, cap, segments, start, window);
    return Success(window);
  }

  lemma WholeCovers(count: nat, length: int, cap: Capability, segments: seq<Window>)
    requires Measured(cap) && Mapped(count, length, cap, segments, count) && (count > 0 ==> Whole(count, length, cap, segments))
    requires cap.overlap < cap.limit && (cap.continues ==> cap.overlap >= 1) && 1 <= length
    ensures Covers(count, length, cap, segments) && Mappable(count, length, cap)
  {
    if count > 0 {
      assert Placed(count, length, cap, segments, |segments| - 1);
    }
  }

  /** The windows so far are the first of the closed form, and only the last may have reached the end. */
  ghost predicate Mapped(count: nat, length: int, cap: Capability, segments: seq<Window>, start: int)
    requires Measured(cap)
  {
    && 0 <= start <= count && (start == if segments == [] then 0 else segments[|segments| - 1].end)
    && (forall i {:trigger Placed(count, length, cap, segments, i)} :: 0 <= i < |segments| ==> Placed(count, length, cap, segments, i))
    && (forall i :: 0 <= i < |segments| ==> 0 < segments[i].end)
    && (forall i, j :: 0 <= i < j < |segments| ==> segments[i].end < segments[j].end)
    && (count == 0 ==> segments == [])
  }

  lemma MappedMore(count: nat, length: int, cap: Capability, segments: seq<Window>, start: int, window: Window)
    requires Measured(cap) && Mapped(count, length, cap, segments, start) && start < window.end <= count
    requires window == WindowAt(count, length, cap, |segments|).(dependsOn := window.dependsOn)
    requires window.dependsOn == if segments != [] && cap.continues then [segments[|segments| - 1].id] else []
    ensures Mapped(count, length, cap, segments + [window], window.end) && Placed(count, length, cap, segments + [window], |segments|)
  {
    var more, i := segments + [window], |segments|;
    if i > 0 {
      assert Placed(count, length, cap, segments, i - 1);
    }
    forall j: nat | j < |more| ensures Placed(count, length, cap, more, j) {
      assert j < i ==> Placed(count, length, cap, segments, j);
    }
  }

  /** All windows are there, and the last is padded only where that is allowed. */
  ghost predicate Whole(count: nat, length: int, cap: Capability, segments: seq<Window>) {
    && Usable(count, length, cap) && |segments| == Count(count, length, length - cap.overlap) > 0
    && (cap.pads || segments[|segments| - 1].padding == 0)
  }

  lemma MappedReached(count: nat, length: int, cap: Capability, segments: seq<Window>, start: int)
    requires Measured(cap) && start < count && Mapped(count, length, cap, segments, start)
    ensures var i, advance := |segments|, length - cap.overlap;
      && Reached(count, length, advance, i)
      && (i > 0 ==> start == Left(advance, i - 1) + length)
      && (i >= 2 ==> Left(advance, i - 2) < Left(advance, i - 1))
  {
    var i, advance := |segments|, length - cap.overlap;
    forall j: nat | j < i ensures j < i ==> Left(advance, j) + length < count && segments[j].end == Left(advance, j) + length {
      assert Placed(count, length, cap, segments, j);
      assert segments[j].end < count;
    }
  }

  /** A pass is refused exactly when the overlap leaves no room for a second window. */
  lemma Refused(count: nat, length: int, cap: Capability, segments: seq<Window>, start: int)
    requires Measured(cap) && cap.overlap < cap.limit && (cap.continues ==> cap.overlap >= 1) && 0 <= start < count && 1 <= length
    requires Mapped(count, length, cap, segments, start)
    ensures var end := Min(count, Max(0, start - cap.overlap) + length);
      && (end <= start ==> !Usable(count, length, cap))
      && (end > start ==> Usable(count, length, cap) || (segments == [] && end < count))
  {
    MappedReached(count, length, cap, segments, start);
    Starts(count, length, cap.overlap, |segments|, start);
  }

  /** Otherwise it adds the next window of the closed form; only the last one can need padding. */
  lemma NextWindow(count: nat, length: int, cap: Capability, segments: seq<Window>, start: int)
    requires Measured(cap) && 0 <= start < count && 1 <= length && (length - 1) % cap.step == 0
    requires Mapped(count, length, cap, segments, start) && (Usable(count, length, cap) || (segments == [] && length < count))
    ensures var i, left := |segments|, Max(0, start - cap.overlap);
      var end := Min(count, left + length);
      var padding := Padding(end - left, cap.step);
      && WindowAt(count, length, cap, i)
           == Window(i + 1, start, end, left, end, padding, end - left + padding, if i > 0 && cap.continues then [i] else [])
      && (end < count ==> padding == 0)
      && (end == count ==> i + 1 == Count(count, length, length - cap.overlap))
  {
    var i, left := |segments|, Max(0, start - cap.overlap);
    MappedReached(count, length, cap, segments, start);
    Starts(count, length, cap.overlap, i, start);
    FullNeedsNone(length, cap.step);
    if Usable(count, length, cap) {
      LastIsCount(count, length, length - cap.overlap, i);
    }
    var end := Min(count, left + length);
    assert end < count ==> end - left == length;
  }

  lemma FullNeedsNone(length: int, step: nat)
    requires step >= 1 && (length - 1) % step == 0
    ensures Padding(length, step) == 0
  {
    PaddingFits(length, step, length);
  }

  ghost predicate Reached(count: nat, length: int, advance: int, n: nat) {
    forall i: nat :: i < n ==> Left(advance, i) + length < count
  }

  lemma Starts(count: nat, length: int, overlap: nat, i: nat, start: int)
    requires 0 <= start < count && 1 <= length && Reached(count, length, length - overlap, i)
    requires start == if i == 0 then 0 else Left(length - overlap, i - 1) + length
    requires i >= 2 ==> Left(length - overlap, i - 2) < Left(length - overlap, i - 1)
    ensures var left, advance := Max(0, start - overlap), length - overlap;
      && (i > 0 ==> length < count)
      && (i == 0 || advance > 0 ==> left == Left(advance, i) && (i > 0 ==> start == left + overlap))
      && (i >= 2 ==> advance > 0)
      && (i == 1 && advance <= 0 ==> left == 0 && start == length)
  {
    var advance := length - overlap;
    if i > 0 {
      assert Left(advance, 0) + length < count;
      assert Left(advance, i) == Left(advance, i - 1) + advance;
    }
    if advance > 0 {
      LeftsRise(advance, 0, i);
    }
  }

  lemma LastIsCount(count: nat, length: int, advance: int, i: nat)
    requires count > 0 && length >= 1 && (count <= length || advance > 0) && Reached(count, length, advance, i)
    ensures Left(advance, i) + length >= count ==> i + 1 == Count(count, length, advance)
  {
    CountReaches(count, length, advance);
    var n := Count(count, length, advance);
    var last := Left(advance, n - 1) + length;
    assert n - 1 < i ==> last < count;
    assert i + 1 < n ==> Left(advance, i) + length < count;
  }

  // ---------------------------------------------------------------------------------------------
  // What a mapping is for
  // ---------------------------------------------------------------------------------------------

  /** Neighbouring windows meet: cores touch, contexts reach back by the overlap. */
  lemma Neighbours(count: nat, length: int, cap: Capability, segments: seq<Window>, i: nat)
    requires Measured(cap) && Usable(count, length, cap) && 1 <= length && Covers(count, length, cap, segments) && i < |segments|
    ensures var w := segments[i];
      && w.id == i + 1 && 0 <= w.left <= w.start < w.end == w.right <= count
      && w.start == (if i == 0 then 0 else segments[i - 1].end) && (w.end == count <==> i == |segments| - 1)
      && (i > 0 ==> w.left == w.start - cap.overlap && segments[i - 1].left <= w.left)
      && (i < |segments| - 1 ==> w.end - w.left == length) && w.end - w.left <= length
      && w.dependsOn == (if i > 0 && cap.continues then [i] else [])
  {
    var advance := length - cap.overlap;
    assert Placed(count, length, cap, segments, i);
    CountReaches(count, length, advance);
    var reached := Left(advance, i) + length;
    assert i + 1 < |segments| ==> reached < count;
    if i > 0 {
      assert Placed(count, length, cap, segments, i - 1);
      var before := Left(advance, i - 1) + length;
      assert before < count;
      LeftsRise(advance, 0, i);
    }
  }

  /** Every model length is legal and within the limit, and only the last window is padded. */
  lemma LegalLengths(count: nat, cap: Capability, segments: seq<Window>, i: nat)
    requires Measured(cap) && Usable(count, Length(cap), cap) && Covers(count, Length(cap), cap, segments) && i < |segments|
    ensures var w := segments[i];
      && w.frames == w.right - w.left + w.padding && 0 <= w.padding < cap.step && (w.frames - 1) % cap.step == 0
      && w.frames <= Length(cap) <= cap.limit && (w.padding > 0 ==> i == |segments| - 1)
  {
    LengthBounds(cap);
    Neighbours(count, Length(cap), cap, segments, i);
    assert Placed(count, Length(cap), cap, segments, i);
    PaddingFits(segments[i].end - segments[i].left, cap.step, Length(cap));
  }

  /** A film is mapped exactly when the overlap is usable and, where padding is not allowed, what the last window holds has a legal length. */
  lemma MappedWhen(count: nat, cap: Capability)
    requires Measured(cap)
    ensures var length, last := Length(cap), Count(count, Length(cap), Length(cap) - cap.overlap) - 1;
      Mappable(count, length, cap) <==>
        && cap.overlap < cap.limit && (cap.continues ==> cap.overlap >= 1) && (count > length ==> cap.overlap < length)
        && (!cap.pads && count > 0 ==> (count - last * (length - cap.overlap) - 1) % cap.step == 0)
  {
    LengthBounds(cap);
    var length, advance := Length(cap), Length(cap) - cap.overlap;
    if Usable(count, length, cap) && count > 0 {
      CountReaches(count, length, advance);
      var last := Count(count, length, advance) - 1;
      LeftIsProduct(advance, last);
      PaddingFits(count - Left(advance, last), cap.step, length);
      NoPaddingWhen(count - Left(advance, last), cap.step);
    }
  }

  lemma NoPaddingWhen(x: int, step: nat)
    requires step >= 1
    ensures Padding(x, step) == 0 <==> (x - 1) % step == 0
  {
    var p := Padding(x, step);
    assert 1 - x == (1 - x) / step * step + p;
    assert x - 1 == (x - 1) / step * step + (x - 1) % step;
    if p == 0 {
      assert x - 1 == -((1 - x) / step) * step;
      ModOf(x - 1, step, -((1 - x) / step), 0);
    }
    if (x - 1) % step == 0 {
      assert 1 - x == -((x - 1) / step) * step;
      ModOf(1 - x, step, -((x - 1) / step), 0);
    }
  }

  predicate InCore(w: Window, frame: int) {
    w.start <= frame < w.end
  }

  /** The cores tile the film: each frame is in exactly one. */
  lemma {:induction false} OneCorePerFrame(count: nat, cap: Capability, segments: seq<Window>, frame: int)
    requires Measured(cap) && Usable(count, Length(cap), cap) && Covers(count, Length(cap), cap, segments) && 0 <= frame < count
    ensures exists i :: 0 <= i < |segments| && InCore(segments[i], frame)
    ensures forall i, j :: 0 <= i < |segments| && 0 <= j < |segments| && InCore(segments[i], frame) && InCore(segments[j], frame) ==> i == j
  {
    LengthBounds(cap);
    CountReaches(count, Length(cap), Length(cap) - cap.overlap);
    Neighbours(count, Length(cap), cap, segments, |segments| - 1);
    var i := CoreOf(count, cap, segments, frame, |segments| - 1);
    forall j, k | 0 <= j < k < |segments| ensures segments[j].end <= segments[k].start {
      CoresApart(count, cap, segments, j, k);
    }
  }

  lemma {:induction false} CoreOf(count: nat, cap: Capability, segments: seq<Window>, frame: int, last: nat) returns (i: nat)
    requires Measured(cap) && Usable(count, Length(cap), cap) && Covers(count, Length(cap), cap, segments) && last < |segments|
    requires 0 <= frame < segments[last].end
    ensures i <= last && InCore(segments[i], frame)
  {
    LengthBounds(cap);
    Neighbours(count, Length(cap), cap, segments, last);
    if segments[last].start <= frame {
      i := last;
    } else {
      i := CoreOf(count, cap, segments, frame, last - 1);
    }
  }

  lemma {:induction false} CoresApart(count: nat, cap: Capability, segments: seq<Window>, i: nat, j: nat)
    requires Measured(cap) && Usable(count, Length(cap), cap) && Covers(count, Length(cap), cap, segments) && i < j < |segments|
    ensures segments[i].end <= segments[j].start
    decreases j
  {
    LengthBounds(cap);
    Neighbours(count, Length(cap), cap, segments, j);
    if i < j - 1 {
      CoresApart(count, cap, segments, i, j - 1);
      Neighbours(count, Length(cap), cap, segments, j - 1);
    }
  }

  // ---------------------------------------------------------------------------------------------
  // validate_segments
  // ---------------------------------------------------------------------------------------------

  function Generated(segments: seq<Window>): int {
    if segments == [] then 0 else Generated(segments[..|segments| - 1]) + segments[|segments| - 1].frames
  }

  predicate SegmentValid(segments: seq<Window>, i: nat, count: nat)
    requires i < |segments|
  {
    var w := segments[i];
    && w.start == (if i == 0 then 0 else segments[i - 1].end)
    && 0 <= w.left <= w.start < w.end == w.right <= count
    && (forall j :: 0 <= j < i ==> segments[j].id != w.id)
    && (forall d :: d in w.dependsOn ==> exists j :: 0 <= j < i && segments[j].id == d)
    && w.frames == w.right - w.left + w.padding
  }

  /** Intervals, unique ids, dependencies on earlier segments only, lengths, and the two totals. */
  ghost predicate PlanValid(segments: seq<Window>, count: nat, generated: int) {
    && (forall i {:trigger SegmentValid(segments, i, count)} :: 0 <= i < |segments| ==> SegmentValid(segments, i, count))
    && (if segments == [] then 0 else segments[|segments| - 1].end) == count && Generated(segments) == generated
  }

  method ValidateSegments(segments: seq<Window>, count: nat, generated: int) returns (ok: bool)
    ensures ok <==> PlanValid(segments, count, generated)
  {
    var position, total, seen := 0, 0, {};
    for i := 0 to |segments|
      invariant position == if i == 0 then 0 else segments[i - 1].end
      invariant total == Generated(segments[..i])
      invariant forall d :: d in seen <==> exists j :: 0 <= j < i && segments[j].id == d
      invariant forall j {:trigger SegmentValid(segments, j, count)} :: 0 <= j < i ==> SegmentValid(segments, j, count)
    {
      var w := segments[i];
      assert segments[..i + 1][..i] == segments[..i];
      var known := forall d :: d in w.dependsOn ==> d in seen;
      if w.start != position || !(0 <= w.left <= w.start < w.end == w.right <= count) || w.id in seen || !known
         || w.frames != w.right - w.left + w.padding
      {
        assert !SegmentValid(segments, i, count);
        return false;
      }
      assert SegmentValid(segments, i, count);
      seen := seen + {w.id};
      position := w.end;
      total := total + w.frames;
    }
    assert segments[..|segments|] == segments;
    return position == count && total == generated;
  }

  /** The frames of all windows, added up. */
  lemma GeneratedAdds(segments: seq<Window>, w: Window)
    ensures Generated([]) == 0 && Generated(segments + [w]) == Generated(segments) + w.frames
  {
    assert (segments + [w])[..|segments|] == segments;
  }

  /** Windows end to end from 0 to the film's end, each within its context, under new ids, waiting only for earlier ones. */
  ghost predicate EndToEnd(segments: seq<Window>, count: nat) {
    && (segments == [] ==> count == 0) && (segments != [] ==> segments[0].start == 0 && segments[|segments| - 1].end == count)
    && (forall i :: 0 < i < |segments| ==> segments[i].start == segments[i - 1].end)
    && (forall i :: 0 <= i < |segments| ==>
          && 0 <= segments[i].left && segments[i].left <= segments[i].start && segments[i].start < segments[i].end
          && segments[i].right == segments[i].end && segments[i].end <= count
          && segments[i].frames - segments[i].padding == segments[i].right - segments[i].left)
    && (forall i, j :: 0 <= j < i < |segments| ==> segments[j].id != segments[i].id)
    && (forall i, d :: 0 <= i < |segments| && d in segments[i].dependsOn ==> exists j :: 0 <= j < i && segments[j].id == d)
  }

  lemma ValidMeans(segments: seq<Window>, count: nat, generated: int)
    ensures PlanValid(segments, count, generated) <==> EndToEnd(segments, count) && Generated(segments) == generated
  {
    if PlanValid(segments, count, generated) {
      ValidIsEndToEnd(segments, count, generated);
    }
    if EndToEnd(segments, count) {
      EndToEndIsValid(segments, count);
    }
  }

  lemma ValidIsEndToEnd(segments: seq<Window>, count: nat, generated: int)
    requires PlanValid(segments, count, generated)
    ensures EndToEnd(segments, count)
  {
    assert forall i {:trigger segments[i]} :: 0 <= i < |segments| ==> SegmentValid(segments, i, count);
  }

  lemma EndToEndIsValid(segments: seq<Window>, count: nat)
    requires EndToEnd(segments, count)
    ensures PlanValid(segments, count, Generated(segments))
  {
    forall i: nat | i < |segments| ensures SegmentValid(segments, i, count) {
    }
  }

  /** Whatever `map_windows` produces passes `validate_segments`. */
  lemma MappingValidates(count: nat, cap: Capability, segments: seq<Window>)
    requires Measured(cap) && Usable(count, Length(cap), cap) && Covers(count, Length(cap), cap, segments)
    ensures PlanValid(segments, count, Generated(segments))
  {
    LengthBounds(cap);
    forall i: nat | i < |segments| ensures SegmentValid(segments, i, count) {
      Neighbours(count, Length(cap), cap, segments, i);
      LegalLengths(count, cap, segments, i);
      forall j: nat | j < i ensures segments[j].id == j + 1 {
        Neighbours(count, Length(cap), cap, segments, j);
      }
      assert forall d :: d in segments[i].dependsOn ==> d == i && segments[i - 1].id == d;
    }
    if count > 0 {
      CountReaches(count, Length(cap), Length(cap) - cap.overlap);
      Neighbours(count, Length(cap), cap, segments, |segments| - 1);
    }
  }

  // ---------------------------------------------------------------------------------------------
  // The receipt of a checkpoint
  // ---------------------------------------------------------------------------------------------

  datatype Prior<T> = NoPrior | Prior(window: Window, hashes: seq<T>)
  datatype Initialization<T> = Bad | Frames(frames: seq<(int, T)>)

  /** The j-th initialization frame carries its global number and the predecessor's hash of that very frame. */
  predicate Found<T(==)>(segment: Window, window: Window, hashes: seq<T>, item: (int, T), j: nat) {
    0 <= segment.left + j - window.left < |hashes| && item == (segment.left + j, hashes[segment.left + j - window.left])
  }

  /** The frames a continued segment starts from, looked up among the predecessor's frames. */
  method InitializationOf<T(==)>(segment: Window, prior: Prior<T>) returns (r: Initialization<T>)
    ensures r.Frames? <==> (segment.dependsOn == [] || (
      && prior.Prior? && segment.dependsOn == [prior.window.id]
      && (segment.left < segment.start ==> prior.window.left <= segment.left && segment.start - prior.window.left <= |prior.hashes|)))
    ensures r.Frames? && segment.dependsOn != [] ==>
      && |r.frames| == Max(0, segment.start - segment.left)
      && forall j :: 0 <= j < |r.frames| ==>
           && 0 <= segment.left + j - prior.window.left < |prior.hashes|
           && r.frames[j].0 == segment.left + j && r.frames[j].1 == prior.hashes[segment.left + j - prior.window.left]
    ensures r.Frames? && segment.dependsOn == [] ==> r.frames == []
  {
    if segment.dependsOn == [] {
      return Frames([]);
    }
    if prior.NoPrior? || segment.dependsOn != [prior.window.id] {
      return Bad;
    }
    var frames := [];
    var frame := segment.left;
    while frame < segment.start
      invariant segment.left <= frame && |frames| == frame - segment.left && (frame <= segment.start || frames == [])
      invariant forall j :: 0 <= j < |frames| ==> Found(segment, prior.window, prior.hashes, frames[j], j)
    {
      var offset := frame - prior.window.left;
      if !(0 <= offset < |prior.hashes|) {
        return Bad;
      }
      frames := frames + [(frame, prior.hashes[offset])];
      frame := frame + 1;
    }
    if frames != [] {
      assert Found(segment, prior.window, prior.hashes, frames[0], 0);
      assert Found(segment, prior.window, prior.hashes, frames[|frames| - 1], |frames| - 1);
    }
    return Frames(frames);
  }

  /**
   The predecessor of a mapped, continued segment always holds the frames the receipt looks up: there is at least one,
   they end with the predecessor's last real frame, and none of them is padding.
   */
  lemma PredecessorHolds<T>(count: nat, cap: Capability, segments: seq<Window>, i: nat, hashes: seq<T>)
    requires Measured(cap) && Usable(count, Length(cap), cap) && Covers(count, Length(cap), cap, segments)
    requires cap.continues && 0 < i < |segments| && |hashes| == segments[i - 1].frames
    ensures var w, p := segments[i], segments[i - 1];
      && w.dependsOn == [p.id] && w.left < w.start && p.left <= w.left && w.start - p.left <= |hashes|
      && w.start == p.end && w.start - p.left == p.frames - p.padding && p.padding == 0
  {
    LengthBounds(cap);
    Neighbours(count, Length(cap), cap, segments, i);
    Neighbours(count, Length(cap), cap, segments, i - 1);
    LegalLengths(count, cap, segments, i - 1);
  }
}
