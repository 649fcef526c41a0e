/**
 Audio sample positions of src/fsf/core/audio_edit.py: frames are placed at 48 kHz samples rounded half to even, events
 in clips or on the timeline become sample spans, and the spans of a track may not overlap.
 */
module AudioLayout {
  import opened Ids
  import opened Integers

  /** Frames per second as a fraction. */
  datatype Clock = Clock(num: int, den: int)

  predicate Ticking(c: Clock) {
    c.num >= 1 && c.den >= 1
  }

  /** Python's `round` of the fraction p/q. */
  function HalfEven(p: int, q: int): int
    requires q >= 1
  {
    var f, r := p / q, p % q;
    if 2 * r < q then f else if 2 * r > q then f + 1 else if f % 2 == 0 then f else f + 1
  }

  function FrameSample(frame: int, c: Clock): int
    requires Ticking(c)
  {
    HalfEven(frame * (c.den * 48000), c.num)
  }

  // ---------------------------------------------------------------------------------------------
  // Rounding
  // ---------------------------------------------------------------------------------------------

  /** The rounded value is at most half a unit away. */
  lemma Nearest(p: int, q: int)
    requires q >= 1
    ensures -q <= 2 * (HalfEven(p, q) * q - p) <= q
  {
    var f, r := p / q, p % q;
    assert p == f * q + r;
    assert (f + 1) * q == f * q + q;
  }

  /** A tie goes to the even neighbour. */
  lemma TiesToEven(p: int, q: int)
    requires q >= 1 && (2 * (HalfEven(p, q) * q - p) == q || 2 * (p - HalfEven(p, q) * q) == q)
    ensures HalfEven(p, q) % 2 == 0
  {
    var f, r := p / q, p % q;
    assert p == f * q + r;
    assert (f + 1) * q == f * q + q;
  }

  /** A frame begins at the sample nearest to frame * den / num seconds of 48000 samples, the even one of two equally near. */
  lemma FrameIsNearest(frame: int, c: Clock)
    requires Ticking(c)
    ensures var off := FrameSample(frame, c) * c.num - frame * (c.den * 48000);
      -c.num <= 2 * off <= c.num && (2 * off in {c.num, -c.num} ==> FrameSample(frame, c) % 2 == 0)
  {
    var p := frame * (c.den * 48000);
    Nearest(p, c.num);
    if 2 * (FrameSample(frame, c) * c.num - p) in {c.num, -c.num} {
      TiesToEven(p, c.num);
    }
  }

  lemma HalfEvenMonotone(p: int, r: int, q: int)
    requires q >= 1 && p <= r
    ensures HalfEven(p, q) <= HalfEven(r, q)
  {
    Nearest(p, q);
    Nearest(r, q);
    if p < r {
      Ordered(HalfEven(p, q), HalfEven(r, q), p, r, q);
    }
  }

  /** Two integers within half a step of two different points are in the points' order. */
  lemma Ordered(h: int, k: int, p: int, r: int, q: int)
    requires q >= 1 && p < r && 2 * (h * q - p) <= q && -q <= 2 * (k * q - r)
    ensures h <= k
  {
    if h > k {
      Distribute(h, k, q);
      Product(h - k - 1, q);
      TimesNext(h - k, q);
    }
  }

  lemma HalfEvenWhole(k: int, q: int)
    requires q >= 1
    ensures HalfEven(k * q, q) == k
  {
    ModOf(k * q, q, k, 0);
  }

  /** Adding an even whole number commutes with rounding half to even; adding an odd one need not. */
  lemma HalfEvenShift(p: int, k: int, q: int)
    requires q >= 1
    ensures HalfEven(p + 2 * k * q, q) == HalfEven(p, q) + 2 * k
  {
    var f, r := p / q, p % q;
    assert p + 2 * k * q == (f + 2 * k) * q + r;
    ModOf(p + 2 * k * q, q, f + 2 * k, r);
    assert (f + 2 * k) % 2 == f % 2;
  }

  /** Frame positions never go back, whatever the clock. */
  lemma FrameSampleMonotone(a: int, b: int, c: Clock)
    requires Ticking(c) && a <= b
    ensures FrameSample(a, c) <= FrameSample(b, c)
  {
    assert (b - a) * (c.den * 48000) >= 0;
    assert b * (c.den * 48000) - a * (c.den * 48000) == (b - a) * (c.den * 48000);
    HalfEvenMonotone(a * (c.den * 48000), b * (c.den * 48000), c.num);
  }

  ghost predicate WholeSamples(c: Clock)
    requires Ticking(c)
  {
    exists s :: c.den * 48000 == s * c.num
  }

  lemma WholeFrames(c: Clock, s: int, frame: int)
    requires Ticking(c) && c.den * 48000 == s * c.num
    ensures FrameSample(frame, c) == frame * s
  {
    assert frame * (c.den * 48000) == (frame * s) * c.num;
    HalfEvenWhole(frame * s, c.num);
  }

  /** `num` frames last exactly `den` seconds, wherever they start. */
  lemma FullPeriod(c: Clock, frame: int)
    requires Ticking(c)
    ensures FrameSample(frame + c.num, c) == FrameSample(frame, c) + c.den * 48000
  {
    assert (frame + c.num) * (c.den * 48000) == frame * (c.den * 48000) + 2 * (c.den * 24000) * c.num;
    HalfEvenShift(frame * (c.den * 48000), c.den * 24000, c.num);
  }

  // ---------------------------------------------------------------------------------------------
  // Moving a clip
  // ---------------------------------------------------------------------------------------------

  /** In a clip at offset `o`, an event of a length at frame `f` is over by frame `g`; then it is also at offset `p`. */
  ghost predicate StillClear(c: Clock, o: nat, p: nat, f: nat, g: nat, length: int)
    requires Ticking(c)
  {
    2 <= length && FrameSample(o + f, c) + length <= FrameSample(o + g, c) ==> FrameSample(p + f, c) + length <= FrameSample(p + g, c)
  }

  /** Moving clips never makes clear events of one clip overlap. */
  ghost predicate MoveSafe(c: Clock)
    requires Ticking(c)
  {
    forall o, p, f, g, length {:trigger StillClear(c, o, p, f, g, length)} :: StillClear(c, o, p, f, g, length)
  }

  /** A frame lasts as many samples as the film's first one. */
  ghost predicate EvenStep(c: Clock, n: nat)
    requires Ticking(c)
  {
    FrameSample(n + 1, c) - FrameSample(n, c) == FrameSample(1, c) - FrameSample(0, c)
  }

  lemma EvenSteps(c: Clock, n: nat)
    requires Ticking(c) && MoveSafe(c)
    ensures EvenStep(c, n)
  {
    var g := c.num + 1;
    FullPeriod(c, 1);
    FullPeriod(c, n + 1);
    FrameSampleMonotone(0, 1, c);
    FrameSampleMonotone(n, n + 1, c);
    assert FrameSample(0 + g, c) == FrameSample(1 + c.num, c) && FrameSample(n + g, c) == FrameSample(n + 1 + c.num, c);
    assert StillClear(c, 0, n, 0, g, FrameSample(0 + g, c) - FrameSample(0 + 0, c));
    assert StillClear(c, n, 0, 0, g, FrameSample(n + g, c) - FrameSample(n + 0, c));
  }

  lemma {:induction false} EvenLine(c: Clock, n: nat)
    requires Ticking(c) && forall k: nat {:trigger EvenStep(c, k)} :: EvenStep(c, k)
    ensures FrameSample(n, c) == n * FrameSample(1, c)
  {
    FrameZero(c);
    if n > 0 {
      EvenLine(c, n - 1);
      assert EvenStep(c, n - 1);
      TimesNext(n, FrameSample(1, c));
    }
  }

  lemma EvenIsWhole(c: Clock)
    requires Ticking(c) && forall k: nat {:trigger EvenStep(c, k)} :: EvenStep(c, k)
    ensures WholeSamples(c)
  {
    EvenLine(c, c.num);
    FullPeriod(c, 0);
    FrameZero(c);
    assert c.den * 48000 == FrameSample(1, c) * c.num;
  }

  lemma FrameZero(c: Clock)
    requires Ticking(c)
    ensures FrameSample(0, c) == 0
  {
    HalfEvenWhole(0, c.num);
  }

  /** Reordering clips is safe for their events exactly when a frame is a whole number of samples. */
  lemma MoveSafeIffWhole(c: Clock)
    requires Ticking(c)
    ensures MoveSafe(c) <==> WholeSamples(c)
  {
    if MoveSafe(c) {
      forall n: nat ensures EvenStep(c, n) {
        EvenSteps(c, n);
      }
      EvenIsWhole(c);
    }
    if WholeSamples(c) {
      var s :| c.den * 48000 == s * c.num;
      forall o: nat, p: nat, f: nat, g: nat, length: int ensures StillClear(c, o, p, f, g, length) {
        WholeMoves(c, s, o, p, f, g);
      }
    }
  }

  lemma WholeMoves(c: Clock, s: int, o: nat, p: nat, f: nat, g: nat)
    requires Ticking(c) && c.den * 48000 == s * c.num
    ensures FrameSample(o + g, c) - FrameSample(o + f, c) == FrameSample(p + g, c) - FrameSample(p + f, c)
  {
    WholeFrames(c, s, o + g);
    WholeFrames(c, s, o + f);
    WholeFrames(c, s, p + g);
    WholeFrames(c, s, p + f);
    assert (o + g) * s - (o + f) * s == (g - f) * s == (p + g) * s - (p + f) * s;
  }
}
