/** What one event asks of the envelope, which inputs are refused and what the sweep costs, each on the input alone. */
module DuckingLaws {
  import opened Wrappers
  import opened Reals
  import opened Sorting
  import opened Ducking

  // ---------------------------------------------------------------------------------------------
  // One event's gain
  // ---------------------------------------------------------------------------------------------

  /** During attack the gain falls in equal steps from nothing, `attackSamples` before the dialogue, to the full attenuation. */
  lemma AttackFalls(e: Event, c: Settings, s: int)
    requires e.startSample - c.attackSamples <= s < e.startSample
    ensures EventGain(e, c, s) * c.attackSamples as real == -(c.attenuation as real) * (s - (e.startSample - c.attackSamples)) as real
  {
    var amount, t, n := c.attenuation as real, (s - (e.startSample - c.attackSamples)) as real, c.attackSamples as real;
    Quotient(-amount * t, n);
  }

  /** During release it rises in equal steps from the full attenuation to nothing, `releaseSamples` after the dialogue. */
  lemma ReleaseRises(e: Event, c: Settings, s: int)
    requires e.startSample < e.endSample <= s < e.endSample + c.releaseSamples && c.attackSamples >= 0
    ensures EventGain(e, c, s) * c.releaseSamples as real == -(c.attenuation as real) * (e.endSample + c.releaseSamples - s) as real
  {
    var amount, t, n := c.attenuation as real, (s - e.endSample) as real, c.releaseSamples as real;
    Quotient(amount * t, n);
    Spread(-amount, amount * t / n, n);
    Distribute(amount, n, t);
    assert (e.endSample + c.releaseSamples - s) as real == n - t;
    MulNeg(amount, n - t);
    MulNeg(amount, n);
  }

  lemma Spread(a: real, b: real, n: real)
    ensures (a + b) * n == a * n + b * n
  {
  }

  /** Dialogue is ducked in full; away from the event and its ramps nothing is. */
  lemma HoldsAndRests(e: Event, c: Settings, s: int)
    requires e.startSample < e.endSample && c.attackSamples >= 0 && c.releaseSamples >= 0
    ensures e.startSample <= s < e.endSample ==> EventGain(e, c, s) == -(c.attenuation as real)
    ensures s < e.startSample - c.attackSamples || e.endSample + c.releaseSamples <= s ==> EventGain(e, c, s) == 0.0
  {
  }

  // ---------------------------------------------------------------------------------------------
  // Refusals
  // ---------------------------------------------------------------------------------------------

  /** The event is inside the film, not on the ducked track, and not an earlier one again. */
  predicate Acceptable(events: seq<Event>, k: nat, c: Settings, total: int)
    requires k < |events|
  {
    && events[k].trackId != c.targetTrackId && 0 <= events[k].startSample < events[k].endSample <= total
    && events[k].endSample <= 0x7FFF_FFFF_FFFF_FFFF && forall j :: 0 <= j < k ==> events[j].eventId != events[k].eventId
  }

  /** What is wrong with an event, a repeated name first, then its track, then numbers out of range, then its place. */
  predicate Faults(events: seq<Event>, k: nat, c: Settings, total: int, error: Error)
    requires k < |events|
  {
    var e := events[k];
    var repeated := exists j :: 0 <= j < k && events[j].eventId == e.eventId;
    var outside := e.startSample < 0 || e.startSample > 0x7FFF_FFFF_FFFF_FFFF || e.endSample < 0 || e.endSample > 0x7FFF_FFFF_FFFF_FFFF;
    match error
    case SelfTarget => !repeated && e.trackId == c.targetTrackId
    case OutOfRange => !repeated && e.trackId != c.targetTrackId && outside
    case Invalid => repeated || (e.trackId != c.targetTrackId && !outside && (e.endSample <= e.startSample || total < e.endSample))
    case Complexity => false
  }

  lemma EventAnswers(events: seq<Event>, k: nat, c: Settings, total: int)
    requires k < |events|
    ensures match EventError(events, k, c, total)
      case None => Acceptable(events, k, c, total)
      case Some(error) => !Acceptable(events, k, c, total) && Faults(events, k, c, total, error)
  {
  }

  /** The first event that is not acceptable decides the error; with none the events are accepted. */
  lemma {:induction false} EventsAnswer(events: seq<Event>, k: nat, c: Settings, total: int) returns (at: nat)
    requires k <= |events|
    ensures k <= at <= |events| && forall j :: k <= j < at ==> Acceptable(events, j, c, total)
    ensures match FirstEventError(events, k, c, total)
      case None => at == |events|
      case Some(error) => at < |events| && !Acceptable(events, at, c, total) && Faults(events, at, c, total, error)
    decreases |events| - k
  {
    at := k;
    if k < |events| {
      EventAnswers(events, k, c, total);
      if EventError(events, k, c, total).None? {
        at := EventsAnswer(events, k + 1, c, total);
      }
    }
  }

  predicate SettingsFit(coverage: Coverage, c: Settings) {
    && 0 <= c.attenuation <= 120000 && 0 <= c.attackSamples <= 0x7FFF_FFFF_FFFF_FFFF && 0 <= c.releaseSamples <= 0x7FFF_FFFF_FFFF_FFFF
    && 1 <= c.maxOperations <= 0x7FFF_FFFF_FFFF_FFFF && 1 <= coverage.timelineSamples <= 0x7FFF_FFFF_FFFF_FFFF
  }

  ghost predicate FirstFault(coverage: Coverage, c: Settings, at: nat, error: Error) {
    && at < |coverage.intervals| && Faults(coverage.intervals, at, c, coverage.timelineSamples, error)
    && forall j :: 0 <= j < at ==> Acceptable(coverage.intervals, j, c, coverage.timelineSamples)
  }

  /** An input is accepted exactly when its settings are in range and its at most 10000 events all are acceptable. */
  lemma InputAnswers(coverage: Coverage, c: Settings)
    ensures var told := InputError(coverage, c);
      && (told.None? <==>
            && SettingsFit(coverage, c) && |coverage.intervals| <= 10000
            && forall k :: 0 <= k < |coverage.intervals| ==> Acceptable(coverage.intervals, k, c, coverage.timelineSamples))
      && (!SettingsFit(coverage, c) ==> told == Some(OutOfRange))
      && (SettingsFit(coverage, c) && |coverage.intervals| > 10000 ==> told == Some(Invalid))
      && (SettingsFit(coverage, c) && |coverage.intervals| <= 10000 && told.Some? ==> exists at: nat :: FirstFault(coverage, c, at, told.value))
  {
    var at := EventsAnswer(coverage.intervals, 0, c, coverage.timelineSamples);
    if InputError(coverage, c).Some? && SettingsFit(coverage, c) && |coverage.intervals| <= 10000 {
      assert FirstFault(coverage, c, at, InputError(coverage, c).value);
    }
  }

  // ---------------------------------------------------------------------------------------------
  // The operation count
  // ---------------------------------------------------------------------------------------------

  /** The lines over a sample, the base line not counted. */
  ghost function LinesOver(spans: seq<Span>, s: int): set<int> {
    set k | 0 <= k < |spans| && spans[k].left <= s < spans[k].right
  }

  /** Every elementary interval costs the square of its number of lines, base line included. */
  lemma IntervalCosts(spans: seq<Span>, positions: seq<int>, i: nat)
    requires i < |positions|
    ensures Work(spans, positions, 0) == 0
    ensures Work(spans, positions, i + 1) - Work(spans, positions, i) ==
      (1 + |LinesOver(spans, positions[i])|) * (1 + |LinesOver(spans, positions[i])|)
  {
    SameCount(LinesOver(spans, positions[i]), CoverIds(spans, positions[i]));
  }

  /** The sweep counts its lines from 1. */
  lemma {:induction false} SameCount(a: set<int>, b: set<int>)
    requires (forall k :: k in a ==> k + 1 in b) && forall k :: k in b ==> k - 1 in a
    ensures |a| == |b|
    decreases a
  {
    if a != {} {
      HasElement(a);
      var k :| k in a;
      assert k + 1 in b;
      SameCount(a - {k}, b - {k + 1});
    } else {
      HasElement(b);
    }
  }

  /** What passes as an envelope: pieces end to end over the whole timeline, every gain between the full attenuation and nothing. */
  lemma EnvelopeMeans(env: Envelope)
    ensures var c, ps, n := env.settings, env.pieces, |env.pieces|;
      ValidEnvelope(env) <==>
        && 1 <= env.timelineSamples <= 0x7FFF_FFFF_FFFF_FFFF && 0 <= c.attenuation <= 120000
        && 0 <= c.attackSamples <= 0x7FFF_FFFF_FFFF_FFFF && 0 <= c.releaseSamples <= 0x7FFF_FFFF_FFFF_FFFF
        && n > 0 && ps[0].startSample == 0 && ps[n - 1].endSample == env.timelineSamples
        && (forall i :: 0 <= i < n ==> ps[i].startSample < ps[i].endSample)
        && (forall i :: 0 < i < n ==> ps[i].startSample == ps[i - 1].endSample)
        && (forall i :: 0 <= i < n ==> 0.0 <= -ps[i].startGain <= c.attenuation as real && 0.0 <= -ps[i].endGain <= c.attenuation as real)
  {
  }

  /** Between its ends a piece's gain changes in equal steps. */
  lemma PieceSteps(p: Piece, s: int)
    requires p.startSample < p.endSample
    ensures (PieceGain(p, s) - p.startGain) * (p.endSample - p.startSample) as real == (p.endGain - p.startGain) * (s - p.startSample) as real
  {
    var n, t, k := (p.endSample - p.startSample) as real, (s - p.startSample) as real, p.endGain - p.startGain;
    Quotient(t, n);
    Associate(k, t / n, n);
  }

  /** What an envelope says at a sample is what the piece with that sample says. */
  lemma {:induction false} GainOfPiece(pieces: seq<Piece>, i: nat, s: int)
    requires forall j :: 0 <= j < |pieces| ==> pieces[j].startSample < pieces[j].endSample
    requires forall j :: 0 < j < |pieces| ==> pieces[j].startSample == pieces[j - 1].endSample
    requires i < |pieces| && pieces[i].startSample <= s < pieces[i].endSample
    ensures EnvelopeGain(pieces, s) == PieceGain(pieces[i], s)
    decreases i
  {
    if i > 0 {
      EndsRise(pieces, i);
      GainOfPiece(pieces[1..], i - 1, s);
    }
  }

  lemma {:induction false} EndsRise(pieces: seq<Piece>, i: nat)
    requires 0 < i < |pieces| && forall j :: 0 <= j < |pieces| ==> pieces[j].startSample < pieces[j].endSample
    requires forall j :: 0 < j < |pieces| ==> pieces[j].startSample == pieces[j - 1].endSample
    ensures pieces[0].endSample <= pieces[i].startSample
  {
    if i > 1 {
      EndsRise(pieces, i - 1);
    }
  }
}
