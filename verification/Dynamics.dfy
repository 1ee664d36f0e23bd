/** The gain envelope and the block peak limiter in exact real arithmetic. */
module Dynamics {
  import opened Common
  import opened AudioModels

  function Scale(frame: Frame, gain: real): Frame {
    Frame(frame.left * gain, frame.right * gain)
  }

  /** numpy's linspace from a to b over steps equal steps. */
  function Linspace(a: real, b: real, steps: nat, k: nat): real
    requires steps > 0
  {
    a + (b - a) * (k as real / steps as real)
  }

  // ---- real arithmetic ----

  lemma NonNegative(x: real, y: real)
    requires x >= 0.0 && y >= 0.0
    ensures x * y >= 0.0
  {
  }

  lemma Monotone(a: real, b: real, factor: real)
    requires a <= b && 0.0 <= factor
    ensures a * factor <= b * factor
  {
    NonNegative(b - a, factor);
    assert (b - a) * factor == b * factor - a * factor;
  }

  lemma Undone(x: real, y: real)
    requires y != 0.0
    ensures x * y / y == x && y * (x / y) == x
  {
  }

  lemma Quotient(x: real, y: real, q: real)
    requires y != 0.0 && q * y == x
    ensures x / y == q
  {
    Undone(q, y);
  }

  /** A share of a span lies within the span, and a larger share is farther along. */
  lemma Share(span: real, part: real, more: real)
    requires span >= 0.0 && 0.0 <= part <= more <= 1.0
    ensures 0.0 <= span * part <= span * more <= span
  {
    NonNegative(span, part);
    Monotone(part, more, span);
    Monotone(more, 1.0, span);
  }

  lemma NegativeProduct(x: real, y: real)
    requires y > 0.0
    ensures x < 0.0 ==> x * y < 0.0
  {
  }

  lemma PositiveQuotient(x: real, y: real)
    requires x >= 0.0 && y > 0.0
    ensures x / y >= 0.0
  {
    Undone(x, y);
    NegativeProduct(x / y, y);
  }

  lemma Fractions(part: real, more: real, whole: real)
    requires 0.0 <= part <= more <= whole && 0.0 < whole
    ensures 0.0 <= part / whole <= more / whole <= 1.0
  {
    var p, m := part / whole, more / whole;
    Undone(part, whole);
    Undone(more, whole);
    PositiveQuotient(part, whole);
    Quotient(more - part, whole, m - p) by {
      assert (m - p) * whole == m * whole - p * whole;
    }
    PositiveQuotient(more - part, whole);
    Quotient(whole - more, whole, 1.0 - m) by {
      assert (1.0 - m) * whole == whole - m * whole;
    }
    PositiveQuotient(whole - more, whole);
  }

  // ---- gain envelope ----

  datatype Envelope = Envelope(current: real, target: real, remaining: nat)

  /** The gain of the j-th frame from now, counted from one. */
  function GainAt(e: Envelope, j: nat): real {
    if j >= e.remaining then (if j == 0 then e.current else e.target)
    else Linspace(e.current, e.target, e.remaining, j)
  }

  /** The envelope after n frames. */
  function Advance(e: Envelope, n: nat): Envelope {
    if n == 0 then e else Envelope(GainAt(e, n), e.target, Max(0, e.remaining - n))
  }

  function Shape(e: Envelope, samples: seq<Frame>): (shaped: seq<Frame>)
    ensures |shaped| == |samples|
  {
    seq(|samples|, i requires 0 <= i < |samples| => Scale(samples[i], GainAt(e, i + 1)))
  }

  function Retarget(e: Envelope, target: real, duration: nat, tolerance: real): Envelope {
    if -tolerance <= target - e.target <= tolerance then e
    else if duration == 0 then Envelope(target, target, 0)
    else Envelope(e.current, target, duration)
  }

  const CLOSE: real := 0.000000000001

  class GainEnvelope {
    const sampleRate: nat
    var currentGain: real
    var targetGain: real
    var remainingFrames: nat

    ghost function Value(): Envelope
      reads this
    {
      Envelope(currentGain, targetGain, remainingFrames)
    }

    constructor (initial: real, sampleRate: nat)
      ensures Value() == Envelope(initial, initial, 0) && this.sampleRate == sampleRate
    {
      this.sampleRate := sampleRate;
      currentGain, targetGain, remainingFrames := initial, initial, 0;
    }

    /** None stands for the error on a negative duration. */
    method SetTarget(target: real, durationMs: int) returns (changed: Option<bool>)
      modifies this
      ensures changed.None? <==> durationMs < 0
      ensures changed.None? ==> Value() == old(Value())
      ensures changed.Some? ==> Value() == Retarget(old(Value()), target, sampleRate * durationMs / 1000, CLOSE)
      ensures changed.Some? ==> changed.value == !(-CLOSE <= target - old(targetGain) <= CLOSE)
    {
      if durationMs < 0 {
        return None;
      }
      if -CLOSE <= target - targetGain <= CLOSE {
        return Some(false);
      }
      targetGain := target;
      remainingFrames := sampleRate * durationMs / 1000;
      if remainingFrames == 0 {
        currentGain := target;
      }
      changed := Some(true);
    }

    /** Shape one block. */
    method Process(samples: seq<Frame>) returns (shaped: seq<Frame>)
      modifies this
      ensures shaped == Shape(old(Value()), samples)
      ensures Value() == Advance(old(Value()), |samples|)
    {
      var frames, current, target, remaining := |samples|, currentGain, targetGain, remainingFrames;
      if frames == 0 {
        return [];
      }
      var gains: seq<real> := [];
      var rampFrames := Min(frames, remaining);
      if rampFrames > 0 {
        gains := seq(rampFrames, i requires 0 <= i < rampFrames <= remaining =>
                     Linspace(current, target, remaining, i + 1));
        currentGain := gains[rampFrames - 1];
        remainingFrames := remaining - rampFrames;
      }
      if rampFrames < frames {
        gains := gains + seq(frames - rampFrames, _ => target);
        currentGain := target;
        remainingFrames := 0;
      }
      GainsOfBlock(old(Value()), frames, gains);
      shaped := seq(frames, i requires 0 <= i < frames => Scale(samples[i], gains[i]));
    }
  }

  /** A line over the ramp and the target after it are the gains ahead. */
  lemma GainsOfBlock(e: Envelope, frames: nat, gains: seq<real>)
    requires |gains| == frames
    requires forall i | 0 <= i < Min(frames, e.remaining) ::
             gains[i] == Linspace(e.current, e.target, e.remaining, i + 1)
    requires forall i | Min(frames, e.remaining) <= i < frames :: gains[i] == e.target
    ensures forall i | 0 <= i < frames :: gains[i] == GainAt(e, i + 1)
  {
    if 0 < e.remaining <= frames {
      LineEnds(e.current, e.target, e.remaining);
    }
  }

  lemma LineEnds(a: real, b: real, steps: nat)
    requires steps > 0
    ensures Linspace(a, b, steps, steps) == b
  {
    Quotient(steps as real, steps as real, 1.0);
  }

  /** A settled envelope holds its target: kept by every operation from the start. */
  predicate Settled(e: Envelope) {
    e.remaining == 0 ==> e.current == e.target
  }

  /** Part of a straight line is the same straight line. */
  lemma RestOfRamp(current: real, target: real, n: real, j: real, all: real)
    requires 0.0 < n < all
    ensures
      var midway := current + (target - current) * (n / all);
      midway + (target - midway) * (j / (all - n)) == current + (target - current) * ((n + j) / all)
  {
    var span, left := target - current, all - n;
    var unit := span / all;
    Undone(span, all);
    assert span * (n / all) == unit * n && span * ((n + j) / all) == unit * (n + j);
    var midway := current + span * (n / all);
    assert target - midway == unit * left;
    assert unit * left * (j / left) == unit * j by {
      Undone(j, left);
    }
  }

  /** Looking n frames ahead and then j more is looking n + j ahead. */
  lemma GainAfterAdvance(e: Envelope, n: nat, j: nat)
    requires Settled(e) && j > 0
    ensures GainAt(Advance(e, n), j) == GainAt(e, n + j)
  {
    if 0 < n < e.remaining {
      var r := (e.remaining - n) as real;
      assert r == e.remaining as real - n as real;
      if j < e.remaining - n {
        RestOfRamp(e.current, e.target, n as real, j as real, e.remaining as real);
        assert (n + j) as real == n as real + j as real;
      }
    }
  }

  lemma AdvanceTwice(e: Envelope, n: nat, m: nat)
    requires Settled(e)
    ensures Advance(Advance(e, n), m) == Advance(e, n + m)
  {
    if n > 0 && m > 0 {
      GainAfterAdvance(e, n, m);
    }
  }

  /** Two blocks are shaped like the one block they make together. */
  lemma ShapeSplit(e: Envelope, a: seq<Frame>, b: seq<Frame>)
    requires Settled(e)
    ensures Shape(e, a + b) == Shape(e, a) + Shape(Advance(e, |a|), b)
  {
    var whole, parts := Shape(e, a + b), Shape(e, a) + Shape(Advance(e, |a|), b);
    forall i | 0 <= i < |whole| ensures whole[i] == parts[i] {
      if i >= |a| {
        GainAfterAdvance(e, |a|, i - |a| + 1);
      }
    }
  }

  datatype Shaped = Shaped(state: Envelope, output: seq<Frame>)

  function ShapeBlocks(e: Envelope, blocks: seq<seq<Frame>>): Shaped
    decreases |blocks|
  {
    if blocks == [] then Shaped(e, [])
    else
      var later := ShapeBlocks(Advance(e, |blocks[0]|), blocks[1..]);
      Shaped(later.state, Shape(e, blocks[0]) + later.output)
  }

  /** However the samples are cut into blocks, the gains and the end state are
      those of one block. */
  lemma {:induction false} BlockCutsDoNotMatter(e: Envelope, blocks: seq<seq<Frame>>)
    requires Settled(e)
    ensures ShapeBlocks(e, blocks).output == Shape(e, Flatten(blocks))
    ensures ShapeBlocks(e, blocks).state == Advance(e, |Flatten(blocks)|)
    decreases |blocks|
  {
    if blocks != [] {
      var next, later := Advance(e, |blocks[0]|), Flatten(blocks[1..]);
      BlockCutsDoNotMatter(next, blocks[1..]);
      ShapeSplit(e, blocks[0], later);
      AdvanceTwice(e, |blocks[0]|, |later|);
    }
  }

  /** A new target and the blocks shaped until the next one. */
  datatype Segment = Segment(target: real, duration: nat, blocks: seq<seq<Frame>>)

  function ShapeSegments(e: Envelope, segments: seq<Segment>): Shaped
    decreases |segments|
  {
    if segments == [] then Shaped(e, [])
    else
      var first := ShapeBlocks(Retarget(e, segments[0].target, segments[0].duration, CLOSE), segments[0].blocks);
      var later := ShapeSegments(first.state, segments[1..]);
      Shaped(later.state, first.output + later.output)
  }

  /** Over any sequence of target changes, only the frames between two changes
      matter, never how they were cut into blocks. */
  lemma {:induction false} CutsNeverMatter(e: Envelope, a: seq<Segment>, b: seq<Segment>)
    requires Settled(e) && |a| == |b|
    requires forall i | 0 <= i < |a| ::
      a[i].target == b[i].target && a[i].duration == b[i].duration && Flatten(a[i].blocks) == Flatten(b[i].blocks)
    ensures ShapeSegments(e, a) == ShapeSegments(e, b)
    decreases |a|
  {
    if a != [] {
      var start := Retarget(e, a[0].target, a[0].duration, CLOSE);
      BlockCutsDoNotMatter(start, a[0].blocks);
      BlockCutsDoNotMatter(start, b[0].blocks);
      CutsNeverMatter(Advance(start, |Flatten(a[0].blocks)|), a[1..], b[1..]);
    }
  }

  /** Every gain lies between the current one and the target, later gains are
      never farther from the target, and the ramp ends exactly on it. */
  lemma RampStaysBetween(e: Envelope, j: nat, k: nat)
    requires Settled(e) && j <= k
    ensures e.current <= e.target ==> e.current <= GainAt(e, j) <= GainAt(e, k) <= e.target
    ensures e.target <= e.current ==> e.target <= GainAt(e, k) <= GainAt(e, j) <= e.current
    ensures e.remaining <= k ==> GainAt(e, k) == e.target
  {
    if j < e.remaining {
      if k < e.remaining {
        LineStaysBetween(e.current, e.target, e.remaining, j, k);
      } else {
        LineStaysBetween(e.current, e.target, e.remaining, j, j);
      }
    }
  }

  lemma LineStaysBetween(a: real, b: real, steps: nat, j: nat, k: nat)
    requires j <= k <= steps && steps > 0
    ensures a <= b ==> a <= Linspace(a, b, steps, j) <= Linspace(a, b, steps, k) <= b
    ensures b <= a ==> b <= Linspace(a, b, steps, k) <= Linspace(a, b, steps, j) <= a
  {
    var part, more := j as real / steps as real, k as real / steps as real;
    Fractions(j as real, k as real, steps as real);
    if a <= b {
      Share(b - a, part, more);
    } else {
      Share(a - b, part, more);
      assert (b - a) * part == -((a - b) * part) && (b - a) * more == -((a - b) * more);
    }
    assert Linspace(a, b, steps, j) == a + (b - a) * part && Linspace(a, b, steps, k) == a + (b - a) * more;
  }

  // ---- limiter ----

  /** The largest float32 below one. */
  const TOP: real := 1.0 - 1.0 / 16777216.0

  function Abs(x: real): real {
    if x < 0.0 then -x else x
  }

  function RealMax(a: real, b: real): real {
    if a >= b then a else b
  }

  function RealMin(a: real, b: real): real {
    if a <= b then a else b
  }

  function Peak(samples: seq<Frame>): real {
    if samples == [] then 0.0
    else RealMax(RealMax(Abs(samples[0].left), Abs(samples[0].right)), Peak(samples[1..]))
  }

  predicate Within(frame: Frame, bound: real) {
    Abs(frame.left) <= bound && Abs(frame.right) <= bound
  }

  lemma {:induction false} PeakBounds(samples: seq<Frame>)
    ensures Peak(samples) >= 0.0
    ensures forall i | 0 <= i < |samples| :: Within(samples[i], Peak(samples))
  {
    if samples != [] {
      PeakBounds(samples[1..]);
      assert forall i | 1 <= i < |samples| :: samples[i] == samples[1..][i - 1];
    }
  }

  function RequiredGain(threshold: real, peak: real): real {
    if peak != 0.0 then RealMin(1.0, threshold / peak) else 1.0
  }

  function ReleasedGain(gain: real, required: real, release: real): real {
    RealMin(required, 1.0 - (1.0 - gain) * release)
  }

  /** The gain after a block and the gain of each of its frames. */
  function NextGain(gain: real, required: real, release: real): real {
    if required < gain then required else ReleasedGain(gain, required, release)
  }

  function FrameGain(gain: real, required: real, release: real, frames: nat, k: nat): real {
    if required < gain then required
    else if frames <= 1 then gain
    else Linspace(gain, ReleasedGain(gain, required, release), frames - 1, k)
  }

  function Clip(x: real): real {
    RealMax(-1.0, RealMin(x, TOP))
  }

  function ClipFrame(frame: Frame): Frame {
    Frame(Clip(frame.left), Clip(frame.right))
  }

  function Limited(threshold: real, gain: real, release: real, samples: seq<Frame>): (limited: seq<Frame>)
    ensures |limited| == |samples|
  {
    var required := RequiredGain(threshold, Peak(samples));
    seq(|samples|, k requires 0 <= k < |samples| =>
          Scale(samples[k], FrameGain(gain, required, release, |samples|, k)))
  }

  predicate HardClipped(frame: Frame) {
    frame.left < -1.0 || frame.left > 1.0 || frame.right < -1.0 || frame.right > 1.0
  }

  function ClipAll(frames: seq<Frame>): (clipped: seq<Frame>)
    ensures |clipped| == |frames|
  {
    seq(|frames|, i requires 0 <= i < |frames| => ClipFrame(frames[i]))
  }

  function HardClips(frames: seq<Frame>): nat {
    if frames == [] then 0 else HardClips(frames[..|frames| - 1]) + (if HardClipped(frames[|frames| - 1]) then 1 else 0)
  }

  lemma {:induction false} NoneHardClipped(frames: seq<Frame>)
    requires forall i | 0 <= i < |frames| :: !HardClipped(frames[i])
    ensures HardClips(frames) == 0
  {
    if frames != [] {
      NoneHardClipped(frames[..|frames| - 1]);
    }
  }

  class BlockPeakLimiter {
    const threshold: real
    var gain: real

    constructor (threshold: real)
      ensures this.threshold == threshold && gain == 1.0
    {
      this.threshold, gain := threshold, 1.0;
    }

    method Reset()
      modifies this
      ensures gain == 1.0
    {
      gain := 1.0;
    }

    /** Bound one block; release stands for the exponential factor of its length. */
    method Process(samples: seq<Frame>, release: real) returns (output: seq<Frame>, hardClips: nat)
      requires samples != []
      requires 0.0 < threshold <= 1.0 && 0.0 < gain <= 1.0 && 0.0 < release < 1.0
      modifies this
      ensures 0.0 < gain <= 1.0 && gain == NextGain(old(gain), RequiredGain(threshold, Peak(samples)), release)
      ensures output == ClipAll(Limited(threshold, old(gain), release, samples))
      ensures forall i | 0 <= i < |output| :: Within(output[i], threshold)
      ensures hardClips == 0
    {
      var required := RequiredGain(threshold, Peak(samples));
      LimiterBounds(threshold, gain, release, samples);
      var limited: seq<Frame>;
      if required < gain {
        gain := required;
        limited := seq(|samples|, k requires 0 <= k < |samples| => Scale(samples[k], required));
      } else {
        var start, end := gain, ReleasedGain(gain, required, release);
        limited := seq(|samples|, k requires 0 <= k < |samples| =>
                         Scale(samples[k], if |samples| == 1 then start else Linspace(start, end, |samples| - 1, k)));
        gain := end;
      }
      assert limited == Limited(threshold, old(gain), release, samples);
      hardClips := HardClips(limited);
      NoneHardClipped(limited);
      output := ClipAll(limited);
    }
  }

  /** The gain stays in (0, 1], each frame stays under the threshold, and hard
      clipping has nothing to do. */
  lemma {:induction false} LimiterBounds(threshold: real, gain: real, release: real, samples: seq<Frame>)
    requires 0.0 < threshold <= 1.0 && 0.0 < gain <= 1.0 && 0.0 < release < 1.0
    ensures 0.0 < NextGain(gain, RequiredGain(threshold, Peak(samples)), release) <= 1.0
    ensures forall i | 0 <= i < |samples| ::
      var frame := Limited(threshold, gain, release, samples)[i];
      Within(frame, threshold) && !HardClipped(frame) && Within(ClipFrame(frame), threshold)
  {
    RequiredBound(threshold, Peak(samples));
    GainBounds(gain, RequiredGain(threshold, Peak(samples)), release);
    forall i | 0 <= i < |samples|
      ensures
        var frame := Limited(threshold, gain, release, samples)[i];
        Within(frame, threshold) && !HardClipped(frame) && Within(ClipFrame(frame), threshold)
    {
      LimitedWithin(threshold, gain, release, samples, i);
    }
  }

  lemma LimitedWithin(threshold: real, gain: real, release: real, samples: seq<Frame>, i: nat)
    requires 0.0 < threshold <= 1.0 && 0.0 < gain <= 1.0 && 0.0 < release < 1.0 && i < |samples|
    ensures Within(Limited(threshold, gain, release, samples)[i], threshold)
  {
    hide *;
    var peak := Peak(samples);
    PeakBounds(samples);
    RequiredBound(threshold, peak);
    LimitedAt(threshold, gain, release, samples, i);
    GainsWithin(gain, RequiredGain(threshold, peak), release, |samples|, i, samples[i], peak, threshold);
  }

  lemma GainsWithin(gain: real, required: real, release: real, frames: nat, k: nat, frame: Frame, peak: real,
                    threshold: real)
    requires 0.0 < gain <= 1.0 && 0.0 < required <= 1.0 && 0.0 < release < 1.0 && k < frames
    requires Within(frame, peak) && peak * required <= threshold
    ensures Within(Scale(frame, FrameGain(gain, required, release, frames, k)), threshold)
  {
    hide *;
    FrameGainBounds(gain, required, release, frames, k);
    ScaledFrame(frame, peak, FrameGain(gain, required, release, frames, k), required, threshold);
  }

  lemma {:induction false} LimitedAt(threshold: real, gain: real, release: real, samples: seq<Frame>, i: nat)
    requires i < |samples|
    ensures Limited(threshold, gain, release, samples)[i]
         == Scale(samples[i], FrameGain(gain, RequiredGain(threshold, Peak(samples)), release, |samples|, i))
  {
  }

  lemma ScaledFrame(frame: Frame, peak: real, gain: real, required: real, threshold: real)
    requires Within(frame, peak) && 0.0 < gain <= required && peak * required <= threshold
    ensures Within(Scale(frame, gain), threshold)
  {
    ScaledWithin(frame.left, peak, gain, required, threshold);
    ScaledWithin(frame.right, peak, gain, required, threshold);
  }

  lemma RequiredBound(threshold: real, peak: real)
    requires 0.0 < threshold <= 1.0 && 0.0 <= peak
    ensures 0.0 < RequiredGain(threshold, peak) <= 1.0
    ensures peak * RequiredGain(threshold, peak) <= threshold
  {
    if peak != 0.0 {
      var quotient := threshold / peak;
      Undone(threshold, peak);
      if 1.0 < quotient {
        Monotone(1.0, quotient, peak);
      }
    }
  }

  lemma GainBounds(gain: real, required: real, release: real)
    requires 0.0 < gain <= 1.0 && 0.0 < required <= 1.0 && 0.0 < release < 1.0
    ensures 0.0 < NextGain(gain, required, release) <= required
    ensures required >= gain ==> gain <= ReleasedGain(gain, required, release)
  {
    Monotone(release, 1.0, 1.0 - gain);
    Monotone(0.0, release, 1.0 - gain);
  }

  lemma FrameGainBounds(gain: real, required: real, release: real, frames: nat, k: nat)
    requires 0.0 < gain <= 1.0 && 0.0 < required <= 1.0 && 0.0 < release < 1.0 && k < frames
    ensures 0.0 < FrameGain(gain, required, release, frames, k) <= required
  {
    GainBounds(gain, required, release);
    if required >= gain && frames > 1 {
      LineStaysBetween(gain, ReleasedGain(gain, required, release), frames - 1, k, k);
    }
  }

  lemma ScaledWithin(x: real, peak: real, gain: real, required: real, threshold: real)
    requires Abs(x) <= peak && 0.0 < gain <= required && peak * required <= threshold
    ensures Abs(x * gain) <= threshold
  {
    Monotone(Abs(x), peak, gain);
    Monotone(gain, required, peak);
  }

  // ---- limiter runs ----

  datatype Chunk = Block(samples: seq<Frame>, release: real) | ResetDynamics

  function GainAfter(threshold: real, gain: real, chunk: Chunk): real {
    match chunk
    case Block(samples, release) => NextGain(gain, RequiredGain(threshold, Peak(samples)), release)
    case ResetDynamics => 1.0
  }

  function GainOver(threshold: real, gain: real, chunks: seq<Chunk>): real {
    if chunks == [] then gain
      else GainAfter(threshold, GainOver(threshold, gain, chunks[..|chunks| - 1]), chunks[|chunks| - 1])
  }

  /** Over every sequence of blocks and resets the gain stays in (0, 1] and each
      frame of each block leaves at or under the threshold, never clipped. */
  lemma {:induction false} LimiterNeverClips(threshold: real, chunks: seq<Chunk>, samples: seq<Frame>, release: real)
    requires 0.0 < threshold <= 1.0 && 0.0 < release < 1.0
    requires forall i | 0 <= i < |chunks| && chunks[i].Block? :: 0.0 < chunks[i].release < 1.0
    ensures 0.0 < GainOver(threshold, 1.0, chunks) <= 1.0
    ensures forall i | 0 <= i < |samples| ::
      var frame := Limited(threshold, GainOver(threshold, 1.0, chunks), release, samples)[i];
      Within(frame, threshold) && !HardClipped(frame) && Within(ClipFrame(frame), threshold)
    decreases |chunks|
  {
    if chunks != [] {
      var last := chunks[|chunks| - 1];
      LimiterNeverClips(threshold, chunks[..|chunks| - 1], [], release);
      if last.Block? {
        LimiterBounds(threshold, GainOver(threshold, 1.0, chunks[..|chunks| - 1]), last.release, last.samples);
      }
    }
    LimiterBounds(threshold, GainOver(threshold, 1.0, chunks), release, samples);
  }

  /** When the peak forces the gain down, the loudest sample lands exactly on the threshold. */
  lemma {:induction false} AttackIsExact(threshold: real, gain: real, release: real, samples: seq<Frame>, k: nat)
    requires 0.0 < threshold && k < |samples| && RequiredGain(threshold, Peak(samples)) < gain <= 1.0
    requires Abs(samples[k].left) == Peak(samples)
    ensures Abs(Limited(threshold, gain, release, samples)[k].left) == threshold
  {
    hide *;
    var required := RequiredGain(threshold, Peak(samples));
    LimitedAt(threshold, gain, release, samples, k);
    AttackGain(gain, required, release, |samples|, k, samples[k]);
    assert Limited(threshold, gain, release, samples)[k].left == samples[k].left * required;
    ExactlyScaled(threshold, samples[k].left, Limited(threshold, gain, release, samples)[k].left, Peak(samples), gain,
                  required);
  }

  lemma AttackGain(gain: real, required: real, release: real, frames: nat, k: nat, frame: Frame)
    requires required < gain
    ensures Scale(frame, FrameGain(gain, required, release, frames, k)).left == frame.left * required
  {
  }

  lemma ExactlyScaled(threshold: real, x: real, y: real, peak: real, gain: real, required: real)
    requires 0.0 < threshold && peak == Abs(x) && required == RequiredGain(threshold, peak) && required < gain <= 1.0
    requires y == x * required
    ensures Abs(y) == threshold
  {
    Undone(threshold, peak);
    assert threshold / peak > 0.0;
  }
}
