/** Exactly which gains the envelope and the limiter apply: ramps of the asked
    length, no more attenuation than the peak needs, and its release. */
module ExactGains {
  import opened AudioModels
  import opened Dynamics

  // ---- the envelope ----

  /** After a new target each of the next frames gets its share of the way, all
      of it from the last frame of the duration on; a target that is close to
      the old one changes nothing. */
  lemma GainsAfterSetTarget(e: Envelope, target: real, duration: nat, j: nat)
    requires j > 0
    ensures
      var gain := GainAt(Retarget(e, target, duration, CLOSE), j);
      if -CLOSE <= target - e.target <= CLOSE then gain == GainAt(e, j)
      else if j >= duration then gain == target
      else gain == e.current + (target - e.current) * (j as real / duration as real)
  {
  }

  // ---- the peak ----

  predicate Loudest(samples: seq<Frame>, peak: real) {
    && (forall i | 0 <= i < |samples| :: Abs(samples[i].left) <= peak && Abs(samples[i].right) <= peak)
    && exists i | 0 <= i < |samples| :: Abs(samples[i].left) == peak || Abs(samples[i].right) == peak
  }

  /** The peak of a block is the size of its loudest sample. */
  lemma {:induction false} PeakIsLoudest(samples: seq<Frame>)
    requires samples != []
    ensures Loudest(samples, Peak(samples))
  {
    PeakBounds(samples);
    var first := RealMax(Abs(samples[0].left), Abs(samples[0].right));
    if |samples| > 1 && Peak(samples) != first {
      var rest := samples[1..];
      PeakIsLoudest(rest);
      var i :| 0 <= i < |rest| && (Abs(rest[i].left) == Peak(rest) || Abs(rest[i].right) == Peak(rest));
      assert samples[i + 1] == rest[i];
    } else {
      assert Abs(samples[0].left) == Peak(samples) || Abs(samples[0].right) == Peak(samples);
    }
  }

  // ---- the limiter ----

  /** A gain the limiter may reach after a block: none above one, none that lifts
      the peak over the threshold, and none that gives back more than the release. */
  predicate Allowed(threshold: real, gain: real, release: real, peak: real, next: real) {
    next <= 1.0 && peak * next <= threshold && next <= FullRelease(gain, release)
  }

  lemma AllowedBelowRequired(threshold: real, peak: real, next: real)
    requires 0.0 < threshold && 0.0 <= peak
    ensures next <= 1.0 && peak * next <= threshold <==> next <= RequiredGain(threshold, peak)
  {
    if peak != 0.0 {
      var quotient := threshold / peak;
      Undone(threshold, peak);
      if next <= quotient {
        Monotone(next, quotient, peak);
      } else {
        NonNegative(next - quotient, peak);
        assert (next - quotient) * peak == next * peak - quotient * peak;
        if next * peak == threshold {
          Quotient(threshold, peak, next);
        }
      }
    }
  }

  function Times(a: real, b: real): real { a * b }

  /** The gain after a full release: its factor is what remains of the attenuation. */
  function FullRelease(gain: real, release: real): real {
    1.0 - Times(1.0 - gain, release)
  }

  lemma PartOf(whole: real, share: real)
    requires 0.0 <= whole && 0.0 < share < 1.0
    ensures 0.0 <= Times(whole, share) <= whole
    ensures whole > 0.0 ==> Times(whole, share) < whole
  {
    NonNegative(whole, share);
    NonNegative(whole, 1.0 - share);
    assert whole * (1.0 - share) == whole - whole * share;
    if whole > 0.0 {
      NegativeProduct(share - 1.0, whole);
      assert (share - 1.0) * whole == whole * share - whole;
    }
  }

  lemma StillBelow(gain: real, release: real)
    requires 0.0 < gain <= 1.0 && 0.0 < release < 1.0
    ensures gain <= FullRelease(gain, release) <= 1.0
    ensures gain < 1.0 ==> gain < FullRelease(gain, release)
  {
    PartOf(1.0 - gain, release);
    hide Times;
  }

  /** Attack or release, the next gain is the smaller of what the peak allows and the full release. */
  lemma NextIsSmaller(gain: real, required: real, release: real)
    requires 0.0 < gain <= 1.0 && 0.0 < release < 1.0
    ensures NextGain(gain, required, release) == RealMin(required, FullRelease(gain, release))
  {
    StillBelow(gain, release);
  }

  /** The gain after a block is the largest that is allowed: the attack takes no
      more than the peak needs, and the release gives back all it can. */
  lemma NextIsLargestAllowed(threshold: real, gain: real, release: real, peak: real, other: real)
    requires 0.0 < threshold <= 1.0 && 0.0 < gain <= 1.0 && 0.0 < release < 1.0 && 0.0 <= peak
    ensures Allowed(threshold, gain, release, peak, other) <==>
              other <= NextGain(gain, RequiredGain(threshold, peak), release)
  {
    AllowedBelowRequired(threshold, peak, other);
    NextIsSmaller(gain, RequiredGain(threshold, peak), release);
    hide RequiredGain, NextGain;
    assert Allowed(threshold, gain, release, peak, other) <==>
        other <= RequiredGain(threshold, peak) && other <= FullRelease(gain, release);
    hide FullRelease;
  }

  /** When the peak leaves room the gain never falls, and it rises unless it is
      one already or the peak just fits. */
  lemma ReleaseRises(threshold: real, gain: real, release: real, peak: real)
    requires 0.0 < threshold <= 1.0 && 0.0 < gain <= 1.0 && 0.0 < release < 1.0 && 0.0 <= peak
    requires peak * gain <= threshold
    ensures
      var next := NextGain(gain, RequiredGain(threshold, peak), release);
      && gain <= next && (gain < 1.0 && peak * gain < threshold ==> gain < next)
  {
    AllowedBelowRequired(threshold, peak, gain);
    RequiredReached(threshold, peak);
    StillBelow(gain, release);
    NextIsSmaller(gain, RequiredGain(threshold, peak), release);
    hide RequiredGain, NextGain, FullRelease;
  }

  lemma RequiredReached(threshold: real, peak: real)
    requires 0.0 < threshold && 0.0 <= peak
    ensures RequiredGain(threshold, peak) < 1.0 ==> peak * RequiredGain(threshold, peak) == threshold
  {
    if peak != 0.0 {
      Undone(threshold, peak);
    }
  }

  lemma {:induction false} RoomIsNotRequired(threshold: real, gain: real, samples: seq<Frame>)
    requires 0.0 < threshold && gain <= 1.0 && Times(Peak(samples), gain) <= threshold
    ensures gain <= RequiredGain(threshold, Peak(samples)) && 0.0 <= Peak(samples)
  {
    PeakBounds(samples);
    hide Peak, RequiredGain;
    AllowedBelowRequired(threshold, Peak(samples), gain);
  }

  /** The k-th of so many gains in equal steps from the first to the last; one frame has the first. */
  function OnLine(first: real, last: real, frames: nat, k: nat): real
    requires k < frames
  {
    if frames == 1 then first else first + (last - first) * (k as real / (frames - 1) as real)
  }

  /** Within a released block the gain goes in equal steps from the old to the new one. */
  lemma {:induction false} ReleaseIsLinear(threshold: real, gain: real, release: real, samples: seq<Frame>, k: nat)
    requires 0.0 < threshold <= 1.0 && 0.0 < gain <= 1.0 && 0.0 < release < 1.0 && k < |samples|
    requires Times(Peak(samples), gain) <= threshold
    ensures
      var next := NextGain(gain, RequiredGain(threshold, Peak(samples)), release);
      Limited(threshold, gain, release, samples)[k] == Scale(samples[k], OnLine(gain, next, |samples|, k))
  {
    hide *;
    RoomIsNotRequired(threshold, gain, samples);
    LimitedAt(threshold, gain, release, samples, k);
    ReleasedLine(gain, RequiredGain(threshold, Peak(samples)), release, |samples|, k);
  }

  lemma ReleasedLine(gain: real, required: real, release: real, frames: nat, k: nat)
    requires gain <= required && k < frames
    ensures FrameGain(gain, required, release, frames, k)
         == OnLine(gain, NextGain(gain, required, release), frames, k)
  {
  }

  /** Limited samples below full scale pass the final clip as they are. */
  lemma ClipChangesNothing(threshold: real, gain: real, release: real, samples: seq<Frame>, k: nat)
    requires 0.0 < threshold <= TOP && 0.0 < gain <= 1.0 && 0.0 < release < 1.0 && k < |samples|
    ensures ClipAll(Limited(threshold, gain, release, samples))[k] == Limited(threshold, gain, release, samples)[k]
  {
    LimiterBounds(threshold, gain, release, samples);
    hide Limited;
  }

  // ---- release over many blocks ----

  function ReleaseProduct(chunks: seq<Chunk>): real {
    if chunks == [] then 1.0
    else Times(ReleaseProduct(chunks[..|chunks| - 1]), FactorOf(chunks[|chunks| - 1]))
  }

  /** The peak of the block, if it is one, is not what bounds the gain. */
  predicate LeavesRoom(threshold: real, gain: real, chunk: Chunk) {
    && (chunk.Block? ==> 0.0 < chunk.release < 1.0)
    && (chunk.Block? ==> Times(Peak(chunk.samples), FullRelease(gain, chunk.release)) <= threshold)
  }

  ghost predicate PeaksLeaveRoom(threshold: real, gain: real, chunks: seq<Chunk>) {
    forall i | 0 <= i < |chunks| :: LeavesRoom(threshold, GainOver(threshold, gain, chunks[..i]), chunks[i])
  }

  lemma ReleasedInFull(threshold: real, gain: real, release: real, peak: real)
    requires 0.0 < threshold <= 1.0 && 0.0 < gain <= 1.0 && 0.0 < release < 1.0 && 0.0 <= peak
    requires Times(peak, FullRelease(gain, release)) <= threshold
    ensures NextGain(gain, RequiredGain(threshold, peak), release) == FullRelease(gain, release)
  {
    var full := FullRelease(gain, release);
    StillBelow(gain, release);
    NextIsSmaller(gain, RequiredGain(threshold, peak), release);
    AllowedBelowRequired(threshold, peak, full);
    hide NextGain, RequiredGain;
  }

  /** What is missing to one shrank by this factor. */
  predicate Shrank(before: real, after: real, factor: real) {
    1.0 - after == Times(1.0 - before, factor)
  }

  lemma ShrankTwice(before: real, middle: real, after: real, first: real, second: real)
    requires Shrank(before, middle, first) && Shrank(middle, after, second)
    ensures Shrank(before, after, Times(first, second))
  {
  }

  function FactorOf(chunk: Chunk): real {
    if chunk.Block? then chunk.release else 0.0
  }

  /** A reset gives everything back. */
  lemma ResetShrinksAll(gain: real)
    ensures Shrank(gain, 1.0, 0.0)
  {
  }

  lemma FullyShrinks(gain: real, release: real)
    ensures Shrank(gain, FullRelease(gain, release), release)
  {
  }

  lemma DecayOver(threshold: real, gain: real, chunk: Chunk)
    requires 0.0 < threshold <= 1.0 && 0.0 < gain <= 1.0 && LeavesRoom(threshold, gain, chunk)
    ensures
      var next := GainAfter(threshold, gain, chunk);
      0.0 < next <= 1.0 && Shrank(gain, next, FactorOf(chunk))
  {
    if chunk.ResetDynamics? {
      ResetShrinksAll(gain);
    } else {
      hide Peak, FullRelease, NextGain, RequiredGain, Shrank, Times;
      StillBelow(gain, chunk.release);
      RoomIsNotRequired(threshold, FullRelease(gain, chunk.release), chunk.samples);
      ReleasedInFull(threshold, gain, chunk.release, Peak(chunk.samples));
      FullyShrinks(gain, chunk.release);
    }
  }

  lemma NothingShrinks(gain: real)
    ensures Shrank(gain, gain, 1.0)
  {
  }

  /** Over any blocks that leave room the attenuation shrinks by exactly the
      product of their release factors; a reset ends it. */
  lemma {:induction false} AttenuationDecays(threshold: real, gain: real, chunks: seq<Chunk>)
    requires 0.0 < threshold <= 1.0 && 0.0 < gain <= 1.0 && PeaksLeaveRoom(threshold, gain, chunks)
    ensures 0.0 < GainOver(threshold, gain, chunks) <= 1.0
    ensures Shrank(gain, GainOver(threshold, gain, chunks), ReleaseProduct(chunks))
    decreases |chunks|
  {
    hide GainAfter, FactorOf, Shrank, LeavesRoom, Times;
    if chunks == [] {
      NothingShrinks(gain);
    } else {
      var n := |chunks| - 1;
      var before := GainOver(threshold, gain, chunks[..n]);
      assert forall i | 0 <= i < n :: chunks[..n][..i] == chunks[..i];
      AttenuationDecays(threshold, gain, chunks[..n]);
      DecayOver(threshold, before, chunks[n]);
      ShrankTwice(gain, before, GainAfter(threshold, before, chunks[n]), ReleaseProduct(chunks[..n]),
                  FactorOf(chunks[n]));
    }
  }
}
