/** Values of the shared PCM path: stereo frames, canonical 20 ms blocks, and
    source slices aligned within one master segment. */
module AudioModels {
  import opened Common

  const AUDIO_SAMPLE_RATE: nat := 48_000
  /** 48 000 frames per second for 20 ms. */
  const AUDIO_BLOCK_FRAMES: nat := 960

  datatype Frame = Frame(left: real, right: real)

  const SILENCE: Frame := Frame(0.0, 0.0)

  datatype SourceKind = Music | Voice

  /** Stable identity of exactly one source generation. */
  datatype SourceKey = SourceKey(sourceId: nat, kind: SourceKind, generation: nat)

  /** One frame of a source together with its source-local number. */
  datatype Numbered = Numbered(number: nat, frame: Frame)

  function NumberFrom(start: nat, samples: seq<Frame>): (stream: seq<Numbered>)
    ensures |stream| == |samples|
  {
    seq(|samples|, i requires 0 <= i < |samples| => Numbered(start + i, samples[i]))
  }

  /** The stream carries frames first, first + 1, first + 2, ... */
  ghost predicate ConsecutiveFrom(stream: seq<Numbered>, first: nat) {
    forall i | 0 <= i < |stream| :: stream[i].number == first + i
  }

  function Silent(count: nat): (s: seq<Frame>)
    ensures |s| == count
  {
    seq(count, _ => SILENCE)
  }

  /** One canonical source block with an optional silent tail. */
  datatype AudioBlock = AudioBlock(key: SourceKey, startFrame: nat, validFrames: nat, samples: seq<Frame>) {
    ghost predicate Valid() {
      && 1 <= validFrames <= AUDIO_BLOCK_FRAMES
      && |samples| == AUDIO_BLOCK_FRAMES
      && (forall i | validFrames <= i < AUDIO_BLOCK_FRAMES :: samples[i] == SILENCE)
    }

    function EndFrame(): nat { startFrame + validFrames }

    function AsSlice(): SourceSlice
      requires validFrames <= |samples|
    {
      SourceSlice(key, startFrame, 0, samples[..validFrames])
    }

    function Stream(): seq<Numbered>
      requires validFrames <= |samples|
    {
      NumberFrom(startFrame, samples[..validFrames])
    }
  }

  /** A source range aligned within one master segment. */
  datatype SourceSlice = SourceSlice(key: SourceKey, startFrame: nat, masterOffset: nat, samples: seq<Frame>) {
    function FrameCount(): nat { |samples| }

    function EndFrame(): nat { startFrame + |samples| }

    function MasterEndOffset(): nat { masterOffset + |samples| }

    function Stream(): seq<Numbered> { NumberFrom(startFrame, samples) }

    /** Remove master frames before one segment-local offset. */
    function TrimMasterPrefix(prefix: nat): Option<SourceSlice> {
      var consumed := Max(0, prefix - masterOffset);
      if consumed >= |samples| then None
      else Some(SourceSlice(key, startFrame + consumed, Max(0, masterOffset - prefix), samples[consumed..]))
    }

    /** How many of this slice's frames lie before a master cursor, when the
        slice sits in a segment that starts at segmentStart. */
    function RenderedBefore(segmentStart: nat, cursor: nat): (count: nat)
      ensures count <= |samples|
    {
      Min(|samples|, Max(0, cursor - (segmentStart + masterOffset)))
    }
  }

  function Trimmed(slice: Option<SourceSlice>): seq<Numbered> {
    match slice
    case None => []
    case Some(kept) => kept.Stream()
  }

  /** The count used to advance source cursors and the trim used by a remix cut
      the slice at the same frame: nothing is lost and nothing is kept twice. */
  lemma TrimCutsWhereCursorStopped(slice: SourceSlice, segmentStart: nat, cursor: nat)
    requires |slice.samples| > 0
    ensures
      var prefix := Max(0, cursor - segmentStart);
      var counted := slice.RenderedBefore(segmentStart, cursor);
      var kept := slice.TrimMasterPrefix(prefix);
      && slice.Stream()[..counted] + Trimmed(kept) == slice.Stream()
      && (kept.None? <==> counted == slice.FrameCount())
      && (kept.Some? ==>
            && kept.value.key == slice.key
            && kept.value.startFrame == slice.startFrame + counted
            && kept.value.FrameCount() > 0
            && kept.value.MasterEndOffset() == slice.MasterEndOffset() - prefix)
  {
    var prefix := Max(0, cursor - segmentStart);
    var counted := slice.RenderedBefore(segmentStart, cursor);
    var kept := slice.TrimMasterPrefix(prefix);
    if kept.Some? {
      assert kept.value.samples == slice.samples[counted..];
      assert slice.Stream()[counted..] == kept.value.Stream();
    }
  }

  lemma NumberFromSplit(start: nat, samples: seq<Frame>, at: nat)
    requires at <= |samples|
    ensures NumberFrom(start, samples)[..at] == NumberFrom(start, samples[..at])
    ensures NumberFrom(start, samples)[at..] == NumberFrom(start + at, samples[at..])
  {
  }

  lemma NumberFromAppend(start: nat, a: seq<Frame>, b: seq<Frame>)
    ensures NumberFrom(start, a + b) == NumberFrom(start, a) + NumberFrom(start + |a|, b)
  {
  }
}
