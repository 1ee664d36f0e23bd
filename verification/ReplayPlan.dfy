/** From the survivors of a flush to the pairs of blocks that are written again. */
module ReplayPlan {
  import opened Common
  import opened AudioModels
  import opened LedgerSpec
  import opened Replay

  /** What one replay write mixes: at most one block of each lane. */
  datatype BlockPair = BlockPair(music: Option<AudioBlock>, voice: Option<AudioBlock>) {
    ghost predicate Valid() {
      && (music.Some? || voice.Some?)
      && (music.Some? ==> music.value.Valid() && music.value.key.kind == SourceKind.Music)
      && (voice.Some? ==> voice.value.Valid() && voice.value.key.kind == SourceKind.Voice)
    }

    function Lane(kind: SourceKind): Option<AudioBlock> {
      if kind.Music? then music else voice
    }
  }

  ghost predicate SegmentOk(segment: ReplaySegment) {
    && (segment.music.Some? || segment.voice.Some?)
    && LaneOk(segment.music, SourceKind.Music)
    && LaneOk(segment.voice, SourceKind.Voice)
  }

  ghost predicate SegmentsOk(segments: seq<ReplaySegment>) {
    forall i | 0 <= i < |segments| :: SegmentOk(segments[i])
  }

  ghost predicate PairsOk(pairs: seq<BlockPair>) {
    forall i | 0 <= i < |pairs| :: pairs[i].Valid()
  }

  /** The frames of one source in a list of survivors. */
  function SegmentsStream(segments: seq<ReplaySegment>, key: SourceKey): seq<Numbered> {
    if segments == [] then [] else Trimmed(segments[0].SliceOf(key)) + SegmentsStream(segments[1..], key)
  }

  ghost function PairStream(pair: BlockPair, key: SourceKey): seq<Numbered>
    requires pair.Valid()
  {
    match pair.Lane(key.kind)
    case None => []
    case Some(block) => if block.key == key then block.Stream() else []
  }

  /** The frames of one source in a list of replay writes. */
  ghost function PairsStream(pairs: seq<BlockPair>, key: SourceKey): seq<Numbered>
    requires PairsOk(pairs)
  {
    if pairs == [] then [] else PairStream(pairs[0], key) + PairsStream(pairs[1..], key)
  }

  /** The replay writes carry every source's surviving frames, each once and in
      order, in no more writes than there were survivors. */
  ghost predicate Replays(segments: seq<ReplaySegment>, pairs: seq<BlockPair>) {
    && PairsOk(pairs)
    && |pairs| <= |segments|
    && forall key :: PairsStream(pairs, key) == SegmentsStream(segments, key)
  }

  // ---- one lane: repack across segments ----

  function KeyPart(frames: seq<Keyed>, key: SourceKey): seq<Numbered> {
    if frames == [] then []
    else
      (if frames[0].key == key then [Numbered(frames[0].number, frames[0].frame)] else [])
      + KeyPart(frames[1..], key)
  }

  lemma {:induction false} KeyPartAppend(a: seq<Keyed>, b: seq<Keyed>, key: SourceKey)
    ensures KeyPart(a + b, key) == KeyPart(a, key) + KeyPart(b, key)
  {
    if a == [] {
      assert a + b == b;
    } else {
      KeyPartAppend(a[1..], b, key);
      assert (a + b)[1..] == a[1..] + b;
    }
  }

  lemma {:induction false} KeyPartOfKey(owner: SourceKey, stream: seq<Numbered>, key: SourceKey)
    ensures KeyPart(Key(owner, stream), key) == if owner == key then stream else []
  {
    if stream != [] {
      KeyPartOfKey(owner, stream[1..], key);
      assert Key(owner, stream)[1..] == Key(owner, stream[1..]);
    }
  }

  function LaneSlices(segments: seq<ReplaySegment>, kind: SourceKind): seq<SourceSlice> {
    if segments == [] then []
    else
      var lane := if kind.Music? then segments[0].music else segments[0].voice;
      (if lane.Some? then [lane.value] else []) + LaneSlices(segments[1..], kind)
  }

  function LanePair(block: AudioBlock, kind: SourceKind): BlockPair {
    if kind.Music? then BlockPair(Some(block), None) else BlockPair(None, Some(block))
  }

  function LanePairs(blocks: seq<AudioBlock>, kind: SourceKind): seq<BlockPair> {
    seq(|blocks|, i requires 0 <= i < |blocks| => LanePair(blocks[i], kind))
  }

  lemma {:induction false} LaneSlicesOk(segments: seq<ReplaySegment>, kind: SourceKind)
    requires SegmentsOk(segments)
    ensures |LaneSlices(segments, kind)| <= |segments|
    ensures forall i | 0 <= i < |LaneSlices(segments, kind)| ::
              var slice := LaneSlices(segments, kind)[i];
              slice.key.kind == kind && slice.masterOffset == 0 && 1 <= slice.FrameCount() <= AUDIO_BLOCK_FRAMES
  {
    if segments != [] {
      assert SegmentOk(segments[0]);
      assert SegmentsOk(segments[1..]);
      LaneSlicesOk(segments[1..], kind);
    }
  }

  lemma {:induction false} LaneSlicesStream(segments: seq<ReplaySegment>, key: SourceKey)
    requires SegmentsOk(segments)
    ensures KeyPart(SliceFrames(LaneSlices(segments, key.kind)), key) == SegmentsStream(segments, key)
  {
    if segments != [] {
      LaneSlicesStream(segments[1..], key);
      var lane := if key.kind.Music? then segments[0].music else segments[0].voice;
      if lane.Some? {
        var slices := LaneSlices(segments, key.kind);
        assert slices[0] == lane.value && slices[1..] == LaneSlices(segments[1..], key.kind);
        KeyPartAppend(Key(lane.value.key, lane.value.Stream()), SliceFrames(slices[1..]), key);
        KeyPartOfKey(lane.value.key, lane.value.Stream(), key);
        assert SliceFrames(slices) == Key(lane.value.key, lane.value.Stream()) + SliceFrames(slices[1..]);
        assert Trimmed(segments[0].SliceOf(key)) == if lane.value.key == key then lane.value.Stream() else [];
      } else {
        assert LaneSlices(segments, key.kind) == LaneSlices(segments[1..], key.kind);
        assert Trimmed(segments[0].SliceOf(key)) == [];
      }
    }
  }

  lemma {:induction false} LanePairsStream(blocks: seq<AudioBlock>, key: SourceKey)
    requires AllValid(blocks) && PairsOk(LanePairs(blocks, key.kind))
    ensures PairsStream(LanePairs(blocks, key.kind), key) == KeyPart(BlockFrames(blocks), key)
  {
    if blocks != [] {
      var pairs := LanePairs(blocks, key.kind);
      assert pairs[1..] == LanePairs(blocks[1..], key.kind);
      LanePairsStream(blocks[1..], key);
      KeyPartAppend(Key(blocks[0].key, blocks[0].Stream()), BlockFrames(blocks[1..]), key);
      KeyPartOfKey(blocks[0].key, blocks[0].Stream(), key);
    }
  }

  lemma {:induction false} OtherLaneSilent(blocks: seq<AudioBlock>, segments: seq<ReplaySegment>, kind: SourceKind,
                                           key: SourceKey)
    requires key.kind != kind && PairsOk(LanePairs(blocks, kind))
    requires forall i | 0 <= i < |segments| :: segments[i].SliceOf(key).None?
    ensures PairsStream(LanePairs(blocks, kind), key) == [] == SegmentsStream(segments, key)
    decreases |blocks| + |segments|
  {
    if blocks != [] {
      assert LanePairs(blocks, kind)[1..] == LanePairs(blocks[1..], kind);
      OtherLaneSilent(blocks[1..], segments, kind, key);
    } else if segments != [] {
      OtherLaneSilent(blocks, segments[1..], kind, key);
    }
  }

  /** Every packed block belongs to one of the sources that were packed. */
  lemma {:induction false} PackedKinds(slices: seq<SourceSlice>, blocks: seq<AudioBlock>, kind: SourceKind)
    requires AllValid(blocks) && (forall f | f in BlockFrames(blocks) :: f.key.kind == kind)
    ensures PairsOk(LanePairs(blocks, kind))
  {
    if blocks != [] {
      var head := Key(blocks[0].key, blocks[0].Stream());
      assert head[0] in BlockFrames(blocks);
      forall f | f in BlockFrames(blocks[1..]) ensures f.key.kind == kind {
        assert f in BlockFrames(blocks);
      }
      PackedKinds(slices, blocks[1..], kind);
      var pairs := LanePairs(blocks, kind);
      forall i | 0 <= i < |pairs| ensures pairs[i].Valid() {
        if i > 0 {
          assert pairs[i] == LanePairs(blocks[1..], kind)[i - 1];
        }
      }
    }
  }

  lemma {:induction false} SliceFramesKinds(slices: seq<SourceSlice>, kind: SourceKind)
    requires forall i | 0 <= i < |slices| :: slices[i].key.kind == kind
    ensures forall f | f in SliceFrames(slices) :: f.key.kind == kind
  {
    if slices != [] {
      SliceFramesKinds(slices[1..], kind);
    }
  }

  lemma {:induction false} LaneReplays(segments: seq<ReplaySegment>, blocks: seq<AudioBlock>, kind: SourceKind)
    requires SegmentsOk(segments)
    requires forall i | 0 <= i < |segments| :: if kind.Music? then segments[i].voice.None? else segments[i].music.None?
    requires Packed(LaneSlices(segments, kind), blocks) && |blocks| <= |LaneSlices(segments, kind)|
    ensures Replays(segments, LanePairs(blocks, kind))
  {
    var slices := LaneSlices(segments, kind);
    LaneSlicesOk(segments, kind);
    SliceFramesKinds(slices, kind);
    PackedKinds(slices, blocks, kind);
    forall key ensures PairsStream(LanePairs(blocks, kind), key) == SegmentsStream(segments, key) {
      if key.kind == kind {
        LaneSlicesStream(segments, key);
        LanePairsStream(blocks, key);
      } else {
        OtherLaneSilent(blocks, segments, kind, key);
      }
    }
  }

  // ---- both lanes: one write per segment ----

  function PaddedBlock(slice: SourceSlice): AudioBlock
    requires slice.FrameCount() <= AUDIO_BLOCK_FRAMES
  {
    AudioBlock(slice.key, slice.startFrame, slice.FrameCount(),
               slice.samples + Silent(AUDIO_BLOCK_FRAMES - slice.FrameCount()))
  }

  method BlockFromSlice(slice: Option<SourceSlice>) returns (r: Result<Option<AudioBlock>, ReplayError>)
    requires slice.Some? ==> 1 <= slice.value.FrameCount() <= AUDIO_BLOCK_FRAMES
    ensures slice.None? ==> r == Ok(None)
    ensures r.Err? <==> slice.Some? && slice.value.masterOffset != 0
    ensures slice.Some? && r.Ok? ==>
              && r.value.Some? && r.value.value.Valid() && r.value.value.key == slice.value.key
              && r.value.value.Stream() == slice.value.Stream()
  {
    if slice.None? {
      return Ok(None);
    }
    if slice.value.masterOffset != 0 {
      return Err(NotLeftAligned);
    }
    var block := PaddedBlock(slice.value);
    assert block.samples[..block.validFrames] == slice.value.samples;
    r := Ok(Some(block));
  }

  ghost predicate SameFrames(segment: ReplaySegment, pair: BlockPair) {
    && pair.Valid()
    && forall key :: PairStream(pair, key) == Trimmed(segment.SliceOf(key))
  }

  lemma {:induction false} PairwiseReplays(segments: seq<ReplaySegment>, pairs: seq<BlockPair>)
    requires |pairs| == |segments| && forall i | 0 <= i < |pairs| :: SameFrames(segments[i], pairs[i])
    ensures Replays(segments, pairs)
  {
    if pairs != [] {
      assert SameFrames(segments[0], pairs[0]);
      forall i | 0 <= i < |pairs| - 1 ensures SameFrames(segments[1..][i], pairs[1..][i]) {
        assert SameFrames(segments[i + 1], pairs[i + 1]);
      }
      PairwiseReplays(segments[1..], pairs[1..]);
      forall i | 0 <= i < |pairs| ensures pairs[i].Valid() {
        assert SameFrames(segments[i], pairs[i]);
      }
    }
  }

  /** A plan always exists: one write per segment. */
  lemma {:induction false} PlanExists(segments: seq<ReplaySegment>)
    requires SegmentsOk(segments)
    ensures exists pairs :: Replays(segments, pairs)
  {
    var pairs := seq(|segments|, i requires 0 <= i < |segments| && SegmentOk(segments[i]) => PairOf(segments[i]));
    forall i | 0 <= i < |segments| ensures SameFrames(segments[i], pairs[i]) {
    }
    PairwiseReplays(segments, pairs);
  }

  function PadLane(slice: Option<SourceSlice>): Option<AudioBlock>
    requires slice.Some? ==> slice.value.FrameCount() <= AUDIO_BLOCK_FRAMES
  {
    if slice.None? then None else Some(PaddedBlock(slice.value))
  }

  ghost function PairOf(segment: ReplaySegment): BlockPair
    requires SegmentOk(segment)
  {
    BlockPair(PadLane(segment.music), PadLane(segment.voice))
  }

  // ---- _replay_blocks ----

  function Kinds(segments: seq<ReplaySegment>): set<SourceKind> {
    (set segment | segment in segments && segment.music.Some? :: segment.music.value.key.kind)
    + (set segment | segment in segments && segment.voice.Some? :: segment.voice.value.key.kind)
  }

  predicate OneLaneEach(segments: seq<ReplaySegment>) {
    forall i | 0 <= i < |segments| :: segments[i].music.None? != segments[i].voice.None?
  }

  /** The survivors hold one lane only. */
  predicate SingleLane(segments: seq<ReplaySegment>, kind: SourceKind) {
    Kinds(segments) == {kind} && OneLaneEach(segments)
  }

  /** Survivors of one lane are repacked; otherwise every survivor becomes one
      write. Both branches preserve every source's stream. */
  method ReplayBlocks(segments: seq<ReplaySegment>) returns (r: Result<seq<BlockPair>, ReplayError>)
    requires SegmentsOk(segments)
    ensures r.Ok? && Replays(segments, r.value)
    ensures forall kind | SingleLane(segments, kind) ::
              exists blocks :: Packed(LaneSlices(segments, kind), blocks) && r.value == LanePairs(blocks, kind)
    ensures !SingleLane(segments, SourceKind.Music) && !SingleLane(segments, SourceKind.Voice) ==>
              |r.value| == |segments| && forall i | 0 <= i < |segments| :: SameFrames(segments[i], r.value[i])
  {
    hide LaneSlices, Packed, Replays, SameFrames;
    var kinds := Kinds(segments);
    if SingleLane(segments, SourceKind.Music) || SingleLane(segments, SourceKind.Voice) {
      var kind := if kinds == {SourceKind.Music} then SourceKind.Music else SourceKind.Voice;
      var slices := LaneSlices(segments, kind);
      LaneSlicesOk(segments, kind);
      var packed := PackSingleLane(slices);
      forall i | 0 <= i < |segments| ensures if kind.Music? then segments[i].voice.None? else segments[i].music.None? {
        OtherLaneEmpty(segments, kind, i);
      }
      LaneReplays(segments, packed.value, kind);
      return Ok(LanePairs(packed.value, kind));
    }
    var pairs := OneWriteEach(segments);
    PairwiseReplays(segments, pairs);
    r := Ok(pairs);
  }

  method OneWriteEach(segments: seq<ReplaySegment>) returns (pairs: seq<BlockPair>)
    requires SegmentsOk(segments)
    ensures |pairs| == |segments| && forall k | 0 <= k < |segments| :: SameFrames(segments[k], pairs[k])
  {
    pairs := [];
    for i := 0 to |segments|
      invariant |pairs| == i
      invariant forall k | 0 <= k < i :: SameFrames(segments[k], pairs[k])
    {
      assert SegmentOk(segments[i]);
      var music := BlockFromSlice(segments[i].music);
      var voice := BlockFromSlice(segments[i].voice);
      var pair := BlockPair(music.value, voice.value);
      assert SameFrames(segments[i], pair);
      pairs := pairs + [pair];
    }
  }

  lemma OtherLaneEmpty(segments: seq<ReplaySegment>, kind: SourceKind, i: nat)
    requires SegmentsOk(segments) && Kinds(segments) == {kind} && i < |segments|
    ensures if kind.Music? then segments[i].voice.None? else segments[i].music.None?
  {
    var segment := segments[i];
    assert SegmentOk(segment) && segment in segments;
    if segment.music.Some? {
      assert SourceKind.Music in Kinds(segments);
    }
    if segment.voice.Some? {
      assert SourceKind.Voice in Kinds(segments);
    }
  }
}
