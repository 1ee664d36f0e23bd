/** Repacking the frames a flush hands back into fresh blocks. */
module Replay {
  import opened Common
  import opened AudioModels

  /** One frame with its source and its source-local number. */
  datatype Keyed = Keyed(key: SourceKey, number: nat, frame: Frame)

  function Key(key: SourceKey, stream: seq<Numbered>): (keyed: seq<Keyed>)
    ensures |keyed| == |stream|
  {
    seq(|stream|, i requires 0 <= i < |stream| => Keyed(key, stream[i].number, stream[i].frame))
  }

  /** The frames a list of slices carries, in order. */
  function SliceFrames(slices: seq<SourceSlice>): seq<Keyed> {
    if slices == [] then [] else Key(slices[0].key, slices[0].Stream()) + SliceFrames(slices[1..])
  }

  ghost predicate AllValid(blocks: seq<AudioBlock>) {
    forall i | 0 <= i < |blocks| :: blocks[i].Valid()
  }

  /** The frames a list of blocks carries, in order and without padding. */
  ghost function BlockFrames(blocks: seq<AudioBlock>): seq<Keyed>
    requires AllValid(blocks)
  {
    if blocks == [] then [] else Key(blocks[0].key, blocks[0].Stream()) + BlockFrames(blocks[1..])
  }

  /** Does the second block continue the first without a gap? */
  predicate Continues(first: AudioBlock, second: AudioBlock) {
    second.key == first.key && second.startFrame == first.EndFrame()
  }

  /** Only the last block of each contiguous run is partial. */
  ghost predicate PartialOnlyAtRunEnd(blocks: seq<AudioBlock>) {
    forall i | 0 <= i < |blocks| - 1 && Continues(blocks[i], blocks[i + 1]) ::
      blocks[i].validFrames == AUDIO_BLOCK_FRAMES
  }

  /** What repacking promises: the same frames in the same order, in valid
      blocks that are full wherever the source runs on. */
  ghost predicate Packed(slices: seq<SourceSlice>, blocks: seq<AudioBlock>) {
    && AllValid(blocks)
    && BlockFrames(blocks) == SliceFrames(slices)
    && PartialOnlyAtRunEnd(blocks)
  }

  // ---- the promise leaves no freedom ----

  lemma {:induction false} BlockFramesCons(blocks: seq<AudioBlock>)
    requires AllValid(blocks) && blocks != []
    ensures AllValid(blocks[1..])
    ensures BlockFrames(blocks) == Key(blocks[0].key, blocks[0].Stream()) + BlockFrames(blocks[1..])
    ensures |Key(blocks[0].key, blocks[0].Stream())| == blocks[0].validFrames > 0
  {
  }

  lemma {:induction false} SameFirstFrame(a: seq<AudioBlock>, b: seq<AudioBlock>)
    requires AllValid(a) && AllValid(b) && a != [] && b != [] && BlockFrames(a) == BlockFrames(b)
    ensures a[0].key == b[0].key && a[0].startFrame == b[0].startFrame
  {
    BlockFramesCons(a);
    BlockFramesCons(b);
    assert BlockFrames(a)[0] == Key(a[0].key, a[0].Stream())[0] == Key(b[0].key, b[0].Stream())[0];
  }

  /** If two packings of the same frames open with blocks of different length,
      the shorter one stopped inside a run. */
  lemma {:induction false} ShorterContinues(a: seq<AudioBlock>, b: seq<AudioBlock>)
    requires AllValid(a) && AllValid(b) && a != [] && b != [] && BlockFrames(a) == BlockFrames(b)
    requires a[0].validFrames < b[0].validFrames
    ensures |a| > 1 && Continues(a[0], a[1])
  {
    SameFirstFrame(a, b);
    BlockFramesCons(a);
    BlockFramesCons(b);
    var frames, at := BlockFrames(a), a[0].validFrames;
    assert frames[at] == Key(b[0].key, b[0].Stream())[at];
    assert |a| > 1;
    BlockFramesCons(a[1..]);
    assert frames[at] == BlockFrames(a[1..])[0] == Key(a[1].key, a[1].Stream())[0];
  }

  lemma {:induction false} FirstBlockAsLong(a: seq<AudioBlock>, b: seq<AudioBlock>)
    requires AllValid(a) && AllValid(b) && a != [] && b != []
    requires BlockFrames(a) == BlockFrames(b) && PartialOnlyAtRunEnd(a)
    ensures b[0].validFrames <= a[0].validFrames
    ensures a[0].key == b[0].key && a[0].startFrame == b[0].startFrame
  {
    SameFirstFrame(a, b);
    if a[0].validFrames < b[0].validFrames {
      ShorterContinues(a, b);
    }
  }

  lemma SameFirstBlock(a: AudioBlock, b: AudioBlock)
    requires a.Valid() && b.Valid() && a.key == b.key && a.startFrame == b.startFrame && a.validFrames == b.validFrames
    requires Key(a.key, a.Stream()) == Key(b.key, b.Stream())
    ensures a == b
  {
    forall i | 0 <= i < AUDIO_BLOCK_FRAMES ensures a.samples[i] == b.samples[i] {
      if i < a.validFrames {
        assert Key(a.key, a.Stream())[i].frame == a.samples[i];
        assert Key(b.key, b.Stream())[i].frame == b.samples[i];
      }
    }
    assert a.samples == b.samples;
  }

  /** The packing of given slices is unique. */
  lemma {:induction false} PackingIsUnique(slices: seq<SourceSlice>, a: seq<AudioBlock>, b: seq<AudioBlock>)
    requires Packed(slices, a) && Packed(slices, b)
    ensures a == b
  {
    SameFramesSameBlocks(a, b);
  }

  lemma {:induction false} SameFramesSameBlocks(a: seq<AudioBlock>, b: seq<AudioBlock>)
    requires AllValid(a) && AllValid(b) && PartialOnlyAtRunEnd(a) && PartialOnlyAtRunEnd(b)
    requires BlockFrames(a) == BlockFrames(b)
    ensures a == b
  {
    if a != [] {
      BlockFramesCons(a);
    }
    if b != [] {
      BlockFramesCons(b);
    }
    if a != [] && b != [] {
      FirstBlockAsLong(a, b);
      FirstBlockAsLong(b, a);
      var head := a[0].validFrames;
      assert Key(a[0].key, a[0].Stream()) == BlockFrames(a)[..head];
      assert Key(b[0].key, b[0].Stream()) == BlockFrames(b)[..head];
      SameFirstBlock(a[0], b[0]);
      assert BlockFrames(a[1..]) == BlockFrames(a)[head..];
      assert BlockFrames(b[1..]) == BlockFrames(b)[head..];
      assert PartialOnlyAtRunEnd(a[1..]) by {
        assert forall i | 0 <= i < |a| - 1 :: a[1..][i] == a[i + 1];
      }
      assert PartialOnlyAtRunEnd(b[1..]) by {
        assert forall i | 0 <= i < |b| - 1 :: b[1..][i] == b[i + 1];
      }
      SameFramesSameBlocks(a[1..], b[1..]);
      assert a == [a[0]] + a[1..] && b == [b[0]] + b[1..];
    }
  }

  // ---- list facts the packing loops rely on ----

  lemma {:induction false} BlockFramesAppend(a: seq<AudioBlock>, b: seq<AudioBlock>)
    requires AllValid(a) && AllValid(b)
    ensures AllValid(a + b) && BlockFrames(a + b) == BlockFrames(a) + BlockFrames(b)
  {
    if a == [] {
      assert a + b == b;
    } else {
      assert (a + b)[1..] == a[1..] + b && (a + b)[0] == a[0];
      assert AllValid(a[1..]) && AllValid(a + b);
      hide Key, AllValid;
      BlockFramesAppend(a[1..], b);
      Regroup(Key(a[0].key, a[0].Stream()), BlockFrames(a[1..]), BlockFrames(b));
    }
  }

  lemma {:induction false} SliceFramesAppend(a: seq<SourceSlice>, b: seq<SourceSlice>)
    ensures SliceFrames(a + b) == SliceFrames(a) + SliceFrames(b)
  {
    if a == [] {
      assert a + b == b;
    } else {
      var head := Key(a[0].key, a[0].Stream());
      calc {
        SliceFrames(a + b);
      == { assert (a + b)[0] == a[0]; }
        head + SliceFrames((a + b)[1..]);
      == { assert (a + b)[1..] == a[1..] + b; SliceFramesAppend(a[1..], b); }
        head + (SliceFrames(a[1..]) + SliceFrames(b));
      ==
        SliceFrames(a) + SliceFrames(b);
      }
    }
  }

  lemma BlockFramesOne(block: AudioBlock)
    requires block.Valid()
    ensures BlockFrames([block]) == Key(block.key, block.Stream())
  {
    assert [block][1..] == [];
  }

  /** A block that begins at (key, start) may follow without leaving a partial block inside a run. */
  ghost predicate MayFollow(blocks: seq<AudioBlock>, key: SourceKey, start: nat) {
    blocks != [] ==>
      var last := blocks[|blocks| - 1];
      last.validFrames == AUDIO_BLOCK_FRAMES || last.key != key || last.EndFrame() != start
  }

  // ---- packing ----

  datatype ReplayError = NotLeftAligned

  method PadBlock(key: SourceKey, start: nat, frames: seq<Frame>) returns (block: AudioBlock)
    requires 1 <= |frames| <= AUDIO_BLOCK_FRAMES
    ensures block.Valid() && block.key == key && block.startFrame == start && block.validFrames == |frames|
    ensures block.Stream() == NumberFrom(start, frames)
  {
    block := AudioBlock(key, start, |frames|, frames + Silent(AUDIO_BLOCK_FRAMES - |frames|));
    assert block.samples[..|frames|] == frames;
  }

  /** Turn pending frames of one run into blocks: full ones only, unless this
      is the end of the run. */
  method Emit(key: SourceKey, start: nat, pending: seq<seq<Frame>>, final: bool)
    returns (blocks: seq<AudioBlock>, rest: seq<seq<Frame>>, restStart: nat)
    ensures AllValid(blocks) && RunSoFar(key, start, blocks, restStart, final)
    ensures blocks == [] ==> restStart == start
    ensures BlockFrames(blocks) + Key(key, NumberFrom(restStart, Flatten(rest)))
            == Key(key, NumberFrom(start, Flatten(pending)))
    ensures restStart + |Flatten(rest)| == start + |Flatten(pending)|
    ensures if final then Flatten(rest) == [] else |Flatten(rest)| < AUDIO_BLOCK_FRAMES
    ensures !final ==> |blocks| * AUDIO_BLOCK_FRAMES + |Flatten(rest)| == |Flatten(pending)|
    ensures final ==> |blocks| * AUDIO_BLOCK_FRAMES < |Flatten(pending)| + AUDIO_BLOCK_FRAMES
  {
    hide RunSoFar, BlockFrames, Key, NumberFrom, PartialOnlyAtRunEnd, AllValid;
    EmptyRun(key, start);
    blocks, rest, restStart := [], pending, start;
    var pendingFrames := |Flatten(pending)|;
    ghost var whole := Key(key, NumberFrom(start, Flatten(pending)));
    while pendingFrames >= AUDIO_BLOCK_FRAMES || (final && pendingFrames > 0)
      invariant pendingFrames == |Flatten(rest)|
      invariant AllValid(blocks) && RunSoFar(key, start, blocks, restStart, pendingFrames == 0 && final)
      invariant blocks == [] ==> restStart == start
      invariant BlockFrames(blocks) + Key(key, NumberFrom(restStart, Flatten(rest))) == whole
      invariant restStart + pendingFrames == start + |Flatten(pending)|
      invariant || |blocks| * AUDIO_BLOCK_FRAMES + pendingFrames == |Flatten(pending)|
                || (final && pendingFrames == 0
                    && |blocks| * AUDIO_BLOCK_FRAMES < |Flatten(pending)| + AUDIO_BLOCK_FRAMES)
      decreases pendingFrames
    {
      var validFrames := Min(pendingFrames, AUDIO_BLOCK_FRAMES);
      var joined := Flatten(rest);
      var block := PadBlock(key, restStart, joined[..validFrames]);
      var remainder := joined[validFrames..];
      TakeFrames(blocks, block, key, restStart, joined, validFrames);
      RunGrows(key, start, blocks, restStart, block, |remainder| == 0 && final);
      FlattenSingle(remainder);
      blocks := blocks + [block];
      rest := if |remainder| > 0 then [remainder] else [];
      pendingFrames := pendingFrames - validFrames;
      restStart := restStart + validFrames;
    }
  }

  /** Blocks cut so far from one run that began at (key, start). */
  ghost predicate RunSoFar(key: SourceKey, start: nat, blocks: seq<AudioBlock>, end: nat, ended: bool) {
    && AllValid(blocks)
    && PartialOnlyAtRunEnd(blocks)
    && (blocks == [] ==> end == start)
    && (blocks != [] ==>
          var last := blocks[|blocks| - 1];
          && blocks[0].key == key && blocks[0].startFrame == start
          && last.key == key && last.EndFrame() == end
          && (last.validFrames == AUDIO_BLOCK_FRAMES || ended))
  }

  lemma EmptyRun(key: SourceKey, start: nat)
    ensures RunSoFar(key, start, [], start, false) && RunSoFar(key, start, [], start, true)
    ensures AllValid([]) && BlockFrames([]) == []
  {
  }

  lemma RunGrows(key: SourceKey, start: nat, blocks: seq<AudioBlock>, end: nat, block: AudioBlock, ended: bool)
    requires RunSoFar(key, start, blocks, end, false)
    requires block.Valid() && block.key == key && block.startFrame == end
    requires block.validFrames == AUDIO_BLOCK_FRAMES || ended
    ensures RunSoFar(key, start, blocks + [block], block.EndFrame(), ended)
  {
  }

  lemma {:induction false} TakeFrames(blocks: seq<AudioBlock>, block: AudioBlock, key: SourceKey, start: nat,
                                      joined: seq<Frame>, taken: nat)
    requires AllValid(blocks) && block.Valid() && block.key == key && taken <= |joined|
    requires block.Stream() == NumberFrom(start, joined[..taken])
    ensures AllValid(blocks + [block])
    ensures BlockFrames(blocks) + Key(key, NumberFrom(start, joined))
         == BlockFrames(blocks + [block]) + Key(key, NumberFrom(start + taken, joined[taken..]))
  {
    assert joined == joined[..taken] + joined[taken..];
    BlockFramesOne(block);
    BlockFramesAppend(blocks, [block]);
  }

  /** Mid-packing: the finished blocks and the frames of the open run are the slices taken so far. */
  ghost predicate Open(done: seq<SourceSlice>, blocks: seq<AudioBlock>, key: SourceKey, start: nat,
                       joined: seq<Frame>) {
    && AllValid(blocks)
    && PartialOnlyAtRunEnd(blocks)
    && BlockFrames(blocks) + Key(key, NumberFrom(start, joined)) == SliceFrames(done)
    && MayFollow(blocks, key, start)
  }

  ghost predicate LastFull(blocks: seq<AudioBlock>) {
    blocks != [] && blocks[|blocks| - 1].validFrames == AUDIO_BLOCK_FRAMES
  }

  lemma JoinedBlocksFull(blocks: seq<AudioBlock>, key: SourceKey, start: nat, emitted: seq<AudioBlock>, end: nat,
                         final: bool)
    requires AllValid(blocks) && PartialOnlyAtRunEnd(blocks) && MayFollow(blocks, key, start)
    requires RunSoFar(key, start, emitted, end, final)
    ensures AllValid(blocks + emitted) && PartialOnlyAtRunEnd(blocks + emitted)
    ensures !final ==> MayFollow(blocks + emitted, key, end)
    ensures !final && emitted != [] ==> LastFull(blocks + emitted)
  {
  }

  /** Emitting part or all of the open run keeps the packing on course. */
  lemma {:induction false} EmitKeepsOpen(done: seq<SourceSlice>, blocks: seq<AudioBlock>, key: SourceKey, start: nat,
                                         joined: seq<Frame>, emitted: seq<AudioBlock>, rest: seq<Frame>, restStart: nat,
                                         final: bool)
    requires Open(done, blocks, key, start, joined) && RunSoFar(key, start, emitted, restStart, final)
    requires BlockFrames(emitted) + Key(key, NumberFrom(restStart, rest)) == Key(key, NumberFrom(start, joined))
    ensures AllValid(blocks + emitted) && PartialOnlyAtRunEnd(blocks + emitted)
    ensures BlockFrames(blocks + emitted) + Key(key, NumberFrom(restStart, rest)) == SliceFrames(done)
    ensures !final ==> Open(done, blocks + emitted, key, restStart, rest)
    ensures !final && emitted != [] ==> LastFull(blocks + emitted)
  {
    JoinedBlocksFull(blocks, key, start, emitted, restStart, final);
    BlockFramesAppend(blocks, emitted);
    hide AllValid, PartialOnlyAtRunEnd, MayFollow, LastFull, BlockFrames, Key, NumberFrom, SliceFrames;
    Regroup(BlockFrames(blocks), BlockFrames(emitted), Key(key, NumberFrom(restStart, rest)));
  }

  /** After the open run is emitted to its end, a slice that does not continue
      it opens the next run. */
  lemma {:induction false} NextRun(done: seq<SourceSlice>, blocks: seq<AudioBlock>, key: SourceKey, start: nat,
                                   joined: seq<Frame>, emitted: seq<AudioBlock>, end: nat, nextKey: SourceKey,
                                   nextStart: nat)
    requires Open(done, blocks, key, start, joined) && RunSoFar(key, start, emitted, end, true)
    requires BlockFrames(emitted) + Key(key, NumberFrom(end, [])) == Key(key, NumberFrom(start, joined))
    requires emitted == [] ==> LastFull(blocks)
    requires nextKey != key || nextStart != end
    ensures Open(done, blocks + emitted, nextKey, nextStart, [])
  {
    EmitKeepsOpen(done, blocks, key, start, joined, emitted, [], end, true);
    assert Key(key, NumberFrom(end, [])) == [] == Key(nextKey, NumberFrom(nextStart, []));
  }

  lemma EmptyPacking()
    ensures Packed([], [])
  {
  }

  lemma FirstRun(key: SourceKey, start: nat)
    ensures Open([], [], key, start, [])
  {
  }

  lemma {:induction false} LastRun(slices: seq<SourceSlice>, blocks: seq<AudioBlock>, key: SourceKey, start: nat,
                                   joined: seq<Frame>, emitted: seq<AudioBlock>, end: nat)
    requires Open(slices, blocks, key, start, joined) && RunSoFar(key, start, emitted, end, true)
    requires BlockFrames(emitted) + Key(key, NumberFrom(end, [])) == Key(key, NumberFrom(start, joined))
    ensures Packed(slices, blocks + emitted)
  {
    EmitKeepsOpen(slices, blocks, key, start, joined, emitted, [], end, true);
    assert Key(key, NumberFrom(end, [])) == [];
  }

  lemma TakeSlice(done: seq<SourceSlice>, blocks: seq<AudioBlock>, start: nat, joined: seq<Frame>, source: SourceSlice)
    requires Open(done, blocks, source.key, start, joined) && source.startFrame == start + |joined|
    ensures Open(done + [source], blocks, source.key, start, joined + source.samples)
  {
    SliceFramesAppend(done, [source]);
    SliceFramesOne(source);
    JoinKeyed(source.key, start, joined, source.samples);
    hide SliceFrames, AllValid, PartialOnlyAtRunEnd, MayFollow, BlockFrames, Key, NumberFrom;
    Regroup(BlockFrames(blocks), Key(source.key, NumberFrom(start, joined)), Key(source.key, source.Stream()));
  }

  lemma SliceFramesOne(source: SourceSlice)
    ensures SliceFrames([source]) == Key(source.key, source.Stream())
  {
    assert [source][1..] == [];
  }

  lemma JoinKeyed(key: SourceKey, start: nat, joined: seq<Frame>, more: seq<Frame>)
    ensures Key(key, NumberFrom(start, joined + more))
         == Key(key, NumberFrom(start, joined)) + Key(key, NumberFrom(start + |joined|, more))
  {
    NumberFromAppend(start, joined, more);
  }

  lemma NothingPending()
    ensures Flatten<Frame>([]) == []
  {
  }

  ghost predicate FitBlocks(slices: seq<SourceSlice>) {
    forall i | 0 <= i < |slices| :: 1 <= slices[i].FrameCount() <= AUDIO_BLOCK_FRAMES
  }

  /** Repack the slices of one lane. It is refused exactly when some slice does
      not start at its segment's front. */
  method PackSingleLane(slices: seq<SourceSlice>) returns (r: Result<seq<AudioBlock>, ReplayError>)
    requires forall i | 0 <= i < |slices| :: |slices[i].samples| > 0
    ensures r.Err? <==> exists i | 0 <= i < |slices| :: slices[i].masterOffset != 0
    ensures r.Ok? ==> Packed(slices, r.value)
    ensures r.Ok? && FitBlocks(slices) ==> |r.value| <= |slices|
  {
    hide Open, RunSoFar, LastFull, BlockFrames, Key, NumberFrom;
    hide Packed, AllValid, PartialOnlyAtRunEnd, SliceFrames, MayFollow, Flatten;
    NothingPending();
    var blocks: seq<AudioBlock> := [];
    var pending: seq<seq<Frame>> := [];
    var pendingKey: Option<SourceKey> := None;
    var pendingStart: nat := 0;
    var i := 0;
    while i < |slices|
      invariant 0 <= i <= |slices|
      invariant forall k | 0 <= k < i :: slices[k].masterOffset == 0
      invariant pendingKey.None? ==> i == 0 && blocks == [] && Flatten(pending) == []
      invariant pendingKey.Some? ==>
                  && Open(slices[..i], blocks, pendingKey.value, pendingStart, Flatten(pending))
                  && (Flatten(pending) == [] ==> LastFull(blocks))
      invariant |Flatten(pending)| < AUDIO_BLOCK_FRAMES
      invariant FitBlocks(slices) ==> |blocks| + (if |Flatten(pending)| > 0 then 1 else 0) <= i
    {
      var source := slices[i];
      if source.masterOffset != 0 {
        return Err(NotLeftAligned);
      }
      if pendingKey.Some? && (source.key != pendingKey.value
                              || source.startFrame != pendingStart + |Flatten(pending)|) {
        var emitted, rest, start := Emit(pendingKey.value, pendingStart, pending, true);
        NextRun(slices[..i], blocks, pendingKey.value, pendingStart, Flatten(pending), emitted, start, source.key,
                source.startFrame);
        blocks, pending := blocks + emitted, rest;
        pendingKey := None;
      }
      if pendingKey.None? {
        FirstRun(source.key, source.startFrame);
        pendingKey := Some(source.key);
        pendingStart := source.startFrame;
      }
      assert Open(slices[..i], blocks, source.key, pendingStart, Flatten(pending));
      TakeSlice(slices[..i], blocks, pendingStart, Flatten(pending), source);
      assert slices[..i + 1] == slices[..i] + [source];
      FlattenAppend(pending, [source.samples]);
      FlattenSingle(source.samples);
      pending := pending + [source.samples];
      var emitted, rest, start := Emit(source.key, pendingStart, pending, false);
      EmitKeepsOpen(slices[..i + 1], blocks, source.key, pendingStart, Flatten(pending), emitted, Flatten(rest), start,
                    false);
      blocks, pending, pendingStart := blocks + emitted, rest, start;
      i := i + 1;
    }
    assert slices[..i] == slices;
    if pendingKey.None? {
      EmptyPacking();
    } else {
      var emitted, rest, start := Emit(pendingKey.value, pendingStart, pending, true);
      LastRun(slices, blocks, pendingKey.value, pendingStart, Flatten(pending), emitted, start);
      blocks := blocks + emitted;
    }
    r := Ok(blocks);
  }
}
