/** The streaming converter for 48 kHz input, its fields changed in place, each
    call proved to do what the specification says. */
module Converter {
  import opened Common
  import opened AudioModels
  import opened ConverterSpec

  class StreamingAudioConverter {
    const sourceId: nat
    const kind: SourceKind
    var generation: nat
    var pending: seq<Frame>
    var sourceOutputFrames: nat
    var sourceInputFrames: nat
    var flushed: bool
    var stats: Stats

    ghost function Value(): State
      reads this
    {
      State(sourceId, kind, generation, pending, sourceOutputFrames, sourceInputFrames, flushed, stats)
    }

    constructor (sourceId: nat, kind: SourceKind, generation: nat)
      ensures Value() == Fresh(sourceId, kind, generation)
    {
      this.sourceId, this.kind, this.generation := sourceId, kind, generation;
      pending, sourceOutputFrames, sourceInputFrames := [], 0, 0;
      flushed, stats := false, Stats(0, 0, 0, 0, 0);
    }

    /** Take decoded frames and emit the blocks they complete. */
    method Push(frames: seq<Frame>, generation: nat) returns (result: Result<seq<AudioBlock>, Error>)
      modifies this
      ensures Outcome(Value(), result) == ConverterSpec.Push(old(Value()), frames, generation)
    {
      if generation != this.generation {
        return Err(WrongGeneration);
      }
      if flushed {
        return Err(AlreadyFlushed);
      }
      if frames == [] {
        return Err(EmptyInput);
      }
      sourceInputFrames := sourceInputFrames + |frames|;
      stats := stats.(input := stats.input + |frames|);
      pending := pending + frames;
      var blocks := EmitFullBlocks();
      result := Ok(blocks);
    }

    /** Emit what is left, the last block padded with silence. */
    method Flush(generation: nat) returns (result: Result<seq<AudioBlock>, Error>)
      modifies this
      ensures Outcome(Value(), result) == ConverterSpec.Flush(old(Value()), generation)
    {
      if generation != this.generation {
        return Err(WrongGeneration);
      }
      if flushed {
        return Ok([]);
      }
      flushed := true;
      var blocks := EmitFullBlocks();
      ghost var full := EmitFull(old(Value()).(flushed := true));
      ghost var emitted := blocks;
      assert Value() == full;
      if pending != [] {
        var last := Block(pending + Silent(AUDIO_BLOCK_FRAMES - |pending|), |pending|);
        blocks := blocks + [last];
        pending := [];
      }
      assert blocks == emitted + FinalBlock(full.Key(), full.output, full.pending);
      assert Value() == Emit(full, FinalBlock(full.Key(), full.output, full.pending), |full.pending|, []);
      result := Ok(blocks);
    }

    /** Drop what is pending and begin a strictly newer generation. */
    method Reset(generation: nat) returns (result: Result<nat, Error>)
      modifies this
      ensures Value() == ConverterSpec.Reset(old(Value()), generation).state
      ensures result.Err? <==> ConverterSpec.Reset(old(Value()), generation).result.Err?
      ensures result == if generation > old(this.generation) then Ok(|old(pending)|) else Err(GenerationNotNewer)
    {
      if generation <= this.generation {
        return Err(GenerationNotNewer);
      }
      var discarded := |pending|;
      this.generation := generation;
      pending, sourceOutputFrames, sourceInputFrames, flushed := [], 0, 0, false;
      stats := stats.(discarded := stats.discarded + discarded, resets := stats.resets + 1);
      result := Ok(discarded);
    }

    method EmitFullBlocks() returns (blocks: seq<AudioBlock>)
      modifies this`pending, this`sourceOutputFrames, this`stats
      ensures blocks == FullBlocks(old(Value()).Key(), old(sourceOutputFrames), old(pending))
      ensures Value() == EmitFull(old(Value()))
    {
      blocks := [];
      var offset := 0;
      while |pending| - offset >= AUDIO_BLOCK_FRAMES
        invariant offset == AUDIO_BLOCK_FRAMES * |blocks| <= |pending| && pending == old(pending)
        invariant forall i | 0 <= i < |blocks| ::
          AUDIO_BLOCK_FRAMES * (i + 1) <= |pending|
            && blocks[i] == FullBlock(old(Value()).Key(), old(sourceOutputFrames), pending, i)
        invariant sourceOutputFrames == old(sourceOutputFrames) + offset
        invariant stats == old(stats).(output := old(stats).output + offset, blocks := old(stats).blocks + |blocks|)
        decreases |pending| - offset
      {
        var block := Block(pending[offset..offset + AUDIO_BLOCK_FRAMES], AUDIO_BLOCK_FRAMES);
        blocks := blocks + [block];
        offset := offset + AUDIO_BLOCK_FRAMES;
      }
      assert blocks == FullBlocks(old(Value()).Key(), old(sourceOutputFrames), old(pending));
      if offset > 0 {
        pending := pending[offset..];
      }
    }

    method Block(samples: seq<Frame>, validFrames: nat) returns (block: AudioBlock)
      modifies this`sourceOutputFrames, this`stats
      ensures block == AudioBlock(SourceKey(sourceId, kind, generation), old(sourceOutputFrames), validFrames, samples)
      ensures sourceOutputFrames == old(sourceOutputFrames) + validFrames
      ensures stats == old(stats).(output := old(stats).output + validFrames, blocks := old(stats).blocks + 1)
    {
      block := AudioBlock(SourceKey(sourceId, kind, generation), sourceOutputFrames, validFrames, samples);
      sourceOutputFrames := sourceOutputFrames + validFrames;
      stats := stats.(output := stats.output + validFrames, blocks := stats.blocks + 1);
    }

    /** Map emitted progress to the input timeline by duration. */
    method NativeFrameForOutput(outputFrame: int) returns (result: Result<nat, Error>)
      ensures result == NativeFrame(Value(), outputFrame)
    {
      if !(0 <= outputFrame <= sourceOutputFrames) {
        return Err(OutsideGeneration);
      }
      var native := outputFrame * AUDIO_SAMPLE_RATE / AUDIO_SAMPLE_RATE;
      result := Ok(Min(native, sourceInputFrames));
    }
  }
}
