/** What the streaming converter computes for 48 kHz input: blocks cut from a
    frame stream, whatever pieces the stream arrives in. */
module ConverterSpec {
  import opened Common
  import opened AudioModels
  import Replay

  datatype Error = WrongGeneration | AlreadyFlushed | EmptyInput | GenerationNotNewer | OutsideGeneration

  datatype Stats = Stats(input: nat, output: nat, blocks: nat, discarded: nat, resets: nat)

  datatype State = State(sourceId: nat, kind: SourceKind, generation: nat, pending: seq<Frame>,
                         output: nat, input: nat, flushed: bool, stats: Stats)
  {
    function Key(): SourceKey { SourceKey(sourceId, kind, generation) }
  }

  function Fresh(sourceId: nat, kind: SourceKind, generation: nat): State {
    State(sourceId, kind, generation, [], 0, 0, false, Stats(0, 0, 0, 0, 0))
  }

  // ---- cutting a stream into blocks ----

  function FullBlock(key: SourceKey, start: nat, frames: seq<Frame>, index: nat): AudioBlock
    requires AUDIO_BLOCK_FRAMES * (index + 1) <= |frames|
  {
    AudioBlock(key, start + AUDIO_BLOCK_FRAMES * index, AUDIO_BLOCK_FRAMES,
               frames[AUDIO_BLOCK_FRAMES * index..AUDIO_BLOCK_FRAMES * (index + 1)])
  }

  function FullCount(frames: seq<Frame>): (count: nat)
    ensures AUDIO_BLOCK_FRAMES * count <= |frames| < AUDIO_BLOCK_FRAMES * (count + 1)
  {
    |frames| / AUDIO_BLOCK_FRAMES
  }

  /** How many frames the full blocks take. */
  function FullFrames(frames: seq<Frame>): (count: nat)
    ensures count <= |frames| < count + AUDIO_BLOCK_FRAMES
  {
    AUDIO_BLOCK_FRAMES * FullCount(frames)
  }

  /** Every full block of the stream, numbered from start. */
  function FullBlocks(key: SourceKey, start: nat, frames: seq<Frame>): (blocks: seq<AudioBlock>)
    ensures |blocks| == FullCount(frames)
  {
    seq(FullCount(frames), i requires 0 <= i < FullCount(frames) => FullBlock(key, start, frames, i))
  }

  /** The frames that do not fill a block yet. */
  function Rest(frames: seq<Frame>): (rest: seq<Frame>)
    ensures |rest| < AUDIO_BLOCK_FRAMES && |frames| == FullFrames(frames) + |rest|
  {
    frames[FullFrames(frames)..]
  }

  /** At most one zero-padded block. */
  function FinalBlock(key: SourceKey, start: nat, frames: seq<Frame>): seq<AudioBlock>
    requires |frames| <= AUDIO_BLOCK_FRAMES
  {
    if frames == [] then []
    else [AudioBlock(key, start, |frames|, frames + Silent(AUDIO_BLOCK_FRAMES - |frames|))]
  }

  /** The blocks of one whole stream: full ones, then its padded remainder. */
  function Whole(key: SourceKey, start: nat, frames: seq<Frame>): seq<AudioBlock> {
    FullBlocks(key, start, frames) + FinalBlock(key, start + FullFrames(frames), Rest(frames))
  }

  // ---- operations ----

  datatype Outcome = Outcome(state: State, result: Result<seq<AudioBlock>, Error>)

  function Emit(s: State, blocks: seq<AudioBlock>, frames: nat, pending: seq<Frame>): State {
    s.(pending := pending, output := s.output + frames,
       stats := s.stats.(output := s.stats.output + frames, blocks := s.stats.blocks + |blocks|))
  }

  function Receive(s: State, frames: seq<Frame>): State {
    s.(pending := s.pending + frames, input := s.input + |frames|,
       stats := s.stats.(input := s.stats.input + |frames|))
  }

  /** Emit what fills a block and keep the rest. */
  function EmitFull(s: State): State {
    Emit(s, FullBlocks(s.Key(), s.output, s.pending), FullFrames(s.pending), Rest(s.pending))
  }

  function Push(s: State, frames: seq<Frame>, generation: nat): Outcome {
    if generation != s.generation then Outcome(s, Err(WrongGeneration))
    else if s.flushed then Outcome(s, Err(AlreadyFlushed))
    else if frames == [] then Outcome(s, Err(EmptyInput))
    else Outcome(EmitFull(Receive(s, frames)), Ok(FullBlocks(s.Key(), s.output, s.pending + frames)))
  }

  function Flush(s: State, generation: nat): Outcome {
    if generation != s.generation then Outcome(s, Err(WrongGeneration))
    else if s.flushed then Outcome(s, Ok([]))
    else
      var full := EmitFull(s.(flushed := true));
      var last := FinalBlock(s.Key(), full.output, full.pending);
      Outcome(Emit(full, last, |full.pending|, []), Ok(FullBlocks(s.Key(), s.output, s.pending) + last))
  }

  function Reset(s: State, generation: nat): Outcome {
    if generation <= s.generation then Outcome(s, Err(GenerationNotNewer))
    else
      Outcome(State(s.sourceId, s.kind, generation, [], 0, 0, false,
                    s.stats.(discarded := s.stats.discarded + |s.pending|, resets := s.stats.resets + 1)), Ok([]))
  }

  function NativeFrame(s: State, outputFrame: int): Result<nat, Error> {
    if !(0 <= outputFrame <= s.output) then Err(OutsideGeneration)
    else Ok(Min(outputFrame * AUDIO_SAMPLE_RATE / AUDIO_SAMPLE_RATE, s.input))
  }

  // ---- runs ----

  datatype Event = Pushed(frames: seq<Frame>, generation: nat) | Flushed(generation: nat) | Restarted(generation: nat)

  function Perform(s: State, event: Event): Outcome {
    match event
    case Pushed(frames, generation) => Push(s, frames, generation)
    case Flushed(generation) => Flush(s, generation)
    case Restarted(generation) => Reset(s, generation)
  }

  function Emitted(outcome: Outcome): seq<AudioBlock> {
    if outcome.result.Ok? then outcome.result.value else []
  }

  datatype Trace = Trace(state: State, blocks: seq<AudioBlock>)

  /** The state after a run of calls and every block they emitted, in order. */
  function Run(s: State, events: seq<Event>): Trace
    decreases |events|
  {
    if events == [] then Trace(s, [])
    else
      var first := Perform(s, events[0]);
      var later := Run(first.state, events[1..]);
      Trace(later.state, Emitted(first) + later.blocks)
  }

  // ---- conservation ----

  predicate Inv(s: State) {
    && |s.pending| < AUDIO_BLOCK_FRAMES
    && (s.flushed ==> s.pending == [])
    && s.input == s.output + |s.pending|
    && s.stats.input == s.stats.output + |s.pending| + s.stats.discarded
  }

  lemma NothingFull(key: SourceKey, start: nat, frames: seq<Frame>)
    requires |frames| < AUDIO_BLOCK_FRAMES
    ensures FullFrames(frames) == 0 && Rest(frames) == frames && FullBlocks(key, start, frames) == []
  {
  }

  lemma PushKeeps(s: State, frames: seq<Frame>, generation: nat)
    requires Inv(s)
    ensures Inv(Push(s, frames, generation).state)
  {
    hide FullBlocks, FullCount, Rest;
    var received := Receive(s, frames);
    assert |received.pending| == |s.pending| + |frames|;
  }

  lemma NothingToEmit(s: State)
    requires |s.pending| < AUDIO_BLOCK_FRAMES
    ensures EmitFull(s) == s
  {
    NothingFull(s.Key(), s.output, s.pending);
    hide FullBlocks, FullFrames, Rest;
  }

  lemma FlushKeeps(s: State, generation: nat)
    requires Inv(s)
    ensures Inv(Flush(s, generation).state)
  {
    NothingToEmit(s.(flushed := true));
    hide EmitFull, FullBlocks, FinalBlock;
  }

  lemma PerformKeeps(s: State, event: Event)
    requires Inv(s)
    ensures Inv(Perform(s, event).state)
    ensures Perform(s, event).result.Err? ==> Perform(s, event).state == s
  {
    hide EmitFull, Emit, Receive, FullBlocks, FinalBlock;
    match event
    case Pushed(frames, generation) => PushKeeps(s, frames, generation);
    case Flushed(generation) => FlushKeeps(s, generation);
    case Restarted(generation) =>
  }

  /** Over every run of pushes, flushes and resets each frame that went in was
      emitted, waits, or was discarded by a reset. */
  lemma {:induction false} FramesConserved(sourceId: nat, kind: SourceKind, generation: nat, events: seq<Event>)
    ensures
      var s := Run(Fresh(sourceId, kind, generation), events).state;
      s.stats.input == s.stats.output + |s.pending| + s.stats.discarded && |s.pending| < AUDIO_BLOCK_FRAMES
  {
    RunKeeps(Fresh(sourceId, kind, generation), events);
  }

  lemma {:induction false} RunKeeps(s: State, events: seq<Event>)
    requires Inv(s)
    ensures Inv(Run(s, events).state)
    decreases |events|
  {
    if events != [] {
      PerformKeeps(s, events[0]);
      RunKeeps(Perform(s, events[0]).state, events[1..]);
    }
  }

  /** At 48 kHz the native frame of any emitted position is that position. */
  lemma NativeFrameIsExact(s: State, outputFrame: int)
    requires Inv(s)
    ensures NativeFrame(s, outputFrame) == if 0 <= outputFrame <= s.output then Ok(outputFrame)
            else Err(OutsideGeneration)
  {
  }

  // ---- numbering ----

  /** The blocks carry valid frames first .. last - 1 of one source, without gap or overlap. */
  ghost predicate Gapless(key: SourceKey, blocks: seq<AudioBlock>, first: nat, last: nat) {
    if blocks == [] then first == last
    else
      && blocks[0].Valid() && blocks[0].key == key && blocks[0].startFrame == first
      && Gapless(key, blocks[1..], blocks[0].EndFrame(), last)
  }

  lemma {:induction false} GaplessJoin(key: SourceKey, a: seq<AudioBlock>, b: seq<AudioBlock>, first: nat, middle: nat,
                                       last: nat)
    requires Gapless(key, a, first, middle) && Gapless(key, b, middle, last)
    ensures Gapless(key, a + b, first, last)
  {
    if a == [] {
      assert a + b == b;
    } else {
      GaplessJoin(key, a[1..], b, a[0].EndFrame(), middle, last);
      assert (a + b)[1..] == a[1..] + b;
    }
  }

  lemma OneCountLess(frames: seq<Frame>)
    requires |frames| >= AUDIO_BLOCK_FRAMES
    ensures FullCount(frames) == FullCount(frames[AUDIO_BLOCK_FRAMES..]) + 1
    ensures FullFrames(frames) == FullFrames(frames[AUDIO_BLOCK_FRAMES..]) + AUDIO_BLOCK_FRAMES
    ensures Rest(frames) == Rest(frames[AUDIO_BLOCK_FRAMES..])
  {
  }

  /** Cutting the first full block off a stream. */
  lemma FullBlocksStep(key: SourceKey, start: nat, frames: seq<Frame>)
    requires |frames| >= AUDIO_BLOCK_FRAMES
    ensures
      var later := frames[AUDIO_BLOCK_FRAMES..];
      && FullFrames(frames) == FullFrames(later) + AUDIO_BLOCK_FRAMES
      && Rest(frames) == Rest(later)
      && FullBlocks(key, start, frames)
           == [FullBlock(key, start, frames, 0)] + FullBlocks(key, start + AUDIO_BLOCK_FRAMES, later)
  {
    var later := frames[AUDIO_BLOCK_FRAMES..];
    OneCountLess(frames);
    hide FullCount, FullFrames, Rest, FullBlock;
    var cut, tail := FullBlocks(key, start, frames), FullBlocks(key, start + AUDIO_BLOCK_FRAMES, later);
    forall i | 0 <= i < |tail| ensures cut[i + 1] == tail[i] {
    }
    assert cut == [cut[0]] + tail;
  }

  lemma {:induction false} FullBlocksGapless(key: SourceKey, start: nat, frames: seq<Frame>)
    ensures Gapless(key, FullBlocks(key, start, frames), start, start + FullFrames(frames))
    decreases |frames|
  {
    if |frames| >= AUDIO_BLOCK_FRAMES {
      FullBlocksStep(key, start, frames);
      FullBlocksGapless(key, start + AUDIO_BLOCK_FRAMES, frames[AUDIO_BLOCK_FRAMES..]);
    }
  }

  /** One call numbers its blocks on from where the source output stood, so a
      producer that submits them in order always starts at its own cursor. */
  lemma BlocksContinueTheSource(s: State, event: Event)
    requires Inv(s) && !event.Restarted?
    ensures Gapless(s.Key(), Emitted(Perform(s, event)), s.output, Perform(s, event).state.output)
    ensures Perform(s, event).state.Key() == s.Key()
  {
    var outcome := Perform(s, event);
    if outcome.result.Ok? && !s.flushed {
      if event.Pushed? {
        FullBlocksGapless(s.Key(), s.output, s.pending + event.frames);
      } else {
        assert FullBlocks(s.Key(), s.output, s.pending) == [];
        var last := FinalBlock(s.Key(), s.output, s.pending);
        assert Rest(s.pending) == s.pending;
        assert Emitted(outcome) == last;
        if last != [] {
          assert last[1..] == [];
        }
      }
    }
  }

  /** Within one generation any run of pushes and flushes emits frames
      0, 1, 2, ... of the source, gapless over all calls. */
  lemma {:induction false} RunContinuesTheSource(s: State, events: seq<Event>)
    requires Inv(s) && forall i | 0 <= i < |events| :: !events[i].Restarted?
    ensures Gapless(s.Key(), Run(s, events).blocks, s.output, Run(s, events).state.output)
    decreases |events|
  {
    if events != [] {
      var first := Perform(s, events[0]);
      PerformKeeps(s, events[0]);
      BlocksContinueTheSource(s, events[0]);
      RunContinuesTheSource(first.state, events[1..]);
      GaplessJoin(s.Key(), Emitted(first), Run(first.state, events[1..]).blocks, s.output, first.state.output,
                  Run(s, events).state.output);
    }
  }

  // ---- chunking ----

  /** Cutting what has arrived and then the rest is cutting all of it. */
  lemma {:induction false} CutLater(key: SourceKey, start: nat, early: seq<Frame>, late: seq<Frame>)
    ensures Whole(key, start, early + late)
         == FullBlocks(key, start, early) + Whole(key, start + FullFrames(early), Rest(early) + late)
    decreases |early|
  {
    hide Whole, FullBlocks, FullBlock, FullFrames, FullCount, Rest;
    if |early| < AUDIO_BLOCK_FRAMES {
      NothingFull(key, start, early);
      assert [] + Whole(key, start, early + late) == Whole(key, start, early + late);
    } else {
      var later := early[AUDIO_BLOCK_FRAMES..];
      CutLater(key, start + AUDIO_BLOCK_FRAMES, later, late);
      CutFirst(key, start, early, late);
      FullBlocksStep(key, start, early);
      Regroup([FullBlock(key, start, early, 0)], FullBlocks(key, start + AUDIO_BLOCK_FRAMES, later),
              Whole(key, start + FullFrames(early), Rest(early) + late));
    }
  }

  lemma CutFirst(key: SourceKey, start: nat, early: seq<Frame>, late: seq<Frame>)
    requires |early| >= AUDIO_BLOCK_FRAMES
    ensures Whole(key, start, early + late)
         == [FullBlock(key, start, early, 0)]
           + Whole(key, start + AUDIO_BLOCK_FRAMES, early[AUDIO_BLOCK_FRAMES..] + late)
  {
    var all := early + late;
    WholeStep(key, start, all);
    hide Whole;
    assert all[AUDIO_BLOCK_FRAMES..] == early[AUDIO_BLOCK_FRAMES..] + late;
    assert all[..AUDIO_BLOCK_FRAMES] == early[..AUDIO_BLOCK_FRAMES];
  }

  lemma WholeStep(key: SourceKey, start: nat, frames: seq<Frame>)
    requires |frames| >= AUDIO_BLOCK_FRAMES
    ensures Whole(key, start, frames)
         == [FullBlock(key, start, frames, 0)] + Whole(key, start + AUDIO_BLOCK_FRAMES, frames[AUDIO_BLOCK_FRAMES..])
  {
    FullBlocksStep(key, start, frames);
  }

  function Pushes(chunks: seq<seq<Frame>>, generation: nat): seq<Event> {
    seq(|chunks|, i requires 0 <= i < |chunks| => Pushed(chunks[i], generation))
  }

  lemma {:induction false} FlushCutsTheRest(s: State)
    requires Inv(s) && !s.flushed
    ensures Run(s, [Flushed(s.generation)]).blocks == Whole(s.Key(), s.output, s.pending)
  {
    assert [Flushed(s.generation)][1..] == [];
    assert Rest(s.pending) == s.pending;
  }

  lemma {:induction false} PushesThenFlush(s: State, chunks: seq<seq<Frame>>)
    requires Inv(s) && !s.flushed && forall i | 0 <= i < |chunks| :: chunks[i] != []
    ensures Run(s, Pushes(chunks, s.generation) + [Flushed(s.generation)]).blocks
         == Whole(s.Key(), s.output, s.pending + Flatten(chunks))
    decreases |chunks|
  {
    hide *;
    if chunks == [] {
      NoPushes(s.generation);
      FlushCutsTheRest(s);
    } else {
      var events := Pushes(chunks[1..], s.generation) + [Flushed(s.generation)];
      PushesFirst(chunks, s.generation);
      PushThenRest(s, chunks[0], events);
      var next := Push(s, chunks[0], s.generation).state;
      PushesThenFlush(next, chunks[1..]);
      CutLater(s.Key(), s.output, s.pending + chunks[0], Flatten(chunks[1..]));
      FlattenFirst(chunks);
      Regroup(s.pending, chunks[0], Flatten(chunks[1..]));
    }
  }

  lemma NoPushes(generation: nat)
    ensures Pushes([], generation) + [Flushed(generation)] == [Flushed(generation)]
    ensures forall pending: seq<Frame> :: pending + Flatten<Frame>([]) == pending
  {
  }

  lemma PushesFirst(chunks: seq<seq<Frame>>, generation: nat)
    requires chunks != []
    ensures Pushes(chunks, generation) + [Flushed(generation)]
         == [Pushed(chunks[0], generation)] + (Pushes(chunks[1..], generation) + [Flushed(generation)])
  {
  }

  lemma {:induction false} FlattenFirst(chunks: seq<seq<Frame>>)
    requires chunks != []
    ensures Flatten(chunks) == chunks[0] + Flatten(chunks[1..])
  {
  }

  lemma {:induction false} PushThenRest(s: State, chunk: seq<Frame>, events: seq<Event>)
    requires Inv(s) && !s.flushed && chunk != []
    ensures
      var next := Push(s, chunk, s.generation).state;
      && Inv(next) && next.generation == s.generation && !next.flushed && next.Key() == s.Key()
      && next.pending == Rest(s.pending + chunk)
      && next.output == s.output + FullFrames(s.pending + chunk)
      && Run(s, [Pushed(chunk, s.generation)] + events).blocks
      == FullBlocks(s.Key(), s.output, s.pending + chunk) + Run(next, events).blocks
  {
    var all := [Pushed(chunk, s.generation)] + events;
    assert all[1..] == events;
    PerformKeeps(s, all[0]);
  }

  /** However a stream is cut into pushes before the flush, the blocks are those
      of the whole stream. */
  lemma {:induction false} ChunkingDoesNotMatter(sourceId: nat, kind: SourceKind, generation: nat, a: seq<seq<Frame>>,
                                                 b: seq<seq<Frame>>)
    requires forall i | 0 <= i < |a| :: a[i] != []
    requires forall i | 0 <= i < |b| :: b[i] != []
    requires Flatten(a) == Flatten(b)
    ensures
      var s := Fresh(sourceId, kind, generation);
      Run(s, Pushes(a, generation) + [Flushed(generation)]).blocks
        == Run(s, Pushes(b, generation) + [Flushed(generation)]).blocks
  {
    PushesThenFlush(Fresh(sourceId, kind, generation), a);
    PushesThenFlush(Fresh(sourceId, kind, generation), b);
  }

  // ---- resets and counters ----

  /** The same converter but for what it has counted. */
  predicate SameButStats(a: State, b: State) {
    a.(stats := b.stats) == b
  }

  lemma StatsDoNotMatter(a: State, b: State, event: Event)
    requires SameButStats(a, b)
    ensures Perform(a, event).result == Perform(b, event).result
    ensures SameButStats(Perform(a, event).state, Perform(b, event).state)
  {
    hide FullBlocks, FullCount, Rest, FinalBlock;
  }

  lemma {:induction false} StatsNeverMatter(a: State, b: State, events: seq<Event>)
    requires SameButStats(a, b)
    ensures Run(a, events).blocks == Run(b, events).blocks
    decreases |events|
  {
    if events != [] {
      StatsDoNotMatter(a, b, events[0]);
      StatsNeverMatter(Perform(a, events[0]).state, Perform(b, events[0]).state, events[1..]);
    }
  }

  /** After a reset the converter emits what a new one of that generation would. */
  lemma {:induction false} ResetStartsOver(s: State, generation: nat, events: seq<Event>)
    requires generation > s.generation
    ensures Run(Reset(s, generation).state, events).blocks
         == Run(Fresh(s.sourceId, s.kind, generation), events).blocks
  {
    StatsNeverMatter(Reset(s, generation).state, Fresh(s.sourceId, s.kind, generation), events);
  }

  /** Which calls are refused, and with which error. */
  lemma RefusedExactly(s: State, event: Event)
    ensures
      var result := Perform(s, event).result;
      match event
      case Pushed(frames, generation) =>
        && (result.Ok? <==> generation == s.generation && !s.flushed && frames != [])
        && (result == Err(WrongGeneration) <==> generation != s.generation)
        && (result == Err(AlreadyFlushed) <==> generation == s.generation && s.flushed)
      case Flushed(generation) =>
        && (result.Ok? <==> generation == s.generation) && (result.Err? ==> result == Err(WrongGeneration))
        && (result.Ok? ==> Perform(s, event).state.flushed)
      case Restarted(generation) =>
        && (result.Ok? <==> generation > s.generation) && (result.Err? ==> result == Err(GenerationNotNewer))
        && (result.Ok? ==> Perform(s, event).state.generation == generation && !Perform(s, event).state.flushed)
  {
    hide FullBlocks, FullCount, Rest, FinalBlock;
  }

  /** The valid frames of some blocks. */
  function FramesIn(blocks: seq<AudioBlock>): nat {
    if blocks == [] then 0 else blocks[0].validFrames + FramesIn(blocks[1..])
  }

  lemma {:induction false} GaplessFrames(key: SourceKey, blocks: seq<AudioBlock>, first: nat, last: nat)
    requires Gapless(key, blocks, first, last)
    ensures last == first + FramesIn(blocks)
    decreases |blocks|
  {
    if blocks != [] {
      GaplessFrames(key, blocks[1..], blocks[0].EndFrame(), last);
    }
  }

  lemma {:induction false} FramesInAppend(a: seq<AudioBlock>, b: seq<AudioBlock>)
    ensures FramesIn(a + b) == FramesIn(a) + FramesIn(b)
  {
    if a == [] {
      assert a + b == b;
    } else {
      FramesInAppend(a[1..], b);
      assert (a + b)[1..] == a[1..] + b;
    }
  }

  /** What one call adds to the counters. */
  lemma CallCounts(s: State, event: Event)
    requires Inv(s)
    ensures
      var outcome := Perform(s, event);
      var before, after := s.stats, outcome.state.stats;
      && after.blocks == before.blocks + |Emitted(outcome)|
      && after.output == before.output + FramesIn(Emitted(outcome))
      && after.input == before.input + (if event.Pushed? && outcome.result.Ok? then |event.frames| else 0)
      && after.resets == before.resets + (if event.Restarted? && outcome.result.Ok? then 1 else 0)
      && after.discarded == before.discarded + (if event.Restarted? && outcome.result.Ok? then |s.pending| else 0)
  {
    if event.Restarted? {
      assert FramesIn([]) == 0;
    } else {
      BlocksContinueTheSource(s, event);
      GaplessFrames(s.Key(), Emitted(Perform(s, event)), s.output, Perform(s, event).state.output);
      hide FullBlocks, FullCount, Rest, FinalBlock, Gapless, FramesIn;
    }
  }

  /** Over every run the counters are the blocks and frames that were emitted. */
  lemma {:induction false} CountersAreEmitted(sourceId: nat, kind: SourceKind, generation: nat, events: seq<Event>)
    ensures
      var run := Run(Fresh(sourceId, kind, generation), events);
      run.state.stats.blocks == |run.blocks| && run.state.stats.output == FramesIn(run.blocks)
  {
    RunCounts(Fresh(sourceId, kind, generation), events);
  }

  lemma {:induction false} RunCounts(s: State, events: seq<Event>)
    requires Inv(s)
    ensures Run(s, events).state.stats.blocks == s.stats.blocks + |Run(s, events).blocks|
    ensures Run(s, events).state.stats.output == s.stats.output + FramesIn(Run(s, events).blocks)
    decreases |events|
  {
    if events == [] {
      assert FramesIn([]) == 0;
    } else {
      CallCounts(s, events[0]);
      PerformKeeps(s, events[0]);
      RunCounts(Perform(s, events[0]).state, events[1..]);
      FramesInAppend(Emitted(Perform(s, events[0])), Run(Perform(s, events[0]).state, events[1..]).blocks);
      hide Perform, FramesIn, Emitted;
    }
  }

  // ---- the blocks of a whole stream carry exactly its frames ----

  ghost predicate Carries(key: SourceKey, start: nat, frames: seq<Frame>, blocks: seq<AudioBlock>) {
    && Replay.Packed([SourceSlice(key, start, 0, frames)], blocks)
    && (blocks != [] ==> blocks[0].startFrame == start)
    && forall i | 0 <= i < |blocks| - 1 :: blocks[i].validFrames == AUDIO_BLOCK_FRAMES
  }

  lemma OneSlice(slice: SourceSlice)
    ensures Replay.SliceFrames([slice]) == Replay.Key(slice.key, slice.Stream())
  {
    assert [slice][1..] == [];
  }

  lemma FinalCarries(key: SourceKey, start: nat, frames: seq<Frame>)
    requires |frames| < AUDIO_BLOCK_FRAMES
    ensures Carries(key, start, frames, FinalBlock(key, start, frames))
  {
    var blocks := FinalBlock(key, start, frames);
    OneSlice(SourceSlice(key, start, 0, frames));
    if frames != [] {
      Replay.BlockFramesOne(blocks[0]);
      assert blocks[0].samples[..|frames|] == frames;
    }
  }

  /** Same frames, same numbers, valid blocks, and only the last one partial:
      the same packing that a replay of the whole stream would get. */
  lemma {:induction false} WholeCarries(key: SourceKey, start: nat, frames: seq<Frame>)
    ensures Carries(key, start, frames, Whole(key, start, frames))
    decreases |frames|
  {
    hide Whole, FullBlocks, FullBlock, FullFrames, FullCount, Rest, FinalBlock, Carries;
    if |frames| < AUDIO_BLOCK_FRAMES {
      FinalCarries(key, start, frames);
      ShortWhole(key, start, frames);
    } else {
      var later := frames[AUDIO_BLOCK_FRAMES..];
      WholeCarries(key, start + AUDIO_BLOCK_FRAMES, later);
      WholeStep(key, start, frames);
      FullThenCarries(key, start, frames, Whole(key, start + AUDIO_BLOCK_FRAMES, later));
    }
  }

  lemma ShortWhole(key: SourceKey, start: nat, frames: seq<Frame>)
    requires |frames| < AUDIO_BLOCK_FRAMES
    ensures Whole(key, start, frames) == FinalBlock(key, start, frames)
  {
    NothingFull(key, start, frames);
  }

  lemma FullThenCarries(key: SourceKey, start: nat, frames: seq<Frame>, tail: seq<AudioBlock>)
    requires |frames| >= AUDIO_BLOCK_FRAMES
    requires Carries(key, start + AUDIO_BLOCK_FRAMES, frames[AUDIO_BLOCK_FRAMES..], tail)
    ensures Carries(key, start, frames, [FullBlock(key, start, frames, 0)] + tail)
  {
    var head, later := FullBlock(key, start, frames, 0), frames[AUDIO_BLOCK_FRAMES..];
    OneSlice(SourceSlice(key, start, 0, frames));
    OneSlice(SourceSlice(key, start + AUDIO_BLOCK_FRAMES, 0, later));
    Replay.BlockFramesOne(head);
    Replay.BlockFramesAppend([head], tail);
    assert frames == frames[..AUDIO_BLOCK_FRAMES] + later;
    assert head.samples[..AUDIO_BLOCK_FRAMES] == frames[..AUDIO_BLOCK_FRAMES];
  }
}
