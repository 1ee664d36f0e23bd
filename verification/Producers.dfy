/** Why every fresh block starts at its source's accepted cursor: converters
    number blocks from their own counters, lanes keep their order, and the two
    counts agree. */
module Producers {
  import opened Common
  import opened AudioModels
  import opened LedgerSpec
  import opened ReplayPlan
  import opened Playout
  import ConverterSpec

  /** The block of one source that an event writes fresh. */
  function WrittenBlock(event: Event, key: SourceKey): seq<AudioBlock> {
    if event.Write? && event.pair.Lane(key.kind).Some? && event.pair.Lane(key.kind).value.key == key
    then [event.pair.Lane(key.kind).value]
    else []
  }

  function WrittenBy(events: seq<Event>, key: SourceKey): seq<AudioBlock> {
    if events == [] then [] else WrittenBy(events[..|events| - 1], key) + WrittenBlock(events[|events| - 1], key)
  }

  function Frames(blocks: seq<AudioBlock>): nat {
    if blocks == [] then 0 else Frames(blocks[..|blocks| - 1]) + blocks[|blocks| - 1].validFrames
  }

  /** What can happen on the bus whatever number a fresh block starts at. */
  ghost predicate Possible(bus: Bus, event: Event) {
    match event
    case Write(pair, output) => !bus.flushing && pair.Valid() && Register(bus.ledger, Mix(pair, output)).result.Ok?
    case _ => Enabled(bus, event)
  }

  /** Where an event leads, for a write at any number. */
  ghost function Reached(bus: Bus, event: Event): Bus
    requires Possible(bus, event)
  {
    match event
    case Write(pair, output) =>
      bus.(ledger := Register(bus.ledger, Mix(pair, output)).state,
           fed := Feed(bus.(fed := Feed(bus, pair.music)), pair.voice))
    case _ => After(bus, event)
  }

  ghost predicate PossibleRun(states: seq<Bus>, events: seq<Event>) {
    && |states| == |events| + 1
    && forall i {:trigger events[i]} | 0 <= i < |events| ::
         Possible(states[i], events[i]) && states[i + 1] == Reached(states[i], events[i])
  }

  /** The writes of a source are what its converter emitted, in order and without
      a hole, and end when the source is released or discarded. */
  ghost predicate FedByConverter(events: seq<Event>, key: SourceKey, calls: seq<ConverterSpec.Event>) {
    && (forall i | 0 <= i < |calls| :: !calls[i].Restarted?)
    && WrittenBy(events, key)
       <= ConverterSpec.Run(ConverterSpec.Fresh(key.sourceId, key.kind, key.generation), calls).blocks
    && forall i, j | 0 <= i < j < |events| && !Spares(events[i], key) :: WrittenBlock(events[j], key) == []
  }

  ghost predicate HasConverter(events: seq<Event>, key: SourceKey) {
    exists calls: seq<ConverterSpec.Event> :: FedByConverter(events, key, calls)
  }

  ghost predicate AllFedByConverters(events: seq<Event>) {
    forall key: SourceKey :: HasConverter(events, key)
  }

  lemma {:induction false} GaplessStart(key: SourceKey, blocks: seq<AudioBlock>, first: nat, last: nat, m: nat)
    requires ConverterSpec.Gapless(key, blocks, first, last) && m < |blocks|
    ensures blocks[m].startFrame == first + Frames(blocks[..m])
    decreases |blocks|
  {
    if m > 0 {
      GaplessStart(key, blocks[1..], blocks[0].EndFrame(), last, m - 1);
      FramesFirst(blocks[..m]);
      assert blocks[..m][1..] == blocks[1..][..m - 1];
    }
  }

  lemma {:induction false} FramesFirst(blocks: seq<AudioBlock>)
    requires blocks != []
    ensures Frames(blocks) == blocks[0].validFrames + Frames(blocks[1..])
    decreases |blocks|
  {
    if |blocks| > 1 {
      FramesFirst(blocks[..|blocks| - 1]);
      assert blocks[..|blocks| - 1][1..] == blocks[1..][..|blocks| - 2];
    } else {
      assert blocks[..0] == [] == blocks[1..];
    }
  }

  lemma {:induction false} FramesMore(blocks: seq<AudioBlock>, block: AudioBlock)
    ensures Frames(blocks + [block]) == Frames(blocks) + block.validFrames
  {
    assert (blocks + [block])[..|blocks|] == blocks;
  }

  /** One event adds to a spared source exactly the frames it writes of it. */
  lemma StepFeeds(bus: Bus, event: Event, key: SourceKey)
    requires Enabled(bus, event) && Spares(event, key) && key !in bus.discarding
    ensures key !in After(bus, event).discarding
    ensures |FedTo(After(bus, event), key)| == |FedTo(bus, key)| + Frames(WrittenBlock(event, key))
  {
    match event
    case Write(pair, output) =>
      WriteFeeds(bus, pair, output, key);
      WrittenFrames(bus, pair, output, key);
    case _ =>
  }

  lemma WrittenFrames(bus: Bus, pair: BlockPair, output: seq<Frame>, key: SourceKey)
    requires pair.Valid()
    ensures
      var slice := NewEntry(bus.ledger, Mix(pair, output)).SliceOf(key);
      Frames(WrittenBlock(Write(pair, output), key)) == if slice.Some? then |slice.value.samples| else 0
  {
    var written := WrittenBlock(Write(pair, output), key);
    if written != [] {
      assert written[..0] == [];
    }
  }

  lemma {:induction false} FedIsWritten(states: seq<Bus>, events: seq<Event>, key: SourceKey)
    requires IsRun(states, events) && FedTo(states[0], key) == [] && key !in states[0].discarding
    requires forall i | 0 <= i < |events| :: Spares(events[i], key)
    ensures key !in states[|events|].discarding
    ensures |FedTo(states[|events|], key)| == Frames(WrittenBy(events, key))
    decreases |events|
  {
    hide Enabled, After, Spares, FedTo;
    if events != [] {
      var n := |events| - 1;
      FedIsWritten(states[..|events|], events[..n], key);
      StepFeeds(states[n], events[n], key);
      var more := WrittenBlock(events[n], key);
      if more == [] {
        assert WrittenBy(events, key) == WrittenBy(events[..n], key);
        assert Frames(more) == 0;
      } else {
        FramesMore(WrittenBy(events[..n], key), more[0]);
        FramesMore([], more[0]);
        assert more == [more[0]] == [] + [more[0]];
      }
    }
  }

  /** The next block a converter gives out starts where its source was accepted. */
  lemma NextBlockAtCursor(window: nat, states: seq<Bus>, events: seq<Event>, next: Event, key: SourceKey,
                          calls: seq<ConverterSpec.Event>)
    requires AUDIO_BLOCK_FRAMES <= window && IsRun(states, events) && states[0] == Start(window)
    requires FedByConverter(events + [next], key, calls) && WrittenBlock(next, key) != []
    ensures WrittenBlock(next, key)[0].startFrame == ProgressOf(states[|events|].ledger.sources, key).accepted
  {
    var all := events + [next];
    assert all[..|events|] == events && all[|events|] == next;
    forall i | 0 <= i < |events| ensures Spares(events[i], key) {
      assert all[i] == events[i];
    }
    FedIsWritten(states, events, key);
    CursorsAreTruthful(window, states, events, key);
    var converter := ConverterSpec.Fresh(key.sourceId, key.kind, key.generation);
    var blocks, m := ConverterSpec.Run(converter, calls).blocks, |WrittenBy(events, key)|;
    ConverterSpec.RunContinuesTheSource(converter, calls);
    GaplessStart(key, blocks, 0, ConverterSpec.Run(converter, calls).state.output, m);
    assert WrittenBy(all, key) == WrittenBy(events, key) + WrittenBlock(next, key);
    assert blocks[..m] == WrittenBy(events, key) && blocks[m] == WrittenBlock(next, key)[0];
  }

  lemma OneLess(events: seq<Event>, key: SourceKey, calls: seq<ConverterSpec.Event>)
    requires events != [] && FedByConverter(events, key, calls)
    ensures FedByConverter(events[..|events| - 1], key, calls)
  {
    hide WrittenBlock, ConverterSpec.Run, Spares;
    assert WrittenBy(events[..|events| - 1], key) <= WrittenBy(events, key);
  }

  /** When every source is fed by its converter, the guard that a fresh write
      starts at its accepted cursor rules nothing out: every possible run is a
      run, so its cursors are truthful. */
  lemma {:induction false} ConvertersKeepTheGuard(window: nat, states: seq<Bus>, events: seq<Event>)
    requires AUDIO_BLOCK_FRAMES <= window && PossibleRun(states, events) && states[0] == Start(window)
    requires AllFedByConverters(events)
    ensures IsRun(states, events)
    decreases |events|
  {
    if events != [] {
      var n := |events| - 1;
      PossibleBefore(states, events);
      FedByConvertersBefore(events);
      hide Possible, Enabled, After, Reached, AllFedByConverters, PossibleRun, Start;
      ConvertersKeepTheGuard(window, states[..|events|], events[..n]);
      LastIsEnabled(window, states[..|events|], events[..n], events[n]);
      ReachedIsAfter(states[n], events[n]);
      RunGrows(states, events);
    }
  }

  lemma PossibleBefore(states: seq<Bus>, events: seq<Event>)
    requires events != [] && PossibleRun(states, events)
    ensures PossibleRun(states[..|events|], events[..|events| - 1])
    ensures
      var n := |events| - 1;
      && states[..|events|][0] == states[0] && events[..n] + [events[n]] == events
      && Possible(states[n], events[n])
      && states[n + 1] == Reached(states[n], events[n])
  {
    hide Possible, Enabled, After, Reached;
  }

  lemma ReachedIsAfter(bus: Bus, event: Event)
    requires Possible(bus, event) && Enabled(bus, event)
    ensures Reached(bus, event) == After(bus, event)
  {
  }

  lemma RunGrows(states: seq<Bus>, events: seq<Event>)
    requires events != [] && |states| == |events| + 1 && IsRun(states[..|events|], events[..|events| - 1])
    requires
      var n := |events| - 1;
      Enabled(states[n], events[n]) && states[n + 1] == After(states[n], events[n])
    ensures IsRun(states, events)
  {
    hide Enabled, After;
    var n := |events| - 1;
    forall i | 0 <= i < |events| ensures Enabled(states[i], events[i]) && states[i + 1] == After(states[i], events[i]) {
      if i < n {
        assert events[..n][i] == events[i] && states[..|events|][i] == states[i]
          && states[..|events|][i + 1] == states[i + 1];
      }
    }
  }

  lemma HasConverterBefore(events: seq<Event>, key: SourceKey)
    requires events != [] && HasConverter(events, key)
    ensures HasConverter(events[..|events| - 1], key)
  {
    hide FedByConverter;
    var calls: seq<ConverterSpec.Event> :| FedByConverter(events, key, calls);
    OneLess(events, key, calls);
  }

  lemma FedByConvertersBefore(events: seq<Event>)
    requires events != [] && AllFedByConverters(events)
    ensures AllFedByConverters(events[..|events| - 1])
  {
    hide FedByConverter;
    var fewer := events[..|events| - 1];
    forall key: SourceKey ensures HasConverter(fewer, key) {
      HasConverterBefore(events, key);
    }
  }

  lemma LastIsEnabled(window: nat, states: seq<Bus>, events: seq<Event>, next: Event)
    requires AUDIO_BLOCK_FRAMES <= window && IsRun(states, events) && states[0] == Start(window)
    requires AllFedByConverters(events + [next]) && Possible(states[|events|], next)
    ensures Enabled(states[|events|], next)
  {
    hide Enabled, After, FedByConverter, Register;
    if next.Write? {
      forall kind | next.pair.Lane(kind).Some?
        ensures next.pair.Lane(kind).value.startFrame
             == ProgressOf(states[|events|].ledger.sources, next.pair.Lane(kind).value.key).accepted
      {
        var key := next.pair.Lane(kind).value.key;
        assert HasConverter(events + [next], key);
        var calls: seq<ConverterSpec.Event> :| FedByConverter(events + [next], key, calls);
        NextBlockAtCursor(window, states, events, next, key, calls);
      }
      WriteEnabled(states[|events|], next);
    }
  }

  lemma WriteEnabled(bus: Bus, write: Event)
    requires write.Write? && Possible(bus, write)
    requires forall kind | write.pair.Lane(kind).Some? ::
               write.pair.Lane(kind).value.startFrame
               == ProgressOf(bus.ledger.sources, write.pair.Lane(kind).value.key).accepted
    ensures Enabled(bus, write)
  {
    assert write.pair.Lane(SourceKind.Music) == write.pair.music
      && write.pair.Lane(SourceKind.Voice) == write.pair.voice;
  }
}
