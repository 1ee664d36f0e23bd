/** Whole runs of the bus over the ledger: fresh writes, acknowledgements,
    observations, and flushes that replay what was never heard. */
module Playout {
  import opened Common
  import opened AudioModels
  import opened LedgerSpec
  import opened LedgerInvariant
  import opened LedgerObservation
  import opened ReplayPlan
  import opened Streams

  // ---- one source, one operation ----

  /** The ledger tells the truth about one source. Of everything ever fed to it,
      the frames below the rendered cursor were heard, in order and once each,
      and exactly the rest is still waiting: in the ledger's entries, then in
      the replay writes that are left. */
  ghost predicate Truth(s: LedgerState, left: seq<Numbered>, fed: seq<Frame>, heard: seq<Numbered>, key: SourceKey) {
    var progress := ProgressOf(s.sources, key);
    && |fed| == progress.accepted
    && progress.rendered <= progress.accepted
    && heard == NumberFrom(0, fed)[..progress.rendered]
    && Unheard(s.entries, key, s.rendered) + left == NumberFrom(0, fed)[progress.rendered..]
  }

  lemma LanesFromInv(s: LedgerState)
    requires Inv(s)
    ensures LanesOk(s.entries)
  {
    forall i | 0 <= i < |s.entries|
      ensures LaneOk(s.entries[i].music, SourceKind.Music) && LaneOk(s.entries[i].voice, SourceKind.Voice)
    {
      assert Accounted(s.entries[i], s.sources, s.rendered);
    }
  }

  lemma UntrackedSilent(s: LedgerState, key: SourceKey)
    requires Inv(s) && key !in s.sources
    ensures forall i | 0 <= i < |s.entries| :: s.entries[i].SliceOf(key).None?
  {
    forall i | 0 <= i < |s.entries| ensures s.entries[i].SliceOf(key).None? {
      assert Accounted(s.entries[i], s.sources, s.rendered);
    }
  }

  /** Entries after reconciliation hold exactly the frames not yet heard. */
  lemma {:induction false} ReconcileStreams(s: LedgerState, cursor: MasterCursor, allowPending: bool, key: SourceKey)
    requires Inv(s) && Reconcile(s, cursor, allowPending).result.Ok?
    ensures s.rendered <= cursor.rendered
    ensures HeardBetween(s.entries, key, s.rendered, cursor.rendered)
              + Unheard(Reconcile(s, cursor, allowPending).state.entries, key, cursor.rendered)
         == Unheard(s.entries, key, s.rendered)
  {
    var marked := MarkAccepted(s.entries, cursor.accepted);
    MarkKeeps(s, cursor.accepted);
    LanesFromInv(s.(entries := marked));
    ReconcileCases(s, cursor, allowPending);
    HeardThenUnheard(marked, s.FirstStart(), s.next, key, s.rendered, cursor.rendered);
    UnheardAfterDrop(marked, s.FirstStart(), s.next, key, cursor.rendered);
    MarkAcceptedSameAudio(s.entries, cursor.accepted);
    SameAudioStreams(marked, s.entries, key, s.rendered, cursor.rendered);
  }

  /** The rendered cursor moves one past the last frame newly heard, whatever
      gaps the numbers have, as long as they only go up. */
  lemma {:induction false} ReconcileReach(s: LedgerState, cursor: MasterCursor, allowPending: bool, left: seq<Numbered>,
                                          key: SourceKey)
    requires Inv(s) && Reconcile(s, cursor, allowPending).result.Ok? && s.rendered <= cursor.rendered
    requires Rising(Unheard(s.entries, key, s.rendered) + left, ProgressOf(s.sources, key).rendered)
    ensures
      var before := ProgressOf(s.sources, key);
      ProgressOf(Reconcile(s, cursor, allowPending).state.sources, key)
        == Progress(before.accepted,
                    EndNumber(HeardBetween(s.entries, key, s.rendered, cursor.rendered), before.rendered))
  {
    var rendered := ProgressOf(s.sources, key).rendered;
    LanesFromInv(s);
    forall i | 0 <= i < |s.entries| ensures EntryReach(s.entries[i], key, s.rendered) <= rendered {
      assert Accounted(s.entries[i], s.sources, s.rendered);
    }
    ReachIsLastHeard(s.entries, s.FirstStart(), s.next, key, s.rendered, cursor.rendered, rendered, left);
    MarkAcceptedSameAudio(s.entries, cursor.accepted);
    SameAudioReach(MarkAccepted(s.entries, cursor.accepted), s.entries, key, cursor.rendered);
    ReconcileCases(s, cursor, allowPending);
    if key !in s.sources {
      UntrackedSilent(s, key);
      ReachBounded(s.entries, key, cursor.rendered, 0);
    }
    if cursor.rendered == s.rendered {
      ReachBounded(s.entries, key, s.rendered, rendered);
    }
  }

  lemma {:induction false} ReconcileProgress(s: LedgerState, cursor: MasterCursor, allowPending: bool,
                                             left: seq<Numbered>, key: SourceKey)
    requires Inv(s) && Reconcile(s, cursor, allowPending).result.Ok? && s.rendered <= cursor.rendered
    requires ConsecutiveFrom(Unheard(s.entries, key, s.rendered) + left, ProgressOf(s.sources, key).rendered)
    ensures
      var before := ProgressOf(s.sources, key);
      ProgressOf(Reconcile(s, cursor, allowPending).state.sources, key)
        == Progress(before.accepted, before.rendered + |HeardBetween(s.entries, key, s.rendered, cursor.rendered)|)
  {
    hide Inv, Reconcile;
    ReconcileReach(s, cursor, allowPending, left, key);
    ReconcileStreams(s, cursor, allowPending, key);
    var heard, unheard := HeardBetween(s.entries, key, s.rendered, cursor.rendered),
      Unheard(s.entries, key, s.rendered);
    if heard != [] {
      assert (unheard + left)[|heard| - 1] == heard[|heard| - 1];
    }
  }

  lemma {:induction false} TruthIsConsecutive(s: LedgerState, left: seq<Numbered>, fed: seq<Frame>,
                                              heard: seq<Numbered>, key: SourceKey)
    requires Truth(s, left, fed, heard, key)
    ensures ConsecutiveFrom(Unheard(s.entries, key, s.rendered) + left, ProgressOf(s.sources, key).rendered)
  {
  }

  lemma MoveBoundary(stream: seq<Numbered>, at: nat, moved: seq<Numbered>, rest: seq<Numbered>)
    requires at <= |stream| && moved + rest == stream[at..]
    ensures at + |moved| <= |stream|
    ensures stream[..at] + moved == stream[..at + |moved|] && rest == stream[at + |moved|..]
  {
    assert moved == stream[at..][..|moved|] && rest == stream[at..][|moved|..];
  }

  /** Moving the master cursor keeps the truth about every source. */
  lemma {:induction false} ReconcileTruth(s: LedgerState, cursor: MasterCursor, allowPending: bool, left: seq<Numbered>,
                                          fed: seq<Frame>, heard: seq<Numbered>, key: SourceKey)
    requires Inv(s) && Reconcile(s, cursor, allowPending).result.Ok? && Truth(s, left, fed, heard, key)
    ensures s.rendered <= cursor.rendered
    ensures Truth(Reconcile(s, cursor, allowPending).state, left, fed,
                  heard + HeardBetween(s.entries, key, s.rendered, cursor.rendered), key)
  {
    hide Inv, Unheard, HeardBetween, Reconcile, NumberFrom;
    ReconcileStreams(s, cursor, allowPending, key);
    TruthIsConsecutive(s, left, fed, heard, key);
    ReconcileProgress(s, cursor, allowPending, left, key);
    ReconcileCases(s, cursor, allowPending);
    var done := Reconcile(s, cursor, allowPending).state;
    var moved := HeardBetween(s.entries, key, s.rendered, cursor.rendered);
    var unheard := Unheard(done.entries, key, cursor.rendered);
    assert moved + (unheard + left) == (moved + unheard) + left;
    MoveBoundary(NumberFrom(0, fed), ProgressOf(s.sources, key).rendered, moved, unheard + left);
  }

  /** What accepting one block does to one source's cursors. */
  lemma NoteOneSource(s: LedgerState, mixed: MixedBlock, key: SourceKey)
    requires mixed.Valid()
    ensures
      var (noted, ok) := NoteAll(s.sources, NewEntry(s, mixed).Sources());
      var before := ProgressOf(s.sources, key);
      ok ==> ProgressOf(noted, key) == match NewEntry(s, mixed).SliceOf(key)
                                       case None => before
                                       case Some(slice) => Progress(Max(before.accepted, slice.EndFrame()),
                                                                    before.rendered)
  {
    NoteUnrolled(s, mixed);
  }

  lemma NoteUnrolled(s: LedgerState, mixed: MixedBlock)
    ensures
      var entry := NewEntry(s, mixed);
      var first := if mixed.music.Some? then NoteAccepted(s.sources, mixed.music.value) else (s.sources, true);
      var second := if mixed.voice.Some? && first.1 then NoteAccepted(first.0, mixed.voice.value) else first;
      NoteAll(s.sources, entry.Sources()) == second
  {
    if mixed.music.Some? && mixed.voice.Some? {
      var slices := [mixed.music.value, mixed.voice.value];
      assert NewEntry(s, mixed).Sources() == slices;
      assert slices[1..] == [mixed.voice.value];
      NoteSingle(NoteAccepted(s.sources, mixed.music.value).0, mixed.voice.value);
    } else if mixed.music.Some? {
      assert NewEntry(s, mixed).Sources() == [mixed.music.value];
      NoteSingle(s.sources, mixed.music.value);
    } else if mixed.voice.Some? {
      assert NewEntry(s, mixed).Sources() == [mixed.voice.value];
      NoteSingle(s.sources, mixed.voice.value);
    }
  }

  lemma {:induction false} NoteSingle(sources: SourceTable, slice: SourceSlice)
    ensures NoteAll(sources, [slice]) == NoteAccepted(sources, slice)
  {
    assert [slice][1..] == [];
  }

  /** No gap, no refusal: with no write pending a canonical block whose slices
      start at or below their accepted cursors is refused only for lack of room. */
  lemma NoGapNoRefusal(s: LedgerState, mixed: MixedBlock)
    requires mixed.Valid()
    requires mixed.music.Some? ==> mixed.music.value.startFrame <= ProgressOf(s.sources, mixed.music.value.key).accepted
    requires mixed.voice.Some? ==> mixed.voice.value.startFrame <= ProgressOf(s.sources, mixed.voice.value.key).accepted
    ensures NoteAll(s.sources, NewEntry(s, mixed).Sources()).1
    ensures s.pending.None? && |mixed.output| == AUDIO_BLOCK_FRAMES ==>
              (Register(s, mixed).result.Ok? <==> s.Unrendered() + AUDIO_BLOCK_FRAMES <= s.window)
              && (Register(s, mixed).result.Err? ==> Register(s, mixed) == Outcome(s, Err(WindowFull)))
  {
    NoteUnrolled(s, mixed);
  }

  /** Registering a block that does not carry a source leaves its truth alone. */
  lemma RegisterOtherTruth(s: LedgerState, mixed: MixedBlock, left: seq<Numbered>, fed: seq<Frame>,
                           heard: seq<Numbered>, key: SourceKey)
    requires Inv(s) && mixed.Valid() && Register(s, mixed).result.Ok?
    requires Truth(s, left, fed, heard, key) && NewEntry(s, mixed).SliceOf(key).None?
    ensures Truth(Register(s, mixed).state, left, fed, heard, key)
  {
    NoteOneSource(s, mixed, key);
    UnheardAppend(s.entries, NewEntry(s, mixed), key, s.rendered);
  }

  /** What registering a block of a source does to that source. */
  lemma {:induction false} RegisteredSource(s: LedgerState, mixed: MixedBlock, slice: SourceSlice, key: SourceKey)
    requires Inv(s) && mixed.Valid() && Register(s, mixed).result.Ok?
    requires NewEntry(s, mixed).SliceOf(key) == Some(slice)
    ensures
      var before, after := ProgressOf(s.sources, key), Register(s, mixed).state;
      && slice.key == key && |slice.samples| > 0
      && after.rendered == s.rendered
      && ProgressOf(after.sources, key) == Progress(Max(before.accepted, slice.EndFrame()), before.rendered)
      && Unheard(after.entries, key, after.rendered) == Unheard(s.entries, key, s.rendered) + slice.Stream()
  {
    NoteOneSource(s, mixed, key);
    UnheardAppend(s.entries, NewEntry(s, mixed), key, s.rendered);
  }

  /** Registering the next replay write moves its frames from the waiting writes into the ledger. */
  lemma RegisterReplayTruth(s: LedgerState, mixed: MixedBlock, slice: SourceSlice, left: seq<Numbered>, fed: seq<Frame>,
                            heard: seq<Numbered>, key: SourceKey)
    requires Inv(s) && mixed.Valid() && Register(s, mixed).result.Ok?
    requires NewEntry(s, mixed).SliceOf(key) == Some(slice)
    requires Truth(s, slice.Stream() + left, fed, heard, key)
    ensures Truth(Register(s, mixed).state, left, fed, heard, key)
  {
    RegisteredSource(s, mixed, slice, key);
    hide Register, Inv, NewEntry, Unheard, NumberFrom;
    ReplayedBelow(s, slice, left, fed, heard, key);
    Regroup(Unheard(s.entries, key, s.rendered), slice.Stream(), left);
  }

  /** A waiting replay slice lies wholly below its source's accepted cursor. */
  lemma ReplayedBelow(s: LedgerState, slice: SourceSlice, left: seq<Numbered>, fed: seq<Frame>, heard: seq<Numbered>,
                      key: SourceKey)
    requires Truth(s, slice.Stream() + left, fed, heard, key) && |slice.samples| > 0
    ensures slice.startFrame < slice.EndFrame() <= ProgressOf(s.sources, key).accepted
  {
    var unheard := Unheard(s.entries, key, s.rendered);
    var rest := unheard + (slice.Stream() + left);
    var rendered := ProgressOf(s.sources, key).rendered;
    var last := |slice.samples| - 1;
    assert rest == NumberFrom(0, fed)[rendered..];
    assert rest[|unheard| + last] == slice.Stream()[last];
    assert rest[|unheard| + last].number == rendered + |unheard| + last;
  }

  lemma GrowStream(fed: seq<Frame>, more: seq<Frame>, at: nat)
    requires at <= |fed|
    ensures NumberFrom(0, fed + more)[..at] == NumberFrom(0, fed)[..at]
    ensures NumberFrom(0, fed + more)[at..] == NumberFrom(0, fed)[at..] + NumberFrom(|fed|, more)
  {
    NumberFromAppend(0, fed, more);
  }

  /** A fresh block keeps the truth exactly when it starts at its source's
      accepted cursor: a later start is refused, an earlier one repeats frames. */
  lemma RegisterFreshTruth(s: LedgerState, mixed: MixedBlock, slice: SourceSlice, fed: seq<Frame>, heard: seq<Numbered>,
                           key: SourceKey)
    requires Inv(s) && mixed.Valid() && Register(s, mixed).result.Ok?
    requires NewEntry(s, mixed).SliceOf(key) == Some(slice)
    requires Truth(s, [], fed, heard, key)
    ensures slice.startFrame == |fed| <==> Truth(Register(s, mixed).state, [], fed + slice.samples, heard, key)
  {
    RegisteredSource(s, mixed, slice, key);
    hide Register, Inv, NewEntry, NumberFrom, Unheard;
    var rendered := ProgressOf(s.sources, key).rendered;
    GrowStream(fed, slice.samples, rendered);
    var unheard := Unheard(s.entries, key, s.rendered);
    assert unheard == NumberFrom(0, fed)[rendered..] by { assert unheard + [] == unheard; }
    SameTail(unheard, slice.Stream(), NumberFrom(|fed|, slice.samples));
    SameStart(slice.startFrame, |fed|, slice.samples);
  }

  lemma SameTail(front: seq<Numbered>, a: seq<Numbered>, b: seq<Numbered>)
    ensures front + a + [] == front + b <==> a == b
  {
    if front + a + [] == front + b {
      assert a == (front + a + [])[|front|..] && b == (front + b)[|front|..];
    }
  }

  lemma SameStart(a: nat, b: nat, samples: seq<Frame>)
    requires |samples| > 0
    ensures NumberFrom(a, samples) == NumberFrom(b, samples) <==> a == b
  {
    assert NumberFrom(a, samples)[0].number == a && NumberFrom(b, samples)[0].number == b;
  }

  // ---- the bus ----

  datatype Bus = Bus(ledger: LedgerState, flushing: bool, replays: seq<BlockPair>, discarding: set<SourceKey>,
                     fed: map<SourceKey, seq<Frame>>, heard: map<SourceKey, seq<Numbered>>)

  function FedTo(bus: Bus, key: SourceKey): seq<Frame> {
    if key in bus.fed then bus.fed[key] else []
  }

  function HeardOf(bus: Bus, key: SourceKey): seq<Numbered> {
    if key in bus.heard then bus.heard[key] else []
  }

  /** What happens to the bus. Every write names the mixed output it sends. */
  datatype Event =
    | Write(pair: BlockPair, output: seq<Frame>)
    | Acknowledge(cursor: MasterCursor)
    | Look(cursor: MasterCursor)
    | BeginFlush(cursor: MasterCursor, discard: set<SourceKey>, pairs: seq<BlockPair>)
    | WriteReplay(output: seq<Frame>)
    | EndFlush
    | Release(keys: set<SourceKey>)

  function SliceFrom(block: Option<AudioBlock>): Option<SourceSlice>
    requires block.Some? ==> block.value.validFrames <= |block.value.samples|
  {
    if block.None? then None else Some(block.value.AsSlice())
  }

  ghost function Mix(pair: BlockPair, output: seq<Frame>): MixedBlock
    requires pair.Valid()
  {
    MixedBlock(output, SliceFrom(pair.music), SliceFrom(pair.voice))
  }

  function Start(window: nat): Bus {
    Bus(Initial(window), false, [], {}, map[], map[])
  }

  /** A producer numbers its next block from where its source was accepted, as
      the converter does. */
  ghost predicate AtCursor(bus: Bus, block: Option<AudioBlock>) {
    block.Some? ==> block.value.startFrame == ProgressOf(bus.ledger.sources, block.value.key).accepted
  }

  function Feed(bus: Bus, block: Option<AudioBlock>): map<SourceKey, seq<Frame>>
    requires block.Some? ==> block.value.validFrames <= |block.value.samples|
  {
    if block.None? then bus.fed
    else bus.fed[block.value.key := FedTo(bus, block.value.key) + block.value.samples[..block.value.validFrames]]
  }

  ghost function Listen(bus: Bus, cursor: MasterCursor): map<SourceKey, seq<Numbered>> {
    if cursor.rendered < bus.ledger.rendered then bus.heard
    else
      map key | key in bus.ledger.sources ::
        HeardOf(bus, key) + HeardBetween(bus.ledger.entries, key, bus.ledger.rendered, cursor.rendered)
  }

  /** When an event can happen: the bus serialises writers and flushes, and an
      operation that raises fails the bus. */
  ghost predicate Enabled(bus: Bus, event: Event) {
    match event
    case Write(pair, output) =>
      !bus.flushing && pair.Valid() && AtCursor(bus, pair.music) && AtCursor(bus, pair.voice)
      && Register(bus.ledger, Mix(pair, output)).result.Ok?
    case Acknowledge(cursor) =>
      bus.ledger.pending.Some? && MarkWritten(bus.ledger, bus.ledger.pending.value, cursor).result.Ok?
    case Look(cursor) => !bus.flushing && Observe(bus.ledger, cursor).result.Ok?
    case BeginFlush(cursor, discard, pairs) =>
      !bus.flushing && Remix(bus.ledger, cursor, discard).result.Ok?
      && Replays(Remix(bus.ledger, cursor, discard).result.value.survivors, pairs)
    case WriteReplay(output) =>
      bus.flushing && bus.replays != [] && bus.replays[0].Valid()
      && Register(bus.ledger, Mix(bus.replays[0], output)).result.Ok?
    case EndFlush => bus.flushing && bus.replays == [] && Forget(bus.ledger, bus.discarding).result.Ok?
    case Release(keys) => !bus.flushing && Forget(bus.ledger, keys).result.Ok?
  }

  ghost function After(bus: Bus, event: Event): Bus
    requires Enabled(bus, event)
  {
    match event
    case Write(pair, output) =>
      bus.(ledger := Register(bus.ledger, Mix(pair, output)).state,
           fed := Feed(bus.(fed := Feed(bus, pair.music)), pair.voice))
    case Acknowledge(cursor) =>
      bus.(ledger := MarkWritten(bus.ledger, bus.ledger.pending.value, cursor).state, heard := Listen(bus, cursor))
    case Look(cursor) => bus.(ledger := Observe(bus.ledger, cursor).state, heard := Listen(bus, cursor))
    case BeginFlush(cursor, discard, pairs) =>
      bus.(ledger := Remix(bus.ledger, cursor, discard).state, heard := Listen(bus, cursor),
           flushing := true, replays := pairs, discarding := discard)
    case WriteReplay(output) =>
      bus.(ledger := Register(bus.ledger, Mix(bus.replays[0], output)).state, replays := bus.replays[1..])
    case EndFlush =>
      bus.(ledger := Forget(bus.ledger, bus.discarding).state, flushing := false, discarding := {},
           fed := bus.fed - bus.discarding, heard := bus.heard - bus.discarding)
    case Release(keys) =>
      bus.(ledger := Forget(bus.ledger, keys).state, fed := bus.fed - keys, heard := bus.heard - keys)
  }

  /** The event neither releases nor discards the source. */
  predicate Spares(event: Event, key: SourceKey) {
    match event
    case Release(keys) => key !in keys
    case BeginFlush(_, discard, _) => key !in discard
    case _ => true
  }

  /** What a write adds to the frames fed to a source. */
  lemma WriteFeeds(bus: Bus, pair: BlockPair, output: seq<Frame>, key: SourceKey)
    requires Enabled(bus, Write(pair, output))
    ensures
      var slice := NewEntry(bus.ledger, Mix(pair, output)).SliceOf(key);
      FedTo(After(bus, Write(pair, output)), key)
        == if slice.Some? then FedTo(bus, key) + slice.value.samples else FedTo(bus, key)
  {
  }

  lemma AtOwnCursor(bus: Bus, pair: BlockPair, output: seq<Frame>, key: SourceKey)
    requires Enabled(bus, Write(pair, output)) && NewEntry(bus.ledger, Mix(pair, output)).SliceOf(key).Some?
    ensures NewEntry(bus.ledger, Mix(pair, output)).SliceOf(key).value.startFrame
            == ProgressOf(bus.ledger.sources, key).accepted
  {
  }

  // ---- the truth about every source, over whole runs ----

  ghost predicate Truthful(bus: Bus, key: SourceKey)
    requires PairsOk(bus.replays)
  {
    Truth(bus.ledger, PairsStream(bus.replays, key), FedTo(bus, key), HeardOf(bus, key), key)
  }

  ghost predicate Sound(bus: Bus) {
    && Inv(bus.ledger)
    && PairsOk(bus.replays)
    && (!bus.flushing ==> bus.replays == [] && bus.discarding == {})
  }

  ghost predicate Honest(bus: Bus) {
    && Sound(bus)
    && (forall key | key !in bus.discarding :: Truthful(bus, key))
    && (forall key | key in bus.discarding ::
          !Referenced(bus.ledger.entries, key) && PairsStream(bus.replays, key) == [])
  }

  lemma StartHonest(window: nat)
    requires AUDIO_BLOCK_FRAMES <= window
    ensures Honest(Start(window))
  {
  }

  lemma MixSliceOf(s: LedgerState, pair: BlockPair, output: seq<Frame>, key: SourceKey)
    requires pair.Valid()
    ensures Trimmed(NewEntry(s, Mix(pair, output)).SliceOf(key)) == PairStream(pair, key)
    ensures NewEntry(s, Mix(pair, output)).SliceOf(key).None? <==> PairStream(pair, key) == []
  {
  }

  lemma {:induction false} HonestTruth(bus: Bus, key: SourceKey)
    requires Honest(bus) && key !in bus.discarding
    ensures Inv(bus.ledger) && PairsOk(bus.replays)
    ensures Truth(bus.ledger, PairsStream(bus.replays, key), FedTo(bus, key), HeardOf(bus, key), key)
  {
    assert Truthful(bus, key);
  }

  lemma {:induction false} IdleOwesNothing(bus: Bus, key: SourceKey)
    requires Honest(bus) && !bus.flushing
    ensures PairsOk(bus.replays) && PairsStream(bus.replays, key) == [] && key !in bus.discarding
  {
  }

  lemma WriteTruthful(bus: Bus, pair: BlockPair, output: seq<Frame>, key: SourceKey)
    requires Honest(bus) && Enabled(bus, Write(pair, output))
    ensures Truth(After(bus, Write(pair, output)).ledger, [], FedTo(After(bus, Write(pair, output)), key),
                  HeardOf(bus, key), key)
  {
    hide Honest, Truth, Register, Feed, Inv;
    IdleOwesNothing(bus, key);
    HonestTruth(bus, key);
    var mixed := Mix(pair, output);
    var slice := NewEntry(bus.ledger, mixed).SliceOf(key);
    WriteFeeds(bus, pair, output, key);
    if slice.None? {
      RegisterOtherTruth(bus.ledger, mixed, [], FedTo(bus, key), HeardOf(bus, key), key);
    } else {
      TruthLength(bus.ledger, [], FedTo(bus, key), HeardOf(bus, key), key);
      AtOwnCursor(bus, pair, output, key);
      RegisterFreshTruth(bus.ledger, mixed, slice.value, FedTo(bus, key), HeardOf(bus, key), key);
    }
  }

  lemma TruthLength(s: LedgerState, left: seq<Numbered>, fed: seq<Frame>, heard: seq<Numbered>, key: SourceKey)
    requires Truth(s, left, fed, heard, key)
    ensures |fed| == ProgressOf(s.sources, key).accepted
  {
  }

  lemma WriteHonest(bus: Bus, pair: BlockPair, output: seq<Frame>)
    requires Honest(bus) && Enabled(bus, Write(pair, output))
    ensures Honest(After(bus, Write(pair, output)))
  {
    RegisterKeeps(bus.ledger, Mix(pair, output));
    forall key ensures Truthful(After(bus, Write(pair, output)), key) {
      WriteTruthful(bus, pair, output, key);
    }
  }

  lemma ReplayTruthful(bus: Bus, output: seq<Frame>, key: SourceKey)
    requires Honest(bus) && Enabled(bus, WriteReplay(output)) && key !in bus.discarding
    ensures PairsOk(After(bus, WriteReplay(output)).replays) && Truthful(After(bus, WriteReplay(output)), key)
  {
    hide Honest, Truth, Register, Inv;
    HonestTruth(bus, key);
    var pair := bus.replays[0];
    var mixed, left := Mix(pair, output), PairsStream(bus.replays[1..], key);
    MixSliceOf(bus.ledger, pair, output, key);
    var slice := NewEntry(bus.ledger, mixed).SliceOf(key);
    assert PairsStream(bus.replays, key) == PairStream(pair, key) + left;
    if slice.None? {
      assert PairStream(pair, key) + left == left;
      RegisterOtherTruth(bus.ledger, mixed, left, FedTo(bus, key), HeardOf(bus, key), key);
    } else {
      RegisterReplayTruth(bus.ledger, mixed, slice.value, left, FedTo(bus, key), HeardOf(bus, key), key);
    }
  }

  lemma {:induction false} ReplayDiscarding(bus: Bus, output: seq<Frame>, key: SourceKey)
    requires Honest(bus) && Enabled(bus, WriteReplay(output)) && key in bus.discarding
    ensures PairsOk(bus.replays[1..]) && PairsStream(bus.replays[1..], key) == []
    ensures !Referenced(After(bus, WriteReplay(output)).ledger.entries, key)
  {
    var pair := bus.replays[0];
    assert PairsStream(bus.replays, key) == PairStream(pair, key) + PairsStream(bus.replays[1..], key);
    MixSliceOf(bus.ledger, pair, output, key);
    hide Inv, Truth, PairStream, PairsStream, Mix, NewEntry;
    StillReferencedNowhere(bus.ledger, Mix(pair, output), key);
  }

  lemma StillReferencedNowhere(s: LedgerState, mixed: MixedBlock, key: SourceKey)
    requires !Referenced(s.entries, key) && NewEntry(s, mixed).SliceOf(key).None? && Register(s, mixed).result.Ok?
    ensures !Referenced(Register(s, mixed).state.entries, key)
  {
  }

  lemma ReplayHonest(bus: Bus, output: seq<Frame>)
    requires Honest(bus) && Enabled(bus, WriteReplay(output))
    ensures Honest(After(bus, WriteReplay(output)))
  {
    hide Inv, Truth, Register, PairsStream, Referenced;
    var after := After(bus, WriteReplay(output));
    RegisterKeeps(bus.ledger, Mix(bus.replays[0], output));
    forall key | key !in bus.discarding ensures Truthful(after, key) {
      ReplayTruthful(bus, output, key);
    }
    forall key | key in bus.discarding
      ensures !Referenced(after.ledger.entries, key) && PairsStream(after.replays, key) == []
    {
      ReplayDiscarding(bus, output, key);
    }
  }

  lemma {:induction false} ListenTruth(bus: Bus, cursor: MasterCursor, settled: LedgerState, allowPending: bool,
                                       key: SourceKey)
    requires Honest(bus) && key !in bus.discarding
    requires Inv(settled) && AllSameAudio(settled.entries, bus.ledger.entries)
    requires settled.sources == bus.ledger.sources && settled.rendered == bus.ledger.rendered
    requires Reconcile(settled, cursor, allowPending).result.Ok?
    ensures Truth(Reconcile(settled, cursor, allowPending).state, PairsStream(bus.replays, key), FedTo(bus, key),
                  if key in Listen(bus, cursor) then Listen(bus, cursor)[key] else [], key)
  {
    assert Truthful(bus, key);
    SameAudioStreams(settled.entries, bus.ledger.entries, key, settled.rendered, settled.rendered);
    var left := PairsStream(bus.replays, key);
    ReconcileTruth(settled, cursor, allowPending, left, FedTo(bus, key), HeardOf(bus, key), key);
    SameAudioStreams(settled.entries, bus.ledger.entries, key, settled.rendered, cursor.rendered);
    if key !in bus.ledger.sources {
      ReconcileStreams(settled, cursor, allowPending, key);
      assert HeardBetween(settled.entries, key, settled.rendered, cursor.rendered) == [];
    }
  }

  /** The ledger just before an event's cursor is reconciled. */
  function Settled(bus: Bus, event: Event): LedgerState {
    if event.Acknowledge? && bus.ledger.pending.Some?
    then bus.ledger.(entries := Settle(bus.ledger.entries, bus.ledger.pending.value), pending := None)
    else bus.ledger
  }

  lemma SettledSame(bus: Bus, event: Event)
    requires Inv(bus.ledger)
    ensures Inv(Settled(bus, event)) && AllSameAudio(Settled(bus, event).entries, bus.ledger.entries)
  {
    var s := bus.ledger;
    var settled := Settled(bus, event);
    SameAudioTiled(settled.entries, s.entries, s.FirstStart(), s.next);
    SameAudioAccounted(settled.entries, s.entries, s.sources, s.rendered);
  }

  lemma CursorEvent(bus: Bus, event: Event)
    requires Enabled(bus, event) && (event.Acknowledge? || event.Look?)
    ensures Reconcile(Settled(bus, event), event.cursor, false).result.Ok?
    ensures After(bus, event) == bus.(ledger := Reconcile(Settled(bus, event), event.cursor, false).state,
                                      heard := Listen(bus, event.cursor))
  {
  }

  lemma CursorHonest(bus: Bus, event: Event)
    requires Honest(bus) && Enabled(bus, event) && (event.Acknowledge? || event.Look?)
    ensures Honest(After(bus, event))
  {
    var after := After(bus, event);
    CursorEvent(bus, event);
    SettledSame(bus, event);
    ReconcileKeeps(Settled(bus, event), event.cursor, false);
    hide After, Enabled, Reconcile, Inv, Settled, Listen, Truth, AllSameAudio;
    forall key | key !in bus.discarding ensures Truthful(after, key) {
      CursorTruthful(bus, event, key);
    }
    forall key | key in bus.discarding ensures !Referenced(after.ledger.entries, key) {
      StillUnreferenced(Settled(bus, event), bus.ledger, event.cursor, key);
    }
  }

  lemma CursorTruthful(bus: Bus, event: Event, key: SourceKey)
    requires Honest(bus) && Enabled(bus, event) && (event.Acknowledge? || event.Look?) && key !in bus.discarding
    ensures PairsOk(After(bus, event).replays) && Truthful(After(bus, event), key)
  {
    CursorEvent(bus, event);
    SettledSame(bus, event);
    ListenTruth(bus, event.cursor, Settled(bus, event), false, key);
  }

  lemma StillUnreferenced(settled: LedgerState, s: LedgerState, cursor: MasterCursor, key: SourceKey)
    requires AllSameAudio(settled.entries, s.entries) && !Referenced(s.entries, key)
    requires Reconcile(settled, cursor, false).result.Ok?
    ensures !Referenced(Reconcile(settled, cursor, false).state.entries, key)
  {
    ReconcileCases(settled, cursor, false);
    var marked := MarkAccepted(settled.entries, cursor.accepted);
    var kept := DropRendered(marked, cursor.rendered);
    DropIsSuffix(marked, cursor.rendered);
    forall i | 0 <= i < |kept| ensures kept[i].SliceOf(key).None? {
      var at := |marked| - |kept| + i;
      assert kept[i] == marked[at] && SameAudio(settled.entries[at], s.entries[at]);
      assert s.entries[at].SliceOf(key).None?;
    }
  }

  lemma FlushEvent(bus: Bus, cursor: MasterCursor, discard: set<SourceKey>, pairs: seq<BlockPair>)
    requires Sound(bus) && Enabled(bus, BeginFlush(cursor, discard, pairs))
    ensures Reconcile(bus.ledger, cursor, true).result.Ok? && PairsOk(pairs)
    ensures
      var closed := Reconcile(bus.ledger, cursor, true).state;
      After(bus, BeginFlush(cursor, discard, pairs)) == Bus(
        closed.(epoch := closed.epoch + 1, next := 0, accepted := 0, rendered := 0, pending := None, entries := []),
        true, pairs, discard, bus.fed, Listen(bus, cursor))
  {
  }

  /** The replay writes carry exactly what the closed epoch left unheard of every kept source. */
  lemma {:induction false} ReplaysAreUnheard(bus: Bus, cursor: MasterCursor, discard: set<SourceKey>,
                                             pairs: seq<BlockPair>, key: SourceKey)
    requires Sound(bus) && Enabled(bus, BeginFlush(cursor, discard, pairs))
    ensures PairsOk(pairs)
    ensures
      var closed := Reconcile(bus.ledger, cursor, true).state;
      PairsStream(pairs, key) == if key in discard then [] else Unheard(closed.entries, key, closed.rendered)
  {
    var closed := Reconcile(bus.ledger, cursor, true).state;
    ReconcileKeeps(bus.ledger, cursor, true);
    LanesFromInv(closed);
    SurvivorsAreUnheard(closed.entries, closed.FirstStart(), closed.next, key, closed.rendered, discard);
  }

  lemma FlushTruthful(bus: Bus, cursor: MasterCursor, discard: set<SourceKey>, pairs: seq<BlockPair>, key: SourceKey)
    requires Honest(bus) && Enabled(bus, BeginFlush(cursor, discard, pairs)) && key !in discard
    ensures PairsOk(After(bus, BeginFlush(cursor, discard, pairs)).replays)
    ensures Truthful(After(bus, BeginFlush(cursor, discard, pairs)), key)
  {
    FlushEvent(bus, cursor, discard, pairs);
    ReplaysAreUnheard(bus, cursor, discard, pairs, key);
    ListenTruth(bus, cursor, bus.ledger, true, key);
    var closed := Reconcile(bus.ledger, cursor, true).state;
    hide After, Enabled, Reconcile, Inv, Listen;
    assert PairsStream(bus.replays, key) == [];
    assert Unheard([], key, 0) + PairsStream(pairs, key) == Unheard(closed.entries, key, closed.rendered) + [];
  }

  lemma FlushHonest(bus: Bus, cursor: MasterCursor, discard: set<SourceKey>, pairs: seq<BlockPair>)
    requires Honest(bus) && Enabled(bus, BeginFlush(cursor, discard, pairs))
    ensures Honest(After(bus, BeginFlush(cursor, discard, pairs)))
  {
    var after := After(bus, BeginFlush(cursor, discard, pairs));
    FlushEvent(bus, cursor, discard, pairs);
    RemixKeeps(bus.ledger, cursor, discard);
    assert Sound(after);
    hide Sound, After, Enabled, Reconcile, Inv, Listen, Truth, Remix;
    forall key | key !in discard ensures Truthful(after, key) {
      FlushTruthful(bus, cursor, discard, pairs, key);
    }
    forall key | key in discard ensures PairsStream(pairs, key) == [] {
      ReplaysAreUnheard(bus, cursor, discard, pairs, key);
    }
  }

  lemma ForgetOneTruth(s: LedgerState, keys: set<SourceKey>, fed: seq<Frame>, heard: seq<Numbered>, key: SourceKey)
    requires Inv(s) && Forget(s, keys).result.Ok?
    requires key !in keys ==> Truth(s, [], fed, heard, key)
    requires key in keys ==> |fed| == 0 == |heard|
    ensures Truth(Forget(s, keys).state, [], fed, heard, key)
  {
    if key in keys {
      assert !Referenced(s.entries, key);
      NothingUnheard(s.entries, key, s.rendered);
    }
  }

  lemma ForgetTruthful(bus: Bus, keys: set<SourceKey>, after: Bus, key: SourceKey)
    requires Honest(bus) && Forget(bus.ledger, keys).result.Ok? && bus.replays == [] && bus.discarding <= keys
    requires after == Bus(Forget(bus.ledger, keys).state, false, [], {}, bus.fed - keys, bus.heard - keys)
    ensures Truthful(after, key)
  {
    if key !in keys {
      assert Truthful(bus, key);
      assert FedTo(after, key) == FedTo(bus, key) && HeardOf(after, key) == HeardOf(bus, key);
    }
    ForgetOneTruth(bus.ledger, keys, FedTo(after, key), HeardOf(after, key), key);
  }

  lemma ForgetHonest(bus: Bus, keys: set<SourceKey>, after: Bus)
    requires Honest(bus) && Forget(bus.ledger, keys).result.Ok? && bus.replays == [] && bus.discarding <= keys
    requires after == Bus(Forget(bus.ledger, keys).state, false, [], {}, bus.fed - keys, bus.heard - keys)
    ensures Honest(after)
  {
    ForgetKeeps(bus.ledger, keys);
    hide Inv, Forget, Truth, Unheard, PairsStream;
    forall key ensures Truthful(after, key) {
      ForgetTruthful(bus, keys, after, key);
    }
  }

  lemma {:induction false} NothingUnheard(entries: seq<Entry>, key: SourceKey, cursor: nat)
    requires !Referenced(entries, key)
    ensures Unheard(entries, key, cursor) == []
  {
    if entries != [] {
      assert entries[0].SliceOf(key).None?;
      assert !Referenced(entries[1..], key) by {
        assert forall i | 0 <= i < |entries| - 1 :: entries[1..][i] == entries[i + 1];
      }
      NothingUnheard(entries[1..], key, cursor);
    }
  }

  /** Ending a flush always succeeds: no discarded source is referenced any more. */
  lemma EndFlushHonest(bus: Bus)
    requires Honest(bus) && bus.flushing && bus.replays == []
    ensures Enabled(bus, EndFlush) && Honest(After(bus, EndFlush))
  {
    ForgetHonest(bus, bus.discarding, After(bus, EndFlush));
  }

  lemma StepHonest(bus: Bus, event: Event)
    requires Honest(bus) && Enabled(bus, event)
    ensures Honest(After(bus, event))
  {
    match event
    case Write(pair, output) => WriteHonest(bus, pair, output);
    case Acknowledge(cursor) => CursorHonest(bus, event);
    case Look(cursor) => CursorHonest(bus, event);
    case BeginFlush(cursor, discard, pairs) => FlushHonest(bus, cursor, discard, pairs);
    case WriteReplay(output) => ReplayHonest(bus, output);
    case EndFlush => EndFlushHonest(bus);
    case Release(keys) => ForgetHonest(bus, keys, After(bus, event));
  }

  /** A run is a list of states joined by enabled events. */
  ghost predicate IsRun(states: seq<Bus>, events: seq<Event>) {
    && |states| == |events| + 1
    && forall i {:trigger events[i]} | 0 <= i < |events| ::
         Enabled(states[i], events[i]) && states[i + 1] == After(states[i], events[i])
  }

  lemma {:induction false} RunHonest(states: seq<Bus>, events: seq<Event>)
    requires IsRun(states, events) && Honest(states[0])
    ensures Honest(states[|events|])
    decreases |events|
  {
    hide Honest, Enabled, After;
    if events != [] {
      RunHonest(states[..|events|], events[..|events| - 1]);
      StepHonest(states[|events| - 1], events[|events| - 1]);
    }
  }

  /** Truthful source cursors. After any run, for every source that is not being
      discarded: the frames below its rendered cursor are exactly the frames it
      was fed there, each heard once and in order, and the frames from the
      rendered to the accepted cursor are exactly those still waiting. */
  lemma {:induction false} CursorsAreTruthful(window: nat, states: seq<Bus>, events: seq<Event>, key: SourceKey)
    requires AUDIO_BLOCK_FRAMES <= window && IsRun(states, events) && states[0] == Start(window)
    requires key !in states[|events|].discarding
    ensures
      var bus := states[|events|];
      var progress := ProgressOf(bus.ledger.sources, key);
      && PairsOk(bus.replays)
      && progress.rendered <= progress.accepted == |FedTo(bus, key)|
      && HeardOf(bus, key) == NumberFrom(0, FedTo(bus, key)[..progress.rendered])
      && Unheard(bus.ledger.entries, key, bus.ledger.rendered) + PairsStream(bus.replays, key)
         == NumberFrom(progress.rendered, FedTo(bus, key)[progress.rendered..])
  {
    StartHonest(window);
    RunHonest(states, events);
    var bus := states[|events|];
    assert Truthful(bus, key);
    hide Inv, IsRun, Unheard, NumberFrom, Honest, Start;
    NumberFromSplit(0, FedTo(bus, key), ProgressOf(bus.ledger.sources, key).rendered);
  }
}
