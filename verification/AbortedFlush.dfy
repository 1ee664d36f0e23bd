/** What a flush costs that is cancelled or fails after its remix: the frames it
    had yet to replay are never heard, and later cursors pass over them. */
module AbortedFlush {
  import opened Common
  import opened AudioModels
  import opened LedgerSpec
  import opened LedgerInvariant
  import opened ReplayPlan
  import opened Streams
  import opened Playout
  import opened PlayoutWindow

  /** A cancelled or failed flush leaves the ledger as it is and drops the
      replay writes it had not made; the writer loop goes on. */
  function Aborted(bus: Bus): Bus {
    bus.(flushing := false, replays := [], discarding := {})
  }

  // ---- a source with a gap ----

  /** Everything fed to a source but the frames from one number to another. */
  function AllBut(fed: seq<Frame>, from: nat, upTo: nat): seq<Numbered>
    requires from <= upTo <= |fed|
  {
    NumberFrom(0, fed[..from]) + NumberFrom(upTo, fed[upTo..])
  }

  /** What was heard and what still waits are all frames but those of the gap, in
      order, and the rendered cursor is one past the last frame heard. */
  ghost predicate Gapped(s: LedgerState, left: seq<Numbered>, fed: seq<Frame>, heard: seq<Numbered>, key: SourceKey,
                         from: nat, upTo: nat) {
    var progress := ProgressOf(s.sources, key);
    && |fed| == progress.accepted && from <= upTo <= |fed|
    && heard + (Unheard(s.entries, key, s.rendered) + left) == AllBut(fed, from, upTo)
    && progress.rendered == EndNumber(heard, 0)
  }

  lemma AllButRises(fed: seq<Frame>, from: nat, upTo: nat)
    requires from <= upTo <= |fed|
    ensures Rising(AllBut(fed, from, upTo), 0)
    ensures forall i | 0 <= i < |AllBut(fed, from, upTo)| :: AllBut(fed, from, upTo)[i].number < |fed|
    ensures forall i | 0 <= i < |AllBut(fed, from, upTo)| :: !(from <= AllBut(fed, from, upTo)[i].number < upTo)
  {
  }

  lemma RestRises(all: seq<Numbered>, heard: seq<Numbered>, rest: seq<Numbered>)
    requires Rising(all, 0) && all == heard + rest
    ensures Rising(rest, EndNumber(heard, 0))
  {
    assert forall i | 0 <= i < |rest| :: all[|heard| + i] == rest[i];
    if heard != [] {
      assert all[|heard| - 1] == heard[|heard| - 1];
    }
  }

  /** Moving the master cursor moves frames from waiting to heard, gap or not. */
  lemma {:induction false} ReconcileGapped(s: LedgerState, cursor: MasterCursor, allowPending: bool,
                                           left: seq<Numbered>, fed: seq<Frame>, heard: seq<Numbered>, key: SourceKey,
                                           from: nat, upTo: nat)
    requires Inv(s) && Reconcile(s, cursor, allowPending).result.Ok? && Gapped(s, left, fed, heard, key, from, upTo)
    ensures s.rendered <= cursor.rendered
    ensures Gapped(Reconcile(s, cursor, allowPending).state, left, fed,
                   heard + HeardBetween(s.entries, key, s.rendered, cursor.rendered), key, from, upTo)
  {
    hide Inv, Unheard, HeardBetween, Reconcile, AllBut, Rising;
    ReconcileStreams(s, cursor, allowPending, key);
    AllButRises(fed, from, upTo);
    RestRises(AllBut(fed, from, upTo), heard, Unheard(s.entries, key, s.rendered) + left);
    ReconcileReach(s, cursor, allowPending, left, key);
    ReconcileCases(s, cursor, allowPending);
    var moved := HeardBetween(s.entries, key, s.rendered, cursor.rendered);
    var unheard := Unheard(Reconcile(s, cursor, allowPending).state.entries, key, cursor.rendered);
    assert heard + moved + (unheard + left) == heard + (moved + unheard + left);
  }

  /** What registering a block does to a source it does not carry: nothing. */
  lemma {:induction false} RegisteredOther(s: LedgerState, mixed: MixedBlock, key: SourceKey)
    requires Inv(s) && mixed.Valid() && Register(s, mixed).result.Ok? && NewEntry(s, mixed).SliceOf(key).None?
    ensures
      var after := Register(s, mixed).state;
      && after.rendered == s.rendered && ProgressOf(after.sources, key) == ProgressOf(s.sources, key)
      && Unheard(after.entries, key, after.rendered) == Unheard(s.entries, key, s.rendered)
  {
    NoteOneSource(s, mixed, key);
    UnheardAppend(s.entries, NewEntry(s, mixed), key, s.rendered);
  }

  lemma RegisterOtherGapped(s: LedgerState, mixed: MixedBlock, left: seq<Numbered>, fed: seq<Frame>,
                            heard: seq<Numbered>, key: SourceKey, from: nat, upTo: nat)
    requires Inv(s) && mixed.Valid() && Register(s, mixed).result.Ok?
    requires Gapped(s, left, fed, heard, key, from, upTo) && NewEntry(s, mixed).SliceOf(key).None?
    ensures Gapped(Register(s, mixed).state, left, fed, heard, key, from, upTo)
  {
    hide AllBut, Register, NewEntry, Inv, Unheard, EndNumber;
    RegisteredOther(s, mixed, key);
  }

  lemma AllButGrows(fed: seq<Frame>, more: seq<Frame>, from: nat, upTo: nat)
    requires from <= upTo <= |fed|
    ensures AllBut(fed + more, from, upTo) == AllBut(fed, from, upTo) + NumberFrom(|fed|, more)
  {
    assert (fed + more)[..from] == fed[..from] && (fed + more)[upTo..] == fed[upTo..] + more;
    NumberFromAppend(upTo, fed[upTo..], more);
  }

  lemma AppendLast(heard: seq<Numbered>, unheard: seq<Numbered>, stream: seq<Numbered>)
    ensures heard + (unheard + stream + []) == heard + (unheard + []) + stream
  {
  }

  lemma RegisterFreshGapped(s: LedgerState, mixed: MixedBlock, slice: SourceSlice, fed: seq<Frame>,
                            heard: seq<Numbered>, key: SourceKey, from: nat, upTo: nat)
    requires Inv(s) && mixed.Valid() && Register(s, mixed).result.Ok?
    requires NewEntry(s, mixed).SliceOf(key) == Some(slice) && slice.startFrame == |fed|
    requires Gapped(s, [], fed, heard, key, from, upTo)
    ensures Gapped(Register(s, mixed).state, [], fed + slice.samples, heard, key, from, upTo)
  {
    RegisteredSource(s, mixed, slice, key);
    hide Register, Inv, NewEntry, AllBut, Unheard, NumberFrom, EndNumber;
    AllButGrows(fed, slice.samples, from, upTo);
    AppendLast(heard, Unheard(s.entries, key, s.rendered), slice.Stream());
  }

  /** A slice that waits for replay lies below everything fed. */
  lemma WaitingBelow(heard: seq<Numbered>, unheard: seq<Numbered>, slice: SourceSlice, left: seq<Numbered>,
                     fed: seq<Frame>, from: nat, upTo: nat)
    requires from <= upTo <= |fed| && |slice.samples| > 0
    requires heard + (unheard + (slice.Stream() + left)) == AllBut(fed, from, upTo)
    ensures slice.EndFrame() <= |fed|
    ensures heard + (unheard + slice.Stream() + left) == AllBut(fed, from, upTo)
  {
    AllButRises(fed, from, upTo);
    hide AllBut, Rising;
    var all, last := AllBut(fed, from, upTo), |slice.samples| - 1;
    assert all[|heard| + |unheard| + last] == slice.Stream()[last];
  }

  lemma RegisterReplayGapped(s: LedgerState, mixed: MixedBlock, slice: SourceSlice, left: seq<Numbered>,
                             fed: seq<Frame>, heard: seq<Numbered>, key: SourceKey, from: nat, upTo: nat)
    requires Inv(s) && mixed.Valid() && Register(s, mixed).result.Ok?
    requires NewEntry(s, mixed).SliceOf(key) == Some(slice)
    requires Gapped(s, slice.Stream() + left, fed, heard, key, from, upTo)
    ensures Gapped(Register(s, mixed).state, left, fed, heard, key, from, upTo)
  {
    RegisteredSource(s, mixed, slice, key);
    hide Register, Inv, NewEntry, AllBut, Unheard, EndNumber;
    WaitingBelow(heard, Unheard(s.entries, key, s.rendered), slice, left, fed, from, upTo);
  }

  // ---- every step of the bus ----

  /** The frames of the gap are lost to the source. */
  ghost predicate Lost(bus: Bus, key: SourceKey, from: nat, upTo: nat) {
    && Sound(bus)
    && key !in bus.discarding
    && Gapped(bus.ledger, PairsStream(bus.replays, key), FedTo(bus, key), HeardOf(bus, key), key, from, upTo)
  }

  lemma StaysSound(bus: Bus, event: Event)
    requires Sound(bus) && Enabled(bus, event)
    ensures Sound(After(bus, event))
  {
    hide Inv;
    match event
    case Write(pair, output) => RegisterKeeps(bus.ledger, Mix(pair, output));
    case Acknowledge(cursor) => CursorSound(bus, event);
    case Look(cursor) => CursorSound(bus, event);
    case BeginFlush(cursor, discard, pairs) => RemixKeeps(bus.ledger, cursor, discard);
    case WriteReplay(output) => RegisterKeeps(bus.ledger, Mix(bus.replays[0], output));
    case EndFlush => ForgetKeeps(bus.ledger, bus.discarding);
    case Release(keys) => ForgetKeeps(bus.ledger, keys);
  }

  lemma CursorSound(bus: Bus, event: Event)
    requires Sound(bus) && Enabled(bus, event) && (event.Acknowledge? || event.Look?)
    ensures Sound(After(bus, event))
  {
    CursorEvent(bus, event);
    SettledSame(bus, event);
    ReconcileKeeps(Settled(bus, event), event.cursor, false);
    hide Inv, Reconcile, Enabled, Listen, After;
  }

  /** What every later event keeps of a gap. */
  ghost predicate StillGapped(bus: Bus, after: Bus, key: SourceKey, from: nat, upTo: nat) {
    && key !in after.discarding && PairsOk(after.replays)
    && Gapped(after.ledger, PairsStream(after.replays, key), FedTo(after, key), HeardOf(after, key), key, from, upTo)
    && FedTo(bus, key) <= FedTo(after, key)
  }

  lemma WriteGapped(bus: Bus, pair: BlockPair, output: seq<Frame>, key: SourceKey, from: nat, upTo: nat)
    requires Lost(bus, key, from, upTo) && Enabled(bus, Write(pair, output))
    ensures StillGapped(bus, After(bus, Write(pair, output)), key, from, upTo)
  {
    hide Inv, Gapped, Register, Feed;
    var mixed := Mix(pair, output);
    var slice := NewEntry(bus.ledger, mixed).SliceOf(key);
    WriteFeeds(bus, pair, output, key);
    GappedLength(bus.ledger, [], FedTo(bus, key), HeardOf(bus, key), key, from, upTo);
    if slice.None? {
      RegisterOtherGapped(bus.ledger, mixed, [], FedTo(bus, key), HeardOf(bus, key), key, from, upTo);
    } else {
      AtOwnCursor(bus, pair, output, key);
      RegisterFreshGapped(bus.ledger, mixed, slice.value, FedTo(bus, key), HeardOf(bus, key), key, from, upTo);
    }
  }

  lemma GappedLength(s: LedgerState, left: seq<Numbered>, fed: seq<Frame>, heard: seq<Numbered>, key: SourceKey,
                     from: nat, upTo: nat)
    requires Gapped(s, left, fed, heard, key, from, upTo)
    ensures |fed| == ProgressOf(s.sources, key).accepted
  {
  }

  lemma ReplayGapped(bus: Bus, output: seq<Frame>, key: SourceKey, from: nat, upTo: nat)
    requires Lost(bus, key, from, upTo) && Enabled(bus, WriteReplay(output))
    ensures StillGapped(bus, After(bus, WriteReplay(output)), key, from, upTo)
  {
    hide Inv, Gapped, Register;
    var pair := bus.replays[0];
    var mixed, left := Mix(pair, output), PairsStream(bus.replays[1..], key);
    MixSliceOf(bus.ledger, pair, output, key);
    var slice := NewEntry(bus.ledger, mixed).SliceOf(key);
    assert PairsStream(bus.replays, key) == PairStream(pair, key) + left;
    if slice.None? {
      assert PairStream(pair, key) + left == left;
      RegisterOtherGapped(bus.ledger, mixed, left, FedTo(bus, key), HeardOf(bus, key), key, from, upTo);
    } else {
      RegisterReplayGapped(bus.ledger, mixed, slice.value, left, FedTo(bus, key), HeardOf(bus, key), key, from, upTo);
    }
  }

  /** A cursor, of a flush or not, reaches the listener as it does without a gap. */
  lemma {:induction false} ListenGapped(bus: Bus, cursor: MasterCursor, settled: LedgerState, allowPending: bool,
                                        key: SourceKey, from: nat, upTo: nat)
    requires Lost(bus, key, from, upTo)
    requires Inv(settled) && AllSameAudio(settled.entries, bus.ledger.entries)
    requires settled.sources == bus.ledger.sources && settled.rendered == bus.ledger.rendered
    requires Reconcile(settled, cursor, allowPending).result.Ok?
    ensures Gapped(Reconcile(settled, cursor, allowPending).state, PairsStream(bus.replays, key), FedTo(bus, key),
                   if key in Listen(bus, cursor) then Listen(bus, cursor)[key] else [], key, from, upTo)
  {
    hide AllBut, EndNumber, Inv;
    SameAudioStreams(settled.entries, bus.ledger.entries, key, settled.rendered, settled.rendered);
    var left := PairsStream(bus.replays, key);
    ReconcileGapped(settled, cursor, allowPending, left, FedTo(bus, key), HeardOf(bus, key), key, from, upTo);
    SameAudioStreams(settled.entries, bus.ledger.entries, key, settled.rendered, cursor.rendered);
    if key !in bus.ledger.sources {
      UntrackedSilence(settled, PairsStream(bus.replays, key), FedTo(bus, key), HeardOf(bus, key), key, from, upTo);
      ReconcileStreams(settled, cursor, allowPending, key);
    }
  }

  lemma {:induction false} UntrackedSilence(s: LedgerState, left: seq<Numbered>, fed: seq<Frame>, heard: seq<Numbered>,
                                            key: SourceKey, from: nat, upTo: nat)
    requires Gapped(s, left, fed, heard, key, from, upTo) && key !in s.sources
    ensures heard == [] && Unheard(s.entries, key, s.rendered) == []
  {
    hide Unheard;
    assert |AllBut(fed, from, upTo)| == 0;
  }

  lemma CursorGapped(bus: Bus, event: Event, key: SourceKey, from: nat, upTo: nat)
    requires Lost(bus, key, from, upTo) && Enabled(bus, event) && (event.Acknowledge? || event.Look?)
    ensures StillGapped(bus, After(bus, event), key, from, upTo)
  {
    CursorEvent(bus, event);
    SettledSame(bus, event);
    ListenGapped(bus, event.cursor, Settled(bus, event), false, key, from, upTo);
  }

  lemma FlushGapped(bus: Bus, cursor: MasterCursor, discard: set<SourceKey>, pairs: seq<BlockPair>, key: SourceKey,
                    from: nat, upTo: nat)
    requires Lost(bus, key, from, upTo) && Enabled(bus, BeginFlush(cursor, discard, pairs)) && key !in discard
    ensures StillGapped(bus, After(bus, BeginFlush(cursor, discard, pairs)), key, from, upTo)
  {
    hide Inv, Gapped, Reconcile, Listen;
    FlushEvent(bus, cursor, discard, pairs);
    ReplaysAreUnheard(bus, cursor, discard, pairs, key);
    ListenGapped(bus, cursor, bus.ledger, true, key, from, upTo);
    assert PairsStream(bus.replays, key) == [];
    hide After, Enabled, Sound, PairsStream;
    var after := After(bus, BeginFlush(cursor, discard, pairs));
    ClosedGapped(Reconcile(bus.ledger, cursor, true).state, after.ledger, PairsStream(pairs, key), FedTo(bus, key),
                 HeardOf(after, key), key, from, upTo);
  }

  /** Closing an epoch moves what waits in its entries to the replay writes. */
  lemma {:induction false} ClosedGapped(closed: LedgerState, next: LedgerState, left: seq<Numbered>, fed: seq<Frame>,
                                        heard: seq<Numbered>, key: SourceKey, from: nat, upTo: nat)
    requires Gapped(closed, [], fed, heard, key, from, upTo)
    requires next.entries == [] && next.sources == closed.sources
             && left == Unheard(closed.entries, key, closed.rendered)
    ensures Gapped(next, left, fed, heard, key, from, upTo)
  {
    hide AllBut, EndNumber;
    assert Unheard(next.entries, key, next.rendered) == [];
    assert [] + left == left == left + [];
  }

  lemma ForgetGapped(s: LedgerState, keys: set<SourceKey>, fed: seq<Frame>, heard: seq<Numbered>, key: SourceKey,
                     from: nat, upTo: nat)
    requires Gapped(s, [], fed, heard, key, from, upTo) && Forget(s, keys).result.Ok? && key !in keys
    ensures Gapped(Forget(s, keys).state, [], fed, heard, key, from, upTo)
  {
    hide AllBut, Unheard, EndNumber, Referenced;
  }

  lemma ForgetLost(bus: Bus, keys: set<SourceKey>, after: Bus, key: SourceKey, from: nat, upTo: nat)
    requires Lost(bus, key, from, upTo) && Forget(bus.ledger, keys).result.Ok? && bus.replays == [] && key !in keys
    requires after == Bus(Forget(bus.ledger, keys).state, false, [], {}, bus.fed - keys, bus.heard - keys)
    ensures StillGapped(bus, after, key, from, upTo)
  {
    assert FedTo(after, key) == FedTo(bus, key) && HeardOf(after, key) == HeardOf(bus, key);
    ForgetGapped(bus.ledger, keys, FedTo(bus, key), HeardOf(bus, key), key, from, upTo);
  }

  /** No later event brings the frames of the gap back. */
  lemma StepLost(bus: Bus, event: Event, key: SourceKey, from: nat, upTo: nat)
    requires Lost(bus, key, from, upTo) && Enabled(bus, event) && Spares(event, key)
    ensures Lost(After(bus, event), key, from, upTo) && FedTo(bus, key) <= FedTo(After(bus, event), key)
  {
    StaysSound(bus, event);
    StepGapped(bus, event, key, from, upTo);
    hide After, Enabled, Gapped, Sound;
  }

  lemma StepGapped(bus: Bus, event: Event, key: SourceKey, from: nat, upTo: nat)
    requires Lost(bus, key, from, upTo) && Enabled(bus, event) && Spares(event, key)
    ensures StillGapped(bus, After(bus, event), key, from, upTo)
  {
    hide StillGapped, Gapped, Inv, Listen, Feed;
    match event
    case Write(pair, output) => WriteGapped(bus, pair, output, key, from, upTo);
    case Acknowledge(cursor) => CursorGapped(bus, event, key, from, upTo);
    case Look(cursor) => CursorGapped(bus, event, key, from, upTo);
    case BeginFlush(cursor, discard, pairs) => FlushGapped(bus, cursor, discard, pairs, key, from, upTo);
    case WriteReplay(output) => ReplayGapped(bus, output, key, from, upTo);
    case EndFlush => ForgetLost(bus, bus.discarding, After(bus, event), key, from, upTo);
    case Release(keys) => ForgetLost(bus, keys, After(bus, event), key, from, upTo);
  }

  // ---- when an aborted flush loses frames ----

  predicate Carries(pair: BlockPair, key: SourceKey) {
    pair.Lane(key.kind).Some? && pair.Lane(key.kind).value.key == key
  }

  lemma {:induction false} NothingCarried(pairs: seq<BlockPair>, key: SourceKey)
    requires PairsOk(pairs)
    ensures PairsStream(pairs, key) == [] <==> forall i | 0 <= i < |pairs| :: !Carries(pairs[i], key)
  {
    if pairs != [] {
      assert pairs[0].Valid();
      NothingCarried(pairs[1..], key);
      assert forall i | 1 <= i < |pairs| :: pairs[i] == pairs[1..][i - 1];
      if Carries(pairs[0], key) {
        assert |PairStream(pairs[0], key)| > 0;
      }
    }
  }

  /** A source stays truthful through an aborted flush if and only if every
      replay write that carries it had been registered. */
  lemma AbortHarmlessIffReplayed(bus: Bus, key: SourceKey)
    requires Honest(bus) && bus.flushing && key !in bus.discarding
    ensures Truthful(Aborted(bus), key) <==> forall i | 0 <= i < |bus.replays| :: !Carries(bus.replays[i], key)
  {
    hide Inv, Unheard, Referenced;
    NothingCarried(bus.replays, key);
    assert Truthful(bus, key);
    var left := PairsStream(bus.replays, key);
    var waiting := Unheard(bus.ledger.entries, key, bus.ledger.rendered);
    assert |waiting + left| == |waiting| + |left| && |waiting + []| == |waiting|;
    assert left == [] ==> waiting + left == waiting + [];
  }

  /** Right after the remix that is: if and only if the cursors of the remix plan
      say that all the source's accepted frames were rendered. */
  lemma AbortHarmlessIffRendered(bus: Bus, cursor: MasterCursor, discard: set<SourceKey>, pairs: seq<BlockPair>,
                                 key: SourceKey)
    requires Honest(bus) && Enabled(bus, BeginFlush(cursor, discard, pairs)) && key !in discard
    ensures
      var told := ProgressOf(Remix(bus.ledger, cursor, discard).result.value.cursors, key);
      Truthful(Aborted(After(bus, BeginFlush(cursor, discard, pairs))), key) <==> told.rendered == told.accepted
  {
    var after := After(bus, BeginFlush(cursor, discard, pairs));
    StepHonest(bus, BeginFlush(cursor, discard, pairs));
    FlushEvent(bus, cursor, discard, pairs);
    assert Truthful(after, key);
    hide Inv, Reconcile, Listen, Honest;
    assert Unheard([], key, 0) + PairsStream(pairs, key) == PairsStream(pairs, key);
    assert Unheard([], key, 0) + [] == [];
  }

  lemma CutLeft(all: seq<Numbered>, at: nat, waiting: seq<Numbered>, left: seq<Numbered>)
    requires at <= |all| && waiting + left == all[at..]
    ensures |left| <= |all| && all[..at] + (waiting + []) == all[..|all| - |left|]
  {
    assert |waiting| + |left| == |all| - at;
    assert waiting == all[at..][..|waiting|];
  }

  lemma AllButLast(fed: seq<Frame>, from: nat)
    requires from <= |fed|
    ensures AllBut(fed, from, |fed|) == NumberFrom(0, fed)[..from] && EndNumber(NumberFrom(0, fed)[..from], 0) == from
  {
    NumberFromSplit(0, fed, from);
    assert fed[|fed|..] == [] && NumberFrom(|fed|, []) == [];
  }

  lemma TruthOpensGap(s: LedgerState, left: seq<Numbered>, fed: seq<Frame>, heard: seq<Numbered>, key: SourceKey)
    requires Truth(s, left, fed, heard, key)
    ensures |left| <= |fed| && Gapped(s, [], fed, heard, key, |fed| - |left|, |fed|)
  {
    hide Unheard, NumberFrom, AllBut, EndNumber;
    var rendered := ProgressOf(s.sources, key).rendered;
    CutLeft(NumberFrom(0, fed), rendered, Unheard(s.entries, key, s.rendered), left);
    AllButLast(fed, |fed| - |left|);
    AllButLast(fed, rendered);
  }

  lemma {:induction false} AbortedParts(bus: Bus, key: SourceKey)
    requires Honest(bus)
    ensures Sound(Aborted(bus)) && PairsStream(Aborted(bus).replays, key) == [] && key !in Aborted(bus).discarding
    ensures FedTo(Aborted(bus), key) == FedTo(bus, key) && HeardOf(Aborted(bus), key) == HeardOf(bus, key)
  {
    hide Inv, Truthful;
  }

  lemma {:induction false} AbortOpensGap(bus: Bus, key: SourceKey)
    requires Honest(bus) && bus.flushing && key !in bus.discarding
    ensures
      var lost := |PairsStream(bus.replays, key)|;
      lost <= |FedTo(bus, key)| && Lost(Aborted(bus), key, |FedTo(bus, key)| - lost, |FedTo(bus, key)|)
  {
    hide Inv, Truth, Honest, Gapped, Sound, FedTo, HeardOf;
    HonestTruth(bus, key);
    AbortedParts(bus, key);
    TruthOpensGap(bus.ledger, PairsStream(bus.replays, key), FedTo(bus, key), HeardOf(bus, key), key);
  }

  lemma {:induction false} RunLost(states: seq<Bus>, events: seq<Event>, key: SourceKey, from: nat, upTo: nat)
    requires IsRun(states, events) && Lost(states[0], key, from, upTo)
    requires forall i | 0 <= i < |events| :: Spares(events[i], key)
    ensures Lost(states[|events|], key, from, upTo) && FedTo(states[0], key) <= FedTo(states[|events|], key)
    decreases |events|
  {
    hide Lost, Enabled, After, Spares;
    if events != [] {
      RunLost(states[..|events|], events[..|events| - 1], key, from, upTo);
      StepLost(states[|events| - 1], events[|events| - 1], key, from, upTo);
    }
  }

  /** What a gap means: its frames are not heard, and once the rendered cursor
      moves over its start it has moved beyond its end. */
  lemma GapIsSilent(s: LedgerState, left: seq<Numbered>, fed: seq<Frame>, heard: seq<Numbered>, key: SourceKey,
                    from: nat, upTo: nat)
    requires Gapped(s, left, fed, heard, key, from, upTo)
    ensures forall i | 0 <= i < |heard| :: !(from <= heard[i].number < upTo)
    ensures from < upTo && ProgressOf(s.sources, key).rendered > from ==> ProgressOf(s.sources, key).rendered > upTo
    ensures from < upTo ==> !Truth(s, left, fed, heard, key)
  {
    hide Unheard, AllBut;
    AllButRises(fed, from, upTo);
    var all, waiting := AllBut(fed, from, upTo), Unheard(s.entries, key, s.rendered) + left;
    assert forall i | 0 <= i < |heard| :: heard[i] == all[i];
    assert |all| == |fed| - (upTo - from) by { AllButLength(fed, from, upTo); }
  }

  lemma AllButLength(fed: seq<Frame>, from: nat, upTo: nat)
    requires from <= upTo <= |fed|
    ensures |AllBut(fed, from, upTo)| == |fed| - (upTo - from)
  {
  }

  /** What a source's cursors still mean when the frames of a gap are lost. */
  ghost predicate Silenced(bus: Bus, key: SourceKey, from: nat, upTo: nat) {
    var fed, heard, rendered := FedTo(bus, key), HeardOf(bus, key), ProgressOf(bus.ledger.sources, key).rendered;
    && from <= upTo <= |fed| && PairsOk(bus.replays)
    && heard + (Unheard(bus.ledger.entries, key, bus.ledger.rendered) + PairsStream(bus.replays, key))
         == AllBut(fed, from, upTo)
    && (forall i | 0 <= i < |heard| :: !(from <= heard[i].number < upTo))
    && rendered == EndNumber(heard, 0)
    && (from < upTo && rendered > from ==> rendered > upTo)
    && (from < upTo ==> !Truthful(bus, key))
  }

  lemma LostIsSilenced(bus: Bus, key: SourceKey, from: nat, upTo: nat)
    requires Lost(bus, key, from, upTo)
    ensures Silenced(bus, key, from, upTo)
  {
    hide Inv, Unheard, AllBut;
    GapIsSilent(bus.ledger, PairsStream(bus.replays, key), FedTo(bus, key), HeardOf(bus, key), key, from, upTo);
  }

  /** A run that goes on after an aborted flush and neither releases nor discards the source. */
  ghost predicate GoesOn(bus: Bus, states: seq<Bus>, events: seq<Event>, key: SourceKey) {
    IsRun(states, events) && states[0] == Aborted(bus) && forall i | 0 <= i < |events| :: Spares(events[i], key)
  }

  ghost predicate AllSilenced(bus: Bus, end: Bus, key: SourceKey)
    requires PairsOk(bus.replays)
  {
    var fed, lost := FedTo(bus, key), |PairsStream(bus.replays, key)|;
    lost <= |fed| && fed <= FedTo(end, key) && Silenced(end, key, |fed| - lost, |fed|)
  }

  lemma GoesOnSilenced(bus: Bus, states: seq<Bus>, events: seq<Event>, key: SourceKey, from: nat, upTo: nat)
    requires GoesOn(bus, states, events, key) && Lost(Aborted(bus), key, from, upTo)
    ensures FedTo(bus, key) <= FedTo(states[|events|], key) && Silenced(states[|events|], key, from, upTo)
  {
    hide Lost, Silenced, Enabled, After, Spares;
    RunLost(states, events, key, from, upTo);
    LostIsSilenced(states[|events|], key, from, upTo);
    assert FedTo(Aborted(bus), key) == FedTo(bus, key);
  }

  lemma HonestPairs(bus: Bus)
    requires Honest(bus)
    ensures PairsOk(bus.replays)
  {
  }

  /** In every run that goes on after an aborted flush and neither releases nor
      discards the source, the frames that were waiting for replay are never
      heard: what was heard and what still waits are all frames but those. The
      rendered cursor follows the last frame heard, so a later frame takes it
      over the lost ones, and while any were lost it does not tell the truth. */
  lemma LostFramesNeverHeard(bus: Bus, states: seq<Bus>, events: seq<Event>, key: SourceKey)
    requires Honest(bus) && bus.flushing && key !in bus.discarding && GoesOn(bus, states, events, key)
    ensures AllSilenced(bus, states[|events|], key)
  {
    hide Honest, GoesOn, Lost, Silenced, PairsStream, PairsOk, FedTo;
    HonestPairs(bus);
    AbortOpensGap(bus, key);
    var upTo, lost := |FedTo(bus, key)|, |PairsStream(bus.replays, key)|;
    GoesOnSilenced(bus, states, events, key, upTo - lost, upTo);
  }

  /** Nothing in the ledger stops a later write of the same source: a block at
      its accepted cursor is taken although earlier frames were never heard. */
  lemma AbortedBusStillWrites(bus: Bus, pair: BlockPair, output: seq<Frame>)
    requires Honest(bus) && bus.flushing && bus.ledger.pending.None? && pair.Valid()
    requires |output| == AUDIO_BLOCK_FRAMES && bus.ledger.Unrendered() + AUDIO_BLOCK_FRAMES <= bus.ledger.window
    requires AtCursor(bus, pair.music) && AtCursor(bus, pair.voice)
    ensures Enabled(Aborted(bus), Write(pair, output))
  {
    NoGapNoRefusal(bus.ledger, Mix(pair, output));
  }

  // ---- it happens ----

  /** An acknowledgement that everything was rendered empties the ledger. */
  lemma AcknowledgeRendered(bus: Bus)
    requires Sound(bus) && bus.ledger.pending.Some?
    ensures
      var event := Acknowledge(MasterCursor(bus.ledger.epoch, bus.ledger.next, bus.ledger.next, 0));
      Enabled(bus, event) && After(bus, event).ledger.entries == []
  {
    var s := bus.ledger;
    var event := Acknowledge(MasterCursor(s.epoch, s.next, s.next, 0));
    PendingIsLast(s, s.next);
    ReconcileCases(Settled(bus, event), event.cursor, false);
    assert Enabled(bus, event);
    CursorSound(bus, event);
    CursorEvent(bus, event);
    var after := After(bus, event).ledger;
    assert after.rendered == after.next;
    if after.entries != [] {
      TiledLength(after.entries, after.FirstStart(), after.next);
      assert false;
    }
  }

  /** A flush to be aborted: one block was written and nothing was rendered. */
  ghost predicate Doomed(window: nat, bus: Bus, key: SourceKey) {
    && Reachable(Start(window), bus) && Honest(bus) && bus.flushing && key !in bus.discarding
    && bus.ledger.window == window && bus.ledger.pending.None? && bus.ledger.Unrendered() == 0
    && |PairsStream(bus.replays, key)| == |FedTo(bus, key)| == AUDIO_BLOCK_FRAMES
    && ProgressOf(bus.ledger.sources, key).accepted == AUDIO_BLOCK_FRAMES
  }

  lemma DoomedReachable(window: nat, key: SourceKey)
    requires AUDIO_BLOCK_FRAMES <= window && key.kind.Music?
    ensures exists bus: Bus :: Doomed(window, bus, key)
  {
    hide Reachable, Inv, Truth, Unheard, Survivors, SegmentsStream;
    FillWindow(window, key, 1);
    var full: Bus :| Reachable(Start(window), full) && full.ledger.window == window && full.ledger.epoch == 0
                     && Quiet(full, key, 1 * AUDIO_BLOCK_FRAMES, 0);
    OwnCursorFlushes(full, []);
    PlanExists(Remix(full.ledger, OwnCursor(full), {}).result.value.survivors);
    var pairs :| Replays(Remix(full.ledger, OwnCursor(full), {}).result.value.survivors, pairs);
    OwnCursorFlushes(full, pairs);
    var flush := BeginFlush(OwnCursor(full), {}, pairs);
    ReachNext(Start(window), full, flush);
    StepHonest(full, flush);
    FlushLeft(full, OwnCursor(full), pairs, key);
    FlushedLedger(full, pairs, key);
    assert Doomed(window, After(full, flush), key);
  }

  lemma FlushedLedger(bus: Bus, pairs: seq<BlockPair>, key: SourceKey)
    requires Honest(bus) && Enabled(bus, BeginFlush(OwnCursor(bus), {}, pairs))
    ensures
      var after := After(bus, BeginFlush(OwnCursor(bus), {}, pairs));
      && after.flushing && after.discarding == {} && after.replays == pairs
      && after.ledger.window == bus.ledger.window && after.ledger.pending.None? && after.ledger.Unrendered() == 0
      && ProgressOf(after.ledger.sources, key) == ProgressOf(bus.ledger.sources, key)
      && |FedTo(after, key)| == ProgressOf(bus.ledger.sources, key).accepted
  {
    FlushEvent(bus, OwnCursor(bus), {}, pairs);
    ReconcileCases(bus.ledger, OwnCursor(bus), true);
    assert Truthful(bus, key);
    hide Inv, Unheard;
  }

  /** The block after the one that was waiting, and the cursor that renders it. */
  function NextWrite(key: SourceKey): Event {
    Write(BlockPair(Some(SilentBlock(key, AUDIO_BLOCK_FRAMES)), None), Silent(AUDIO_BLOCK_FRAMES))
  }

  /** Truthful no longer, the bus takes the next block of the source. */
  lemma DoomedWrites(window: nat, bus: Bus, key: SourceKey)
    requires AUDIO_BLOCK_FRAMES <= window && key.kind.Music? && Doomed(window, bus, key)
    ensures !Truthful(Aborted(bus), key) && Enabled(Aborted(bus), NextWrite(key))
    ensures
      var written := After(Aborted(bus), NextWrite(key));
      && Lost(written, key, 0, AUDIO_BLOCK_FRAMES) && written.ledger.pending.Some?
      && |FedTo(written, key)| == 2 * AUDIO_BLOCK_FRAMES
  {
    AbortOpensGap(bus, key);
    GapIsSilent(bus.ledger, [], FedTo(bus, key), HeardOf(bus, key), key, 0, AUDIO_BLOCK_FRAMES);
    AbortedBusStillWrites(bus, NextWrite(key).pair, NextWrite(key).output);
    StepLost(Aborted(bus), NextWrite(key), key, 0, AUDIO_BLOCK_FRAMES);
    WriteFeeds(Aborted(bus), NextWrite(key).pair, NextWrite(key).output, key);
    hide Honest, Reachable, Inv;
  }

  /** The cursor says that two blocks were rendered; only the second was heard. */
  ghost predicate SkippedABlock(bus: Bus, key: SourceKey) {
    && |FedTo(bus, key)| == AUDIO_BLOCK_FRAMES + AUDIO_BLOCK_FRAMES
    && ProgressOf(bus.ledger.sources, key) == Progress(|FedTo(bus, key)|, |FedTo(bus, key)|)
    && HeardOf(bus, key) == NumberFrom(AUDIO_BLOCK_FRAMES, FedTo(bus, key)[AUDIO_BLOCK_FRAMES..])
  }

  /** For every window and every music source a flush can be aborted so that the
      source loses a block: its rendered cursor later covers two blocks of which
      only the second was heard. */
  lemma AbortCanSkipABlock(window: nat, key: SourceKey)
    requires AUDIO_BLOCK_FRAMES <= window && key.kind.Music?
    ensures exists bus: Bus, end: Bus ::
              && Reachable(Start(window), bus) && bus.flushing && key !in bus.discarding
              && !Truthful(Aborted(bus), key) && Enabled(Aborted(bus), NextWrite(key))
              && Reachable(Aborted(bus), end) && SkippedABlock(end, key)
  {
    DoomedReachable(window, key);
    var bus: Bus :| Doomed(window, bus, key);
    DoomedWrites(window, bus, key);
    DoomedSkips(Aborted(bus), key);
    hide Honest, SkippedABlock;
  }

  lemma DoomedSkips(aborted: Bus, key: SourceKey)
    requires Enabled(aborted, NextWrite(key))
    requires
      var written := After(aborted, NextWrite(key));
      && Lost(written, key, 0, AUDIO_BLOCK_FRAMES) && written.ledger.pending.Some?
      && |FedTo(written, key)| == 2 * AUDIO_BLOCK_FRAMES
    ensures exists end: Bus :: Reachable(aborted, end) && SkippedABlock(end, key)
  {
    var written := After(aborted, NextWrite(key));
    AcknowledgeRendered(written);
    var last := Acknowledge(MasterCursor(written.ledger.epoch, written.ledger.next, written.ledger.next, 0));
    StepLost(written, last, key, 0, AUDIO_BLOCK_FRAMES);
    var end := After(written, last);
    assert FedTo(end, key) == FedTo(written, key);
    SkippedBlock(end, key);
    hide After, Enabled, Lost, SkippedABlock;
    ReachNow(aborted);
    ReachNext(aborted, aborted, NextWrite(key));
    ReachNext(aborted, written, last);
    assert Reachable(aborted, end);
  }

  lemma SkippedBlock(end: Bus, key: SourceKey)
    requires Lost(end, key, 0, AUDIO_BLOCK_FRAMES) && end.ledger.entries == []
    requires |FedTo(end, key)| == 2 * AUDIO_BLOCK_FRAMES && !end.flushing
    ensures SkippedABlock(end, key)
  {
    var fed, heard := FedTo(end, key), HeardOf(end, key);
    assert Unheard(end.ledger.entries, key, end.ledger.rendered) + PairsStream(end.replays, key) == [];
    assert heard + [] == heard;
    assert fed[..0] == [] && NumberFrom(0, fed[..0]) == [];
  }
}
