/** When a flush always has room to replay what it kept. */
module PlayoutWindow {
  import opened Common
  import opened AudioModels
  import opened LedgerSpec
  import opened LedgerInvariant
  import opened LedgerObservation
  import opened ReplayPlan
  import opened Streams
  import opened Playout

  // ---- whole-block windows always fit ----

  /** Room for every replay write that is left, even if nothing more is rendered. */
  ghost predicate RoomForReplays(bus: Bus) {
    bus.flushing ==> bus.ledger.Unrendered() + |bus.replays| * AUDIO_BLOCK_FRAMES <= bus.ledger.window
  }

  /** A ledger retains no more whole blocks than its window holds, when the
      window is a whole number of blocks. */
  lemma RetainedEntriesFit(s: LedgerState)
    requires Inv(s) && s.window % AUDIO_BLOCK_FRAMES == 0
    ensures |s.entries| * AUDIO_BLOCK_FRAMES <= s.window
  {
    TiledLength(s.entries, s.FirstStart(), s.next);
  }

  lemma SameWindow(bus: Bus, event: Event)
    requires Enabled(bus, event)
    ensures After(bus, event).ledger.window == bus.ledger.window
  {
  }

  lemma FlushLeavesRoom(bus: Bus, cursor: MasterCursor, discard: set<SourceKey>, pairs: seq<BlockPair>)
    requires Honest(bus) && Enabled(bus, BeginFlush(cursor, discard, pairs))
    requires bus.ledger.window % AUDIO_BLOCK_FRAMES == 0
    ensures RoomForReplays(After(bus, BeginFlush(cursor, discard, pairs)))
  {
    var closed := Reconcile(bus.ledger, cursor, true).state;
    ReconcileKeeps(bus.ledger, cursor, true);
    RetainedEntriesFit(closed);
    LanesFromInv(closed);
    SurvivorsAreUnheard(closed.entries, closed.FirstStart(), closed.next, SourceKey(0, SourceKind.Music, 0),
                        closed.rendered, discard);
    FlushEvent(bus, cursor, discard, pairs);
    ReconcileCases(bus.ledger, cursor, true);
    hide Inv, After, Reconcile, Survivors, Listen, Truthful;
  }

  lemma StepKeepsRoom(bus: Bus, event: Event)
    requires Honest(bus) && Enabled(bus, event) && RoomForReplays(bus)
    requires bus.ledger.window % AUDIO_BLOCK_FRAMES == 0
    ensures RoomForReplays(After(bus, event))
  {
    hide Truthful, Referenced;
    match event
    case BeginFlush(cursor, discard, pairs) => FlushLeavesRoom(bus, cursor, discard, pairs);
    case Acknowledge(cursor) => CursorEvent(bus, event);
    case Look(cursor) => CursorEvent(bus, event);
    case _ =>
  }

  /** The next replay write is refused for lack of room, whatever it sounds like. */
  ghost predicate ReplayRefused(bus: Bus) {
    && bus.flushing && bus.replays != [] && bus.ledger.pending.None? && bus.replays[0].Valid()
    && forall output | |output| == AUDIO_BLOCK_FRAMES ::
         Register(bus.ledger, Mix(bus.replays[0], output)).result == Err(WindowFull)
  }

  lemma {:induction false} RunKeepsRoom(states: seq<Bus>, events: seq<Event>)
    requires IsRun(states, events) && Honest(states[0]) && RoomForReplays(states[0])
    requires states[0].ledger.window % AUDIO_BLOCK_FRAMES == 0
    ensures Honest(states[|events|]) && RoomForReplays(states[|events|])
    ensures states[|events|].ledger.window == states[0].ledger.window
    decreases |events|
  {
    hide Enabled, After, Honest, RoomForReplays;
    if events != [] {
      RunKeepsRoom(states[..|events|], events[..|events| - 1]);
      var bus := states[|events| - 1];
      StepHonest(bus, events[|events| - 1]);
      StepKeepsRoom(bus, events[|events| - 1]);
      SameWindow(bus, events[|events| - 1]);
    }
  }

  /** One lane of the next replay write starts at or below its accepted cursor. */
  lemma ReplayLaneBelow(bus: Bus, kind: SourceKind)
    requires Honest(bus) && bus.replays != [] && bus.replays[0].Lane(kind).Some?
    ensures bus.replays[0].Valid()
    ensures
      var block := bus.replays[0].Lane(kind).value;
      block.startFrame <= ProgressOf(bus.ledger.sources, block.key).accepted
  {
    var pair := bus.replays[0];
    assert pair.Valid();
    var block := pair.Lane(kind).value;
    var left := PairsStream(bus.replays[1..], block.key);
    assert PairsStream(bus.replays, block.key) == block.Stream() + left;
    assert |block.Stream()| > 0;
    assert Truthful(bus, block.key);
    ReplayedBelow(bus.ledger, block.AsSlice(), left, FedTo(bus, block.key), HeardOf(bus, block.key), block.key);
  }

  /** The only thing that can stop a replay write is a full window. */
  lemma ReplayNeedsOnlyRoom(bus: Bus, output: seq<Frame>)
    requires Honest(bus) && bus.flushing && bus.replays != [] && bus.ledger.pending.None?
    requires |output| == AUDIO_BLOCK_FRAMES
    ensures bus.replays[0].Valid()
    ensures Enabled(bus, WriteReplay(output)) <==> bus.ledger.Unrendered() + AUDIO_BLOCK_FRAMES <= bus.ledger.window
  {
    var pair := bus.replays[0];
    assert pair.Valid();
    if pair.music.Some? {
      ReplayLaneBelow(bus, SourceKind.Music);
    }
    if pair.voice.Some? {
      ReplayLaneBelow(bus, SourceKind.Voice);
    }
    NoGapNoRefusal(bus.ledger, Mix(pair, output));
  }

  /** Replay always fits a whole-block window: in every run, whenever a replay
      write is due, the ledger takes it, even if nothing rendered meanwhile. */
  lemma ReplayAlwaysFits(window: nat, states: seq<Bus>, events: seq<Event>, output: seq<Frame>)
    requires AUDIO_BLOCK_FRAMES <= window && window % AUDIO_BLOCK_FRAMES == 0
    requires IsRun(states, events) && states[0] == Start(window)
    requires
      var bus := states[|events|];
      bus.flushing && bus.replays != [] && bus.ledger.pending.None?
    requires |output| == AUDIO_BLOCK_FRAMES
    ensures Enabled(states[|events|], WriteReplay(output))
  {
    StartHonest(window);
    RunKeepsRoom(states, events);
    ReplayNeedsOnlyRoom(states[|events|], output);
  }

  // ---- any other window can overflow ----

  lemma CountedMoves(entry: Entry, key: SourceKey, from: nat, to: nat)
    requires LaneOk(entry.music, SourceKind.Music) && LaneOk(entry.voice, SourceKind.Voice)
    requires entry.frameCount == AUDIO_BLOCK_FRAMES && from <= to
    ensures Counted(entry, key, from) <= Counted(entry, key, to)
    ensures Counted(entry, key, to) - Counted(entry, key, from) <= Max(0, Min(to, entry.End()) - Max(from, entry.start))
  {
  }

  lemma {:induction false} HeardAtMostMoved(entries: seq<Entry>, start: nat, upTo: nat, key: SourceKey, from: nat,
                                            to: nat)
    requires Tiled(entries, start, upTo) && LanesOk(entries) && from <= to
    ensures |HeardBetween(entries, key, from, to)| <= Max(0, to - Max(from, start))
  {
    hide Counted, EntryStream;
    if entries != [] {
      CountedMoves(entries[0], key, from, to);
      HeardAtMostMoved(entries[1..], start + AUDIO_BLOCK_FRAMES, upTo, key, from, to);
    }
  }

  lemma {:induction false} PairsCarryAtMostBlocks(pairs: seq<BlockPair>, key: SourceKey)
    requires PairsOk(pairs)
    ensures |PairsStream(pairs, key)| <= |pairs| * AUDIO_BLOCK_FRAMES
  {
    if pairs != [] {
      assert pairs[0].Valid();
      PairsCarryAtMostBlocks(pairs[1..], key);
    }
  }

  ghost predicate Reachable(from: Bus, to: Bus) {
    exists states: seq<Bus>, events: seq<Event> :: IsRun(states, events) && states[0] == from && states[|events|] == to
  }

  lemma ReachNow(bus: Bus)
    ensures Reachable(bus, bus)
  {
    assert IsRun([bus], []) && [bus][0] == bus;
  }

  lemma ReachNext(from: Bus, to: Bus, event: Event)
    requires Reachable(from, to) && Enabled(to, event)
    ensures Reachable(from, After(to, event))
  {
    hide Enabled, After;
    var states: seq<Bus>, events: seq<Event> :| IsRun(states, events) && states[0] == from && states[|events|] == to;
    assert IsRun(states + [After(to, event)], events + [event]);
    assert (states + [After(to, event)])[0] == from;
    assert (states + [After(to, event)])[|events + [event]|] == After(to, event);
  }

  /** One silent music block, numbered from a given frame. */
  function SilentBlock(key: SourceKey, start: nat): AudioBlock {
    AudioBlock(key, start, AUDIO_BLOCK_FRAMES, Silent(AUDIO_BLOCK_FRAMES))
  }

  /** Everything written was acknowledged, and nothing is being flushed. */
  ghost predicate Quiet(bus: Bus, key: SourceKey, written: nat, rendered: nat) {
    && Honest(bus) && !bus.flushing && bus.ledger.pending.None?
    && bus.ledger.next == bus.ledger.accepted == written && bus.ledger.rendered == rendered
    && ProgressOf(bus.ledger.sources, key).accepted == written
    && ProgressOf(bus.ledger.sources, key).rendered <= rendered
  }

  /** An acknowledgement that accepts everything and renders nothing new is taken. */
  lemma AcknowledgeAll(bus: Bus)
    requires Honest(bus) && bus.ledger.pending.Some?
    ensures
      var event := Acknowledge(MasterCursor(bus.ledger.epoch, bus.ledger.next, bus.ledger.rendered, 0));
      && Enabled(bus, event)
      && Honest(After(bus, event))
      && var s, after := bus.ledger, After(bus, event);
         && after.ledger.pending.None? && after.ledger.sources == s.sources
         && after.ledger.next == after.ledger.accepted == s.next && after.ledger.rendered == s.rendered
         && after.ledger.window == s.window && after.ledger.epoch == s.epoch
         && after.flushing == bus.flushing && after.replays == bus.replays
  {
    var s := bus.ledger;
    var event := Acknowledge(MasterCursor(s.epoch, s.next, s.rendered, 0));
    PendingIsLast(s, s.next);
    var settled := s.(entries := Settle(s.entries, s.pending.value), pending := None);
    ReconcileCases(settled, event.cursor, false);
    assert Enabled(bus, event);
    StepHonest(bus, event);
  }

  /** Write one more block and have it accepted. */
  lemma WriteOne(window: nat, bus: Bus, key: SourceKey, written: nat, rendered: nat)
    requires key.kind.Music? && bus.ledger.window == window && Quiet(bus, key, written, rendered)
    requires written - rendered + AUDIO_BLOCK_FRAMES <= window && Reachable(Start(window), bus)
    ensures exists after: Bus ::
              Reachable(Start(window), after) && after.ledger.window == window && after.ledger.epoch == bus.ledger.epoch
              && Quiet(after, key, written + AUDIO_BLOCK_FRAMES, rendered)
  {
    var pair := BlockPair(Some(SilentBlock(key, written)), None);
    var output := Silent(AUDIO_BLOCK_FRAMES);
    NoGapNoRefusal(bus.ledger, Mix(pair, output));
    var write := Write(pair, output);
    assert Enabled(bus, write);
    StepHonest(bus, write);
    NoteOneSource(bus.ledger, Mix(pair, output), key);
    var written' := After(bus, write);
    ReachNext(Start(window), bus, write);
    AcknowledgeAll(written');
    var event := Acknowledge(MasterCursor(written'.ledger.epoch, written'.ledger.next, written'.ledger.rendered, 0));
    ReachNext(Start(window), written', event);
    assert Quiet(After(written', event), key, written + AUDIO_BLOCK_FRAMES, rendered);
  }

  lemma {:induction false} FillWindow(window: nat, key: SourceKey, count: nat)
    requires AUDIO_BLOCK_FRAMES <= window && count * AUDIO_BLOCK_FRAMES <= window && key.kind.Music?
    ensures exists bus: Bus ::
              Reachable(Start(window), bus) && bus.ledger.window == window && bus.ledger.epoch == 0
              && Quiet(bus, key, count * AUDIO_BLOCK_FRAMES, 0)
  {
    if count == 0 {
      StartHonest(window);
      ReachNow(Start(window));
      assert Quiet(Start(window), key, 0, 0);
    } else {
      FillWindow(window, key, count - 1);
      var bus: Bus :| Reachable(Start(window), bus) && bus.ledger.window == window && bus.ledger.epoch == 0
                      && Quiet(bus, key, (count - 1) * AUDIO_BLOCK_FRAMES, 0);
      WriteOne(window, bus, key, (count - 1) * AUDIO_BLOCK_FRAMES, 0);
    }
  }

  /** Render part of the first block. */
  lemma RenderSome(window: nat, bus: Bus, key: SourceKey, written: nat, rendered: nat)
    requires bus.ledger.window == window && bus.ledger.epoch == 0 && Quiet(bus, key, written, 0) && rendered <= written
    requires Reachable(Start(window), bus)
    ensures exists after: Bus ::
              Reachable(Start(window), after) && after.ledger.window == window && after.ledger.epoch == 0
              && Quiet(after, key, written, rendered)
  {
    hide Reachable, HeardBetween, Unheard, LanesOk;
    var cursor := MasterCursor(0, written, rendered, 0);
    var look := Look(cursor);
    ReconcileCases(bus.ledger, cursor, false);
    assert Enabled(bus, look);
    StepHonest(bus, look);
    ReachNext(Start(window), bus, look);
    assert Truthful(bus, key);
    TruthIsConsecutive(bus.ledger, [], FedTo(bus, key), HeardOf(bus, key), key);
    assert PairsStream(bus.replays, key) == [];
    ReconcileProgress(bus.ledger, cursor, false, [], key);
    LanesFromInv(bus.ledger);
    HeardAtMostMoved(bus.ledger.entries, bus.ledger.FirstStart(), bus.ledger.next, key, 0, rendered);
    assert Quiet(After(bus, look), key, written, rendered);
  }

  /** Replaying with nothing rendered meanwhile runs into the window. */
  lemma {:induction false} ReplayUntilRefused(from: Bus, bus: Bus)
    requires Honest(bus) && bus.flushing && bus.ledger.pending.None? && bus.replays != []
    requires bus.ledger.Unrendered() + |bus.replays| * AUDIO_BLOCK_FRAMES > bus.ledger.window
    requires Reachable(from, bus)
    ensures exists end: Bus :: Reachable(from, end) && ReplayRefused(end)
    decreases |bus.replays|
  {
    var output := Silent(AUDIO_BLOCK_FRAMES);
    ReplayNeedsOnlyRoom(bus, output);
    if bus.ledger.Unrendered() + AUDIO_BLOCK_FRAMES > bus.ledger.window {
      assert ReplayRefused(bus);
    } else {
      var write := WriteReplay(output);
      StepHonest(bus, write);
      ReachNext(from, bus, write);
      var written := After(bus, write);
      AcknowledgeAll(written);
      var event := Acknowledge(MasterCursor(written.ledger.epoch, written.ledger.next, written.ledger.rendered, 0));
      ReachNext(from, written, event);
      ReplayUntilRefused(from, After(written, event));
    }
  }

  /** A flush at the ledger's own cursor replays everything accepted but not rendered. */
  lemma {:induction false} FlushLeft(bus: Bus, cursor: MasterCursor, pairs: seq<BlockPair>, key: SourceKey)
    requires Honest(bus) && Enabled(bus, BeginFlush(cursor, {}, pairs))
    requires cursor.rendered == bus.ledger.rendered
    ensures PairsOk(pairs)
    ensures |PairsStream(pairs, key)|
            == ProgressOf(bus.ledger.sources, key).accepted - ProgressOf(bus.ledger.sources, key).rendered
  {
    var after := After(bus, BeginFlush(cursor, {}, pairs));
    StepHonest(bus, BeginFlush(cursor, {}, pairs));
    FlushEvent(bus, cursor, {}, pairs);
    ReconcileCases(bus.ledger, cursor, true);
    assert Truthful(after, key);
    assert Unheard(after.ledger.entries, key, 0) == [];
  }

  /** The window is whole blocks and a part of one more; one block more than
      the whole ones was written, and all but the part of the first was rendered. */
  ghost predicate Brimming(window: nat, bus: Bus, key: SourceKey, part: nat) {
    && 0 < part < AUDIO_BLOCK_FRAMES && part <= window
    && bus.ledger.window == window && bus.ledger.epoch == 0
    && Quiet(bus, key, window - part + AUDIO_BLOCK_FRAMES, AUDIO_BLOCK_FRAMES - part)
  }

  function OwnCursor(bus: Bus): MasterCursor {
    MasterCursor(bus.ledger.epoch, bus.ledger.accepted, bus.ledger.rendered, 0)
  }

  /** Every way to replay what a brimming ledger retains needs at least the window's frames. */
  lemma BrimmingNeeds(window: nat, bus: Bus, key: SourceKey, part: nat, pairs: seq<BlockPair>)
    requires Brimming(window, bus, key, part) && Enabled(bus, BeginFlush(OwnCursor(bus), {}, pairs))
    ensures
      var after := After(bus, BeginFlush(OwnCursor(bus), {}, pairs));
      && Honest(after) && after.flushing && after.replays == pairs && after.ledger.pending.None?
      && after.ledger.window == window && after.ledger.Unrendered() == 0
    ensures |pairs| * AUDIO_BLOCK_FRAMES >= window
  {
    StepHonest(bus, BeginFlush(OwnCursor(bus), {}, pairs));
    FlushEvent(bus, OwnCursor(bus), {}, pairs);
    SameWindow(bus, BeginFlush(OwnCursor(bus), {}, pairs));
    FlushLeft(bus, OwnCursor(bus), pairs, key);
    PairsCarryAtMostBlocks(pairs, key);
  }

  /** That is more whole blocks than a part window holds. */
  lemma BrimmingOverflows(window: nat, bus: Bus, key: SourceKey, part: nat, pairs: seq<BlockPair>)
    requires window % AUDIO_BLOCK_FRAMES != 0 && Brimming(window, bus, key, part)
    requires Enabled(bus, BeginFlush(OwnCursor(bus), {}, pairs))
    ensures exists end: Bus :: Reachable(After(bus, BeginFlush(OwnCursor(bus), {}, pairs)), end) && ReplayRefused(end)
  {
    hide Honest, After, Enabled, Brimming, Reachable, ReplayRefused;
    BrimmingNeeds(window, bus, key, part, pairs);
    var after := After(bus, BeginFlush(OwnCursor(bus), {}, pairs));
    ReachNow(after);
    ReplayUntilRefused(after, after);
  }

  lemma BrimmingReachable(window: nat, key: SourceKey, part: nat, count: nat)
    requires window == count * AUDIO_BLOCK_FRAMES + part && 0 < part < AUDIO_BLOCK_FRAMES && 0 < count
             && key.kind.Music?
    ensures exists bus: Bus :: Reachable(Start(window), bus) && Brimming(window, bus, key, part)
  {
    hide Quiet, Reachable;
    FillWindow(window, key, count);
    var full: Bus :| Reachable(Start(window), full) && full.ledger.window == window && full.ledger.epoch == 0
                     && Quiet(full, key, count * AUDIO_BLOCK_FRAMES, 0);
    RenderSome(window, full, key, window - part, AUDIO_BLOCK_FRAMES - part);
    var begun: Bus :| Reachable(Start(window), begun) && begun.ledger.window == window && begun.ledger.epoch == 0
                      && Quiet(begun, key, window - part, AUDIO_BLOCK_FRAMES - part);
    WriteOne(window, begun, key, window - part, AUDIO_BLOCK_FRAMES - part);
    var bus: Bus :| Reachable(Start(window), bus) && bus.ledger.window == window && bus.ledger.epoch == 0
                    && Quiet(bus, key, window - part + AUDIO_BLOCK_FRAMES, AUDIO_BLOCK_FRAMES - part);
    assert Brimming(window, bus, key, part);
  }

  lemma OwnCursorFlushes(bus: Bus, pairs: seq<BlockPair>)
    requires Honest(bus) && !bus.flushing && bus.ledger.pending.None?
    ensures Remix(bus.ledger, OwnCursor(bus), {}).result.Ok?
    ensures SegmentsOk(Remix(bus.ledger, OwnCursor(bus), {}).result.value.survivors)
    ensures Replays(Remix(bus.ledger, OwnCursor(bus), {}).result.value.survivors, pairs) <==>
            Enabled(bus, BeginFlush(OwnCursor(bus), {}, pairs))
  {
    hide SegmentsOk, Survivors, Replays, Truth, Unheard;
    ReconcileCases(bus.ledger, OwnCursor(bus), true);
    var closed := Reconcile(bus.ledger, OwnCursor(bus), true).state;
    ReconcileKeeps(bus.ledger, OwnCursor(bus), true);
    LanesFromInv(closed);
    SurvivorsAreUnheard(closed.entries, closed.FirstStart(), closed.next, SourceKey(0, SourceKind.Music, 0),
                        closed.rendered, {});
  }

  /** From this bus a flush is possible, and every plan for its survivors, the
      bus's own included, can end in a refused replay. */
  ghost predicate FlushCanBeRefused(bus: Bus) {
    && !bus.flushing
    && Remix(bus.ledger, OwnCursor(bus), {}).result.Ok?
    && forall pairs | Replays(Remix(bus.ledger, OwnCursor(bus), {}).result.value.survivors, pairs) ::
         && Enabled(bus, BeginFlush(OwnCursor(bus), {}, pairs))
         && exists end: Bus :: Reachable(After(bus, BeginFlush(OwnCursor(bus), {}, pairs)), end) && ReplayRefused(end)
  }

  lemma PartWindowRefuses(window: nat)
    requires AUDIO_BLOCK_FRAMES <= window && window % AUDIO_BLOCK_FRAMES != 0
    ensures exists bus: Bus ::
              Reachable(Start(window), bus) && Honest(bus) && bus.ledger.pending.None? && FlushCanBeRefused(bus)
  {
    var key := SourceKey(0, SourceKind.Music, 0);
    var part := window % AUDIO_BLOCK_FRAMES;
    BrimmingReachable(window, key, part, window / AUDIO_BLOCK_FRAMES);
    var bus: Bus :| Reachable(Start(window), bus) && Brimming(window, bus, key, part);
    forall pairs | Replays(Remix(bus.ledger, OwnCursor(bus), {}).result.value.survivors, pairs)
      ensures Enabled(bus, BeginFlush(OwnCursor(bus), {}, pairs))
      ensures exists end: Bus :: Reachable(After(bus, BeginFlush(OwnCursor(bus), {}, pairs)), end) && ReplayRefused(end)
    {
      OwnCursorFlushes(bus, pairs);
      BrimmingOverflows(window, bus, key, part, pairs);
    }
    OwnCursorFlushes(bus, []);
    assert FlushCanBeRefused(bus);
  }

  lemma ReachOnward(from: Bus, mid: Bus, states: seq<Bus>, events: seq<Event>)
    requires Reachable(from, mid) && IsRun(states, events) && states[0] == mid
    ensures Reachable(from, states[|events|])
    decreases |events|
  {
    hide Enabled, After, Reachable;
    if events != [] {
      var n := |events|;
      ReachOnward(from, mid, states[..n], events[..n - 1]);
      ReachNext(from, states[n - 1], events[n - 1]);
    }
  }

  lemma RefusalReachable(window: nat, bus: Bus)
    requires Honest(bus) && bus.ledger.pending.None? && Reachable(Start(window), bus) && FlushCanBeRefused(bus)
    ensures exists end: Bus :: Reachable(Start(window), end) && ReplayRefused(end)
  {
    OwnCursorFlushes(bus, []);
    PlanExists(Remix(bus.ledger, OwnCursor(bus), {}).result.value.survivors);
    var pairs :| Replays(Remix(bus.ledger, OwnCursor(bus), {}).result.value.survivors, pairs);
    var flush := BeginFlush(OwnCursor(bus), {}, pairs);
    ReachNext(Start(window), bus, flush);
    var after := After(bus, flush);
    var end: Bus :| Reachable(after, end) && ReplayRefused(end);
    var states: seq<Bus>, events: seq<Event> :| IsRun(states, events) && states[0] == after && states[|events|] == end;
    ReachOnward(Start(window), after, states, events);
  }

  /** Replay always fits if and only if the window is a whole number of blocks. */
  lemma ReplayFitsExactly(window: nat)
    requires AUDIO_BLOCK_FRAMES <= window
    ensures window % AUDIO_BLOCK_FRAMES == 0 <==> !exists end: Bus ::
            Reachable(Start(window), end) && ReplayRefused(end)
  {
    if window % AUDIO_BLOCK_FRAMES != 0 {
      PartWindowRefuses(window);
      var bus: Bus :| Reachable(Start(window), bus) && Honest(bus) && bus.ledger.pending.None?
        && FlushCanBeRefused(bus);
      RefusalReachable(window, bus);
    } else {
      forall end: Bus | Reachable(Start(window), end) ensures !ReplayRefused(end) {
        var states: seq<Bus>, events: seq<Event> :| IsRun(states, events) && states[0] == Start(window)
          && states[|events|] == end;
        if end.flushing && end.replays != [] && end.ledger.pending.None? {
          ReplayAlwaysFits(window, states, events, Silent(AUDIO_BLOCK_FRAMES));
        }
      }
    }
  }
}
