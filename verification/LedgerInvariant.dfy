/** The ledger invariant holds in every reachable state, also after an
    operation that raises. */
module LedgerInvariant {
  import opened Common
  import opened AudioModels
  import opened LedgerSpec

  // ---- tiling ----

  lemma {:induction false} TiledPosition(entries: seq<Entry>, from: nat, upTo: nat, i: nat)
    requires Tiled(entries, from, upTo) && i < |entries|
    ensures entries[i].start == from + i * AUDIO_BLOCK_FRAMES
    ensures entries[i].frameCount == AUDIO_BLOCK_FRAMES == |entries[i].output|
  {
    if i > 0 {
      TiledPosition(entries[1..], from + AUDIO_BLOCK_FRAMES, upTo, i - 1);
    }
  }

  lemma {:induction false} TiledLength(entries: seq<Entry>, from: nat, upTo: nat)
    requires Tiled(entries, from, upTo)
    ensures upTo == from + |entries| * AUDIO_BLOCK_FRAMES
  {
    if entries != [] {
      TiledLength(entries[1..], from + AUDIO_BLOCK_FRAMES, upTo);
    }
  }

  lemma {:induction false} TiledAppend(entries: seq<Entry>, from: nat, upTo: nat, entry: Entry)
    requires Tiled(entries, from, upTo)
    requires entry.start == upTo && entry.frameCount == AUDIO_BLOCK_FRAMES == |entry.output|
    ensures Tiled(entries + [entry], from, upTo + AUDIO_BLOCK_FRAMES)
  {
    if entries == [] {
      assert entries + [entry] == [entry];
      assert Tiled([entry][1..], from + AUDIO_BLOCK_FRAMES, upTo + AUDIO_BLOCK_FRAMES);
    } else {
      TiledAppend(entries[1..], from + AUDIO_BLOCK_FRAMES, upTo, entry);
      assert (entries + [entry])[1..] == entries[1..] + [entry];
    }
  }

  lemma {:induction false} TiledDrop(entries: seq<Entry>, from: nat, upTo: nat, cursor: nat)
    requires Tiled(entries, from, upTo) && from <= cursor <= upTo
    ensures
      var kept := DropRendered(entries, cursor);
      var start := if kept == [] then upTo else kept[0].start;
      Tiled(kept, start, upTo) && start <= cursor && (kept != [] ==> cursor < kept[0].End())
  {
    if entries != [] && entries[0].End() <= cursor {
      TiledDrop(entries[1..], from + AUDIO_BLOCK_FRAMES, upTo, cursor);
    }
  }

  /** Which block of a stretch a position falls into, and where in it. */
  function Slot(at: nat): nat { at / AUDIO_BLOCK_FRAMES }

  function Offset(at: nat): nat { at % AUDIO_BLOCK_FRAMES }

  lemma {:induction false} SampleAtPosition(entries: seq<Entry>, from: nat, upTo: nat, position: nat)
    requires Tiled(entries, from, upTo) && from <= position < upTo
    ensures
      var at := position - from;
      && Slot(at) < |entries| && Offset(at) < |entries[Slot(at)].output|
      && SampleAt(entries, position) == Some(entries[Slot(at)].output[Offset(at)])
  {
    var at := position - from;
    if at >= AUDIO_BLOCK_FRAMES {
      OneBlockLess(at);
      hide Slot, Offset;
      SampleAtPosition(entries[1..], from + AUDIO_BLOCK_FRAMES, upTo, position);
    }
  }

  lemma OneBlockLess(at: nat)
    requires at >= AUDIO_BLOCK_FRAMES
    ensures Slot(at) == Slot(at - AUDIO_BLOCK_FRAMES) + 1 && Offset(at) == Offset(at - AUDIO_BLOCK_FRAMES)
  {
  }

  // ---- marking entries changes nothing the cursors depend on ----

  ghost predicate SameAudio(a: Entry, b: Entry) {
    a == b.(state := a.state)
  }

  ghost predicate AllSameAudio(a: seq<Entry>, b: seq<Entry>) {
    |a| == |b| && forall i | 0 <= i < |a| :: SameAudio(a[i], b[i])
  }

  lemma {:induction false} SameAudioTiled(a: seq<Entry>, b: seq<Entry>, from: nat, upTo: nat)
    requires AllSameAudio(a, b) && Tiled(b, from, upTo)
    ensures Tiled(a, from, upTo)
  {
    if a != [] {
      assert SameAudio(a[0], b[0]);
      assert AllSameAudio(a[1..], b[1..]);
      SameAudioTiled(a[1..], b[1..], from + AUDIO_BLOCK_FRAMES, upTo);
    }
  }

  lemma {:induction false} SameAudioReach(a: seq<Entry>, b: seq<Entry>, key: SourceKey, cursor: nat)
    requires AllSameAudio(a, b)
    ensures Reach(a, key, cursor) == Reach(b, key, cursor)
  {
    if a != [] {
      assert SameAudio(a[0], b[0]);
      SameAudioReach(a[1..], b[1..], key, cursor);
    }
  }

  lemma SameAudioAccounted(a: seq<Entry>, b: seq<Entry>, sources: SourceTable, rendered: nat)
    requires AllSameAudio(a, b) && AllAccounted(b, sources, rendered)
    ensures AllAccounted(a, sources, rendered)
  {
    forall i | 0 <= i < |a| ensures Accounted(a[i], sources, rendered) {
      assert SameAudio(a[i], b[i]) && Accounted(b[i], sources, rendered);
      forall key | a[i].SliceOf(key).Some?
        ensures key in sources && a[i].SliceOf(key).value.EndFrame() <= sources[key].accepted
        ensures EntryReach(a[i], key, rendered) <= sources[key].rendered
      {
        assert b[i].SliceOf(key) == a[i].SliceOf(key);
      }
    }
  }

  // ---- advancing source cursors ----

  lemma {:induction false} ReachCovers(entries: seq<Entry>, key: SourceKey, cursor: nat, i: nat)
    requires i < |entries|
    ensures EntryReach(entries[i], key, cursor) <= Reach(entries, key, cursor)
  {
    if i > 0 {
      ReachCovers(entries[1..], key, cursor, i - 1);
    }
  }

  lemma {:induction false} ReachBounded(entries: seq<Entry>, key: SourceKey, cursor: nat, bound: nat)
    requires forall i | 0 <= i < |entries| :: EntryReach(entries[i], key, cursor) <= bound
    ensures Reach(entries, key, cursor) <= bound
  {
    if entries != [] {
      assert EntryReach(entries[0], key, cursor) <= bound;
      forall i | 0 <= i < |entries[1..]| ensures EntryReach(entries[1..][i], key, cursor) <= bound {
        assert entries[1..][i] == entries[i + 1];
      }
      ReachBounded(entries[1..], key, cursor, bound);
    }
  }

  /** Advancing can never overrun: every reached frame belongs to an accepted slice. */
  lemma AdvanceOrdered(entries: seq<Entry>, sources: SourceTable, rendered: nat, cursor: nat)
    requires AllAccounted(entries, sources, rendered) && CursorsOrdered(sources)
    ensures CursorsOrdered(Advance(entries, sources, cursor))
  {
    forall key | key in sources ensures Reach(entries, key, cursor) <= sources[key].accepted {
      forall i | 0 <= i < |entries| ensures EntryReach(entries[i], key, cursor) <= sources[key].accepted {
        assert Accounted(entries[i], sources, rendered);
      }
      ReachBounded(entries, key, cursor, sources[key].accepted);
    }
  }

  lemma AdvanceAccounted(entries: seq<Entry>, sources: SourceTable, rendered: nat, cursor: nat)
    requires AllAccounted(entries, sources, rendered)
    ensures AllAccounted(entries, Advance(entries, sources, cursor), cursor)
  {
    var moved := Advance(entries, sources, cursor);
    forall i | 0 <= i < |entries| ensures Accounted(entries[i], moved, cursor) {
      assert Accounted(entries[i], sources, rendered);
      forall key | entries[i].SliceOf(key).Some?
        ensures key in moved && entries[i].SliceOf(key).value.EndFrame() <= moved[key].accepted
        ensures EntryReach(entries[i], key, cursor) <= moved[key].rendered
      {
        ReachCovers(entries, key, cursor, i);
      }
    }
  }

  // ---- accepting slices ----

  /** One source table tracks at least what another does, with no cursor behind. */
  ghost predicate NotBehind(before: SourceTable, after: SourceTable) {
    forall key | key in before ::
      && key in after
      && before[key].accepted <= after[key].accepted
      && before[key].rendered <= after[key].rendered
  }

  lemma {:induction false} NoteAllKeeps(sources: SourceTable, slices: seq<SourceSlice>)
    requires CursorsOrdered(sources)
    ensures
      var (noted, ok) := NoteAll(sources, slices);
      && CursorsOrdered(noted)
      && NotBehind(sources, noted)
      && (forall key | key in noted :: noted[key].rendered == ProgressOf(sources, key).rendered)
      && (ok ==> forall i | 0 <= i < |slices| ::
                   slices[i].key in noted && slices[i].EndFrame() <= noted[slices[i].key].accepted)
    decreases |slices|
  {
    if slices != [] {
      var (first, ok) := NoteAccepted(sources, slices[0]);
      if ok {
        NoteAllKeeps(first, slices[1..]);
        var (noted, all) := NoteAll(first, slices[1..]);
        forall i | all && 0 <= i < |slices|
          ensures slices[i].key in noted && slices[i].EndFrame() <= noted[slices[i].key].accepted
        {
          if i > 0 {
            assert slices[i] == slices[1..][i - 1];
          }
        }
      }
    }
  }

  lemma AccountedNotBehind(entries: seq<Entry>, before: SourceTable, after: SourceTable, rendered: nat)
    requires AllAccounted(entries, before, rendered) && NotBehind(before, after)
    ensures AllAccounted(entries, after, rendered)
  {
    forall i | 0 <= i < |entries| ensures Accounted(entries[i], after, rendered) {
      assert Accounted(entries[i], before, rendered);
    }
  }

  // ---- each operation keeps the invariant ----

  lemma RegisterKeeps(s: LedgerState, mixed: MixedBlock)
    requires Inv(s) && mixed.Valid()
    ensures Inv(Register(s, mixed).state)
    ensures NotBehind(s.sources, Register(s, mixed).state.sources)
  {
    hide NoteAll, Accounted;
    var out := Register(s, mixed);
    var entry := NewEntry(s, mixed);
    NoteAllKeeps(s.sources, entry.Sources());
    AccountedNotBehind(s.entries, s.sources, NoteAll(s.sources, entry.Sources()).0, s.rendered);
    if out.result.Ok? {
      TiledAppend(s.entries, s.FirstStart(), s.next, entry);
      assert out.state.FirstStart() == s.FirstStart();
      NewEntryAccounted(s, mixed, out.state.sources);
    }
  }

  /** Nothing of a new entry is rendered yet, and its frames count as accepted. */
  lemma NewEntryAccounted(s: LedgerState, mixed: MixedBlock, sources: SourceTable)
    requires s.rendered <= s.next && mixed.Valid()
    requires forall slice | slice in NewEntry(s, mixed).Sources() ::
      slice.key in sources && slice.EndFrame() <= sources[slice.key].accepted
    ensures Accounted(NewEntry(s, mixed), sources, s.rendered)
  {
    var entry := NewEntry(s, mixed);
    forall key | entry.SliceOf(key).Some?
      ensures key in sources
      ensures entry.SliceOf(key).value.EndFrame() <= sources[key].accepted
      ensures EntryReach(entry, key, s.rendered) == 0
    {
      assert entry.SliceOf(key).value in entry.Sources();
    }
  }

  lemma MarkAcceptedSameAudio(entries: seq<Entry>, accepted: nat)
    ensures AllSameAudio(MarkAccepted(entries, accepted), entries)
  {
  }

  lemma MarkKeeps(s: LedgerState, accepted: nat)
    requires Inv(s)
    ensures Inv(s.(entries := MarkAccepted(s.entries, accepted)))
  {
    var marked := MarkAccepted(s.entries, accepted);
    MarkAcceptedSameAudio(s.entries, accepted);
    SameAudioTiled(marked, s.entries, s.FirstStart(), s.next);
    SameAudioAccounted(marked, s.entries, s.sources, s.rendered);
  }

  lemma {:induction false} DropIsSuffix(entries: seq<Entry>, cursor: nat)
    ensures |DropRendered(entries, cursor)| <= |entries|
    ensures DropRendered(entries, cursor) == entries[|entries| - |DropRendered(entries, cursor)|..]
  {
    if entries != [] && entries[0].End() <= cursor {
      DropIsSuffix(entries[1..], cursor);
    }
  }

  lemma SuffixAccounted(entries: seq<Entry>, dropped: nat, sources: SourceTable, rendered: nat)
    requires dropped <= |entries| && AllAccounted(entries, sources, rendered)
    ensures AllAccounted(entries[dropped..], sources, rendered)
  {
    forall i | 0 <= i < |entries| - dropped ensures Accounted(entries[dropped..][i], sources, rendered) {
      assert Accounted(entries[dropped + i], sources, rendered);
    }
  }

  lemma SuffixNumbering(entries: seq<Entry>, dropped: nat, nextId: nat, epoch: nat)
    requires dropped <= |entries| && Numbering(entries, nextId, epoch)
    ensures Numbering(entries[dropped..], nextId, epoch)
  {
  }

  /** Reconciliation case by case: the first failing check decides, and only the
      last one is reached after entries were marked. */
  lemma ReconcileCases(s: LedgerState, cursor: MasterCursor, allowPending: bool)
    ensures
      var out := Reconcile(s, cursor, allowPending);
      var marked := MarkAccepted(s.entries, cursor.accepted);
      var reached := PendingReached(s, cursor.accepted);
      if cursor.epoch != s.epoch then out == Outcome(s, Err(WrongEpoch))
      else if cursor.accepted < s.accepted then out == Outcome(s, Err(AcceptedBackwards))
      else if cursor.rendered < s.rendered then out == Outcome(s, Err(RenderedBackwards))
      else if cursor.accepted > s.next then out == Outcome(s, Err(AcceptedBeyondRegistered))
      else if cursor.rendered > cursor.accepted then out == Outcome(s, Err(RenderedBeyondAccepted))
      else if reached && !allowPending then out == Outcome(s.(entries := marked), Err(PendingUncommitted))
      else
        && out.result == Ok(())
        && out.state == LedgerState(s.window, s.epoch, s.next, cursor.accepted, cursor.rendered, s.nextId,
             if reached then None else s.pending, DropRendered(marked, cursor.rendered),
             if cursor.rendered > s.rendered then Advance(marked, s.sources, cursor.rendered) else s.sources,
             if cursor.rendered > s.rendered && SampleAt(marked, cursor.rendered - 1).Some?
             then SampleAt(marked, cursor.rendered - 1) else s.lastSample)
  {
  }

  lemma {:induction false} MovedSources(entries: seq<Entry>, sources: SourceTable, rendered: nat, cursor: nat)
    requires AllAccounted(entries, sources, rendered) && CursorsOrdered(sources) && rendered <= cursor
    ensures
      var moved := if cursor > rendered then Advance(entries, sources, cursor) else sources;
      CursorsOrdered(moved) && AllAccounted(DropRendered(entries, cursor), moved, cursor) && NotBehind(sources, moved)
  {
    if cursor > rendered {
      AdvanceOrdered(entries, sources, rendered, cursor);
      AdvanceAccounted(entries, sources, rendered, cursor);
      assert NotBehind(sources, Advance(entries, sources, cursor));
    }
    DropIsSuffix(entries, cursor);
    SuffixAccounted(entries, |entries| - |DropRendered(entries, cursor)|,
                    if cursor > rendered then Advance(entries, sources, cursor) else sources, cursor);
  }

  /** The source cursors after reconciliation are ordered, cover every entry, and are not behind. */
  lemma ReconciledSources(s: LedgerState, cursor: MasterCursor, allowPending: bool)
    requires Inv(s) && Reconcile(s, cursor, allowPending).result.Ok?
    ensures
      var done := Reconcile(s, cursor, allowPending).state;
      && CursorsOrdered(done.sources)
      && AllAccounted(done.entries, done.sources, done.rendered)
      && NotBehind(s.sources, done.sources)
  {
    ReconcileCases(s, cursor, allowPending);
    MarkKeeps(s, cursor.accepted);
    hide Reconcile, AllAccounted, CursorsOrdered, NotBehind, Advance, DropRendered, SampleAt, PendingReached;
    MovedSources(MarkAccepted(s.entries, cursor.accepted), s.sources, s.rendered, cursor.rendered);
  }

  lemma ReconciledEntries(s: LedgerState, cursor: MasterCursor, allowPending: bool)
    requires Inv(s) && Reconcile(s, cursor, allowPending).result.Ok?
    ensures
      var done := Reconcile(s, cursor, allowPending).state;
      && Tiled(done.entries, done.FirstStart(), done.next)
      && done.FirstStart() <= done.rendered <= done.accepted <= done.next
      && (done.entries != [] ==> done.rendered < done.entries[0].End())
      && Numbering(done.entries, done.nextId, done.epoch)
  {
    MarkKeeps(s, cursor.accepted);
    var marked := MarkAccepted(s.entries, cursor.accepted);
    var done := Reconcile(s, cursor, allowPending).state;
    TiledDrop(marked, s.FirstStart(), s.next, cursor.rendered);
    DropIsSuffix(marked, cursor.rendered);
    SuffixNumbering(marked, |marked| - |done.entries|, s.nextId, s.epoch);
  }

  lemma ReconciledPending(s: LedgerState, cursor: MasterCursor, allowPending: bool)
    requires Inv(s) && Reconcile(s, cursor, allowPending).result.Ok?
    ensures
      var done := Reconcile(s, cursor, allowPending).state;
      done.pending.Some? ==>
        && done.entries != []
        && done.entries[|done.entries| - 1].id == done.pending.value
        && done.accepted < done.next
  {
    if Reconcile(s, cursor, allowPending).state.pending.Some? {
      PendingIsLast(s, cursor.accepted);
      LastSurvives(MarkAccepted(s.entries, cursor.accepted), cursor.rendered);
    }
  }

  lemma {:induction false} LastSurvives(entries: seq<Entry>, cursor: nat)
    requires entries != [] && cursor < entries[|entries| - 1].End()
    ensures DropRendered(entries, cursor) != []
    ensures DropRendered(entries, cursor)[|DropRendered(entries, cursor)| - 1] == entries[|entries| - 1]
  {
    if entries[0].End() <= cursor {
      LastSurvives(entries[1..], cursor);
    }
  }

  lemma ReconcileKeeps(s: LedgerState, cursor: MasterCursor, allowPending: bool)
    requires Inv(s)
    ensures Inv(Reconcile(s, cursor, allowPending).state)
    ensures NotBehind(s.sources, Reconcile(s, cursor, allowPending).state.sources)
  {
    var out := Reconcile(s, cursor, allowPending);
    if out.result.Ok? {
      ReconcileCases(s, cursor, allowPending);
      hide Reconcile, AllAccounted, CursorsOrdered, Tiled, Numbering;
      ReconciledSources(s, cursor, allowPending);
      ReconciledEntries(s, cursor, allowPending);
      ReconciledPending(s, cursor, allowPending);
    } else {
      MarkKeeps(s, cursor.accepted);
    }
  }

  /** A write that the SDK has not reached is the newest entry, beyond its accepted cursor. */
  lemma PendingIsLast(s: LedgerState, accepted: nat)
    requires Inv(s) && s.pending.Some? && accepted <= s.next
    ensures PendingReached(s, accepted) <==> accepted == s.next
    ensures s.entries[|s.entries| - 1].End() == s.next
  {
    var last := |s.entries| - 1;
    TiledPosition(s.entries, s.FirstStart(), s.next, last);
    TiledLength(s.entries, s.FirstStart(), s.next);
    if PendingReached(s, accepted) {
      var i :| 0 <= i < |s.entries| && s.entries[i].id == s.pending.value && s.entries[i].End() <= accepted;
      assert i == last;
    } else {
      assert s.entries[last].id == s.pending.value;
    }
  }

  lemma ObserveKeeps(s: LedgerState, cursor: MasterCursor)
    requires Inv(s)
    ensures Inv(Observe(s, cursor).state) && NotBehind(s.sources, Observe(s, cursor).state.sources)
  {
    ReconcileKeeps(s, cursor, false);
  }

  lemma MarkWrittenKeeps(s: LedgerState, id: nat, cursor: MasterCursor)
    requires Inv(s)
    ensures Inv(MarkWritten(s, id, cursor).state) && NotBehind(s.sources, MarkWritten(s, id, cursor).state.sources)
  {
    var settled := s.(entries := Settle(s.entries, id), pending := None);
    assert AllSameAudio(settled.entries, s.entries);
    SameAudioTiled(settled.entries, s.entries, s.FirstStart(), s.next);
    SameAudioAccounted(settled.entries, s.entries, s.sources, s.rendered);
    assert Inv(settled);
    ObserveKeeps(settled, cursor);
  }

  lemma RemixKeeps(s: LedgerState, cursor: MasterCursor, discard: set<SourceKey>)
    requires Inv(s)
    ensures Inv(Remix(s, cursor, discard).state)
    ensures NotBehind(s.sources, Remix(s, cursor, discard).state.sources)
  {
    ReconcileKeeps(s, cursor, true);
  }

  lemma ForgetKeeps(s: LedgerState, keys: set<SourceKey>)
    requires Inv(s)
    ensures Inv(Forget(s, keys).state)
    ensures forall key | key in s.sources && key !in keys ::
              key in Forget(s, keys).state.sources && Forget(s, keys).state.sources[key] == s.sources[key]
  {
    var out := Forget(s, keys);
    forall i | 0 <= i < |s.entries| ensures Accounted(s.entries[i], out.state.sources, s.rendered) {
      assert Accounted(s.entries[i], s.sources, s.rendered);
      forall key | s.entries[i].SliceOf(key).Some? ensures key in out.state.sources {
        assert Referenced(s.entries, key);
      }
    }
  }

  // ---- what is accepted and what is refused ----

  /** Release is refused exactly while an entry refers to a key; otherwise the
      keys are gone, and the answer is how many of them were tracked. */
  lemma ForgetExactly(s: LedgerState, keys: set<SourceKey>)
    ensures
      var out := Forget(s, keys);
      && (out.result.Ok? <==> forall key | key in keys :: !Referenced(s.entries, key))
      && (out.result.Ok? ==>
            && out.state.sources.Keys == s.sources.Keys - keys
            && |s.sources.Keys| == |out.state.sources.Keys| + out.result.value)
      && (out.result.Err? ==> out.state == s)
  {
    if Forget(s, keys).result.Ok? {
      var gone := s.sources.Keys * keys;
      assert s.sources.Keys == (s.sources.Keys - keys) + gone;
      assert (s.sources - keys).Keys == s.sources.Keys - keys;
    }
  }

  /** A write is acknowledged exactly by its own id and a cursor of the epoch that
      took in everything registered and rendered no less than before. */
  lemma AcknowledgeExactly(s: LedgerState, id: nat, cursor: MasterCursor)
    requires Inv(s)
    ensures MarkWritten(s, id, cursor).result.Ok? <==>
              && s.pending == Some(id) && cursor.epoch == s.epoch
              && cursor.accepted == s.next && s.rendered <= cursor.rendered <= cursor.accepted
    ensures MarkWritten(s, id, cursor).result.Ok? ==>
              var done := MarkWritten(s, id, cursor).state;
              done.pending.None? && done.accepted == done.next == s.next && done.rendered == cursor.rendered
  {
    if s.pending == Some(id) {
      if cursor.accepted <= s.next {
        PendingIsLast(s, cursor.accepted);
      }
      ReconcileCases(s.(entries := Settle(s.entries, id), pending := None), cursor, false);
    }
    hide Inv, Reconcile;
  }

  /** A registration that leaves a gap registers nothing, and keeps its source tracked below the gap. */
  lemma {:induction false} GapRegistersNothing(s: LedgerState, mixed: MixedBlock)
    requires Register(s, mixed).result == Err(FrameGap)
    ensures
      var after := Register(s, mixed).state;
      && after == s.(nextId := s.nextId + 1, sources := after.sources)
      && exists slice | slice in NewEntry(s, mixed).Sources() ::
           slice.key in after.sources && slice.startFrame > after.sources[slice.key].accepted
  {
    GapIsTracked(s.sources, NewEntry(s, mixed).Sources());
  }

  lemma {:induction false} GapIsTracked(sources: SourceTable, slices: seq<SourceSlice>)
    requires !NoteAll(sources, slices).1
    ensures
      exists slice | slice in slices ::
        slice.key in NoteAll(sources, slices).0 && slice.startFrame > NoteAll(sources, slices).0[slice.key].accepted
    decreases |slices|
  {
    var (noted, ok) := NoteAccepted(sources, slices[0]);
    if ok {
      GapIsTracked(noted, slices[1..]);
      var slice :| slice in slices[1..]
        && slice.key in NoteAll(noted, slices[1..]).0
        && slice.startFrame > NoteAll(noted, slices[1..]).0[slice.key].accepted;
      assert slice in slices;
    } else {
      assert slices[0] in slices;
    }
  }

  /** A cursor marks exactly the entries that end within its accepted range. */
  lemma {:induction false} CursorMarks(s: LedgerState, cursor: MasterCursor, allowPending: bool)
    requires Inv(s) && Reconcile(s, cursor, allowPending).result.Ok?
    ensures
      var after := Reconcile(s, cursor, allowPending).state.entries;
      && |after| <= |s.entries|
      && forall i | 0 <= i < |after| ::
           var before := s.entries[|s.entries| - |after| + i];
           after[i] == if before.End() <= cursor.accepted then before.(state := Accepted) else before
  {
    ReconcileCases(s, cursor, allowPending);
    DropIsSuffix(MarkAccepted(s.entries, cursor.accepted), cursor.rendered);
    hide Inv, Reconcile, DropRendered;
  }

  // ---- whole runs ----

  datatype Operation =
    | DoRegister(mixed: MixedBlock)
    | DoMarkWritten(id: nat, cursor: MasterCursor)
    | DoObserve(cursor: MasterCursor)
    | DoRemix(cursor: MasterCursor, discard: set<SourceKey>)
    | DoForget(keys: set<SourceKey>)

  ghost predicate Callable(op: Operation) {
    op.DoRegister? ==> op.mixed.Valid()
  }

  ghost function Perform(s: LedgerState, op: Operation): LedgerState {
    match op
    case DoRegister(mixed) => Register(s, mixed).state
    case DoMarkWritten(id, cursor) => MarkWritten(s, id, cursor).state
    case DoObserve(cursor) => Observe(s, cursor).state
    case DoRemix(cursor, discard) => Remix(s, cursor, discard).state
    case DoForget(keys) => Forget(s, keys).state
  }

  ghost function Run(s: LedgerState, ops: seq<Operation>): LedgerState {
    if ops == [] then s else Perform(Run(s, ops[..|ops| - 1]), ops[|ops| - 1])
  }

  ghost predicate Forgets(op: Operation, key: SourceKey) {
    op.DoForget? && key in op.keys
  }

  lemma PerformKeeps(s: LedgerState, op: Operation)
    requires Inv(s) && Callable(op)
    ensures Inv(Perform(s, op))
    ensures forall key | key in s.sources && !Forgets(op, key) ::
              && key in Perform(s, op).sources
              && s.sources[key].accepted <= Perform(s, op).sources[key].accepted
              && s.sources[key].rendered <= Perform(s, op).sources[key].rendered
  {
    match op
    case DoRegister(mixed) => RegisterKeeps(s, mixed);
    case DoMarkWritten(id, cursor) => MarkWrittenKeeps(s, id, cursor);
    case DoObserve(cursor) => ObserveKeeps(s, cursor);
    case DoRemix(cursor, discard) => RemixKeeps(s, cursor, discard);
    case DoForget(keys) => ForgetKeeps(s, keys);
  }

  /** The invariant holds after every run, whatever was refused on the way. */
  lemma {:induction false} EveryRunKeepsInv(window: nat, ops: seq<Operation>)
    requires AUDIO_BLOCK_FRAMES <= window
    requires forall i | 0 <= i < |ops| :: Callable(ops[i])
    ensures Inv(Run(Initial(window), ops))
  {
    if ops != [] {
      EveryRunKeepsInv(window, ops[..|ops| - 1]);
      PerformKeeps(Run(Initial(window), ops[..|ops| - 1]), ops[|ops| - 1]);
    }
  }

  /** Source cursors never move backwards, in one epoch or across many, until
      the source is forgotten. */
  lemma {:induction false} CursorsMonotone(s: LedgerState, ops: seq<Operation>, key: SourceKey)
    requires Inv(s) && key in s.sources
    requires forall i | 0 <= i < |ops| :: Callable(ops[i]) && !Forgets(ops[i], key)
    ensures Inv(Run(s, ops)) && key in Run(s, ops).sources
    ensures s.sources[key].accepted <= Run(s, ops).sources[key].accepted
    ensures s.sources[key].rendered <= Run(s, ops).sources[key].rendered
    decreases |ops|
  {
    if ops != [] {
      CursorsMonotone(s, ops[..|ops| - 1], key);
      PerformKeeps(Run(s, ops[..|ops| - 1]), ops[|ops| - 1]);
    }
  }
}
