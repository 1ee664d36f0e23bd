/** The master playout ledger: one window of registered master blocks that maps
    the SDK's accepted and rendered counters back to per-source cursors. */
module Ledger {
  import opened Common
  import opened AudioModels
  import opened LedgerSpec
  import opened LedgerInvariant

  lemma {:induction false} ReachBeyond(entries: seq<Entry>, from: nat, upTo: nat, key: SourceKey, cursor: nat)
    requires Tiled(entries, from, upTo) && cursor <= from
    ensures Reach(entries, key, cursor) == 0
  {
    if entries != [] {
      ReachBeyond(entries[1..], from + AUDIO_BLOCK_FRAMES, upTo, key, cursor);
    }
  }

  lemma {:induction false} TiledSuffix(entries: seq<Entry>, from: nat, upTo: nat, i: nat)
    requires Tiled(entries, from, upTo) && i < |entries|
    ensures Tiled(entries[i..], entries[i].start, upTo)
  {
    if i > 0 {
      TiledSuffix(entries[1..], from + AUDIO_BLOCK_FRAMES, upTo, i - 1);
      assert entries[1..][i - 1..] == entries[i..];
    }
  }

  lemma SurvivorValid(entry: Entry, rendered: nat, discard: set<SourceKey>)
    requires LaneOk(entry.music, SourceKind.Music) && LaneOk(entry.voice, SourceKind.Voice)
    ensures forall segment | segment in EntrySurvivor(entry, rendered, discard) :: segment.Valid()
  {
  }

  /** The source table after i entries have been advanced: what remains to count
      is exactly what the remaining entries reach. */
  ghost predicate AdvancedUpTo(before: SourceTable, now: SourceTable, entries: seq<Entry>, i: nat, cursor: nat)
    requires i <= |entries|
  {
    && now.Keys == before.Keys
    && forall key | key in before ::
         && now[key].accepted == before[key].accepted
         && Max(now[key].rendered, Reach(entries[i..], key, cursor))
              == Max(before[key].rendered, Reach(entries, key, cursor))
  }

  ghost predicate EntryAdvanced(before: SourceTable, now: SourceTable, entry: Entry, cursor: nat) {
    && now.Keys == before.Keys
    && forall key | key in before ::
         now[key] == Progress(before[key].accepted, Max(before[key].rendered, EntryReach(entry, key, cursor)))
  }

  function AdvanceSlice(sources: SourceTable, start: nat, slice: SourceSlice, cursor: nat): SourceTable {
    var counted := slice.RenderedBefore(start, cursor);
    var progress := ProgressOf(sources, slice.key);
    if counted == 0 then sources
    else sources[slice.key := progress.(rendered := Max(progress.rendered, slice.startFrame + counted))]
  }

  /** Advance the listed slices one after another. */
  function AdvanceSlices(sources: SourceTable, start: nat, slices: seq<SourceSlice>, cursor: nat): SourceTable
    decreases |slices|
  {
    if slices == [] then sources
    else AdvanceSlices(AdvanceSlice(sources, start, slices[0], cursor), start, slices[1..], cursor)
  }

  function SliceReach(slice: SourceSlice, start: nat, key: SourceKey, cursor: nat): nat {
    var counted := slice.RenderedBefore(start, cursor);
    if slice.key != key || counted == 0 then 0 else slice.startFrame + counted
  }

  ghost predicate SliceAdvanced(before: SourceTable, now: SourceTable, slice: SourceSlice, start: nat, cursor: nat) {
    && now.Keys == before.Keys
    && forall key | key in before ::
         now[key] == Progress(before[key].accepted, Max(before[key].rendered, SliceReach(slice, start, key, cursor)))
  }

  lemma AdvanceSliceMeaning(sources: SourceTable, start: nat, slice: SourceSlice, cursor: nat)
    requires slice.key in sources
    ensures SliceAdvanced(sources, AdvanceSlice(sources, start, slice, cursor), slice, start, cursor)
  {
  }

  lemma {:induction false} AdvanceOne(sources: SourceTable, start: nat, slice: SourceSlice, cursor: nat)
    ensures AdvanceSlices(sources, start, [slice], cursor) == AdvanceSlice(sources, start, slice, cursor)
  {
    assert [slice][1..] == [];
  }

  lemma {:induction false} AdvanceTwo(sources: SourceTable, start: nat, first: SourceSlice, second: SourceSlice,
                                      cursor: nat)
    ensures AdvanceSlices(sources, start, [first, second], cursor)
         == AdvanceSlice(AdvanceSlice(sources, start, first, cursor), start, second, cursor)
  {
    assert [first, second][1..] == [second];
    AdvanceOne(AdvanceSlice(sources, start, first, cursor), start, second, cursor);
  }

  /** A source reaches in an entry what it reaches in its own lane. */
  lemma ReachOfLanes(entry: Entry, key: SourceKey, cursor: nat)
    requires LaneOk(entry.music, SourceKind.Music) && LaneOk(entry.voice, SourceKind.Voice)
    ensures EntryReach(entry, key, cursor)
         == Max(if entry.music.Some? then SliceReach(entry.music.value, entry.start, key, cursor) else 0,
                if entry.voice.Some? then SliceReach(entry.voice.value, entry.start, key, cursor) else 0)
  {
  }

  lemma {:induction false} AdvanceSlicesMeaning(sources: SourceTable, entry: Entry, cursor: nat)
    requires LaneOk(entry.music, SourceKind.Music) && LaneOk(entry.voice, SourceKind.Voice)
    requires forall slice | slice in entry.Sources() :: slice.key in sources
    ensures EntryAdvanced(sources, AdvanceSlices(sources, entry.start, entry.Sources(), cursor), entry, cursor)
  {
    forall key ensures EntryReach(entry, key, cursor)
                    == Max(if entry.music.Some? then SliceReach(entry.music.value, entry.start, key, cursor) else 0,
                           if entry.voice.Some? then SliceReach(entry.voice.value, entry.start, key, cursor) else 0)
    {
      ReachOfLanes(entry, key, cursor);
    }
    hide AdvanceSlice, AdvanceSlices, SliceReach, EntryReach, LaneOk;
    if entry.music.Some? && entry.voice.Some? {
      var music, voice := entry.music.value, entry.voice.value;
      assert entry.Sources() == [music, voice] && music in entry.Sources() && voice in entry.Sources();
      AdvanceTwo(sources, entry.start, music, voice, cursor);
      AdvanceSliceMeaning(sources, entry.start, music, cursor);
      AdvanceSliceMeaning(AdvanceSlice(sources, entry.start, music, cursor), entry.start, voice, cursor);
    } else if entry.music.Some? || entry.voice.Some? {
      var only := if entry.music.Some? then entry.music.value else entry.voice.value;
      assert entry.Sources() == [only] && only in entry.Sources();
      AdvanceOne(sources, entry.start, only, cursor);
      AdvanceSliceMeaning(sources, entry.start, only, cursor);
    } else {
      assert entry.Sources() == [];
      NothingToAdvance(sources, entry.start, cursor);
    }
  }

  lemma {:induction false} NothingToAdvance(sources: SourceTable, start: nat, cursor: nat)
    ensures AdvanceSlices(sources, start, [], cursor) == sources
  {
  }

  lemma SlicesAccounted(entry: Entry, sources: SourceTable, rendered: nat)
    requires Accounted(entry, sources, rendered)
    ensures forall slice | slice in entry.Sources() ::
              slice.key in sources && slice.EndFrame() <= sources[slice.key].accepted
  {
    forall slice | slice in entry.Sources()
      ensures slice.key in sources && slice.EndFrame() <= sources[slice.key].accepted
    {
      assert entry.SliceOf(slice.key) == Some(slice);
    }
  }

  lemma AdvanceStep(before: SourceTable, mid: SourceTable, now: SourceTable, entries: seq<Entry>, i: nat, cursor: nat)
    requires i < |entries|
    requires AdvancedUpTo(before, mid, entries, i, cursor) && EntryAdvanced(mid, now, entries[i], cursor)
    ensures AdvancedUpTo(before, now, entries, i + 1, cursor)
  {
    assert entries[i..][1..] == entries[i + 1..];
    forall key | key in before
      ensures Max(now[key].rendered, Reach(entries[i + 1..], key, cursor))
              == Max(before[key].rendered, Reach(entries, key, cursor))
    {
      assert Reach(entries[i..], key, cursor)
        == Max(EntryReach(entries[i], key, cursor), Reach(entries[i + 1..], key, cursor));
    }
  }

  lemma {:induction false} NothingBeyond(entries: seq<Entry>, from: nat, upTo: nat, i: nat, cursor: nat, key: SourceKey)
    requires Tiled(entries, from, upTo) && i < |entries| && cursor <= entries[i].start
    ensures Reach(entries[i..], key, cursor) == 0
  {
    TiledSuffix(entries, from, upTo, i);
    ReachBeyond(entries[i..], entries[i].start, upTo, key, cursor);
  }

  lemma NoneShared<T>(a: set<T>, b: set<T>)
    requires a * b == {}
    ensures forall x | x in b :: x !in a
  {
    assert forall x | x in a && x in b :: x in a * b;
  }

  /** All of the keys but those left were taken out of the table and counted. */
  ghost predicate Popped(all: SourceTable, keys: set<SourceKey>, left: set<SourceKey>, rest: SourceTable,
                         removed: nat) {
    left <= keys && rest == all - (keys - left) && removed == |all.Keys * (keys - left)|
  }

  lemma PopOne(all: SourceTable, keys: set<SourceKey>, left: set<SourceKey>, rest: SourceTable, removed: nat,
               key: SourceKey)
    requires Popped(all, keys, left, rest, removed) && key in left
    ensures Popped(all, keys, left - {key}, rest - {key}, if key in rest then removed + 1 else removed)
  {
    RemoveOneMore(all, keys - left, key);
    assert keys - (left - {key}) == keys - left + {key};
  }

  lemma RemoveOneMore(table: SourceTable, gone: set<SourceKey>, key: SourceKey)
    ensures (table - gone) - {key} == table - (gone + {key})
    ensures key !in gone ==>
              |table.Keys * (gone + {key})| == |table.Keys * gone| + (if key in table - gone then 1 else 0)
  {
    if key in table {
      assert table.Keys * (gone + {key}) == table.Keys * gone + {key};
    } else {
      assert table.Keys * (gone + {key}) == table.Keys * gone;
    }
  }

  lemma MarkedReady(s: LedgerState, accepted: nat)
    requires Inv(s)
    ensures
      var marked := LedgerSpec.MarkAccepted(s.entries, accepted);
      && (s.entries == [] <==> marked == [])
      && Tiled(marked, if marked == [] then s.next else marked[0].start, s.next)
      && AllAccounted(marked, s.sources, s.rendered)
      && CursorsOrdered(s.sources)
  {
    MarkKeeps(s, accepted);
  }

  lemma PendingRegistered(s: LedgerState, marked: seq<Entry>, accepted: nat)
    requires Inv(s) && s.pending.Some? && marked == LedgerSpec.MarkAccepted(s.entries, accepted)
    ensures exists i | 0 <= i < |marked| :: marked[i].id == s.pending.value
  {
    assert marked[|marked| - 1].id == s.pending.value;
  }

  lemma PendingFound(s: LedgerState, accepted: nat, at: nat)
    requires Inv(s) && s.pending.Some? && at < |s.entries|
    requires LedgerSpec.MarkAccepted(s.entries, accepted)[at].id == s.pending.value
    ensures LedgerSpec.MarkAccepted(s.entries, accepted)[at].End() <= accepted <==> PendingReached(s, accepted)
  {
    assert s.entries[at].id == s.pending.value;
    assert forall i | 0 <= i < |s.entries| && s.entries[i].id == s.pending.value :: i == at;
  }

  class MasterPlayoutLedger {
    const maxBufferFrames: nat
    var epoch: nat
    var nextMasterFrame: nat
    var masterAcceptedFrames: nat
    var masterRenderedFrames: nat
    var nextEntryId: nat
    var pendingEntryId: Option<nat>
    var entries: seq<Entry>
    var sources: map<SourceKey, Progress>
    var lastRenderedSample: Option<Frame>

    ghost function State(): LedgerState
      reads this
    {
      LedgerState(maxBufferFrames, epoch, nextMasterFrame, masterAcceptedFrames, masterRenderedFrames, nextEntryId,
                  pendingEntryId, entries, sources, lastRenderedSample)
    }

    ghost function WindowStart(): nat
      reads this`entries, this`nextMasterFrame
    {
      if entries == [] then nextMasterFrame else entries[0].start
    }

    ghost predicate Valid()
      reads this
    {
      Inv(State())
    }

    constructor (maxBufferFrames: nat)
      requires AUDIO_BLOCK_FRAMES <= maxBufferFrames
      ensures Valid() && State() == Initial(maxBufferFrames)
    {
      this.maxBufferFrames := maxBufferFrames;
      epoch, nextMasterFrame, masterAcceptedFrames, masterRenderedFrames, nextEntryId := 0, 0, 0, 0, 0;
      pendingEntryId, entries, sources, lastRenderedSample := None, [], map[], None;
    }

    method NoteSourceAccepted(slice: SourceSlice) returns (ok: bool)
      modifies this`sources
      ensures (sources, ok) == NoteAccepted(old(sources), slice)
    {
      if slice.key !in sources {
        sources := sources[slice.key := Progress(0, 0)];
      }
      assert sources == old(sources)[slice.key := ProgressOf(old(sources), slice.key)];
      var progress := sources[slice.key];
      if slice.startFrame > progress.accepted {
        return false;
      }
      var noted := Progress(Max(progress.accepted, slice.EndFrame()), progress.rendered);
      assert sources[slice.key := noted] == old(sources)[slice.key := noted];
      sources := sources[slice.key := noted];
      ok := true;
    }

    /** Accept the sources of one block in lane order, stopping at the first refusal. */
    method NoteSources(slices: seq<SourceSlice>) returns (ok: bool)
      modifies this`sources
      ensures (sources, ok) == NoteAll(old(sources), slices)
    {
      var i := 0;
      while i < |slices|
        invariant 0 <= i <= |slices|
        invariant NoteAll(sources, slices[i..]) == NoteAll(old(sources), slices)
      {
        ok := NoteSourceAccepted(slices[i]);
        assert slices[i..][1..] == slices[i + 1..];
        if !ok {
          return;
        }
        i := i + 1;
      }
      ok := true;
    }

    /** Register source data before the single writer calls the SDK. */
    method RegisterPending(mixed: MixedBlock) returns (r: Result<nat, LedgerError>)
      requires Valid() && mixed.Valid()
      modifies this
      ensures Valid()
      ensures State() == Register(old(State()), mixed).state && r == Register(old(State()), mixed).result
    {
      hide Inv, NotBehind, NoteAll;
      RegisterKeeps(State(), mixed);
      if pendingEntryId.Some? {
        return Err(WritePending);
      }
      if |mixed.output| != AUDIO_BLOCK_FRAMES {
        return Err(NotCanonicalBlock);
      }
      if nextMasterFrame - masterRenderedFrames + AUDIO_BLOCK_FRAMES > maxBufferFrames {
        return Err(WindowFull);
      }
      var entryId := nextEntryId;
      nextEntryId := nextEntryId + 1;
      var entry := Entry(entryId, epoch, nextMasterFrame, AUDIO_BLOCK_FRAMES, mixed.output, mixed.music, mixed.voice,
                         Pending);
      var noted := NoteSources(entry.Sources());
      if !noted {
        return Err(FrameGap);
      }
      entries := entries + [entry];
      nextMasterFrame := entry.End();
      pendingEntryId := Some(entryId);
      r := Ok(entryId);
    }

    /** The position of an entry that is known to be registered: the lookup cannot fail. */
    method FindEntry(id: nat) returns (at: nat)
      requires exists i | 0 <= i < |entries| :: entries[i].id == id
      ensures at < |entries| && entries[at].id == id
    {
      at := 0;
      while entries[at].id != id
        invariant at < |entries| && forall i | 0 <= i < at :: entries[i].id != id
        decreases |entries| - at
      {
        at := at + 1;
      }
    }

    /** Count every frame before the cursor; no source is missing from the
        table and no source cursor can overrun what was accepted. */
    method AdvanceSources(renderedFrames: nat)
      requires Tiled(entries, WindowStart(), nextMasterFrame)
      requires AllAccounted(entries, sources, masterRenderedFrames) && CursorsOrdered(sources)
      modifies this`sources
      ensures sources == Advance(entries, old(sources), renderedFrames)
    {
      ghost var before := sources;
      assert entries[0..] == entries;
      var i := 0;
      while i < |entries|
        invariant 0 <= i <= |entries|
        invariant CursorsOrdered(sources) && AdvancedUpTo(before, sources, entries, i, renderedFrames)
      {
        var entry := entries[i];
        if entry.start >= renderedFrames {
          forall key | key in before ensures Reach(entries[i..], key, renderedFrames) == 0 {
            NothingBeyond(entries, WindowStart(), nextMasterFrame, i, renderedFrames, key);
          }
          break;
        }
        assert Accounted(entry, before, masterRenderedFrames);
        hide Accounted, EntryReach;
        SlicesAccounted(entry, before, masterRenderedFrames);
        ghost var mid := sources;
        AdvanceEntry(entry, renderedFrames);
        AdvanceStep(before, mid, sources, entries, i, renderedFrames);
        i := i + 1;
      }
    }

    /** Advance one source over one slice; the new cursor cannot overrun what was accepted. */
    method AdvanceSource(entryStart: nat, slice: SourceSlice, renderedFrames: nat)
      requires slice.key in sources && slice.EndFrame() <= sources[slice.key].accepted
      requires CursorsOrdered(sources)
      modifies this`sources
      ensures sources == AdvanceSlice(old(sources), entryStart, slice, renderedFrames)
      ensures CursorsOrdered(sources) && sources.Keys == old(sources).Keys
      ensures forall key | key in sources :: sources[key].accepted == old(sources)[key].accepted
    {
      var renderedInSource := slice.RenderedBefore(entryStart, renderedFrames);
      if renderedInSource != 0 {
        var progress := sources[slice.key];
        progress := progress.(rendered := Max(progress.rendered, slice.startFrame + renderedInSource));
        assert progress.rendered <= progress.accepted;
        sources := sources[slice.key := progress];
      }
    }

    /** The inner loop: advance the one or two sources of one entry. */
    method AdvanceEntry(entry: Entry, renderedFrames: nat)
      requires LaneOk(entry.music, SourceKind.Music) && LaneOk(entry.voice, SourceKind.Voice)
      requires forall slice | slice in entry.Sources() ::
                 slice.key in sources && slice.EndFrame() <= sources[slice.key].accepted
      requires CursorsOrdered(sources)
      modifies this`sources
      ensures CursorsOrdered(sources) && EntryAdvanced(old(sources), sources, entry, renderedFrames)
    {
      var slices := entry.Sources();
      AdvanceSlicesMeaning(sources, entry, renderedFrames);
      hide EntryAdvanced, CursorsOrdered, AdvanceSlice;
      var j := 0;
      while j < |slices|
        invariant 0 <= j <= |slices|
        invariant CursorsOrdered(sources)
        invariant forall slice | slice in slices ::
                  slice.key in sources && slice.EndFrame() <= sources[slice.key].accepted
        invariant AdvanceSlices(sources, entry.start, slices[j..], renderedFrames)
               == AdvanceSlices(old(sources), entry.start, slices, renderedFrames)
      {
        assert slices[j] in slices;
        assert slices[j..][1..] == slices[j + 1..];
        AdvanceSource(entry.start, slices[j], renderedFrames);
        j := j + 1;
      }
    }

    method CaptureLastRenderedSample(renderedFrames: nat)
      requires Tiled(entries, WindowStart(), nextMasterFrame) && 0 < renderedFrames
      modifies this`lastRenderedSample
      ensures lastRenderedSample ==
              if SampleAt(entries, renderedFrames - 1).Some? then SampleAt(entries, renderedFrames - 1)
              else old(lastRenderedSample)
      ensures WindowStart() < renderedFrames <= nextMasterFrame ==>
                var at := renderedFrames - 1 - WindowStart();
                && Slot(at) < |entries| && Offset(at) < |entries[Slot(at)].output|
                && lastRenderedSample == Some(entries[Slot(at)].output[Offset(at)])
    {
      var position := renderedFrames - 1;
      if WindowStart() < renderedFrames <= nextMasterFrame {
        SampleAtPosition(entries, WindowStart(), nextMasterFrame, position);
      }
      var i := 0;
      while i < |entries|
        invariant 0 <= i <= |entries|
        invariant SampleAt(entries[i..], position) == SampleAt(entries, position)
        invariant lastRenderedSample == old(lastRenderedSample)
      {
        var entry := entries[i];
        if entry.start <= position < entry.End() {
          TiledPosition(entries, WindowStart(), nextMasterFrame, i);
          lastRenderedSample := Some(entry.output[position - entry.start]);
          return;
        }
        assert entries[i..][1..] == entries[i + 1..];
        i := i + 1;
      }
    }

    method MarkReached(acceptedFrames: nat, allowPendingAcceptance: bool)
      modifies this`entries, this`pendingEntryId
      ensures entries == LedgerSpec.MarkAccepted(old(entries), acceptedFrames)
      ensures pendingEntryId == if allowPendingAcceptance && PendingReached(old(State()), acceptedFrames) then None
              else old(pendingEntryId)
    {
      var pending := pendingEntryId;
      var i := 0;
      while i < |entries|
        invariant 0 <= i <= |entries| == |old(entries)|
        invariant forall k | 0 <= k < i :: entries[k] == LedgerSpec.MarkAccepted(old(entries), acceptedFrames)[k]
        invariant forall k | i <= k < |entries| :: entries[k] == old(entries)[k]
        invariant pendingEntryId ==
                  if allowPendingAcceptance && pending.Some? && exists k | 0 <= k < i ::
                       old(entries)[k].id == pending.value && old(entries)[k].End() <= acceptedFrames
                  then None else pending
      {
        if entries[i].End() <= acceptedFrames {
          entries := entries[i := entries[i].(state := Accepted)];
          if Some(entries[i].id) == pending && allowPendingAcceptance {
            pendingEntryId := None;
          }
        }
        i := i + 1;
      }
    }

    method Reconcile(cursor: MasterCursor, allowPendingAcceptance: bool) returns (r: Result<(), LedgerError>)
      requires Valid()
      modifies this
      ensures Valid()
      ensures State() == LedgerSpec.Reconcile(old(State()), cursor, allowPendingAcceptance).state
      ensures r == LedgerSpec.Reconcile(old(State()), cursor, allowPendingAcceptance).result
    {
      hide Inv, Tiled, AllAccounted, CursorsOrdered, NotBehind, LedgerSpec.Reconcile, Advance, SampleAt, DropRendered;
      ReconcileKeeps(State(), cursor, allowPendingAcceptance);
      ReconcileCases(State(), cursor, allowPendingAcceptance);
      if cursor.epoch != epoch {
        return Err(WrongEpoch);
      }
      if cursor.accepted < masterAcceptedFrames {
        return Err(AcceptedBackwards);
      }
      if cursor.rendered < masterRenderedFrames {
        return Err(RenderedBackwards);
      }
      if cursor.accepted > nextMasterFrame {
        return Err(AcceptedBeyondRegistered);
      }
      if cursor.rendered > cursor.accepted {
        return Err(RenderedBeyondAccepted);
      }
      MarkedReady(State(), cursor.accepted);
      var uncommitted := SettlePending(cursor.accepted, allowPendingAcceptance);
      if uncommitted {
        return Err(PendingUncommitted);
      }
      MoveTo(cursor);
      r := Ok(());
    }

    /** Mark every entry the SDK accepted. A pending write among them is either
        settled with the rest or reported as not committed by its owner. */
    method SettlePending(acceptedFrames: nat, allowPendingAcceptance: bool) returns (uncommitted: bool)
      requires Valid()
      modifies this`entries, this`pendingEntryId
      ensures entries == LedgerSpec.MarkAccepted(old(entries), acceptedFrames)
      ensures uncommitted == (!allowPendingAcceptance && PendingReached(old(State()), acceptedFrames))
      ensures pendingEntryId ==
              if allowPendingAcceptance && PendingReached(old(State()), acceptedFrames) then None
                else old(pendingEntryId)
    {
      var pending := pendingEntryId;
      MarkReached(acceptedFrames, allowPendingAcceptance);
      uncommitted := false;
      if pending.Some? && !allowPendingAcceptance {
        PendingRegistered(old(State()), entries, acceptedFrames);
        var at := FindEntry(pending.value);
        PendingFound(old(State()), acceptedFrames, at);
        uncommitted := entries[at].End() <= acceptedFrames;
      }
    }

    /** The part of reconciliation that follows the checks. */
    method MoveTo(cursor: MasterCursor)
      requires Tiled(entries, WindowStart(), nextMasterFrame)
      requires AllAccounted(entries, sources, masterRenderedFrames) && CursorsOrdered(sources)
      requires masterRenderedFrames <= cursor.rendered
      modifies this`sources, this`lastRenderedSample, this`masterAcceptedFrames, this`masterRenderedFrames, this`entries
      ensures masterAcceptedFrames == cursor.accepted && masterRenderedFrames == cursor.rendered
      ensures entries == DropRendered(old(entries), cursor.rendered)
      ensures cursor.rendered > old(masterRenderedFrames) ==>
                && sources == Advance(old(entries), old(sources), cursor.rendered)
                && lastRenderedSample == if SampleAt(old(entries), cursor.rendered - 1).Some?
                                         then SampleAt(old(entries), cursor.rendered - 1) else old(lastRenderedSample)
      ensures cursor.rendered == old(masterRenderedFrames) ==>
                sources == old(sources) && lastRenderedSample == old(lastRenderedSample)
    {
      hide *;
      if cursor.rendered > masterRenderedFrames {
        CaptureLastRenderedSample(cursor.rendered);
        AdvanceSources(cursor.rendered);
      }
      masterAcceptedFrames := cursor.accepted;
      masterRenderedFrames := cursor.rendered;
      PopRendered();
    }

    method PopRendered()
      modifies this`entries
      ensures entries == DropRendered(old(entries), masterRenderedFrames)
    {
      while entries != [] && entries[0].End() <= masterRenderedFrames
        invariant DropRendered(entries, masterRenderedFrames) == DropRendered(old(entries), masterRenderedFrames)
        decreases |entries|
      {
        entries := entries[1..];
      }
    }

    /** Commit one pending block and advance rendered source cursors. */
    method MarkAccepted(entryId: nat, cursor: MasterCursor) returns (r: Result<SourceTable, LedgerError>)
      requires Valid()
      modifies this
      ensures Valid()
      ensures State() == MarkWritten(old(State()), entryId, cursor).state
      ensures r == MarkWritten(old(State()), entryId, cursor).result
    {
      if pendingEntryId != Some(entryId) {
        return Err(NotPendingOwner);
      }
      PendingIsLast(State(), nextMasterFrame);
      var at := FindEntry(entryId);
      assert at == |entries| - 1;
      assert cursor.accepted < entries[at].End() <==> !PendingReached(State(), cursor.accepted);
      if cursor.epoch != epoch || cursor.accepted < entries[at].End() {
        return Err(AckMissesBlock);
      }
      MarkWrittenKeeps(State(), entryId, cursor);
      ghost var settled := Settle(entries, entryId);
      SettledKeeps(State(), entryId);
      entries := entries[at := entries[at].(state := Accepted)];
      pendingEntryId := None;
      assert entries == settled;
      var done := Reconcile(cursor, false);
      if done.Err? {
        return Err(done.error);
      }
      r := Ok(sources);
    }

    /** Apply a later stats or drain cursor without registering another block. */
    method Observe(cursor: MasterCursor) returns (r: Result<SourceTable, LedgerError>)
      requires Valid()
      modifies this
      ensures Valid()
      ensures State() == LedgerSpec.Observe(old(State()), cursor).state
      ensures r == LedgerSpec.Observe(old(State()), cursor).result
    {
      var done := Reconcile(cursor, false);
      if done.Err? {
        return Err(done.error);
      }
      r := Ok(sources);
    }

    /** What every retained entry leaves to replay; each segment passes its constructor's checks. */
    method CollectSurvivors(discard: set<SourceKey>) returns (survivors: seq<ReplaySegment>)
      requires AllAccounted(entries, sources, masterRenderedFrames)
      ensures survivors == Survivors(entries, masterRenderedFrames, discard)
      ensures forall i | 0 <= i < |survivors| :: survivors[i].Valid()
    {
      survivors := [];
      var i := 0;
      while i < |entries|
        invariant 0 <= i <= |entries|
        invariant survivors + Survivors(entries[i..], masterRenderedFrames, discard)
                  == Survivors(entries, masterRenderedFrames, discard)
        invariant forall k | 0 <= k < |survivors| :: survivors[k].Valid()
      {
        var entry := entries[i];
        assert entries[i..][1..] == entries[i + 1..];
        assert Accounted(entry, sources, masterRenderedFrames);
        SurvivorValid(entry, masterRenderedFrames, discard);
        var kept := EntrySurvivor(entry, masterRenderedFrames, discard);
        survivors := survivors + kept;
        i := i + 1;
      }
    }

    /** Close one master epoch and retain only valid unrendered source slices. */
    method Remix(cursor: MasterCursor, discard: set<SourceKey>) returns (r: Result<RemixPlan, LedgerError>)
      requires Valid()
      modifies this
      ensures Valid()
      ensures State() == LedgerSpec.Remix(old(State()), cursor, discard).state
      ensures r == LedgerSpec.Remix(old(State()), cursor, discard).result
      ensures r.Ok? ==> forall i | 0 <= i < |r.value.survivors| :: r.value.survivors[i].Valid()
    {
      hide LedgerSpec.Reconcile, Survivors, AllAccounted, CursorsOrdered, Tiled;
      RemixKeeps(State(), cursor, discard);
      ReconcileCases(State(), cursor, true);
      var oldEpoch := epoch;
      var done := Reconcile(cursor, true);
      if done.Err? {
        return Err(done.error);
      }
      var survivors := CollectSurvivors(discard);
      var cursors := sources;
      epoch := epoch + 1;
      nextMasterFrame, masterAcceptedFrames, masterRenderedFrames := 0, 0, 0;
      pendingEntryId, entries := None, [];
      r := Ok(RemixPlan(oldEpoch, epoch, cursors, survivors, lastRenderedSample));
    }

    /** Release terminal source cursors after all master references are gone. */
    method ForgetSources(keys: set<SourceKey>) returns (r: Result<nat, LedgerError>)
      requires Valid()
      modifies this
      ensures Valid()
      ensures State() == Forget(old(State()), keys).state && r == Forget(old(State()), keys).result
    {
      ForgetKeeps(State(), keys);
      var referenced := ReferencedKeys();
      if referenced * keys != {} {
        var key :| key in referenced * keys;
        assert Referenced(entries, key);
        return Err(StillReferenced);
      }
      NoneShared(referenced, keys);
      var removed := PopKeys(keys);
      assert State() == Forget(old(State()), keys).state;
      r := Ok(removed);
    }

    method PopKeys(keys: set<SourceKey>) returns (removed: nat)
      modifies this`sources
      ensures sources == old(sources) - keys && removed == |old(sources).Keys * keys|
    {
      removed := 0;
      var left := keys;
      while left != {}
        invariant Popped(old(sources), keys, left, sources, removed)
        decreases |left|
      {
        var key :| key in left;
        PopOne(old(sources), keys, left, sources, removed, key);
        if key in sources {
          removed := removed + 1;
        }
        sources := sources - {key};
        left := left - {key};
      }
    }

    method ReferencedKeys() returns (referenced: set<SourceKey>)
      requires AllAccounted(entries, sources, masterRenderedFrames)
      ensures forall key :: key in referenced <==> Referenced(entries, key)
    {
      referenced := {};
      var i := 0;
      while i < |entries|
        invariant 0 <= i <= |entries|
        invariant forall key :: key in referenced <==> Referenced(entries[..i], key)
      {
        var entry := entries[i];
        assert Accounted(entry, sources, masterRenderedFrames);
        var found := set slice | slice in entry.Sources() :: slice.key;
        forall key ensures key in found <==> entry.SliceOf(key).Some? {
          if entry.SliceOf(key).Some? {
            assert entry.SliceOf(key).value in entry.Sources();
          }
        }
        assert forall key :: Referenced(entries[..i + 1], key) <==>
          Referenced(entries[..i], key) || entry.SliceOf(key).Some? by {
          forall key ensures Referenced(entries[..i + 1], key) <==>
            Referenced(entries[..i], key) || entry.SliceOf(key).Some? {
            ReferencedAppend(entries[..i], entry, key);
            assert entries[..i + 1] == entries[..i] + [entry];
          }
        }
        referenced := referenced + found;
        i := i + 1;
      }
      assert entries[..i] == entries;
    }
  }

  lemma ReferencedAppend(entries: seq<Entry>, entry: Entry, key: SourceKey)
    ensures Referenced(entries + [entry], key) <==> Referenced(entries, key) || entry.SliceOf(key).Some?
  {
    var all := entries + [entry];
    if entry.SliceOf(key).Some? {
      assert all[|entries|].SliceOf(key).Some?;
    }
    if Referenced(entries, key) {
      var i :| 0 <= i < |entries| && entries[i].SliceOf(key).Some?;
      assert all[i] == entries[i];
    }
  }

  lemma SettledKeeps(s: LedgerState, id: nat)
    requires Inv(s)
    ensures Inv(s.(entries := Settle(s.entries, id), pending := None))
  {
    var settled := Settle(s.entries, id);
    assert AllSameAudio(settled, s.entries);
    SameAudioTiled(settled, s.entries, s.FirstStart(), s.next);
    SameAudioAccounted(settled, s.entries, s.sources, s.rendered);
  }
}
