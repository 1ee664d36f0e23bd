/** The heard and unheard parts of a source's stream, read off the ledger's entries. */
module Streams {
  import opened Common
  import opened AudioModels
  import opened LedgerSpec
  import opened LedgerInvariant
  import opened LedgerObservation
  import opened ReplayPlan

  /** How many frames of a source's slice in this entry lie before the cursor. */
  function Counted(entry: Entry, key: SourceKey, cursor: nat): nat {
    match entry.SliceOf(key)
    case None => 0
    case Some(slice) => slice.RenderedBefore(entry.start, cursor)
  }

  function EntryStream(entry: Entry, key: SourceKey): (stream: seq<Numbered>)
    ensures forall cursor :: Counted(entry, key, cursor) <= |stream|
  {
    Trimmed(entry.SliceOf(key))
  }

  /** What the master has not rendered of one source, entry by entry. */
  function Unheard(entries: seq<Entry>, key: SourceKey, cursor: nat): seq<Numbered> {
    if entries == [] then []
    else EntryStream(entries[0], key)[Counted(entries[0], key, cursor)..] + Unheard(entries[1..], key, cursor)
  }

  /** What the master rendered of one source while its cursor moved. */
  function HeardBetween(entries: seq<Entry>, key: SourceKey, from: nat, to: nat): seq<Numbered>
    requires from <= to
  {
    if entries == [] then []
    else EntryStream(entries[0], key)[Counted(entries[0], key, from)..Counted(entries[0], key, to)]
         + HeardBetween(entries[1..], key, from, to)
  }

  lemma {:induction false} NothingHeardBeyond(entries: seq<Entry>, start: nat, upTo: nat, key: SourceKey, from: nat,
                                              to: nat)
    requires Tiled(entries, start, upTo) && from <= to <= start
    ensures HeardBetween(entries, key, from, to) == []
    ensures Unheard(entries, key, from) == Unheard(entries, key, to)
    ensures Reach(entries, key, to) == 0
  {
    if entries != [] {
      assert Counted(entries[0], key, from) == 0 == Counted(entries[0], key, to);
      assert EntryReach(entries[0], key, to) == 0;
      hide Counted, EntryStream, EntryReach;
      NothingHeardBeyond(entries[1..], start + AUDIO_BLOCK_FRAMES, upTo, key, from, to);
    }
  }

  lemma FinishedEntry(entry: Entry, key: SourceKey, cursor: nat)
    requires LaneOk(entry.music, SourceKind.Music) && LaneOk(entry.voice, SourceKind.Voice)
    requires entry.frameCount == AUDIO_BLOCK_FRAMES && entry.End() <= cursor
    ensures Counted(entry, key, cursor) == |EntryStream(entry, key)|
  {
  }

  lemma CountedGrows(entry: Entry, key: SourceKey, from: nat, to: nat)
    requires from <= to
    ensures Counted(entry, key, from) <= Counted(entry, key, to) <= |EntryStream(entry, key)|
  {
  }

  lemma SplitStream(stream: seq<Numbered>, c0: nat, c1: nat, heard: seq<Numbered>, unheard: seq<Numbered>)
    requires c0 <= c1 <= |stream| && (heard == [] || c1 == |stream|)
    ensures stream[c0..c1] + heard + (stream[c1..] + unheard) == stream[c0..] + (heard + unheard)
  {
  }

  /** Moving the cursor splits what was unheard: nothing is skipped, nothing is heard twice. */
  lemma {:induction false} HeardThenUnheard(entries: seq<Entry>, start: nat, upTo: nat, key: SourceKey, from: nat,
                                            to: nat)
    requires Tiled(entries, start, upTo) && LanesOk(entries) && from <= to
    ensures HeardBetween(entries, key, from, to) + Unheard(entries, key, to) == Unheard(entries, key, from)
  {
    hide Counted, EntryStream;
    if entries != [] {
      CountedGrows(entries[0], key, from, to);
      SplitStream(EntryStream(entries[0], key), Counted(entries[0], key, from), Counted(entries[0], key, to),
                  HeardBetween(entries[1..], key, from, to), Unheard(entries[1..], key, to)) by {
        if entries[0].End() <= to {
          FinishedEntry(entries[0], key, to);
        } else {
          NothingHeardBeyond(entries[1..], start + AUDIO_BLOCK_FRAMES, upTo, key, from, to);
        }
      }
      if entries[0].End() <= to {
        HeardThenUnheard(entries[1..], start + AUDIO_BLOCK_FRAMES, upTo, key, from, to);
      } else {
        NothingHeardBeyond(entries[1..], start + AUDIO_BLOCK_FRAMES, upTo, key, from, to);
      }
    }
  }

  lemma {:induction false} UnheardAfterDrop(entries: seq<Entry>, start: nat, upTo: nat, key: SourceKey, cursor: nat)
    requires Tiled(entries, start, upTo) && LanesOk(entries)
    ensures Unheard(DropRendered(entries, cursor), key, cursor) == Unheard(entries, key, cursor)
  {
    if entries != [] && entries[0].End() <= cursor {
      FinishedEntry(entries[0], key, cursor);
      assert EntryStream(entries[0], key)[Counted(entries[0], key, cursor)..] == [];
      UnheardAfterDrop(entries[1..], start + AUDIO_BLOCK_FRAMES, upTo, key, cursor);
    }
  }

  lemma {:induction false} SameAudioStreams(a: seq<Entry>, b: seq<Entry>, key: SourceKey, from: nat, to: nat)
    requires AllSameAudio(a, b) && from <= to
    ensures Unheard(a, key, from) == Unheard(b, key, from)
    ensures HeardBetween(a, key, from, to) == HeardBetween(b, key, from, to)
  {
    if a != [] {
      assert SameAudio(a[0], b[0]);
      assert AllSameAudio(a[1..], b[1..]);
      SameAudioStreams(a[1..], b[1..], key, from, to);
      assert a[0].SliceOf(key) == b[0].SliceOf(key);
    }
  }

  lemma {:induction false} UnheardAppend(entries: seq<Entry>, entry: Entry, key: SourceKey, cursor: nat)
    requires cursor <= entry.start
    ensures Unheard(entries + [entry], key, cursor) == Unheard(entries, key, cursor) + EntryStream(entry, key)
  {
    assert Counted(entry, key, cursor) == 0;
    if entries == [] {
      assert entries + [entry] == [entry];
      assert [entry][1..] == [];
    } else {
      UnheardAppend(entries[1..], entry, key, cursor);
      assert (entries + [entry])[1..] == entries[1..] + [entry];
    }
  }

  /** What was counted of every slice lies below the source's rendered cursor. */
  ghost predicate CountedBelow(entries: seq<Entry>, key: SourceKey, cursor: nat, rendered: nat) {
    forall i | 0 <= i < |entries| :: EntryReach(entries[i], key, cursor) <= rendered
  }

  /** Frame numbers that only go up, from a number on. */
  ghost predicate Rising(stream: seq<Numbered>, least: nat) {
    && (forall i | 0 <= i < |stream| :: least <= stream[i].number)
    && (forall i, j | 0 <= i < j < |stream| :: stream[i].number < stream[j].number)
  }

  /** One past the last frame number of a stream. */
  function EndNumber(stream: seq<Numbered>, base: nat): nat {
    if stream == [] then base else stream[|stream| - 1].number + 1
  }

  /** If a source's unheard frames only go up from its rendered cursor, the
      furthest frame reached is exactly the last one newly heard. */
  lemma {:induction false} ReachIsLastHeard(entries: seq<Entry>, start: nat, upTo: nat, key: SourceKey, from: nat,
                                            to: nat, rendered: nat, later: seq<Numbered>)
    requires Tiled(entries, start, upTo) && LanesOk(entries) && from <= to
    requires CountedBelow(entries, key, from, rendered)
    requires Rising(Unheard(entries, key, from) + later, rendered)
    ensures Max(rendered, Reach(entries, key, to)) == EndNumber(HeardBetween(entries, key, from, to), rendered)
    decreases |entries|
  {
    hide Counted, EntryStream, EntryReach, Rising;
    if entries != [] {
      var entry, rest := entries[0], entries[1..];
      var c0, c1 := Counted(entry, key, from), Counted(entry, key, to);
      var tail := Unheard(rest, key, from) + later;
      assert EntryReach(entries[0], key, from) <= rendered;
      assert EntryStream(entry, key)[c0..] + tail == Unheard(entries, key, from) + later;
      EntryReachLast(entry, key, from, to, rendered, tail);
      var reached := EndNumber(EntryStream(entry, key)[c0..c1], rendered);
      if entry.End() <= to {
        FinishedEntry(entry, key, to);
        forall i | 0 <= i < |rest| ensures EntryReach(rest[i], key, from) <= reached {
          assert rest[i] == entries[i + 1];
        }
        ReachIsLastHeard(rest, start + AUDIO_BLOCK_FRAMES, upTo, key, from, to, reached, later);
      } else {
        NothingHeardBeyond(rest, start + AUDIO_BLOCK_FRAMES, upTo, key, from, to);
      }
    }
  }

  lemma EntryReachLast(entry: Entry, key: SourceKey, from: nat, to: nat, rendered: nat, tail: seq<Numbered>)
    requires from <= to && EntryReach(entry, key, from) <= rendered
    requires Rising(EntryStream(entry, key)[Counted(entry, key, from)..] + tail, rendered)
    ensures Counted(entry, key, from) <= Counted(entry, key, to)
    ensures
      var reached := EndNumber(EntryStream(entry, key)[Counted(entry, key, from)..Counted(entry, key, to)], rendered);
      && rendered <= reached == Max(rendered, EntryReach(entry, key, to))
      && (Counted(entry, key, to) == |EntryStream(entry, key)| ==> Rising(tail, reached))
  {
    CountedGrows(entry, key, from, to);
    ReachIsEnd(entry, key, from);
    ReachIsEnd(entry, key, to);
    hide Rising, EntryReach, EntryStream, Counted;
    RisingSplit(EntryStream(entry, key), Counted(entry, key, from), Counted(entry, key, to), rendered, tail);
  }

  lemma ReachIsEnd(entry: Entry, key: SourceKey, cursor: nat)
    ensures EntryReach(entry, key, cursor) == EndNumber(EntryStream(entry, key)[..Counted(entry, key, cursor)], 0)
  {
  }

  lemma RisingSplit(stream: seq<Numbered>, c0: nat, c1: nat, rendered: nat, tail: seq<Numbered>)
    requires c0 <= c1 <= |stream| && EndNumber(stream[..c0], 0) <= rendered && Rising(stream[c0..] + tail, rendered)
    ensures
      var reached := EndNumber(stream[c0..c1], rendered);
      && rendered <= reached == Max(rendered, EndNumber(stream[..c1], 0))
      && (c1 == |stream| ==> Rising(tail, reached))
  {
    var unheard := stream[c0..] + tail;
    assert forall i | c0 <= i < |stream| :: unheard[i - c0] == stream[i];
    assert forall i | 0 <= i < |tail| :: unheard[|stream| - c0 + i] == tail[i];
  }

  // ---- survivors ----

  lemma SurvivingLane(lane: Option<SourceSlice>, kind: SourceKind, start: nat, rendered: nat, discard: set<SourceKey>)
    requires LaneOk(lane, kind)
    ensures
      var kept := SurvivingSlice(lane, Max(0, rendered - start), discard);
      && LaneOk(kept, kind)
      && (kept.Some? ==>
            && lane.Some? && kept.value.key == lane.value.key && lane.value.key !in discard
            && kept.value.Stream() == lane.value.Stream()[lane.value.RenderedBefore(start, rendered)..])
      && (kept.None? && lane.Some? && lane.value.key !in discard ==>
            lane.value.RenderedBefore(start, rendered) == lane.value.FrameCount())
  {
    if lane.Some? {
      TrimCutsWhereCursorStopped(lane.value, start, rendered);
    }
  }

  function LaneOf(entry: Entry, kind: SourceKind): Option<SourceSlice> {
    if kind.Music? then entry.music else entry.voice
  }

  /** The lane of a source keeps exactly the source's unheard frames. */
  lemma SurvivingStream(entry: Entry, key: SourceKey, rendered: nat, discard: set<SourceKey>)
    requires LaneOk(LaneOf(entry, key.kind), key.kind)
    ensures
      var kept := SurvivingSlice(LaneOf(entry, key.kind), Max(0, rendered - entry.start), discard);
      (if kept.Some? && kept.value.key == key then kept.value.Stream() else [])
      == if key in discard then [] else EntryStream(entry, key)[Counted(entry, key, rendered)..]
  {
    SurvivingLane(LaneOf(entry, key.kind), key.kind, entry.start, rendered, discard);
    hide SurvivingSlice;
  }

  /** The segment of an entry not yet finished holds what its lanes keep. */
  lemma SegmentOfLanes(entry: Entry, key: SourceKey, rendered: nat, discard: set<SourceKey>)
    requires entry.frameCount == AUDIO_BLOCK_FRAMES && entry.End() > rendered
    requires
      var prefix := Max(0, rendered - entry.start);
      && LaneOk(SurvivingSlice(entry.music, prefix, discard), SourceKind.Music)
      && LaneOk(SurvivingSlice(entry.voice, prefix, discard), SourceKind.Voice)
    ensures
      var kept, lane := EntrySurvivor(entry, rendered, discard),
                        SurvivingSlice(LaneOf(entry, key.kind), Max(0, rendered - entry.start), discard);
      && |kept| <= 1
      && (|kept| == 1 ==> SegmentOk(kept[0]))
      && (if |kept| == 1 then Trimmed(kept[0].SliceOf(key)) else [])
         == if lane.Some? && lane.value.key == key then lane.value.Stream() else []
  {
    hide SurvivingSlice, LaneOk;
  }

  lemma EntrySurvivorStream(entry: Entry, key: SourceKey, rendered: nat, discard: set<SourceKey>)
    requires LaneOk(entry.music, SourceKind.Music) && LaneOk(entry.voice, SourceKind.Voice)
    requires entry.frameCount == AUDIO_BLOCK_FRAMES
    ensures
      var kept := EntrySurvivor(entry, rendered, discard);
      && |kept| <= 1
      && (|kept| == 1 ==> SegmentOk(kept[0]))
      && (if |kept| == 1 then Trimmed(kept[0].SliceOf(key)) else [])
         == if key in discard then [] else EntryStream(entry, key)[Counted(entry, key, rendered)..]
  {
    if entry.End() <= rendered {
      FinishedEntry(entry, key, rendered);
      hide SurvivingSlice, EntryStream, Counted;
    } else {
      SurvivingLane(entry.music, SourceKind.Music, entry.start, rendered, discard);
      SurvivingLane(entry.voice, SourceKind.Voice, entry.start, rendered, discard);
      hide SurvivingSlice, LaneOk, EntrySurvivor, EntryStream, Counted, Trimmed;
      SurvivingStream(entry, key, rendered, discard);
      SegmentOfLanes(entry, key, rendered, discard);
    }
  }

  lemma LanesSplit(entries: seq<Entry>)
    requires LanesOk(entries) && entries != []
    ensures LaneOk(entries[0].music, SourceKind.Music) && LaneOk(entries[0].voice, SourceKind.Voice)
    ensures LanesOk(entries[1..])
  {
  }

  lemma {:induction false} SegmentsFirst(first: seq<ReplaySegment>, rest: seq<ReplaySegment>, key: SourceKey)
    requires |first| <= 1 && (|first| == 1 ==> SegmentOk(first[0])) && SegmentsOk(rest)
    ensures SegmentsOk(first + rest)
    ensures SegmentsStream(first + rest, key)
         == (if |first| == 1 then Trimmed(first[0].SliceOf(key)) else []) + SegmentsStream(rest, key)
  {
    hide SegmentOk, Trimmed;
    if first == [] {
      assert first + rest == rest;
    } else {
      assert (first + rest)[0] == first[0] && (first + rest)[1..] == rest;
    }
  }

  /** A flush hands back exactly the unheard frames of every source it keeps. */
  lemma {:induction false} SurvivorsAreUnheard(entries: seq<Entry>, start: nat, upTo: nat, key: SourceKey,
                                               rendered: nat, discard: set<SourceKey>)
    requires Tiled(entries, start, upTo) && LanesOk(entries)
    ensures
      var kept := Survivors(entries, rendered, discard);
      && |kept| <= |entries|
      && SegmentsOk(kept)
      && SegmentsStream(kept, key) == if key in discard then [] else Unheard(entries, key, rendered)
  {
    if entries != [] {
      hide EntryStream, Counted, EntrySurvivor, LanesOk;
      assert LanesOk(entries[1..]) && LaneOk(entries[0].music, SourceKind.Music)
        && LaneOk(entries[0].voice, SourceKind.Voice)
      by {
        LanesSplit(entries);
      }
      EntrySurvivorStream(entries[0], key, rendered, discard);
      SurvivorsAreUnheard(entries[1..], start + AUDIO_BLOCK_FRAMES, upTo, key, rendered, discard);
      SegmentsFirst(EntrySurvivor(entries[0], rendered, discard), Survivors(entries[1..], rendered, discard), key);
    }
  }

  /** A survivor is as long as its longer lane, no more and no less. */
  ghost predicate Tight(segment: ReplaySegment)
    requires segment.frameCount > 0
  {
    segment.Valid() && !segment.(frameCount := segment.frameCount - 1).Valid()
  }

  /** Every survivor of a flush is valid and as short as it can be. */
  lemma {:induction false} SurvivorsAreTight(entries: seq<Entry>, rendered: nat, discard: set<SourceKey>)
    ensures forall i | 0 <= i < |Survivors(entries, rendered, discard)| ::
              var segment := Survivors(entries, rendered, discard)[i];
              segment.frameCount > 0 && Tight(segment)
  {
    if entries != [] {
      EntrySurvivorIsTight(entries[0], rendered, discard);
      hide EntrySurvivor, Tight;
      SurvivorsAreTight(entries[1..], rendered, discard);
    }
  }

  lemma EntrySurvivorIsTight(entry: Entry, rendered: nat, discard: set<SourceKey>)
    ensures forall segment | segment in EntrySurvivor(entry, rendered, discard) ::
              segment.frameCount > 0 && Tight(segment)
  {
  }
}
