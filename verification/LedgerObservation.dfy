/** Observing a cursor and then a later one is the same as observing only the
    later one: forgetting finished entries early never changes an answer. */
module LedgerObservation {
  import opened Common
  import opened AudioModels
  import opened LedgerSpec
  import opened LedgerInvariant

  ghost predicate LanesOk(entries: seq<Entry>) {
    forall i | 0 <= i < |entries| ::
      && LaneOk(entries[i].music, SourceKind.Music)
      && LaneOk(entries[i].voice, SourceKind.Voice)
  }

  lemma {:induction false} ReachMonotone(entries: seq<Entry>, key: SourceKey, earlier: nat, later: nat)
    requires earlier <= later
    ensures Reach(entries, key, earlier) <= Reach(entries, key, later)
  {
    if entries != [] {
      ReachMonotone(entries[1..], key, earlier, later);
    }
  }

  /** Entries dropped at the earlier cursor had nothing left to contribute. */
  lemma {:induction false} ReachAcrossDrop(entries: seq<Entry>, from: nat, upTo: nat, key: SourceKey, earlier: nat,
                                           later: nat)
    requires Tiled(entries, from, upTo) && LanesOk(entries) && earlier <= later
    ensures Max(Reach(entries, key, earlier), Reach(DropRendered(entries, earlier), key, later))
            == Reach(entries, key, later)
  {
    ReachMonotone(entries, key, earlier, later);
    if entries != [] && entries[0].End() <= earlier {
      var rest := entries[1..];
      assert LanesOk(rest) by {
        assert forall i | 0 <= i < |rest| :: rest[i] == entries[i + 1];
      }
      ReachAcrossDrop(rest, from + AUDIO_BLOCK_FRAMES, upTo, key, earlier, later);
      assert DropRendered(entries, earlier) == DropRendered(rest, earlier);
    } else {
      assert DropRendered(entries, earlier) == entries;
    }
  }

  lemma {:induction false} SampleAfterDrop(entries: seq<Entry>, earlier: nat, position: nat)
    requires earlier <= position
    ensures SampleAt(DropRendered(entries, earlier), position) == SampleAt(entries, position)
  {
    if entries != [] && entries[0].End() <= earlier {
      SampleAfterDrop(entries[1..], earlier, position);
    }
  }

  lemma {:induction false} SampleSameAudio(a: seq<Entry>, b: seq<Entry>, position: nat)
    requires AllSameAudio(a, b)
    ensures SampleAt(a, position) == SampleAt(b, position)
  {
    if a != [] {
      assert SameAudio(a[0], b[0]);
      assert AllSameAudio(a[1..], b[1..]);
      SampleSameAudio(a[1..], b[1..], position);
    }
  }

  lemma MarkTail(entries: seq<Entry>, accepted: nat)
    requires entries != []
    ensures MarkAccepted(entries, accepted)[1..] == MarkAccepted(entries[1..], accepted)
    ensures MarkAccepted(entries, accepted)[0].End() == entries[0].End()
  {
  }

  lemma MarkTwice(entries: seq<Entry>, first: nat, second: nat)
    requires first <= second
    ensures MarkAccepted(MarkAccepted(entries, first), second) == MarkAccepted(entries, second)
  {
  }

  lemma {:induction false} DropAndMarkAgain(entries: seq<Entry>, accepted1: nat, accepted2: nat, earlier: nat,
                                            later: nat)
    requires accepted1 <= accepted2 && earlier <= later
    ensures DropRendered(MarkAccepted(DropRendered(MarkAccepted(entries, accepted1), earlier), accepted2), later)
         == DropRendered(MarkAccepted(entries, accepted2), later)
    decreases |entries|
  {
    var once := MarkAccepted(entries, accepted1);
    var straight := MarkAccepted(entries, accepted2);
    if entries == [] {
    } else if entries[0].End() <= earlier {
      MarkTail(entries, accepted1);
      MarkTail(entries, accepted2);
      assert DropRendered(once, earlier) == DropRendered(MarkAccepted(entries[1..], accepted1), earlier);
      assert DropRendered(straight, later) == DropRendered(MarkAccepted(entries[1..], accepted2), later);
      DropAndMarkAgain(entries[1..], accepted1, accepted2, earlier, later);
    } else {
      assert once[0].End() == entries[0].End();
      assert DropRendered(once, earlier) == once;
      MarkTwice(entries, accepted1, accepted2);
    }
  }

  ghost predicate BothSeen(s: LedgerState, first: MasterCursor, second: MasterCursor) {
    && Inv(s)
    && Observe(s, first).result.Ok?
    && first.accepted <= second.accepted && first.rendered <= second.rendered
    && Observe(s, second).result.Ok?
    && Observe(Observe(s, first).state, second).result.Ok?
  }

  /** The source cursor after an observation, whether or not the master moved. */
  lemma {:induction false} RenderedAfter(s: LedgerState, cursor: MasterCursor, key: SourceKey)
    requires Inv(s) && Observe(s, cursor).result.Ok? && key in s.sources
    ensures
      var done := Observe(s, cursor).state;
      && key in done.sources
      && done.sources[key] == Progress(s.sources[key].accepted,
                                       Max(s.sources[key].rendered, Reach(s.entries, key, cursor.rendered)))
  {
    var marked := MarkAccepted(s.entries, cursor.accepted);
    MarkAcceptedSameAudio(s.entries, cursor.accepted);
    SameAudioReach(marked, s.entries, key, cursor.rendered);
    if cursor.rendered == s.rendered {
      NothingNew(s.entries, s.sources, key, s.rendered);
    }
  }

  lemma {:induction false} ReachAfterObserve(s: LedgerState, cursor: MasterCursor, key: SourceKey, later: nat)
    requires Inv(s) && Observe(s, cursor).result.Ok? && cursor.rendered <= later
    ensures Max(Reach(s.entries, key, cursor.rendered), Reach(Observe(s, cursor).state.entries, key, later))
         == Reach(s.entries, key, later)
  {
    var marked := MarkAccepted(s.entries, cursor.accepted);
    MarkAcceptedSameAudio(s.entries, cursor.accepted);
    SameAudioReach(marked, s.entries, key, cursor.rendered);
    SameAudioReach(marked, s.entries, key, later);
    MarkKeeps(s, cursor.accepted);
    forall i | 0 <= i < |marked|
      ensures LaneOk(marked[i].music, SourceKind.Music) && LaneOk(marked[i].voice, SourceKind.Voice)
    {
      assert Accounted(marked[i], s.sources, s.rendered);
    }
    ReachAcrossDrop(marked, s.FirstStart(), s.next, key, cursor.rendered, later);
  }

  /** One source through an intermediate ledger, given what the first observation did to it. */
  lemma {:induction false} SourceAgrees(s: LedgerState, mid: LedgerState, first: MasterCursor, second: MasterCursor,
                                        key: SourceKey)
    requires Inv(s) && Inv(mid) && Observe(mid, second).result.Ok? && Observe(s, second).result.Ok?
    requires key in s.sources && key in mid.sources
    requires mid.sources[key] == Progress(s.sources[key].accepted,
                                          Max(s.sources[key].rendered, Reach(s.entries, key, first.rendered)))
    requires Max(Reach(s.entries, key, first.rendered), Reach(mid.entries, key, second.rendered))
          == Reach(s.entries, key, second.rendered)
    ensures key in Observe(mid, second).state.sources && key in Observe(s, second).state.sources
    ensures Observe(mid, second).state.sources[key] == Observe(s, second).state.sources[key]
  {
    RenderedAfter(mid, second, key);
    RenderedAfter(s, second, key);
  }

  lemma SourceAgreesAfter(s: LedgerState, mid: LedgerState, first: MasterCursor, second: MasterCursor, key: SourceKey)
    requires BothSeen(s, first, second) && mid == Observe(s, first).state && key in s.sources
    ensures key in Observe(mid, second).state.sources && key in Observe(s, second).state.sources
    ensures Observe(mid, second).state.sources[key] == Observe(s, second).state.sources[key]
  {
    hide Inv, Observe;
    ObserveKeeps(s, first);
    RenderedAfter(s, first, key);
    ReachAfterObserve(s, first, key, second.rendered);
    SourceAgrees(s, mid, first, second, key);
  }

  lemma SameKeys(s: LedgerState, cursor: MasterCursor)
    requires Observe(s, cursor).result.Ok?
    ensures Observe(s, cursor).state.sources.Keys == s.sources.Keys
  {
  }

  lemma SourcesAgree(s: LedgerState, mid: LedgerState, first: MasterCursor, second: MasterCursor)
    requires BothSeen(s, first, second) && mid == Observe(s, first).state
    ensures Observe(mid, second).state.sources == Observe(s, second).state.sources
  {
    hide Inv, Observe;
    SameKeys(s, first);
    SameKeys(mid, second);
    SameKeys(s, second);
    forall key | key in s.sources
      ensures Observe(mid, second).state.sources[key] == Observe(s, second).state.sources[key]
    {
      SourceAgreesAfter(s, mid, first, second, key);
    }
  }

  lemma {:induction false} NothingNew(entries: seq<Entry>, sources: SourceTable, key: SourceKey, rendered: nat)
    requires AllAccounted(entries, sources, rendered) && key in sources
    ensures Reach(entries, key, rendered) <= sources[key].rendered
  {
    forall i | 0 <= i < |entries| ensures EntryReach(entries[i], key, rendered) <= sources[key].rendered {
      assert Accounted(entries[i], sources, rendered);
    }
    ReachBounded(entries, key, rendered, sources[key].rendered);
  }

  /** The last rendered sample is the one just before the cursor, once the master has moved. */
  lemma SampleAfter(s: LedgerState, cursor: MasterCursor)
    requires Inv(s) && Observe(s, cursor).result.Ok?
    ensures Observe(s, cursor).state.lastSample == KeptSample(s.entries, s.lastSample, s.rendered, cursor.rendered)
  {
    if cursor.rendered > s.rendered {
      MarkAcceptedSameAudio(s.entries, cursor.accepted);
      SampleSameAudio(MarkAccepted(s.entries, cursor.accepted), s.entries, cursor.rendered - 1);
      SampleAtPosition(s.entries, s.FirstStart(), s.next, cursor.rendered - 1);
    }
  }

  lemma {:induction false} SampleStillFound(s: LedgerState, cursor: MasterCursor, position: nat)
    requires Observe(s, cursor).result.Ok? && cursor.rendered <= position
    ensures SampleAt(Observe(s, cursor).state.entries, position) == SampleAt(s.entries, position)
  {
    var marked := MarkAccepted(s.entries, cursor.accepted);
    MarkAcceptedSameAudio(s.entries, cursor.accepted);
    SampleSameAudio(marked, s.entries, position);
    SampleAfterDrop(marked, cursor.rendered, position);
  }

  lemma PendingAgrees(s: LedgerState, mid: LedgerState, first: MasterCursor, accepted: nat)
    requires Inv(s) && Observe(s, first).result.Ok? && mid == Observe(s, first).state && Inv(mid)
    requires accepted <= s.next
    ensures PendingReached(mid, accepted) == PendingReached(s, accepted)
  {
    if s.pending.Some? {
      PendingIsLast(s, accepted);
      PendingIsLast(mid, accepted);
    }
  }

  /** Which cursors an observation accepts. */
  ghost predicate Acceptable(s: LedgerState, cursor: MasterCursor) {
    && cursor.epoch == s.epoch
    && s.accepted <= cursor.accepted <= s.next
    && s.rendered <= cursor.rendered <= cursor.accepted
    && !PendingReached(s, cursor.accepted)
  }

  lemma ObserveAccepts(s: LedgerState, cursor: MasterCursor)
    ensures Observe(s, cursor).result.Ok? <==> Acceptable(s, cursor)
    ensures Observe(s, cursor).result.Ok? ==>
              var done := Observe(s, cursor).state;
              && Observe(s, cursor).result.value == done.sources
              && done == LedgerState(s.window, s.epoch, s.next, cursor.accepted, cursor.rendered, s.nextId, s.pending,
                                     DropRendered(MarkAccepted(s.entries, cursor.accepted), cursor.rendered),
                                     done.sources, done.lastSample)
  {
  }

  lemma ErrorsAgree(s: LedgerState, mid: LedgerState, second: MasterCursor)
    requires s.epoch == mid.epoch && s.next == mid.next
    requires s.accepted <= second.accepted && mid.accepted <= second.accepted
    requires s.rendered <= second.rendered && mid.rendered <= second.rendered
    requires second.accepted <= s.next ==> PendingReached(s, second.accepted) == PendingReached(mid, second.accepted)
    ensures Observe(s, second).result.Ok? <==> Observe(mid, second).result.Ok?
    ensures Observe(s, second).result.Err? ==> Observe(mid, second).result == Observe(s, second).result
  {
  }

  /** The whole ledger after both observations, once its parts are known to agree. */
  lemma StatesAgree(s: LedgerState, first: MasterCursor, second: MasterCursor)
    requires BothSeen(s, first, second)
    ensures Observe(Observe(s, first).state, second).state == Observe(s, second).state
  {
    var mid := Observe(s, first).state;
    SourcesAgree(s, mid, first, second);
    SamplesAgree(s, first, second);
    DropAndMarkAgain(s.entries, first.accepted, second.accepted, first.rendered, second.rendered);
    ObserveAccepts(s, first);
    ObserveAccepts(mid, second);
    ObserveAccepts(s, second);
  }

  /** The sample kept when the master moved from one rendered position to another. */
  function KeptSample(entries: seq<Entry>, before: Option<Frame>, from: nat, to: nat): Option<Frame> {
    if to > from then SampleAt(entries, to - 1) else before
  }

  lemma {:induction false} KeptSampleComposes(entries: seq<Entry>, left: seq<Entry>, before: Option<Frame>, from: nat,
                                              mid: nat, to: nat)
    requires from <= mid <= to
    requires mid < to ==> SampleAt(left, to - 1) == SampleAt(entries, to - 1)
    ensures KeptSample(left, KeptSample(entries, before, from, mid), mid, to) == KeptSample(entries, before, from, to)
  {
  }

  lemma SamplesAgree(s: LedgerState, first: MasterCursor, second: MasterCursor)
    requires BothSeen(s, first, second)
    ensures Observe(Observe(s, first).state, second).state.lastSample == Observe(s, second).state.lastSample
  {
    hide SampleAt, DropRendered, Advance, MarkAccepted;
    var mid := Observe(s, first).state;
    assert Inv(mid) && mid.rendered == first.rendered && s.rendered <= first.rendered by {
      ObserveKeeps(s, first);
    }
    SampleAfter(s, first);
    SampleAfter(s, second);
    SampleAfter(mid, second);
    if second.rendered > first.rendered {
      SampleStillFound(s, first, second.rendered - 1);
    }
    KeptSampleComposes(s.entries, mid.entries, s.lastSample, s.rendered, first.rendered, second.rendered);
  }

  /** Path independence of observation: the same answer and the same ledger. */
  lemma ObserveThenObserve(s: LedgerState, first: MasterCursor, second: MasterCursor)
    requires Inv(s) && Observe(s, first).result.Ok?
    requires first.accepted <= second.accepted && first.rendered <= second.rendered
    ensures Observe(Observe(s, first).state, second).result == Observe(s, second).result
    ensures Observe(s, second).result.Ok? ==> Observe(Observe(s, first).state, second).state == Observe(s, second).state
  {
    var mid := Observe(s, first).state;
    ObserveKeeps(s, first);
    ObserveAccepts(s, first);
    if second.accepted <= s.next {
      PendingAgrees(s, mid, first, second.accepted);
    }
    ErrorsAgree(s, mid, second);
    if Observe(s, second).result.Ok? {
      StatesAgree(s, first, second);
    }
  }
}
