/** The sample that the ledger remembers is the last one the master played,
    within one epoch and across the epochs that flushes close. */
module PlayedSamples {
  import opened Common
  import opened AudioModels
  import opened LedgerSpec
  import opened LedgerInvariant

  /** The output sample at a master position that the entries cover. */
  ghost predicate SampleOf(s: LedgerState, position: nat, sample: Option<Frame>) {
    && s.FirstStart() <= position
    && var at := position - s.FirstStart();
       && Slot(at) < |s.entries| && Offset(at) < |s.entries[Slot(at)].output|
       && sample == Some(s.entries[Slot(at)].output[Offset(at)])
  }

  /** What is remembered once the master has moved from one position to another. */
  ghost predicate Remembers(s: LedgerState, rendered: nat, sample: Option<Frame>) {
    if rendered > s.rendered then SampleOf(s, rendered - 1, sample) else sample == s.lastSample
  }

  lemma {:induction false} MarkedSample(s: LedgerState, accepted: nat, position: nat)
    requires Inv(s) && s.FirstStart() <= position < s.next
    ensures SampleOf(s, position, SampleAt(MarkAccepted(s.entries, accepted), position))
  {
    var marked := MarkAccepted(s.entries, accepted);
    MarkAcceptedSameAudio(s.entries, accepted);
    SameAudioTiled(marked, s.entries, s.FirstStart(), s.next);
    hide Inv, Slot, Offset, SampleAt;
    SampleAtPosition(marked, s.FirstStart(), s.next, position);
    var at := position - s.FirstStart();
    assert SameAudio(marked[Slot(at)], s.entries[Slot(at)]);
  }

  /** Moving the master over its cursor remembers the output sample just before
      the cursor; an accepted cursor that does not move keeps the old one. */
  lemma {:induction false} ReconcileRemembers(s: LedgerState, cursor: MasterCursor, allowPending: bool)
    requires Inv(s) && Reconcile(s, cursor, allowPending).result.Ok?
    ensures Remembers(s, cursor.rendered, Reconcile(s, cursor, allowPending).state.lastSample)
  {
    ReconcileCases(s, cursor, allowPending);
    if cursor.rendered > s.rendered {
      assert s.FirstStart() <= s.rendered;
      MarkedSample(s, cursor.accepted, cursor.rendered - 1);
    }
    hide Inv, Reconcile, SampleAt, MarkAccepted, Slot, Offset, DropRendered, Advance;
  }

  lemma ObserveRemembers(s: LedgerState, cursor: MasterCursor)
    requires Inv(s) && Observe(s, cursor).result.Ok?
    ensures Remembers(s, cursor.rendered, Observe(s, cursor).state.lastSample)
  {
    hide Remembers;
    ReconcileRemembers(s, cursor, false);
  }

  lemma SettleSameAudio(entries: seq<Entry>, id: nat)
    ensures AllSameAudio(Settle(entries, id), entries)
  {
  }

  lemma SameAudioRemembers(a: LedgerState, b: LedgerState, rendered: nat, sample: Option<Frame>)
    requires AllSameAudio(a.entries, b.entries) && a.next == b.next && a.rendered == b.rendered
    requires a.lastSample == b.lastSample && Remembers(a, rendered, sample)
    ensures Remembers(b, rendered, sample)
  {
    hide Slot, Offset;
    if rendered > a.rendered {
      var at := Slot(rendered - 1 - a.FirstStart());
      assert SameAudio(a.entries[at], b.entries[at]) && SameAudio(a.entries[0], b.entries[0]);
    }
  }

  lemma SettledInv(s: LedgerState, id: nat)
    requires Inv(s)
    ensures Inv(s.(entries := Settle(s.entries, id), pending := None))
  {
    var settled := s.(entries := Settle(s.entries, id), pending := None);
    assert AllSameAudio(settled.entries, s.entries);
    SameAudioTiled(settled.entries, s.entries, s.FirstStart(), s.next);
    SameAudioAccounted(settled.entries, s.entries, s.sources, s.rendered);
  }

  lemma {:induction false} AcknowledgeRemembers(s: LedgerState, id: nat, cursor: MasterCursor)
    requires Inv(s) && MarkWritten(s, id, cursor).result.Ok?
    ensures Remembers(s, cursor.rendered, MarkWritten(s, id, cursor).state.lastSample)
  {
    var settled := s.(entries := Settle(s.entries, id), pending := None);
    SettledInv(s, id);
    ObserveRemembers(settled, cursor);
    SettleSameAudio(s.entries, id);
    hide Inv, Observe, Settle, Remembers;
    SameAudioRemembers(settled, s, cursor.rendered, Observe(settled, cursor).state.lastSample);
  }

  /** A flush passes on the sample just before its cursor, and names the epochs
      it closes and opens and the cursors it left. */
  lemma RemixRemembers(s: LedgerState, cursor: MasterCursor, discard: set<SourceKey>)
    requires Inv(s) && Remix(s, cursor, discard).result.Ok?
    ensures
      var after, plan := Remix(s, cursor, discard).state, Remix(s, cursor, discard).result.value;
      && Remembers(s, cursor.rendered, plan.lastSample)
      && after.lastSample == plan.lastSample
      && plan.oldEpoch == s.epoch && plan.nextEpoch == after.epoch == s.epoch + 1
      && plan.cursors == after.sources && after.sources.Keys == s.sources.Keys
  {
    hide Remembers;
    ReconcileRemembers(s, cursor, true);
  }

  // ---- whole runs ----

  /** The output registered in the open epoch, and what was played of it before
      each flush that closed one. */
  datatype Tape = Tape(played: seq<Frame>, output: seq<Frame>)

  function Played(tape: Tape, rendered: nat): seq<Frame> {
    tape.played + tape.output[..Min(rendered, |tape.output|)]
  }

  ghost function Recorded(s: LedgerState, tape: Tape, op: Operation): Tape {
    match op
    case DoRegister(mixed) =>
      if Register(s, mixed).result.Ok? then tape.(output := tape.output + mixed.output) else tape
    case DoRemix(cursor, discard) =>
      if Remix(s, cursor, discard).result.Ok? then Tape(Played(tape, cursor.rendered), []) else tape
    case _ => tape
  }

  ghost function RunTape(s: LedgerState, ops: seq<Operation>): Tape {
    if ops == [] then Tape([], [])
    else
      var n := |ops| - 1;
      Recorded(Run(s, ops[..n]), RunTape(s, ops[..n]), ops[n])
  }

  /** Each entry holds its stretch of the output. */
  ghost predicate OnTape(entries: seq<Entry>, output: seq<Frame>) {
    forall i | 0 <= i < |entries| ::
      entries[i].End() <= |output| && entries[i].output == output[entries[i].start..entries[i].End()]
  }

  function Last(frames: seq<Frame>): Option<Frame> {
    if frames == [] then None else Some(frames[|frames| - 1])
  }

  ghost predicate Follows(s: LedgerState, tape: Tape) {
    && |tape.output| == s.next
    && OnTape(s.entries, tape.output)
    && s.lastSample == Last(Played(tape, s.rendered))
  }

  /** The sample before a position of the entries is the one on the tape. */
  lemma SampleOnTape(s: LedgerState, tape: Tape, position: nat, sample: Option<Frame>)
    requires Inv(s) && Follows(s, tape) && s.FirstStart() <= position < s.next && SampleOf(s, position, sample)
    ensures sample == Some(tape.output[position])
  {
    var at := position - s.FirstStart();
    TiledPosition(s.entries, s.FirstStart(), s.next, Slot(at));
    WholeIsParts(at);
    hide Inv, Slot, Offset;
    var entry := s.entries[Slot(at)];
    assert entry.output == tape.output[entry.start..entry.End()];
  }

  lemma WholeIsParts(at: nat)
    ensures at == AUDIO_BLOCK_FRAMES * Slot(at) + Offset(at)
  {
  }

  /** Of an output played up to a position the last sample is the one before it. */
  lemma LastPlayed(tape: Tape, rendered: nat)
    requires 0 < rendered <= |tape.output|
    ensures Last(Played(tape, rendered)) == Some(tape.output[rendered - 1])
  {
  }

  lemma RemembersPlayed(s: LedgerState, tape: Tape, rendered: nat, sample: Option<Frame>)
    requires Inv(s) && Follows(s, tape) && s.rendered <= rendered <= s.next && Remembers(s, rendered, sample)
    ensures sample == Last(Played(tape, rendered))
  {
    assert s.FirstStart() <= s.rendered;
    hide Inv, SampleOf, Played, Last;
    if rendered > s.rendered {
      SampleOnTape(s, tape, rendered - 1, sample);
      LastPlayed(tape, rendered);
    }
    hide OnTape;
  }

  lemma SameAudioOnTape(a: seq<Entry>, b: seq<Entry>, output: seq<Frame>)
    requires AllSameAudio(a, b) && OnTape(b, output)
    ensures OnTape(a, output)
  {
    forall i | 0 <= i < |a|
      ensures a[i].End() <= |output| && a[i].output == output[a[i].start..a[i].End()]
    {
      assert SameAudio(a[i], b[i]);
    }
  }

  /** Marking entries and dropping finished ones leaves the others on the tape. */
  lemma {:induction false} ReconciledOnTape(s: LedgerState, cursor: MasterCursor, allowPending: bool,
                                            output: seq<Frame>)
    requires OnTape(s.entries, output)
    ensures OnTape(Reconcile(s, cursor, allowPending).state.entries, output)
  {
    var marked := MarkAccepted(s.entries, cursor.accepted);
    MarkAcceptedSameAudio(s.entries, cursor.accepted);
    SameAudioOnTape(marked, s.entries, output);
    DropIsSuffix(marked, cursor.rendered);
    ReconcileCases(s, cursor, allowPending);
    hide Reconcile, MarkAccepted, DropRendered;
  }

  lemma ReconcileFollows(s: LedgerState, tape: Tape, cursor: MasterCursor, allowPending: bool)
    requires Inv(s) && Follows(s, tape)
    ensures Follows(Reconcile(s, cursor, allowPending).state, tape)
  {
    ReconciledOnTape(s, cursor, allowPending, tape.output);
    ReconcileCases(s, cursor, allowPending);
    if Reconcile(s, cursor, allowPending).result.Ok? {
      ReconcileRemembers(s, cursor, allowPending);
      hide Inv, OnTape, Reconcile, Remembers, Played;
      RemembersPlayed(s, tape, cursor.rendered, Reconcile(s, cursor, allowPending).state.lastSample);
    }
  }

  lemma AcknowledgeFollows(s: LedgerState, tape: Tape, id: nat, cursor: MasterCursor)
    requires Inv(s) && Follows(s, tape)
    ensures Follows(MarkWritten(s, id, cursor).state, tape)
  {
    var settled := s.(entries := Settle(s.entries, id), pending := None);
    SettledInv(s, id);
    SettleSameAudio(s.entries, id);
    SameAudioOnTape(settled.entries, s.entries, tape.output);
    hide Inv, OnTape, Settle, Reconcile, Played;
    ReconcileFollows(settled, tape, cursor, false);
  }

  /** A closed epoch leaves what was played and an empty output. */
  lemma NothingOpen(s: LedgerState, played: seq<Frame>)
    requires s.next == 0 && s.rendered == 0 && s.entries == [] && s.lastSample == Last(played)
    ensures Follows(s, Tape(played, []))
  {
    assert played + [] == played;
  }

  lemma RemixFollows(s: LedgerState, tape: Tape, cursor: MasterCursor, discard: set<SourceKey>)
    requires Inv(s) && Follows(s, tape)
    ensures Follows(Remix(s, cursor, discard).state, Recorded(s, tape, DoRemix(cursor, discard)))
  {
    ReconcileFollows(s, tape, cursor, true);
    ReconcileCases(s, cursor, true);
    hide Inv, Reconcile, Played, Last, OnTape, Survivors;
    if Remix(s, cursor, discard).result.Ok? {
      NothingOpen(Remix(s, cursor, discard).state, Played(tape, cursor.rendered));
    }
  }

  /** One block more on the tape, and its entry behind the others. */
  lemma LongerTape(entries: seq<Entry>, output: seq<Frame>, entry: Entry)
    requires OnTape(entries, output) && entry.start == |output| && entry.frameCount == |entry.output|
    ensures OnTape(entries + [entry], output + entry.output)
  {
    var all, more := entries + [entry], output + entry.output;
    forall i | 0 <= i < |all|
      ensures all[i].End() <= |more| && all[i].output == more[all[i].start..all[i].End()]
    {
      if i < |entries| {
        assert all[i] == entries[i];
        assert more[entries[i].start..entries[i].End()] == output[entries[i].start..entries[i].End()];
      } else {
        assert more[|output|..] == entry.output;
      }
    }
  }

  lemma SamePlayed(tape: Tape, more: seq<Frame>, rendered: nat)
    requires rendered <= |tape.output|
    ensures Played(tape.(output := tape.output + more), rendered) == Played(tape, rendered)
  {
    assert (tape.output + more)[..rendered] == tape.output[..rendered];
  }

  lemma RegisterFollows(s: LedgerState, tape: Tape, mixed: MixedBlock)
    requires Inv(s) && Follows(s, tape)
    ensures Follows(Register(s, mixed).state, Recorded(s, tape, DoRegister(mixed)))
  {
    assert s.rendered <= s.next;
    hide Inv, NoteAll, OnTape, Played, Last;
    if Register(s, mixed).result.Ok? {
      LongerTape(s.entries, tape.output, NewEntry(s, mixed));
      SamePlayed(tape, mixed.output, s.rendered);
    }
  }

  lemma OperationFollows(s: LedgerState, tape: Tape, op: Operation)
    requires Inv(s) && Follows(s, tape)
    ensures Follows(Perform(s, op), Recorded(s, tape, op))
  {
    hide Inv, Follows, Register, MarkWritten, Observe, Remix;
    match op
    case DoRegister(mixed) => RegisterFollows(s, tape, mixed);
    case DoMarkWritten(id, cursor) => AcknowledgeFollows(s, tape, id, cursor);
    case DoObserve(cursor) => ObserveFollows(s, tape, cursor);
    case DoRemix(cursor, discard) => RemixFollows(s, tape, cursor, discard);
    case DoForget(keys) => ForgetFollows(s, tape, keys);
  }

  lemma ObserveFollows(s: LedgerState, tape: Tape, cursor: MasterCursor)
    requires Inv(s) && Follows(s, tape)
    ensures Follows(Observe(s, cursor).state, tape)
  {
    hide Inv, Follows, Reconcile;
    ReconcileFollows(s, tape, cursor, false);
  }

  lemma ForgetFollows(s: LedgerState, tape: Tape, keys: set<SourceKey>)
    requires Follows(s, tape)
    ensures Follows(Forget(s, keys).state, tape)
  {
  }

  /** After every run of operations, refused ones included, the remembered
      sample is the last that was played: the one just before the rendered
      cursor of all output registered in the open epoch, or the last of earlier
      epochs when nothing of the open one was played, or none at all. */
  lemma {:induction false} RememberedIsLastPlayed(window: nat, ops: seq<Operation>)
    requires AUDIO_BLOCK_FRAMES <= window && forall i | 0 <= i < |ops| :: Callable(ops[i])
    ensures
      var s, tape := Run(Initial(window), ops), RunTape(Initial(window), ops);
      && s.lastSample == Last(Played(tape, s.rendered))
      && s.rendered <= s.next == |tape.output|
      && (s.rendered > 0 ==> s.lastSample == Some(tape.output[s.rendered - 1]))
  {
    hide *;
    RunFollows(window, ops);
    FollowsSays(Run(Initial(window), ops), RunTape(Initial(window), ops));
  }

  lemma FollowsSays(s: LedgerState, tape: Tape)
    requires Inv(s) && Follows(s, tape)
    ensures s.lastSample == Last(Played(tape, s.rendered)) && s.rendered <= s.next == |tape.output|
    ensures s.rendered > 0 ==> s.lastSample == Some(tape.output[s.rendered - 1])
  {
    assert s.rendered <= s.next;
    hide Inv, OnTape, Played, Last;
    if s.rendered > 0 {
      LastPlayed(tape, s.rendered);
    }
  }

  lemma {:induction false} RunFollows(window: nat, ops: seq<Operation>)
    requires AUDIO_BLOCK_FRAMES <= window && forall i | 0 <= i < |ops| :: Callable(ops[i])
    ensures Inv(Run(Initial(window), ops)) && Follows(Run(Initial(window), ops), RunTape(Initial(window), ops))
  {
    EveryRunKeepsInv(window, ops);
    hide Inv, Perform, Recorded;
    if ops != [] {
      var n := |ops| - 1;
      RunFollows(window, ops[..n]);
      OperationFollows(Run(Initial(window), ops[..n]), RunTape(Initial(window), ops[..n]), ops[n]);
    }
  }
}
