/** What each operation of the master playout ledger does to the whole ledger
    state, and the invariant every operation keeps. */
module LedgerSpec {
  import opened Common
  import opened AudioModels

  datatype EntryState = Pending | Accepted

  datatype MixedBlock = MixedBlock(output: seq<Frame>, music: Option<SourceSlice>, voice: Option<SourceSlice>) {
    /** What AudioMixer.mix returns: each lane holds a slice of its own kind,
        cut from the front of one block. */
    ghost predicate Valid() {
      LaneOk(music, SourceKind.Music) && LaneOk(voice, SourceKind.Voice)
    }
  }

  ghost predicate LaneOk(slice: Option<SourceSlice>, kind: SourceKind) {
    slice.Some? ==>
      && slice.value.key.kind == kind
      && slice.value.masterOffset == 0
      && 1 <= slice.value.FrameCount() <= AUDIO_BLOCK_FRAMES
  }

  /** One master block and its pre-gain source contributions. */
  datatype Entry = Entry(id: nat, epoch: nat, start: nat, frameCount: nat, output: seq<Frame>,
                         music: Option<SourceSlice>, voice: Option<SourceSlice>, state: EntryState)
  {
    function End(): nat { start + frameCount }

    function Sources(): seq<SourceSlice> {
      (if music.Some? then [music.value] else []) + (if voice.Some? then [voice.value] else [])
    }

    /** The contribution of one source to this entry. */
    function SliceOf(key: SourceKey): Option<SourceSlice> {
      var lane := if key.kind.Music? then music else voice;
      if lane.Some? && lane.value.key == key then lane else None
    }
  }

  datatype Progress = Progress(accepted: nat, rendered: nat)

  type SourceTable = map<SourceKey, Progress>

  datatype MasterCursor = MasterCursor(epoch: nat, accepted: nat, rendered: nat, buffered: nat)

  datatype ReplaySegment = ReplaySegment(frameCount: nat, music: Option<SourceSlice>, voice: Option<SourceSlice>) {
    /** The three checks of the segment's constructor. */
    predicate Valid() {
      && frameCount > 0
      && (music.Some? || voice.Some?)
      && (music.Some? ==> music.value.MasterEndOffset() <= frameCount)
      && (voice.Some? ==> voice.value.MasterEndOffset() <= frameCount)
    }

    function SliceOf(key: SourceKey): Option<SourceSlice> {
      var lane := if key.kind.Music? then music else voice;
      if lane.Some? && lane.value.key == key then lane else None
    }
  }

  datatype RemixPlan = RemixPlan(oldEpoch: nat, nextEpoch: nat, cursors: SourceTable,
                                 survivors: seq<ReplaySegment>, lastSample: Option<Frame>)

  datatype LedgerError =
    | WritePending | NotCanonicalBlock | WindowFull | FrameGap
    | NotPendingOwner | AckMissesBlock
    | WrongEpoch | AcceptedBackwards | RenderedBackwards | AcceptedBeyondRegistered | RenderedBeyondAccepted
    | PendingUncommitted | StillReferenced

  datatype LedgerState = LedgerState(
    window: nat, epoch: nat, next: nat, accepted: nat, rendered: nat, nextId: nat,
    pending: Option<nat>, entries: seq<Entry>, sources: SourceTable, lastSample: Option<Frame>)
  {
    function Unrendered(): int { next - rendered }

    function FirstStart(): nat { if entries == [] then next else entries[0].start }
  }

  /** The state an operation leaves behind, whether it returns or raises. */
  datatype Outcome<+T> = Outcome(state: LedgerState, result: Result<T, LedgerError>)

  function Initial(window: nat): LedgerState {
    LedgerState(window, 0, 0, 0, 0, 0, None, [], map[], None)
  }

  // ---- register_pending ----

  function ProgressOf(sources: SourceTable, key: SourceKey): Progress {
    if key in sources then sources[key] else Progress(0, 0)
  }

  /** Raise the accepted cursor over one slice. A slice that starts beyond the
      accepted cursor is refused, although its key is tracked from then on. */
  function NoteAccepted(sources: SourceTable, slice: SourceSlice): (SourceTable, bool) {
    var progress := ProgressOf(sources, slice.key);
    if slice.startFrame > progress.accepted then (sources[slice.key := progress], false)
    else (sources[slice.key := Progress(Max(progress.accepted, slice.EndFrame()), progress.rendered)], true)
  }

  function NoteAll(sources: SourceTable, slices: seq<SourceSlice>): (SourceTable, bool)
    decreases |slices|
  {
    if slices == [] then (sources, true)
    else
      var (noted, ok) := NoteAccepted(sources, slices[0]);
      if ok then NoteAll(noted, slices[1..]) else (noted, false)
  }

  function NewEntry(s: LedgerState, mixed: MixedBlock): Entry {
    Entry(s.nextId, s.epoch, s.next, AUDIO_BLOCK_FRAMES, mixed.output, mixed.music, mixed.voice, Pending)
  }

  function Register(s: LedgerState, mixed: MixedBlock): Outcome<nat> {
    if s.pending.Some? then Outcome(s, Err(WritePending))
    else if |mixed.output| != AUDIO_BLOCK_FRAMES then Outcome(s, Err(NotCanonicalBlock))
    else if s.Unrendered() + AUDIO_BLOCK_FRAMES > s.window then Outcome(s, Err(WindowFull))
    else
      var entry := NewEntry(s, mixed);
      var (sources, ok) := NoteAll(s.sources, entry.Sources());
      if !ok then Outcome(s.(nextId := s.nextId + 1, sources := sources), Err(FrameGap))
      else Outcome(s.(nextId := s.nextId + 1, sources := sources, entries := s.entries + [entry],
                      next := entry.End(), pending := Some(entry.id)), Ok(entry.id))
  }

  // ---- reconciliation with an SDK cursor ----

  function MarkAccepted(entries: seq<Entry>, accepted: nat): (marked: seq<Entry>)
    ensures |marked| == |entries|
  {
    seq(|entries|, i requires 0 <= i < |entries| =>
      if entries[i].End() <= accepted then entries[i].(state := Accepted) else entries[i])
  }

  /** The source frame number reached in one entry when the master has rendered
      up to cursor; 0 when none of the source's frames were reached. */
  function EntryReach(entry: Entry, key: SourceKey, cursor: nat): nat {
    match entry.SliceOf(key)
    case None => 0
    case Some(slice) =>
      var counted := slice.RenderedBefore(entry.start, cursor);
      if counted == 0 then 0 else slice.startFrame + counted
  }

  /** The furthest frame number of one source reached in any entry. */
  function Reach(entries: seq<Entry>, key: SourceKey, cursor: nat): nat {
    if entries == [] then 0 else Max(EntryReach(entries[0], key, cursor), Reach(entries[1..], key, cursor))
  }

  function Advance(entries: seq<Entry>, sources: SourceTable, cursor: nat): SourceTable {
    map key | key in sources ::
      Progress(sources[key].accepted, Max(sources[key].rendered, Reach(entries, key, cursor)))
  }

  function SampleAt(entries: seq<Entry>, position: nat): Option<Frame> {
    if entries == [] then None
    else if entries[0].start <= position < entries[0].End() && position - entries[0].start < |entries[0].output|
    then Some(entries[0].output[position - entries[0].start])
    else SampleAt(entries[1..], position)
  }

  function DropRendered(entries: seq<Entry>, cursor: nat): seq<Entry> {
    if entries != [] && entries[0].End() <= cursor then DropRendered(entries[1..], cursor) else entries
  }

  /** Is the pending write inside the SDK's accepted range? */
  predicate PendingReached(s: LedgerState, accepted: nat) {
    s.pending.Some? && exists i | 0 <= i < |s.entries| ::
      s.entries[i].id == s.pending.value && s.entries[i].End() <= accepted
  }

  function Reconcile(s: LedgerState, cursor: MasterCursor, allowPending: bool): Outcome<()> {
    if cursor.epoch != s.epoch then Outcome(s, Err(WrongEpoch))
    else if cursor.accepted < s.accepted then Outcome(s, Err(AcceptedBackwards))
    else if cursor.rendered < s.rendered then Outcome(s, Err(RenderedBackwards))
    else if cursor.accepted > s.next then Outcome(s, Err(AcceptedBeyondRegistered))
    else if cursor.rendered > cursor.accepted then Outcome(s, Err(RenderedBeyondAccepted))
    else
      var reached := PendingReached(s, cursor.accepted);
      var marked := s.(entries := MarkAccepted(s.entries, cursor.accepted));
      if reached && !allowPending then Outcome(marked, Err(PendingUncommitted))
      else
        var moved := cursor.rendered > s.rendered;
        var sample := if moved then SampleAt(marked.entries, cursor.rendered - 1) else None;
        Outcome(marked.(
          pending := if reached then None else s.pending,
          sources := if moved then Advance(marked.entries, s.sources, cursor.rendered) else s.sources,
          lastSample := if sample.Some? then sample else s.lastSample,
          accepted := cursor.accepted,
          rendered := cursor.rendered,
          entries := DropRendered(marked.entries, cursor.rendered)), Ok(()))
  }

  function Observe(s: LedgerState, cursor: MasterCursor): Outcome<SourceTable> {
    var done := Reconcile(s, cursor, false);
    Outcome(done.state, if done.result.Ok? then Ok(done.state.sources) else Err(done.result.error))
  }

  function Settle(entries: seq<Entry>, id: nat): (settled: seq<Entry>)
    ensures |settled| == |entries|
  {
    seq(|entries|, i requires 0 <= i < |entries| =>
      if entries[i].id == id then entries[i].(state := Accepted) else entries[i])
  }

  function MarkWritten(s: LedgerState, id: nat, cursor: MasterCursor): Outcome<SourceTable> {
    if s.pending != Some(id) then Outcome(s, Err(NotPendingOwner))
    else if cursor.epoch != s.epoch || !PendingReached(s, cursor.accepted) then Outcome(s, Err(AckMissesBlock))
    else Observe(s.(entries := Settle(s.entries, id), pending := None), cursor)
  }

  // ---- remix ----

  function SurvivingSlice(slice: Option<SourceSlice>, prefix: nat, discard: set<SourceKey>): Option<SourceSlice> {
    if slice.None? || slice.value.key in discard then None else slice.value.TrimMasterPrefix(prefix)
  }

  function EndOffset(slice: Option<SourceSlice>): nat {
    if slice.Some? then slice.value.MasterEndOffset() else 0
  }

  /** What one entry leaves to replay: at most one segment. */
  function EntrySurvivor(entry: Entry, rendered: nat, discard: set<SourceKey>): seq<ReplaySegment> {
    var prefix := Max(0, rendered - entry.start);
    if prefix >= entry.frameCount then []
    else
      var music := SurvivingSlice(entry.music, prefix, discard);
      var voice := SurvivingSlice(entry.voice, prefix, discard);
      if music.None? && voice.None? then []
      else [ReplaySegment(Max(EndOffset(music), EndOffset(voice)), music, voice)]
  }

  function Survivors(entries: seq<Entry>, rendered: nat, discard: set<SourceKey>): seq<ReplaySegment> {
    if entries == [] then []
    else EntrySurvivor(entries[0], rendered, discard) + Survivors(entries[1..], rendered, discard)
  }

  function Remix(s: LedgerState, cursor: MasterCursor, discard: set<SourceKey>): Outcome<RemixPlan> {
    var done := Reconcile(s, cursor, true);
    if done.result.Err? then Outcome(done.state, Err(done.result.error))
    else
      var r := done.state;
      Outcome(r.(epoch := r.epoch + 1, next := 0, accepted := 0, rendered := 0, pending := None, entries := []),
              Ok(RemixPlan(s.epoch, s.epoch + 1, r.sources, Survivors(r.entries, r.rendered, discard), r.lastSample)))
  }

  // ---- forget_sources ----

  ghost predicate Referenced(entries: seq<Entry>, key: SourceKey) {
    exists i | 0 <= i < |entries| :: entries[i].SliceOf(key).Some?
  }

  ghost function Forget(s: LedgerState, keys: set<SourceKey>): Outcome<nat> {
    if exists key | key in keys :: Referenced(s.entries, key) then Outcome(s, Err(StillReferenced))
    else Outcome(s.(sources := s.sources - keys), Ok(|s.sources.Keys * keys|))
  }

  // ---- the invariant ----

  /** Entries tile [from, upTo) of the master timeline, one block each. */
  ghost predicate Tiled(entries: seq<Entry>, from: nat, upTo: nat) {
    if entries == [] then from == upTo
    else
      && entries[0].start == from
      && entries[0].frameCount == AUDIO_BLOCK_FRAMES
      && |entries[0].output| == AUDIO_BLOCK_FRAMES
      && Tiled(entries[1..], from + AUDIO_BLOCK_FRAMES, upTo)
  }

  /** Every slice is tracked, lies below its source's accepted cursor, and what
      the master rendered of it is counted in the source's rendered cursor. */
  ghost predicate Accounted(entry: Entry, sources: SourceTable, rendered: nat) {
    && LaneOk(entry.music, SourceKind.Music)
    && LaneOk(entry.voice, SourceKind.Voice)
    && forall key | entry.SliceOf(key).Some? ::
         && key in sources
         && entry.SliceOf(key).value.EndFrame() <= sources[key].accepted
         && EntryReach(entry, key, rendered) <= sources[key].rendered
  }

  ghost predicate AllAccounted(entries: seq<Entry>, sources: SourceTable, rendered: nat) {
    forall i | 0 <= i < |entries| :: Accounted(entries[i], sources, rendered)
  }

  ghost predicate Numbering(entries: seq<Entry>, nextId: nat, epoch: nat) {
    && (forall i | 0 <= i < |entries| :: entries[i].id < nextId && entries[i].epoch == epoch)
    && (forall i, j | 0 <= i < j < |entries| :: entries[i].id < entries[j].id)
  }

  ghost predicate CursorsOrdered(sources: SourceTable) {
    forall key | key in sources :: sources[key].rendered <= sources[key].accepted
  }

  ghost predicate Inv(s: LedgerState) {
    && AUDIO_BLOCK_FRAMES <= s.window
    && Tiled(s.entries, s.FirstStart(), s.next)
    && s.FirstStart() <= s.rendered <= s.accepted <= s.next
    && (s.entries != [] ==> s.rendered < s.entries[0].End())
    && s.Unrendered() <= s.window
    && Numbering(s.entries, s.nextId, s.epoch)
    && (s.pending.Some? ==> s.entries != [] && s.entries[|s.entries| - 1].id == s.pending.value && s.accepted < s.next)
    && AllAccounted(s.entries, s.sources, s.rendered)
    && CursorsOrdered(s.sources)
  }
}
