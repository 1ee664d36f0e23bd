/** The queue and waiter protocol of the shared mixer bus: any number of
    producers, one writer, flushes, and a close, in any interleaving. */
module BusProtocol {
  import opened Common
  import opened AudioModels

  /** One admitted block and the waiter of its producer. */
  datatype Item = Item(ticket: nat, key: SourceKey)

  datatype Verdict = Delivered | Refused

  datatype Resolution = Resolution(item: Item, verdict: Verdict)

  /** What reaches the ledger, and the flush barriers around replays. */
  datatype Record = Fresh(item: Item) | FlushBegun(survivors: nat) | Replayed | FlushDone | FlushBroken

  /** Writing and Draining hold the operation lock. */
  datatype Writer = Idle | Writing(items: seq<Item>, registered: bool) | Draining | Dead

  /** A flush in progress holds the operation lock. Checked: it found the bus
      healthy and waits for the queues, during which a close can begin. */
  datatype Flush = NoFlush | Checked | Flushing(removed: seq<Item>, left: nat)

  /** taken records every block that some flush took out of a queue. */
  datatype State = State(
    musicLimit: nat, voiceLimit: nat, music: seq<Item>, voice: seq<Item>, writer: Writer, flush: Flush,
    closing: bool, failed: bool, drained: bool,
    admitted: seq<Item>, resolved: seq<Resolution>, log: seq<Record>, taken: seq<Item>)
  {
    function Queue(kind: SourceKind): seq<Item> { if kind.Music? then music else voice }

    function Limit(kind: SourceKind): nat { if kind.Music? then musicLimit else voiceLimit }

    function InFlight(): seq<Item> { if writer.Writing? then writer.items else [] }

    function Removed(): seq<Item> { if flush.Flushing? then flush.removed else [] }

    predicate LockFree() { !writer.Writing? && !writer.Draining? && flush.NoFlush? }

    predicate Healthy() { !closing && !failed }
  }

  // ---- queue operations ----

  function Kept(queue: seq<Item>, discard: set<SourceKey>): seq<Item> {
    if queue == [] then [] else (if queue[0].key in discard then [] else [queue[0]]) + Kept(queue[1..], discard)
  }

  function Dropped(queue: seq<Item>, discard: set<SourceKey>): seq<Item> {
    if queue == [] then [] else (if queue[0].key in discard then [queue[0]] else []) + Dropped(queue[1..], discard)
  }

  function Head(queue: seq<Item>): seq<Item> {
    if queue == [] then [] else [queue[0]]
  }

  function Rest(queue: seq<Item>): seq<Item> {
    if queue == [] then [] else queue[1..]
  }

  /** The two bounded lanes, changed in place. */
  class LaneQueues {
    var music: seq<Item>
    var voice: seq<Item>

    constructor ()
      ensures music == [] == voice
    {
      music, voice := [], [];
    }

    /** Pop the head of each lane that has one. */
    method SelectPair() returns (items: seq<Item>)
      modifies this
      ensures items == Head(old(music)) + Head(old(voice))
      ensures music == Rest(old(music)) && voice == Rest(old(voice))
    {
      items := [];
      if music != [] {
        items, music := items + [music[0]], music[1..];
      }
      if voice != [] {
        items, voice := items + [voice[0]], voice[1..];
      }
    }

    /** Take every queued block of a discarded source out of both lanes. */
    method DiscardQueued(discard: set<SourceKey>) returns (removed: seq<Item>)
      modifies this
      ensures removed == Dropped(old(music), discard) + Dropped(old(voice), discard)
      ensures music == Kept(old(music), discard) && voice == Kept(old(voice), discard)
    {
      var fromMusic, keptMusic := Split(music, discard);
      var fromVoice, keptVoice := Split(voice, discard);
      music, voice := keptMusic, keptVoice;
      removed := fromMusic + fromVoice;
    }

    static method Split(queue: seq<Item>, discard: set<SourceKey>) returns (removed: seq<Item>, retained: seq<Item>)
      ensures removed == Dropped(queue, discard) && retained == Kept(queue, discard)
    {
      removed, retained := [], [];
      var left := queue;
      while left != []
        invariant removed + Dropped(left, discard) == Dropped(queue, discard)
        invariant retained + Kept(left, discard) == Kept(queue, discard)
        decreases |left|
      {
        var item := left[0];
        if item.key in discard {
          removed := removed + [item];
        } else {
          retained := retained + [item];
        }
        left := left[1..];
      }
    }

    method TakeAllQueued() returns (queued: seq<Item>)
      modifies this
      ensures queued == old(music) + old(voice) && music == [] == voice
    {
      queued := music + voice;
      music, voice := [], [];
    }
  }

  // ---- steps ----

  datatype Step =
    | Admit(key: SourceKey)
    | Take
    | Register
    | Deliver
    | WriterFails
    | WriterDrains
    | WriterStops
    | CheckFlush
    | GiveUpFlush
    | BeginFlush(discard: set<SourceKey>, survivors: nat)
    | WriteReplay
    | EndFlush
    | FlushFails
    | CursorFails
    | BeginClose
    | CloseDrains

  function Resolve(s: State, items: seq<Item>, verdict: Verdict): seq<Resolution> {
    s.resolved + seq(|items|, i requires 0 <= i < |items| => Resolution(items[i], verdict))
  }

  function FreshRecords(items: seq<Item>): seq<Record> {
    seq(|items|, i requires 0 <= i < |items| => Fresh(items[i]))
  }

  predicate Enabled(s: State, step: Step) {
    match step
    case Admit(key) => s.Healthy() && |s.Queue(key.kind)| < s.Limit(key.kind)
    case Take => s.writer.Idle? && s.LockFree() && (s.music != [] || s.voice != [])
    case Register => s.writer.Writing? && !s.writer.registered
    case Deliver => s.writer.Writing? && s.writer.registered
    case WriterFails => s.writer.Writing?
    case WriterDrains => s.writer.Draining?
    case WriterStops => s.closing && !s.writer.Dead?
    case CheckFlush => s.LockFree() && s.Healthy()
    case GiveUpFlush => s.flush.Checked?
    case BeginFlush(discard, survivors) => s.flush.Checked?
    case WriteReplay => s.flush.Flushing? && s.flush.left > 0
    case EndFlush => s.flush.Flushing? && s.flush.left == 0
    case FlushFails => s.flush.Flushing?
    case CursorFails => s.LockFree() && s.Healthy()
    case BeginClose => true
    case CloseDrains => s.closing && s.writer.Dead?
  }

  function After(s: State, step: Step): State
    requires Enabled(s, step)
  {
    match step
    case Admit(key) =>
      var item := Item(|s.admitted|, key);
      if key.kind.Music? then s.(music := s.music + [item], admitted := s.admitted + [item])
      else s.(voice := s.voice + [item], admitted := s.admitted + [item])
    case Take =>
      s.(music := Rest(s.music), voice := Rest(s.voice), writer := Writing(Head(s.music) + Head(s.voice), false))
    case Register => s.(writer := s.writer.(registered := true), log := s.log + FreshRecords(s.writer.items))
    case Deliver => s.(writer := Idle, resolved := Resolve(s, s.writer.items, Delivered))
    case WriterFails => s.(writer := Draining, failed := true, resolved := Resolve(s, s.writer.items, Refused))
    case WriterDrains =>
      s.(writer := Dead, drained := true, music := [], voice := [], resolved := Resolve(s, s.music + s.voice, Refused))
    case WriterStops => s.(writer := Dead, resolved := Resolve(s, s.InFlight(), Refused))
    case CheckFlush => s.(flush := Checked)
    case GiveUpFlush => s.(flush := NoFlush)
    case BeginFlush(discard, survivors) =>
      s.(music := Kept(s.music, discard), voice := Kept(s.voice, discard), log := s.log + [FlushBegun(survivors)],
         taken := s.taken + (Dropped(s.music, discard) + Dropped(s.voice, discard)),
         flush := Flushing(Dropped(s.music, discard) + Dropped(s.voice, discard), survivors))
    case WriteReplay => s.(flush := s.flush.(left := s.flush.left - 1), log := s.log + [Replayed])
    case EndFlush => s.(flush := NoFlush, log := s.log + [FlushDone],
                        resolved := Resolve(s, s.flush.removed, Delivered))
    case FlushFails =>
      s.(flush := NoFlush, failed := true, log := s.log + [FlushBroken],
         resolved := Resolve(s, s.flush.removed, Refused))
    case CursorFails => s.(failed := true)
    case BeginClose => s.(closing := true)
    case CloseDrains => s.(drained := true, music := [], voice := [],
                           resolved := Resolve(s, s.music + s.voice, Refused))
  }

  function Start(musicLimit: nat, voiceLimit: nat): State {
    State(musicLimit, voiceLimit, [], [], Idle, NoFlush, false, false, false, [], [], [], [])
  }

  // ---- no producer is lost ----

  function Items(resolved: seq<Resolution>): seq<Item> {
    seq(|resolved|, i requires 0 <= i < |resolved| => resolved[i].item)
  }

  /** Where a block can be: one lane, in flight, removed by a flush, or resolved. */
  ghost function Held(s: State): multiset<Item> {
    multiset(s.music) + multiset(s.voice) + multiset(s.InFlight()) + multiset(s.Removed()) + multiset(Items(s.resolved))
  }

  ghost predicate Conserved(s: State) {
    && (forall i | 0 <= i < |s.admitted| :: s.admitted[i].ticket == i)
    && multiset(s.admitted) == Held(s)
  }

  lemma {:induction false} SplitConserves(queue: seq<Item>, discard: set<SourceKey>)
    ensures multiset(Kept(queue, discard)) + multiset(Dropped(queue, discard)) == multiset(queue)
  {
    if queue != [] {
      SplitConserves(queue[1..], discard);
      assert queue == [queue[0]] + queue[1..];
    }
  }

  lemma TakeConserves(queue: seq<Item>)
    ensures multiset(Head(queue)) + multiset(Rest(queue)) == multiset(queue)
  {
    if queue != [] {
      assert queue == [queue[0]] + queue[1..];
    }
  }

  lemma ResolveAdds(s: State, items: seq<Item>, verdict: Verdict)
    ensures Items(Resolve(s, items, verdict)) == Items(s.resolved) + items
  {
  }

  lemma AdmitConserves(s: State, key: SourceKey)
    requires Enabled(s, Admit(key))
    ensures Held(After(s, Admit(key))) == Held(s) + multiset{Item(|s.admitted|, key)}
  {
  }

  lemma TakeHeld(s: State)
    requires Enabled(s, Take)
    ensures Held(After(s, Take)) == Held(s)
  {
    TakeConserves(s.music);
    TakeConserves(s.voice);
  }

  lemma WriterResolves(s: State, step: Step)
    requires step.Deliver? || step.WriterFails? || step.WriterStops?
    requires Enabled(s, step)
    ensures Held(After(s, step)) == Held(s)
  {
    ResolveAdds(s, s.InFlight(), if step.Deliver? then Delivered else Refused);
  }

  lemma DrainHeld(s: State, step: Step)
    requires step.WriterDrains? || step.CloseDrains?
    requires Enabled(s, step)
    ensures Held(After(s, step)) == Held(s)
  {
    ResolveAdds(s, s.music + s.voice, Refused);
  }

  lemma BeginFlushHeld(s: State, discard: set<SourceKey>, survivors: nat)
    requires Enabled(s, BeginFlush(discard, survivors))
    ensures Held(After(s, BeginFlush(discard, survivors))) == Held(s)
  {
    SplitConserves(s.music, discard);
    SplitConserves(s.voice, discard);
  }

  lemma FlushResolves(s: State, step: Step)
    requires step.EndFlush? || step.FlushFails?
    requires Enabled(s, step)
    ensures Held(After(s, step)) == Held(s)
  {
    ResolveAdds(s, s.flush.removed, if step.EndFlush? then Delivered else Refused);
  }

  lemma StepConserves(s: State, step: Step)
    requires Conserved(s) && Enabled(s, step)
    ensures Conserved(After(s, step))
  {
    hide Held;
    match step
    case Admit(key) => AdmitConserves(s, key);
    case Take => TakeHeld(s);
    case Register => StillHeld(s, step);
    case Deliver => WriterResolves(s, step);
    case WriterFails => WriterResolves(s, step);
    case WriterDrains => DrainHeld(s, step);
    case WriterStops => WriterResolves(s, step);
    case CheckFlush => StillHeld(s, step);
    case GiveUpFlush => StillHeld(s, step);
    case BeginFlush(discard, survivors) => BeginFlushHeld(s, discard, survivors);
    case WriteReplay => StillHeld(s, step);
    case EndFlush => FlushResolves(s, step);
    case FlushFails => FlushResolves(s, step);
    case CursorFails => StillHeld(s, step);
    case BeginClose => StillHeld(s, step);
    case CloseDrains => DrainHeld(s, step);
  }

  lemma StillHeld(s: State, step: Step)
    requires step.Register? || step.CheckFlush? || step.GiveUpFlush? || step.WriteReplay? || step.CursorFails?
             || step.BeginClose?
    requires Enabled(s, step)
    ensures Held(After(s, step)) == Held(s)
  {
  }

  // ---- order ----

  function LaneTickets(items: seq<Item>, kind: SourceKind): seq<nat> {
    if items == [] then []
    else (if items[0].key.kind == kind then [items[0].ticket] else []) + LaneTickets(items[1..], kind)
  }

  function FreshItems(log: seq<Record>): seq<Item> {
    if log == [] then []
    else FreshItems(log[..|log| - 1]) + (if log[|log| - 1].Fresh? then [log[|log| - 1].item] else [])
  }

  ghost predicate Increasing(tickets: seq<nat>) {
    forall i, j | 0 <= i < j < |tickets| :: tickets[i] < tickets[j]
  }

  function Unregistered(s: State): seq<Item> {
    if s.writer.Writing? && !s.writer.registered then s.writer.items else []
  }

  /** The blocks of one lane in ledger order, then in flight, then queued. */
  function LaneOrder(s: State, kind: SourceKind): seq<nat> {
    LaneTickets(FreshItems(s.log), kind) + LaneTickets(Unregistered(s), kind) + LaneTickets(s.Queue(kind), kind)
  }

  ghost predicate OwnLane(queue: seq<Item>, kind: SourceKind) {
    forall i | 0 <= i < |queue| :: queue[i].key.kind == kind
  }

  ghost predicate InOrder(s: State) {
    && OwnLane(s.music, SourceKind.Music) && OwnLane(s.voice, SourceKind.Voice)
    && forall kind :: Increasing(LaneOrder(s, kind)) && forall t | t in LaneOrder(s, kind) :: t < |s.admitted|
  }

  lemma {:induction false} LaneTicketsAppend(a: seq<Item>, b: seq<Item>, kind: SourceKind)
    ensures LaneTickets(a + b, kind) == LaneTickets(a, kind) + LaneTickets(b, kind)
  {
    if a == [] {
      assert a + b == b;
    } else {
      LaneTicketsAppend(a[1..], b, kind);
      assert (a + b)[1..] == a[1..] + b;
      Regroup(if a[0].key.kind == kind then [a[0].ticket] else [], LaneTickets(a[1..], kind), LaneTickets(b, kind));
    }
  }

  lemma {:induction false} FreshItemsAppend(log: seq<Record>, items: seq<Item>)
    ensures FreshItems(log + FreshRecords(items)) == FreshItems(log) + items
    decreases |items|
  {
    if items == [] {
      assert log + FreshRecords(items) == log;
    } else {
      var n := |items| - 1;
      FreshItemsAppend(log, items[..n]);
      assert (log + FreshRecords(items))[..|log| + n] == log + FreshRecords(items[..n]);
      assert items == items[..n] + [items[n]];
    }
  }

  lemma {:induction false} FreshItemsSkip(log: seq<Record>, record: Record)
    requires !record.Fresh?
    ensures FreshItems(log + [record]) == FreshItems(log)
  {
    assert (log + [record])[..|log|] == log;
  }

  lemma {:induction false} OtherLaneTickets(queue: seq<Item>, kind: SourceKind)
    requires forall i | 0 <= i < |queue| :: queue[i].key.kind != kind
    ensures LaneTickets(queue, kind) == []
  {
    if queue != [] {
      OtherLaneTickets(queue[1..], kind);
    }
  }

  lemma {:induction false} KeptOwnLane(queue: seq<Item>, discard: set<SourceKey>, kind: SourceKind)
    requires OwnLane(queue, kind)
    ensures OwnLane(Kept(queue, discard), kind)
  {
    if queue != [] {
      assert OwnLane(queue[1..], kind);
      KeptOwnLane(queue[1..], discard, kind);
    }
  }

  /** The heads of both lanes hold exactly the head of each lane. */
  lemma {:induction false} PairLane(s: State, kind: SourceKind)
    requires OwnLane(s.music, SourceKind.Music) && OwnLane(s.voice, SourceKind.Voice)
    ensures LaneTickets(Head(s.music) + Head(s.voice), kind) == LaneTickets(Head(s.Queue(kind)), kind)
  {
    LaneTicketsAppend(Head(s.music), Head(s.voice), kind);
    OtherLaneTickets(Head(s.Queue(if kind.Music? then SourceKind.Voice else SourceKind.Music)), kind);
  }

  /** Taking the heads moves them from the front of the queues to the writer. */
  lemma TakeLaneOrder(s: State, kind: SourceKind)
    requires InOrder(s) && Enabled(s, Take)
    ensures LaneOrder(After(s, Take), kind) == LaneOrder(s, kind)
  {
    hide Increasing, FreshItems, LaneTickets;
    var own := s.Queue(kind);
    PairLane(s, kind);
    LaneTicketsAppend(Head(own), Rest(own), kind);
    assert Head(own) + Rest(own) == own;
    NoTickets(kind);
    MoveHead(LaneTickets(FreshItems(s.log), kind), LaneTickets(Head(own), kind), LaneTickets(Rest(own), kind));
  }

  lemma {:induction false} NoTickets(kind: SourceKind)
    ensures LaneTickets([], kind) == []
  {
  }

  lemma MoveHead<T>(done: seq<T>, head: seq<T>, rest: seq<T>)
    ensures done + head + rest == done + [] + (head + rest)
  {
  }

  lemma NewestLast(tickets: seq<nat>, newest: nat)
    requires Increasing(tickets) && forall t | t in tickets :: t < newest
    ensures Increasing(tickets + [newest])
  {
    assert forall i | 0 <= i < |tickets| :: tickets[i] in tickets;
  }

  lemma IncreasingPrefix(a: seq<nat>, b: seq<nat>)
    requires Increasing(a + b)
    ensures Increasing(a)
  {
    forall i, j | 0 <= i < j < |a| ensures a[i] < a[j] {
      assert (a + b)[i] == a[i] && (a + b)[j] == a[j];
    }
  }

  lemma IncreasingDropMiddle(a: seq<nat>, b: seq<nat>, c: seq<nat>)
    requires Increasing(a + b + c)
    ensures Increasing(a + c)
    ensures forall t | t in a + c :: t in a + b + c
  {
    var all, less := a + b + c, a + c;
    forall i, j | 0 <= i < j < |less| ensures less[i] < less[j] {
      var i' := if i < |a| then i else i + |b|;
      var j' := if j < |a| then j else j + |b|;
      assert less[i] == all[i'] && less[j] == all[j'];
    }
    forall t | t in less ensures t in all {
      var i :| 0 <= i < |less| && less[i] == t;
      assert all[if i < |a| then i else i + |b|] == t;
    }
  }

  /** Dropping queued blocks of discarded sources leaves the others in order. */
  lemma {:induction false} KeptInOrder(front: seq<nat>, queue: seq<Item>, discard: set<SourceKey>, kind: SourceKind)
    requires Increasing(front + LaneTickets(queue, kind))
    ensures Increasing(front + LaneTickets(Kept(queue, discard), kind))
    ensures forall t | t in front + LaneTickets(Kept(queue, discard), kind) :: t in front + LaneTickets(queue, kind)
    decreases |queue|
  {
    if queue != [] {
      var first, rest := [queue[0]], queue[1..];
      assert queue == first + rest;
      LaneTicketsAppend(first, rest, kind);
      var mine, later := LaneTickets(first, kind), LaneTickets(rest, kind);
      assert front + (mine + later) == front + mine + later;
      if queue[0].key in discard {
        IncreasingDropMiddle(front, mine, later);
        KeptInOrder(front, rest, discard, kind);
        assert Kept(queue, discard) == Kept(rest, discard);
      } else {
        KeptInOrder(front + mine, rest, discard, kind);
        assert Kept(queue, discard) == first + Kept(rest, discard);
        LaneTicketsAppend(first, Kept(rest, discard), kind);
        var kept := LaneTickets(Kept(rest, discard), kind);
        assert front + (mine + kept) == front + mine + kept;
      }
    }
  }

  /** An admitted block goes last in its own lane and is newer than all before it. */
  lemma AdmitLaneOrder(s: State, key: SourceKey, kind: SourceKind)
    requires Enabled(s, Admit(key))
    ensures LaneOrder(After(s, Admit(key)), kind)
            == LaneOrder(s, kind) + (if key.kind == kind then [|s.admitted|] else [])
  {
    if key.kind == kind {
      hide FreshItems, LaneTickets;
      var item := Item(|s.admitted|, key);
      LaneTicketsAppend(s.Queue(kind), [item], kind);
      OneTicket(item, kind);
      Regroup(LaneTickets(FreshItems(s.log), kind) + LaneTickets(Unregistered(s), kind),
              LaneTickets(s.Queue(kind), kind), [|s.admitted|]);
    }
  }

  lemma {:induction false} OneTicket(item: Item, kind: SourceKind)
    requires item.key.kind == kind
    ensures LaneTickets([item], kind) == [item.ticket]
  {
    assert LaneTickets([item], kind) == [item.ticket] + LaneTickets([], kind);
  }

  lemma RegisterLaneOrder(s: State, kind: SourceKind)
    requires Enabled(s, Register)
    ensures LaneOrder(After(s, Register), kind) == LaneOrder(s, kind)
  {
    FreshItemsAppend(s.log, s.writer.items);
    LaneTicketsAppend(FreshItems(s.log), s.writer.items, kind);
    NoTickets(kind);
    hide FreshItems, FreshRecords, LaneTickets;
    var done := LaneTickets(FreshItems(s.log), kind) + LaneTickets(s.writer.items, kind);
    assert done + [] == done;
  }

  lemma BeginFlushLaneOrder(s: State, discard: set<SourceKey>, survivors: nat, kind: SourceKind)
    requires Enabled(s, BeginFlush(discard, survivors)) && Increasing(LaneOrder(s, kind))
    ensures Increasing(LaneOrder(After(s, BeginFlush(discard, survivors)), kind))
    ensures forall t | t in LaneOrder(After(s, BeginFlush(discard, survivors)), kind) :: t in LaneOrder(s, kind)
  {
    FreshItemsSkip(s.log, FlushBegun(survivors));
    KeptInOrder(LaneTickets(FreshItems(s.log), kind) + LaneTickets(Unregistered(s), kind), s.Queue(kind), discard,
                kind);
  }

  lemma WriterLosesLaneOrder(s: State, step: Step, kind: SourceKind)
    requires step.WriterFails? || step.WriterStops?
    requires Enabled(s, step) && Increasing(LaneOrder(s, kind))
    ensures Increasing(LaneOrder(After(s, step), kind))
    ensures forall t | t in LaneOrder(After(s, step), kind) :: t in LaneOrder(s, kind)
  {
    var done, flight, queued :=
      LaneTickets(FreshItems(s.log), kind), LaneTickets(Unregistered(s), kind), LaneTickets(s.Queue(kind), kind);
    IncreasingDropMiddle(done, flight, queued);
    hide Increasing, FreshItems, Resolve, Items;
    var s' := After(s, step);
    assert LaneTickets(Unregistered(s'), kind) == [] && s'.log == s.log && s'.Queue(kind) == s.Queue(kind);
    assert done + [] == done;
  }

  lemma DrainLosesLaneOrder(s: State, step: Step, kind: SourceKind)
    requires step.WriterDrains? || step.CloseDrains?
    requires Enabled(s, step) && Increasing(LaneOrder(s, kind))
    ensures Increasing(LaneOrder(After(s, step), kind))
    ensures forall t | t in LaneOrder(After(s, step), kind) :: t in LaneOrder(s, kind)
  {
    var done, queued := LaneTickets(FreshItems(s.log), kind) + LaneTickets(Unregistered(s), kind),
      LaneTickets(s.Queue(kind), kind);
    hide Increasing, FreshItems, Resolve, Items;
    IncreasingPrefix(done, queued);
    assert LaneOrder(After(s, step), kind) == done;
  }

  /** Neither the lanes nor the fresh part of the log move. */
  lemma QuietLaneOrder(s: State, step: Step, kind: SourceKind)
    requires step.Deliver? || step.CheckFlush? || step.GiveUpFlush? || step.WriteReplay? || step.EndFlush?
             || step.FlushFails?
          || step.CursorFails? || step.BeginClose?
    requires Enabled(s, step)
    ensures LaneOrder(After(s, step), kind) == LaneOrder(s, kind)
  {
    match step
    case WriteReplay => FreshItemsSkip(s.log, Replayed);
    case EndFlush => FreshItemsSkip(s.log, FlushDone);
    case FlushFails => FreshItemsSkip(s.log, FlushBroken);
    case _ =>
  }

  /** One lane through one step: the order may lose tickets or gain a newer one, never mix. */
  lemma StepLaneOrder(s: State, step: Step, kind: SourceKind)
    requires InOrder(s) && Enabled(s, step)
    ensures Increasing(LaneOrder(After(s, step), kind))
    ensures forall t | t in LaneOrder(After(s, step), kind) :: t < |After(s, step).admitted|
  {
    hide LaneOrder;
    match step
    case Admit(key) =>
      AdmitLaneOrder(s, key, kind);
      NewestLast(LaneOrder(s, kind), |s.admitted|);
    case Take => TakeLaneOrder(s, kind);
    case Register => RegisterLaneOrder(s, kind);
    case BeginFlush(discard, survivors) => BeginFlushLaneOrder(s, discard, survivors, kind);
    case WriterFails => WriterLosesLaneOrder(s, step, kind);
    case WriterStops => WriterLosesLaneOrder(s, step, kind);
    case WriterDrains => DrainLosesLaneOrder(s, step, kind);
    case CloseDrains => DrainLosesLaneOrder(s, step, kind);
    case _ => QuietLaneOrder(s, step, kind);
  }

  // ---- barriers ----

  /** How many replays a flush in progress still owes, read off the log. */
  function Owed(log: seq<Record>): Option<nat> {
    if log == [] then None
    else
      var before := Owed(log[..|log| - 1]);
      match log[|log| - 1]
      case Fresh(_) => before
      case FlushBegun(n) => Some(n)
      case Replayed => if before.Some? && before.value > 0 then Some(before.value - 1) else before
      case FlushDone => None
      case FlushBroken => None
  }

  /** No fresh block reaches the ledger while a flush owes replays, and a flush
      is done only when it owes none. */
  ghost predicate BarriersHold(log: seq<Record>) {
    forall i | 0 <= i < |log| ::
      && (log[i].Fresh? ==> Owed(log[..i]).None?)
      && (log[i].FlushDone? ==> Owed(log[..i]) == Some(0))
      && (log[i].Replayed? ==> Owed(log[..i]).Some? && Owed(log[..i]).value > 0)
  }

  lemma {:induction false} BarrierAppend(log: seq<Record>, record: Record)
    requires BarriersHold(log)
    requires record.Fresh? ==> Owed(log).None?
    requires record.FlushDone? ==> Owed(log) == Some(0)
    requires record.Replayed? ==> Owed(log).Some? && Owed(log).value > 0
    ensures BarriersHold(log + [record])
  {
    var all := log + [record];
    forall i | 0 <= i < |all|
      ensures all[i].Fresh? ==> Owed(all[..i]).None?
      ensures all[i].FlushDone? ==> Owed(all[..i]) == Some(0)
      ensures all[i].Replayed? ==> Owed(all[..i]).Some? && Owed(all[..i]).value > 0
    {
      if i < |log| {
        assert all[..i] == log[..i];
      } else {
        assert all[..i] == log;
      }
    }
  }

  lemma {:induction false} OwedAppend(log: seq<Record>, record: Record)
    ensures Owed(log + [record]) ==
            match record
            case Fresh(_) => Owed(log)
            case FlushBegun(n) => Some(n)
            case Replayed => if Owed(log).Some? && Owed(log).value > 0 then Some(Owed(log).value - 1) else Owed(log)
            case FlushDone => None
            case FlushBroken => None
  {
    assert (log + [record])[..|log|] == log;
  }

  lemma {:induction false} FreshBarriers(log: seq<Record>, items: seq<Item>)
    requires BarriersHold(log) && Owed(log).None?
    ensures BarriersHold(log + FreshRecords(items)) && Owed(log + FreshRecords(items)).None?
    decreases |items|
  {
    if items == [] {
      assert log + FreshRecords(items) == log;
    } else {
      var n := |items| - 1;
      FreshBarriers(log, items[..n]);
      var before := log + FreshRecords(items[..n]);
      assert log + FreshRecords(items) == before + [Fresh(items[n])];
      BarrierAppend(before, Fresh(items[n]));
      OwedAppend(before, Fresh(items[n]));
    }
  }

  // ---- what a producer is told ----

  /** A producer hears of success only for a block that reached the ledger or
      that a flush took out of the queue on purpose. */
  ghost predicate ToldTruth(s: State) {
    && (forall i | 0 <= i < |s.resolved| && s.resolved[i].verdict.Delivered? ::
          s.resolved[i].item in FreshItems(s.log) || s.resolved[i].item in s.taken)
    && (s.writer.Writing? && s.writer.registered ==> forall item | item in s.writer.items :: item in FreshItems(s.log))
    && (s.flush.Flushing? ==> forall item | item in s.flush.removed :: item in s.taken)
  }

  lemma FreshItemsStay(s: State, step: Step, item: Item)
    requires Enabled(s, step) && item in FreshItems(s.log)
    ensures item in FreshItems(After(s, step).log)
  {
    match step
    case Register => FreshItemsAppend(s.log, s.writer.items);
    case BeginFlush(_, survivors) => FreshItemsSkip(s.log, FlushBegun(survivors));
    case WriteReplay => FreshItemsSkip(s.log, Replayed);
    case EndFlush => FreshItemsSkip(s.log, FlushDone);
    case FlushFails => FreshItemsSkip(s.log, FlushBroken);
    case _ =>
  }

  /** Earlier answers stay true. */
  lemma ToldBefore(s: State, step: Step, i: nat)
    requires ToldTruth(s) && Enabled(s, step) && i < |s.resolved| && s.resolved[i].verdict.Delivered?
    ensures s.resolved[i].item in FreshItems(After(s, step).log) || s.resolved[i].item in After(s, step).taken
  {
    if s.resolved[i].item in FreshItems(s.log) {
      FreshItemsStay(s, step, s.resolved[i].item);
    }
  }

  lemma StepTellsTruth(s: State, step: Step)
    requires ToldTruth(s) && Enabled(s, step)
    ensures ToldTruth(After(s, step))
  {
    var s' := After(s, step);
    if step.Register? {
      FreshItemsAppend(s.log, s.writer.items);
    } else if s.writer.Writing? && s.writer.registered {
      forall item | item in s.writer.items ensures item in FreshItems(s'.log) {
        FreshItemsStay(s, step, item);
      }
    }
    forall i | 0 <= i < |s'.resolved| && s'.resolved[i].verdict.Delivered?
      ensures s'.resolved[i].item in FreshItems(s'.log) || s'.resolved[i].item in s'.taken
    {
      if i < |s.resolved| {
        ToldBefore(s, step, i);
      } else {
        FreshItemsOfAnswer(s, step, s'.resolved[i].item);
      }
    }
  }

  lemma FreshItemsOfAnswer(s: State, step: Step, item: Item)
    requires ToldTruth(s) && Enabled(s, step)
    requires (step.Deliver? && item in s.writer.items) || (step.EndFlush? && item in s.flush.removed)
    ensures item in FreshItems(After(s, step).log) || item in After(s, step).taken
  {
  }

  // ---- the invariant ----

  /** The bounds on the queues, and what it means that they were drained. */
  ghost predicate QueuesBounded(s: State) {
    && |s.music| <= s.musicLimit && |s.voice| <= s.voiceLimit
    && (s.drained ==> s.music == [] == s.voice && !s.Healthy() && s.writer.Dead?)
  }

  ghost predicate Inv(s: State) {
    && Conserved(s)
    && InOrder(s)
    && ToldTruth(s)
    && QueuesBounded(s)
    && (s.writer.Writing? || s.writer.Draining? ==> s.flush.NoFlush?)
    && (s.writer.Draining? ==> s.failed)
    && BarriersHold(s.log)
    && Owed(s.log) == (if s.flush.Flushing? then Some(s.flush.left) else None)
  }

  lemma StartInv(musicLimit: nat, voiceLimit: nat)
    ensures Inv(Start(musicLimit, voiceLimit))
  {
  }

  lemma StepBounds(s: State, step: Step)
    requires QueuesBounded(s) && Enabled(s, step) && (s.writer.Draining? ==> s.failed)
    ensures QueuesBounded(After(s, step))
  {
    if step.BeginFlush? {
      FlushBounds(s, step.discard, step.survivors);
    } else {
      hide Kept, Dropped, Resolve, FreshRecords;
    }
  }

  lemma FlushBounds(s: State, discard: set<SourceKey>, survivors: nat)
    requires QueuesBounded(s) && Enabled(s, BeginFlush(discard, survivors))
    ensures QueuesBounded(After(s, BeginFlush(discard, survivors)))
  {
    hide Dropped;
    KeptIsShorter(s.music, discard);
    KeptIsShorter(s.voice, discard);
  }

  lemma {:induction false} KeptIsShorter(queue: seq<Item>, discard: set<SourceKey>)
    ensures |Kept(queue, discard)| <= |queue|
  {
    if queue != [] {
      KeptIsShorter(queue[1..], discard);
    }
  }

  lemma StepBarriers(s: State, step: Step)
    requires Inv(s) && Enabled(s, step)
    ensures BarriersHold(After(s, step).log)
    ensures Owed(After(s, step).log)
            == (if After(s, step).flush.Flushing? then Some(After(s, step).flush.left) else None)
  {
    hide Conserved, InOrder, BarriersHold, Resolve, Kept, Dropped, Owed, ToldTruth;
    match step
    case Admit(key) =>
    case Take =>
    case Register => FreshBarriers(s.log, s.writer.items);
    case Deliver =>
    case WriterFails =>
    case WriterDrains =>
    case WriterStops =>
    case CheckFlush =>
    case GiveUpFlush =>
    case BeginFlush(discard, survivors) =>
      BarrierAppend(s.log, FlushBegun(survivors));
      OwedAppend(s.log, FlushBegun(survivors));
    case WriteReplay =>
      BarrierAppend(s.log, Replayed);
      OwedAppend(s.log, Replayed);
    case EndFlush =>
      BarrierAppend(s.log, FlushDone);
      OwedAppend(s.log, FlushDone);
    case FlushFails =>
      BarrierAppend(s.log, FlushBroken);
      OwedAppend(s.log, FlushBroken);
    case CursorFails =>
    case BeginClose =>
    case CloseDrains =>
  }

  lemma StepLanes(s: State, step: Step)
    requires Inv(s) && Enabled(s, step)
    ensures InOrder(After(s, step))
  {
    hide Conserved, BarriersHold, Owed, Resolve, FreshRecords, LaneOrder, Increasing, ToldTruth;
    forall kind
      ensures Increasing(LaneOrder(After(s, step), kind))
      ensures forall t | t in LaneOrder(After(s, step), kind) :: t < |After(s, step).admitted|
    {
      StepLaneOrder(s, step, kind);
    }
    if step.BeginFlush? {
      KeptOwnLane(s.music, step.discard, SourceKind.Music);
      KeptOwnLane(s.voice, step.discard, SourceKind.Voice);
    }
  }

  lemma StepKeepsInv(s: State, step: Step)
    requires Inv(s) && Enabled(s, step)
    ensures Inv(After(s, step))
  {
    hide Conserved, InOrder, BarriersHold, Owed, Resolve, FreshRecords, Kept, Dropped, ToldTruth, QueuesBounded;
    StepTellsTruth(s, step);
    StepConserves(s, step);
    StepLanes(s, step);
    StepBarriers(s, step);
    StepBounds(s, step);
  }

  ghost predicate IsRun(states: seq<State>, steps: seq<Step>) {
    && |states| == |steps| + 1
    && forall i {:trigger steps[i]} | 0 <= i < |steps| ::
         Enabled(states[i], steps[i]) && states[i + 1] == After(states[i], steps[i])
  }

  /** In every interleaving: each admitted block is in exactly one place or
      resolved once, lanes keep their bounds and their order, and a flush's
      replays come before any queued block. */
  lemma {:induction false} EveryInterleaving(musicLimit: nat, voiceLimit: nat, states: seq<State>, steps: seq<Step>)
    requires IsRun(states, steps) && states[0] == Start(musicLimit, voiceLimit)
    ensures Inv(states[|steps|])
    decreases |steps|
  {
    hide Inv, Enabled, After;
    if steps == [] {
      StartInv(musicLimit, voiceLimit);
    } else {
      EveryInterleaving(musicLimit, voiceLimit, states[..|steps|], steps[..|steps| - 1]);
      StepKeepsInv(states[|steps| - 1], steps[|steps| - 1]);
    }
  }

  ghost function Occurrences(s: State, item: Item): nat {
    multiset(s.music)[item] + multiset(s.voice)[item] + multiset(s.InFlight())[item] + multiset(s.Removed())[item]
    + multiset(Items(s.resolved))[item]
  }

  lemma {:induction false} AdmittedOnce(items: seq<Item>, item: Item)
    requires forall i | 0 <= i < |items| :: items[i].ticket == i
    ensures multiset(items)[item] == (if item in items then 1 else 0)
  {
    if items != [] {
      var n := |items| - 1;
      AdmittedOnce(items[..n], item);
      assert items == items[..n] + [items[n]];
      assert item in items[..n] ==> item.ticket < n;
    }
  }

  /** Each admitted block has exactly one place, so its waiter is resolved at most once. */
  lemma ExactlyOnePlace(s: State, item: Item)
    requires Inv(s)
    ensures item in s.admitted ==> Occurrences(s, item) == 1
    ensures item !in s.admitted ==> Occurrences(s, item) == 0
  {
    AdmittedOnce(s.admitted, item);
    assert multiset(s.admitted)[item] == Occurrences(s, item);
  }

  /** After the queues were drained, by a failed writer or a close, and no flush
      is still running, every producer has its answer. */
  lemma DrainedAnswersEveryone(s: State, item: Item)
    requires Inv(s) && s.drained && s.flush.NoFlush? && item in s.admitted
    ensures exists i | 0 <= i < |s.resolved| :: s.resolved[i].item == item
  {
    ExactlyOnePlace(s, item);
    assert multiset(Items(s.resolved))[item] == 1;
    assert item in Items(s.resolved);
    var i :| 0 <= i < |Items(s.resolved)| && Items(s.resolved)[i] == item;
    assert s.resolved[i].item == item;
  }

  /** Once drained, nothing is queued again. */
  lemma DrainedStaysEmpty(s: State, step: Step)
    requires Inv(s) && s.drained && Enabled(s, step)
    ensures After(s, step).drained && After(s, step).music == [] == After(s, step).voice
  {
    StepKeepsInv(s, step);
  }

  /** Success is only reported for blocks that reached the ledger or were discarded by a flush. */
  lemma SuccessIsTrue(musicLimit: nat, voiceLimit: nat, states: seq<State>, steps: seq<Step>, i: nat)
    requires IsRun(states, steps) && states[0] == Start(musicLimit, voiceLimit)
    requires i < |states[|steps|].resolved| && states[|steps|].resolved[i].verdict.Delivered?
    ensures var s := states[|steps|]; s.resolved[i].item in FreshItems(s.log) || s.resolved[i].item in s.taken
  {
    EveryInterleaving(musicLimit, voiceLimit, states, steps);
  }
}
