/** In which order the blocks of one source reach the ledger: as they were
    submitted, none left out. */
module BusOrder {
  import opened Common
  import opened AudioModels
  import opened BusProtocol

  function Of(items: seq<Item>, key: SourceKey): seq<Item> {
    if items == [] then [] else (if items[0].key == key then [items[0]] else []) + Of(items[1..], key)
  }

  lemma {:induction false} OfAppend(a: seq<Item>, b: seq<Item>, key: SourceKey)
    ensures Of(a + b, key) == Of(a, key) + Of(b, key)
  {
    if a == [] {
      assert a + b == b;
    } else {
      OfAppend(a[1..], b, key);
      assert (a + b)[1..] == a[1..] + b;
      Regroup(if a[0].key == key then [a[0]] else [], Of(a[1..], key), Of(b, key));
    }
  }

  lemma {:induction false} OfOne(item: Item, key: SourceKey)
    ensures Of([item], key) == if item.key == key then [item] else []
  {
    assert [item][1..] == [];
  }

  lemma {:induction false} OfOtherLane(queue: seq<Item>, kind: SourceKind, key: SourceKey)
    requires OwnLane(queue, kind) && key.kind != kind
    ensures Of(queue, key) == []
  {
    if queue != [] {
      OfOtherLane(queue[1..], kind, key);
    }
  }

  lemma {:induction false} OfKept(queue: seq<Item>, discard: set<SourceKey>, key: SourceKey)
    requires key !in discard
    ensures Of(Kept(queue, discard), key) == Of(queue, key)
  {
    if queue != [] {
      OfKept(queue[1..], discard, key);
      OfAppend(if queue[0].key in discard then [] else [queue[0]], Kept(queue[1..], discard), key);
      if queue[0].key !in discard {
        OfOne(queue[0], key);
      }
    }
  }

  predicate Stopped(s: State) { s.writer.Draining? || s.writer.Dead? }

  /** The blocks of a source that reached the ledger, then in flight, then queued. */
  function Line(s: State, key: SourceKey): seq<Item> {
    Of(FreshItems(s.log), key) + Of(Unregistered(s), key) + Of(s.Queue(key.kind), key)
  }

  /** The line is all that was admitted of the source; once the writer stopped,
      the ledger got a beginning of it. */
  ghost predicate InSubmissionOrder(s: State, key: SourceKey) {
    if Stopped(s) then Of(FreshItems(s.log), key) <= Of(s.admitted, key) else Line(s, key) == Of(s.admitted, key)
  }

  /** A step before the writer stops moves blocks along the line. */
  lemma LineKept(s: State, s': State, key: SourceKey)
    requires InSubmissionOrder(s, key) && !Stopped(s)
    requires !Stopped(s') && s'.admitted == s.admitted && Line(s', key) == Line(s, key)
    ensures InSubmissionOrder(s', key)
  {
    hide Line;
  }

  lemma {:induction false} AdmitLine(s: State, admit: SourceKey, key: SourceKey)
    requires Enabled(s, Admit(admit))
    ensures
      var s', own := After(s, Admit(admit)), Of([Item(|s.admitted|, admit)], key);
      Line(s', key) == Line(s, key) + own && Of(s'.admitted, key) == Of(s.admitted, key) + own
  {
    hide Of, FreshItems;
    var item := Item(|s.admitted|, admit);
    OfAppend(s.admitted, [item], key);
    OfAppend(s.Queue(key.kind), [item], key);
    OfOne(item, key);
    Regroup(Of(FreshItems(s.log), key) + Of(Unregistered(s), key), Of(s.Queue(key.kind), key), Of([item], key));
    if admit.kind != key.kind {
      assert Of([item], key) == [];
      assert Line(s, key) + [] == Line(s, key);
    }
  }

  lemma AdmitInOrder(s: State, admit: SourceKey, key: SourceKey)
    requires InSubmissionOrder(s, key) && Enabled(s, Admit(admit))
    ensures InSubmissionOrder(After(s, Admit(admit)), key)
  {
    AdmitLine(s, admit, key);
    hide Of, FreshItems, Line;
  }

  lemma {:induction false} HeadsOfLane(s: State, key: SourceKey)
    requires InOrder(s)
    ensures Of(Head(s.music) + Head(s.voice), key) == Of(Head(s.Queue(key.kind)), key)
    ensures Of(Head(s.Queue(key.kind)), key) + Of(Rest(s.Queue(key.kind)), key) == Of(s.Queue(key.kind), key)
  {
    hide LaneOrder, Increasing, Of;
    var own := s.Queue(key.kind);
    OfAppend(Head(s.music), Head(s.voice), key);
    OfAppend(Head(own), Rest(own), key);
    assert Head(own) + Rest(own) == own;
    if key.kind.Music? {
      OfOtherLane(Head(s.voice), SourceKind.Voice, key);
    } else {
      OfOtherLane(Head(s.music), SourceKind.Music, key);
    }
  }

  lemma TakeLine(s: State, key: SourceKey)
    requires InOrder(s) && Enabled(s, Take)
    ensures Line(After(s, Take), key) == Line(s, key)
  {
    HeadsOfLane(s, key);
    assert Of([], key) == [];
    hide InOrder, Of, FreshItems;
    MoveHead(Of(FreshItems(s.log), key), Of(Head(s.Queue(key.kind)), key), Of(Rest(s.Queue(key.kind)), key));
  }

  lemma RegisterLine(s: State, key: SourceKey)
    requires Enabled(s, Register)
    ensures Line(After(s, Register), key) == Line(s, key)
  {
    FreshItemsAppend(s.log, s.writer.items);
    OfAppend(FreshItems(s.log), s.writer.items, key);
    NothingOf(key);
    hide Of, FreshItems, FreshRecords;
    var done := Of(FreshItems(s.log), key) + Of(s.writer.items, key);
    assert done + [] == done;
  }

  lemma {:induction false} NothingOf(key: SourceKey)
    ensures Of([], key) == []
  {
  }

  lemma {:induction false} SameLine(s: State, s': State, key: SourceKey)
    requires FreshItems(s'.log) == FreshItems(s.log) && Unregistered(s') == Unregistered(s)
    requires Of(s'.Queue(key.kind), key) == Of(s.Queue(key.kind), key)
    ensures Line(s', key) == Line(s, key)
  {
  }

  lemma {:induction false} FlushParts(s: State, discard: set<SourceKey>, survivors: nat, key: SourceKey)
    requires Enabled(s, BeginFlush(discard, survivors))
    ensures
      var s' := After(s, BeginFlush(discard, survivors));
      && s'.log == s.log + [FlushBegun(survivors)] && Unregistered(s') == Unregistered(s)
      && s'.Queue(key.kind) == Kept(s.Queue(key.kind), discard)
  {
    hide Kept, Dropped;
  }

  lemma FlushLine(s: State, discard: set<SourceKey>, survivors: nat, key: SourceKey)
    requires Enabled(s, BeginFlush(discard, survivors)) && key !in discard
    ensures Line(After(s, BeginFlush(discard, survivors)), key) == Line(s, key)
  {
    FlushParts(s, discard, survivors, key);
    hide After, Of, FreshItems, Line, Unregistered;
    FreshItemsSkip(s.log, FlushBegun(survivors));
    OfKept(s.Queue(key.kind), discard, key);
    SameLine(s, After(s, BeginFlush(discard, survivors)), key);
  }

  predicate Elsewhere(step: Step) {
    !step.Admit? && !step.Take? && !step.Register? && !step.BeginFlush?
  }

  lemma NothingFresh(s: State, step: Step)
    requires Elsewhere(step) && Enabled(s, step)
    ensures FreshItems(After(s, step).log) == FreshItems(s.log)
  {
    hide FreshItems, Resolve;
    match step
    case WriteReplay => FreshItemsSkip(s.log, Replayed);
    case EndFlush => FreshItemsSkip(s.log, FlushDone);
    case FlushFails => FreshItemsSkip(s.log, FlushBroken);
    case _ =>
  }

  /** A step that stops the writer, or comes after it stopped, adds nothing to the ledger. */
  lemma StoppedInOrder(s: State, s': State, key: SourceKey)
    requires InSubmissionOrder(s, key) && Stopped(s') && s'.admitted == s.admitted
    requires FreshItems(s'.log) == FreshItems(s.log)
    ensures InSubmissionOrder(s', key)
  {
    hide Of, FreshItems;
  }

  lemma OtherParts(s: State, step: Step, key: SourceKey)
    requires Elsewhere(step) && Enabled(s, step) && !Stopped(After(s, step))
    ensures
      var s' := After(s, step);
      && Unregistered(s') == Unregistered(s) && s'.Queue(key.kind) == s.Queue(key.kind)
      && s'.admitted == s.admitted && !Stopped(s)
  {
    hide FreshItems, Resolve;
  }

  lemma OtherLine(s: State, step: Step, key: SourceKey)
    requires Elsewhere(step) && Enabled(s, step) && !Stopped(After(s, step))
    ensures Line(After(s, step), key) == Line(s, key) && After(s, step).admitted == s.admitted && !Stopped(s)
  {
    OtherParts(s, step, key);
    NothingFresh(s, step);
    hide After, Enabled, Of, FreshItems, Line, Unregistered, Stopped;
    SameLine(s, After(s, step), key);
  }

  lemma StartInOrder(musicLimit: nat, voiceLimit: nat, key: SourceKey)
    ensures InSubmissionOrder(Start(musicLimit, voiceLimit), key)
  {
  }

  lemma FreshOnlyRegistered(s: State, step: Step)
    requires Enabled(s, step) && !step.Admit? && Stopped(After(s, step))
    ensures FreshItems(After(s, step).log) == FreshItems(s.log) && After(s, step).admitted == s.admitted
  {
    hide FreshItems, Resolve, Kept, Dropped;
    if step.BeginFlush? {
      FreshItemsSkip(s.log, FlushBegun(step.survivors));
    } else {
      NothingFresh(s, step);
    }
  }

  lemma StepLine(s: State, step: Step, key: SourceKey)
    requires InOrder(s) && Enabled(s, step) && !step.Admit? && !Stopped(After(s, step))
    requires step.BeginFlush? ==> key !in step.discard
    ensures Line(After(s, step), key) == Line(s, key) && After(s, step).admitted == s.admitted && !Stopped(s)
  {
    hide InOrder, Line, Resolve, FreshRecords, Kept, Dropped;
    match step
    case Take => TakeLine(s, key);
    case Register => RegisterLine(s, key);
    case BeginFlush(discard, survivors) => FlushLine(s, discard, survivors, key);
    case _ => OtherLine(s, step, key);
  }

  lemma StepInOrder(s: State, step: Step, key: SourceKey)
    requires InOrder(s) && InSubmissionOrder(s, key) && Enabled(s, step)
    requires step.BeginFlush? ==> key !in step.discard
    ensures InSubmissionOrder(After(s, step), key)
  {
    hide InOrder, InSubmissionOrder, Line, After, Enabled, FreshItems;
    if step.Admit? {
      AdmitInOrder(s, step.key, key);
    } else if Stopped(After(s, step)) {
      FreshOnlyRegistered(s, step);
      StoppedInOrder(s, After(s, step), key);
    } else {
      StepLine(s, step, key);
      LineKept(s, After(s, step), key);
    }
  }

  lemma {:induction false} RunInOrder(musicLimit: nat, voiceLimit: nat, states: seq<State>, steps: seq<Step>,
                                      key: SourceKey)
    requires IsRun(states, steps) && states[0] == Start(musicLimit, voiceLimit)
    requires forall i | 0 <= i < |steps| && steps[i].BeginFlush? :: key !in steps[i].discard
    ensures InSubmissionOrder(states[|steps|], key)
    decreases |steps|
  {
    hide InSubmissionOrder, Enabled, After;
    if steps != [] {
      RunInOrder(musicLimit, voiceLimit, states[..|steps|], steps[..|steps| - 1], key);
      EveryInterleaving(musicLimit, voiceLimit, states[..|steps|], steps[..|steps| - 1]);
      StepInOrder(states[|steps| - 1], steps[|steps| - 1], key);
    } else {
      StartInOrder(musicLimit, voiceLimit, key);
    }
  }

  /** In every interleaving, failures and closes included, what the ledger got of
      a source that no flush discarded is a beginning of what was admitted of it:
      its blocks are registered in the order they were submitted, without a hole. */
  lemma {:induction false} RegisteredAsSubmitted(musicLimit: nat, voiceLimit: nat, states: seq<State>, steps: seq<Step>,
                                                 key: SourceKey)
    requires IsRun(states, steps) && states[0] == Start(musicLimit, voiceLimit)
    requires forall i | 0 <= i < |steps| && steps[i].BeginFlush? :: key !in steps[i].discard
    ensures Of(FreshItems(states[|steps|].log), key) <= Of(states[|steps|].admitted, key)
  {
    hide FreshItems, Of, IsRun, Unregistered;
    RunInOrder(musicLimit, voiceLimit, states, steps, key);
  }
}
