/** What every producer of the mixer bus is told, read off the steps of a run. */
module BusAnswers {
  import opened Common
  import opened AudioModels
  import opened BusProtocol

  /** The step tells the producer of a block this: its write returned or a flush
      that took it ended; its write failed or was stopped, its flush broke, or
      it was still queued when the queues were drained. */
  ghost predicate Tells(s: State, step: Step, item: Item, verdict: Verdict) {
    match step
    case Deliver => verdict.Delivered? && item in s.InFlight()
    case EndFlush => verdict.Delivered? && item in s.Removed()
    case WriterFails => verdict.Refused? && item in s.InFlight()
    case WriterStops => verdict.Refused? && item in s.InFlight()
    case FlushFails => verdict.Refused? && item in s.Removed()
    case WriterDrains => verdict.Refused? && (item in s.music || item in s.voice)
    case CloseDrains => verdict.Refused? && (item in s.music || item in s.voice)
    case _ => false
  }

  ghost predicate Answered(s: State, item: Item, verdict: Verdict) {
    Resolution(item, verdict) in s.resolved
  }

  lemma ResolveTells(s: State, items: seq<Item>, verdict: Verdict, item: Item, told: Verdict)
    ensures Resolution(item, told) in Resolve(s, items, verdict) <==>
              Resolution(item, told) in s.resolved || (item in items && told == verdict)
  {
    var all := Resolve(s, items, verdict);
    if item in items && told == verdict {
      var i :| 0 <= i < |items| && items[i] == item;
      assert all[|s.resolved| + i] == Resolution(item, told);
    }
  }

  lemma StepTells(s: State, step: Step, item: Item, verdict: Verdict)
    requires Enabled(s, step)
    ensures Answered(After(s, step), item, verdict) <==> Answered(s, item, verdict) || Tells(s, step, item, verdict)
  {
    hide Resolve, Kept, Dropped, FreshRecords;
    match step
    case Deliver => ResolveTells(s, s.writer.items, Delivered, item, verdict);
    case EndFlush => ResolveTells(s, s.flush.removed, Delivered, item, verdict);
    case WriterFails => ResolveTells(s, s.writer.items, Refused, item, verdict);
    case WriterStops => ResolveTells(s, s.InFlight(), Refused, item, verdict);
    case FlushFails => ResolveTells(s, s.flush.removed, Refused, item, verdict);
    case WriterDrains => ResolveTells(s, s.music + s.voice, Refused, item, verdict);
    case CloseDrains => ResolveTells(s, s.music + s.voice, Refused, item, verdict);
    case _ =>
  }

  ghost predicate ToldBy(states: seq<State>, steps: seq<Step>, item: Item, verdict: Verdict)
    requires |states| == |steps| + 1
  {
    exists k {:trigger steps[k]} :: 0 <= k < |steps| && Tells(states[k], steps[k], item, verdict)
  }

  lemma ToldMore(states: seq<State>, steps: seq<Step>, item: Item, verdict: Verdict)
    requires |states| == |steps| + 1 && steps != []
    ensures
      var n := |steps| - 1;
      ToldBy(states, steps, item, verdict) <==>
        ToldBy(states[..|steps|], steps[..n], item, verdict) || Tells(states[n], steps[n], item, verdict)
  {
    var n := |steps| - 1;
    hide Tells;
    if ToldBy(states, steps, item, verdict) {
      var k :| 0 <= k < |steps| && Tells(states[k], steps[k], item, verdict);
      assert k < n ==> steps[..n][k] == steps[k];
    }
    if ToldBy(states[..|steps|], steps[..n], item, verdict) {
      var k :| 0 <= k < n && Tells(states[..|steps|][k], steps[..n][k], item, verdict);
      assert steps[k] == steps[..n][k];
    }
  }

  lemma NothingTold(states: seq<State>, steps: seq<Step>, item: Item, verdict: Verdict)
    requires |states| == |steps| + 1 && steps == []
    ensures !ToldBy(states, steps, item, verdict)
  {
  }

  /** A producer has an answer exactly when some step of the run told it. */
  lemma {:induction false} AnsweredIffTold(musicLimit: nat, voiceLimit: nat, states: seq<State>, steps: seq<Step>,
                                           item: Item, verdict: Verdict)
    requires IsRun(states, steps) && states[0] == Start(musicLimit, voiceLimit)
    ensures Answered(states[|steps|], item, verdict) <==> ToldBy(states, steps, item, verdict)
    decreases |steps|
  {
    if steps == [] {
      NothingTold(states, steps, item, verdict);
    } else {
      hide Enabled, After, Tells, ToldBy;
      var n := |steps| - 1;
      AnsweredIffTold(musicLimit, voiceLimit, states[..|steps|], steps[..n], item, verdict);
      StepTells(states[n], steps[n], item, verdict);
      ToldMore(states, steps, item, verdict);
    }
  }

  // ---- when an answer is a refusal ----

  ghost predicate Breaks(step: Step) {
    step.WriterFails? || step.FlushFails? || step.CursorFails?
  }

  ghost predicate SomeStep(steps: seq<Step>, which: Step -> bool) {
    exists i :: 0 <= i < |steps| && which(steps[i])
  }

  lemma SomeStepMore(steps: seq<Step>, which: Step -> bool)
    requires steps != []
    ensures SomeStep(steps, which) <==> SomeStep(steps[..|steps| - 1], which) || which(steps[|steps| - 1])
  {
    var n := |steps| - 1;
    if SomeStep(steps, which) {
      var i :| 0 <= i < |steps| && which(steps[i]);
      assert i < n ==> which(steps[..n][i]);
    }
    if SomeStep(steps[..n], which) {
      var i :| 0 <= i < n && which(steps[..n][i]);
      assert which(steps[i]);
    }
  }

  lemma StepFlags(s: State, step: Step)
    requires Enabled(s, step)
    ensures After(s, step).failed == (s.failed || Breaks(step))
    ensures After(s, step).closing == (s.closing || step.BeginClose?)
    ensures !s.Healthy() ==> After(s, step).admitted == s.admitted
    ensures !s.Healthy() && s.flush.NoFlush? ==> After(s, step).flush.NoFlush?
  {
    hide Resolve, Kept, Dropped, FreshRecords;
  }

  /** The bus counts as failed exactly after a write, a flush or a cursor call
      broke, and as closing exactly after a close began. */
  lemma {:induction false} FlagsIff(musicLimit: nat, voiceLimit: nat, states: seq<State>, steps: seq<Step>)
    requires IsRun(states, steps) && states[0] == Start(musicLimit, voiceLimit)
    ensures states[|steps|].failed <==> SomeStep(steps, step => Breaks(step))
    ensures states[|steps|].closing <==> SomeStep(steps, (step: Step) => step.BeginClose?)
    decreases |steps|
  {
    if steps != [] {
      hide Enabled, After, SomeStep, Breaks;
      var n := |steps| - 1;
      FlagsIff(musicLimit, voiceLimit, states[..|steps|], steps[..n]);
      StepFlags(states[n], steps[n]);
      SomeStepMore(steps, step => Breaks(step));
      SomeStepMore(steps, (step: Step) => step.BeginClose?);
    }
  }

  lemma TellsRefusal(s: State, step: Step, item: Item)
    requires Inv(s) && Enabled(s, step) && Tells(s, step, item, Refused)
    ensures !After(s, step).Healthy()
  {
    StepFlags(s, step);
    hide After;
  }

  /** A producer is refused only on a bus that has failed or is closing. */
  lemma {:induction false} RefusedOnlyWhenBroken(musicLimit: nat, voiceLimit: nat, states: seq<State>, steps: seq<Step>,
                                                 item: Item)
    requires IsRun(states, steps) && states[0] == Start(musicLimit, voiceLimit)
    requires Answered(states[|steps|], item, Refused)
    ensures !states[|steps|].Healthy()
    decreases |steps|
  {
    if steps != [] {
      hide Enabled, After, Tells, Inv, Answered;
      var n := |steps| - 1;
      StepTells(states[n], steps[n], item, Refused);
      if Answered(states[n], item, Refused) {
        RefusedOnlyWhenBroken(musicLimit, voiceLimit, states[..|steps|], steps[..n], item);
        StepFlags(states[n], steps[n]);
      } else {
        EveryInterleaving(musicLimit, voiceLimit, states[..|steps|], steps[..n]);
        TellsRefusal(states[n], steps[n], item);
      }
    }
  }

  lemma {:induction false} ItemsAt(resolved: seq<Resolution>, i: nat, j: nat)
    requires i < j < |resolved| && resolved[i].item == resolved[j].item
    ensures multiset(Items(resolved))[resolved[i].item] >= 2
  {
    var items, item := Items(resolved), resolved[i].item;
    assert items == items[..j] + [items[j]] + items[j + 1..];
    assert item in items[..j] by {
      assert items[..j][i] == item;
    }
  }

  /** No producer hears two answers. */
  lemma OneAnswer(musicLimit: nat, voiceLimit: nat, states: seq<State>, steps: seq<Step>, i: nat, j: nat)
    requires IsRun(states, steps) && states[0] == Start(musicLimit, voiceLimit)
    requires i < |states[|steps|].resolved| && j < |states[|steps|].resolved|
    requires states[|steps|].resolved[i].item == states[|steps|].resolved[j].item
    ensures i == j
  {
    var s := states[|steps|];
    EveryInterleaving(musicLimit, voiceLimit, states, steps);
    ExactlyOnePlace(s, s.resolved[i].item);
    if i != j {
      ItemsAt(s.resolved, Min(i, j), Max(i, j));
    }
  }

  // ---- nothing registered or taken out goes without its answer ----

  /** The write of a block failed or was stopped. */
  ghost predicate WriteBroke(states: seq<State>, steps: seq<Step>, item: Item)
    requires |states| == |steps| + 1
  {
    exists k {:trigger steps[k]} ::
      0 <= k < |steps| && (steps[k].WriterFails? || steps[k].WriterStops?) && item in states[k].InFlight()
  }

  /** The flush that took a block out of its queue broke. */
  ghost predicate FlushBroke(states: seq<State>, steps: seq<Step>, item: Item)
    requires |states| == |steps| + 1
  {
    exists k {:trigger steps[k]} :: 0 <= k < |steps| && steps[k].FlushFails? && item in states[k].Removed()
  }

  lemma BrokeBefore(states: seq<State>, steps: seq<Step>, item: Item)
    requires |states| == |steps| + 1 && steps != []
    ensures WriteBroke(states[..|steps|], steps[..|steps| - 1], item) ==> WriteBroke(states, steps, item)
    ensures FlushBroke(states[..|steps|], steps[..|steps| - 1], item) ==> FlushBroke(states, steps, item)
  {
    var n := |steps| - 1;
    if WriteBroke(states[..|steps|], steps[..n], item) {
      var k :| 0 <= k < n && (steps[..n][k].WriterFails? || steps[..n][k].WriterStops?)
               && item in states[..|steps|][k].InFlight();
      assert steps[k] == steps[..n][k];
    }
    if FlushBroke(states[..|steps|], steps[..n], item) {
      var k :| 0 <= k < n && steps[..n][k].FlushFails? && item in states[..|steps|][k].Removed();
      assert steps[k] == steps[..n][k];
    }
  }

  /** What the ledger got was asked for by the writer in this step or before. */
  lemma StepRegisters(s: State, step: Step, item: Item)
    requires Enabled(s, step)
    ensures item in FreshItems(After(s, step).log) <==>
              item in FreshItems(s.log) || (step.Register? && item in s.writer.items)
  {
    match step
    case Register => FreshItemsAppend(s.log, s.writer.items);
    case BeginFlush(_, survivors) => FreshItemsSkip(s.log, FlushBegun(survivors));
    case WriteReplay => FreshItemsSkip(s.log, Replayed);
    case EndFlush => FreshItemsSkip(s.log, FlushDone);
    case FlushFails => FreshItemsSkip(s.log, FlushBroken);
    case _ =>
  }

  /** A block under way stays under way, or its producer is told. */
  lemma UnderWay(s: State, step: Step, item: Item)
    requires Inv(s) && Enabled(s, step)
    ensures item in s.InFlight() ==>
              || item in After(s, step).InFlight()
              || (step.Deliver? && Tells(s, step, item, Delivered))
              || step.WriterFails? || step.WriterStops?
    ensures item in s.Removed() ==>
              || item in After(s, step).Removed()
              || (step.EndFlush? && Tells(s, step, item, Delivered))
              || step.FlushFails?
  {
    hide Resolve, Kept, Dropped, FreshRecords, Conserved, InOrder, ToldTruth, QueuesBounded, BarriersHold, Owed;
  }

  /** Every block in the ledger is still being written, was delivered, or its
      own write broke. */
  lemma {:induction false} RegisteredIsAnswered(musicLimit: nat, voiceLimit: nat, states: seq<State>, steps: seq<Step>,
                                                item: Item)
    requires IsRun(states, steps) && states[0] == Start(musicLimit, voiceLimit)
    requires item in FreshItems(states[|steps|].log)
    ensures
      var s := states[|steps|];
      item in s.InFlight() || Answered(s, item, Delivered) || WriteBroke(states, steps, item)
    decreases |steps|
  {
    if steps != [] {
      var n := |steps| - 1;
      EveryInterleaving(musicLimit, voiceLimit, states[..|steps|], steps[..n]);
      StepRegisters(states[n], steps[n], item);
      UnderWay(states[n], steps[n], item);
      StepTells(states[n], steps[n], item, Delivered);
      BrokeBefore(states, steps, item);
      assert steps[n].Register? && item in states[n].writer.items ==> item in After(states[n], steps[n]).InFlight();
      assert (steps[n].WriterFails? || steps[n].WriterStops?) && item in states[n].InFlight() ==>
               WriteBroke(states, steps, item);
      hide Enabled, After, Tells, Inv, Answered, WriteBroke, FlushBroke, FreshItems;
      if item in FreshItems(states[n].log) {
        RegisteredIsAnswered(musicLimit, voiceLimit, states[..|steps|], steps[..n], item);
      }
    }
  }

  lemma StepTakes(s: State, step: Step, item: Item)
    requires Enabled(s, step)
    ensures item in After(s, step).taken <==>
              item in s.taken || (step.BeginFlush? && item in After(s, step).Removed())
  {
    hide Resolve, FreshRecords, Kept, Dropped;
  }

  /** Every block that a flush took out is held by that flush, was delivered, or
      the flush broke. */
  lemma {:induction false} TakenIsAnswered(musicLimit: nat, voiceLimit: nat, states: seq<State>, steps: seq<Step>,
                                           item: Item)
    requires IsRun(states, steps) && states[0] == Start(musicLimit, voiceLimit)
    requires item in states[|steps|].taken
    ensures
      var s := states[|steps|];
      item in s.Removed() || Answered(s, item, Delivered) || FlushBroke(states, steps, item)
    decreases |steps|
  {
    if steps != [] {
      var n := |steps| - 1;
      EveryInterleaving(musicLimit, voiceLimit, states[..|steps|], steps[..n]);
      StepTakes(states[n], steps[n], item);
      UnderWay(states[n], steps[n], item);
      StepTells(states[n], steps[n], item, Delivered);
      BrokeBefore(states, steps, item);
      assert steps[n].FlushFails? && item in states[n].Removed() ==> FlushBroke(states, steps, item);
      hide Enabled, After, Tells, Inv, Answered, WriteBroke, FlushBroke;
      if item in states[n].taken {
        TakenIsAnswered(musicLimit, voiceLimit, states[..|steps|], steps[..n], item);
      }
    }
  }

  /** On a bus that never failed and is not closing every admitted block waits
      in its queue, is under way, or was delivered. */
  lemma HealthyDelivers(musicLimit: nat, voiceLimit: nat, states: seq<State>, steps: seq<Step>, item: Item)
    requires IsRun(states, steps) && states[0] == Start(musicLimit, voiceLimit)
    requires states[|steps|].Healthy() && item in states[|steps|].admitted
    ensures
      var s := states[|steps|];
      item in s.music || item in s.voice || item in s.InFlight() || item in s.Removed() || Answered(s, item, Delivered)
  {
    var s := states[|steps|];
    EveryInterleaving(musicLimit, voiceLimit, states, steps);
    ExactlyOnePlace(s, item);
    if item in Items(s.resolved) {
      var i :| 0 <= i < |s.resolved| && Items(s.resolved)[i] == item;
      var told := s.resolved[i];
      assert told == Resolution(item, told.verdict);
      if told.verdict.Refused? {
        RefusedOnlyWhenBroken(musicLimit, voiceLimit, states, steps, item);
      }
    }
  }

  /** The writer of a bus that never failed and is not closing is at work or
      waits, and nothing was drained. */
  lemma {:induction false} HealthyWriterLives(musicLimit: nat, voiceLimit: nat, states: seq<State>, steps: seq<Step>)
    requires IsRun(states, steps) && states[0] == Start(musicLimit, voiceLimit) && states[|steps|].Healthy()
    ensures
      var s := states[|steps|];
      (s.writer.Idle? || s.writer.Writing?) && !s.drained
    decreases |steps|
  {
    if steps != [] {
      var n := |steps| - 1;
      StepFlags(states[n], steps[n]);
      HealthyWriterLives(musicLimit, voiceLimit, states[..|steps|], steps[..n]);
      hide Resolve, Kept, Dropped, FreshRecords, Breaks;
    }
  }

  /** A step that brings an admitted block closer to its answer. */
  ghost predicate Helps(s: State, step: Step) {
    Enabled(s, step)
    && (step.Take? || step.Register? || step.Deliver? || step.BeginFlush? || step.WriteReplay? || step.EndFlush?)
  }

  /** While the bus is healthy no admitted block is stuck: until it is delivered
      the writer or the flush under way can go on. */
  lemma NobodyIsStuck(musicLimit: nat, voiceLimit: nat, states: seq<State>, steps: seq<Step>, item: Item)
    requires IsRun(states, steps) && states[0] == Start(musicLimit, voiceLimit)
    requires states[|steps|].Healthy() && item in states[|steps|].admitted
    ensures Answered(states[|steps|], item, Delivered) || exists step :: Helps(states[|steps|], step)
  {
    var s := states[|steps|];
    HealthyDelivers(musicLimit, voiceLimit, states, steps, item);
    HealthyWriterLives(musicLimit, voiceLimit, states, steps);
    EveryInterleaving(musicLimit, voiceLimit, states, steps);
    hide IsRun, Conserved, InOrder, ToldTruth, QueuesBounded, BarriersHold, Owed, Answered;
    if s.writer.Writing? {
      assert Helps(s, if s.writer.registered then Deliver else Register);
    } else if s.flush.Flushing? {
      assert Helps(s, if s.flush.left > 0 then WriteReplay else EndFlush);
    } else if s.flush.Checked? {
      assert Helps(s, BeginFlush({}, 0));
    } else if item in s.music || item in s.voice {
      assert Helps(s, Take);
    }
  }

  // ---- what leaves the queues ----

  lemma {:induction false} SplitExactly(queue: seq<Item>, discard: set<SourceKey>, item: Item)
    ensures item in Kept(queue, discard) <==> item in queue && item.key !in discard
    ensures item in Dropped(queue, discard) <==> item in queue && item.key in discard
  {
    if queue != [] {
      SplitExactly(queue[1..], discard, item);
      assert queue == [queue[0]] + queue[1..];
    }
  }

  /** A flush takes every queued block of its sources and no other. */
  lemma FlushTakesExactly(s: State, discard: set<SourceKey>, survivors: nat, item: Item)
    requires Enabled(s, BeginFlush(discard, survivors))
    ensures
      var s' := After(s, BeginFlush(discard, survivors));
      var queued := item in s.music || item in s.voice;
      && (item in s'.Removed() <==> queued && item.key in discard)
      && (item in s'.music || item in s'.voice <==> queued && item.key !in discard)
  {
    SplitExactly(s.music, discard, item);
    SplitExactly(s.voice, discard, item);
  }

  /** The writer takes the oldest block of every lane that has one, music first. */
  lemma TakesOldest(s: State)
    requires Enabled(s, Take)
    ensures
      var s' := After(s, Take);
      var music, voice := if s.music == [] then [] else [s.music[0]], if s.voice == [] then [] else [s.voice[0]];
      && s'.writer.items == music + voice != []
      && s.music == music + s'.music && s.voice == voice + s'.voice
  {
  }
}
