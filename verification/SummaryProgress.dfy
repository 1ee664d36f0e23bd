/** When a background summary can still come: which threads it has left for
    good, which it can always reach, and with which settings. */
module SummaryProgress {
  import opened Common
  import opened SummarySelection
  import opened AgentThread

  // ---- the lengths of the turns behind the cut ----

  function Lengths(turns: seq<seq<Stored>>): (lens: seq<nat>)
    ensures |lens| == |turns|
  {
    seq(|turns|, i requires 0 <= i < |turns| => |turns[i]|)
  }

  function Sum(lens: seq<nat>): nat {
    if lens == [] then 0 else lens[0] + Sum(lens[1..])
  }

  /** The messages of the whole turns that fit into a window. */
  function Fit(lens: seq<nat>, window: nat): (total: nat)
    ensures total <= window
  {
    if lens == [] || lens[0] > window then 0 else lens[0] + Fit(lens[1..], window - lens[0])
  }

  /** The length of the oldest turn; the shortest possible one if it is still to come. */
  function First(lens: seq<nat>): nat {
    if lens == [] then 2 else lens[0]
  }

  /** The most messages of whole turns that the window can come to hold: later
      turns can fill it to its end, unless less than a turn of 2 is missing. */
  function Most(lens: seq<nat>, window: nat): nat {
    if Sum(lens) + 1 >= window then Fit(lens, window) else window
  }

  /** The oldest turn and the messages to retain have a place in the window. */
  predicate Room(lens: seq<nat>, window: nat, retain: nat) {
    First(lens) + retain <= Most(lens, window)
  }

  /** The lengths of the turns that no summary took. */
  function Late(s: State): seq<nat>
    requires s.covered <= |s.turns|
  {
    Lengths(s.turns[s.covered..])
  }

  lemma {:induction false} FlattenLength(turns: seq<seq<Stored>>)
    ensures |Flatten(turns)| == Sum(Lengths(turns))
  {
    if turns != [] {
      FlattenLength(turns[1..]);
      assert Lengths(turns)[1..] == Lengths(turns[1..]);
    }
  }

  lemma {:induction false} FitIsWholeTurns(turns: seq<seq<Stored>>, limit: nat)
    ensures Fit(Lengths(turns), limit) == |Flatten(turns[..TurnsWithin(turns, limit)])|
  {
    if turns == [] || |turns[0]| > limit {
      assert turns[..0] == [];
    } else {
      FitIsWholeTurns(turns[1..], limit - |turns[0]|);
      FirstTurnOff(turns, TurnsWithin(turns, limit));
      assert Lengths(turns)[1..] == Lengths(turns[1..]);
    }
  }

  /** The selection, read off the lengths. */
  lemma {:induction false} SelectsIffLengths(turns: seq<seq<Stored>>, limit: nat, retain: nat)
    requires AllComplete(turns)
    ensures
      Selected(Window(Flatten(turns), limit), retain) != [] <==>
        turns != [] && |turns[0]| + retain <= Fit(Lengths(turns), limit)
  {
    hide Selected, Window, Flatten, TurnsWithin;
    SelectsIffOldestFits(turns, limit, retain);
    FitIsWholeTurns(turns, limit);
    assert turns != [] ==> CompleteTurn(turns[0]) && Lengths(turns)[0] == |turns[0]|;
  }

  lemma {:induction false} SumAppend(lens: seq<nat>, more: seq<nat>)
    ensures Sum(lens + more) == Sum(lens) + Sum(more)
  {
    if lens == [] {
      assert lens + more == more;
    } else {
      SumAppend(lens[1..], more);
      assert (lens + more)[1..] == lens[1..] + more;
    }
  }

  /** Turns that all fit leave the rest of the window to later ones; turns that
      do not all fit leave nothing. */
  lemma {:induction false} FitAppend(lens: seq<nat>, more: seq<nat>, window: nat)
    ensures Fit(lens + more, window)
         == if Sum(lens) <= window then Sum(lens) + Fit(more, window - Sum(lens)) else Fit(lens, window)
  {
    if lens == [] {
      assert lens + more == more;
    } else {
      assert (lens + more)[1..] == lens[1..] + more;
      if lens[0] <= window {
        FitAppend(lens[1..], more, window - lens[0]);
      }
    }
  }

  lemma {:induction false} FitAll(lens: seq<nat>, window: nat)
    ensures Sum(lens) <= window ==> Fit(lens, window) == Sum(lens)
    ensures Fit(lens, window) <= Sum(lens)
  {
    if lens != [] && lens[0] <= window {
      FitAll(lens[1..], window - lens[0]);
    }
  }

  /** A later turn never makes room. */
  lemma LongerLeavesNoRoom(lens: seq<nat>, len: nat, window: nat, retain: nat)
    requires len >= 2 && !Room(lens, window, retain)
    ensures !Room(lens + [len], window, retain)
  {
    SumAppend(lens, [len]);
    FitAppend(lens, [len], window);
    FitAll(lens, window);
  }

  // ---- threads without room ----

  /** No task holds a batch that a save would apply. */
  ghost predicate NothingToSave(s: State) {
    forall i | 0 <= i < |s.tasks| ::
      !(s.tasks[i].Chosen? && s.tasks[i].thread == s.thread && s.tasks[i].version == s.version)
  }

  /** No summary is on its way and the turns behind the cut leave no room for another. */
  ghost predicate Blocked(s: State) {
    Inv(s) && NothingToSave(s) && !Room(Late(s), 2 * s.trigger, s.retain)
  }

  /** The trigger number of messages is visible behind the cut. */
  ghost predicate Due(s: State) {
    |After(Visible(s.log, s.runs), s.cut)| >= s.trigger
  }

  lemma LateMessages(s: State)
    requires Inv(s)
    ensures After(Visible(s.log, s.runs), s.cut) == Flatten(s.turns[s.covered..])
    ensures |After(Visible(s.log, s.runs), s.cut)| == Sum(Late(s))
    ensures AllComplete(s.turns[s.covered..])
  {
    hide TaskInv, TurnInv, Visible, After, UpTo, CompleteTurn, Flatten, Sum;
    CutSeparatesHistory(s);
    FlattenLength(s.turns[s.covered..]);
  }

  /** What a current task selects, read off the lengths. */
  lemma SelectsIffLate(s: State, task: Task)
    requires Inv(s) && task.thread == s.thread && task.cut == s.cut
    ensures Selected(Pending(s, task), s.retain) != [] <==>
              Late(s) != [] && Late(s)[0] + s.retain <= Fit(Late(s), 2 * s.trigger)
    ensures Pending(s, task) == Window(Flatten(s.turns[s.covered..]), 2 * s.trigger)
  {
    LateMessages(s);
    hide Inv, Visible, After, Selected, Flatten, Fit, Window, AllComplete;
    SelectsIffLengths(s.turns[s.covered..], 2 * s.trigger, s.retain);
  }

  lemma BlockedSelectsNothing(s: State, task: Task)
    requires Blocked(s) && TaskInv(s, task) && task.thread == s.thread && task.version == s.version
    ensures Selected(Pending(s, task), s.retain) == []
  {
    SelectsIffLate(s, task);
    hide Selected, Pending, Inv;
  }

  /** The row, the cut and what was saved are as before, and so are the turns. */
  ghost predicate SameCut(s: State, s': State) {
    && s'.thread == s.thread && s'.cut == s.cut && s'.saved == s.saved && s'.covered == s.covered
    && s'.trigger == s.trigger && s'.retain == s.retain
    && s.turns <= s'.turns
  }

  /** At most one turn more. */
  ghost predicate OneTurnLonger(s: State, s': State) {
    s'.turns == s.turns || (s'.turns != [] && s'.turns[..|s'.turns| - 1] == s.turns)
  }

  ghost predicate StillBlocked(s: State, s': State) {
    NothingToSave(s') && SameCut(s, s') && OneTurnLonger(s, s')
  }

  lemma BlockedChoose(s: State, i: nat)
    requires Blocked(s) && Enabled(s, Choose(i))
    ensures StillBlocked(s, Perform(s, Choose(i)))
  {
    hide Selected, Pending, Room;
    assert TaskInv(s, s.tasks[i]);
    if s.tasks[i].thread == s.thread && s.tasks[i].version == s.version {
      BlockedSelectsNothing(s, s.tasks[i]);
    }
    hide Inv, TaskInv;
    NoNewChoice(s, i);
  }

  /** A task that selects nothing on the current row ends. */
  lemma NoNewChoice(s: State, i: nat)
    requires NothingToSave(s) && Enabled(s, Choose(i))
    requires s.tasks[i].thread == s.thread && s.tasks[i].version == s.version ==>
               Selected(Pending(s, s.tasks[i]), s.retain) == []
    ensures StillBlocked(s, Perform(s, Choose(i)))
  {
    hide Selected, Pending;
  }

  lemma BlockedSave(s: State, i: nat)
    requires Blocked(s) && Enabled(s, Save(i))
    ensures StillBlocked(s, Perform(s, Save(i)))
  {
    hide Inv;
    assert !SaveApplies(s, s.tasks[i]);
  }

  lemma BlockedSelectModel(s: State)
    requires Blocked(s) && Enabled(s, SelectModel)
    ensures StillBlocked(s, Perform(s, SelectModel))
  {
    forall i | 0 <= i < |s.tasks| ensures s.tasks[i].thread == s.thread ==> s.tasks[i].version <= s.version {
      assert TaskInv(s, s.tasks[i]);
    }
    hide Inv, TaskInv;
  }

  lemma BlockedElsewhere(s: State, step: Step)
    requires Blocked(s) && Enabled(s, step)
    requires !step.Choose? && !step.Save? && !step.SelectModel? && !step.Clear?
    ensures StillBlocked(s, Perform(s, step))
  {
    hide Inv, Room;
  }

  lemma LongerStaysBlocked(s: State, s': State)
    requires Blocked(s) && Inv(s') && StillBlocked(s, s')
    ensures Blocked(s')
  {
    assert AllComplete(s'.turns);
    if s'.turns != s.turns {
      var len := |s'.turns[|s.turns|]|;
      assert CompleteTurn(s'.turns[|s.turns|]);
      assert Late(s') == Late(s) + [len];
      hide Inv, Room;
      LongerLeavesNoRoom(Late(s), len, 2 * s.trigger, s.retain);
    }
  }

  lemma BlockedStep(s: State, step: Step)
    requires Blocked(s) && Enabled(s, step) && !step.Clear?
    ensures Blocked(Perform(s, step)) && SameCut(s, Perform(s, step))
  {
    assert Inv(s);
    StepKeepsInv(s, step);
    hide Blocked, Inv, Perform, Enabled, NothingToSave;
    match step {
      case Choose(i) => BlockedChoose(s, i);
      case Save(i) => BlockedSave(s, i);
      case SelectModel => BlockedSelectModel(s);
      case _ => BlockedElsewhere(s, step);
    }
    LongerStaysBlocked(s, Perform(s, step));
  }

  ghost predicate NoClear(steps: seq<Step>) {
    forall i | 0 <= i < |steps| :: !steps[i].Clear?
  }

  /** Without room every later summary is blocked: in every run that does not
      clear the thread the cut and the saved batches stay, and a summary that
      was due stays due. */
  lemma {:induction false} NoRoomBlocksSummaries(states: seq<State>, steps: seq<Step>)
    requires IsRun(states, steps) && Blocked(states[0]) && NoClear(steps)
    ensures Blocked(states[|steps|]) && SameCut(states[0], states[|steps|])
    ensures Due(states[0]) ==> Due(states[|steps|])
    decreases |steps|
  {
    hide Blocked, Perform, Enabled, Due;
    if steps != [] {
      var n := |steps| - 1;
      NoRoomBlocksSummaries(states[..|steps|], steps[..n]);
      BlockedStep(states[n], steps[n]);
      BlockedStaysDue(states[n], states[n + 1]);
    }
  }

  lemma LengthsOfLonger(turns: seq<seq<Stored>>, longer: seq<seq<Stored>>, at: nat)
    requires turns <= longer && at <= |turns|
    ensures Lengths(longer[at..]) == Lengths(turns[at..]) + Lengths(longer[|turns|..])
  {
  }

  lemma BlockedStaysDue(s: State, s': State)
    requires Blocked(s) && Blocked(s') && SameCut(s, s')
    ensures Due(s) ==> Due(s')
  {
    LateMessages(s);
    LateMessages(s');
    hide Inv, Visible, After, Room, AllComplete, Sum, NothingToSave, Flatten, Lengths;
    LengthsOfLonger(s.turns, s'.turns, s.covered);
    SumAppend(Late(s), Lengths(s'.turns[|s.turns|..]));
  }

  // ---- building runs ----

  ghost predicate Leads(s: State, steps: seq<Step>, t: State) {
    exists states {:trigger IsRun(states, steps)} :: IsRun(states, steps) && states[0] == s && states[|steps|] == t
  }

  lemma LeadsFurther(s: State, first: seq<Step>, t: State, second: seq<Step>, u: State)
    requires Leads(s, first, t) && Leads(t, second, u)
    ensures Leads(s, first + second, u)
  {
    hide Perform, Enabled;
    var a: seq<State> :| IsRun(a, first) && a[0] == s && a[|first|] == t;
    var b: seq<State> :| IsRun(b, second) && b[0] == t && b[|second|] == u;
    var states := a[..|first|] + b;
    forall i {:trigger (first + second)[i]} | 0 <= i < |first + second|
      ensures Enabled(states[i], (first + second)[i])
      ensures states[i + 1] == Perform(states[i], (first + second)[i])
    {
      if i < |first| {
        assert first[i] == (first + second)[i];
        assert states[i] == a[i] && states[i + 1] == a[i + 1];
      } else {
        assert second[i - |first|] == (first + second)[i];
        assert states[i] == b[i - |first|] && states[i + 1] == b[i - |first| + 1];
      }
    }
    assert IsRun(states, first + second);
  }

  lemma LeadsKeepsInv(s: State, steps: seq<Step>, t: State)
    requires Leads(s, steps, t) && Inv(s)
    ensures Inv(t)
  {
    hide Inv;
    var states: seq<State> :| IsRun(states, steps) && states[0] == s && states[|steps|] == t;
    RunKeepsInv(states, steps);
  }

  /** No turn that the run stores is longer than this. */
  ghost predicate TurnsUpTo(steps: seq<Step>, most: nat) {
    forall i | 0 <= i < |steps| :: steps[i].AppendResult? ==> 1 + |steps[i].batch| <= most
  }

  const QUESTION: Message := Message(User, Text, "")
  const TOOL_CALL: Message := Message(Assistant, ToolCall, "")
  const ANSWER: Message := Message(Assistant, Text, "")

  /** What follows the question in a turn of this length: tool traffic and the answer. */
  function Batch(len: nat): seq<Message>
    requires len >= 2
  {
    seq(len - 2, i => TOOL_CALL) + [ANSWER]
  }

  function TurnSteps(len: nat): seq<Step>
    requires len >= 2
  {
    [Load, AddRun, AppendUser(QUESTION), AppendResult(Batch(len)), Finish(Completed)]
  }

  /** One turn of this length more, and nothing else. */
  ghost predicate TurnAdded(s: State, t: State, len: nat) {
    && SameCut(s, t) && t.version == s.version && t.tasks == s.tasks
    && |t.turns| == |s.turns| + 1 && t.turns[..|s.turns|] == s.turns && |t.turns[|s.turns|]| == len
  }

  lemma TurnCompletes(s: State, len: nat) returns (t: State)
    requires Inv(s) && s.turn.NoTurn? && len >= 2
    ensures Leads(s, TurnSteps(len), t) && TurnAdded(s, t, len)
    ensures t.turn == Turn(s.cut, s.version, Ended(s.nextRun))
  {
    assert ResultBatch(Batch(len));
    hide Inv, ResultBatch;
    var s1 := Perform(s, Load);
    var s2 := Perform(s1, AddRun);
    var s3 := Perform(s2, AppendUser(QUESTION));
    var s4 := Perform(s3, AppendResult(Batch(len)));
    t := Perform(s4, Finish(Completed));
    assert IsRun([s, s1, s2, s3, s4, t], TurnSteps(len));
    assert t.turns == s.turns + [Answer(s4)];
    assert |Answer(s4)| == |s4.log| - |s.log| == len;
  }

  ghost predicate Quiet(steps: seq<Step>, most: nat) {
    NoClear(steps) && TurnsUpTo(steps, most)
  }

  lemma OneMoreTurn(s: State, len: nat) returns (steps: seq<Step>, t: State)
    requires Inv(s) && s.turn.NoTurn? && len >= 2
    ensures Leads(s, steps, t) && TurnAdded(s, t, len) && t.turn.NoTurn? && Quiet(steps, len)
  {
    hide Inv;
    var ended := TurnCompletes(s, len);
    t := Perform(ended, Release);
    hide TurnAdded;
    StepLeads(ended, Release);
    steps := TurnSteps(len) + [Release];
    LeadsFurther(s, TurnSteps(len), ended, [Release], t);
  }

  /** Turns of these lengths. */
  ghost predicate TurnLengths(lens: seq<nat>, most: nat) {
    forall i | 0 <= i < |lens| :: 2 <= lens[i] <= most
  }

  /** Turns of these lengths more, and nothing else. */
  ghost predicate TurnsAdded(s: State, t: State, lens: seq<nat>) {
    && SameCut(s, t) && t.version == s.version && t.tasks == s.tasks
    && Lengths(t.turns[|s.turns|..]) == lens
  }

  lemma AddedTurns(s: State, t: State, u: State, len: nat, rest: seq<nat>)
    requires TurnAdded(s, t, len) && TurnsAdded(t, u, rest)
    ensures TurnsAdded(s, u, [len] + rest)
  {
    var n := |s.turns|;
    assert u.turns[n..][1..] == u.turns[n + 1..];
    assert u.turns[n] == t.turns[n];
    assert Lengths(u.turns[n..]) == [len] + Lengths(u.turns[n + 1..]);
  }

  lemma {:induction false} MoreTurns(s: State, lens: seq<nat>, most: nat) returns (steps: seq<Step>, t: State)
    requires Inv(s) && s.turn.NoTurn? && TurnLengths(lens, most)
    ensures Leads(s, steps, t) && TurnsAdded(s, t, lens) && t.turn.NoTurn? && Quiet(steps, most)
    decreases |lens|
  {
    hide Inv;
    if lens == [] {
      steps, t := [], s;
      assert IsRun([s], []);
    } else {
      var one, next := OneMoreTurn(s, lens[0]);
      LeadsKeepsInv(s, one, next);
      var more;
      more, t := MoreTurns(next, lens[1..], most);
      steps := one + more;
      hide Leads, TurnAdded, TurnsAdded;
      LeadsFurther(s, one, next, more, t);
      AddedTurns(s, next, t, lens[0], lens[1..]);
      assert [lens[0]] + lens[1..] == lens;
    }
  }

  // ---- threads with room ----

  lemma {:induction false} AfterIsBehind(messages: seq<Stored>, cut: nat)
    ensures forall m | m in After(messages, cut) :: m.sequence > cut
  {
    if messages != [] {
      AfterIsBehind(messages[1..], cut);
    }
  }

  /** A batch of the next turns reaches behind the cut. */
  lemma BatchReaches(s: State, batch: seq<Stored>, upTo: nat)
    requires Inv(s) && BatchFits(s, batch, upTo) && batch != []
    ensures s.cut < Through(batch)
  {
    AfterIsBehind(Visible(s.log, s.runs), s.cut);
    LateMessages(s);
    TurnsBetween(s.turns, s.covered, upTo);
    hide Inv, Visible, After, Flatten;
    assert batch[|batch| - 1] in After(Visible(s.log, s.runs), s.cut);
  }

  lemma SavableIsSaved(s: State, i: nat)
    requires Inv(s) && i < |s.tasks|
    requires s.tasks[i].Chosen? && s.tasks[i].thread == s.thread && s.tasks[i].version == s.version
    ensures Enabled(s, Save(i)) && |Perform(s, Save(i)).saved| == |s.saved| + 1
  {
    assert TaskInv(s, s.tasks[i]);
    var upTo: nat :| BatchFits(s, s.tasks[i].batch, upTo);
    BatchReaches(s, s.tasks[i].batch, upTo);
    hide Inv, TaskInv, BatchFits;
  }

  /** Enough whole turns in the window for a summary. */
  ghost predicate Selectable(s: State)
    requires s.covered <= |s.turns|
  {
    && Late(s) != [] && Late(s)[0] + s.retain <= Fit(Late(s), 2 * s.trigger)
    && Sum(Late(s)) >= 2 * s.trigger
  }

  /** A task that read the current row goes on to a summary exactly when the
      trigger number of messages is visible behind the cut and the oldest turn
      fits with enough whole turns behind it; otherwise it ends. */
  lemma ChoosesIff(s: State, k: nat)
    requires Inv(s) && Enabled(s, Choose(k)) && s.tasks[k].thread == s.thread && s.tasks[k].version == s.version
    ensures
      var t, lens := Perform(s, Choose(k)), Late(s);
      if Due(s) && lens != [] && lens[0] + s.retain <= Fit(lens, 2 * s.trigger)
      then k < |t.tasks| && t.tasks[k].Chosen? && t.tasks[k].batch == Selected(Pending(s, s.tasks[k]), s.retain)
      else t.tasks == Without(s.tasks, k)
  {
    assert TaskInv(s, s.tasks[k]);
    SelectsIffLate(s, s.tasks[k]);
    LateMessages(s);
    hide Inv, TaskInv, Selected, Visible, After, Flatten, Fit, Sum, AllComplete;
  }

  /** A current task that still waits chooses the batch. */
  lemma WaitingChooses(s: State, k: nat)
    requires Inv(s) && Selectable(s)
    requires k < |s.tasks| && s.tasks[k] == Waiting(s.thread, s.cut, s.version)
    ensures
      var t := Perform(s, Choose(k));
      && Enabled(s, Choose(k)) && SameHistory(s, t) && Inv(t)
      && k < |t.tasks| && t.tasks[k].Chosen? && t.tasks[k].thread == s.thread && t.tasks[k].version == s.version
  {
    SelectsIffLate(s, s.tasks[k]);
    FlattenLength(s.turns[s.covered..]);
    StepKeepsInv(s, Choose(k));
    hide Inv, Selected, Pending, Flatten, Fit, Sum;
  }

  lemma StepLeads(s: State, step: Step)
    requires Enabled(s, step)
    ensures Leads(s, [step], Perform(s, step))
  {
    hide Perform, Enabled;
    assert IsRun([s, Perform(s, step)], [step]);
  }

  /** After a turn on the current row a summary begins for it. */
  lemma SummaryBegins(s: State) returns (t: State)
    requires Inv(s) && s.turn.Turn? && s.turn.phase.Ended? && s.turn.cut == s.cut && s.turn.version == s.version
    requires Selectable(s)
    ensures Leads(s, [StartSummary], t) && Inv(t) && Selectable(t) && SameHistory(s, t)
    ensures |t.tasks| == |s.tasks| + 1 && t.tasks[|s.tasks|] == Waiting(t.thread, t.cut, t.version)
  {
    StepKeepsInv(s, StartSummary);
    StepLeads(s, StartSummary);
    hide Inv, Leads, Fit, Sum;
    t := Perform(s, StartSummary);
  }

  /** It is chosen and saved if enough whole turns are in the window. */
  lemma SummaryIsSaved(s: State) returns (steps: seq<Step>, t: State)
    requires Inv(s) && s.turn.Turn? && s.turn.phase.Ended? && s.turn.cut == s.cut && s.turn.version == s.version
    requires Selectable(s)
    ensures Leads(s, steps, t) && |t.saved| == |s.saved| + 1 && Quiet(steps, 0)
  {
    var k := |s.tasks|;
    var s1 := SummaryBegins(s);
    WaitingChooses(s1, k);
    var s2 := Perform(s1, Choose(k));
    SavableIsSaved(s2, k);
    t := Perform(s2, Save(k));
    StepLeads(s1, Choose(k));
    StepLeads(s2, Save(k));
    hide Inv, Leads, Perform, Enabled, Selectable;
    LeadsFurther(s1, [Choose(k)], s2, [Save(k)], t);
    LeadsFurther(s, [StartSummary], s1, [Choose(k)] + [Save(k)], t);
    steps := [StartSummary] + ([Choose(k)] + [Save(k)]);
  }

  /** Turns of 2 messages, and one of 3 where the gap is odd. */
  function Fill(gap: nat): (lens: seq<nat>)
    requires gap != 1
  {
    if gap == 0 then [] else if gap == 3 then [3] else [2] + Fill(gap - 2)
  }

  lemma {:induction false} FillFills(gap: nat)
    requires gap != 1
    ensures Sum(Fill(gap)) == gap && TurnLengths(Fill(gap), 3)
    ensures gap % 2 == 0 ==> TurnLengths(Fill(gap), 2)
    ensures gap != 0 ==> Fill(gap)[0] == if gap == 3 then 3 else 2
  {
    if gap != 0 && gap != 3 {
      FillFills(gap - 2);
      assert Fill(gap)[1..] == Fill(gap - 2);
    }
  }

  /** The turns that leave nothing more to fit into the window. */
  function Rest(lens: seq<nat>, window: nat): seq<nat> {
    if Sum(lens) + 1 >= window then [] else Fill(window - Sum(lens))
  }

  /** Where there is room, filling the window lets the oldest turn be taken,
      whatever turn follows. */
  lemma {:induction false} FilledSelects(lens: seq<nat>, window: nat, retain: nat)
    requires Room(lens, window, retain) && window % 2 == 0
    ensures
      var all := lens + Rest(lens, window) + [2];
      && all[0] + retain <= Fit(all, window)
      && Sum(all) >= window
      && TurnLengths(Rest(lens, window), 3)
  {
    var rest := Rest(lens, window);
    if rest != [] {
      FillFills(window - Sum(lens));
    }
    SumAppend(lens, rest);
    SumAppend(lens + rest, [2]);
    FitAppend(lens, rest, window);
    FitAppend(lens + rest, [2], window);
    FitAll(lens, window);
  }

  /** Whatever turn or task is under way, the lock is released at once or free. */
  lemma LockComesFree(s: State) returns (steps: seq<Step>, t: State)
    requires Inv(s)
    ensures Leads(s, steps, t) && Inv(t) && t == s.(turn := NoTurn) && Quiet(steps, 0)
  {
    if s.turn.NoTurn? {
      steps, t := [], s;
      assert IsRun([s], []);
    } else {
      StepKeepsInv(s, Release);
      hide Inv;
      steps, t := [Release], Perform(s, Release);
      StepLeads(s, Release);
    }
  }

  lemma QuietFurther(first: seq<Step>, a: nat, second: seq<Step>, b: nat, most: nat)
    requires Quiet(first, a) && Quiet(second, b) && a <= most && b <= most
    ensures Quiet(first + second, most)
  {
  }

  /** The window filled, and one turn that begins a summary. */
  lemma RoomIsFilled(s: State) returns (steps: seq<Step>, t: State)
    requires Inv(s) && s.turn.NoTurn? && Room(Late(s), 2 * s.trigger, s.retain)
    ensures Leads(s, steps, t) && Inv(t) && Selectable(t) && Quiet(steps, 3) && t.saved == s.saved
    ensures t.turn.Turn? && t.turn.phase.Ended? && t.turn.cut == t.cut && t.turn.version == t.version
  {
    var rest := Rest(Late(s), 2 * s.trigger);
    FilledSelects(Late(s), 2 * s.trigger, s.retain);
    hide Inv, Room, Leads, Quiet, Fit, Sum, Rest, Late, TurnLengths;
    var filling, full := MoreTurns(s, rest, 3);
    LeadsKeepsInv(s, filling, full);
    t := TurnCompletes(full, 2);
    LeadsKeepsInv(full, TurnSteps(2), t);
    LeadsFurther(s, filling, full, TurnSteps(2), t);
    steps := filling + TurnSteps(2);
    TurnIsQuiet(2);
    QuietFurther(filling, 3, TurnSteps(2), 2, 3);
    LateAfterTurns(s, full, rest);
    LateAfterTurn(full, t, 2);
    hide TurnSteps, Lengths;
  }

  lemma TurnIsQuiet(len: nat)
    requires len >= 2
    ensures Quiet(TurnSteps(len), len)
  {
  }

  lemma LateAfterTurns(s: State, t: State, lens: seq<nat>)
    requires s.covered <= |s.turns| && TurnsAdded(s, t, lens)
    ensures Late(t) == Late(s) + lens
  {
  }

  lemma LateAfterTurn(s: State, t: State, len: nat)
    requires s.covered <= |s.turns| && TurnAdded(s, t, len)
    ensures Late(t) == Late(s) + [len]
  {
  }

  lemma RoomLetsSave(s: State) returns (steps: seq<Step>, t: State)
    requires Inv(s) && Room(Late(s), 2 * s.trigger, s.retain)
    ensures Leads(s, steps, t) && Quiet(steps, 3) && |t.saved| == |s.saved| + 1
  {
    var release, free := LockComesFree(s);
    hide Inv, Room, Leads, Quiet, Selectable;
    var filling, full := RoomIsFilled(free);
    var saving;
    saving, t := SummaryIsSaved(full);
    LeadsFurther(s, release, free, filling, full);
    LeadsFurther(s, release + filling, full, saving, t);
    QuietFurther(release, 0, filling, 3, 3);
    QuietFurther(release + filling, 3, saving, 0, 3);
    steps := release + filling + saving;
  }

  /** A run without Clear to its end, with one more batch saved there. */
  ghost predicate SavesMore(s: State, states: seq<State>, steps: seq<Step>) {
    && IsRun(states, steps) && states[0] == s && NoClear(steps)
    && |states[|steps|].saved| > |s.saved|
  }

  lemma NotBlockedLetsSave(s: State) returns (states: seq<State>, steps: seq<Step>)
    requires Inv(s) && !Blocked(s)
    ensures SavesMore(s, states, steps) && TurnsUpTo(steps, 3)
  {
    hide Inv, Room;
    var t;
    if !NothingToSave(s) {
      var i :| 0 <= i < |s.tasks| && s.tasks[i].Chosen? && s.tasks[i].thread == s.thread
               && s.tasks[i].version == s.version;
      SavableIsSaved(s, i);
      steps, t := [Save(i)], Perform(s, Save(i));
      states := [s, t];
    } else {
      steps, t := RoomLetsSave(s);
      states :| IsRun(states, steps) && states[0] == s && states[|steps|] == t;
    }
  }

  /** A later summary is possible exactly when the thread is not blocked, and
      then turns of at most three messages are enough to come to it. */
  lemma SummaryPossibleIff(s: State)
    requires Inv(s)
    ensures (exists states, steps :: SavesMore(s, states, steps)) <==> !Blocked(s)
    ensures !Blocked(s) ==> exists states, steps :: SavesMore(s, states, steps) && TurnsUpTo(steps, 3)
  {
    hide Inv, Blocked, SavesMore;
    if !Blocked(s) {
      var states, steps := NotBlockedLetsSave(s);
    }
    forall states, steps | SavesMore(s, states, steps) ensures !Blocked(s) {
      BlockedSavesNoMore(s, states, steps);
    }
  }

  lemma BlockedSavesNoMore(s: State, states: seq<State>, steps: seq<Step>)
    requires SavesMore(s, states, steps)
    ensures !Blocked(s)
  {
    hide Blocked;
    if Blocked(s) {
      NoRoomBlocksSummaries(states, steps);
    }
  }

  // ---- which settings never block ----

  /** With this many messages to retain, or fewer, no thread whose turns are at
      most so long is ever blocked. */
  function SafeRetain(trigger: nat, most: nat): int {
    if most > 2 * trigger then -1
    else if most > trigger then 0
    else if most == 2 then 2 * trigger - 2
    else if most == trigger then 2
    else 2 * trigger - 2 * most + 1
  }

  lemma {:induction false} FitNearlyFull(lens: seq<nat>, window: nat, most: nat)
    requires TurnLengths(lens, most)
    ensures Fit(lens, window) == Sum(lens) || Fit(lens, window) + most > window
    decreases |lens|
  {
    if lens != [] && lens[0] <= window {
      FitNearlyFull(lens[1..], window - lens[0], most);
    }
  }

  lemma {:induction false} PairsAreEven(lens: seq<nat>, window: nat)
    requires TurnLengths(lens, 2)
    ensures Fit(lens, window) % 2 == 0 && Sum(lens) % 2 == 0
    decreases |lens|
  {
    if lens != [] {
      PairsAreEven(lens[1..], if lens[0] <= window then window - lens[0] else 0);
    }
  }

  lemma ShortTurnsLeaveRoom(lens: seq<nat>, trigger: nat, retain: nat, most: nat)
    requires most >= 2 && TurnLengths(lens, most) && retain <= SafeRetain(trigger, most)
    ensures Room(lens, 2 * trigger, retain)
  {
    var window := 2 * trigger;
    FitNearlyFull(lens, window, most);
    FitAll(lens, window);
    if most == 2 {
      PairsAreEven(lens, window);
    } else if most == trigger && lens != [] && lens[0] == trigger {
      FitNearlyFull(lens[1..], trigger, most);
      if lens[1..] != [] {
        assert lens[1..][0] == lens[1] >= 2;
      }
    }
  }

  /** Turns that leave no room. */
  function Blocking(trigger: nat, most: nat): seq<nat>
    requires most >= 2
  {
    if most > 2 * trigger then [if trigger == 0 then 2 else 2 * trigger + 1]
    else if most > trigger then [most, most]
    else if most == 2 then Fill(2 * trigger)
    else if most == trigger then [most, 2, most]
    else [most] + Fill(2 * trigger - 2 * most + 1) + [most]
  }

  /** The last turn does not fit behind the others, which do. */
  lemma {:induction false} LastDoesNotFit(lens: seq<nat>, last: nat, window: nat)
    requires Sum(lens) <= window < Sum(lens) + last
    ensures Sum(lens + [last]) == Sum(lens) + last && Fit(lens + [last], window) == Sum(lens)
  {
    SumAppend(lens, [last]);
    FitAppend(lens, [last], window);
  }

  lemma {:induction false} LongPairLeavesNoRoom(trigger: nat, most: nat)
    requires trigger < most <= 2 * trigger
    ensures Sum([most, most]) == 2 * most && Fit([most, most], 2 * trigger) == most
  {
    assert [most] + [most] == [most, most] && Sum([most]) == most;
    LastDoesNotFit([most], most, 2 * trigger);
  }

  lemma {:induction false} TripleLeavesNoRoom(most: nat)
    requires most > 2
    ensures Sum([most, 2, most]) == 2 * most + 2 && Fit([most, 2, most], 2 * most) == most + 2
  {
    assert [most] + [2] == [most, 2] && [most, 2] + [most] == [most, 2, most] && Sum([most]) == most && Sum([2]) == 2;
    SumAppend([most], [2]);
    LastDoesNotFit([most, 2], most, 2 * most);
  }

  lemma {:induction false} GapLeavesNoRoom(trigger: nat, most: nat)
    requires 2 < most < trigger
    ensures
      var lens := Blocking(trigger, most);
      && Sum(lens) == 2 * trigger + 1 && Fit(lens, 2 * trigger) == 2 * trigger - most + 1
      && TurnLengths(lens, most)
  {
    var gap := 2 * trigger - 2 * most + 1;
    FillFills(gap);
    SumAppend([most], Fill(gap));
    LastDoesNotFit([most] + Fill(gap), most, 2 * trigger);
  }

  lemma BlockingLeavesNoRoom(trigger: nat, retain: nat, most: nat)
    requires most >= 2 && retain > SafeRetain(trigger, most)
    ensures
      var lens := Blocking(trigger, most);
      TurnLengths(lens, most) && Sum(lens) >= trigger && !Room(lens, 2 * trigger, retain)
  {
    if trigger < most <= 2 * trigger {
      LongPairLeavesNoRoom(trigger, most);
    } else if most == 2 <= trigger {
      FillFills(2 * trigger);
      FitAll(Fill(2 * trigger), 2 * trigger);
    } else if most == trigger {
      TripleLeavesNoRoom(most);
    } else if most < trigger {
      GapLeavesNoRoom(trigger, most);
    }
  }

  lemma StepKeepsSettings(s: State, step: Step)
    requires Enabled(s, step)
    ensures Perform(s, step).trigger == s.trigger && Perform(s, step).retain == s.retain
  {
  }

  lemma {:induction false} RunKeepsSettings(states: seq<State>, steps: seq<Step>)
    requires IsRun(states, steps)
    ensures states[|steps|].trigger == states[0].trigger && states[|steps|].retain == states[0].retain
    decreases |steps|
  {
    if steps != [] {
      var n := |steps| - 1;
      RunKeepsSettings(states[..|steps|], steps[..n]);
      StepKeepsSettings(states[n], steps[n]);
    }
  }

  /** No visible or answered turn is longer than this. */
  ghost predicate TurnsBounded(s: State, most: nat) {
    && (forall i | 0 <= i < |s.turns| :: |s.turns[i]| <= most)
    && (s.turn.Turn? && s.turn.phase.Answered? ==> |s.log| - s.turn.phase.base <= most)
  }

  lemma FinishKeepsBound(s: State, reason: StopReason, most: nat)
    requires TurnInv(s) && Enabled(s, Finish(reason)) && TurnsBounded(s, most)
    ensures TurnsBounded(Perform(s, Finish(reason)), most)
  {
  }

  lemma AnswerKeepsBound(s: State, batch: seq<Message>, most: nat)
    requires TurnInv(s) && Enabled(s, AppendResult(batch)) && TurnsBounded(s, most) && 1 + |batch| <= most
    ensures TurnsBounded(Perform(s, AppendResult(batch)), most)
  {
    hide ResultBatch, CompleteTurn;
  }

  lemma TaskStepKeepsBound(s: State, step: Step, most: nat)
    requires Enabled(s, step) && TurnsBounded(s, most) && (step.Choose? || step.Save? || step.DropTask?)
    ensures TurnsBounded(Perform(s, step), most)
  {
    hide Selected, Pending, Enabled;
  }

  lemma PlainStepKeepsBound(s: State, step: Step, most: nat)
    requires Enabled(s, step) && TurnsBounded(s, most) && !step.Finish? && !step.AppendResult?
    requires !step.Choose? && !step.Save? && !step.DropTask?
    ensures TurnsBounded(Perform(s, step), most)
  {
    hide ChooseBatch, SaveBatch, FinishTurn;
  }

  lemma StepKeepsBound(s: State, step: Step, most: nat)
    requires Inv(s) && Enabled(s, step) && TurnsBounded(s, most)
    requires step.AppendResult? ==> 1 + |step.batch| <= most
    ensures TurnsBounded(Perform(s, step), most)
  {
    assert TurnInv(s);
    hide Inv, TurnInv, TurnsBounded, Perform, Enabled;
    match step
    case Finish(reason) => FinishKeepsBound(s, reason, most);
    case AppendResult(batch) => AnswerKeepsBound(s, batch, most);
    case Choose(i) => TaskStepKeepsBound(s, step, most);
    case Save(i) => TaskStepKeepsBound(s, step, most);
    case DropTask(i) => TaskStepKeepsBound(s, step, most);
    case _ => PlainStepKeepsBound(s, step, most);
  }

  lemma {:induction false} RunKeepsBound(states: seq<State>, steps: seq<Step>, most: nat)
    requires IsRun(states, steps) && TurnsUpTo(steps, most) && Inv(states[0]) && TurnsBounded(states[0], most)
    ensures Inv(states[|steps|]) && TurnsBounded(states[|steps|], most)
    decreases |steps|
  {
    hide Inv, TurnsBounded;
    if steps != [] {
      var n := |steps| - 1;
      RunKeepsBound(states[..|steps|], steps[..n], most);
      StepKeepsInv(states[n], steps[n]);
      StepKeepsBound(states[n], steps[n], most);
    }
  }

  lemma StartKeepsInv(trigger: nat, retain: nat)
    ensures Inv(Start(trigger, retain))
  {
  }

  /** A run from the start, with turns up to this length, to a thread whose
      summary is due and can never come. */
  ghost predicate BlocksDue(trigger: nat, retain: nat, most: nat, states: seq<State>, steps: seq<Step>) {
    && IsRun(states, steps) && states[0] == Start(trigger, retain) && TurnsUpTo(steps, most)
    && Blocked(states[|steps|]) && Due(states[|steps|])
  }

  lemma FewRetainedNeverBlocks(trigger: nat, retain: nat, most: nat, states: seq<State>, steps: seq<Step>)
    requires most >= 2 && IsRun(states, steps) && states[0] == Start(trigger, retain) && TurnsUpTo(steps, most)
    requires retain <= SafeRetain(trigger, most)
    ensures !Blocked(states[|steps|])
  {
    var s := states[|steps|];
    StartKeepsInv(trigger, retain);
    RunKeepsBound(states, steps, most);
    RunKeepsSettings(states, steps);
    assert AllComplete(s.turns);
    hide Inv, Room;
    assert forall i | 0 <= i < |s.turns| :: CompleteTurn(s.turns[i]);
    ShortTurnsLeaveRoom(Late(s), trigger, retain, most);
  }

  lemma ManyRetainedBlocks(trigger: nat, retain: nat, most: nat) returns (states: seq<State>, steps: seq<Step>)
    requires most >= 2 && retain > SafeRetain(trigger, most)
    ensures BlocksDue(trigger, retain, most, states, steps)
  {
    var s, lens := Start(trigger, retain), Blocking(trigger, most);
    StartKeepsInv(trigger, retain);
    BlockingLeavesNoRoom(trigger, retain, most);
    hide Inv, Room, Blocking, SafeRetain, Sum;
    var t;
    steps, t := MoreTurns(s, lens, most);
    states :| IsRun(states, steps) && states[0] == s && states[|steps|] == t;
    RunKeepsInv(states, steps);
    assert Late(t) == lens;
    LateMessages(t);
  }

  /** With turns of up to this many messages, a thread whose due summary can
      never come is reachable exactly when more messages than this are retained. */
  lemma BlockedReachableIff(trigger: nat, retain: nat, most: nat)
    requires most >= 2
    ensures (exists states, steps :: BlocksDue(trigger, retain, most, states, steps))
       <==> retain > SafeRetain(trigger, most)
  {
    hide SafeRetain, Blocked, Due;
    if retain > SafeRetain(trigger, most) {
      var states, steps := ManyRetainedBlocks(trigger, retain, most);
    }
    forall states, steps | BlocksDue(trigger, retain, most, states, steps)
      ensures retain > SafeRetain(trigger, most)
    {
      if retain <= SafeRetain(trigger, most) {
        FewRetainedNeverBlocks(trigger, retain, most, states, steps);
      }
    }
  }

  /** With a trigger of 24 and 12 messages retained a turn of 19 messages is needed for that. */
  lemma DefaultsBlockFrom19(most: nat)
    requires most >= 2
    ensures (exists states, steps :: BlocksDue(24, 12, most, states, steps)) <==> most >= 19
  {
    BlockedReachableIff(24, 12, most);
  }
}
