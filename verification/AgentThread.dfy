/** One conversation thread: runs that append turns and finish, summaries that
    move a cut in the background, and failure at any point. */
module AgentThread {
  import opened Common
  import opened SummarySelection

  datatype Status = Running | Succeeded | Failed | Cancelled | Abandoned

  datatype StopReason =
    | Completed
    | UserCancelled
    | Timeout
    | ModelRequestLimit
    | ToolCallLimit
    | TokenLimit
    | ToolDenied
    | ProviderError
    | ToolError
    | InvalidOutput
    | StaleRunAbandoned

  function StatusFor(reason: StopReason): Status {
    match reason
    case Completed => Succeeded
    case UserCancelled => Cancelled
    case StaleRunAbandoned => Abandoned
    case _ => Failed
  }

  datatype Entry = Entry(run: nat, message: Message)

  /** How far the turn that holds the conversation lock has come. */
  datatype Phase =
    | Loaded | Added(run: nat) | Asked(run: nat, base: nat) | Answered(run: nat, base: nat) | Ended(run: nat)

  /** The thread row as the turn read it, and its progress. */
  datatype Turn = NoTurn | Turn(cut: nat, version: nat, phase: Phase)

  /** A background summary: before and after its one read of the messages. */
  datatype Task =
    | Waiting(thread: nat, cut: nat, version: nat)
    | Chosen(thread: nat, cut: nat, version: nat, batch: seq<Stored>)

  /** turns, covered and saved record the history: the succeeded turns, how many
      of them the cut has passed, and the batches that summaries saved. */
  datatype State = State(
    trigger: nat, retain: nat,
    thread: nat, log: seq<Entry>, runs: map<nat, Status>, nextRun: nat, cut: nat, version: nat,
    turn: Turn, tasks: seq<Task>,
    turns: seq<seq<Stored>>, covered: nat, saved: seq<seq<Stored>>)

  // ---- reading messages ----

  predicate Shown(runs: map<nat, Status>, run: nat) {
    run in runs && runs[run].Succeeded?
  }

  /** Messages of succeeded runs, oldest first; the i-th row of the log has sequence i + 1. */
  function Visible(log: seq<Entry>, runs: map<nat, Status>): seq<Stored> {
    if log == [] then []
    else
      var n := |log| - 1;
      Visible(log[..n], runs) + (if Shown(runs, log[n].run) then [Stored(n + 1, log[n].message)] else [])
  }

  function After(messages: seq<Stored>, cut: nat): seq<Stored> {
    if messages == [] then []
    else (if messages[0].sequence > cut then [messages[0]] else []) + After(messages[1..], cut)
  }

  function UpTo(messages: seq<Stored>, cut: nat): seq<Stored> {
    if messages == [] then []
    else (if messages[0].sequence <= cut then [messages[0]] else []) + UpTo(messages[1..], cut)
  }

  // ---- steps ----

  /** Clear is a command under the lock, or an expiry that a status call or the
      next turn finds; a status call takes no lock, so it can end a turn. */
  datatype Step =
    | Load
    | AddRun
    | AppendUser(message: Message)
    | AppendResult(batch: seq<Message>)
    | Finish(reason: StopReason)
    | StartSummary
    | Release
    | AbandonStale(run: nat)
    | Choose(task: nat)
    | Save(task: nat)
    | DropTask(task: nat)
    | SelectModel
    | Clear

  function Rows(run: nat, messages: seq<Message>): seq<Entry> {
    seq(|messages|, i requires 0 <= i < |messages| => Entry(run, messages[i]))
  }

  function Number(base: nat, messages: seq<Message>): seq<Stored> {
    seq(|messages|, i requires 0 <= i < |messages| => Stored(base + i + 1, messages[i]))
  }

  function Messages(log: seq<Entry>): seq<Message> {
    seq(|log|, i requires 0 <= i < |log| => log[i].message)
  }

  /** The result batch: tool traffic and one final assistant text. */
  ghost predicate ResultBatch(batch: seq<Message>) {
    && batch != []
    && Closes(Stored(0, batch[|batch| - 1]))
    && forall i | 0 <= i < |batch| - 1 :: Between(Stored(0, batch[i]))
  }

  ghost predicate Enabled(s: State, step: Step) {
    match step
    case Load => s.turn.NoTurn?
    case AddRun => s.turn.Turn? && s.turn.phase.Loaded?
    case AppendUser(message) => s.turn.Turn? && s.turn.phase.Added? && Opens(Stored(0, message))
    case AppendResult(batch) => s.turn.Turn? && s.turn.phase.Asked? && ResultBatch(batch)
    case Finish(reason) =>
      s.turn.Turn? && !s.turn.phase.Loaded? && (reason.Completed? ==> s.turn.phase.Answered?)
    case StartSummary => s.turn.Turn? && s.turn.phase.Ended?
    case Release => s.turn.Turn?
    case AbandonStale(run) => run in s.runs && s.runs[run].Running?
    case Choose(i) => i < |s.tasks| && s.tasks[i].Waiting?
    case Save(i) => i < |s.tasks| && s.tasks[i].Chosen?
    case DropTask(i) => i < |s.tasks|
    case SelectModel => s.turn.NoTurn?
    case Clear => true
  }

  /** Only a running row can be finished. */
  function FinishRow(runs: map<nat, Status>, run: nat, status: Status): map<nat, Status> {
    if run in runs && runs[run].Running? then runs[run := status] else runs
  }

  /** The rows of a thread that a task may still read. */
  function Pending(s: State, task: Task): seq<Stored> {
    if task.thread != s.thread then [] else Window(After(Visible(s.log, s.runs), task.cut), 2 * s.trigger)
  }

  /** The sequence a batch reaches. */
  function Through(batch: seq<Stored>): nat {
    if batch == [] then 0 else batch[|batch| - 1].sequence
  }

  /** The compare-and-set condition of a save. */
  predicate SaveApplies(s: State, task: Task)
    requires task.Chosen?
  {
    task.thread == s.thread && task.version == s.version && s.cut < Through(task.batch)
  }

  function Without(tasks: seq<Task>, i: nat): seq<Task>
    requires i < |tasks|
  {
    tasks[..i] + tasks[i + 1..]
  }

  /** The turn that becomes visible when its run succeeds. */
  function Answer(s: State): seq<Stored>
    requires s.turn.Turn? && s.turn.phase.Answered?
  {
    var base := s.turn.phase.base;
    if base <= |s.log| then Number(base, Messages(s.log[base..])) else []
  }

  ghost predicate Succeeds(s: State, reason: StopReason)
    requires Enabled(s, Finish(reason))
  {
    reason.Completed? && s.turn.phase.run in s.runs && s.runs[s.turn.phase.run].Running?
  }

  ghost function FinishTurn(s: State, reason: StopReason): State
    requires Enabled(s, Finish(reason))
  {
    s.(runs := FinishRow(s.runs, s.turn.phase.run, StatusFor(reason)),
       turn := s.turn.(phase := Ended(s.turn.phase.run)),
       turns := if Succeeds(s, reason) then s.turns + [Answer(s)] else s.turns)
  }

  function ChooseBatch(s: State, i: nat): State
    requires i < |s.tasks| && s.tasks[i].Waiting?
  {
    var task, pending := s.tasks[i], Pending(s, s.tasks[i]);
    var selected := Selected(pending, s.retain);
    if |pending| < s.trigger || selected == [] then s.(tasks := Without(s.tasks, i))
    else s.(tasks := s.tasks[i := Chosen(task.thread, task.cut, task.version, selected)])
  }

  function SaveBatch(s: State, i: nat): State
    requires i < |s.tasks| && s.tasks[i].Chosen?
  {
    var task := s.tasks[i];
    var rest := s.(tasks := Without(s.tasks, i));
    if !SaveApplies(s, task) then rest
    else rest.(cut := Through(task.batch), version := s.version + 1, saved := s.saved + [task.batch],
               covered := CoveredAfter(s, task.batch))
  }

  function CoveredAfter(s: State, batch: seq<Stored>): nat {
    if s.covered <= |s.turns| then s.covered + TurnsWithin(s.turns[s.covered..], |batch|) else s.covered
  }

  ghost function Perform(s: State, step: Step): State
    requires Enabled(s, step)
  {
    match step
    case Load => s.(turn := Turn(s.cut, s.version, Loaded))
    case AddRun =>
      s.(runs := s.runs[s.nextRun := Running], nextRun := s.nextRun + 1, turn := s.turn.(phase := Added(s.nextRun)))
    case AppendUser(message) =>
      s.(log := s.log + Rows(s.turn.phase.run, [message]), turn := s.turn.(phase := Asked(s.turn.phase.run, |s.log|)))
    case AppendResult(batch) =>
      s.(log := s.log + Rows(s.turn.phase.run, batch),
         turn := s.turn.(phase := Answered(s.turn.phase.run, s.turn.phase.base)))
    case Finish(reason) => FinishTurn(s, reason)
    case StartSummary => s.(tasks := s.tasks + [Waiting(s.thread, s.turn.cut, s.turn.version)])
    case Release => s.(turn := NoTurn)
    case AbandonStale(run) => s.(runs := FinishRow(s.runs, run, StatusFor(StaleRunAbandoned)))
    case Choose(i) => ChooseBatch(s, i)
    case Save(i) => SaveBatch(s, i)
    case DropTask(i) => s.(tasks := Without(s.tasks, i))
    case SelectModel => s.(version := s.version + 1)
    case Clear =>
      State(s.trigger, s.retain, s.thread + 1, [], map[], s.nextRun, 0, 1, NoTurn, s.tasks, [], 0, [])
  }

  function Start(trigger: nat, retain: nat): State {
    State(trigger, retain, 0, [], map[], 0, 0, 1, NoTurn, [], [], 0, [])
  }

  // ---- the invariant ----

  ghost predicate Inv(s: State) {
    && s.covered <= |s.turns|
    && RunsKnown(s)
    && HistoryIsTurns(s)
    && CutAtTurnEnd(s)
    && TurnInv(s)
    && forall i | 0 <= i < |s.tasks| :: TaskInv(s, s.tasks[i])
  }

  /** Rows belong to known runs. */
  ghost predicate RunsKnown(s: State) {
    && (forall run | run in s.runs :: run < s.nextRun)
    && (forall i | 0 <= i < |s.log| :: s.log[i].run in s.runs)
  }

  ghost predicate HistoryIsTurns(s: State) {
    && Visible(s.log, s.runs) == Flatten(s.turns)
    && AllComplete(s.turns)
  }

  function EndOf(turns: seq<seq<Stored>>, count: nat): nat
    requires count <= |turns|
  {
    if count == 0 || turns[count - 1] == [] then 0 else turns[count - 1][|turns[count - 1]| - 1].sequence
  }

  ghost predicate CutAtTurnEnd(s: State)
    requires s.covered <= |s.turns|
  {
    && s.cut == EndOf(s.turns, s.covered)
    && Flatten(s.saved) == Flatten(s.turns[..s.covered])
    && (s.saved != [] ==> |Flatten(s.turns[s.covered..])| >= s.retain)
  }

  ghost predicate OwnRows(s: State, run: nat, base: nat) {
    && base < |s.log|
    && (forall i | 0 <= i < base :: s.log[i].run != run)
    && (forall i | base <= i < |s.log| :: s.log[i].run == run)
  }

  ghost predicate TurnInv(s: State) {
    s.turn.Turn? ==>
      && s.turn.version <= s.version
      && (s.turn.version == s.version ==> s.turn.cut == s.cut)
      && match s.turn.phase
         case Loaded => true
         case Added(run) => run in s.runs && !Shown(s.runs, run) && forall i | 0 <= i < |s.log| :: s.log[i].run != run
         case Asked(run, base) =>
           && run in s.runs && !Shown(s.runs, run) && OwnRows(s, run, base)
           && |s.log| == base + 1 && Opens(Stored(0, s.log[base].message))
         case Answered(run, base) =>
           && run in s.runs && !Shown(s.runs, run) && OwnRows(s, run, base)
           && CompleteTurn(Number(base, Messages(s.log[base..])))
         case Ended(run) => run in s.runs
  }

  /** A chosen batch is the next whole turns and leaves enough behind. */
  ghost predicate BatchFits(s: State, batch: seq<Stored>, upTo: nat)
    requires s.covered <= |s.turns|
  {
    && s.covered < upTo <= |s.turns|
    && batch == Flatten(s.turns[s.covered..upTo])
    && |Flatten(s.turns[upTo..])| >= s.retain
  }

  ghost predicate TaskInv(s: State, task: Task)
    requires s.covered <= |s.turns|
  {
    && task.thread <= s.thread
    && (task.Chosen? ==> task.batch != [])
    && (task.thread == s.thread ==>
          && task.version <= s.version
          && (task.version == s.version ==>
                && task.cut == s.cut
                && (task.Chosen? ==> exists upTo: nat :: BatchFits(s, task.batch, upTo))))
  }

  // ---- visible rows ----

  /** Only which runs succeeded matters. */
  lemma {:induction false} SameShownSameVisible(log: seq<Entry>, a: map<nat, Status>, b: map<nat, Status>)
    requires forall i | 0 <= i < |log| :: Shown(a, log[i].run) == Shown(b, log[i].run)
    ensures Visible(log, a) == Visible(log, b)
  {
    if log != [] {
      SameShownSameVisible(log[..|log| - 1], a, b);
    }
  }

  /** Rows of one run are visible together or not at all. */
  lemma {:induction false} VisibleRows(log: seq<Entry>, base: nat, run: nat, runs: map<nat, Status>)
    requires base <= |log| && forall i | base <= i < |log| :: log[i].run == run
    ensures Visible(log, runs)
         == Visible(log[..base], runs) + (if Shown(runs, run) then Number(base, Messages(log[base..])) else [])
    decreases |log|
  {
    if base == |log| {
      assert log[..base] == log;
      assert Number(base, Messages(log[base..])) == [];
    } else {
      var n := |log| - 1;
      VisibleRows(log[..n], base, run, runs);
      assert log[..n][..base] == log[..base];
      var before := Number(base, Messages(log[..n][base..]));
      assert Number(base, Messages(log[base..])) == before + [Stored(n + 1, log[n].message)];
    }
  }

  ghost predicate Ascending(messages: seq<Stored>, least: nat, most: nat) {
    && (forall i | 0 <= i < |messages| :: least < messages[i].sequence <= most)
    && (forall i, j | 0 <= i < j < |messages| :: messages[i].sequence < messages[j].sequence)
  }

  lemma {:induction false} VisibleAscending(log: seq<Entry>, runs: map<nat, Status>)
    ensures Ascending(Visible(log, runs), 0, |log|)
  {
    if log != [] {
      VisibleAscending(log[..|log| - 1], runs);
    }
  }

  lemma {:induction false} AfterAppend(a: seq<Stored>, b: seq<Stored>, cut: nat)
    ensures After(a + b, cut) == After(a, cut) + After(b, cut)
  {
    if a == [] {
      assert a + b == b;
    } else {
      AfterAppend(a[1..], b, cut);
      assert (a + b)[1..] == a[1..] + b;
      Regroup(if a[0].sequence > cut then [a[0]] else [], After(a[1..], cut), After(b, cut));
    }
  }

  lemma {:induction false} UpToAppend(a: seq<Stored>, b: seq<Stored>, cut: nat)
    ensures UpTo(a + b, cut) == UpTo(a, cut) + UpTo(b, cut)
  {
    if a == [] {
      assert a + b == b;
    } else {
      UpToAppend(a[1..], b, cut);
      assert (a + b)[1..] == a[1..] + b;
      Regroup(if a[0].sequence <= cut then [a[0]] else [], UpTo(a[1..], cut), UpTo(b, cut));
    }
  }

  lemma {:induction false} CutBefore(messages: seq<Stored>, cut: nat)
    requires forall i | 0 <= i < |messages| :: messages[i].sequence > cut
    ensures After(messages, cut) == messages && UpTo(messages, cut) == []
  {
    if messages != [] {
      CutBefore(messages[1..], cut);
    }
  }

  lemma {:induction false} CutBehind(messages: seq<Stored>, cut: nat)
    requires forall i | 0 <= i < |messages| :: messages[i].sequence <= cut
    ensures After(messages, cut) == [] && UpTo(messages, cut) == messages
  {
    if messages != [] {
      CutBehind(messages[1..], cut);
    }
  }

  /** A cut at a point of an ascending list separates it there. */
  lemma {:induction false} CutSeparates(early: seq<Stored>, late: seq<Stored>, cut: nat)
    requires forall i | 0 <= i < |early| :: early[i].sequence <= cut
    requires forall i | 0 <= i < |late| :: late[i].sequence > cut
    ensures After(early + late, cut) == late && UpTo(early + late, cut) == early
  {
    AfterAppend(early, late, cut);
    UpToAppend(early, late, cut);
    CutBehind(early, cut);
    CutBefore(late, cut);
  }

  lemma {:induction false} EndOfTurns(turns: seq<seq<Stored>>, count: nat)
    requires AllComplete(turns) && count <= |turns|
    ensures EndOf(turns, count) == Through(Flatten(turns[..count]))
    ensures count > 0 ==> Flatten(turns[..count]) != []
  {
    if count > 0 {
      assert turns[..count] == turns[..count - 1] + [turns[count - 1]];
      FlattenAppend(turns[..count - 1], [turns[count - 1]]);
      FlattenSingle(turns[count - 1]);
    } else {
      assert turns[..0] == [];
    }
  }

  /** The stored cut separates the messages that summaries took from the rest. */
  lemma CutSeparatesHistory(s: State)
    requires s.covered <= |s.turns| && HistoryIsTurns(s) && CutAtTurnEnd(s)
    ensures After(Visible(s.log, s.runs), s.cut) == Flatten(s.turns[s.covered..])
    ensures UpTo(Visible(s.log, s.runs), s.cut) == Flatten(s.saved)
  {
    VisibleAscending(s.log, s.runs);
    FlattenSplit(s.turns, s.covered);
    EndOfTurns(s.turns, s.covered);
    AscendingCut(Flatten(s.turns[..s.covered]), Flatten(s.turns[s.covered..]), |s.log|, s.cut);
  }

  lemma {:induction false} AscendingCut(early: seq<Stored>, late: seq<Stored>, most: nat, cut: nat)
    requires Ascending(early + late, 0, most)
    requires cut == Through(early)
    ensures After(early + late, cut) == late && UpTo(early + late, cut) == early
  {
    var all := early + late;
    assert forall i | 0 <= i < |early| :: early[i] == all[i];
    assert forall i | 0 <= i < |late| :: late[i] == all[|early| + i];
    CutSeparates(early, late, cut);
  }

  // ---- every step keeps the invariant ----

  /** Steps of a turn before its finish leave the history and the tasks alone. */
  ghost predicate SameHistory(s: State, s': State) {
    && s'.trigger == s.trigger && s'.retain == s.retain && s'.thread == s.thread
    && s'.cut == s.cut && s'.version == s.version && s'.turns == s.turns && s'.covered == s.covered
    && s'.saved == s.saved
  }

  lemma SameHistoryKeepsTasks(s: State, s': State)
    requires Inv(s) && SameHistory(s, s')
    ensures CutAtTurnEnd(s') && forall task | TaskInv(s, task) :: TaskInv(s', task)
  {
    forall task | TaskInv(s, task) ensures TaskInv(s', task) {
      if task.thread == s.thread && task.version == s.version && task.Chosen? {
        var upTo: nat :| BatchFits(s, task.batch, upTo);
        assert BatchFits(s', task.batch, upTo);
      }
    }
  }

  lemma AddRunKeeps(s: State)
    requires Inv(s) && Enabled(s, AddRun)
    ensures Inv(Perform(s, AddRun))
  {
    var s' := Perform(s, AddRun);
    SameHistoryKeepsTasks(s, s');
    SameShownSameVisible(s.log, s.runs, s'.runs);
  }

  /** Rows of a run that has not succeeded show nothing. */
  lemma {:induction false} HiddenRows(log: seq<Entry>, run: nat, messages: seq<Message>, runs: map<nat, Status>)
    requires !Shown(runs, run)
    ensures Visible(log + Rows(run, messages), runs) == Visible(log, runs)
  {
    var all := log + Rows(run, messages);
    VisibleRows(all, |log|, run, runs);
    assert all[..|log|] == log;
  }

  lemma AppendUserKeeps(s: State, message: Message)
    requires Inv(s) && Enabled(s, AppendUser(message))
    ensures Inv(Perform(s, AppendUser(message)))
  {
    SameHistoryKeepsTasks(s, Perform(s, AppendUser(message)));
    HiddenRows(s.log, s.turn.phase.run, [message], s.runs);
  }

  lemma AnswerIsTurn(base: nat, log: seq<Entry>, batch: seq<Message>, run: nat)
    requires |log| == base + 1 && Opens(Stored(0, log[base].message)) && ResultBatch(batch)
    ensures CompleteTurn(Number(base, Messages((log + Rows(run, batch))[base..])))
  {
    var all := log + Rows(run, batch);
    var turn := Number(base, Messages(all[base..]));
    assert |turn| == 1 + |batch|;
    forall i | 0 < i < |turn| ensures turn[i].message == batch[i - 1] {
      assert all[base..][i] == all[base + i] == Entry(run, batch[i - 1]);
    }
  }

  lemma AppendResultTurn(s: State, batch: seq<Message>)
    requires TurnInv(s) && Enabled(s, AppendResult(batch))
    ensures TurnInv(Perform(s, AppendResult(batch)))
  {
    AnswerIsTurn(s.turn.phase.base, s.log, batch, s.turn.phase.run);
    hide CompleteTurn, Number, ResultBatch;
    var s' := Perform(s, AppendResult(batch));
    assert OwnRows(s', s.turn.phase.run, s.turn.phase.base);
  }

  lemma AppendResultKeeps(s: State, batch: seq<Message>)
    requires Inv(s) && Enabled(s, AppendResult(batch))
    ensures Inv(Perform(s, AppendResult(batch)))
  {
    hide TaskInv, CutAtTurnEnd, ResultBatch, Visible, CompleteTurn, Number, AllComplete;
    SameHistoryKeepsTasks(s, Perform(s, AppendResult(batch)));
    AppendResultTurn(s, batch);
    HiddenRows(s.log, s.turn.phase.run, batch, s.runs);
  }

  /** A row that does not succeed shows nothing new. */
  lemma FailedRowKeeps(s: State, s': State, run: nat, status: Status)
    requires Inv(s) && SameHistory(s, s') && !status.Succeeded?
    requires s'.log == s.log && s'.tasks == s.tasks && s'.nextRun == s.nextRun
             && s'.runs == FinishRow(s.runs, run, status)
    requires TurnInv(s')
    ensures Inv(s')
  {
    SameHistoryKeepsTasks(s, s');
    SameShownSameVisible(s.log, s.runs, s'.runs);
  }

  lemma FinishKeeps(s: State, reason: StopReason)
    requires Inv(s) && Enabled(s, Finish(reason))
    ensures Inv(Perform(s, Finish(reason)))
  {
    var s', run := Perform(s, Finish(reason)), s.turn.phase.run;
    if !reason.Completed? {
      FailedRowKeeps(s, s', run, StatusFor(reason));
    } else if run in s.runs && s.runs[run].Running? {
      SucceedKeeps(s);
    } else {
      SameHistoryKeepsTasks(s, s');
    }
  }

  /** A run that fails, is cancelled or is abandoned shows nothing, and neither
      does an answer that comes after its run was abandoned. */
  lemma FailureShowsNothing(s: State, step: Step)
    requires Inv(s) && Enabled(s, step)
    requires step.AbandonStale? || (step.Finish? && !Succeeds(s, step.reason))
    ensures Visible(Perform(s, step).log, Perform(s, step).runs) == Visible(s.log, s.runs)
    ensures Perform(s, step).turns == s.turns
  {
    SameShownSameVisible(s.log, s.runs, Perform(s, step).runs);
  }

  lemma FlattenLonger(turns: seq<seq<Stored>>, turn: seq<Stored>, at: nat)
    requires at <= |turns|
    ensures Flatten((turns + [turn])[at..]) == Flatten(turns[at..]) + turn
    ensures (turns + [turn])[..at] == turns[..at]
  {
    assert (turns + [turn])[at..] == turns[at..] + [turn];
    FlattenAppend(turns[at..], [turn]);
    FlattenSingle(turn);
  }

  /** Turns added at the end leave earlier cuts and batches as they were. */
  lemma LongerHistoryKeepsTask(s: State, s': State, turn: seq<Stored>, task: Task)
    requires s.covered <= |s.turns| && s' == s.(turns := s.turns + [turn], runs := s'.runs, turn := s'.turn)
    requires TaskInv(s, task)
    ensures TaskInv(s', task)
  {
    if task.thread == s.thread && task.version == s.version && task.Chosen? {
      var upTo: nat :| BatchFits(s, task.batch, upTo);
      FlattenLonger(s.turns, turn, upTo);
      assert s'.turns[s.covered..upTo] == s.turns[s.covered..upTo];
      assert BatchFits(s', task.batch, upTo);
    }
  }

  lemma LongerHistoryKeeps(s: State, s': State, turn: seq<Stored>)
    requires s.covered <= |s.turns| && CutAtTurnEnd(s)
             && s' == s.(turns := s.turns + [turn], runs := s'.runs, turn := s'.turn)
    ensures CutAtTurnEnd(s')
  {
    FlattenLonger(s.turns, turn, s.covered);
  }

  lemma SucceedShows(s: State)
    requires Inv(s) && Enabled(s, Finish(Completed)) && s.runs[s.turn.phase.run].Running?
    ensures HistoryIsTurns(Perform(s, Finish(Completed)))
  {
    hide CutAtTurnEnd, TaskInv, CompleteTurn, Number;
    var s', run, base := Perform(s, Finish(Completed)), s.turn.phase.run, s.turn.phase.base;
    VisibleRows(s.log, base, run, s.runs);
    VisibleRows(s.log, base, run, s'.runs);
    SameShownSameVisible(s.log[..base], s.runs, s'.runs);
    FlattenSingle(Answer(s));
    FlattenAppend(s.turns, [Answer(s)]);
  }

  lemma SucceedKeeps(s: State)
    requires Inv(s) && Enabled(s, Finish(Completed)) && s.runs[s.turn.phase.run].Running?
    ensures Inv(Perform(s, Finish(Completed)))
  {
    var s' := Perform(s, Finish(Completed));
    SucceedShows(s);
    LongerHistoryKeeps(s, s', Answer(s));
    forall k | 0 <= k < |s'.tasks| ensures TaskInv(s', s'.tasks[k]) {
      LongerHistoryKeepsTask(s, s', Answer(s), s.tasks[k]);
    }
    hide HistoryIsTurns, CutAtTurnEnd, TaskInv;
  }

  lemma AbandonKeeps(s: State, run: nat)
    requires Inv(s) && Enabled(s, AbandonStale(run))
    ensures Inv(Perform(s, AbandonStale(run)))
  {
    FailedRowKeeps(s, Perform(s, AbandonStale(run)), run, Abandoned);
  }

  lemma FewerTasksKeep(s: State, i: nat)
    requires Inv(s) && i < |s.tasks|
    ensures Inv(s.(tasks := Without(s.tasks, i)))
  {
    var s' := s.(tasks := Without(s.tasks, i));
    SameHistoryKeepsTasks(s, s');
    forall k | 0 <= k < |s'.tasks| ensures TaskInv(s', s'.tasks[k]) {
      assert TaskInv(s, s.tasks[if k < i then k else k + 1]);
    }
  }

  lemma DropKeeps(s: State, i: nat)
    requires Inv(s) && Enabled(s, DropTask(i))
    ensures Inv(Perform(s, DropTask(i)))
  {
    FewerTasksKeep(s, i);
  }

  /** What a task with the current version selects are the next whole turns. */
  lemma ChoiceFits(s: State, task: Task)
    requires Inv(s) && TaskInv(s, task) && task.thread == s.thread && task.version == s.version
    requires Selected(Pending(s, task), s.retain) != []
    ensures exists upTo: nat :: BatchFits(s, Selected(Pending(s, task), s.retain), upTo)
  {
    hide Visible, After, UpTo, Selected, SelectedTurns, TurnInv, CompleteTurn;
    var late := s.turns[s.covered..];
    CutSeparatesHistory(s);
    SelectionIsWholeTurns(late, 2 * s.trigger, s.retain);
    var count := SelectedTurns(late, 2 * s.trigger, s.retain);
    assert Flatten(late[..0]) == [];
    assert late[..count] == s.turns[s.covered..s.covered + count];
    assert late[count..] == s.turns[s.covered + count..];
    assert BatchFits(s, Selected(Pending(s, task), s.retain), s.covered + count);
  }

  lemma ChooseKeeps(s: State, i: nat)
    requires Inv(s) && Enabled(s, Choose(i))
    ensures Inv(Perform(s, Choose(i)))
  {
    var s', task := Perform(s, Choose(i)), s.tasks[i];
    var selected := Selected(Pending(s, task), s.retain);
    if |Pending(s, task)| < s.trigger || selected == [] {
      FewerTasksKeep(s, i);
    } else {
      if task.thread == s.thread && task.version == s.version {
        ChoiceFits(s, task);
      }
      assert TaskInv(s, Chosen(task.thread, task.cut, task.version, selected));
      SameHistoryKeepsTasks(s, s');
    }
  }

  /** The turns within the length of the first so many turns are those turns. */
  lemma {:induction false} WithinOwnLength(turns: seq<seq<Stored>>, count: nat)
    requires AllComplete(turns) && count <= |turns|
    ensures TurnsWithin(turns, |Flatten(turns[..count])|) == count
    decreases count
  {
    if count > 0 {
      FirstTurnOff(turns, count);
      WithinOwnLength(turns[1..], count - 1);
    } else {
      assert Flatten(turns[..0]) == [];
    }
  }

  /** A save that applies moves the cut over exactly its batch: whole turns,
      right after the old cut, with enough left behind. */
  lemma SaveMovesCut(s: State, i: nat)
    requires Inv(s) && Enabled(s, Save(i)) && SaveApplies(s, s.tasks[i])
    ensures
      var s' := Perform(s, Save(i));
      && s.covered < s'.covered <= |s.turns|
      && s.tasks[i].batch == Flatten(s.turns[s.covered..s'.covered])
      && CutAtTurnEnd(s')
  {
    var s', task := Perform(s, Save(i)), s.tasks[i];
    assert TaskInv(s, task);
    var upTo: nat :| BatchFits(s, task.batch, upTo);
    SavedReaches(s, task.batch, upTo);
    FlattenSingle(task.batch);
    FlattenAppend(s.saved, [task.batch]);
    hide Inv, TaskInv;
  }

  lemma SavedReaches(s: State, batch: seq<Stored>, upTo: nat)
    requires s.covered <= |s.turns| && AllComplete(s.turns) && BatchFits(s, batch, upTo)
    ensures CoveredAfter(s, batch) == upTo && EndOf(s.turns, upTo) == Through(batch)
    ensures Flatten(s.turns[..upTo]) == Flatten(s.turns[..s.covered]) + batch
  {
    var late := s.turns[s.covered..];
    assert late[..upTo - s.covered] == s.turns[s.covered..upTo];
    WithinOwnLength(late, upTo - s.covered);
    EndOfTurns(late, upTo - s.covered);
    FlattenSplit(s.turns[..upTo], s.covered);
    assert s.turns[..upTo][..s.covered] == s.turns[..s.covered]
      && s.turns[..upTo][s.covered..] == s.turns[s.covered..upTo];
  }

  lemma SaveKeeps(s: State, i: nat)
    requires Inv(s) && Enabled(s, Save(i))
    ensures Inv(Perform(s, Save(i)))
  {
    var s' := Perform(s, Save(i));
    assert TaskInv(s, s.tasks[i]);
    FewerTasksKeep(s, i);
    if SaveApplies(s, s.tasks[i]) {
      SaveMovesCut(s, i);
      forall k | 0 <= k < |s'.tasks| ensures TaskInv(s', s'.tasks[k]) {
        assert TaskInv(s, s.tasks[if k < i then k else k + 1]);
      }
    }
  }

  lemma StartSummaryKeeps(s: State)
    requires Inv(s) && Enabled(s, StartSummary)
    ensures Inv(Perform(s, StartSummary))
  {
    SameHistoryKeepsTasks(s, Perform(s, StartSummary));
  }

  /** Only the turn's own progress changed. */
  lemma SameRowsKeep(s: State, s': State)
    requires Inv(s) && SameHistory(s, s') && TurnInv(s')
    requires s'.log == s.log && s'.runs == s.runs && s'.nextRun == s.nextRun && s'.tasks == s.tasks
    ensures Inv(s')
  {
    SameHistoryKeepsTasks(s, s');
    hide TurnInv, CutAtTurnEnd, TaskInv, Visible, AllComplete, Flatten;
  }

  lemma LockKeeps(s: State, step: Step)
    requires (step.Load? || step.Release?) && Inv(s) && Enabled(s, step)
    ensures Inv(Perform(s, step))
  {
    hide Inv;
    SameRowsKeep(s, Perform(s, step));
  }

  lemma SelectModelKeeps(s: State)
    requires Inv(s) && Enabled(s, SelectModel)
    ensures Inv(Perform(s, SelectModel))
  {
    hide CompleteTurn, Number, BatchFits, Visible, AllComplete, Flatten;
  }

  lemma ClearKeeps(s: State)
    requires Inv(s) && Enabled(s, Clear)
    ensures Inv(Perform(s, Clear))
  {
    var s' := Perform(s, Clear);
    forall i | 0 <= i < |s'.tasks| ensures TaskInv(s', s'.tasks[i]) {
      assert TaskInv(s, s.tasks[i]);
    }
    hide TurnInv, TaskInv;
  }

  lemma StepKeepsInv(s: State, step: Step)
    requires Inv(s) && Enabled(s, step)
    ensures Inv(Perform(s, step))
  {
    hide Inv, Perform;
    match step
    case Load => LockKeeps(s, step);
    case AddRun => AddRunKeeps(s);
    case AppendUser(message) => AppendUserKeeps(s, message);
    case AppendResult(batch) => AppendResultKeeps(s, batch);
    case Finish(reason) => FinishKeeps(s, reason);
    case StartSummary => StartSummaryKeeps(s);
    case Release => LockKeeps(s, step);
    case AbandonStale(run) => AbandonKeeps(s, run);
    case Choose(i) => ChooseKeeps(s, i);
    case Save(i) => SaveKeeps(s, i);
    case DropTask(i) => DropKeeps(s, i);
    case SelectModel => SelectModelKeeps(s);
    case Clear => ClearKeeps(s);
  }

  // ---- whole runs ----

  ghost predicate IsRun(states: seq<State>, steps: seq<Step>) {
    && |states| == |steps| + 1
    && forall i {:trigger steps[i]} | 0 <= i < |steps| ::
         Enabled(states[i], steps[i]) && states[i + 1] == Perform(states[i], steps[i])
  }

  lemma {:induction false} RunKeepsInv(states: seq<State>, steps: seq<Step>)
    requires IsRun(states, steps) && Inv(states[0])
    ensures Inv(states[|steps|])
    decreases |steps|
  {
    if steps != [] {
      RunKeepsInv(states[..|steps|], steps[..|steps| - 1]);
      StepKeepsInv(states[|steps| - 1], steps[|steps| - 1]);
    }
  }

  /** What holds of a thread whatever failed, was cancelled or was abandoned:
      the visible history is a list of complete turns, the cut falls at the end
      of one, and the saved batches are exactly the visible messages up to it. */
  ghost predicate NothingLost(s: State, turns: seq<seq<Stored>>, count: nat) {
    var visible := Visible(s.log, s.runs);
    && visible == Flatten(turns) && AllComplete(turns)
    && count <= |turns| && s.cut == EndOf(turns, count)
    && Flatten(s.saved) == UpTo(visible, s.cut) == Flatten(turns[..count])
    && visible == Flatten(s.saved) + After(visible, s.cut)
    && (s.saved != [] ==> |After(visible, s.cut)| >= s.retain)
  }

  lemma InvLosesNothing(s: State)
    requires Inv(s)
    ensures NothingLost(s, s.turns, s.covered)
  {
    CutSeparatesHistory(s);
    FlattenSplit(s.turns, s.covered);
  }

  lemma SummariesLoseNothing(trigger: nat, retain: nat, states: seq<State>, steps: seq<Step>)
    requires IsRun(states, steps) && states[0] == Start(trigger, retain)
    ensures exists turns, count: nat :: NothingLost(states[|steps|], turns, count)
  {
    RunKeepsInv(states, steps);
    InvLosesNothing(states[|steps|]);
  }

  lemma SaveLeavesEnough(s: State)
    requires s.covered <= |s.turns| && CutAtTurnEnd(s) && s.saved != []
    ensures |Flatten(s.turns[s.covered..])| >= s.retain
  {
  }

  lemma TurnsBetween(turns: seq<seq<Stored>>, from: nat, upTo: nat)
    requires from <= upTo <= |turns|
    ensures Flatten(turns[from..]) == Flatten(turns[from..upTo]) + Flatten(turns[upTo..])
  {
    FlattenSplit(turns[from..], upTo - from);
    assert turns[from..][..upTo - from] == turns[from..upTo] && turns[from..][upTo - from..] == turns[upTo..];
  }

  /** A save that applies takes a contiguous run of visible messages right
      after the old cut and leaves the retained number behind. */
  lemma SaveTakesTheNextMessages(s: State, i: nat)
    requires Inv(s) && Enabled(s, Save(i)) && SaveApplies(s, s.tasks[i])
    ensures
      var s', visible := Perform(s, Save(i)), Visible(s.log, s.runs);
      && s'.saved == s.saved + [s.tasks[i].batch]
      && Visible(s'.log, s'.runs) == visible
      && After(visible, s.cut) == s.tasks[i].batch + After(visible, s'.cut)
      && |After(visible, s'.cut)| >= s.retain
  {
    hide TaskInv, CutAtTurnEnd, Visible, After, UpTo, AllComplete, TurnInv, Flatten, RunsKnown;
    var s' := Perform(s, Save(i));
    SaveMovesCut(s, i);
    CutSeparatesHistory(s);
    CutSeparatesHistory(s');
    SaveLeavesEnough(s');
    TurnsBetween(s.turns, s.covered, s'.covered);
  }

  /** A summary computed from a row that changed meanwhile saves nothing. */
  lemma StaleSummarySavesNothing(s: State, i: nat)
    requires Inv(s) && Enabled(s, Save(i)) && (s.tasks[i].thread != s.thread || s.tasks[i].version != s.version)
    ensures Perform(s, Save(i)) == s.(tasks := Without(s.tasks, i))
  {
  }

  /** No step takes back a visible message, except clearing the thread. */
  lemma HistoryOnlyGrows(s: State, step: Step)
    requires Inv(s) && Enabled(s, step) && !step.Clear?
    ensures Visible(s.log, s.runs) <= Visible(Perform(s, step).log, Perform(s, step).runs)
  {
    hide CutAtTurnEnd, TaskInv, TurnInv, Visible, AllComplete;
    StepKeepsInv(s, step);
    var s' := Perform(s, step);
    assert HistoryIsTurns(s) && HistoryIsTurns(s') && s.turns <= s'.turns;
    hide Inv, Perform, Enabled;
    FlattenSplit(s'.turns, |s.turns|);
    assert s'.turns[..|s.turns|] == s.turns;
  }

  /** A task goes on to a summary only when the trigger number of messages is
      visible behind its cut. */
  lemma SummaryOnlyWhenDue(s: State, i: nat)
    requires Enabled(s, Choose(i)) && i < |Perform(s, Choose(i)).tasks| && |Perform(s, Choose(i)).tasks| == |s.tasks|
    ensures s.tasks[i].thread == s.thread || s.trigger == 0
    ensures s.tasks[i].thread == s.thread ==> |After(Visible(s.log, s.runs), s.tasks[i].cut)| >= s.trigger
  {
  }
}
