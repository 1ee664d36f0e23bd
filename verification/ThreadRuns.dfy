/** What whole runs of a conversation thread say about single rows: how a run
    ended, what an answer shows, and which summaries come too late. */
module ThreadRuns {
  import opened Common
  import opened SummarySelection
  import opened AgentThread

  // ---- how a run ended ----

  /** Every other reason to stop. */
  const FAILURES: set<StopReason> :=
    {Timeout, ModelRequestLimit, ToolCallLimit, TokenLimit, ToolDenied, ProviderError, ToolError, InvalidOutput}

  /** The step ends a running run with this status. */
  ghost predicate EndsRun(s: State, step: Step, run: nat, status: Status) {
    && run in s.runs && s.runs[run].Running?
    && ((step == AbandonStale(run) && status.Abandoned?)
        || (step.Finish? && s.turn.Turn? && !s.turn.phase.Loaded? && s.turn.phase.run == run
            && match step.reason
               case Completed => status.Succeeded?
               case UserCancelled => status.Cancelled?
               case StaleRunAbandoned => status.Abandoned?
               case _ => step.reason in FAILURES && status.Failed?))
  }

  lemma OtherReasonsFail(reason: StopReason)
    ensures reason.Completed? || reason.UserCancelled? || reason.StaleRunAbandoned? || reason in FAILURES
  {
  }

  /** A run is new and running, or keeps its status, or is ended by this step. */
  lemma StepEnds(s: State, step: Step, run: nat)
    requires Enabled(s, step) && run in Perform(s, step).runs
    ensures
      var status := Perform(s, step).runs[run];
      || (run in s.runs && status == s.runs[run])
      || (status.Running? && step.AddRun? && run == s.nextRun)
      || EndsRun(s, step, run, status)
  {
    hide Answer, Selected, Pending, SaveApplies, Without, CoveredAfter, Rows, ResultBatch;
    if step.Finish? {
      OtherReasonsFail(step.reason);
    }
  }

  /** Once ended, a run keeps its status, whatever finishes or abandons it again. */
  lemma EndedKeepsStatus(s: State, step: Step, run: nat)
    requires Inv(s) && Enabled(s, step) && !step.Clear?
    requires run in s.runs && !s.runs[run].Running?
    ensures run in Perform(s, step).runs && Perform(s, step).runs[run] == s.runs[run]
  {
    assert run < s.nextRun;
    hide Inv, Answer, Selected, Pending, SaveApplies, Without, CoveredAfter, Rows, ResultBatch;
  }

  ghost predicate EndedBy(states: seq<State>, steps: seq<Step>, run: nat, status: Status)
    requires |states| == |steps| + 1
  {
    exists k {:trigger steps[k]} :: 0 <= k < |steps| && EndsRun(states[k], steps[k], run, status)
  }

  lemma EndedBefore(states: seq<State>, steps: seq<Step>, run: nat, status: Status)
    requires |states| == |steps| + 1 && steps != []
    ensures EndedBy(states[..|steps|], steps[..|steps| - 1], run, status) ==> EndedBy(states, steps, run, status)
    ensures EndsRun(states[|steps| - 1], steps[|steps| - 1], run, status) ==> EndedBy(states, steps, run, status)
  {
    hide EndsRun;
    var n := |steps| - 1;
    if EndedBy(states[..|steps|], steps[..n], run, status) {
      var k :| 0 <= k < n && EndsRun(states[..|steps|][k], steps[..n][k], run, status);
      assert steps[k] == steps[..n][k];
    }
  }

  /** In every run of the thread a row that is not running was ended by one step,
      and its status is the one of that step's stop reason. */
  lemma {:induction false} StatusTellsReason(trigger: nat, retain: nat, states: seq<State>, steps: seq<Step>, run: nat)
    requires IsRun(states, steps) && states[0] == Start(trigger, retain)
    requires run in states[|steps|].runs && !states[|steps|].runs[run].Running?
    ensures EndedBy(states, steps, run, states[|steps|].runs[run])
    decreases |steps|
  {
    hide Enabled, Perform, EndsRun, EndedBy;
    if steps != [] {
      var n := |steps| - 1;
      var status := states[|steps|].runs[run];
      StepEnds(states[n], steps[n], run);
      EndedBefore(states, steps, run, status);
      if run in states[n].runs && states[n].runs[run] == status {
        StatusTellsReason(trigger, retain, states[..|steps|], steps[..n], run);
      }
    }
  }

  // ---- what an answer shows ----

  /** The messages that a step stores for the turn under way. */
  function SaidBy(step: Step): seq<Message> {
    match step
    case AppendUser(message) => [message]
    case AppendResult(batch) => batch
    case _ => []
  }

  /** The messages that the steps stored, in order. */
  function Said(steps: seq<Step>): seq<Message> {
    if steps == [] then [] else Said(steps[..|steps| - 1]) + SaidBy(steps[|steps| - 1])
  }

  /** The turn is between its question and its finish, and these rows are its own. */
  ghost predicate Saying(s: State, base: nat, said: seq<Message>) {
    && s.turn.Turn?
    && (s.turn.phase.Asked? || s.turn.phase.Answered?) && s.turn.phase.base == base
    && base <= |s.log| && Messages(s.log[base..]) == said
  }

  ghost predicate Over(s: State) {
    s.turn.Turn? ==> s.turn.phase.Ended?
  }

  lemma MoreRows(log: seq<Entry>, base: nat, run: nat, messages: seq<Message>)
    requires base <= |log|
    ensures Messages((log + Rows(run, messages))[base..]) == Messages(log[base..]) + messages
  {
  }

  lemma SayingStep(s: State, step: Step, base: nat, said: seq<Message>)
    requires Saying(s, base, said) && Enabled(s, step) && !step.Load? && !step.Clear?
    ensures Over(Perform(s, step)) || Saying(Perform(s, step), base, said + SaidBy(step))
  {
    hide Answer, Selected, Pending, SaveApplies, Without, CoveredAfter, Rows, ResultBatch, Messages;
    if step.AppendResult? {
      MoreRows(s.log, base, s.turn.phase.run, step.batch);
    } else {
      assert !step.AppendUser? && said + [] == said;
    }
  }

  lemma OverStep(s: State, step: Step)
    requires Over(s) && Enabled(s, step) && !step.Load?
    ensures Over(Perform(s, step))
  {
    hide Answer, Selected, Pending, SaveApplies, Without, CoveredAfter, Rows, ResultBatch;
  }

  /** From a question on, with no other turn and no clear between. */
  ghost predicate OneTurn(steps: seq<Step>) {
    && steps != [] && steps[0].AppendUser?
    && forall i | 0 <= i < |steps| :: !steps[i].Load? && !steps[i].Clear?
  }

  lemma {:induction false} TurnSays(states: seq<State>, steps: seq<Step>)
    requires IsRun(states, steps) && OneTurn(steps)
    ensures Over(states[|steps|]) || Saying(states[|steps|], |states[0].log|, Said(steps))
    decreases |steps|
  {
    hide Enabled, Perform, Over, Saying, SaidBy;
    var n := |steps| - 1;
    if n == 0 {
      QuestionSays(states[0], steps[0]);
      assert Said(steps[..0]) == [];
      assert [] + SaidBy(steps[0]) == SaidBy(steps[0]);
    } else {
      TurnSays(states[..|steps|], steps[..n]);
      if Over(states[n]) {
        OverStep(states[n], steps[n]);
      } else {
        SayingStep(states[n], steps[n], |states[0].log|, Said(steps[..n]));
      }
    }
  }

  lemma QuestionSays(s: State, step: Step)
    requires Enabled(s, step) && step.AppendUser?
    ensures Saying(Perform(s, step), |s.log|, SaidBy(step))
  {
    hide Messages, Rows;
    MoreRows(s.log, |s.log|, s.turn.phase.run, [step.message]);
    NoMessages(s.log);
  }

  lemma NoMessages(log: seq<Entry>)
    ensures Messages(log[|log|..]) == []
  {
  }

  lemma SuccessShowsAnswer(s: State)
    requires Inv(s) && Enabled(s, Finish(Completed)) && Succeeds(s, Completed)
    ensures
      var s' := Perform(s, Finish(Completed));
      Visible(s'.log, s'.runs) == Visible(s.log, s.runs) + Answer(s)
  {
    SucceedShows(s);
    var s' := Perform(s, Finish(Completed));
    assert HistoryIsTurns(s) && HistoryIsTurns(s') && s'.turns == s.turns + [Answer(s)];
    hide Inv, Visible, Answer, Flatten, AllComplete, Perform;
    FlattenAppend(s.turns, [Answer(s)]);
    FlattenSingle(Answer(s));
  }

  lemma AnswerIsSaid(s: State, base: nat, said: seq<Message>)
    requires Saying(s, base, said) && s.turn.phase.Answered?
    ensures Answer(s) == Number(base, said)
  {
  }

  /** A run that succeeds shows exactly the question and the answer that were
      stored for it, numbered on from the rows that were there before. */
  lemma {:induction false} AnswerShowsWhatWasSaid(states: seq<State>, steps: seq<Step>)
    requires IsRun(states, steps) && OneTurn(steps) && Inv(states[0])
    requires Enabled(states[|steps|], Finish(Completed)) && Succeeds(states[|steps|], Completed)
    ensures
      var s := states[|steps|];
      var s' := Perform(s, Finish(Completed));
      Visible(s'.log, s'.runs) == Visible(s.log, s.runs) + Number(|states[0].log|, Said(steps))
  {
    hide Inv, Visible, Number, Messages, Said, Answer, Perform, OneTurn;
    TurnSays(states, steps);
    RunKeepsInv(states, steps);
    SuccessShowsAnswer(states[|steps|]);
    hide IsRun;
    AnswerIsSaid(states[|steps|], |states[0].log|, Said(steps));
  }

  // ---- summaries that come too late ----

  /** The row changed after somebody read it. */
  ghost predicate Overtaken(s: State, thread: nat, version: nat) {
    thread < s.thread || (thread == s.thread && version < s.version)
  }

  /** The step changes the row: another model, a saved summary, or a cleared thread. */
  ghost predicate ChangesRow(s: State, step: Step)
    requires Enabled(s, step)
  {
    step.SelectModel? || step.Clear? || (step.Save? && SaveApplies(s, s.tasks[step.task]))
  }

  lemma ChangeOvertakes(s: State, step: Step)
    requires Enabled(s, step) && ChangesRow(s, step)
    ensures Overtaken(Perform(s, step), s.thread, s.version)
  {
    hide CoveredAfter, Without;
  }

  lemma OvertakenStep(s: State, step: Step, thread: nat, version: nat)
    requires Enabled(s, step) && Overtaken(s, thread, version)
    ensures Overtaken(Perform(s, step), thread, version)
  {
    hide Answer, Selected, Pending, SaveApplies, Without, CoveredAfter, Rows, ResultBatch;
  }

  lemma {:induction false} OvertakenStays(states: seq<State>, steps: seq<Step>, thread: nat, version: nat)
    requires IsRun(states, steps) && Overtaken(states[0], thread, version)
    ensures Overtaken(states[|steps|], thread, version)
    decreases |steps|
  {
    hide Enabled, Perform, Overtaken;
    if steps != [] {
      var n := |steps| - 1;
      OvertakenStays(states[..|steps|], steps[..n], thread, version);
      OvertakenStep(states[n], steps[n], thread, version);
    }
  }

  /** A task read the row no later than this. */
  predicate ReadBy(task: Task, thread: nat, version: nat) {
    task.thread < thread || (task.thread == thread && task.version <= version)
  }

  /** Once the row changes, no summary of anybody who read it before is saved
      any more, however much later it comes. */
  lemma {:induction false} LateSummarySavesNothing(states: seq<State>, steps: seq<Step>, i: nat)
    requires IsRun(states, steps) && steps != [] && ChangesRow(states[0], steps[0])
    requires Enabled(states[|steps|], Save(i))
    requires ReadBy(states[|steps|].tasks[i], states[0].thread, states[0].version)
    ensures
      var s := states[|steps|];
      Perform(s, Save(i)) == s.(tasks := Without(s.tasks, i))
  {
    var task := states[|steps|].tasks[i];
    ChangeOvertakes(states[0], steps[0]);
    var later, rest := states[1..], steps[1..];
    forall k {:trigger rest[k]} | 0 <= k < |rest|
      ensures Enabled(later[k], rest[k]) && later[k + 1] == Perform(later[k], rest[k])
    {
      assert rest[k] == steps[k + 1];
    }
    OvertakenStays(later, rest, states[0].thread, states[0].version);
    assert later[|rest|] == states[|steps|];
  }

  /** The turn still holds the row as it read it. */
  ghost predicate HoldsRow(s: State, thread: nat, cut: nat, version: nat) {
    s.thread == thread && (s.turn.Turn? ==> s.turn.cut == cut && s.turn.version == version)
  }

  lemma HoldsRowStep(s: State, step: Step, thread: nat, cut: nat, version: nat)
    requires Enabled(s, step) && HoldsRow(s, thread, cut, version) && !step.Load? && !step.Clear?
    ensures HoldsRow(Perform(s, step), thread, cut, version)
  {
    hide Answer, Selected, Pending, SaveApplies, Without, CoveredAfter, Rows, ResultBatch;
  }

  /** A summary begins with the row as its turn read it, whatever changed since. */
  lemma {:induction false} SummaryReadsRowOfLoad(states: seq<State>, steps: seq<Step>)
    requires IsRun(states, steps) && steps != [] && steps[0].Load?
    requires forall i | 0 < i < |steps| :: !steps[i].Load? && !steps[i].Clear?
    ensures HoldsRow(states[|steps|], states[0].thread, states[0].cut, states[0].version)
    ensures Enabled(states[|steps|], StartSummary) ==>
              Perform(states[|steps|], StartSummary).tasks
              == states[|steps|].tasks + [Waiting(states[0].thread, states[0].cut, states[0].version)]
    decreases |steps|
  {
    var n := |steps| - 1;
    if n > 0 {
      SummaryReadsRowOfLoad(states[..|steps|], steps[..n]);
      HoldsRowStep(states[n], steps[n], states[0].thread, states[0].cut, states[0].version);
    }
  }

  // ---- tasks are left alone ----

  /** The task that a step names. */
  function Named(step: Step): Option<nat> {
    match step
    case Choose(i) => Some(i)
    case Save(i) => Some(i)
    case DropTask(i) => Some(i)
    case _ => None
  }

  /** No step, not even a clear, touches a background task but the one it names. */
  lemma OtherTasksStay(s: State, step: Step)
    requires Enabled(s, step)
    ensures
      var before, after := s.tasks, Perform(s, step).tasks;
      match Named(step)
      case None => before <= after && |after| == |before| + (if step.StartSummary? then 1 else 0)
      case Some(i) =>
        && i < |before|
        && (after == Without(before, i)
            || (step.Choose? && |after| == |before| && after[i].Chosen? && after == before[i := after[i]]))
  {
    hide Answer, Selected, Pending, SaveApplies, CoveredAfter, Rows, ResultBatch;
  }
}
