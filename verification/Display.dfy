/** The agent-loop display: progress events reduced to what a user sees. */
module Display {
  import opened Common

  datatype Phase =
    | Created | Accepted | MediaLoading | Thinking | Retrying | ToolRunning | Drafting | Succeeded | Failed | Cancelled

  datatype StepStatus = Running | Done | Broken

  datatype ToolStep = ToolStep(
    callId: string, toolName: string, displayName: string, status: StepStatus,
    subject: string, summary: string, items: seq<string>, preview: seq<string>, updatedRevision: nat)

  datatype Metrics = Metrics(
    elapsed: Option<real>, inputTokens: Option<int>, outputTokens: Option<int>, modelRequests: Option<int>,
    toolCalls: Option<int>, imageCount: Option<int>, imageBytes: Option<int>)

  datatype Retry = Retry(attempt: Option<int>, maxAttempts: Option<int>, delay: Option<real>, reason: string)

  const NO_METRICS: Metrics := Metrics(None, None, None, None, None, None, None)
  const NO_RETRY: Retry := Retry(None, None, None, "")

  datatype View = View(
    phase: Phase, steps: seq<ToolStep>, draft: string, finalText: string, terminalMessage: string, metrics: Metrics,
    completed: nat, failed: nat, retries: nat, retry: Retry, terminal: bool, revision: nat, seen: set<string>)

  datatype EventKind =
    | Accept | LoadMedia | MediaReady | Think | ModelRetry | TextReset | TextDelta
    | ToolStarted | ToolUpdated | ToolSucceeded | ToolFailed | Complete | Fail | Cancel

  datatype Event = Event(
    kind: EventKind, id: string, callId: string, toolName: string, displayName: string,
    subject: string, summary: string, items: seq<string>, preview: seq<string>,
    text: string, metrics: Metrics, retry: Retry)

  function Initial(): View {
    View(Created, [], "", "", "", NO_METRICS, 0, 0, 0, NO_RETRY, false, 0, {})
  }

  // ---- tool steps ----

  predicate HasRunning(steps: seq<ToolStep>) {
    exists i :: 0 <= i < |steps| && steps[i].status.Running?
  }

  function Count(steps: seq<ToolStep>, status: StepStatus): nat {
    if steps == [] then 0
    else Count(steps[..|steps| - 1], status) + (if steps[|steps| - 1].status == status then 1 else 0)
  }

  /** The first step of a call, or the number of steps. */
  function Find(steps: seq<ToolStep>, callId: string): (at: nat)
    ensures at <= |steps|
    ensures at < |steps| ==> steps[at].callId == callId
    ensures forall i | 0 <= i < at :: steps[i].callId != callId
  {
    if steps == [] then 0
    else
      var at := Find(steps[..|steps| - 1], callId);
      if at < |steps| - 1 || steps[|steps| - 1].callId == callId then at else |steps|
  }

  function Or<T(==)>(first: seq<T>, second: seq<T>): seq<T> {
    if first != [] then first else second
  }

  /** What an event makes of a step it already knows, its revision untouched. */
  function Merged(current: ToolStep, event: Event, status: StepStatus): ToolStep {
    ToolStep(event.callId, event.toolName, event.displayName, status,
             Or(event.subject, current.subject), Or(event.summary, current.summary),
             if status.Broken? then [] else Or(event.items, current.items),
             if status.Broken? then [] else Or(event.preview, current.preview),
             current.updatedRevision)
  }

  function NewStep(event: Event, status: StepStatus, revision: nat): ToolStep {
    ToolStep(event.callId, event.toolName, event.displayName, status,
             event.subject, event.summary, event.items, event.preview, revision)
  }

  function StepsWith(view: View, event: Event, status: StepStatus): seq<ToolStep> {
    var at := Find(view.steps, event.callId);
    if at == |view.steps| then view.steps + [NewStep(event, status, view.revision + 1)]
    else view.steps[at := Merged(view.steps[at], event, status).(updatedRevision := view.revision + 1)]
  }

  /** A step that an event would leave as it is. */
  predicate Unchanged(view: View, event: Event, status: StepStatus) {
    var at := Find(view.steps, event.callId);
    at < |view.steps| && Merged(view.steps[at], event, status) == view.steps[at]
  }

  function Recount(view: View, steps: seq<ToolStep>): View {
    view.(phase := if HasRunning(steps) then ToolRunning else Thinking, steps := steps, draft := "",
          completed := Count(steps, Done), failed := Count(steps, Broken))
  }

  function WithTool(view: View, event: Event, status: StepStatus): View {
    if Unchanged(view, event, status) then view else Recount(view, StepsWith(view, event, status))
  }

  /** The loop over the step list. */
  method UpdateTool(view: View, event: Event, status: StepStatus) returns (updated: View)
    ensures updated == WithTool(view, event, status)
  {
    hide Recount;
    var steps := view.steps;
    var found := false;
    for index := 0 to |view.steps|
      invariant !found && steps == view.steps
      invariant forall i | 0 <= i < index :: view.steps[i].callId != event.callId
    {
      var current := steps[index];
      if current.callId == event.callId {
        var step := ToolStep(event.callId, event.toolName, event.displayName, status,
                             if event.subject != "" then event.subject else current.subject,
                             if event.summary != "" then event.summary else current.summary,
                             if status.Broken? then [] else if event.items != [] then event.items else current.items,
                             if status.Broken? then [] else if event.preview != [] then event.preview
                               else current.preview,
                             current.updatedRevision);
        if current == step {
          return view;
        }
        steps := steps[index := step.(updatedRevision := view.revision + 1)];
        found := true;
        break;
      }
    }
    if !found {
      steps := steps + [NewStep(event, status, view.revision + 1)];
    }
    updated := Recount(view, steps);
  }

  // ---- reduction ----

  function Transition(view: View, event: Event): View {
    match event.kind
    case Accept => view.(phase := Accepted)
    case LoadMedia => view.(phase := MediaLoading)
    case MediaReady => view.(phase := Thinking)
    case Think => view.(phase := if HasRunning(view.steps) then ToolRunning else Thinking, retry := NO_RETRY)
    case ModelRetry => view.(phase := Retrying, draft := "", retries := view.retries + 1, retry := event.retry)
    case TextReset => view.(phase := Drafting, draft := "")
    case TextDelta => view.(phase := Drafting, draft := view.draft + event.text)
    case ToolStarted => WithTool(view, event, Running)
    case ToolUpdated =>
      var at := Find(view.steps, event.callId);
      if at < |view.steps| && !view.steps[at].status.Running? then view else WithTool(view, event, Running)
    case ToolSucceeded => WithTool(view, event, Done)
    case ToolFailed => WithTool(view, event, Broken)
    case Complete => view.(phase := Succeeded, draft := "", finalText := event.text, metrics := event.metrics,
                           terminal := true)
    case Fail => view.(phase := Failed, draft := "", terminalMessage := event.text, terminal := true)
    case Cancel => view.(phase := Cancelled, draft := "", terminal := true)
  }

  predicate Skipped(view: View, event: Event) {
    view.terminal || (event.id != "" && event.id in view.seen)
  }

  function SeenAfter(view: View, event: Event): set<string> {
    if event.id != "" then view.seen + {event.id} else view.seen
  }

  function Apply(view: View, event: Event): View {
    if Skipped(view, event) then view
    else
      var seen := SeenAfter(view, event);
      var candidate := Transition(view, event).(seen := seen);
      if candidate == view.(seen := seen) then candidate else candidate.(revision := view.revision + 1)
  }

  function Fold(events: seq<Event>): View {
    if events == [] then Initial() else Apply(Fold(events[..|events| - 1]), events[|events| - 1])
  }

  // ---- invariant over whole event sequences ----

  ghost predicate Inv(view: View) {
    && (forall i, j | 0 <= i < j < |view.steps| :: view.steps[i].callId != view.steps[j].callId)
    && (forall i, j | 0 <= i < j < |view.steps| :: view.steps[i].updatedRevision != view.steps[j].updatedRevision)
    && (forall i | 0 <= i < |view.steps| :: 0 < view.steps[i].updatedRevision <= view.revision)
    && view.completed == Count(view.steps, Done)
    && view.failed == Count(view.steps, Broken)
    && (view.phase.ToolRunning? ==> HasRunning(view.steps))
    && (view.terminal <==> view.phase.Succeeded? || view.phase.Failed? || view.phase.Cancelled?)
  }

  lemma WithToolKeeps(view: View, event: Event, status: StepStatus)
    requires Inv(view) && !Unchanged(view, event, status) && !view.terminal
    ensures Inv(WithTool(view, event, status).(revision := view.revision + 1))
  {
    hide Merged, Count, HasRunning;
    var at := Find(view.steps, event.callId);
    if at < |view.steps| {
      MergedKeepsCall(view.steps[at], event, status);
    }
  }

  lemma MergedKeepsCall(current: ToolStep, event: Event, status: StepStatus)
    ensures Merged(current, event, status).callId == event.callId
  {
  }

  /** Only a tool event changes steps or counters, and its change is never lost. */
  lemma WithToolChanges(view: View, event: Event, status: StepStatus, seen: set<string>)
    requires Inv(view) && !Unchanged(view, event, status)
    ensures WithTool(view, event, status).(seen := seen) != view.(seen := seen)
  {
    var at, steps := Find(view.steps, event.callId), StepsWith(view, event, status);
    if at < |view.steps| {
      assert steps[at].updatedRevision == view.revision + 1;
    }
  }

  predicate IsTool(kind: EventKind) {
    kind.ToolStarted? || kind.ToolUpdated? || kind.ToolSucceeded? || kind.ToolFailed?
  }

  function StatusOf(kind: EventKind): StepStatus {
    if kind.ToolSucceeded? then Done else if kind.ToolFailed? then Broken else Running
  }

  /** A tool event either only remembers its id or applies the changed steps. */
  lemma ToolApplied(view: View, event: Event)
    requires Inv(view) && IsTool(event.kind) && !Skipped(view, event)
    ensures
      var status, seen := StatusOf(event.kind), SeenAfter(view, event);
      || Apply(view, event) == view.(seen := seen)
      || (!Unchanged(view, event, status)
          && Apply(view, event) == WithTool(view, event, status).(seen := seen, revision := view.revision + 1))
  {
    hide Inv, HasRunning, Count, StepsWith, Merged, Recount;
    var status, seen := StatusOf(event.kind), SeenAfter(view, event);
    if !Unchanged(view, event, status) {
      WithToolChanges(view, event, status, seen);
    }
  }

  lemma ToolKeeps(view: View, event: Event)
    requires Inv(view) && IsTool(event.kind)
    ensures Inv(Apply(view, event))
  {
    hide Transition, WithTool, Unchanged, Count, HasRunning;
    if Skipped(view, event) {
      assert Apply(view, event) == view;
    } else {
      hide Apply;
      ToolApplied(view, event);
      if Apply(view, event) != view.(seen := SeenAfter(view, event)) {
        WithToolKeeps(view, event, StatusOf(event.kind));
      }
    }
  }

  lemma ApplyKeeps(view: View, event: Event)
    requires Inv(view)
    ensures Inv(Apply(view, event))
  {
    hide Count, WithTool, HasRunning;
    if IsTool(event.kind) {
      hide Inv, Apply;
      ToolKeeps(view, event);
    }
  }

  /** After any sequence of events: call ids are distinct, the counters are the
      step counts, a tool-running phase has a running step, and step revisions
      are pairwise distinct and at most the revision. */
  lemma {:induction false} EverySequenceKeepsInv(events: seq<Event>)
    ensures Inv(Fold(events))
  {
    if events != [] {
      EverySequenceKeepsInv(events[..|events| - 1]);
      ApplyKeeps(Fold(events[..|events| - 1]), events[|events| - 1]);
    }
  }

  // ---- repeats ----

  /** Is the n-th event a repeat of an earlier non-empty id? */
  predicate Repeat(events: seq<Event>, n: nat)
    requires n < |events|
  {
    events[n].id != "" && exists i :: 0 <= i < n && events[i].id == events[n].id
  }

  function WithoutRepeats(events: seq<Event>): seq<Event> {
    if events == [] then []
    else
      var n := |events| - 1;
      WithoutRepeats(events[..n]) + (if Repeat(events, n) then [] else [events[n]])
  }

  predicate Ends(kind: EventKind) { kind.Complete? || kind.Fail? || kind.Cancel? }

  /** The sequence holds an end that is no repeat. */
  predicate Ended(events: seq<Event>) {
    exists i :: 0 <= i < |events| && Ends(events[i].kind) && !Repeat(events, i)
  }

  predicate HasId(events: seq<Event>, id: string) {
    exists i :: 0 <= i < |events| && events[i].id == id
  }

  lemma HasIdAppend(events: seq<Event>, id: string)
    requires events != []
    ensures HasId(events, id) <==> HasId(events[..|events| - 1], id) || events[|events| - 1].id == id
  {
    var n := |events| - 1;
    if HasId(events, id) {
      var i :| 0 <= i < |events| && events[i].id == id;
      assert i < n ==> events[..n][i].id == id;
    }
    if HasId(events[..n], id) {
      var i :| 0 <= i < n && events[..n][i].id == id;
      assert events[i].id == id;
    }
  }

  lemma RepeatBefore(events: seq<Event>, i: nat)
    requires i < |events| - 1
    ensures Repeat(events[..|events| - 1], i) <==> Repeat(events, i)
  {
    var fewer := events[..|events| - 1];
    assert forall j | 0 <= j <= i :: fewer[j] == events[j];
  }

  lemma RepeatIsHasId(events: seq<Event>)
    requires events != []
    ensures Repeat(events, |events| - 1) <==>
            events[|events| - 1].id != "" && HasId(events[..|events| - 1], events[|events| - 1].id)
  {
    var n := |events| - 1;
    assert forall j | 0 <= j < n :: events[..n][j] == events[j];
    if HasId(events[..n], events[n].id) {
      var i :| 0 <= i < n && events[..n][i].id == events[n].id;
      assert events[i].id == events[n].id;
    }
  }

  lemma EndedAppend(events: seq<Event>)
    requires events != []
    ensures Ended(events) <==>
            Ended(events[..|events| - 1]) || (Ends(events[|events| - 1].kind) && !Repeat(events, |events| - 1))
  {
    var n := |events| - 1;
    if Ended(events) {
      var i :| 0 <= i < |events| && Ends(events[i].kind) && !Repeat(events, i);
      if i < n {
        RepeatBefore(events, i);
        assert Ends(events[..n][i].kind);
      }
    }
    if Ended(events[..n]) {
      var i :| 0 <= i < n && Ends(events[..n][i].kind) && !Repeat(events[..n], i);
      RepeatBefore(events, i);
      assert Ends(events[i].kind);
    }
  }

  lemma ApplyTerminal(view: View, event: Event)
    ensures Apply(view, event).terminal <==> view.terminal || (Ends(event.kind) && !Skipped(view, event))
    ensures !view.terminal ==> forall id | id != "" ::
            id in Apply(view, event).seen <==> id in view.seen || id == event.id
  {
    hide WithTool;
    WithToolKeepsRest(view, event, Running);
    WithToolKeepsRest(view, event, Done);
    WithToolKeepsRest(view, event, Broken);
  }

  lemma WithToolKeepsRest(view: View, event: Event, status: StepStatus)
    ensures WithTool(view, event, status).terminal == view.terminal && WithTool(view, event, status).seen == view.seen
  {
  }

  /** A view is terminal exactly when its events hold an end that is no repeat,
      and until then it remembers exactly the ids they have. */
  lemma {:induction false} TerminalIffEnded(events: seq<Event>)
    ensures Fold(events).terminal <==> Ended(events)
    ensures !Ended(events) ==> forall id | id != "" :: id in Fold(events).seen <==> HasId(events, id)
  {
    hide Apply, HasId, Ended, Repeat;
    if events != [] {
      var n := |events| - 1;
      var before := Fold(events[..n]);
      TerminalIffEnded(events[..n]);
      ApplyTerminal(before, events[n]);
      EndedAppend(events);
      RepeatIsHasId(events);
      forall id ensures HasId(events, id) <==> HasId(events[..n], id) || events[n].id == id {
        HasIdAppend(events, id);
      }
    } else {
      NoEvents();
    }
  }

  lemma NoEvents()
    ensures !Ended([]) && forall id :: !HasId([], id)
  {
  }

  /** Which events do nothing, read off the sequence alone. */
  lemma SkippedIff(events: seq<Event>)
    requires events != []
    ensures Skipped(Fold(events[..|events| - 1]), events[|events| - 1]) <==>
            Ended(events[..|events| - 1]) || Repeat(events, |events| - 1)
  {
    hide Fold, HasId, Ended, Repeat;
    TerminalIffEnded(events[..|events| - 1]);
    RepeatIsHasId(events);
  }

  /** Folding a sequence is folding it without its repeats. */
  lemma {:induction false} RepeatsDoNotMatter(events: seq<Event>)
    ensures Fold(events) == Fold(WithoutRepeats(events))
  {
    hide Repeat, Ended, Skipped, Transition;
    if events != [] {
      var n := |events| - 1;
      RepeatsDoNotMatter(events[..n]);
      var fewer := WithoutRepeats(events);
      if Repeat(events, n) {
        SkippedIff(events);
        assert fewer == WithoutRepeats(events[..n]);
      } else {
        assert fewer[..|fewer| - 1] == WithoutRepeats(events[..n]);
      }
    }
  }

  /** A terminal view absorbs everything that follows. */
  lemma {:induction false} TerminalAbsorbs(events: seq<Event>, later: seq<Event>)
    requires Fold(events).terminal
    ensures Fold(events + later) == Fold(events)
    decreases |later|
  {
    if later == [] {
      assert events + later == events;
    } else {
      TerminalAbsorbs(events, later[..|later| - 1]);
      assert (events + later)[..|events + later| - 1] == events + later[..|later| - 1];
    }
  }

  // ---- revisions ----

  /** What a user sees: everything but the remembered ids. */
  function Shown(view: View): View { view.(seen := {}) }

  /** One event raises the revision by one if it changes anything shown, and
      leaves the view as shown otherwise. */
  lemma RevisionCountsChanges(view: View, event: Event)
    ensures Shown(Apply(view, event)) == Shown(view) || Apply(view, event).revision == view.revision + 1
  {
    hide Transition;
  }

  lemma {:induction false} RevisionsGrow(events: seq<Event>, at: nat)
    requires at <= |events|
    ensures Fold(events[..at]).revision <= Fold(events).revision
    ensures Fold(events[..at]).revision == Fold(events).revision ==> Shown(Fold(events[..at])) == Shown(Fold(events))
    decreases |events|
  {
    if at == |events| {
      assert events[..at] == events;
    } else {
      var n := |events| - 1;
      RevisionsGrow(events[..n], at);
      assert events[..n][..at] == events[..at];
      RevisionCountsChanges(Fold(events[..n]), events[n]);
    }
  }

  /** Two moments of one run with the same revision show the same. */
  lemma SameRevisionSameDisplay(events: seq<Event>, i: nat, j: nat)
    requires i <= j <= |events| && Fold(events[..i]).revision == Fold(events[..j]).revision
    ensures Shown(Fold(events[..i])) == Shown(Fold(events[..j]))
  {
    RevisionsGrow(events[..j], i);
    assert events[..j][..i] == events[..i];
  }

  /** A late update never reopens a finished step. */
  lemma UpdateNeverReopens(view: View, event: Event)
    requires event.kind.ToolUpdated? && !Skipped(view, event)
    requires Find(view.steps, event.callId) < |view.steps|
             && !view.steps[Find(view.steps, event.callId)].status.Running?
    ensures Shown(Apply(view, event)) == Shown(view)
  {
  }

  /** A tool event leaves every step of another call as it was, and the steps in order. */
  lemma OtherStepsUntouched(view: View, event: Event, i: nat)
    requires Inv(view) && IsTool(event.kind) && i < |view.steps| && view.steps[i].callId != event.callId
    ensures |view.steps| <= |Apply(view, event).steps| && Apply(view, event).steps[i] == view.steps[i]
  {
    hide Merged, Count, HasRunning;
  }

  // ---- calls do not mix ----

  /** What one call's own events make of its step; revisions are left at zero. */
  function CallStep(step: Option<ToolStep>, event: Event): ToolStep {
    var status := StatusOf(event.kind);
    if step.None? then NewStep(event, status, 0)
    else if event.kind.ToolUpdated? && !step.value.status.Running? then step.value
    else Merged(step.value, event, status)
  }

  /** The tool events of one call that count: no repeats, and none after the end. */
  function OwnEvents(events: seq<Event>, callId: string): seq<Event> {
    if events == [] then []
    else
      var n := |events| - 1;
      var before := OwnEvents(events[..n], callId);
      if IsTool(events[n].kind) && events[n].callId == callId && !Ended(events[..n]) && !Repeat(events, n)
      then before + [events[n]]
      else before
  }

  /** What a call's own events make of its step. */
  function StepOf(own: seq<Event>): Option<ToolStep> {
    if own == [] then None else Some(CallStep(StepOf(own[..|own| - 1]), own[|own| - 1]))
  }

  function Unrevised(step: ToolStep): ToolStep { step.(updatedRevision := 0) }

  /** The step a view shows for a call. */
  function ShownStep(view: View, callId: string): Option<ToolStep> {
    var at := Find(view.steps, callId);
    if at < |view.steps| then Some(Unrevised(view.steps[at])) else None
  }

  lemma {:induction false} FindOnly(steps: seq<ToolStep>, at: nat)
    requires at < |steps| && forall i | 0 <= i < |steps| && i != at :: steps[i].callId != steps[at].callId
    ensures Find(steps, steps[at].callId) == at
  {
  }

  lemma MergedUnrevised(current: ToolStep, event: Event, status: StepStatus)
    ensures Unrevised(Merged(current, event, status)) == Merged(Unrevised(current), event, status)
  {
  }

  /** Steps changed by an event: its own call follows that call's machine, others stay. */
  lemma StepsFollowCalls(view: View, event: Event, status: StepStatus, callId: string)
    requires Inv(view) && !Unchanged(view, event, status)
    ensures
      var after := Recount(view, StepsWith(view, event, status));
      ShownStep(after, callId) ==
        if callId != event.callId then ShownStep(view, callId)
        else if ShownStep(view, callId).None? then Some(NewStep(event, status, 0))
        else Some(Merged(ShownStep(view, callId).value, event, status))
  {
    hide Count, HasRunning, Merged;
    var at, steps := Find(view.steps, event.callId), StepsWith(view, event, status);
    if at < |view.steps| {
      MergedKeepsCall(view.steps[at], event, status);
      MergedUnrevised(view.steps[at], event, status);
    }
    FindOnly(steps, at);
    if callId != event.callId {
      OthersFound(view.steps, steps, at, callId);
    }
  }

  /** Changing or adding the step of one call moves no other. */
  lemma {:induction false} OthersFound(before: seq<ToolStep>, after: seq<ToolStep>, at: nat, callId: string)
    requires at <= |before| && |after| == (if at == |before| then at + 1 else |before|)
    requires after[at].callId != callId && (at < |before| ==> before[at].callId != callId)
    requires forall i | 0 <= i < |before| && i != at :: after[i] == before[i]
    ensures
      var was, now := Find(before, callId), Find(after, callId);
      if was < |before| then now == was && after[now] == before[was] else now == |after|
  {
  }

  lemma UnchangedMeansMerged(view: View, event: Event, status: StepStatus)
    requires Unchanged(view, event, status)
    ensures ShownStep(view, event.callId).Some?
    ensures Merged(ShownStep(view, event.callId).value, event, status) == ShownStep(view, event.callId).value
  {
    MergedUnrevised(view.steps[Find(view.steps, event.callId)], event, status);
  }

  lemma ApplySteps(view: View, event: Event)
    requires !Skipped(view, event)
    ensures Apply(view, event).steps == Transition(view, event).steps
  {
    hide Transition;
  }

  /** A late update aside, a tool event sets the step of its call. */
  lemma ToolTransition(view: View, event: Event)
    requires IsTool(event.kind)
    ensures
      var shown := ShownStep(view, event.callId);
      Transition(view, event) ==
      if event.kind.ToolUpdated? && shown.Some? && !shown.value.status.Running? then view
      else WithTool(view, event, StatusOf(event.kind))
  {
    hide WithTool, Find;
  }

  lemma WithToolFollowsCall(view: View, event: Event, status: StepStatus, callId: string)
    requires Inv(view)
    ensures
      var own := ShownStep(view, event.callId);
      ShownStep(WithTool(view, event, status), callId) ==
        if callId != event.callId then ShownStep(view, callId)
        else Some(if own.None? then NewStep(event, status, 0) else Merged(own.value, event, status))
  {
    hide Inv, Merged, Recount, StepsWith, ShownStep, Unchanged;
    if Unchanged(view, event, status) {
      UnchangedMeansMerged(view, event, status);
    } else {
      StepsFollowCalls(view, event, status, callId);
    }
  }

  lemma SameStepsShown(a: View, b: View, callId: string)
    requires a.steps == b.steps
    ensures ShownStep(a, callId) == ShownStep(b, callId)
  {
  }

  lemma ApplyFollowsCall(view: View, event: Event, callId: string)
    requires Inv(view) && !Skipped(view, event) && IsTool(event.kind)
    ensures ShownStep(Apply(view, event), callId) ==
            if event.callId != callId then ShownStep(view, callId) else Some(CallStep(ShownStep(view, callId), event))
  {
    hide Inv, Apply, Transition, WithTool, ShownStep, Merged, Skipped, IsTool;
    ApplySteps(view, event);
    ToolTransition(view, event);
    WithToolFollowsCall(view, event, StatusOf(event.kind), callId);
    SameStepsShown(Apply(view, event), Transition(view, event), callId);
  }

  lemma OtherEventsKeepSteps(view: View, event: Event)
    requires Skipped(view, event) || !IsTool(event.kind)
    ensures Apply(view, event).steps == view.steps
  {
    hide WithTool;
  }

  /** The step shown for a call is computed from that call's own events, however
      many calls run at once and in whatever order their events interleave; the
      others matter only in that an event may repeat an id or come after the end. */
  lemma {:induction false} CallsDoNotMix(events: seq<Event>, callId: string)
    ensures ShownStep(Fold(events), callId) == StepOf(OwnEvents(events, callId))
  {
    hide Apply, Inv, CallStep, Find, Skipped, IsTool, Ended, Repeat;
    if events != [] {
      var n := |events| - 1;
      var before := Fold(events[..n]);
      CallsDoNotMix(events[..n], callId);
      EverySequenceKeepsInv(events[..n]);
      SkippedIff(events);
      if !Skipped(before, events[n]) && IsTool(events[n].kind) {
        ApplyFollowsCall(before, events[n], callId);
        var own := OwnEvents(events[..n], callId);
        assert (own + [events[n]])[..|own|] == own;
      } else {
        OtherEventsKeepSteps(before, events[n]);
      }
    } else {
      assert Find([], callId) == 0;
    }
  }

  /** A finished step runs again if and only if its call is started once more by
      an event that is not skipped; no other event of any call reopens it. */
  lemma ReopensIffStarted(view: View, event: Event, callId: string)
    requires Inv(view) && ShownStep(view, callId).Some? && !ShownStep(view, callId).value.status.Running?
    ensures ShownStep(Apply(view, event), callId).Some?
    ensures ShownStep(Apply(view, event), callId).value.status.Running? <==>
            event.kind.ToolStarted? && event.callId == callId && !Skipped(view, event)
  {
    hide Apply, Inv, Find, Skipped;
    if !Skipped(view, event) && IsTool(event.kind) {
      ApplyFollowsCall(view, event, callId);
    } else {
      OtherEventsKeepSteps(view, event);
    }
  }
}
