/** What the display shows, read off the events alone: which of them count, and
    what the last ones of each kind decide. */
module DisplayEvents {
  import opened Common
  import opened Display

  // ---- which events count ----

  /** The n-th event is no repeat and comes before the end. */
  predicate Counts(events: seq<Event>, n: nat)
    requires n < |events|
  {
    !Repeat(events, n) && !Ended(events[..n])
  }

  /** What the tool events of the same call that count make of its step without the n-th event. */
  function StepBefore(events: seq<Event>, n: nat): Option<ToolStep>
    requires n < |events|
  {
    StepOf(OwnEvents(events[..n], events[n].callId))
  }

  /** The event counts and, if it is a tool event, changes the step of its call. */
  predicate Takes(events: seq<Event>, n: nat)
    requires n < |events|
  {
    Counts(events, n) && (IsTool(events[n].kind) ==>
                          Some(CallStep(StepBefore(events, n), events[n])) != StepBefore(events, n))
  }

  /** The index of the last event of these kinds that takes effect, or -1. */
  function Latest(events: seq<Event>, kinds: set<EventKind>): (at: int)
    ensures -1 <= at < |events|
  {
    if events == [] then -1
    else
      var n := |events| - 1;
      if events[n].kind in kinds && Takes(events, n) then n else Latest(events[..n], kinds)
  }

  const TOOLS: set<EventKind> := {ToolStarted, ToolUpdated, ToolSucceeded, ToolFailed}
  const ENDS: set<EventKind> := {Complete, Fail, Cancel}
  const CLEARING: set<EventKind> := TOOLS + ENDS + {ModelRetry, TextReset}
  const ALL: set<EventKind> := CLEARING + {Accept, LoadMedia, MediaReady, Think, TextDelta}

  /** The text deltas that count from an index on, joined. */
  function TextFrom(events: seq<Event>, from: int): string {
    if |events| <= from || events == [] then ""
    else
      var n := |events| - 1;
      TextFrom(events[..n], from) + (if events[n].kind.TextDelta? && Counts(events, n) then events[n].text else "")
  }

  function RetriesIn(events: seq<Event>): nat {
    if events == [] then 0
    else
      var n := |events| - 1;
      RetriesIn(events[..n]) + (if events[n].kind.ModelRetry? && Counts(events, n) then 1 else 0)
  }

  /** Some call is running after these events. */
  ghost predicate CallRuns(events: seq<Event>) {
    exists i | 0 <= i < |events| ::
      var step := StepOf(OwnEvents(events, events[i].callId));
      step.Some? && step.value.status.Running?
  }

  /** The phase that an event sets, given whether a call is running after it. */
  function PhaseSet(kind: EventKind, running: bool): Phase {
    match kind
    case Accept => Accepted
    case LoadMedia => MediaLoading
    case MediaReady => Thinking
    case ModelRetry => Retrying
    case TextReset => Drafting
    case TextDelta => Drafting
    case Complete => Succeeded
    case Fail => Failed
    case Cancel => Cancelled
    case _ => if running then ToolRunning else Thinking
  }

  // ---- what one event does ----

  /** The fields other than steps, revision and remembered ids, after one event
      that takes effect. */
  ghost predicate FieldsAfter(view: View, event: Event, after: View) {
    && after.phase == PhaseSet(event.kind, HasRunning(after.steps))
    && after.draft == (if event.kind.TextDelta? then view.draft + event.text
                       else if event.kind in CLEARING then "" else view.draft)
    && after.finalText == (if event.kind.Complete? then event.text else view.finalText)
    && after.metrics == (if event.kind.Complete? then event.metrics else view.metrics)
    && after.terminalMessage == (if event.kind.Fail? then event.text else view.terminalMessage)
    && after.retries == view.retries + (if event.kind.ModelRetry? then 1 else 0)
    && after.retry == (if event.kind.ModelRetry? then event.retry
                       else if event.kind.Think? then NO_RETRY else view.retry)
  }

  ghost predicate SameFields(a: View, b: View) {
    && a.phase == b.phase && a.draft == b.draft && a.finalText == b.finalText && a.metrics == b.metrics
    && a.terminalMessage == b.terminalMessage && a.retries == b.retries && a.retry == b.retry && a.steps == b.steps
  }

  /** An event changes the step of its call exactly if the call's own machine does. */
  lemma UnchangedIff(view: View, event: Event, status: StepStatus)
    ensures Unchanged(view, event, status) <==>
              ShownStep(view, event.callId).Some?
              && Merged(ShownStep(view, event.callId).value, event, status) == ShownStep(view, event.callId).value
  {
    var at := Find(view.steps, event.callId);
    if at < |view.steps| {
      MergedUnrevised(view.steps[at], event, status);
      var merged := Merged(view.steps[at], event, status);
      assert merged.updatedRevision == view.steps[at].updatedRevision;
      assert merged == Unrevised(merged).(updatedRevision := merged.updatedRevision);
      assert view.steps[at] == Unrevised(view.steps[at]).(updatedRevision := merged.updatedRevision);
    }
  }

  lemma ToolTakesEffect(view: View, event: Event)
    requires IsTool(event.kind) && !Skipped(view, event)
    ensures
      var own, after := ShownStep(view, event.callId), Apply(view, event);
      if Some(CallStep(own, event)) == own then SameFields(view, after)
      else SameFields(after, Recount(view, StepsWith(view, event, StatusOf(event.kind))))
  {
    UnchangedIff(view, event, StatusOf(event.kind));
    ToolTransition(view, event);
    hide Find, Merged, StepsWith, Recount, Transition, ShownStep, Unchanged;
  }

  lemma RecountFields(view: View, event: Event, after: View)
    requires IsTool(event.kind)
    requires SameFields(after, Recount(view, StepsWith(view, event, StatusOf(event.kind))))
    ensures FieldsAfter(view, event, after)
  {
    hide StepsWith, Count, HasRunning;
  }

  lemma ToolFields(view: View, event: Event)
    requires IsTool(event.kind) && !Skipped(view, event)
    ensures
      var own, after := ShownStep(view, event.callId), Apply(view, event);
      if Some(CallStep(own, event)) != own then FieldsAfter(view, event, after) else SameFields(view, after)
  {
    hide *;
    ToolTakesEffect(view, event);
    if Some(CallStep(ShownStep(view, event.callId), event)) != ShownStep(view, event.callId) {
      RecountFields(view, event, Apply(view, event));
    }
  }

  lemma PlainTransition(view: View, event: Event)
    requires !IsTool(event.kind)
    ensures FieldsAfter(view, event, Transition(view, event)) && Transition(view, event).steps == view.steps
  {
    hide HasRunning, WithTool;
  }

  lemma AppliedFields(view: View, event: Event)
    requires !Skipped(view, event)
    ensures SameFields(Apply(view, event), Transition(view, event))
  {
    hide Transition;
  }

  lemma PlainFields(view: View, event: Event)
    requires !IsTool(event.kind) && !Skipped(view, event)
    ensures FieldsAfter(view, event, Apply(view, event)) && Apply(view, event).steps == view.steps
  {
    hide HasRunning, Apply, Transition, PhaseSet;
    PlainTransition(view, event);
    AppliedFields(view, event);
  }

  lemma SkippedKeeps(view: View, event: Event)
    requires Skipped(view, event)
    ensures SameFields(view, Apply(view, event))
  {
    hide Transition;
  }

  /** One more event: it sets the fields if it takes effect and leaves them otherwise. */
  lemma {:induction false} FoldStep(events: seq<Event>)
    requires events != []
    ensures
      var n := |events| - 1;
      if Takes(events, n) then FieldsAfter(Fold(events[..n]), events[n], Fold(events))
      else SameFields(Fold(events[..n]), Fold(events))
  {
    hide Apply, Skipped, FieldsAfter, SameFields, StepOf, OwnEvents, ShownStep, Repeat, Ended, IsTool, CallStep;
    var n := |events| - 1;
    var before := Fold(events[..n]);
    SkippedIff(events);
    CallsDoNotMix(events[..n], events[n].callId);
    if Skipped(before, events[n]) {
      SkippedKeeps(before, events[n]);
    } else if IsTool(events[n].kind) {
      ToolFields(before, events[n]);
    } else {
      PlainFields(before, events[n]);
    }
  }

  // ---- calls that run ----

  lemma {:induction false} OwnEventsNamed(events: seq<Event>, callId: string)
    requires OwnEvents(events, callId) != []
    ensures exists i :: 0 <= i < |events| && events[i].callId == callId
  {
    var n := |events| - 1;
    if OwnEvents(events[..n], callId) != [] {
      OwnEventsNamed(events[..n], callId);
      var i :| 0 <= i < n && events[..n][i].callId == callId;
      assert events[i].callId == callId;
    }
  }

  /** A step of the display runs exactly when some call does by its own events. */
  lemma {:induction false} RunsIffCallRuns(events: seq<Event>)
    ensures HasRunning(Fold(events).steps) <==> CallRuns(events)
  {
    hide Fold, OwnEvents, StepOf;
    var view := Fold(events);
    EverySequenceKeepsInv(events);
    if HasRunning(view.steps) {
      var i :| 0 <= i < |view.steps| && view.steps[i].status.Running?;
      var callId := view.steps[i].callId;
      FindOnly(view.steps, i);
      CallsDoNotMix(events, callId);
      RunningIsNamed(events, callId);
    }
    if CallRuns(events) {
      var i :| 0 <= i < |events| && StepOf(OwnEvents(events, events[i].callId)).Some?
               && StepOf(OwnEvents(events, events[i].callId)).value.status.Running?;
      CallsDoNotMix(events, events[i].callId);
      assert view.steps[Find(view.steps, events[i].callId)].status.Running?;
    }
  }

  lemma {:induction false} RunningIsNamed(events: seq<Event>, callId: string)
    requires StepOf(OwnEvents(events, callId)).Some?
    ensures exists i :: 0 <= i < |events| && events[i].callId == callId
  {
    OwnEventsNamed(events, callId);
  }

  // ---- the last events decide ----

  lemma PrefixTakes(events: seq<Event>, n: nat, i: nat)
    requires i < n <= |events|
    ensures Counts(events[..n], i) == Counts(events, i) && Takes(events[..n], i) == Takes(events, i)
  {
    assert events[..n][..i] == events[..i];
    assert forall j | 0 <= j <= i :: events[..n][j] == events[j];
  }

  /** The latest event of some kinds is of these kinds, takes effect, and is
      followed by none that does. */
  lemma {:induction false} LatestIsLast(events: seq<Event>, kinds: set<EventKind>)
    ensures
      var at := Latest(events, kinds);
      && (at >= 0 ==> events[at].kind in kinds && Takes(events, at))
      && forall i | at < i < |events| && events[i].kind in kinds :: !Takes(events, i)
  {
    hide Takes;
    if events != [] {
      var n := |events| - 1;
      LatestIsLast(events[..n], kinds);
      forall i | 0 <= i < n ensures Takes(events[..n], i) == Takes(events, i) {
        PrefixTakes(events, n, i);
      }
    }
  }

  /** At most one end counts: the first that is no repeat. */
  lemma {:induction false} OneEnd(events: seq<Event>)
    ensures Latest(events, ENDS) >= 0 <==> Ended(events)
    ensures forall kind | kind in ENDS ::
              Latest(events, {kind}) ==
              if Latest(events, ENDS) >= 0 && events[Latest(events, ENDS)].kind == kind then Latest(events, ENDS)
                else -1
  {
    hide Ended, Repeat;
    if events != [] {
      OneEnd(events[..|events| - 1]);
      EndedAppend(events);
    } else {
      NoEvents();
    }
  }

  ghost predicate TextAndRetries(view: View, events: seq<Event>) {
    var retried, thought := Latest(events, {ModelRetry}), Latest(events, {Think});
    && view.draft == TextFrom(events, Latest(events, CLEARING) + 1)
    && view.retries == RetriesIn(events)
    && view.retry == if retried > thought then events[retried].retry else NO_RETRY
  }

  ghost predicate Outcomes(view: View, events: seq<Event>) {
    var done, broken := Latest(events, {Complete}), Latest(events, {Fail});
    && view.finalText == (if done >= 0 then events[done].text else "")
    && view.metrics == (if done >= 0 then events[done].metrics else NO_METRICS)
    && view.terminalMessage == (if broken >= 0 then events[broken].text else "")
  }

  ghost predicate PhaseIsLatest(view: View, events: seq<Event>) {
    var last := Latest(events, ALL);
    view.phase == if last >= 0 then PhaseSet(events[last].kind, HasRunning(view.steps)) else Created
  }

  /** What one more event did to the view. */
  ghost predicate OneMore(before: View, events: seq<Event>, after: View)
    requires events != []
  {
    var n := |events| - 1;
    if Takes(events, n) then FieldsAfter(before, events[n], after) else SameFields(before, after)
  }

  lemma TextStep(before: View, events: seq<Event>, after: View)
    requires events != [] && OneMore(before, events, after) && TextAndRetries(before, events[..|events| - 1])
    ensures TextAndRetries(after, events)
  {
    hide Counts, StepBefore, HasRunning, CallStep;
  }

  lemma OutcomeStep(before: View, events: seq<Event>, after: View)
    requires events != [] && OneMore(before, events, after) && Outcomes(before, events[..|events| - 1])
    ensures Outcomes(after, events)
  {
    hide Takes, HasRunning;
  }

  lemma EveryKind(kind: EventKind)
    ensures kind in ALL
  {
    assert kind in {Accept, LoadMedia, MediaReady, Think, TextDelta, ModelRetry, TextReset} + TOOLS + ENDS;
  }

  lemma PhaseStep(before: View, events: seq<Event>, after: View)
    requires events != [] && OneMore(before, events, after) && PhaseIsLatest(before, events[..|events| - 1])
    ensures PhaseIsLatest(after, events)
  {
    hide Takes, HasRunning;
    EveryKind(events[|events| - 1].kind);
  }

  lemma {:induction false} FieldsOfEvents(events: seq<Event>)
    ensures
      var view := Fold(events);
      TextAndRetries(view, events) && Outcomes(view, events) && PhaseIsLatest(view, events)
  {
    if events != [] {
      hide Fold, TextAndRetries, Outcomes, PhaseIsLatest, Takes, FieldsAfter, SameFields;
      var n := |events| - 1;
      FieldsOfEvents(events[..n]);
      FoldStep(events);
      TextStep(Fold(events[..n]), events, Fold(events));
      OutcomeStep(Fold(events[..n]), events, Fold(events));
      PhaseStep(Fold(events[..n]), events, Fold(events));
    }
  }

  lemma {:induction false} ResultEvents(events: seq<Event>, at: nat)
    requires at < |events| && Ends(events[at].kind) && !Repeat(events, at) && !Ended(events[..at])
    ensures Latest(events, {Complete}) == if events[at].kind.Complete? then at else -1
    ensures Latest(events, {Fail}) == if events[at].kind.Fail? then at else -1
  {
    OneEnd(events);
    NothingAfterEnd(events, at);
    assert Complete in ENDS && Fail in ENDS;
    hide Latest, TextFrom, Repeat, Ended;
  }

  lemma {:induction false} ResultShown(view: View, events: seq<Event>, at: nat)
    requires at < |events| && Ends(events[at].kind)
    requires Outcomes(view, events) && PhaseIsLatest(view, events) && Latest(events, ALL) == at
    requires Latest(events, {Complete}) == if events[at].kind.Complete? then at else -1
    requires Latest(events, {Fail}) == if events[at].kind.Fail? then at else -1
    ensures
      var end := events[at];
      && view.phase == (if end.kind.Complete? then Succeeded else if end.kind.Fail? then Failed else Cancelled)
      && view.finalText == (if end.kind.Complete? then end.text else "")
      && view.metrics == (if end.kind.Complete? then end.metrics else NO_METRICS)
      && view.terminalMessage == (if end.kind.Fail? then end.text else "")
  {
    hide Latest, HasRunning;
  }

  /** The first end that is no repeat decides how the run shows: no other event
      sets the phase from then on, the final text, the metrics or the message. */
  lemma {:induction false} EndDecides(events: seq<Event>, at: nat)
    requires at < |events| && Ends(events[at].kind) && !Repeat(events, at) && !Ended(events[..at])
    ensures
      var view, end := Fold(events), events[at];
      && view.phase == (if end.kind.Complete? then Succeeded else if end.kind.Fail? then Failed else Cancelled)
      && view.finalText == (if end.kind.Complete? then end.text else "")
      && view.metrics == (if end.kind.Complete? then end.metrics else NO_METRICS)
      && view.terminalMessage == (if end.kind.Fail? then end.text else "")
      && view.draft == ""
  {
    hide Fold, Latest, TextFrom, Repeat, Ended, Outcomes, PhaseIsLatest, RetriesIn;
    FieldsOfEvents(events);
    NothingAfterEnd(events, at);
    ResultEvents(events, at);
    ResultShown(Fold(events), events, at);
  }

  /** Before an end nothing of the result is shown. */
  lemma {:induction false} NoEndNoResult(events: seq<Event>)
    requires !Ended(events)
    ensures Fold(events).finalText == "" && Fold(events).metrics == NO_METRICS && Fold(events).terminalMessage == ""
  {
    FieldsOfEvents(events);
    OneEnd(events);
    hide Fold, Ended, HasRunning, Latest, PhaseIsLatest, TextAndRetries;
  }

  lemma NotAfterEnd(events: seq<Event>, n: nat)
    requires n < |events| && Ended(events[..n])
    ensures !Counts(events, n) && !Takes(events, n)
  {
    hide Repeat, Ended;
  }

  lemma EndedFrom(events: seq<Event>, at: nat)
    requires at < |events| && Ends(events[at].kind) && !Repeat(events, at)
    ensures Ended(events)
  {
  }

  /** Nothing that comes after the end takes effect. */
  lemma {:induction false} NothingAfterEnd(events: seq<Event>, at: nat)
    requires at < |events| && Ends(events[at].kind) && !Repeat(events, at) && !Ended(events[..at])
    ensures Latest(events, ENDS) == at && Latest(events, CLEARING) == at && Latest(events, ALL) == at
    ensures TextFrom(events, at + 1) == ""
    decreases |events|
  {
    var n := |events| - 1;
    hide Repeat, Ended, StepBefore, CallStep;
    if at < n {
      RepeatBefore(events, at);
      assert events[..n][..at] == events[..at];
      NothingAfterEnd(events[..n], at);
      EndedFrom(events[..n], at);
      NotAfterEnd(events, n);
      hide Counts, Takes;
    } else {
      EveryKind(events[at].kind);
      assert Takes(events, at);
    }
  }

  /** Everything shown beside the steps, read off the events: the draft is the
      text since the last event that clears it, the retries are counted, the
      retry shown is the last unless a thinking event came after it, and the phase is
      that of the last event that takes effect. */
  lemma {:induction false} ShownFromEvents(events: seq<Event>)
    ensures
      var view, last := Fold(events), Latest(events, ALL);
      && TextAndRetries(view, events)
      && view.phase == (if last >= 0 then PhaseSet(events[last].kind, CallRuns(events)) else Created)
  {
    FieldsOfEvents(events);
    RunsIffCallRuns(events);
    hide Fold, HasRunning, CallRuns, TextAndRetries;
  }

  // ---- the step of one call ----

  /** A late update: the latest other event of the call before it finished the step. */
  predicate LateUpdate(own: seq<Event>, n: nat)
    requires n < |own|
  {
    own[n].kind.ToolUpdated? && StatusFrom(own[..n]) != Running
  }

  /** The status that the last event which is no update sets; running when there is none. */
  function StatusFrom(own: seq<Event>): StepStatus {
    if own == [] then Running
    else if own[|own| - 1].kind.ToolUpdated? then StatusFrom(own[..|own| - 1])
    else StatusOf(own[|own| - 1].kind)
  }

  /** The last event of a call that is no late update and passes a test, or -1. */
  function LastOwn(own: seq<Event>, test: Event -> bool): (at: int)
    ensures -1 <= at < |own|
  {
    if own == [] then -1
    else
      var n := |own| - 1;
      if !LateUpdate(own, n) && test(own[n]) then n else LastOwn(own[..n], test)
  }

  predicate Any(event: Event) { true }

  predicate HasSubject(event: Event) { event.subject != "" }

  predicate HasSummary(event: Event) { event.summary != "" }

  predicate SetsItems(event: Event) { event.kind.ToolFailed? || event.items != [] }

  predicate SetsPreview(event: Event) { event.kind.ToolFailed? || event.preview != [] }

  /** What the last of a call's own events did to its step. */
  lemma {:induction false} OwnStep(own: seq<Event>)
    requires |own| > 1
    ensures
      var n := |own| - 1;
      && StepOf(own[..n]).Some?
      && StepOf(own) == Some(CallStep(StepOf(own[..n]), own[n]))
  {
  }

  lemma {:induction false} FirstStep(own: seq<Event>)
    requires |own| == 1
    ensures StepOf(own) == Some(NewStep(own[0], StatusOf(own[0].kind), 0))
    ensures StatusFrom(own) == StatusOf(own[0].kind) && !LateUpdate(own, 0)
    ensures forall test :: LastOwn(own, test) == if test(own[0]) then 0 else -1
  {
    assert own[..0] == [];
  }

  /** The status is that of the last event that is no update. */
  lemma {:induction false} StatusFromEvents(own: seq<Event>)
    requires own != [] && forall i | 0 <= i < |own| :: IsTool(own[i].kind)
    ensures StepOf(own).Some? && StepOf(own).value.status == StatusFrom(own)
  {
    if |own| > 1 {
      StatusFromEvents(own[..|own| - 1]);
      OwnStep(own);
    } else {
      FirstStep(own);
    }
  }

  /** Names are those of the last event that is no late update, and each text
      that of the last such event that has one. */
  lemma {:induction false} TextsFromEvents(own: seq<Event>)
    requires own != [] && forall i | 0 <= i < |own| :: IsTool(own[i].kind)
    ensures
      var step, last := StepOf(own).value, LastOwn(own, Any);
      var subject, summary := LastOwn(own, HasSubject), LastOwn(own, HasSummary);
      && last >= 0 && step.callId == own[last].callId
      && step.toolName == own[last].toolName && step.displayName == own[last].displayName
      && step.subject == (if subject >= 0 then own[subject].subject else "")
      && step.summary == (if summary >= 0 then own[summary].summary else "")
  {
    if |own| > 1 {
      TextsFromEvents(own[..|own| - 1]);
      StatusFromEvents(own[..|own| - 1]);
      OwnStep(own);
      hide StepOf, StatusFrom;
    } else {
      FirstStep(own);
      hide StepOf;
    }
  }

  /** A list is that of the last event that is no late update and has one, but
      empty when a failure of the known step came since. */
  lemma {:induction false} ItemsFromEvents(own: seq<Event>)
    requires own != [] && forall i | 0 <= i < |own| :: IsTool(own[i].kind)
    ensures
      var items := LastOwn(own, SetsItems);
      StepOf(own).value.items
        == (if items < 0 || (items > 0 && own[items].kind.ToolFailed?) then [] else own[items].items)
  {
    if |own| > 1 {
      ItemsFromEvents(own[..|own| - 1]);
      StatusFromEvents(own[..|own| - 1]);
      OwnStep(own);
      hide StepOf, StatusFrom;
    } else {
      FirstStep(own);
      hide StepOf;
    }
  }

  lemma {:induction false} PreviewFromEvents(own: seq<Event>)
    requires own != [] && forall i | 0 <= i < |own| :: IsTool(own[i].kind)
    ensures
      var preview := LastOwn(own, SetsPreview);
      StepOf(own).value.preview
        == (if preview < 0 || (preview > 0 && own[preview].kind.ToolFailed?) then [] else own[preview].preview)
  {
    if |own| > 1 {
      PreviewFromEvents(own[..|own| - 1]);
      StatusFromEvents(own[..|own| - 1]);
      OwnStep(own);
      hide StepOf, StatusFrom;
    } else {
      FirstStep(own);
      hide StepOf;
    }
  }

  lemma {:induction false} OwnAreTools(events: seq<Event>, callId: string)
    ensures forall i | 0 <= i < |OwnEvents(events, callId)| :: IsTool(OwnEvents(events, callId)[i].kind)
  {
    if events != [] {
      OwnAreTools(events[..|events| - 1], callId);
    }
  }

  /** The step shown for a call, field by field, from the call's own events. */
  lemma {:induction false} StepShown(events: seq<Event>, callId: string)
    requires OwnEvents(events, callId) != []
    ensures
      var own := OwnEvents(events, callId);
      var last, subject, summary := LastOwn(own, Any), LastOwn(own, HasSubject), LastOwn(own, HasSummary);
      var items, preview := LastOwn(own, SetsItems), LastOwn(own, SetsPreview);
      && last >= 0
      && ShownStep(Fold(events), callId) == Some(ToolStep(
           own[last].callId, own[last].toolName, own[last].displayName, StatusFrom(own),
           if subject >= 0 then own[subject].subject else "", if summary >= 0 then own[summary].summary else "",
           if items < 0 || (items > 0 && own[items].kind.ToolFailed?) then [] else own[items].items,
           if preview < 0 || (preview > 0 && own[preview].kind.ToolFailed?) then [] else own[preview].preview, 0))
  {
    var own := OwnEvents(events, callId);
    CallsDoNotMix(events, callId);
    OwnAreTools(events, callId);
    StatusFromEvents(own);
    TextsFromEvents(own);
    ItemsFromEvents(own);
    PreviewFromEvents(own);
    assert ShownStep(Fold(events), callId).value.updatedRevision == 0;
    hide StepOf, OwnEvents, Fold, LastOwn, StatusFrom, Find;
  }

  // ---- the list of steps ----

  /** The calls in the order in which their first events that count came. */
  function CallsInOrder(events: seq<Event>): seq<string> {
    if events == [] then []
    else
      var n := |events| - 1;
      CallsInOrder(events[..n])
      + (if IsTool(events[n].kind) && Counts(events, n) && OwnEvents(events[..n], events[n].callId) == []
         then [events[n].callId] else [])
  }

  function CallIds(steps: seq<ToolStep>): (ids: seq<string>)
    ensures |ids| == |steps|
  {
    seq(|steps|, i requires 0 <= i < |steps| => steps[i].callId)
  }

  lemma ToolCallIds(view: View, event: Event)
    requires IsTool(event.kind) && !Skipped(view, event)
    ensures CallIds(Apply(view, event).steps)
         == CallIds(view.steps) + (if ShownStep(view, event.callId).None? then [event.callId] else [])
  {
    UnchangedIff(view, event, StatusOf(event.kind));
    ToolTransition(view, event);
    AppliedFields(view, event);
    hide Merged, Apply, Transition, Unchanged;
    MergedCallId(view, event);
  }

  lemma MergedCallId(view: View, event: Event)
    ensures forall step, status :: Merged(step, event, status).callId == event.callId
  {
  }

  /** The steps are those of the calls that had an event, oldest call first. */
  lemma {:induction false} StepsInOrder(events: seq<Event>)
    ensures CallIds(Fold(events).steps) == CallsInOrder(events)
  {
    hide Apply, Skipped, OwnEvents, StepOf, ShownStep, Repeat, Ended, IsTool, CallStep, CallIds;
    if events == [] {
      NoCalls();
    } else {
      var n := |events| - 1;
      var before := Fold(events[..n]);
      StepsInOrder(events[..n]);
      SkippedIff(events);
      CallsDoNotMix(events[..n], events[n].callId);
      NoneIffNoEvents(OwnEvents(events[..n], events[n].callId));
      if !Skipped(before, events[n]) && IsTool(events[n].kind) {
        ToolCallIds(before, events[n]);
      } else {
        OtherEventsKeepSteps(before, events[n]);
      }
    }
  }

  lemma NoCalls()
    ensures CallIds([]) == [] && CallsInOrder([]) == []
  {
  }

  lemma {:induction false} NoneIffNoEvents(own: seq<Event>)
    ensures StepOf(own).None? <==> own == []
  {
  }

  /** The revision rises by one exactly with an event that changes something shown. */
  lemma RevisionIffChange(view: View, event: Event)
    ensures Apply(view, event).revision == view.revision
              + (if Apply(view, event).(seen := {}, revision := 0) == view.(seen := {}, revision := 0) then 0 else 1)
  {
    TransitionKeepsRevision(view, event);
    hide Transition;
  }

  lemma TransitionKeepsRevision(view: View, event: Event)
    ensures Transition(view, event).revision == view.revision && Transition(view, event).seen == view.seen
  {
    hide HasRunning, StepsWith, Count, Unchanged;
  }
}
