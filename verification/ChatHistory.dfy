/** The bounded chat history: what is sent, what is stored, and why trimming
    again and again is trimming once. */
module ChatHistory {
  import opened Common
  import opened Budget

  datatype Role = System | User | Assistant

  datatype Message = Message(role: Role, content: string)

  function Length(m: Message): nat { |m.content| }

  function DropAnswers(messages: seq<Message>): seq<Message> {
    if messages != [] && messages[0].role.Assistant? then DropAnswers(messages[1..]) else messages
  }

  function Trim(limits: Limits, messages: seq<Message>): seq<Message> {
    DropAnswers(Newest(messages, Kept(limits, Length, messages)))
  }

  method TrimHistory(limits: Limits, messages: seq<Message>) returns (selected: seq<Message>)
    ensures selected == Trim(limits, messages)
  {
    selected := [];
    var characterCount: nat := 0;
    var left := |messages|;
    assert messages[..left] == messages;
    while left > 0
      invariant 0 <= left <= |messages|
      invariant selected == Reversed(messages[left..])
      invariant Kept(limits, Length, messages)
                == |selected| + KeepCount(limits, Length, messages[..left], |selected|, characterCount)
      decreases left
    {
      var message := messages[left - 1];
      if |selected| >= limits.maxMessages {
        break;
      }
      var nextCount := characterCount + |message.content|;
      if nextCount > limits.maxCharacters {
        break;
      }
      assert messages[..left][..left - 1] == messages[..left - 1];
      ReversedMore(messages, left);
      selected := selected + [message];
      characterCount := nextCount;
      left := left - 1;
    }
    assert |selected| == Kept(limits, Length, messages);
    ReversedTwice(messages[left..]);
    selected := Reversed(selected);
    assert selected == Newest(messages, Kept(limits, Length, messages));
    while selected != [] && selected[0].role.Assistant?
      invariant DropAnswers(selected) == Trim(limits, messages)
      decreases |selected|
    {
      selected := selected[1..];
    }
  }

  lemma {:induction false} DropAnswersIsSuffix(messages: seq<Message>)
    ensures |DropAnswers(messages)| <= |messages|
    ensures DropAnswers(messages) == Newest(messages, |DropAnswers(messages)|)
    ensures DropAnswers(messages) != [] ==> !DropAnswers(messages)[0].role.Assistant?
    ensures forall i | 0 <= i < |messages| - |DropAnswers(messages)| :: messages[i].role.Assistant?
  {
    if messages != [] && messages[0].role.Assistant? {
      DropAnswersIsSuffix(messages[1..]);
      assert forall i | 1 <= i < |messages| - |DropAnswers(messages)| :: messages[i] == messages[1..][i - 1];
    }
  }

  /** The result fits both budgets, is the newest part of the history, and does
      not open with an answer; only answers lie between it and the longest part that fits. */
  lemma TrimKeepsNewest(limits: Limits, messages: seq<Message>)
    ensures
      var trimmed := Trim(limits, messages);
      && |trimmed| <= |messages| && trimmed == Newest(messages, |trimmed|)
      && Fits(limits, Length, trimmed)
      && (trimmed != [] ==> !trimmed[0].role.Assistant?)
      && forall count | |trimmed| < count <= |messages| && Fits(limits, Length, Newest(messages, count)) ::
           Newest(messages, count)[0].role.Assistant?
  {
    var kept := Kept(limits, Length, messages);
    var trimmed := Trim(limits, messages);
    DropAnswersIsSuffix(Newest(messages, kept));
    KeptIsLongestFit(limits, Length, messages, |trimmed|);
    forall count | |trimmed| < count <= |messages| && Fits(limits, Length, Newest(messages, count))
      ensures Newest(messages, count)[0].role.Assistant?
    {
      KeptIsLongestFit(limits, Length, messages, count);
      assert Newest(messages, count)[0] == Newest(messages, kept)[kept - count];
    }
  }

  /** Trimming what was trimmed before with one more message gives the same as
      trimming everything: nothing that an earlier trim dropped was needed. */
  lemma TrimAgain(limits: Limits, messages: seq<Message>, m: Message)
    ensures Trim(limits, Trim(limits, messages) + [m]) == Trim(limits, messages + [m])
  {
    hide Trim, Newest, Kept, DropAnswers;
    var kept, trimmed := Kept(limits, Length, messages), Trim(limits, messages);
    var all := Kept(limits, Length, messages + [m]);
    TrimParts(limits, messages);
    KeptOfTail(limits, Length, messages, |trimmed|, m);
    KeptGrowsByOne(limits, Length, messages, m);
    TrimIs(limits, messages + [m]);
    TrimIs(limits, trimmed + [m]);
    if all <= |trimmed| + 1 {
      SameNewest(messages, |trimmed|, m, all);
    } else {
      AnswersInFront(messages, kept, |trimmed|, all - 1, m);
    }
  }

  lemma TrimParts(limits: Limits, messages: seq<Message>)
    ensures
      var kept, trimmed := Kept(limits, Length, messages), Trim(limits, messages);
      && |trimmed| <= kept <= |messages| && |Newest(messages, kept)| == kept
      && trimmed == Newest(messages, |trimmed|)
      && forall i | 0 <= i < kept - |trimmed| :: Newest(messages, kept)[i].role.Assistant?
  {
    DropAnswersIsSuffix(Newest(messages, Kept(limits, Length, messages)));
  }

  lemma TrimIs(limits: Limits, messages: seq<Message>)
    ensures Trim(limits, messages) == DropAnswers(Newest(messages, Kept(limits, Length, messages)))
  {
  }

  /** When the longest part opens with answers only, so does every part between it and what was trimmed. */
  lemma AnswersInFront(messages: seq<Message>, longest: nat, trimmed: nat, count: nat, m: Message)
    requires trimmed <= count <= longest <= |messages| && |Newest(messages, longest)| == longest
    requires forall i | 0 <= i < longest - trimmed :: Newest(messages, longest)[i].role.Assistant?
    ensures DropAnswers(Newest(messages + [m], count + 1))
            == DropAnswers(Newest(Newest(messages, trimmed) + [m], trimmed + 1))
  {
    hide DropAnswers;
    var extra, rest := Newest(messages, count)[..count - trimmed], Newest(messages, trimmed) + [m];
    assert forall i | 0 <= i < |extra| :: extra[i] == Newest(messages, longest)[longest - count + i];
    assert Newest(messages + [m], count + 1) == extra + rest;
    assert Newest(rest, trimmed + 1) == rest;
    LeadingAnswers(extra, rest);
  }

  lemma {:induction false} LeadingAnswers(answers: seq<Message>, rest: seq<Message>)
    requires forall i | 0 <= i < |answers| :: answers[i].role.Assistant?
    ensures DropAnswers(answers + rest) == DropAnswers(rest)
  {
    if answers == [] {
      assert answers + rest == rest;
    } else {
      LeadingAnswers(answers[1..], rest);
      assert (answers + rest)[1..] == answers[1..] + rest;
    }
  }

  // ---- the request and the store ----

  /** Every request ends with the validated prompt and does not open with an answer. */
  lemma RequestEndsWithPrompt(limits: Limits, history: seq<Message>, prompt: string)
    requires limits.maxMessages >= 1 && |prompt| <= limits.maxCharacters
    ensures
      var request := Trim(limits, history + [Message(User, prompt)]);
      && request != [] && request[|request| - 1] == Message(User, prompt)
      && !request[0].role.Assistant?
  {
    var m := Message(User, prompt);
    var whole := history + [m];
    KeptIsLongestFit(limits, Length, whole, 1);
    assert Newest(whole, 1) == [m];
    TotalOne(Length, m);
    DropAnswersIsSuffix(Newest(whole, Kept(limits, Length, whole)));
  }

  // ---- what older messages add to a trim ----

  /** A message of the older part, no answer, that still fits together with
      everything after it. */
  ghost predicate OldFits(limits: Limits, early: seq<Message>, late: seq<Message>) {
    exists i | 0 <= i < |early| :: !early[i].role.Assistant? && Fits(limits, Length, early[i..] + late)
  }

  lemma FitsMeansKept(limits: Limits, early: seq<Message>, late: seq<Message>, i: nat)
    requires i <= |early|
    ensures Fits(limits, Length, early[i..] + late) <==> |early| - i + |late| <= Kept(limits, Length, early + late)
  {
    KeptIsLongestFit(limits, Length, early + late, |early| - i + |late|);
    assert Newest(early + late, |early| - i + |late|) == early[i..] + late;
  }

  lemma OldStays(limits: Limits, early: seq<Message>, late: seq<Message>, i: nat)
    requires i < |early| && !early[i].role.Assistant? && Fits(limits, Length, early[i..] + late)
    ensures Trim(limits, early + late) != Trim(limits, late)
  {
    hide Kept, Fits;
    var all := early + late;
    FitsMeansKept(limits, early, late, i);
    TrimParts(limits, all);
    TrimParts(limits, late);
    var kept := Newest(all, Kept(limits, Length, all));
    assert kept[|kept| - (|early| - i + |late|)] == all[i] == early[i];
  }

  lemma OldGoes(limits: Limits, early: seq<Message>, late: seq<Message>)
    requires !OldFits(limits, early, late)
    ensures Trim(limits, early + late) == Trim(limits, late)
  {
    hide Trim, Fits, DropAnswers, Kept;
    var all := Kept(limits, Length, early + late);
    TrimIs(limits, early + late);
    TrimIs(limits, late);
    KeptIsLongestFit(limits, Length, late, Min(all, |late|));
    KeptIsLongestFit(limits, Length, early + late, Min(all, |late|));
    assert Newest(late, Min(all, |late|)) == Newest(early + late, Min(all, |late|));
    if all <= |late| {
      if all < |late| {
        KeptIsLongestFit(limits, Length, late, all + 1);
        KeptIsLongestFit(limits, Length, early + late, all + 1);
        assert Newest(late, all + 1) == Newest(early + late, all + 1);
      }
    } else {
      var from := |early| + |late| - all;
      forall i | from <= i < |early| ensures early[i].role.Assistant? {
        FitsMeansKept(limits, early, late, i);
      }
      LeadingAnswers(early[from..], late);
      assert Newest(early + late, all) == early[from..] + late;
      assert Newest(late, |late|) == late;
    }
  }

  /** Older messages leave no trace in a trim exactly when none but answers of
      them would still fit in front of the newer ones. */
  lemma OldLeavesNoTrace(limits: Limits, early: seq<Message>, late: seq<Message>)
    ensures Trim(limits, early + late) == Trim(limits, late) <==> !OldFits(limits, early, late)
  {
    hide Trim, Fits;
    if OldFits(limits, early, late) {
      var i :| 0 <= i < |early| && !early[i].role.Assistant? && Fits(limits, Length, early[i..] + late);
      OldStays(limits, early, late, i);
    } else {
      OldGoes(limits, early, late);
    }
  }

  // ---- the stored session ----

  datatype AskError = EmptyPrompt | InputTooLong | ProviderFailed

  datatype Settings = Settings(limits: Limits, ttl: nat)

  datatype Session = Session(messages: seq<Message>, expiresAt: nat)

  predicate Expired(stored: Option<Session>, now: nat) {
    stored.Some? && stored.value.expiresAt <= now
  }

  /** The row after loading it: an expired one is deleted. */
  function Active(stored: Option<Session>, now: nat): Option<Session> {
    if Expired(stored, now) then None else stored
  }

  function Loaded(stored: Option<Session>): seq<Message> {
    if stored.Some? then stored.value.messages else []
  }

  predicate Accepted(limits: Limits, prompt: string) {
    prompt != "" && |prompt| <= limits.maxCharacters
  }

  function Request(limits: Limits, loaded: seq<Message>, prompt: string): seq<Message> {
    Trim(limits, loaded + [Message(User, prompt)])
  }

  function Persisted(limits: Limits, loaded: seq<Message>, prompt: string, answer: string): seq<Message> {
    Trim(limits, Request(limits, loaded, prompt) + [Message(Assistant, answer)])
  }

  /** What one completed ask adds to a conversation. */
  function Exchange(prompt: string, answer: string): seq<Message> {
    [Message(User, prompt), Message(Assistant, answer)]
  }

  /** The stored session of one conversation, changed in place. */
  class ChatService {
    const settings: Settings
    var stored: Option<Session>

    constructor (settings: Settings)
      ensures stored.None? && this.settings == settings
    {
      this.settings, stored := settings, None;
    }

    method LoadActive(now: nat) returns (messages: seq<Message>)
      modifies this
      ensures stored == Active(old(stored), now) && messages == Loaded(stored)
    {
      if stored.Some? && stored.value.expiresAt <= now {
        stored := None;
      }
      messages := if stored.Some? then stored.value.messages else [];
    }

    /** The first part of an ask: what is sent for the stripped prompt. */
    method BeginAsk(prompt: string, now: nat) returns (result: Result<seq<Message>, AskError>)
      modifies this
      ensures stored == if Accepted(settings.limits, prompt) then Active(old(stored), now) else old(stored)
      ensures result == if prompt == "" then Err(EmptyPrompt)
                        else if !Accepted(settings.limits, prompt) then Err(InputTooLong)
                        else Ok(Request(settings.limits, Loaded(Active(old(stored), now)), prompt))
    {
      if prompt == "" {
        return Err(EmptyPrompt);
      }
      if |prompt| > settings.limits.maxCharacters {
        return Err(InputTooLong);
      }
      var history := LoadActive(now);
      var request := TrimHistory(settings.limits, history + [Message(User, prompt)]);
      result := Ok(request);
    }

    /** The second part: what the row becomes, whatever happened to it meanwhile. */
    method FinishAsk(request: seq<Message>, answer: string, began: nat)
      modifies this
      ensures stored == Some(Session(Trim(settings.limits, request + [Message(Assistant, answer)]),
                                     began + settings.ttl))
    {
      var persisted := TrimHistory(settings.limits, request + [Message(Assistant, answer)]);
      stored := Some(Session(persisted, began + settings.ttl));
    }

    /** One ask with nothing in between; response is what the provider answers, None when it fails. */
    method Ask(prompt: string, now: nat, response: Option<string>) returns (result: Result<seq<Message>, AskError>)
      modifies this
      ensures result.Ok? <==> Accepted(settings.limits, prompt) && response.Some?
      ensures result.Ok? ==>
                var loaded := Loaded(Active(old(stored), now));
                && result.value == Request(settings.limits, loaded, prompt)
                && stored == Some(Session(Persisted(settings.limits, loaded, prompt, response.value),
                                          now + settings.ttl))
      ensures result.Err? ==> stored == old(stored) || stored == Active(old(stored), now)
    {
      result := BeginAsk(prompt, now);
      if result.Err? {
        return;
      }
      if response.None? {
        return Err(ProviderFailed);
      }
      FinishAsk(result.value, response.value, now);
    }
  }

  // ---- runs ----

  /** What holds the conversation lock. base is everything the session stood
      for when it was loaded, overtaken whether the row was deleted since. */
  datatype Pending =
    | Idle
    | Asking(prompt: string, loaded: seq<Message>, began: nat, base: seq<Message>, overtaken: bool)
    | Selecting(loaded: seq<Message>, began: nat, base: seq<Message>, overtaken: bool)

  /** One conversation. doomed counts the status calls that found an expired row
      and have yet to delete it; they take no lock. transcript is every message of
      the asks completed since the row was last deleted, revived what a save
      brought back from before that. */
  datatype State = State(clock: nat, stored: Option<Session>, pending: Pending, doomed: nat,
                         revived: seq<Message>, transcript: seq<Message>)

  datatype Event =
    | Tick(now: nat)
    | BeginAsk(prompt: string)
    | EndAsk(response: Option<string>)
    | BeginSelect
    | EndSelect
    | Clear
    | StatusLooks
    | StatusDeletes

  predicate Enabled(settings: Settings, s: State, event: Event) {
    match event
    case Tick(now) => s.clock <= now
    case BeginAsk(prompt) => s.pending.Idle? && Accepted(settings.limits, prompt)
    case EndAsk(response) => s.pending.Asking?
    case BeginSelect => s.pending.Idle?
    case EndSelect => s.pending.Selecting?
    case Clear => s.pending.Idle?
    case StatusLooks => Expired(s.stored, s.clock)
    case StatusDeletes => s.doomed > 0
  }

  function Overtake(pending: Pending): Pending {
    if pending.Idle? then pending else pending.(overtaken := true)
  }

  function Deleted(s: State): State {
    s.(stored := None, pending := Overtake(s.pending), revived := [], transcript := [])
  }

  /** Loading deletes an expired row. */
  function Load(s: State): State {
    if Expired(s.stored, s.clock) then Deleted(s) else s
  }

  /** Everything the row stands for. */
  function Behind(s: State): seq<Message> { s.revived + s.transcript }

  function RevivedBy(s: State): seq<Message>
    requires !s.pending.Idle?
  {
    if s.pending.overtaken then s.pending.base else s.revived
  }

  function After(settings: Settings, s: State, event: Event): State
    requires Enabled(settings, s, event)
  {
    match event
    case Tick(now) => s.(clock := now)
    case BeginAsk(prompt) =>
      var l := Load(s);
      l.(pending := Asking(prompt, Loaded(l.stored), s.clock, Behind(l), false))
    case EndAsk(response) =>
      if response.None? then s.(pending := Idle)
      else
        var saved := Persisted(settings.limits, s.pending.loaded, s.pending.prompt, response.value);
        s.(stored := Some(Session(saved, s.pending.began + settings.ttl)), pending := Idle, revived := RevivedBy(s),
           transcript := s.transcript + Exchange(s.pending.prompt, response.value))
    case BeginSelect =>
      var l := Load(s);
      l.(pending := Selecting(Loaded(l.stored), s.clock, Behind(l), false))
    case EndSelect =>
      s.(stored := Some(Session(s.pending.loaded, s.pending.began + settings.ttl)), pending := Idle,
         revived := RevivedBy(s))
    case Clear => Deleted(s)
    case StatusLooks => s.(doomed := s.doomed + 1)
    case StatusDeletes => Deleted(s).(doomed := s.doomed - 1)
  }

  function Start(): State {
    State(0, None, Idle, 0, [], [])
  }

  ghost predicate IsRun(settings: Settings, states: seq<State>, events: seq<Event>) {
    && |states| == |events| + 1 && states[0] == Start()
    && forall i {:trigger events[i]} | 0 <= i < |events| ::
         Enabled(settings, states[i], events[i]) && states[i + 1] == After(settings, states[i], events[i])
  }

  /** The stored history is one trim of what was revived and everything since,
      and so is what a running ask loaded, of what was there then. */
  ghost predicate Inv(limits: Limits, s: State) {
    && Loaded(s.stored) == Trim(limits, Behind(s))
    && (!s.pending.Idle? ==>
          && s.pending.loaded == Trim(limits, s.pending.base)
          && Behind(s) == if s.pending.overtaken then [] else s.pending.base)
  }

  lemma PersistedIsTrim(limits: Limits, base: seq<Message>, prompt: string, answer: string)
    ensures Persisted(limits, Trim(limits, base), prompt, answer)
         == Trim(limits, base + Exchange(prompt, answer))
    ensures Request(limits, Trim(limits, base), prompt) == Trim(limits, base + [Message(User, prompt)])
  {
    hide Trim;
    var user, last := Message(User, prompt), Message(Assistant, answer);
    TrimAgain(limits, base, user);
    TrimAgain(limits, base + [user], last);
    assert base + [user] + [last] == base + [user, last];
  }

  /** With a new pair, what was revived and all since is what the ask stood on and the pair. */
  lemma JoinPair(revived: seq<Message>, since: seq<Message>, base: seq<Message>, overtaken: bool, pair: seq<Message>)
    requires revived + since == if overtaken then [] else base
    ensures (if overtaken then base else revived) + (since + pair) == base + pair
  {
    if overtaken {
      assert |revived + since| == |revived| + |since| == 0;
      assert since + pair == pair;
    } else {
      Regroup(revived, since, pair);
    }
  }

  lemma JoinNothing(revived: seq<Message>, since: seq<Message>, base: seq<Message>, overtaken: bool)
    requires revived + since == if overtaken then [] else base
    ensures (if overtaken then base else revived) + since == base
  {
    if overtaken {
      assert |revived + since| == |revived| + |since| == 0;
    }
  }

  /** After a save the row stands for what the ask stood on and the new pair. */
  lemma BehindSaved(settings: Settings, s: State, event: Event)
    requires Inv(settings.limits, s) && Enabled(settings, s, event)
    requires event.EndSelect? || (event.EndAsk? && event.response.Some?)
    ensures
      Behind(After(settings, s, event))
        == if event.EndSelect? then s.pending.base
          else s.pending.base + Exchange(s.pending.prompt, event.response.value)
  {
    hide Trim, Persisted, Exchange;
    if event.EndAsk? {
      var pair := Exchange(s.pending.prompt, event.response.value);
      JoinPair(s.revived, s.transcript, s.pending.base, s.pending.overtaken, pair);
    } else {
      JoinNothing(s.revived, s.transcript, s.pending.base, s.pending.overtaken);
    }
  }

  lemma EndAskKeeps(settings: Settings, s: State, answer: string)
    requires Inv(settings.limits, s) && Enabled(settings, s, EndAsk(Some(answer)))
    ensures Inv(settings.limits, After(settings, s, EndAsk(Some(answer))))
  {
    PersistedIsTrim(settings.limits, s.pending.base, s.pending.prompt, answer);
    BehindSaved(settings, s, EndAsk(Some(answer)));
    hide Trim, Persisted, Exchange, Behind;
  }

  lemma EndSelectKeeps(settings: Settings, s: State)
    requires Inv(settings.limits, s) && Enabled(settings, s, EndSelect)
    ensures Inv(settings.limits, After(settings, s, EndSelect))
  {
    BehindSaved(settings, s, EndSelect);
    hide Trim, Behind;
  }

  lemma DeleteKeeps(limits: Limits, s: State)
    requires Inv(limits, s)
    ensures Inv(limits, Deleted(s))
  {
    NothingStored(limits);
    hide Trim;
  }

  lemma NothingStored(limits: Limits)
    ensures var none: seq<Message> := []; none + none == none == Trim(limits, none)
  {
    assert Newest<Message>([], 0) == [];
  }

  lemma BeginKeeps(settings: Settings, s: State, event: Event)
    requires Inv(settings.limits, s) && Enabled(settings, s, event) && (event.BeginAsk? || event.BeginSelect?)
    ensures Inv(settings.limits, After(settings, s, event))
  {
    DeleteKeeps(settings.limits, s);
    hide Trim, Deleted;
  }

  lemma StepKeepsInv(settings: Settings, s: State, event: Event)
    requires Inv(settings.limits, s) && Enabled(settings, s, event)
    ensures Inv(settings.limits, After(settings, s, event))
  {
    hide Trim;
    match event
    case EndAsk(Some(answer)) => EndAskKeeps(settings, s, answer);
    case EndAsk(None) =>
    case EndSelect => EndSelectKeeps(settings, s);
    case BeginAsk(prompt) => BeginKeeps(settings, s, event);
    case BeginSelect => BeginKeeps(settings, s, event);
    case Clear => DeleteKeeps(settings.limits, s);
    case StatusDeletes => DeleteKeeps(settings.limits, s);
    case StatusLooks =>
    case Tick(now) =>
  }

  lemma StartKeepsInv(limits: Limits)
    ensures Inv(limits, Start())
  {
    NothingStored(limits);
    hide Trim;
  }

  lemma {:induction false} RunKeepsInv(settings: Settings, states: seq<State>, events: seq<Event>)
    requires IsRun(settings, states, events)
    ensures Inv(settings.limits, states[|events|])
    decreases |events|
  {
    hide Inv, Enabled, After;
    if events != [] {
      RunKeepsInv(settings, states[..|events|], events[..|events| - 1]);
      StepKeepsInv(settings, states[|events| - 1], events[|events| - 1]);
    } else {
      StartKeepsInv(settings.limits);
    }
  }

  /** The stored history is one trim of the transcript since the last reset. */
  ghost predicate StoredIsTrim(limits: Limits, s: State) {
    Loaded(s.stored) == Trim(limits, s.transcript)
  }

  /** After any run of asks, failures, model choices, clears and status calls the
      stored history is one trim of the whole transcript since the last reset if
      and only if nothing but answers of what was revived still fits before it. */
  lemma StoreRefinesTranscript(settings: Settings, states: seq<State>, events: seq<Event>)
    requires IsRun(settings, states, events)
    ensures
      var s := states[|events|];
      && Loaded(s.stored) == Trim(settings.limits, s.revived + s.transcript)
      && (StoredIsTrim(settings.limits, s) <==> !OldFits(settings.limits, s.revived, s.transcript))
  {
    RunKeepsInv(settings, states, events);
    OldLeavesNoTrace(settings.limits, states[|events|].revived, states[|events|].transcript);
  }

  /** No row was deleted while an ask or a model choice was between load and save. */
  ghost predicate NoneOvertaken(states: seq<State>, events: seq<Event>)
    requires |states| == |events| + 1
  {
    forall i | 0 <= i < |events| && events[i].StatusDeletes? :: states[i].pending.Idle?
  }

  lemma {:induction false} NothingRevived(settings: Settings, states: seq<State>, events: seq<Event>)
    requires IsRun(settings, states, events) && NoneOvertaken(states, events)
    ensures states[|events|].revived == []
    ensures !states[|events|].pending.Idle? ==> !states[|events|].pending.overtaken
    decreases |events|
  {
    if events != [] {
      var n := |events| - 1;
      NothingRevived(settings, states[..|events|], events[..n]);
      assert Enabled(settings, states[n], events[n]);
      hide Persisted, Behind;
    }
  }

  /** If no status call deletes the row between a load and its save, the stored
      history is one trim of the whole transcript since the last reset, and so
      is every request with its prompt. */
  lemma UndisturbedStoreIsTrim(settings: Settings, states: seq<State>, events: seq<Event>)
    requires IsRun(settings, states, events) && NoneOvertaken(states, events)
    ensures
      var s := states[|events|];
      && StoredIsTrim(settings.limits, s)
      && (s.pending.Asking? ==>
            Request(settings.limits, s.pending.loaded, s.pending.prompt)
            == Trim(settings.limits, s.transcript + [Message(User, s.pending.prompt)]))
  {
    hide Trim;
    RunKeepsInv(settings, states, events);
    NothingRevived(settings, states, events);
    var s := states[|events|];
    assert [] + s.transcript == s.transcript;
    if s.pending.Asking? {
      PersistedIsTrim(settings.limits, s.pending.base, s.pending.prompt, "");
    }
  }

  ghost predicate Reachable(settings: Settings, s: State) {
    exists states: seq<State>, events: seq<Event> :: IsRun(settings, states, events) && states[|events|] == s
  }

  lemma ReachStart(settings: Settings)
    ensures Reachable(settings, Start())
  {
    assert IsRun(settings, [Start()], []) && [Start()][0] == Start();
  }

  lemma ReachNext(settings: Settings, s: State, event: Event)
    requires Reachable(settings, s) && Enabled(settings, s, event)
    ensures Reachable(settings, After(settings, s, event))
  {
    hide Enabled, After;
    var states: seq<State>, events: seq<Event> :| IsRun(settings, states, events) && states[|events|] == s;
    var next := After(settings, s, event);
    assert IsRun(settings, states + [next], events + [event]);
    assert (states + [next])[|events + [event]|] == next;
  }

  /** An ask that nothing comes between. */
  function Asked(settings: Settings, s: State, prompt: string, answer: string): State
    requires s.pending.Idle? && Accepted(settings.limits, prompt)
  {
    After(settings, After(settings, s, BeginAsk(prompt)), EndAsk(Some(answer)))
  }

  /** A status call that deletes an expired row while an ask with that row's
      messages waits for its answer. */
  function AskedAcrossExpiry(settings: Settings, s: State, prompt: string, answer: string): State
    requires s.pending.Idle? && Accepted(settings.limits, prompt)
    requires s.stored.Some? && s.clock < s.stored.value.expiresAt
  {
    var loaded := After(settings, s, BeginAsk(prompt));
    var late := After(settings, loaded, Tick(s.stored.value.expiresAt));
    var gone := After(settings, After(settings, late, StatusLooks), StatusDeletes);
    After(settings, gone, EndAsk(Some(answer)))
  }

  /** Nothing is trimmed of a history that fits and does not open with an answer. */
  lemma FittingStays(limits: Limits, messages: seq<Message>)
    requires Fits(limits, Length, messages) && (messages != [] ==> !messages[0].role.Assistant?)
    ensures Trim(limits, messages) == messages
  {
    assert Newest(messages, |messages|) == messages;
    KeptIsLongestFit(limits, Length, messages, |messages|);
  }

  lemma WholeFits(limits: Limits, loaded: seq<Message>, prompt: string, answer: string)
    requires loaded != [] ==> !loaded[0].role.Assistant?
    requires Fits(limits, Length, loaded + Exchange(prompt, answer))
    ensures Persisted(limits, loaded, prompt, answer) == loaded + Exchange(prompt, answer)
  {
    hide Trim;
    var user, last := Message(User, prompt), Message(Assistant, answer);
    assert loaded + [user] + [last] == loaded + [user, last];
    TotalAppend(Length, loaded + [user], [last]);
    FittingStays(limits, loaded + [user]);
    FittingStays(limits, loaded + [user, last]);
  }

  lemma AcrossExpiryIs(settings: Settings, s: State, prompt: string, answer: string)
    requires s.pending.Idle? && Accepted(settings.limits, prompt)
    requires s.stored.Some? && s.clock < s.stored.value.expiresAt
    ensures
      var saved := Persisted(settings.limits, s.stored.value.messages, prompt, answer);
      AskedAcrossExpiry(settings, s, prompt, answer) ==
      State(s.stored.value.expiresAt, Some(Session(saved, s.clock + settings.ttl)), Idle, s.doomed,
            s.revived + s.transcript, Exchange(prompt, answer))
  {
    hide Persisted;
    var pair := Exchange(prompt, answer);
    assert [] + pair == pair;
  }

  lemma AcrossExpiryReachable(settings: Settings, s: State, prompt: string, answer: string)
    requires s.pending.Idle? && Accepted(settings.limits, prompt)
    requires s.stored.Some? && s.clock < s.stored.value.expiresAt && Reachable(settings, s)
    ensures Reachable(settings, AskedAcrossExpiry(settings, s, prompt, answer))
  {
    hide Reachable, Persisted;
    var loaded := After(settings, s, BeginAsk(prompt));
    var late := After(settings, loaded, Tick(s.stored.value.expiresAt));
    var seen := After(settings, late, StatusLooks);
    var gone := After(settings, seen, StatusDeletes);
    ReachNext(settings, s, BeginAsk(prompt));
    ReachNext(settings, loaded, Tick(s.stored.value.expiresAt));
    ReachNext(settings, late, StatusLooks);
    ReachNext(settings, seen, StatusDeletes);
    ReachNext(settings, gone, EndAsk(Some(answer)));
  }

  /** That ask brings the expired history back: whatever was stored is stored
      again with the new pair behind it, and is no trim of the new transcript. */
  lemma ExpiredHistoryReturns(settings: Settings, s: State, prompt: string, answer: string)
    requires s.pending.Idle? && Accepted(settings.limits, prompt)
    requires s.stored.Some? && s.clock < s.stored.value.expiresAt
    requires s.stored.value.messages != [] && !s.stored.value.messages[0].role.Assistant?
    requires Fits(settings.limits, Length, s.stored.value.messages + Exchange(prompt, answer))
    ensures
      var s', pair := AskedAcrossExpiry(settings, s, prompt, answer), Exchange(prompt, answer);
      && s'.transcript == pair
      && Loaded(s'.stored) == s.stored.value.messages + pair
      && !StoredIsTrim(settings.limits, s')
  {
    hide Persisted, AskedAcrossExpiry, Fits;
    AcrossExpiryIs(settings, s, prompt, answer);
    WholeFits(settings.limits, s.stored.value.messages, prompt, answer);
    TrimParts(settings.limits, Exchange(prompt, answer));
  }

  lemma ShortFits(limits: Limits, messages: seq<Message>)
    requires limits.maxMessages >= 4 && limits.maxCharacters >= 4 && |messages| <= 4
    requires forall i | 0 <= i < |messages| :: |messages[i].content| == 1
    ensures Fits(limits, Length, messages)
  {
    ShortTotal(messages);
  }

  lemma {:induction false} ShortTotal(messages: seq<Message>)
    requires forall i | 0 <= i < |messages| :: |messages[i].content| == 1
    ensures Total(Length, messages) == |messages|
  {
    if messages != [] {
      ShortTotal(messages[..|messages| - 1]);
    }
  }

  /** The stored history can differ from the trim of its transcript. */
  lemma RevivalReachable(settings: Settings)
    requires settings.ttl > 0 && settings.limits.maxMessages >= 4 && settings.limits.maxCharacters >= 4
    ensures exists s: State :: Reachable(settings, s) && !StoredIsTrim(settings.limits, s)
  {
    hide StoredIsTrim, Reachable, Persisted, Fits;
    var asked := Asked(settings, Start(), "a", "b");
    ReachStart(settings);
    ReachNext(settings, Start(), BeginAsk("a"));
    ReachNext(settings, After(settings, Start(), BeginAsk("a")), EndAsk(Some("b")));
    var pair := Exchange("a", "b");
    ShortFits(settings.limits, [] + pair);
    WholeFits(settings.limits, [], "a", "b");
    ShortFits(settings.limits, pair + pair);
    assert [] + pair == pair;
    assert asked.stored == Some(Session(pair, settings.ttl));
    AcrossExpiryReachable(settings, asked, "a", "b");
    ExpiredHistoryReturns(settings, asked, "a", "b");
  }

  /** A status call can delete a row that a later ask stored and that has not
      expired: its look and its delete are two steps without the lock. */
  lemma FreshRowCanBeDeleted(settings: Settings)
    requires settings.ttl > 0 && settings.limits.maxCharacters >= 1
    ensures exists s: State ::
              Reachable(settings, s) && s.stored.Some? && !Expired(s.stored, s.clock)
                && Enabled(settings, s, StatusDeletes)
  {
    hide Persisted, Reachable;
    var asked := Asked(settings, Start(), "a", "b");
    ReachStart(settings);
    ReachNext(settings, Start(), BeginAsk("a"));
    ReachNext(settings, After(settings, Start(), BeginAsk("a")), EndAsk(Some("b")));
    var late := After(settings, asked, Tick(settings.ttl));
    ReachNext(settings, asked, Tick(settings.ttl));
    var seen := After(settings, late, StatusLooks);
    ReachNext(settings, late, StatusLooks);
    ReachNext(settings, seen, BeginAsk("a"));
    ReachNext(settings, After(settings, seen, BeginAsk("a")), EndAsk(Some("b")));
    var again := Asked(settings, seen, "a", "b");
    assert again.stored.Some? && !Expired(again.stored, again.clock) && again.doomed == 1;
  }
}
