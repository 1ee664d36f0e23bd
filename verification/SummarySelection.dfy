/** Which messages a background summary takes: whole turns only, oldest first. */
module SummarySelection {
  import opened Common

  datatype Role = User | Assistant | Tool

  datatype Kind = Text | Multimodal | ToolCall | ToolResult

  datatype Message = Message(role: Role, kind: Kind, content: string)

  /** A message with the sequence number its thread gave it. */
  datatype Stored = Stored(sequence: nat, message: Message)

  predicate Opens(m: Stored) { m.message.role.User? }

  predicate Closes(m: Stored) { m.message.role.Assistant? && m.message.kind.Text? }

  /** What the engine may report between the question and the answer. */
  predicate Between(m: Stored) {
    || (m.message.role.Assistant? && m.message.kind.ToolCall?)
    || (m.message.role.Tool? && m.message.kind.ToolResult?)
  }

  /** One user message, tool traffic, one assistant text. */
  ghost predicate CompleteTurn(turn: seq<Stored>) {
    && |turn| >= 2
    && Opens(turn[0])
    && Closes(turn[|turn| - 1])
    && forall i | 0 < i < |turn| - 1 :: Between(turn[i])
  }

  ghost predicate AllComplete(turns: seq<seq<Stored>>) {
    forall i | 0 <= i < |turns| :: CompleteTurn(turns[i])
  }

  // ---- specification of the selection ----

  function AddTo(turns: seq<seq<Stored>>, m: Stored): seq<seq<Stored>> {
    if Opens(m) then turns + [[m]]
    else if turns == [] then []
    else turns[..|turns| - 1] + [turns[|turns| - 1] + [m]]
  }

  /** Each user message opens a turn; what precedes the first one is ignored. */
  function SplitTurns(messages: seq<Stored>): seq<seq<Stored>> {
    if messages == [] then []
    else AddTo(SplitTurns(messages[..|messages| - 1]), messages[|messages| - 1])
  }

  predicate Finished(turn: seq<Stored>) {
    turn != [] && Closes(turn[|turn| - 1])
  }

  function FinishedTurns(turns: seq<seq<Stored>>): seq<seq<Stored>> {
    if turns == [] then []
    else FinishedTurns(turns[..|turns| - 1]) + (if Finished(turns[|turns| - 1]) then [turns[|turns| - 1]] else [])
  }

  /** Oldest turns first, as long as enough messages remain behind them. */
  function TakeTurns(turns: seq<seq<Stored>>, remaining: int, retain: nat): seq<Stored> {
    if turns == [] || remaining - |turns[0]| < retain then []
    else turns[0] + TakeTurns(turns[1..], remaining - |turns[0]|, retain)
  }

  function Selected(messages: seq<Stored>, retain: nat): seq<Stored> {
    var turns := FinishedTurns(SplitTurns(messages));
    TakeTurns(turns, |Flatten(turns)|, retain)
  }

  // ---- the loops ----

  lemma AddInPlace(turns: seq<seq<Stored>>, m: Stored)
    ensures
      var begun := if Opens(m) then turns + [[]] else turns;
      var last := |begun| - 1;
      (if begun != [] then begun[last := begun[last] + [m]] else begun) == AddTo(turns, m)
  {
    if Opens(m) {
      var begun := turns + [[]];
      assert begun[|turns|] + [m] == [m];
      assert begun[|turns| := [m]] == turns + [[m]];
    }
  }

  method SelectCompleteTurns(messages: seq<Stored>, retain: nat) returns (selected: seq<Stored>)
    ensures selected == Selected(messages, retain)
  {
    var turns := GroupTurns(messages);
    var finished := KeepFinished(turns);
    var remaining := CountMessages(finished);
    selected := TakeOldest(finished, remaining, retain);
  }

  method GroupTurns(messages: seq<Stored>) returns (turns: seq<seq<Stored>>)
    ensures turns == SplitTurns(messages)
  {
    hide AddTo;
    turns := [];
    for i := 0 to |messages|
      invariant turns == SplitTurns(messages[..i])
    {
      assert messages[..i + 1][..i] == messages[..i];
      AddInPlace(turns, messages[i]);
      if messages[i].message.role.User? {
        turns := turns + [[]];
      }
      if turns != [] {
        turns := turns[|turns| - 1 := turns[|turns| - 1] + [messages[i]]];
      }
    }
    assert messages[..|messages|] == messages;
  }

  method TakeOldest(turns: seq<seq<Stored>>, total: int, retain: nat) returns (selected: seq<Stored>)
    ensures selected == TakeTurns(turns, total, retain)
  {
    selected := [];
    var left, remaining := turns, total;
    while left != []
      invariant selected + TakeTurns(left, remaining, retain) == TakeTurns(turns, total, retain)
      decreases |left|
    {
      var turn := left[0];
      if remaining - |turn| < retain {
        break;
      }
      selected := selected + turn;
      remaining := remaining - |turn|;
      left := left[1..];
    }
  }

  method KeepFinished(turns: seq<seq<Stored>>) returns (finished: seq<seq<Stored>>)
    ensures finished == FinishedTurns(turns)
  {
    finished := [];
    for i := 0 to |turns|
      invariant finished == FinishedTurns(turns[..i])
    {
      assert turns[..i + 1][..i] == turns[..i];
      if turns[i] != [] && turns[i][|turns[i]| - 1].message.role.Assistant?
        && turns[i][|turns[i]| - 1].message.kind.Text? {
        finished := finished + [turns[i]];
      }
    }
    assert turns[..|turns|] == turns;
  }

  method CountMessages(turns: seq<seq<Stored>>) returns (count: nat)
    ensures count == |Flatten(turns)|
  {
    count := 0;
    for i := 0 to |turns|
      invariant count == |Flatten(turns[..i])|
    {
      assert turns[..i + 1] == turns[..i] + [turns[i]];
      FlattenAppend(turns[..i], [turns[i]]);
      FlattenSingle(turns[i]);
      count := count + |turns[i]|;
    }
    assert turns[..|turns|] == turns;
  }

  // ---- splitting a history of complete turns ----

  /** The start of a complete turn: one user message and none after it. */
  ghost predicate TurnStart(part: seq<Stored>) {
    part != [] && Opens(part[0]) && forall i | 0 < i < |part| :: !Opens(part[i])
  }

  lemma {:induction false} SplitNextTurn(messages: seq<Stored>, part: seq<Stored>)
    requires TurnStart(part)
    ensures SplitTurns(messages + part) == SplitTurns(messages) + [part]
    decreases |part|
  {
    var n := |part| - 1;
    assert (messages + part)[..|messages| + n] == messages + part[..n];
    if n == 0 {
      assert messages + part[..n] == messages && part == [part[0]];
    } else {
      SplitNextTurn(messages, part[..n]);
      assert part == part[..n] + [part[n]];
    }
  }

  lemma {:induction false} SplitWholeTurns(turns: seq<seq<Stored>>)
    requires AllComplete(turns)
    ensures SplitTurns(Flatten(turns)) == turns
  {
    if turns != [] {
      var n := |turns| - 1;
      SplitWholeTurns(turns[..n]);
      assert turns == turns[..n] + [turns[n]];
      FlattenAppend(turns[..n], [turns[n]]);
      FlattenSingle(turns[n]);
      SplitNextTurn(Flatten(turns[..n]), turns[n]);
    }
  }

  lemma {:induction false} WholeTurnsFinished(turns: seq<seq<Stored>>)
    requires AllComplete(turns)
    ensures FinishedTurns(turns) == turns
  {
    hide CompleteTurn, Finished;
    if turns != [] {
      CompleteIsFinished(turns[|turns| - 1]);
      WholeTurnsFinished(turns[..|turns| - 1]);
    }
  }

  lemma CompleteIsFinished(turn: seq<Stored>)
    requires CompleteTurn(turn)
    ensures Finished(turn)
  {
  }

  /** How many whole turns fit into a window of the oldest messages. */
  function TurnsWithin(turns: seq<seq<Stored>>, window: nat): (count: nat)
    ensures count <= |turns|
  {
    if turns == [] || |turns[0]| > window then 0 else 1 + TurnsWithin(turns[1..], window - |turns[0]|)
  }

  function Window(messages: seq<Stored>, limit: nat): seq<Stored> {
    if |messages| <= limit then messages else messages[..limit]
  }

  /** A window holds the turns that fit and a strict beginning of the next one. */
  lemma {:induction false} WindowOfTurns(turns: seq<seq<Stored>>, limit: nat) returns (rest: seq<Stored>)
    ensures Window(Flatten(turns), limit) == Flatten(turns[..TurnsWithin(turns, limit)]) + rest
    ensures TurnsWithin(turns, limit) == |turns| ==> rest == []
    ensures TurnsWithin(turns, limit) < |turns| ==> rest < turns[TurnsWithin(turns, limit)]
    decreases |turns|
  {
    if turns == [] {
      rest := [];
    } else if |turns[0]| > limit {
      rest := turns[0][..limit];
      assert Flatten(turns)[..limit] == rest;
      assert Flatten(turns[..0]) == [];
    } else {
      rest := WindowOfTurns(turns[1..], limit - |turns[0]|);
      var count := TurnsWithin(turns, limit);
      FirstTurnOff(turns, count);
      assert Window(Flatten(turns), limit) == turns[0] + Window(Flatten(turns[1..]), limit - |turns[0]|);
      assert turns[0] + (Flatten(turns[1..][..count - 1]) + rest) == turns[0] + Flatten(turns[1..][..count - 1]) + rest;
    }
  }

  lemma FirstTurnOff(turns: seq<seq<Stored>>, count: nat)
    requires 0 < count <= |turns|
    ensures Flatten(turns[..count]) == turns[0] + Flatten(turns[1..][..count - 1])
  {
    assert turns[..count][1..] == turns[1..][..count - 1];
  }

  /** Of a window over complete turns exactly the turns that fit are candidates. */
  lemma {:induction false} CandidatesAreWholeTurns(turns: seq<seq<Stored>>, limit: nat)
    requires AllComplete(turns)
    ensures FinishedTurns(SplitTurns(Window(Flatten(turns), limit))) == turns[..TurnsWithin(turns, limit)]
  {
    var rest := WindowOfTurns(turns, limit);
    var whole := turns[..TurnsWithin(turns, limit)];
    SplitWholeTurns(whole);
    WholeTurnsFinished(whole);
    if rest == [] {
      assert Flatten(whole) + rest == Flatten(whole);
    } else {
      var next := turns[TurnsWithin(turns, limit)];
      BeginningOfTurn(next, rest);
      hide CompleteTurn, TurnStart, Finished, Window, Flatten, SplitTurns;
      SplitNextTurn(Flatten(whole), rest);
      assert (whole + [rest])[..|whole|] == whole;
    }
  }

  /** A strict beginning of a complete turn is no finished turn. */
  lemma BeginningOfTurn(turn: seq<Stored>, part: seq<Stored>)
    requires CompleteTurn(turn) && part != [] && part < turn
    ensures TurnStart(part) && !Finished(part)
  {
    assert forall i | 0 <= i < |part| :: part[i] == turn[i];
  }

  /** How many of the candidate turns are taken. */
  function TakenCount(turns: seq<seq<Stored>>, remaining: int, retain: nat): (count: nat)
    ensures count <= |turns|
  {
    if turns == [] || remaining - |turns[0]| < retain then 0
    else 1 + TakenCount(turns[1..], remaining - |turns[0]|, retain)
  }

  lemma {:induction false} TakenAreFirst(turns: seq<seq<Stored>>, remaining: int, retain: nat)
    ensures TakeTurns(turns, remaining, retain) == Flatten(turns[..TakenCount(turns, remaining, retain)])
    ensures TakenCount(turns, remaining, retain) > 0 ==> remaining - |TakeTurns(turns, remaining, retain)| >= retain
    decreases |turns|
  {
    var count := TakenCount(turns, remaining, retain);
    if count > 0 {
      TakenAreFirst(turns[1..], remaining - |turns[0]|, retain);
      FirstTurnOff(turns, count);
    } else {
      assert turns[..0] == [];
    }
  }

  function SelectedTurns(turns: seq<seq<Stored>>, limit: nat, retain: nat): (count: nat)
    ensures count <= |turns|
  {
    var whole := turns[..TurnsWithin(turns, limit)];
    TakenCount(whole, |Flatten(whole)|, retain)
  }

  lemma {:induction false} FlattenSplit(turns: seq<seq<Stored>>, at: nat)
    requires at <= |turns|
    ensures Flatten(turns) == Flatten(turns[..at]) + Flatten(turns[at..])
  {
    assert turns == turns[..at] + turns[at..];
    FlattenAppend(turns[..at], turns[at..]);
  }

  lemma {:induction false} SelectionIsTaken(turns: seq<seq<Stored>>, limit: nat, retain: nat)
    requires AllComplete(turns)
    ensures
      var whole, count := turns[..TurnsWithin(turns, limit)], SelectedTurns(turns, limit, retain);
      && Selected(Window(Flatten(turns), limit), retain) == Flatten(turns[..count])
      && (count > 0 ==> |Flatten(whole)| - |Flatten(turns[..count])| >= retain)
  {
    var whole := turns[..TurnsWithin(turns, limit)];
    CandidatesAreWholeTurns(turns, limit);
    TakenAreFirst(whole, |Flatten(whole)|, retain);
    assert whole[..SelectedTurns(turns, limit, retain)] == turns[..SelectedTurns(turns, limit, retain)];
  }

  /** From a history of complete turns the selection is the oldest so many
      turns, whole, and it leaves the retained number of messages behind. */
  lemma {:induction false} SelectionIsWholeTurns(turns: seq<seq<Stored>>, limit: nat, retain: nat)
    requires AllComplete(turns)
    ensures
      var count := SelectedTurns(turns, limit, retain);
      && Selected(Window(Flatten(turns), limit), retain) == Flatten(turns[..count])
      && (count > 0 ==> |Flatten(turns[count..])| >= retain)
  {
    SelectionIsTaken(turns, limit, retain);
    FlattenSplit(turns, TurnsWithin(turns, limit));
    FlattenSplit(turns, SelectedTurns(turns, limit, retain));
  }

  /** A summary happens exactly when the oldest turn fits into the window and
      the whole turns behind it hold the retained number of messages. */
  lemma {:induction false} SelectsIffOldestFits(turns: seq<seq<Stored>>, limit: nat, retain: nat)
    requires AllComplete(turns)
    ensures
      var whole := turns[..TurnsWithin(turns, limit)];
      Selected(Window(Flatten(turns), limit), retain) != [] <==>
        turns != [] && |turns[0]| <= limit && |Flatten(whole)| - |turns[0]| >= retain
  {
    var whole := turns[..TurnsWithin(turns, limit)];
    var count := SelectedTurns(turns, limit, retain);
    SelectionIsWholeTurns(turns, limit, retain);
    if count > 0 {
      FirstTurnOff(turns, count);
      assert whole[0] == turns[0];
    } else {
      assert Flatten(turns[..0]) == [];
      if turns != [] && |turns[0]| <= limit {
        assert whole[0] == turns[0];
      }
    }
  }

  /** How many turns fit is decided by their lengths alone. */
  lemma {:induction false} WithinIff(turns: seq<seq<Stored>>, window: nat, count: nat)
    requires count <= |turns|
    ensures count <= TurnsWithin(turns, window) <==> |Flatten(turns[..count])| <= window
  {
    if count > 0 {
      FirstTurnOff(turns, count);
      if |turns[0]| <= window {
        WithinIff(turns[1..], window - |turns[0]|, count - 1);
      }
    } else {
      assert Flatten(turns[..0]) == [];
    }
  }

  lemma {:induction false} TakenIff(turns: seq<seq<Stored>>, remaining: int, retain: nat, count: nat)
    requires count <= |turns|
    ensures count <= TakenCount(turns, remaining, retain) <==>
              count == 0 || remaining - |Flatten(turns[..count])| >= retain
    decreases count
  {
    if count > 0 {
      FirstTurnOff(turns, count);
      if remaining - |turns[0]| >= retain {
        TakenIff(turns[1..], remaining - |turns[0]|, retain, count - 1);
      }
    }
  }

  /** As many turns are taken as can be: the first so many exactly when the
      window holds whole turns behind them with the retained number of messages. */
  lemma {:induction false} SelectionIsMost(turns: seq<seq<Stored>>, limit: nat, retain: nat, count: nat)
    requires AllComplete(turns) && 0 < count <= |turns|
    ensures Selected(Window(Flatten(turns), limit), retain) == Flatten(turns[..SelectedTurns(turns, limit, retain)])
    ensures count <= SelectedTurns(turns, limit, retain) <==>
              exists whole: nat | count <= whole <= |turns| ::
                |Flatten(turns[..whole])| <= limit && |Flatten(turns[..whole])| - |Flatten(turns[..count])| >= retain
  {
    SelectionIsWholeTurns(turns, limit, retain);
    var within := TurnsWithin(turns, limit);
    WithinIff(turns, limit, within);
    if count <= within {
      TakenIff(turns[..within], |Flatten(turns[..within])|, retain, count);
      assert turns[..within][..count] == turns[..count];
    }
    forall whole: nat | count <= whole <= |turns| && |Flatten(turns[..whole])| <= limit
      ensures whole <= within && |Flatten(turns[..whole])| <= |Flatten(turns[..within])|
    {
      WithinIff(turns, limit, whole);
      FlattenSplit(turns[..within], whole);
      assert turns[..within][..whole] == turns[..whole];
    }
  }

  /** Messages before the first user message belong to no turn. */
  lemma {:induction false} SplitIgnoresPrefix(prefix: seq<Stored>, messages: seq<Stored>)
    requires forall i | 0 <= i < |prefix| :: !Opens(prefix[i])
    ensures SplitTurns(prefix + messages) == SplitTurns(messages)
    decreases |prefix| + |messages|
  {
    if messages != [] {
      SplitIgnoresPrefix(prefix, messages[..|messages| - 1]);
      assert (prefix + messages)[..|prefix + messages| - 1] == prefix + messages[..|messages| - 1];
    } else if prefix != [] {
      SplitIgnoresPrefix(prefix[..|prefix| - 1], []);
      assert prefix[..|prefix| - 1] + [] == prefix[..|prefix| - 1] && prefix + [] == prefix;
    }
  }
}
