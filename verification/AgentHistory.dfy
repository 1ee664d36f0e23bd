/** What a run is shown of its thread: the messages after the cut that a bounded
    load returns, trimmed, with every tool pair whole. */
module AgentHistory {
  import opened Common
  import opened Budget
  import opened SummarySelection
  import AgentThread
  import AgentContext

  type Item = AgentContext.Item

  /** The item of each message keeps its role and kind. */
  ghost predicate SameHeadings(items: seq<Item>, messages: seq<Stored>) {
    && |items| == |messages|
    && forall i | 0 <= i < |items| ::
         items[i].role == messages[i].message.role && items[i].kind == messages[i].message.kind
  }

  /** The items of each turn. */
  ghost predicate TurnItems(parts: seq<seq<Item>>, turns: seq<seq<Stored>>) {
    |parts| == |turns| && forall i | 0 <= i < |parts| :: SameHeadings(parts[i], turns[i])
  }

  ghost predicate BothOrNeither(items: seq<Item>, id: Option<string>) {
    AgentContext.Has(items, ToolCall, id) <==> AgentContext.Has(items, ToolResult, id)
  }

  /** An id with a call and a result somewhere has both or neither in each turn.
      A call that was rejected and never answered may stand alone. */
  ghost predicate AnsweredWhereCalled(parts: seq<seq<Item>>) {
    forall i, id | 0 <= i < |parts| && id in AgentContext.PairedIds(Flatten(parts)) :: BothOrNeither(parts[i], id)
  }

  /** A user message opens each part and stands nowhere else in it. */
  ghost predicate OneQuestion(part: seq<Item>) {
    part != [] && forall i | 0 < i < |part| :: !part[i].role.User?
  }

  lemma TurnHasOneQuestion(part: seq<Item>, turn: seq<Stored>)
    requires SameHeadings(part, turn) && CompleteTurn(turn)
    ensures OneQuestion(part)
  {
  }

  lemma HeadingsAppend(a: seq<Item>, b: seq<Item>, first: seq<Stored>, rest: seq<Stored>)
    requires SameHeadings(a, first) && SameHeadings(b, rest)
    ensures SameHeadings(a + b, first + rest)
  {
  }

  lemma {:induction false} FlattenHeadings(parts: seq<seq<Item>>, turns: seq<seq<Stored>>)
    requires TurnItems(parts, turns)
    ensures SameHeadings(Flatten(parts), Flatten(turns))
  {
    if parts != [] {
      hide SameHeadings;
      FlattenHeadings(parts[1..], turns[1..]);
      HeadingsAppend(parts[0], Flatten(parts[1..]), turns[0], Flatten(turns[1..]));
    }
  }

  lemma HasAppend(a: seq<Item>, b: seq<Item>, kind: Kind, id: Option<string>)
    ensures AgentContext.Has(a + b, kind, id) <==> AgentContext.Has(a, kind, id) || AgentContext.Has(b, kind, id)
  {
    if AgentContext.Has(a, kind, id) {
      var i := AgentContext.Where(a, kind, id);
      assert (a + b)[i] == a[i];
    }
    if AgentContext.Has(b, kind, id) {
      var i := AgentContext.Where(b, kind, id);
      assert (a + b)[|a| + i] == b[i];
    }
  }

  /** What holds of an id in each part holds of it in the whole. */
  lemma {:induction false} FlattenBothOrNeither(parts: seq<seq<Item>>, id: Option<string>)
    requires forall i | 0 <= i < |parts| :: BothOrNeither(parts[i], id)
    ensures BothOrNeither(Flatten(parts), id)
  {
    if parts != [] {
      FlattenBothOrNeither(parts[1..], id);
      HasAppend(parts[0], Flatten(parts[1..]), ToolCall, id);
      HasAppend(parts[0], Flatten(parts[1..]), ToolResult, id);
      hide AgentContext.Has;
    }
  }

  /** An id that is paired in a later part of a history is paired in all of it. */
  lemma PairedLater(items: seq<Item>, from: nat, id: Option<string>)
    requires from <= |items| && id in AgentContext.PairedIds(items[from..])
    ensures id in AgentContext.PairedIds(items)
  {
    assert items[..from] + items[from..] == items;
    HasAppend(items[..from], items[from..], ToolCall, id);
    HasAppend(items[..from], items[from..], ToolResult, id);
  }

  /** A user message of the whole begins one of the parts. */
  lemma {:induction false} QuestionOpensPart(parts: seq<seq<Item>>, user: nat) returns (part: nat)
    requires forall i | 0 <= i < |parts| :: OneQuestion(parts[i])
    requires user < |Flatten(parts)| && Flatten(parts)[user].role.User?
    ensures part <= |parts| && Flatten(parts)[user..] == Flatten(parts[part..])
  {
    if user < |parts[0]| {
      part := 0;
      assert Flatten(parts)[user] == parts[0][user];
      assert parts[0..] == parts;
    } else {
      var later := QuestionOpensPart(parts[1..], user - |parts[0]|);
      part := later + 1;
      assert parts[1..][later..] == parts[part..];
      assert Flatten(parts)[user..] == Flatten(parts[1..])[user - |parts[0]|..];
    }
  }

  lemma {:induction false} TailNotTorn(parts: seq<seq<Item>>, part: nat, skip: nat, user: nat)
    requires AnsweredWhereCalled(parts) && part <= |parts|
    requires skip + user <= |Flatten(parts)| && Flatten(parts)[skip + user..] == Flatten(parts[part..])
    ensures !AgentContext.TornAt(Flatten(parts)[skip..], user)
  {
    var all := Flatten(parts);
    assert all[skip..][user..] == Flatten(parts[part..]);
    forall id | id in AgentContext.PairedIds(all[skip..]) ensures BothOrNeither(Flatten(parts[part..]), id) {
      PairedLater(all, skip, id);
      FlattenBothOrNeither(parts[part..], id);
    }
    hide AgentContext.Has, AgentContext.PairedIds, Flatten;
  }

  lemma {:induction false} NoTurnTorn(parts: seq<seq<Item>>, turns: seq<seq<Stored>>, skip: nat)
    requires TurnItems(parts, turns) && AllComplete(turns) && skip <= |Flatten(parts)|
    requires AnsweredWhereCalled(parts)
    ensures AgentContext.TurnsKeepPairs(Flatten(parts)[skip..])
  {
    hide AnsweredWhereCalled, AgentContext.TornAt;
    var all := Flatten(parts);
    forall user | 0 <= user < |all| - skip && all[skip..][user].role.User?
      ensures !AgentContext.TornAt(all[skip..], user) {
      forall i | 0 <= i < |parts| ensures OneQuestion(parts[i]) {
        TurnHasOneQuestion(parts[i], turns[i]);
      }
      var part := QuestionOpensPart(parts, skip + user);
      TailNotTorn(parts, part, skip, user);
    }
  }

  lemma {:induction false} NewestKeepsPairs(parts: seq<seq<Item>>, turns: seq<seq<Stored>>, count: nat, limits: Limits)
    requires TurnItems(parts, turns) && AllComplete(turns) && count <= |Flatten(parts)|
    requires AnsweredWhereCalled(parts)
    ensures AgentContext.PairsKept(AgentContext.TrimHistory(limits, Newest(Flatten(parts), count)))
  {
    hide AgentContext.PairsKept, TurnItems, AnsweredWhereCalled, AgentContext.TurnsKeepPairs;
    hide AgentContext.TrimHistory, AllComplete, Flatten;
    NoTurnTorn(parts, turns, |Flatten(parts)| - count);
    AgentContext.PairsStayTogether(limits, Newest(Flatten(parts), count));
  }

  lemma BehindCut(s: AgentThread.State, turns: seq<seq<Stored>>, count: nat)
    requires AgentThread.NothingLost(s, turns, count)
    ensures AgentThread.After(AgentThread.Visible(s.log, s.runs), s.cut) == Flatten(turns[count..])
    ensures AllComplete(turns[count..])
  {
    hide AgentThread.Visible, AgentThread.After, AgentThread.UpTo, AgentThread.EndOf, Flatten;
    FlattenSplit(turns, count);
    SameRest(Flatten(s.saved), AgentThread.After(AgentThread.Visible(s.log, s.runs), s.cut), Flatten(turns[count..]));
  }

  lemma SameRest(first: seq<Stored>, a: seq<Stored>, b: seq<Stored>)
    requires first + a == first + b
    ensures a == b
  {
    assert a == (first + a)[|first|..] && b == (first + b)[|first|..];
  }

  /** Whatever happened to a thread, when a result comes in the same turn as its
      call: the messages that a bounded load returns after the cut are the newest
      of the history behind it, and trimming them keeps every tool pair whole,
      even where the load began inside a turn. A call without any result is
      filtered out. */
  lemma {:induction false} LoadedHistoryKeepsPairs(s: AgentThread.State, turns: seq<seq<Stored>>, count: nat,
                                                   parts: seq<seq<Item>>, limit: nat, limits: Limits)
    requires AgentThread.NothingLost(s, turns, count)
    requires TurnItems(parts, turns[count..]) && AnsweredWhereCalled(parts)
    ensures
      var behind := AgentThread.After(AgentThread.Visible(s.log, s.runs), s.cut);
      && SameHeadings(Flatten(parts), behind)
      && AgentContext.PairsKept(AgentContext.TrimHistory(limits, Newest(Flatten(parts), Min(limit, |behind|))))
  {
    var behind := AgentThread.After(AgentThread.Visible(s.log, s.runs), s.cut);
    BehindCut(s, turns, count);
    FlattenHeadings(parts, turns[count..]);
    NewestKeepsPairs(parts, turns[count..], Min(limit, |Flatten(parts)|), limits);
    hide AgentThread.NothingLost, AgentThread.Visible, AnsweredWhereCalled;
    hide AgentThread.After, AgentContext.TrimHistory, AgentContext.PairsKept;
  }
}
