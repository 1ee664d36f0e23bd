/** Which messages of a history an agent run is shown, message by message. */
module AgentTrim {
  import opened Common
  import opened Budget
  import opened SummarySelection
  import opened AgentContext

  function SizeSum(items: seq<Item>): nat {
    if items == [] then 0 else items[0].size + SizeSum(items[1..])
  }

  /** The messages from an index on are within both limits. */
  predicate FitsFrom(limits: Limits, history: seq<Item>, from: nat)
    requires from <= |history|
  {
    |history| - from <= limits.maxMessages && SizeSum(history[from..]) <= limits.maxCharacters
  }

  /** A message of this kind and id is in the part that fits. */
  ghost predicate FitsWith(limits: Limits, history: seq<Item>, kind: Kind, id: Option<string>) {
    exists k | 0 <= k < |history| ::
      FitsFrom(limits, history, k) && history[k].kind == kind && history[k].callId == id
  }

  /** A call has its result, and a result its call, in the part that fits. */
  ghost predicate Matched(limits: Limits, history: seq<Item>, j: nat)
    requires j < |history|
  {
    && (history[j].kind.ToolCall? ==> FitsWith(limits, history, ToolResult, history[j].callId))
    && (history[j].kind.ToolResult? ==> FitsWith(limits, history, ToolCall, history[j].callId))
  }

  /** The message fits, is matched, and stands behind a user message that does both, or is one. */
  ghost predicate StaysAt(limits: Limits, history: seq<Item>, j: nat)
    requires j < |history|
  {
    && FitsFrom(limits, history, j) && Matched(limits, history, j)
    && exists u | 0 <= u <= j ::
         history[u].role.User? && FitsFrom(limits, history, u) && Matched(limits, history, u)
  }

  /** The messages that stay, in order, from an index on. */
  ghost function Staying(limits: Limits, history: seq<Item>, from: nat): seq<Item>
    requires from <= |history|
    decreases |history| - from
  {
    if from == |history| then []
    else (if StaysAt(limits, history, from) then [history[from]] else []) + Staying(limits, history, from + 1)
  }

  lemma {:induction false} TotalIsSum(items: seq<Item>)
    ensures Total(SizeOf, items) == SizeSum(items)
  {
    if items != [] {
      TotalIsSum(items[1..]);
      assert items == [items[0]] + items[1..];
      TotalAppend(SizeOf, [items[0]], items[1..]);
      TotalOne(SizeOf, items[0]);
    }
  }

  lemma SelectedPart(limits: Limits, history: seq<Item>)
    ensures |Suffix(limits, history)| <= |history|
    ensures Suffix(limits, history) == history[|history| - |Suffix(limits, history)|..]
  {
  }

  /** The selected part is the longest newest part within both limits. */
  lemma SelectsLongestFit(limits: Limits, history: seq<Item>, from: nat)
    requires from <= |history|
    ensures Suffix(limits, history) == history[|history| - |Suffix(limits, history)|..]
    ensures FitsFrom(limits, history, from) <==> |history| - |Suffix(limits, history)| <= from
  {
    KeptIsLongestFit(limits, SizeOf, history, |history| - from);
    assert Newest(history, |history| - from) == history[from..];
    TotalIsSum(history[from..]);
    hide Kept, Total;
  }

  /** Having a call or result in the part that fits, read off the history. */
  lemma FitsWithIffHas(limits: Limits, history: seq<Item>, kind: Kind, id: Option<string>)
    ensures FitsWith(limits, history, kind, id) <==> Has(Suffix(limits, history), kind, id)
  {
    SelectedPart(limits, history);
    hide Suffix, FitsFrom;
    var suffix := Suffix(limits, history);
    var first := |history| - |suffix|;
    if FitsWith(limits, history, kind, id) {
      var k :| 0 <= k < |history| && FitsFrom(limits, history, k) && history[k].kind == kind && history[k].callId == id;
      SelectsLongestFit(limits, history, k);
      assert suffix[k - first] == history[k];
    }
    if Has(suffix, kind, id) {
      var i := Where(suffix, kind, id);
      SelectsLongestFit(limits, history, first + i);
      assert history[first + i] == suffix[i];
    }
  }

  lemma MatchedIffStays(limits: Limits, history: seq<Item>, j: nat)
    requires j < |history| && FitsFrom(limits, history, j)
    ensures Matched(limits, history, j) <==> Stays(history[j], PairedIds(Suffix(limits, history)))
  {
    var suffix, item := Suffix(limits, history), history[j];
    SelectsLongestFit(limits, history, j);
    FitsWithIffHas(limits, history, ToolCall, item.callId);
    FitsWithIffHas(limits, history, ToolResult, item.callId);
    hide Suffix, FitsFrom;
    assert FitsWith(limits, history, item.kind, item.callId);
    hide FitsWith;
  }

  /** Where the kept part begins, as an index of the history. */
  function Begin(limits: Limits, history: seq<Item>): nat {
    |history| - |Suffix(limits, history)| + Opening(Suffix(limits, history))
  }

  lemma StaysIffBehindBegin(limits: Limits, history: seq<Item>, j: nat)
    requires j < |history|
    ensures StaysAt(limits, history, j) <==>
              Begin(limits, history) <= j && Stays(history[j], PairedIds(Suffix(limits, history)))
  {
    SelectedPart(limits, history);
    hide Suffix, FitsFrom, Matched, Stays;
    var suffix := Suffix(limits, history);
    var paired, first, begin := PairedIds(suffix), |history| - |suffix|, Begin(limits, history);
    forall u | 0 <= u <= j
      ensures FitsFrom(limits, history, u) <==> first <= u
      ensures first <= u ==> history[u] == suffix[u - first]
      ensures first <= u ==> (Matched(limits, history, u) <==> Stays(history[u], paired))
    {
      SelectsLongestFit(limits, history, u);
      if first <= u {
        MatchedIffStays(limits, history, u);
      }
    }
    hide PairedIds;
    if begin <= j && Stays(history[j], paired) {
      assert history[begin].role.User? && Matched(limits, history, begin);
    }
  }

  lemma {:induction false} NothingBefore(limits: Limits, history: seq<Item>, from: nat)
    requires from <= Begin(limits, history) <= |history|
    ensures Staying(limits, history, from) == Staying(limits, history, Begin(limits, history))
    decreases |history| - from
  {
    hide StaysAt, Begin;
    if from < Begin(limits, history) {
      StaysIffBehindBegin(limits, history, from);
      NothingBefore(limits, history, from + 1);
    }
  }

  lemma {:induction false} StayingFrom(limits: Limits, history: seq<Item>, from: nat)
    requires Begin(limits, history) <= from <= |history|
    ensures Staying(limits, history, from) == KeepPaired(history[from..], PairedIds(Suffix(limits, history)))
    decreases |history| - from
  {
    hide StaysAt, Begin, Suffix, PairedIds, Stays;
    if from < |history| {
      StaysIffBehindBegin(limits, history, from);
      StayingFrom(limits, history, from + 1);
      KeepPairedFirst(history[from..], PairedIds(Suffix(limits, history)));
      assert history[from..][1..] == history[from + 1..];
    }
  }

  /** The trimmed history holds exactly the messages that stay, in order. */
  lemma {:induction false} TrimKeepsExactly(limits: Limits, history: seq<Item>)
    ensures TrimHistory(limits, history) == Staying(limits, history, 0)
  {
    var suffix := Suffix(limits, history);
    TrimCutsAtOpening(limits, history);
    SelectedPart(limits, history);
    hide Suffix, Staying, PairedIds, TrimHistory, Opening, KeepPaired;
    assert history[Begin(limits, history)..] == suffix[Opening(suffix)..];
    NothingBefore(limits, history, 0);
    StayingFrom(limits, history, Begin(limits, history));
  }

  lemma {:induction false} AllStay(limits: Limits, history: seq<Item>, from: nat)
    requires from <= |history| && forall j | from <= j < |history| :: StaysAt(limits, history, j)
    ensures Staying(limits, history, from) == history[from..]
    decreases |history| - from
  {
    hide StaysAt;
    if from < |history| {
      AllStay(limits, history, from + 1);
    }
  }

  lemma {:induction false} FewerFit(limits: Limits, history: seq<Item>, from: nat)
    requires from <= |history| && FitsFrom(limits, history, 0)
    ensures FitsFrom(limits, history, from)
    decreases from
  {
    assert history[0..] == history;
    if from > 0 {
      FewerFit(limits, history, from - 1);
      assert history[from - 1..][1..] == history[from..];
    }
  }

  lemma FittingComesBack(limits: Limits, history: seq<Item>)
    requires FitsFrom(limits, history, 0) && PairsKept(history)
    requires history != [] ==> history[0].role.User?
    ensures TrimHistory(limits, history) == history
  {
    forall j | 0 <= j < |history| ensures FitsFrom(limits, history, j) {
      FewerFit(limits, history, j);
    }
    hide FitsFrom;
    forall kind: Kind, id | Has(history, kind, id) ensures FitsWith(limits, history, kind, id) {
      var k := Where(history, kind, id);
      assert FitsFrom(limits, history, k);
    }
    forall j | 0 <= j < |history| ensures Matched(limits, history, j) {
      assert Has(history, history[j].kind, history[j].callId);
    }
    hide FitsWith, Matched, Has;
    AllStay(limits, history, 0);
    TrimKeepsExactly(limits, history);
  }

  lemma UnchangedHasPairs(limits: Limits, history: seq<Item>)
    requires TrimHistory(limits, history) == history
    ensures PairsKept(history)
  {
    SelectedPart(limits, history);
    FilteredIsSubsequence(limits, history);
    FilteredPairsMatch(limits, history);
    hide Filtered, Suffix, Subsequence, PairsKept;
    SubsequenceFits(limits, Filtered(limits, history), Suffix(limits, history));
    var from := FromFirstUserIsSuffix(Filtered(limits, history));
    assert Filtered(limits, history) == history;
  }

  /** A history comes back unchanged exactly when it is within both limits, opens
      with a user message and has a result for each call and a call for each result. */
  lemma UnchangedIff(limits: Limits, history: seq<Item>)
    ensures TrimHistory(limits, history) == history <==>
              FitsFrom(limits, history, 0) && PairsKept(history) && (history != [] ==> history[0].role.User?)
  {
    if TrimHistory(limits, history) == history {
      UnchangedHasPairs(limits, history);
      TrimmedWithinBudgets(limits, history);
      TotalIsSum(history);
      assert history[0..] == history;
    }
    if FitsFrom(limits, history, 0) && PairsKept(history) && (history != [] ==> history[0].role.User?) {
      FittingComesBack(limits, history);
    }
  }
}
