/** Bounding the history an agent run sees: whole tool pairs, and images within
    budgets over the whole history. */
module AgentContext {
  import opened Common
  import opened Budget
  import opened SummarySelection

  /** A number of an image's metadata: absent, present, or not convertible. */
  datatype Field = Absent | Number(value: int) | Broken

  type Bytes = string

  datatype RawImage = NotMapping | Image(data: Option<Bytes>, byteSize: Field, width: Field, height: Field)

  /** size is the length of the text or of the encoded content; note counts the
      images that an added line reports as omitted, zero when there is no such line. */
  datatype Item = Item(role: Role, kind: Kind, size: nat, callId: Option<string>,
                       images: Option<seq<RawImage>>, note: nat)

  function SizeOf(item: Item): nat { item.size }

  // ---- trimming messages ----

  function Ids(items: seq<Item>, kind: Kind): set<Option<string>> {
    set i | 0 <= i < |items| && items[i].kind == kind :: items[i].callId
  }

  function PairedIds(items: seq<Item>): set<Option<string>> {
    Ids(items, ToolCall) * Ids(items, ToolResult)
  }

  predicate Stays(item: Item, paired: set<Option<string>>) {
    (!item.kind.ToolCall? && !item.kind.ToolResult?) || item.callId in paired
  }

  function KeepPaired(items: seq<Item>, paired: set<Option<string>>): seq<Item> {
    if items == [] then []
    else
      KeepPaired(items[..|items| - 1], paired)
      + (if Stays(items[|items| - 1], paired) then [items[|items| - 1]] else [])
  }

  function FromFirstUser(items: seq<Item>): seq<Item> {
    if items != [] && !items[0].role.User? then FromFirstUser(items[1..]) else items
  }

  function Suffix(limits: Limits, history: seq<Item>): seq<Item> {
    Newest(history, Kept(limits, SizeOf, history))
  }

  function Filtered(limits: Limits, history: seq<Item>): seq<Item> {
    KeepPaired(Suffix(limits, history), PairedIds(Suffix(limits, history)))
  }

  function TrimHistory(limits: Limits, history: seq<Item>): seq<Item> {
    FromFirstUser(Filtered(limits, history))
  }

  method Trim(limits: Limits, history: seq<Item>) returns (filtered: seq<Item>)
    ensures filtered == TrimHistory(limits, history)
  {
    var selected := SelectSuffix(limits, history);
    var callIds := set i | 0 <= i < |selected| && selected[i].kind == ToolCall :: selected[i].callId;
    var resultIds := set i | 0 <= i < |selected| && selected[i].kind == ToolResult :: selected[i].callId;
    var pairedIds := callIds * resultIds;
    filtered := [];
    for i := 0 to |selected|
      invariant filtered == KeepPaired(selected[..i], pairedIds)
    {
      assert selected[..i + 1][..i] == selected[..i];
      if selected[i].kind !in {ToolCall, ToolResult} || selected[i].callId in pairedIds {
        filtered := filtered + [selected[i]];
      }
    }
    assert selected[..|selected|] == selected;
    while filtered != [] && !filtered[0].role.User?
      invariant FromFirstUser(filtered) == TrimHistory(limits, history)
      decreases |filtered|
    {
      filtered := filtered[1..];
    }
  }

  method SelectSuffix(limits: Limits, history: seq<Item>) returns (selected: seq<Item>)
    ensures selected == Suffix(limits, history)
  {
    selected := [];
    var characters: nat := 0;
    var left := |history|;
    assert history[..left] == history;
    while left > 0
      invariant 0 <= left <= |history|
      invariant selected == Reversed(history[left..])
      invariant Kept(limits, SizeOf, history)
                == |selected| + KeepCount(limits, SizeOf, history[..left], |selected|, characters)
      decreases left
    {
      var message := history[left - 1];
      if |selected| >= limits.maxMessages {
        break;
      }
      if characters + message.size > limits.maxCharacters {
        break;
      }
      assert history[..left][..left - 1] == history[..left - 1];
      ReversedMore(history, left);
      selected := selected + [message];
      characters := characters + message.size;
      left := left - 1;
    }
    ReversedTwice(history[left..]);
    selected := Reversed(selected);
  }

  /** The first list can be had from the second by leaving items out. */
  ghost predicate Subsequence<T>(thin: seq<T>, full: seq<T>) {
    if thin == [] then true
    else if full == [] then false
    else
      || Subsequence(thin, full[..|full| - 1])
      || (thin[|thin| - 1] == full[|full| - 1] && Subsequence(thin[..|thin| - 1], full[..|full| - 1]))
  }

  lemma {:induction false} SuffixIsSubsequence<T>(thin: seq<T>, full: seq<T>, from: nat)
    requires Subsequence(thin, full) && from <= |thin|
    ensures Subsequence(thin[from..], full)
    decreases |full|
  {
    if from < |thin| {
      if Subsequence(thin, full[..|full| - 1]) {
        SuffixIsSubsequence(thin, full[..|full| - 1], from);
      } else {
        SuffixIsSubsequence(thin[..|thin| - 1], full[..|full| - 1], from);
        assert thin[from..][..|thin| - from - 1] == thin[..|thin| - 1][from..];
      }
    }
  }

  lemma {:induction false} FilterIsSubsequence(items: seq<Item>, paired: set<Option<string>>, front: seq<Item>)
    ensures Subsequence(KeepPaired(items, paired), front + items)
    decreases |items|
  {
    if items != [] {
      var n := |items| - 1;
      FilterIsSubsequence(items[..n], paired, front);
      var kept := KeepPaired(items, paired);
      assert (front + items)[..|front| + n] == front + items[..n];
      if Stays(items[n], paired) {
        assert kept[..|kept| - 1] == KeepPaired(items[..n], paired);
      } else {
        assert kept == KeepPaired(items[..n], paired);
      }
    }
  }

  lemma {:induction false} SubsequenceFits(limits: Limits, thin: seq<Item>, full: seq<Item>)
    requires Subsequence(thin, full)
    ensures |thin| <= |full| && Total(SizeOf, thin) <= Total(SizeOf, full)
    decreases |full|
  {
    if thin != [] {
      if Subsequence(thin, full[..|full| - 1]) {
        SubsequenceFits(limits, thin, full[..|full| - 1]);
      } else {
        SubsequenceFits(limits, thin[..|thin| - 1], full[..|full| - 1]);
      }
    }
  }

  lemma {:induction false} FromFirstUserIsSuffix(items: seq<Item>) returns (from: nat)
    ensures from <= |items| && FromFirstUser(items) == items[from..]
    ensures forall i | 0 <= i < from :: !items[i].role.User?
    ensures from < |items| ==> items[from].role.User?
  {
    if items != [] && !items[0].role.User? {
      var later := FromFirstUserIsSuffix(items[1..]);
      from := later + 1;
      assert forall i | 1 <= i < from :: items[i] == items[1..][i - 1];
    } else {
      from := 0;
    }
  }

  /** The trimmed history is a subsequence of the history within both budgets,
      and it is empty or opens with a user message. */
  lemma {:induction false} TrimmedWithinBudgets(limits: Limits, history: seq<Item>)
    ensures
      var trimmed := TrimHistory(limits, history);
      && Subsequence(trimmed, history)
      && |trimmed| <= limits.maxMessages && Total(SizeOf, trimmed) <= limits.maxCharacters
      && (trimmed == [] || trimmed[0].role.User?)
  {
    var suffix, filtered := Suffix(limits, history), Filtered(limits, history);
    var from := FromFirstUserIsSuffix(filtered);
    KeptIsLongestFit(limits, SizeOf, history, |suffix|);
    FilteredIsSubsequence(limits, history);
    hide Suffix, Filtered, Subsequence, Total, Kept;
    SuffixIsSubsequence(filtered, suffix, from);
    SubsequenceFits(limits, filtered[from..], suffix);
    SuffixIsSubsequence(filtered, history, from);
  }

  lemma {:induction false} FilteredIsSubsequence(limits: Limits, history: seq<Item>)
    ensures Subsequence(Filtered(limits, history), Suffix(limits, history))
    ensures Subsequence(Filtered(limits, history), history)
  {
    hide Kept, KeepPaired, Subsequence, PairedIds;
    var suffix := Suffix(limits, history);
    FilterIsSubsequence(suffix, PairedIds(suffix), []);
    assert [] + suffix == suffix;
    FilterIsSubsequence(suffix, PairedIds(suffix), history[..|history| - |suffix|]);
    assert history[..|history| - |suffix|] + suffix == history;
  }

  // ---- tool pairs ----

  predicate Has(items: seq<Item>, kind: Kind, id: Option<string>) {
    id in Ids(items, kind)
  }

  /** Every kept call has a kept result of the same id, and the other way round. */
  ghost predicate PairsKept(items: seq<Item>) {
    forall id :: Has(items, ToolCall, id) <==> Has(items, ToolResult, id)
  }

  lemma {:induction false} KeptItems(items: seq<Item>, paired: set<Option<string>>, item: Item)
    ensures item in KeepPaired(items, paired) <==> item in items && Stays(item, paired)
  {
    if items != [] {
      KeptItems(items[..|items| - 1], paired, item);
      assert items == items[..|items| - 1] + [items[|items| - 1]];
    }
  }

  lemma Where(items: seq<Item>, kind: Kind, id: Option<string>) returns (at: nat)
    requires Has(items, kind, id)
    ensures at < |items| && items[at].kind == kind && items[at].callId == id
  {
    at :| 0 <= at < |items| && items[at].kind == kind && items[at].callId == id;
  }

  /** Some id that has a call and a result has only one of the two from an index on. */
  ghost predicate TornAt(items: seq<Item>, from: nat)
    requires from <= |items|
  {
    exists id | id in PairedIds(items) :: Has(items[from..], ToolCall, id) != Has(items[from..], ToolResult, id)
  }

  /** Where the kept part of a selection begins: its first user message that the
      filter leaves in, or the end when there is none. */
  function FirstKeptUser(items: seq<Item>, paired: set<Option<string>>): (at: nat)
    ensures at <= |items|
    ensures at < |items| ==> items[at].role.User? && Stays(items[at], paired)
    ensures forall i | 0 <= i < at :: !(items[i].role.User? && Stays(items[i], paired))
  {
    if items == [] || (items[0].role.User? && Stays(items[0], paired)) then 0
    else 1 + FirstKeptUser(items[1..], paired)
  }

  lemma {:induction false} KeepPairedAppend(a: seq<Item>, b: seq<Item>, paired: set<Option<string>>)
    ensures KeepPaired(a + b, paired) == KeepPaired(a, paired) + KeepPaired(b, paired)
    decreases |b|
  {
    if b == [] {
      assert a + b == a;
    } else {
      KeepPairedAppend(a, b[..|b| - 1], paired);
      assert (a + b)[..|a + b| - 1] == a + b[..|b| - 1];
    }
  }

  lemma {:induction false} KeepPairedFirst(items: seq<Item>, paired: set<Option<string>>)
    requires items != []
    ensures KeepPaired(items, paired)
            == (if Stays(items[0], paired) then [items[0]] else []) + KeepPaired(items[1..], paired)
  {
    assert items == [items[0]] + items[1..];
    KeepPairedAppend([items[0]], items[1..], paired);
    assert [items[0]][..0] == [];
  }

  /** Filtering and then dropping the leading messages is cutting at the first
      user message that stays, and then filtering. */
  lemma {:induction false} CutThenFilter(items: seq<Item>, paired: set<Option<string>>)
    ensures FromFirstUser(KeepPaired(items, paired)) == KeepPaired(items[FirstKeptUser(items, paired)..], paired)
  {
    if items != [] {
      KeepPairedFirst(items, paired);
      if items[0].role.User? && Stays(items[0], paired) {
        assert items[0..] == items;
      } else {
        CutThenFilter(items[1..], paired);
        var rest := KeepPaired(items[1..], paired);
        assert items[1..][FirstKeptUser(items[1..], paired)..] == items[FirstKeptUser(items, paired)..];
        if Stays(items[0], paired) {
          assert ([items[0]] + rest)[1..] == rest;
        } else {
          assert KeepPaired(items, paired) == rest;
        }
      }
    }
  }

  /** Where the kept history begins in the selected suffix. */
  function Opening(suffix: seq<Item>): (at: nat)
    ensures at <= |suffix|
  {
    FirstKeptUser(suffix, PairedIds(suffix))
  }

  lemma TrimCutsAtOpening(limits: Limits, history: seq<Item>)
    ensures
      var suffix := Suffix(limits, history);
      TrimHistory(limits, history) == KeepPaired(suffix[Opening(suffix)..], PairedIds(suffix))
  {
    CutThenFilter(Suffix(limits, history), PairedIds(Suffix(limits, history)));
  }

  lemma {:induction false} FilterHas(items: seq<Item>, paired: set<Option<string>>, kind: Kind, id: Option<string>)
    requires kind.ToolCall? || kind.ToolResult?
    ensures Has(KeepPaired(items, paired), kind, id) <==> id in paired && Has(items, kind, id)
  {
    var kept := KeepPaired(items, paired);
    if Has(kept, kind, id) {
      var i := Where(kept, kind, id);
      KeptItems(items, paired, kept[i]);
      assert exists j :: 0 <= j < |items| && items[j] == kept[i];
    }
    if id in paired && Has(items, kind, id) {
      var i := Where(items, kind, id);
      KeptItems(items, paired, items[i]);
      assert exists j :: 0 <= j < |kept| && kept[j] == items[i];
    }
  }

  /** Before the leading messages are dropped, calls and results do match. */
  lemma FilteredPairsMatch(limits: Limits, history: seq<Item>)
    ensures PairsKept(Filtered(limits, history))
  {
    var suffix := Suffix(limits, history);
    forall id, kind: Kind | kind.ToolCall? || kind.ToolResult?
      ensures Has(Filtered(limits, history), kind, id) <==> id in PairedIds(suffix)
    {
      FilterHas(suffix, PairedIds(suffix), kind, id);
    }
  }

  /** Trimming keeps every pair whole if and only if no paired id of the selected
      suffix is torn where the kept history begins. */
  lemma PairsKeptIff(limits: Limits, history: seq<Item>)
    ensures PairsKept(TrimHistory(limits, history)) <==>
            !TornAt(Suffix(limits, history), Opening(Suffix(limits, history)))
  {
    var suffix := Suffix(limits, history);
    var from, paired := suffix[Opening(suffix)..], PairedIds(suffix);
    TrimCutsAtOpening(limits, history);
    forall id, kind: Kind | kind.ToolCall? || kind.ToolResult?
      ensures Has(KeepPaired(from, paired), kind, id) <==> id in paired && Has(from, kind, id)
    {
      FilterHas(from, paired, kind, id);
    }
    hide Has, PairedIds, KeepPaired, Suffix, TrimHistory, Opening;
  }

  /** Every id names at most one call and at most one result. */
  ghost predicate IdsUsedOnce(items: seq<Item>) {
    forall i, j, kind: Kind | 0 <= i < j < |items| && (kind.ToolCall? || kind.ToolResult?)
                              && items[i].kind == items[j].kind == kind :: items[i].callId != items[j].callId
  }

  /** Each call lies on the same side of an index as the result of its id. */
  ghost predicate OnOneSide(items: seq<Item>, at: nat) {
    forall call, result | 0 <= call < |items| && 0 <= result < |items| && items[call].kind.ToolCall?
                          && items[result].kind.ToolResult? && items[call].callId == items[result].callId ::
      call < at <==> result < at
  }

  lemma HasFrom(items: seq<Item>, from: nat, at: nat)
    requires from <= at < |items|
    ensures Has(items[from..], items[at].kind, items[at].callId)
  {
    assert items[from..][at - from] == items[at];
  }

  lemma WhereFrom(items: seq<Item>, from: nat, kind: Kind, id: Option<string>) returns (at: nat)
    requires from <= |items| && Has(items[from..], kind, id)
    ensures from <= at < |items| && items[at].kind == kind && items[at].callId == id
  {
    var i := Where(items[from..], kind, id);
    at := from + i;
  }

  lemma OneSideNotTorn(items: seq<Item>, from: nat)
    requires from <= |items| && OnOneSide(items, from)
    ensures !TornAt(items, from)
  {
    forall id | id in PairedIds(items) ensures Has(items[from..], ToolCall, id) == Has(items[from..], ToolResult, id) {
      var call := Where(items, ToolCall, id);
      var result := Where(items, ToolResult, id);
      if Has(items[from..], ToolCall, id) {
        var later := WhereFrom(items, from, ToolCall, id);
        HasFrom(items, from, result);
      }
      if Has(items[from..], ToolResult, id) {
        var later := WhereFrom(items, from, ToolResult, id);
        HasFrom(items, from, call);
      }
    }
  }

  lemma TornCrosses(items: seq<Item>, from: nat, call: nat, result: nat)
    requires from <= |items| && IdsUsedOnce(items) && call < |items| && result < |items|
    requires items[call].kind.ToolCall? && items[result].kind.ToolResult? && items[call].callId == items[result].callId
    requires (call < from) != (result < from)
    ensures TornAt(items, from)
  {
    var id := items[call].callId;
    assert id in PairedIds(items);
    if call < from {
      HasFrom(items, from, result);
      if Has(items[from..], ToolCall, id) {
        var later := WhereFrom(items, from, ToolCall, id);
        assert false;
      }
    } else {
      HasFrom(items, from, call);
      if Has(items[from..], ToolResult, id) {
        var later := WhereFrom(items, from, ToolResult, id);
        assert false;
      }
    }
  }

  /** When ids are used once, pairs stay whole if and only if in the selected
      suffix each call and its result lie on the same side of the first kept
      user message. */
  lemma PairsKeptIffOneSide(limits: Limits, history: seq<Item>)
    requires IdsUsedOnce(Suffix(limits, history))
    ensures PairsKept(TrimHistory(limits, history)) <==>
            OnOneSide(Suffix(limits, history), Opening(Suffix(limits, history)))
  {
    hide PairsKept, TrimHistory, Suffix, Opening, TornAt;
    var suffix := Suffix(limits, history);
    PairsKeptIff(limits, history);
    if OnOneSide(suffix, Opening(suffix)) {
      OneSideNotTorn(suffix, Opening(suffix));
    } else {
      var call, result :| 0 <= call < |suffix| && 0 <= result < |suffix| && suffix[call].kind.ToolCall?
                          && suffix[result].kind.ToolResult? && suffix[call].callId == suffix[result].callId
                          && (call < Opening(suffix)) != (result < Opening(suffix));
      TornCrosses(suffix, Opening(suffix), call, result);
    }
  }

  const LONE_CALL: Item := Item(Assistant, ToolCall, 1, Some("a"), None, 0)
  const LATER_USER: Item := Item(User, Text, 1, None, None, 0)
  const LATE_RESULT: Item := Item(Tool, ToolResult, 1, Some("a"), None, 0)

  lemma AllThreeFit()
    ensures Suffix(Limits(10, 10), [LONE_CALL, LATER_USER, LATE_RESULT]) == [LONE_CALL, LATER_USER, LATE_RESULT]
  {
    hide Total, KeepCount, Kept;
    var first, all := [LONE_CALL, LATER_USER], [LONE_CALL, LATER_USER, LATE_RESULT];
    assert all == first + [LATE_RESULT] && first == [LONE_CALL] + [LATER_USER];
    TotalAppend(SizeOf, first, [LATE_RESULT]);
    TotalAppend(SizeOf, [LONE_CALL], [LATER_USER]);
    TotalOne(SizeOf, LONE_CALL);
    TotalOne(SizeOf, LATER_USER);
    TotalOne(SizeOf, LATE_RESULT);
    KeptIsLongestFit(Limits(10, 10), SizeOf, all, 3);
    assert Newest(all, 3) == all;
  }

  lemma {:induction false} AllStay(items: seq<Item>, paired: set<Option<string>>)
    requires forall i | 0 <= i < |items| :: Stays(items[i], paired)
    ensures KeepPaired(items, paired) == items
  {
    if items != [] {
      AllStay(items[..|items| - 1], paired);
    }
  }

  lemma BothIds()
    ensures Some("a") in PairedIds([LONE_CALL, LATER_USER, LATE_RESULT])
  {
    var all := [LONE_CALL, LATER_USER, LATE_RESULT];
    assert all[0].callId in Ids(all, ToolCall) && all[2].callId in Ids(all, ToolResult);
  }

  lemma AllThreeStay()
    ensures Filtered(Limits(10, 10), [LONE_CALL, LATER_USER, LATE_RESULT]) == [LONE_CALL, LATER_USER, LATE_RESULT]
  {
    hide Suffix, KeepPaired, PairedIds, Ids;
    AllThreeFit();
    BothIds();
    AllStay([LONE_CALL, LATER_USER, LATE_RESULT], PairedIds([LONE_CALL, LATER_USER, LATE_RESULT]));
  }

  lemma ResultAlone()
    ensures !PairsKept([LATER_USER, LATE_RESULT])
  {
    var kept := [LATER_USER, LATE_RESULT];
    assert kept[1].callId in Ids(kept, ToolResult);
    assert Has(kept, ToolResult, Some("a")) && !Has(kept, ToolCall, Some("a"));
  }

  /** Without the hypothesis of one turn a pair can be torn: the call is dropped
      as a leading message and its result stays. */
  lemma TornPair()
    ensures TrimHistory(Limits(10, 10), [LONE_CALL, LATER_USER, LATE_RESULT]) == [LATER_USER, LATE_RESULT]
    ensures !PairsKept([LATER_USER, LATE_RESULT])
  {
    hide Filtered, PairsKept;
    AllThreeStay();
    ResultAlone();
    var all := [LONE_CALL, LATER_USER, LATE_RESULT];
    assert all[1..] == [LATER_USER, LATE_RESULT];
    assert FromFirstUser(all) == FromFirstUser(all[1..]);
  }

  /** Nowhere does a user message tear a pair: from it on, an id that has a call
      and a result somewhere has both or neither. */
  ghost predicate TurnsKeepPairs(history: seq<Item>) {
    forall user | 0 <= user < |history| && history[user].role.User? :: !TornAt(history, user)
  }

  lemma PairedInTail(history: seq<Item>, skip: nat)
    requires skip <= |history|
    ensures PairedIds(history[skip..]) <= PairedIds(history)
  {
    forall id | id in PairedIds(history[skip..]) ensures id in PairedIds(history) {
      var call := WhereFrom(history, skip, ToolCall, id);
      var result := WhereFrom(history, skip, ToolResult, id);
    }
  }

  lemma TailNotTorn(history: seq<Item>, skip: nat, from: nat)
    requires skip <= |history| && from <= |history| - skip && !TornAt(history, skip + from)
    ensures !TornAt(history[skip..], from)
  {
    PairedInTail(history, skip);
    hide PairedIds, Has;
    assert history[skip..][from..] == history[skip + from..];
  }

  /** If no user message tears a pair of the history, trimming keeps each pair
      whole, wherever the budgets cut. */
  lemma PairsStayTogether(limits: Limits, history: seq<Item>)
    requires TurnsKeepPairs(history)
    ensures PairsKept(TrimHistory(limits, history))
  {
    var suffix := Suffix(limits, history);
    var skip, from := |history| - |suffix|, Opening(suffix);
    PairsKeptIff(limits, history);
    if from < |suffix| {
      assert suffix[from] == history[skip + from];
      TailNotTorn(history, skip, from);
    }
  }

  // ---- trimming images ----

  datatype ImageLimits = ImageLimits(maxImages: nat, maxBytes: nat, maxPixels: nat)

  datatype Used = Used(images: int, bytes: int, pixels: int)

  function FieldOr(field: Field, default: int): int {
    if field.Number? then field.value else default
  }

  /** The size an image declares; all zero when one of its numbers cannot be read. */
  function Declared(image: RawImage): Used
    requires image.Image?
  {
    if image.byteSize.Broken? || image.width.Broken? || image.height.Broken? then Used(1, 0, 0)
    else
      Used(1, FieldOr(image.byteSize, if image.data.Some? then |image.data.value| else 0),
           FieldOr(image.width, 0) * FieldOr(image.height, 0))
  }

  function Add(a: Used, b: Used): Used {
    Used(a.images + b.images, a.bytes + b.bytes, a.pixels + b.pixels)
  }

  predicate Within(used: Used, limits: ImageLimits) {
    used.images <= limits.maxImages && used.bytes <= limits.maxBytes && used.pixels <= limits.maxPixels
  }

  predicate FitsIn(limits: ImageLimits, used: Used, image: RawImage)
    requires image.Image?
  {
    image.data.Some? && Within(Add(used, Declared(image)), limits)
  }

  datatype Images = Images(kept: seq<RawImage>, omitted: nat, used: Used)

  /** Oldest image first: it keeps its data if everything still fits. */
  function BoundImages(limits: ImageLimits, images: seq<RawImage>, used: Used): Images {
    if images == [] then Images([], 0, used)
    else
      var before := BoundImages(limits, images[..|images| - 1], used);
      var image := images[|images| - 1];
      if image.NotMapping? then before
      else if FitsIn(limits, before.used, image) then
        Images(before.kept + [image], before.omitted, Add(before.used, Declared(image)))
      else Images(before.kept + [image.(data := None)], before.omitted + 1, before.used)
  }

  predicate Carries(item: Item) { item.kind.Multimodal? && item.images.Some? }

  datatype Bounded = Bounded(items: seq<Item>, used: Used)

  function BoundHistory(limits: ImageLimits, history: seq<Item>): Bounded {
    if history == [] then Bounded([], Used(0, 0, 0))
    else
      var before := BoundHistory(limits, history[..|history| - 1]);
      var item := history[|history| - 1];
      if !Carries(item) then Bounded(before.items + [item], before.used)
      else
        var images := BoundImages(limits, item.images.value, before.used);
        var note := if images.omitted > 0 then images.omitted else item.note;
        Bounded(before.items + [item.(images := Some(images.kept), note := note)], images.used)
  }

  method TrimImages(limits: ImageLimits, history: seq<Item>) returns (bounded: seq<Item>)
    ensures bounded == BoundHistory(limits, history).items
  {
    var imageCount, imageBytes, imagePixels := 0, 0, 0;
    bounded := [];
    for i := 0 to |history|
      invariant Bounded(bounded, Used(imageCount, imageBytes, imagePixels)) == BoundHistory(limits, history[..i])
    {
      assert history[..i + 1][..i] == history[..i];
      var message := history[i];
      if !message.kind.Multimodal? || message.images.None? {
        bounded := bounded + [message];
        continue;
      }
      var kept, omitted;
      kept, omitted, imageCount, imageBytes, imagePixels :=
        TrimOneMessage(limits, message.images.value, imageCount, imageBytes, imagePixels);
      var note := if omitted > 0 then omitted else message.note;
      bounded := bounded + [message.(images := Some(kept), note := note)];
    }
    assert history[..|history|] == history;
  }

  method TrimOneMessage(limits: ImageLimits, rawImages: seq<RawImage>, count: int, bytes: int, pixels: int)
    returns (kept: seq<RawImage>, omitted: nat, imageCount: int, imageBytes: int, imagePixels: int)
    ensures Images(kept, omitted, Used(imageCount, imageBytes, imagePixels))
         == BoundImages(limits, rawImages, Used(count, bytes, pixels))
  {
    imageCount, imageBytes, imagePixels := count, bytes, pixels;
    kept, omitted := [], 0;
    for j := 0 to |rawImages|
      invariant Images(kept, omitted, Used(imageCount, imageBytes, imagePixels))
             == BoundImages(limits, rawImages[..j], Used(count, bytes, pixels))
    {
      assert rawImages[..j + 1][..j] == rawImages[..j];
      var rawImage := rawImages[j];
      if rawImage.NotMapping? {
        continue;
      }
      var declared := Declared(rawImage);
      if rawImage.data.Some? && imageCount < limits.maxImages && imageBytes + declared.bytes <= limits.maxBytes
         && imagePixels + declared.pixels <= limits.maxPixels {
        kept := kept + [rawImage];
        imageCount := imageCount + 1;
        imageBytes := imageBytes + declared.bytes;
        imagePixels := imagePixels + declared.pixels;
      } else {
        omitted := omitted + 1;
        kept := kept + [rawImage.(data := None)];
      }
    }
    assert rawImages[..|rawImages|] == rawImages;
  }

  /** What the images of a history that still have data use. */
  function DataOf(images: seq<RawImage>): Used {
    if images == [] then Used(0, 0, 0)
    else
      var image := images[|images| - 1];
      Add(DataOf(images[..|images| - 1]), if image.Image? && image.data.Some? then Declared(image) else Used(0, 0, 0))
  }

  function HistoryData(history: seq<Item>): Used {
    if history == [] then Used(0, 0, 0)
    else
      var item := history[|history| - 1];
      Add(HistoryData(history[..|history| - 1]), if Carries(item) then DataOf(item.images.value) else Used(0, 0, 0))
  }

  lemma {:induction false} DataOfAppend(images: seq<RawImage>, image: RawImage)
    ensures DataOf(images + [image])
         == Add(DataOf(images), if image.Image? && image.data.Some? then Declared(image) else Used(0, 0, 0))
  {
    hide Declared;
    assert (images + [image])[..|images|] == images;
  }

  lemma {:induction false} HistoryDataAppend(history: seq<Item>, item: Item)
    ensures HistoryData(history + [item])
         == Add(HistoryData(history), if Carries(item) then DataOf(item.images.value) else Used(0, 0, 0))
  {
    hide DataOf;
    assert (history + [item])[..|history|] == history;
  }

  /** The two ways an image is kept. */
  ghost predicate KeptOrStripped(limits: ImageLimits, before: Images, image: RawImage, after: Images)
    requires image.Image?
  {
    || (image.data.Some? && after == Images(before.kept + [image], before.omitted, Add(before.used, Declared(image)))
        && Within(after.used, limits))
    || after == Images(before.kept + [image.(data := None)], before.omitted + 1, before.used)
  }

  lemma {:induction false} BoundStep(limits: ImageLimits, images: seq<RawImage>, used: Used)
    requires images != []
    ensures
      var n := |images| - 1;
      var before, after := BoundImages(limits, images[..n], used), BoundImages(limits, images, used);
      if images[n].Image? then KeptOrStripped(limits, before, images[n], after) else after == before
  {
    hide Declared, Within;
  }

  lemma KeptData(limits: ImageLimits, before: Images, image: RawImage, after: Images)
    requires image.Image? && KeptOrStripped(limits, before, image, after)
    ensures DataOf(after.kept) == Add(DataOf(before.kept), Used(after.used.images - before.used.images,
                                      after.used.bytes - before.used.bytes, after.used.pixels - before.used.pixels))
    ensures after.omitted + after.used.images == before.omitted + before.used.images + 1
    ensures Within(before.used, limits) ==> Within(after.used, limits)
  {
    hide Declared, DataOf, Within;
    OneImage(image);
    var stripped := image.(data := None);
    if after.kept == before.kept + [stripped] && after.used == before.used {
      DataOfAppend(before.kept, stripped);
    } else {
      DataOfAppend(before.kept, image);
    }
  }

  lemma OneImage(image: RawImage)
    requires image.Image?
    ensures Declared(image).images == 1
  {
  }

  lemma {:induction false} ImagesAccounted(limits: ImageLimits, images: seq<RawImage>, used: Used)
    requires Within(used, limits)
    ensures
      var bounded := BoundImages(limits, images, used);
      Within(bounded.used, limits) && bounded.used == Add(used, DataOf(bounded.kept))
  {
    hide Declared, Within, KeptOrStripped;
    if images != [] {
      hide DataOf, BoundImages;
      var n := |images| - 1;
      ImagesAccounted(limits, images[..n], used);
      BoundStep(limits, images, used);
      if images[n].Image? {
        AccountedStep(limits, BoundImages(limits, images[..n], used), images[n], BoundImages(limits, images, used),
                      used);
      }
    } else {
      assert DataOf([]) == Used(0, 0, 0);
    }
  }

  lemma AccountedStep(limits: ImageLimits, before: Images, image: RawImage, after: Images, used: Used)
    requires image.Image? && KeptOrStripped(limits, before, image, after)
    requires Within(before.used, limits) && before.used == Add(used, DataOf(before.kept))
    ensures Within(after.used, limits) && after.used == Add(used, DataOf(after.kept))
  {
    hide Declared, Within, KeptOrStripped, DataOf;
    KeptData(limits, before, image, after);
  }

  /** Data stays within the count, byte and pixel budgets over the whole history. */
  lemma {:induction false} DataWithinBudgets(limits: ImageLimits, history: seq<Item>)
    ensures BoundHistory(limits, history).used == HistoryData(BoundHistory(limits, history).items)
    ensures Within(HistoryData(BoundHistory(limits, history).items), limits)
  {
    if history != [] {
      var n := |history| - 1;
      DataWithinBudgets(limits, history[..n]);
      DataWithinStep(limits, history);
    }
  }

  lemma {:induction false} DataWithinStep(limits: ImageLimits, history: seq<Item>)
    requires history != []
    requires var before := BoundHistory(limits, history[..|history| - 1]);
      before.used == HistoryData(before.items) && Within(before.used, limits)
    ensures var all := BoundHistory(limits, history);
      all.used == HistoryData(all.items) && Within(all.used, limits)
  {
    var item, before, all := history[|history| - 1], BoundHistory(limits, history[..|history| - 1]),
      BoundHistory(limits, history);
    hide DataOf, BoundImages, HistoryData;
    HistoryDataAppend(before.items, all.items[|all.items| - 1]);
    if Carries(item) {
      ImagesAccounted(limits, item.images.value, before.used);
    }
  }

  function Mappings(images: seq<RawImage>): seq<RawImage> {
    if images == [] then []
    else Mappings(images[..|images| - 1]) + (if images[|images| - 1].Image? then [images[|images| - 1]] else [])
  }

  /** An image as it was, or without its data. */
  predicate SameOrStripped(kept: RawImage, image: RawImage) {
    image.Image? && (kept == image || kept == image.(data := None))
  }

  lemma {:induction false} ImagesKeepOrder(limits: ImageLimits, images: seq<RawImage>, used: Used)
    ensures
      var kept, mappings := BoundImages(limits, images, used).kept, Mappings(images);
      |kept| == |mappings| && forall i | 0 <= i < |kept| :: SameOrStripped(kept[i], mappings[i])
  {
    if images != [] {
      ImagesKeepOrder(limits, images[..|images| - 1], used);
    }
  }

  /** Trimming images keeps every message in its place; only image data and the
      note about omitted images change. */
  lemma {:induction false} MessagesKeepOrder(limits: ImageLimits, history: seq<Item>)
    ensures
      var items := BoundHistory(limits, history).items;
      && |items| == |history|
      && forall i | 0 <= i < |items| ::
           && items[i].(images := None, note := 0) == history[i].(images := None, note := 0)
           && (!Carries(history[i]) ==> items[i] == history[i])
           && (Carries(history[i]) ==>
                 Carries(items[i])
                 && |items[i].images.value| == |Mappings(history[i].images.value)|
                 && forall j | 0 <= j < |items[i].images.value| ::
                      SameOrStripped(items[i].images.value[j], Mappings(history[i].images.value)[j]))
  {
    if history != [] {
      var n := |history| - 1;
      MessagesKeepOrder(limits, history[..n]);
      if Carries(history[n]) {
        ImagesKeepOrder(limits, history[n].images.value, BoundHistory(limits, history[..n]).used);
      }
    }
  }

  // ---- the data itself ----

  /** An image that holds no more data than it declares. */
  predicate DeclaresEnough(image: RawImage) {
    image.Image? && image.data.Some? ==> |image.data.value| <= Declared(image).bytes
  }

  ghost predicate AllDeclareEnough(history: seq<Item>) {
    forall i, j | 0 <= i < |history| && Carries(history[i]) && 0 <= j < |history[i].images.value| ::
      DeclaresEnough(history[i].images.value[j])
  }

  /** How much data the images hold. */
  function BytesOf(images: seq<RawImage>): nat {
    if images == [] then 0
    else
      var image := images[|images| - 1];
      BytesOf(images[..|images| - 1]) + (if image.Image? && image.data.Some? then |image.data.value| else 0)
  }

  function HistoryBytes(history: seq<Item>): nat {
    if history == [] then 0
    else
      var item := history[|history| - 1];
      HistoryBytes(history[..|history| - 1]) + (if Carries(item) then BytesOf(item.images.value) else 0)
  }

  lemma {:induction false} BytesDeclared(images: seq<RawImage>)
    requires forall j | 0 <= j < |images| :: DeclaresEnough(images[j])
    ensures BytesOf(images) <= DataOf(images).bytes
  {
    hide Declared;
    if images != [] {
      BytesDeclared(images[..|images| - 1]);
    }
  }

  lemma {:induction false} HistoryBytesDeclared(history: seq<Item>)
    requires AllDeclareEnough(history)
    ensures HistoryBytes(history) <= HistoryData(history).bytes
  {
    hide DeclaresEnough, BytesOf, DataOf;
    if history != [] {
      var n := |history| - 1;
      HistoryBytesDeclared(history[..n]);
      if Carries(history[n]) {
        BytesDeclared(history[n].images.value);
      }
    }
  }

  lemma {:induction false} MappingsAreImages(images: seq<RawImage>, image: RawImage)
    requires image in Mappings(images)
    ensures image in images
  {
    if image != images[|images| - 1] {
      MappingsAreImages(images[..|images| - 1], image);
    }
  }

  /** Stripping images leaves none that declares too little. */
  lemma {:induction false} StillDeclareEnough(limits: ImageLimits, history: seq<Item>)
    requires AllDeclareEnough(history)
    ensures AllDeclareEnough(BoundHistory(limits, history).items)
  {
    var items := BoundHistory(limits, history).items;
    MessagesKeepOrder(limits, history);
    hide BoundHistory, Mappings, Declared;
    forall i, j | 0 <= i < |items| && Carries(items[i]) && 0 <= j < |items[i].images.value|
      ensures DeclaresEnough(items[i].images.value[j])
    {
      var image := Mappings(history[i].images.value)[j];
      assert SameOrStripped(items[i].images.value[j], image);
      MappingsAreImages(history[i].images.value, image);
    }
  }

  /** When no image declares less than it has, the data kept over the whole
      history really stays within the byte budget. */
  lemma {:induction false} RealDataWithinBudget(limits: ImageLimits, history: seq<Item>)
    requires AllDeclareEnough(history)
    ensures HistoryBytes(BoundHistory(limits, history).items) <= limits.maxBytes
  {
    StillDeclareEnough(limits, history);
    HistoryBytesDeclared(BoundHistory(limits, history).items);
    DataWithinBudgets(limits, history);
  }

  /** An image with a number that cannot be read counts as empty, so it keeps any
      amount of data whatever the byte budget is. */
  lemma {:induction false} UnreadableSizeKeepsAll(limits: ImageLimits, item: Item, data: Bytes)
    requires limits.maxImages >= 1
    requires Carries(item) && item.images.value == [Image(Some(data), Broken, Absent, Absent)]
    ensures BoundHistory(limits, [item]).items == [item]
    ensures HistoryBytes([item]) == |data|
  {
    var images := item.images.value;
    assert [item][..0] == [] && images[..0] == [];
    assert BoundImages(limits, images[..0], Used(0, 0, 0)) == Images([], 0, Used(0, 0, 0));
    assert BoundImages(limits, images, Used(0, 0, 0)).kept == images;
    assert BoundHistory(limits, []) == Bounded([], Used(0, 0, 0));
    assert BytesOf(images) == |data|;
  }

  /** One image alone breaks the byte budget exactly when it fits by the sizes it
      declares and holds more than the budget. */
  lemma {:induction false} OneImageBreaksBudgetIff(limits: ImageLimits, item: Item, image: RawImage)
    requires Carries(item) && item.images.value == [image] && image.Image? && image.data.Some?
    ensures HistoryBytes(BoundHistory(limits, [item]).items) > limits.maxBytes <==>
              FitsIn(limits, Used(0, 0, 0), image) && |image.data.value| > limits.maxBytes
  {
    OneItemBytes(limits, item);
    assert BoundImages(limits, [image][..0], Used(0, 0, 0)) == Images([], 0, Used(0, 0, 0));
    var kept := BoundImages(limits, [image], Used(0, 0, 0)).kept;
    assert |kept| == 1 && kept[..0] == [] && BytesOf([]) == 0;
    hide FitsIn, BoundHistory, HistoryBytes;
  }

  lemma {:induction false} OneItemBytes(limits: ImageLimits, item: Item)
    requires Carries(item)
    ensures HistoryBytes(BoundHistory(limits, [item]).items)
         == BytesOf(BoundImages(limits, item.images.value, Used(0, 0, 0)).kept)
  {
    assert [item][..0] == [] && BoundHistory(limits, []) == Bounded([], Used(0, 0, 0));
    var items := BoundHistory(limits, [item]).items;
    assert |items| == 1 && items[..0] == [] && HistoryBytes([]) == 0;
    hide BoundImages, BytesOf;
  }

  predicate HoldsData(image: RawImage) {
    image.Image? && image.data.Some? && image.data.value != []
  }

  /** Every image of the history is one of these. */
  ghost predicate DrawnFrom(history: seq<Item>, images: set<RawImage>) {
    forall i, j | 0 <= i < |history| && Carries(history[i]) && 0 <= j < |history[i].images.value| ::
      history[i].images.value[j] in images
  }

  /** No settings let the data kept of any history of these images exceed the byte budget. */
  ghost predicate AlwaysWithinBytes(images: set<RawImage>) {
    forall limits, history | DrawnFrom(history, images) ::
      HistoryBytes(BoundHistory(limits, history).items) <= limits.maxBytes
  }

  lemma {:induction false} NoBytes(images: seq<RawImage>)
    requires forall j | 0 <= j < |images| :: !HoldsData(images[j])
    ensures BytesOf(images) == 0
  {
    if images != [] {
      NoBytes(images[..|images| - 1]);
    }
  }

  lemma {:induction false} NoHistoryBytes(history: seq<Item>)
    requires forall i, j | 0 <= i < |history| && Carries(history[i]) && 0 <= j < |history[i].images.value| ::
               !HoldsData(history[i].images.value[j])
    ensures HistoryBytes(history) == 0
  {
    hide HoldsData, BytesOf;
    if history != [] {
      NoHistoryBytes(history[..|history| - 1]);
      if Carries(history[|history| - 1]) {
        NoBytes(history[|history| - 1].images.value);
      }
    }
  }

  lemma {:induction false} EmptyImagesStayEmpty(limits: ImageLimits, history: seq<Item>, images: set<RawImage>)
    requires DrawnFrom(history, images) && forall image | image in images :: !HoldsData(image)
    ensures HistoryBytes(BoundHistory(limits, history).items) == 0
  {
    var items := BoundHistory(limits, history).items;
    MessagesKeepOrder(limits, history);
    hide BoundHistory, Mappings;
    forall i, j | 0 <= i < |items| && Carries(items[i]) && 0 <= j < |items[i].images.value|
      ensures !HoldsData(items[i].images.value[j])
    {
      var image := Mappings(history[i].images.value)[j];
      assert SameOrStripped(items[i].images.value[j], image);
      MappingsAreImages(history[i].images.value, image);
    }
    NoHistoryBytes(items);
  }

  function Copies(image: RawImage, count: nat): (images: seq<RawImage>)
    ensures |images| == count
  {
    seq(count, i => image)
  }

  function Abs(n: int): nat { if n < 0 then -n else n }

  lemma Multiples(count: nat, bytes: int, pixels: int)
    requires count > 0 && bytes < 0
    ensures count * bytes == (count - 1) * bytes + bytes && count * pixels == (count - 1) * pixels + pixels
    ensures count * bytes + count <= 0
    ensures count * pixels <= Abs(pixels) * count && Abs(pixels) * count == Abs(pixels) * (count - 1) + Abs(pixels)
  {
  }

  /** Images that declare a negative size all keep their data and only lower the count of bytes. */
  lemma {:induction false} CopiesKept(limits: ImageLimits, image: RawImage, count: nat)
    requires image.Image? && image.data.Some? && Declared(image).bytes < 0
    requires count <= limits.maxImages && Abs(Declared(image).pixels) * count <= limits.maxPixels
    ensures
      var size, bounded := Declared(image), BoundImages(limits, Copies(image, count), Used(0, 0, 0));
      && bounded.kept == Copies(image, count)
      && bounded.used == Used(count, count * size.bytes, count * size.pixels)
  {
    if count > 0 {
      var size, fewer := Declared(image), Copies(image, count - 1);
      Multiples(count, size.bytes, size.pixels);
      CopiesKept(limits, image, count - 1);
      hide Declared, Abs;
      assert Copies(image, count) == fewer + [image];
      KeptBehind(limits, fewer, image);
    }
  }

  lemma {:induction false} BytesAppend(images: seq<RawImage>, image: RawImage)
    requires image.Image? && image.data.Some?
    ensures BytesOf(images + [image]) == BytesOf(images) + |image.data.value|
  {
    assert (images + [image])[..|images|] == images;
  }

  /** One image more that still fits keeps its data. */
  lemma {:induction false} KeptBehind(limits: ImageLimits, images: seq<RawImage>, image: RawImage)
    requires image.Image? && FitsIn(limits, BoundImages(limits, images, Used(0, 0, 0)).used, image)
    ensures
      var before, after := BoundImages(limits, images, Used(0, 0, 0)),
        BoundImages(limits, images + [image], Used(0, 0, 0));
      && after.kept == before.kept + [image] && after.used == Add(before.used, Declared(image))
      && BytesOf(after.kept) == BytesOf(before.kept) + |image.data.value|
  {
    var all, before := images + [image], BoundImages(limits, images, Used(0, 0, 0));
    assert all[..|all| - 1] == images && all[|all| - 1] == image;
    assert image.data.Some?;
    hide Declared, Within, Add, FitsIn, BytesOf;
    assert BoundImages(limits, all, Used(0, 0, 0)).kept == before.kept + [image];
    BytesAppend(before.kept, image);
  }

  function OneItem(images: seq<RawImage>): Item {
    Item(User, Multimodal, 0, None, Some(images), 0)
  }

  /** An image that holds more than it declares breaks a budget alone, unless it is empty. */
  lemma LargerBreaks(images: set<RawImage>, image: RawImage)
    requires image in images && HoldsData(image) && !DeclaresEnough(image)
    ensures !AlwaysWithinBytes(images)
  {
    var size := Declared(image);
    var limits, item := ImageLimits(1, Max(size.bytes, 0), Max(size.pixels, 0)), OneItem([image]);
    OneImageBreaksBudgetIff(limits, item, image);
    hide BoundHistory, HistoryBytes, Declared;
    assert DrawnFrom([item], images);
  }

  /** An empty image that declares a negative size makes place for another that holds data. */
  lemma NegativeBreaks(images: set<RawImage>, empty: RawImage, image: RawImage)
    requires {empty, image} <= images && HoldsData(image) && DeclaresEnough(image)
    requires !HoldsData(empty) && !DeclaresEnough(empty)
    ensures !AlwaysWithinBytes(images)
  {
    var count, size := Declared(image).bytes, Declared(empty);
    var limits := ImageLimits(count + 1, 0, Abs(size.pixels) * count + Abs(Declared(image).pixels));
    var copies := Copies(empty, count);
    CopiesKept(limits, empty, count);
    Multiples(count, size.bytes, size.pixels);
    hide Declared;
    KeptBehind(limits, copies, image);
    var item := OneItem(copies + [image]);
    OneItemBytes(limits, item);
    hide BoundHistory, HistoryBytes;
    assert DrawnFrom([item], images);
  }

  /** The real data of every history of these images stays within the byte budget
      under all settings if and only if no image holds more than it declares, or
      none holds any data. */
  lemma AlwaysWithinBytesIff(images: set<RawImage>)
    ensures AlwaysWithinBytes(images) <==>
              (forall image | image in images :: DeclaresEnough(image))
              || (forall image | image in images :: !HoldsData(image))
  {
    hide DeclaresEnough, HoldsData;
    if forall image | image in images :: DeclaresEnough(image) {
      forall limits, history | DrawnFrom(history, images)
        ensures HistoryBytes(BoundHistory(limits, history).items) <= limits.maxBytes
      {
        RealDataWithinBudget(limits, history);
      }
    } else if forall image | image in images :: !HoldsData(image) {
      forall limits, history | DrawnFrom(history, images)
        ensures HistoryBytes(BoundHistory(limits, history).items) <= limits.maxBytes
      {
        EmptyImagesStayEmpty(limits, history, images);
      }
    } else {
      hide AlwaysWithinBytes;
      var larger, other :| {larger, other} <= images && !DeclaresEnough(larger) && HoldsData(other);
      if HoldsData(larger) {
        LargerBreaks(images, larger);
      } else if !DeclaresEnough(other) {
        LargerBreaks(images, other);
      } else {
        NegativeBreaks(images, larger, other);
      }
    }
  }

  /** The omitted images and those that kept their data are all there were. */
  lemma {:induction false} OmissionsCounted(limits: ImageLimits, images: seq<RawImage>, used: Used)
    requires Within(used, limits)
    ensures var bounded := BoundImages(limits, images, used);
      bounded.omitted + DataOf(bounded.kept).images == |Mappings(images)|
  {
    hide Declared, Within, DataOf;
    ImagesAccounted(limits, images, used);
    OmittedOrUsed(limits, images, used);
  }

  lemma {:induction false} OmittedOrUsed(limits: ImageLimits, images: seq<RawImage>, used: Used)
    ensures var bounded := BoundImages(limits, images, used);
      bounded.omitted + bounded.used.images == used.images + |Mappings(images)|
  {
    hide Declared, Within, DataOf;
    if images != [] {
      var n := |images| - 1;
      OmittedOrUsed(limits, images[..n], used);
      BoundStep(limits, images, used);
      if images[n].Image? {
        KeptData(limits, BoundImages(limits, images[..n], used), images[n], BoundImages(limits, images, used));
      }
    }
  }

  /** An image keeps its data exactly when it has data and still fits beside all
      images that kept theirs before it. */
  lemma {:induction false} DataKeptIffFits(limits: ImageLimits, images: seq<RawImage>, used: Used, i: nat)
    requires Within(used, limits) && i < |BoundImages(limits, images, used).kept|
    ensures |BoundImages(limits, images, used).kept| == |Mappings(images)| && Mappings(images)[i].Image?
    ensures
      var kept, image := BoundImages(limits, images, used).kept, Mappings(images)[i];
      kept[i] == (if FitsIn(limits, Add(used, DataOf(kept[..i])), image) then image else image.(data := None))
    decreases |images|
  {
    ImagesKeepOrder(limits, images, used);
    var n := |images| - 1;
    var before, after := BoundImages(limits, images[..n], used), BoundImages(limits, images, used);
    ImagesKeepOrder(limits, images[..n], used);
    if i < |before.kept| {
      DataKeptIffFits(limits, images[..n], used, i);
      hide Declared, FitsIn;
      assert after.kept[..i] == before.kept[..i];
    } else {
      ImagesAccounted(limits, images[..n], used);
      hide Declared;
      assert after.kept[..i] == before.kept;
    }
  }
}
