/** Splitting one response into messages bounded by UTF-16 code units. A char
    is a Unicode scalar value, so no page can split one. */
module Pagination {
  import opened Common

  datatype Overflow = Paginate | Truncate | Reject

  const NEWLINE: char := '\n'

  const SUFFIX: string := "\U{2026}"

  const MIN_UNITS: nat := 16

  /** UTF-16 units of one code point (section 2.1 of RFC 2781). */
  function CharUnits(c: char): (units: nat)
    ensures 1 <= units <= 2
  {
    if c as int > 0xFFFF then 2 else 1
  }

  function Units(text: string): nat {
    if text == "" then 0 else CharUnits(text[0]) + Units(text[1..])
  }

  // ---- taking a prefix ----

  /** The length of the longest prefix within the limit. */
  function FitLength(text: string, limit: nat): (count: nat)
    ensures count <= |text|
  {
    if text == "" || CharUnits(text[0]) > limit then 0
    else 1 + FitLength(text[1..], limit - CharUnits(text[0]))
  }

  method Take(text: string, limit: nat) returns (page: string, rest: string)
    ensures page == text[..FitLength(text, limit)] && rest == text[FitLength(text, limit)..]
  {
    var units := 0;
    for index := 0 to |text|
      invariant units <= limit
      invariant FitLength(text, limit) == index + FitLength(text[index..], limit - units)
    {
      var characterUnits := if text[index] as int > 0xFFFF then 2 else 1;
      if units + characterUnits > limit {
        return text[..index], text[index..];
      }
      units := units + characterUnits;
    }
    page, rest := text, "";
  }

  lemma {:induction false} UnitsAppend(a: string, b: string)
    ensures Units(a + b) == Units(a) + Units(b)
  {
    if a == "" {
      assert a + b == b;
    } else {
      UnitsAppend(a[1..], b);
      assert (a + b)[1..] == a[1..] + b;
    }
  }

  /** A prefix is within the limit exactly when it is no longer than the one taken. */
  lemma {:induction false} TakenIsLongest(text: string, limit: nat, count: nat)
    requires count <= |text|
    ensures Units(text[..count]) <= limit <==> count <= FitLength(text, limit)
  {
    if count > 0 {
      assert text[..count][1..] == text[1..][..count - 1];
      if CharUnits(text[0]) <= limit {
        TakenIsLongest(text[1..], limit - CharUnits(text[0]), count - 1);
      }
    }
  }

  lemma {:induction false} TakesSomething(text: string, limit: nat)
    requires text != "" && limit >= 2
    ensures FitLength(text, limit) > 0
  {
  }

  // ---- breaking pages ----

  /** Where the last newline of a page is; its length when there is none. */
  function LastNewline(page: string): (at: nat)
    ensures at <= |page|
    ensures at < |page| ==> page[at] == NEWLINE
    ensures forall i | at < i < |page| :: page[i] != NEWLINE
    ensures at == |page| ==> NEWLINE !in page
  {
    if page == "" then 0
    else if page[|page| - 1] == NEWLINE then |page| - 1
    else
      var at := LastNewline(page[..|page| - 1]);
      if at == |page| - 1 then |page| else at
  }

  function SkipNewlines(text: string): string {
    if text != "" && text[0] == NEWLINE then SkipNewlines(text[1..]) else text
  }

  /** The next page starts skip characters into the text and has length characters. */
  datatype Break = Break(skip: nat, length: nat)

  function NextBreak(text: string, max: nat): (b: Break)
    ensures b.skip + b.length <= |text|
  {
    var fit := FitLength(text, max);
    var at := LastNewline(text[..fit]);
    if fit == |text| || at == fit then Break(0, fit)
    else if at > 0 then Break(0, at)
    else Break(1, FitLength(text[1..], max))
  }

  function PageOf(text: string, b: Break): string
    requires b.skip + b.length <= |text|
  {
    text[b.skip..b.skip + b.length]
  }

  /** What is left after a page: a newline that ended it and any more that follow are dropped. */
  function RestOf(text: string, b: Break): string
    requires b.skip + b.length <= |text|
  {
    SkipNewlines(text[b.skip + b.length..])
  }

  function PagesOf(text: string, max: nat): seq<string>
    requires max >= 2
    decreases |text|
  {
    if text == "" then []
    else
      var b := NextBreak(text, max);
      BreakMovesOn(text, max);
      [PageOf(text, b)] + PagesOf(RestOf(text, b), max)
  }

  lemma {:induction false} SkipIsSuffix(text: string)
    ensures |SkipNewlines(text)| <= |text|
    ensures SkipNewlines(text) == text[|text| - |SkipNewlines(text)|..]
    ensures forall i | 0 <= i < |text| - |SkipNewlines(text)| :: text[i] == NEWLINE
    ensures SkipNewlines(text) != "" ==> SkipNewlines(text)[0] != NEWLINE
  {
    if text != "" && text[0] == NEWLINE {
      SkipIsSuffix(text[1..]);
      assert forall i | 1 <= i < |text| - |SkipNewlines(text)| :: text[i] == text[1..][i - 1];
    }
  }

  lemma BreakMovesOn(text: string, max: nat)
    requires text != "" && max >= 2
    ensures NextBreak(text, max).length > 0
    ensures |RestOf(text, NextBreak(text, max))| < |text|
    ensures NextBreak(text, max).skip <= 1
    ensures NextBreak(text, max).skip == 1 ==> text[0] == NEWLINE
  {
    var b, fit := NextBreak(text, max), FitLength(text, max);
    TakesSomething(text, max);
    SkipIsSuffix(text[b.skip + b.length..]);
    if b.skip == 1 {
      assert text[..fit][0] == NEWLINE;
      assert fit < |text|;
      TakesSomething(text[1..], max);
    }
  }

  // ---- the loops ----

  /** Where the first part of a round ends: at the last newline, or after all that fits. */
  method FirstPart(text: string, maxUnits: nat) returns (page: string, remaining: string)
    requires text != "" && maxUnits >= MIN_UNITS
    ensures
      var fit := FitLength(text, maxUnits);
      var cut := if fit < |text| && NEWLINE in text[..fit] then LastNewline(text[..fit]) else fit;
      && cut <= fit <= |text| && page == text[..cut]
      && remaining == (if cut < fit then text[cut + 1..] else text[fit..])
  {
    hide FitLength, LastNewline;
    page, remaining := Take(text, maxUnits);
    if remaining != "" && NEWLINE in page {
      var boundary := LastNewline(page);
      var remainderPrefix := page[boundary + 1..];
      if remainderPrefix != "" {
        remaining := remainderPrefix + remaining;
      }
      assert remaining == text[boundary + 1..];
      page := page[..boundary];
    }
  }

  /** One round of the paginating loop. */
  method NextPage(text: string, maxUnits: nat) returns (page: string, remaining: string)
    requires text != "" && maxUnits >= MIN_UNITS
    ensures page == PageOf(text, NextBreak(text, maxUnits))
    ensures remaining == RestOf(text, NextBreak(text, maxUnits))
  {
    hide FitLength, SkipNewlines, Units, LastNewline;
    ghost var b := NextBreak(text, maxUnits);
    BreakMovesOn(text, maxUnits);
    page, remaining := FirstPart(text, maxUnits);
    if page == "" {
      page, remaining := Take(remaining, maxUnits);
    }
    assert page == text[b.skip..b.skip + b.length];
    SkipOne(text, b.skip + b.length, remaining);
    remaining := SkipNewlines(remaining);
  }

  method PaginateText(text: string, maxUnits: nat) returns (pages: seq<string>)
    requires maxUnits >= MIN_UNITS
    ensures pages == PagesOf(text, maxUnits)
  {
    hide NextBreak, PageOf, RestOf;
    pages := [];
    var remaining := text;
    while remaining != ""
      invariant pages + PagesOf(remaining, maxUnits) == PagesOf(text, maxUnits)
      decreases |remaining|
    {
      BreakMovesOn(remaining, maxUnits);
      var page;
      page, remaining := NextPage(remaining, maxUnits);
      pages := pages + [page];
    }
  }

  /** Whether the newline that ended a page is dropped first makes no difference. */
  lemma {:induction false} SkipOne(text: string, end: nat, remaining: string)
    requires end <= |text|
    requires remaining == text[end..] || (end < |text| && text[end] == NEWLINE && remaining == text[end + 1..])
    ensures SkipNewlines(remaining) == SkipNewlines(text[end..])
  {
    if remaining != text[end..] {
      assert text[end..][1..] == text[end + 1..];
    }
  }

  method PagesFor(text: string, overflow: Overflow, maxUnits: nat) returns (pages: Option<seq<string>>)
    requires maxUnits >= MIN_UNITS
    ensures pages == Rendered(text, overflow, maxUnits)
  {
    if Units(text) <= maxUnits {
      return Some([text]);
    }
    match overflow
    case Reject => pages := None;
    case Truncate =>
      var page, rest := Take(text, maxUnits - Units(SUFFIX));
      pages := Some([page + SUFFIX]);
    case Paginate =>
      var all := PaginateText(text, maxUnits);
      pages := Some(all);
  }

  /** None stands for the error of a response that must not be split. */
  function Rendered(text: string, overflow: Overflow, max: nat): Option<seq<string>>
    requires max >= MIN_UNITS
  {
    if Units(text) <= max then Some([text])
    else match overflow
      case Reject => None
      case Truncate => Some([text[..FitLength(text, max - Units(SUFFIX))] + SUFFIX])
      case Paginate => Some(PagesOf(text, max))
  }

  // ---- what pagination promises ----

  predicate Newlines(text: string) {
    forall i | 0 <= i < |text| :: text[i] == NEWLINE
  }

  /** The pages in order, with a gap before each of them and one behind the last. */
  function Joined(gaps: seq<string>, pages: seq<string>): string
    requires |gaps| == |pages| + 1
  {
    if pages == [] then gaps[0] else gaps[0] + pages[0] + Joined(gaps[1..], pages[1..])
  }

  /** The text is the pages with only newlines before, between and after them. */
  ghost predicate OnlyNewlinesLost(text: string, gaps: seq<string>, pages: seq<string>) {
    && |gaps| == |pages| + 1
    && (forall i | 0 <= i < |gaps| :: Newlines(gaps[i]))
    && text == Joined(gaps, pages)
  }

  lemma {:induction false} PagesBounded(text: string, max: nat)
    requires max >= 2
    ensures forall i | 0 <= i < |PagesOf(text, max)| ::
            PagesOf(text, max)[i] != "" && Units(PagesOf(text, max)[i]) <= max
    decreases |text|
  {
    if text != "" {
      var b := NextBreak(text, max);
      BreakMovesOn(text, max);
      PagesBounded(RestOf(text, b), max);
      PageBounded(text, max);
      assert forall i | 1 <= i < |PagesOf(text, max)| :: PagesOf(text, max)[i] == PagesOf(RestOf(text, b), max)[i - 1];
    }
  }

  lemma PageBounded(text: string, max: nat)
    requires text != "" && max >= 2
    ensures Units(PageOf(text, NextBreak(text, max))) <= max
  {
    var b := NextBreak(text, max);
    if b.skip == 0 {
      TakenIsLongest(text, max, b.length);
      assert PageOf(text, b) == text[..b.length];
    } else {
      TakenIsLongest(text[1..], max, b.length);
      assert PageOf(text, b) == text[1..][..b.length];
    }
  }

  /** A text is what was skipped, the page, some newlines, and the rest. */
  lemma TextAroundPage(text: string, max: nat) returns (front: string, between: string)
    requires text != "" && max >= 2
    ensures var b := NextBreak(text, max);
      && Newlines(front) && Newlines(between)
      && text == front + PageOf(text, b) + (between + RestOf(text, b))
      && |RestOf(text, b)| < |text|
  {
    hide NextBreak, SkipNewlines;
    var b := NextBreak(text, max);
    BreakMovesOn(text, max);
    var end := b.skip + b.length;
    SkipIsSuffix(text[end..]);
    var dropped := |text| - end - |RestOf(text, b)|;
    front, between := text[..b.skip], text[end..][..dropped];
    Around(text, b.skip, end, dropped);
  }

  /** A text in four parts. */
  lemma Around(text: string, from: nat, to: nat, dropped: nat)
    requires from <= to <= |text| && dropped <= |text| - to
    ensures text == text[..from] + text[from..to] + (text[to..][..dropped] + text[to..][dropped..])
  {
    assert text[to..][..dropped] + text[to..][dropped..] == text[to..];
    assert text[..from] + text[from..to] == text[..to];
  }

  lemma {:induction false} PagesStep(text: string, max: nat)
    requires text != "" && max >= 2
    ensures var b := NextBreak(text, max); PagesOf(text, max) == [PageOf(text, b)] + PagesOf(RestOf(text, b), max)
  {
    hide NextBreak, PageOf, RestOf;
  }

  lemma GapsAreNewlines(front: string, between: string, later: seq<string>)
    requires later != [] && Newlines(front) && Newlines(between) && forall i | 0 <= i < |later| :: Newlines(later[i])
    ensures
      var gaps := [front] + [between + later[0]] + later[1..];
      |gaps| == |later| + 1 && forall i | 0 <= i < |gaps| :: Newlines(gaps[i])
  {
    var gaps := [front] + [between + later[0]] + later[1..];
    assert Newlines(between + later[0]);
    hide Newlines;
    assert forall i | 2 <= i < |gaps| :: gaps[i] == later[i - 1];
  }

  lemma {:induction false} PagesLoseOnlyNewlines(text: string, max: nat) returns (gaps: seq<string>)
    requires max >= 2
    ensures OnlyNewlinesLost(text, gaps, PagesOf(text, max))
    decreases |text|
  {
    if text == "" {
      gaps := [""];
    } else {
      var b := NextBreak(text, max);
      var front, between := TextAroundPage(text, max);
      hide NextBreak, PageOf, RestOf;
      var later := PagesLoseOnlyNewlines(RestOf(text, b), max);
      gaps := [front] + [between + later[0]] + later[1..];
      hide Joined, PagesOf;
      PagesStep(text, max);
      JoinOn(front, PageOf(text, b), between, later, PagesOf(RestOf(text, b), max));
      GapsAreNewlines(front, between, later);
    }
  }

  lemma {:induction false} JoinOn(front: string, page: string, between: string, later: seq<string>, pages: seq<string>)
    requires |later| == |pages| + 1
    ensures Joined([front] + [between + later[0]] + later[1..], [page] + pages)
            == front + page + (between + Joined(later, pages))
  {
    JoinedStep(front, page, [between + later[0]] + later[1..], pages);
    JoinFirst(between, later, pages);
    hide Joined;
    Regroup([front], [between + later[0]], later[1..]);
  }

  lemma {:induction false} JoinedStep(front: string, page: string, gaps: seq<string>, pages: seq<string>)
    requires |gaps| == |pages| + 1
    ensures Joined([front] + gaps, [page] + pages) == front + page + Joined(gaps, pages)
  {
    assert ([front] + gaps)[1..] == gaps && ([page] + pages)[1..] == pages;
  }

  /** A text put before the first gap is put before the whole. */
  lemma {:induction false} JoinFirst(between: string, later: seq<string>, pages: seq<string>)
    requires |later| == |pages| + 1
    ensures Joined([between + later[0]] + later[1..], pages) == between + Joined(later, pages)
  {
    var rest := [between + later[0]] + later[1..];
    if pages != [] {
      assert rest[1..] == later[1..];
      hide Joined;
      Regroup(between, later[0], pages[0]);
      Regroup(between, later[0] + pages[0], Joined(later[1..], pages[1..]));
    }
  }

  /** For any text and any allowed limit: every page is non-empty and within the
      limit, and nothing but newlines at page borders is lost. */
  lemma {:induction false} PaginationIsBoundedAndFaithful(text: string, max: nat)
    requires max >= MIN_UNITS
    ensures forall i | 0 <= i < |PagesOf(text, max)| ::
            PagesOf(text, max)[i] != "" && Units(PagesOf(text, max)[i]) <= max
    ensures exists gaps :: OnlyNewlinesLost(text, gaps, PagesOf(text, max))
  {
    PagesBounded(text, max);
    var gaps := PagesLoseOnlyNewlines(text, max);
  }

  /** Where a page ends: the rest of the text fits; or at the last newline that
      fits; or, with no newline to break at, nowhere before the limit. */
  lemma {:induction false} BreaksAtNewlineOrLimit(text: string, max: nat)
    requires text != "" && max >= MIN_UNITS
    ensures
      var b := NextBreak(text, max);
      var end := b.skip + b.length;
      || end == |text|
      || (text[end] == NEWLINE && b.skip == 0 && Units(text[..end + 1]) <= max
          && forall i | end < i < |text| && text[i] == NEWLINE :: Units(text[..i + 1]) > max)
      || (Units(text[b.skip..end + 1]) > max && NEWLINE !in text[b.skip..Max(b.skip, FitLength(text, max))])
  {
    hide FitLength, Units;
    var b, fit := NextBreak(text, max), FitLength(text, max);
    var end := b.skip + b.length;
    if fit < |text| && 0 < LastNewline(text[..fit]) < fit {
      LastNewlineFits(text, max);
    } else if end < |text| {
      NoNewlineFits(text, max);
    }
  }

  lemma {:induction false} LastNewlineFits(text: string, max: nat)
    requires 0 < LastNewline(text[..FitLength(text, max)]) < FitLength(text, max) < |text|
    ensures
      var end := LastNewline(text[..FitLength(text, max)]);
      && text[end] == NEWLINE && Units(text[..end + 1]) <= max
      && forall i | end < i < |text| && text[i] == NEWLINE :: Units(text[..i + 1]) > max
  {
    var fit := FitLength(text, max);
    var end := LastNewline(text[..fit]);
    TakenIsLongest(text, max, end + 1);
    forall i | end < i < |text| && text[i] == NEWLINE ensures Units(text[..i + 1]) > max {
      TakenIsLongest(text, max, i + 1);
      if i < fit {
        assert false;
      }
    }
  }

  lemma {:induction false} NoNewlineFits(text: string, max: nat)
    requires text != "" && max >= MIN_UNITS
    requires var fit := FitLength(text, max);
      fit == |text| || LastNewline(text[..fit]) == fit || LastNewline(text[..fit]) == 0
    requires var b := NextBreak(text, max); b.skip + b.length < |text|
    ensures
      var b := NextBreak(text, max);
      && Units(text[b.skip..b.skip + b.length + 1]) > max
      && NEWLINE !in text[b.skip..Max(b.skip, FitLength(text, max))]
  {
    hide FitLength, Units;
    var b, fit := NextBreak(text, max), FitLength(text, max);
    var end := b.skip + b.length;
    if b.skip == 0 {
      TakenIsLongest(text, max, end + 1);
      TakesSomething(text, max);
      assert text[0..end + 1] == text[..end + 1];
      assert text[0..fit] == text[..fit];
    } else {
      TakenIsLongest(text[1..], max, b.length + 1);
      assert text[1..][..b.length + 1] == text[1..end + 1];
      assert forall i | 1 <= i < fit :: text[i] == text[..fit][i];
    }
  }

  /** A short text is one page as it is, and otherwise a single truncated page
      is the longest beginning that leaves room for the suffix. */
  lemma {:induction false} RenderedBounds(text: string, overflow: Overflow, max: nat)
    requires max >= MIN_UNITS
    ensures Rendered(text, overflow, max).None? <==> overflow.Reject? && Units(text) > max
    ensures Units(text) <= max ==> Rendered(text, overflow, max) == Some([text])
    ensures Rendered(text, overflow, max).Some? ==>
      forall i | 0 <= i < |Rendered(text, overflow, max).value| :: Units(Rendered(text, overflow, max).value[i]) <= max
  {
    if Units(text) > max {
      if overflow.Truncate? {
        var fit := FitLength(text, max - 1);
        TakenIsLongest(text, max - 1, fit);
        UnitsAppend(text[..fit], SUFFIX);
      } else if overflow.Paginate? {
        PagesBounded(text, max);
      }
    }
  }

  /** A response that may be split keeps its whole text: only newlines around the pages are lost. */
  lemma {:induction false} PaginateKeepsText(text: string, max: nat)
    requires max >= MIN_UNITS
    ensures Rendered(text, Paginate, max).Some?
    ensures exists gaps :: OnlyNewlinesLost(text, gaps, Rendered(text, Paginate, max).value)
  {
    if Units(text) <= max {
      OnePageKeepsText(text);
    } else {
      var gaps := PagesLoseOnlyNewlines(text, max);
    }
  }

  lemma {:induction false} OnePageKeepsText(text: string)
    ensures OnlyNewlinesLost(text, ["", ""], [text])
  {
    assert ["", ""][1..] == [""] && [text][1..] == [];
  }

  lemma {:induction false} TruncatedIsLongest(text: string, max: nat, count: nat)
    requires max >= MIN_UNITS && Units(text) > max && count <= |text|
    ensures Rendered(text, Truncate, max) == Some([text[..FitLength(text, max - 1)] + SUFFIX])
    ensures Units(text[..count] + SUFFIX) <= max <==> count <= FitLength(text, max - 1)
  {
    TakenIsLongest(text, max - 1, count);
    UnitsAppend(text[..count], SUFFIX);
  }

  /** Newlines at a page border are all dropped: no page but the first can open with one. */
  lemma {:induction false} LaterPagesOpenWithText(text: string, max: nat, i: nat)
    requires max >= 2 && i < |PagesOf(text, max)|
    requires i > 0 || (text != "" && text[0] != NEWLINE)
    ensures PagesOf(text, max)[i] != "" && PagesOf(text, max)[i][0] != NEWLINE
    decreases i
  {
    var b := NextBreak(text, max);
    BreakMovesOn(text, max);
    if i > 0 {
      SkipIsSuffix(text[b.skip + b.length..]);
      LaterPagesOpenWithText(RestOf(text, b), max, i - 1);
    }
  }
}
