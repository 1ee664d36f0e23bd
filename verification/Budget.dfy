/** The newest part of a history that fits a message budget and a size budget. */
module Budget {
  import opened Common

  datatype Limits = Limits(maxMessages: nat, maxCharacters: nat)

  function Total<T>(size: T -> nat, items: seq<T>): nat {
    if items == [] then 0 else Total(size, items[..|items| - 1]) + size(items[|items| - 1])
  }

  predicate Fits<T>(limits: Limits, size: T -> nat, items: seq<T>) {
    |items| <= limits.maxMessages && Total(size, items) <= limits.maxCharacters
  }

  function Newest<T>(items: seq<T>, count: nat): seq<T>
    requires count <= |items|
  {
    items[|items| - count..]
  }

  /** How many of the newest items are kept when some are kept already. */
  function KeepCount<T>(limits: Limits, size: T -> nat, items: seq<T>, kept: nat, total: nat): (count: nat)
    ensures count <= |items|
  {
    if items == [] || kept >= limits.maxMessages then 0
    else
      var next := total + size(items[|items| - 1]);
      if next > limits.maxCharacters then 0
      else 1 + KeepCount(limits, size, items[..|items| - 1], kept + 1, next)
  }

  /** How many of the newest items fit. */
  function Kept<T>(limits: Limits, size: T -> nat, items: seq<T>): (count: nat)
    ensures count <= |items|
  {
    KeepCount(limits, size, items, 0, 0)
  }

  function Reversed<T>(items: seq<T>): (r: seq<T>)
    ensures |r| == |items|
  {
    seq(|items|, i requires 0 <= i < |items| => items[|items| - 1 - i])
  }

  lemma ReversedMore<T>(items: seq<T>, at: nat)
    requires 0 < at <= |items|
    ensures Reversed(items[at - 1..]) == Reversed(items[at..]) + [items[at - 1]]
  {
  }

  lemma ReversedTwice<T>(items: seq<T>)
    ensures Reversed(Reversed(items)) == items
  {
  }

  lemma {:induction false} TotalAppend<T>(size: T -> nat, a: seq<T>, b: seq<T>)
    ensures Total(size, a + b) == Total(size, a) + Total(size, b)
    decreases |b|
  {
    if b == [] {
      assert a + b == a;
    } else {
      TotalAppend(size, a, b[..|b| - 1]);
      assert (a + b)[..|a + b| - 1] == a + b[..|b| - 1];
    }
  }

  lemma TotalOne<T>(size: T -> nat, item: T)
    ensures Total(size, [item]) == size(item)
  {
    assert [item][..0] == [];
  }

  lemma {:induction false} KeepCountIsMost<T>(limits: Limits, size: T -> nat, items: seq<T>, kept: nat, total: nat,
                                              count: nat)
    requires kept <= limits.maxMessages && total <= limits.maxCharacters && count <= |items|
    ensures count <= KeepCount(limits, size, items, kept, total) <==>
      kept + count <= limits.maxMessages && total + Total(size, Newest(items, count)) <= limits.maxCharacters
    decreases |items|
  {
    if count > 0 {
      var n := |items| - 1;
      var earlier := Newest(items[..n], count - 1);
      assert Newest(items, count) == earlier + [items[n]];
      TotalAppend(size, earlier, [items[n]]);
      TotalOne(size, items[n]);
      if kept < limits.maxMessages && total + size(items[n]) <= limits.maxCharacters {
        KeepCountIsMost(limits, size, items[..n], kept + 1, total + size(items[n]), count - 1);
      }
    }
  }

  /** Exactly the newest parts up to the kept length fit both budgets. */
  lemma KeptIsLongestFit<T>(limits: Limits, size: T -> nat, items: seq<T>, count: nat)
    requires count <= |items|
    ensures Fits(limits, size, Newest(items, count)) <==> count <= Kept(limits, size, items)
  {
    KeepCountIsMost(limits, size, items, 0, 0, count);
  }

  lemma SameNewest<T>(items: seq<T>, tail: nat, item: T, count: nat)
    requires tail <= |items| && count <= tail + 1
    ensures Newest(Newest(items, tail) + [item], count) == Newest(items + [item], count)
    ensures count > 0 ==> Newest(items + [item], count) == Newest(items, count - 1) + [item]
  {
  }

  /** A tail with one more item keeps the same newest part, as far as the tail reaches. */
  lemma KeptOfTail<T>(limits: Limits, size: T -> nat, items: seq<T>, tail: nat, item: T)
    requires tail <= |items|
    ensures Kept(limits, size, Newest(items, tail) + [item]) == Min(tail + 1, Kept(limits, size, items + [item]))
  {
    hide KeepCount, Kept, Fits;
    var whole, again := items + [item], Newest(items, tail) + [item];
    var most := Min(tail + 1, Kept(limits, size, whole));
    SameNewest(items, tail, item, most);
    KeptIsLongestFit(limits, size, whole, most);
    KeptIsLongestFit(limits, size, again, most);
    if most <= tail {
      SameNewest(items, tail, item, most + 1);
      KeptIsLongestFit(limits, size, whole, most + 1);
      KeptIsLongestFit(limits, size, again, most + 1);
    }
  }

  /** One more item never makes more of the earlier ones fit. */
  lemma KeptGrowsByOne<T>(limits: Limits, size: T -> nat, items: seq<T>, item: T)
    ensures Kept(limits, size, items + [item]) <= Kept(limits, size, items) + 1
  {
    hide KeepCount, Kept;
    var all := Kept(limits, size, items + [item]);
    if all > 0 {
      KeptIsLongestFit(limits, size, items + [item], all);
      SameNewest(items, |items|, item, all);
      TotalAppend(size, Newest(items, all - 1), [item]);
      KeptIsLongestFit(limits, size, items, all - 1);
    }
  }
}
