/** Sums of numbers, for saying what totals add up without the code that adds them. */
module Sums {

  function Total(ns: seq<nat>): nat {
    if ns == [] then 0 else ns[0] + Total(ns[1..])
  }

  /** A sum adds up however its numbers are split. */
  lemma {:induction false} TotalSplits(ms: seq<nat>, ns: seq<nat>)
    ensures Total(ms + ns) == Total(ms) + Total(ns)
  {
    if ms == [] {
      assert ms + ns == ns;
    } else {
      assert (ms + ns)[1..] == ms[1..] + ns;
      TotalSplits(ms[1..], ns);
    }
  }

  lemma TotalOfLast(ns: seq<nat>)
    requires ns != []
    ensures Total(ns) == Total(ns[..|ns| - 1]) + ns[|ns| - 1]
  {
    var last := ns[|ns| - 1..];
    assert last[1..] == [] && ns == ns[..|ns| - 1] + last;
    TotalSplits(ns[..|ns| - 1], last);
  }

  /** The numbers of the items for which the condition holds. */
  function Picked<T>(items: seq<T>, when: T -> bool, value: T -> nat): seq<nat> {
    seq(|items|, i requires 0 <= i < |items| => if when(items[i]) then value(items[i]) else 0)
  }

  lemma PickedLast<T>(items: seq<T>, when: T -> bool, value: T -> nat)
    requires items != []
    ensures Total(Picked(items, when, value))
         == Total(Picked(items[..|items| - 1], when, value)) + if when(items[|items| - 1]) then value(items[|items| - 1]) else 0
  {
    TotalOfLast(Picked(items, when, value));
    assert Picked(items, when, value)[..|items| - 1] == Picked(items[..|items| - 1], when, value);
  }

  lemma PickedSplits<T>(xs: seq<T>, ys: seq<T>, when: T -> bool, value: T -> nat)
    ensures Total(Picked(xs + ys, when, value)) == Total(Picked(xs, when, value)) + Total(Picked(ys, when, value))
  {
    assert Picked(xs + ys, when, value) == Picked(xs, when, value) + Picked(ys, when, value);
    TotalSplits(Picked(xs, when, value), Picked(ys, when, value));
  }

  function Mapped<T>(items: seq<T>, value: T -> nat): seq<nat> {
    seq(|items|, i requires 0 <= i < |items| => value(items[i]))
  }

  lemma MappedSplits<T>(xs: seq<T>, ys: seq<T>, value: T -> nat)
    ensures Total(Mapped(xs + ys, value)) == Total(Mapped(xs, value)) + Total(Mapped(ys, value))
  {
    assert Mapped(xs + ys, value) == Mapped(xs, value) + Mapped(ys, value);
    TotalSplits(Mapped(xs, value), Mapped(ys, value));
  }

  lemma MappedOne<T>(x: T, value: T -> nat)
    ensures Total(Mapped([x], value)) == value(x)
  {
    assert Mapped([x], value)[1..] == [];
  }

  ghost predicate EachOnce<T>(xs: seq<T>) {
    forall i, j :: 0 <= i < j < |xs| ==> xs[i] != xs[j]
  }

  lemma WithoutOne<T>(ys: seq<T>, j: nat)
    requires EachOnce(ys) && j < |ys|
    ensures var rest := ys[..j] + ys[j + 1..];
            EachOnce(rest) && forall y :: y in rest <==> y in ys && y != ys[j]
  {
    var rest := ys[..j] + ys[j + 1..];
    forall y ensures y in rest <==> y in ys && y != ys[j] {
      if y in rest {
        var k :| 0 <= k < |rest| && rest[k] == y;
        assert rest[k] == ys[if k < j then k else k + 1];
      }
      if y in ys && y != ys[j] {
        var k :| 0 <= k < |ys| && ys[k] == y;
        assert rest[if k < j then k else k - 1] == y;
      }
    }
  }

  lemma MappedWithoutOne<T>(ys: seq<T>, j: nat, value: T -> nat)
    requires j < |ys|
    ensures Total(Mapped(ys, value)) == value(ys[j]) + Total(Mapped(ys[..j] + ys[j + 1..], value))
  {
    assert ys == ys[..j] + ([ys[j]] + ys[j + 1..]);
    MappedSplits(ys[..j], [ys[j]] + ys[j + 1..], value);
    MappedSplits([ys[j]], ys[j + 1..], value);
    MappedOne(ys[j], value);
    MappedSplits(ys[..j], ys[j + 1..], value);
  }

  /** Two lists of the same items, each once, have one sum. */
  lemma {:induction false} SameItemsSameSum<T>(xs: seq<T>, ys: seq<T>, value: T -> nat)
    requires EachOnce(xs) && EachOnce(ys) && forall x :: x in xs <==> x in ys
    ensures Total(Mapped(xs, value)) == Total(Mapped(ys, value))
    decreases |xs|
  {
    assert |ys| > 0 ==> ys[0] in ys;
    if xs != [] {
      assert xs[0] in xs;
      var j: nat :| j < |ys| && ys[j] == xs[0];
      WithoutOne(xs, 0);
      WithoutOne(ys, j);
      MappedWithoutOne(xs, 0, value);
      MappedWithoutOne(ys, j, value);
      assert xs[..0] + xs[0 + 1..] == xs[1..];
      SameItemsSameSum(xs[1..], ys[..j] + ys[j + 1..], value);
    }
  }

  // ----- amounts --------------------------------------------------------------------------------

  function RealTotal(rs: seq<real>): real {
    if rs == [] then 0.0 else RealTotal(rs[..|rs| - 1]) + rs[|rs| - 1]
  }

  /** The amounts of the items for which the condition holds. */
  function PickedAmounts<T>(items: seq<T>, when: T -> bool, value: T -> real): seq<real> {
    seq(|items|, i requires 0 <= i < |items| => if when(items[i]) then value(items[i]) else 0.0)
  }

  lemma PickedAmountsLast<T>(items: seq<T>, when: T -> bool, value: T -> real)
    requires items != []
    ensures RealTotal(PickedAmounts(items, when, value))
         == RealTotal(PickedAmounts(items[..|items| - 1], when, value)) + if when(items[|items| - 1]) then value(items[|items| - 1]) else 0.0
  {
    assert PickedAmounts(items, when, value)[..|items| - 1] == PickedAmounts(items[..|items| - 1], when, value);
  }
}
