/** Log lines together with their channel, as a query collects them. */
module Hits {
  import opened TimeDetail
  import opened Periods
  import opened LogParser
  import opened Search

  datatype Hit = Hit(channel: string, entry: Entry)

  function Tag(channel: string, es: seq<Entry>): seq<Hit> {
    seq(|es|, i requires 0 <= i < |es| => Hit(channel, es[i]))
  }

  /** The hits with a time inside the period, in order. */
  function InPeriod(hs: seq<Hit>, p: TimePeriod): seq<Hit> {
    if hs == [] then []
    else
      var last := hs[|hs| - 1];
      InPeriod(hs[..|hs| - 1], p) + if IsInside(p, last.entry.time) then [last] else []
  }

  /** How often the target occurs in the messages of hs, all taken together. */
  function CountIn(hs: seq<Hit>, target: string, caseless: bool): nat {
    if hs == [] then 0
    else CountIn(hs[..|hs| - 1], target, caseless) + |Matches(hs[|hs| - 1].entry.message, target, caseless)|
  }

  /** The hits whose message contains the target, in order. */
  function Containing(hs: seq<Hit>, target: string, caseless: bool): seq<Hit> {
    if hs == [] then []
    else
      var last := hs[|hs| - 1];
      Containing(hs[..|hs| - 1], target, caseless)
      + if FindFunc(last.entry.message, target, caseless) then [last] else []
  }

  // ---------- appending ----------

  lemma {:induction false} InPeriodAppend(a: seq<Hit>, b: seq<Hit>, p: TimePeriod)
    ensures InPeriod(a + b, p) == InPeriod(a, p) + InPeriod(b, p)
    decreases |b|
  {
    if b == [] {
      assert a + b == a;
    } else {
      var front := b[..|b| - 1];
      assert (a + b)[..|a + b| - 1] == a + front;
      InPeriodAppend(a, front, p);
    }
  }

  lemma {:induction false} CountInAppend(a: seq<Hit>, b: seq<Hit>, target: string, caseless: bool)
    ensures CountIn(a + b, target, caseless) == CountIn(a, target, caseless) + CountIn(b, target, caseless)
    decreases |b|
  {
    if b == [] {
      assert a + b == a;
    } else {
      var front := b[..|b| - 1];
      assert (a + b)[..|a + b| - 1] == a + front;
      CountInAppend(a, front, target, caseless);
    }
  }

  lemma {:induction false} ContainingAppend(a: seq<Hit>, b: seq<Hit>, target: string, caseless: bool)
    ensures Containing(a + b, target, caseless) == Containing(a, target, caseless) + Containing(b, target, caseless)
    decreases |b|
  {
    if b == [] {
      assert a + b == a;
    } else {
      var front := b[..|b| - 1];
      assert (a + b)[..|a + b| - 1] == a + front;
      ContainingAppend(a, front, target, caseless);
    }
  }

  // ---------- cutting a log into units ----------

  /** The logs of the units, one after the other: each holds exactly its unit's lines. */
  function UnitLogs(hs: seq<Hit>, units: seq<TimePeriod>): seq<Hit> {
    if units == [] then []
    else UnitLogs(hs, units[..|units| - 1]) + InPeriod(hs, units[|units| - 1])
  }

  function Copies(h: Hit, n: nat): multiset<Hit> {
    multiset{}[h := n]
  }

  lemma FilteredTwice(hs: seq<Hit>, h: Hit, unit: TimePeriod, p: TimePeriod)
    ensures multiset(InPeriod(InPeriod(hs + [h], unit), p))
         == multiset(InPeriod(InPeriod(hs, unit), p))
            + Copies(h, if IsInside(unit, h.entry.time) && IsInside(p, h.entry.time) then 1 else 0)
  {
    InPeriodAppend(hs, [h], unit);
    assert [h][..0] == [];
    assert InPeriod([h], unit) == if IsInside(unit, h.entry.time) then [h] else [];
    assert InPeriod([h], p) == if IsInside(p, h.entry.time) then [h] else [];
    InPeriodAppend(InPeriod(hs, unit), InPeriod([h], unit), p);
  }

  lemma {:induction false} OneMoreHit(hs: seq<Hit>, h: Hit, units: seq<TimePeriod>, p: TimePeriod)
    ensures multiset(InPeriod(UnitLogs(hs + [h], units), p))
         == multiset(InPeriod(UnitLogs(hs, units), p))
            + Copies(h, if IsInside(p, h.entry.time) then Holding(units, h.entry.time) else 0)
    decreases |units|
  {
    hide InPeriod;
    if units == [] {
      assert multiset{} + Copies(h, 0) == multiset{};
    } else {
      var front, last := units[..|units| - 1], units[|units| - 1];
      OneMoreHit(hs, h, front, p);
      FilteredTwice(hs, h, last, p);
      InPeriodAppend(UnitLogs(hs, front), InPeriod(hs, last), p);
      InPeriodAppend(UnitLogs(hs + [h], front), InPeriod(hs + [h], last), p);
    }
  }

  lemma {:induction false} NoHits(units: seq<TimePeriod>)
    ensures UnitLogs([], units) == []
    decreases |units|
  {
    if units != [] {
      NoHits(units[..|units| - 1]);
    }
  }

  /**
    Cutting a log into units that cover the period, and filtering the pieces by
    the period, neither loses nor duplicates a line of the period.
   */
  lemma {:induction false} CutAndFiltered(hs: seq<Hit>, units: seq<TimePeriod>, p: TimePeriod)
    requires Covers(units, p)
    ensures multiset(InPeriod(UnitLogs(hs, units), p)) == multiset(InPeriod(hs, p))
    decreases |hs|
  {
    hide Covers, Holding, IsInside;
    if hs == [] {
      NoHits(units);
    } else {
      var front, h := hs[..|hs| - 1], hs[|hs| - 1];
      CutAndFiltered(front, units, p);
      assert hs == front + [h];
      OneMoreHit(front, h, units, p);
      if IsInside(p, h.entry.time) {
        CoveredOnce(units, p, h.entry.time);
      }
    }
  }

  // ---------- the order of the lines does not matter ----------

  /** b without one occurrence of x. */
  lemma TakeOut<T>(b: seq<T>, x: T) returns (i: nat)
    requires x in multiset(b)
    ensures i < |b| && b[i] == x
    ensures multiset(b) == multiset(b[..i] + b[i + 1..]) + multiset{x}
  {
    i :| 0 <= i < |b| && b[i] == x;
    assert b == b[..i] + [x] + b[i + 1..];
  }

  lemma CountTakenOut(b: seq<Hit>, i: nat, target: string, caseless: bool)
    requires i < |b|
    ensures CountIn(b, target, caseless)
         == CountIn(b[..i] + b[i + 1..], target, caseless) + |Matches(b[i].entry.message, target, caseless)|
  {
    hide Matches;
    var first, last := b[..i], b[i + 1..];
    assert b == first + [b[i]] + last;
    CountInAppend(first, last, target, caseless);
    CountInAppend(first + [b[i]], last, target, caseless);
    assert (first + [b[i]])[..i] == first;
  }

  lemma {:induction false} CountIgnoresOrder(a: seq<Hit>, b: seq<Hit>, target: string, caseless: bool)
    requires multiset(a) == multiset(b)
    ensures CountIn(a, target, caseless) == CountIn(b, target, caseless)
    decreases |a|
  {
    hide Matches, CountIn;
    if a == [] {
      assert |multiset(b)| == 0;
      assert a == b;
    } else {
      var front, x := a[..|a| - 1], a[|a| - 1];
      assert a == front + [x];
      var i := TakeOut(b, x);
      assert multiset(front) == multiset(a) - multiset{x} == multiset(b[..i] + b[i + 1..]);
      CountTakenOut(a, |front|, target, caseless);
      assert a[..|front|] + a[|front| + 1..] == front;
      CountIgnoresOrder(front, b[..i] + b[i + 1..], target, caseless);
      CountTakenOut(b, i, target, caseless);
    }
  }

  lemma {:induction false} ContainingMultiset(hs: seq<Hit>, target: string, caseless: bool, x: Hit)
    ensures multiset(Containing(hs, target, caseless))[x]
         == if FindFunc(x.entry.message, target, caseless) then multiset(hs)[x] else 0
    decreases |hs|
  {
    hide FindFunc;
    if hs != [] {
      ContainingMultiset(hs[..|hs| - 1], target, caseless, x);
      assert hs == hs[..|hs| - 1] + [hs[|hs| - 1]];
    }
  }

  lemma ContainingIgnoresOrder(a: seq<Hit>, b: seq<Hit>, target: string, caseless: bool)
    requires multiset(a) == multiset(b)
    ensures multiset(Containing(a, target, caseless)) == multiset(Containing(b, target, caseless))
  {
    forall x: Hit
      ensures multiset(Containing(a, target, caseless))[x] == multiset(Containing(b, target, caseless))[x]
    {
      ContainingMultiset(a, target, caseless, x);
      ContainingMultiset(b, target, caseless, x);
    }
  }
}
