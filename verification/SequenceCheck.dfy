/** The sequence checker that reads pushed datasets back.

checkData walks over one page of items and updates counters that its caller threads from page to
page: the next expected sequence id and the numbers of missing, replicated, malformed and foreign
items. */
module SequenceCheck {
  import opened Basics
  import RR = RoundRobin

  type Word = x: int | 0 <= x < U64

  /** A dataset read back: its run id and its sequence id, where it has them. */
  datatype Item = Item(run: Option<nat>, seqId: Option<nat>)

  datatype Counters = Counters(
    errors: nat, expected: Word, missing: Word, replicated: nat, malformed: nat, badRun: nat)

  const NO_COUNTS := Counters(0, 0, 0, 0, 0, 0)

  /** An item of another run. An item without a run id is malformed, but checked all the same. */
  predicate Foreign(run: Word, x: Item) {
    x.run.Some? && x.run.value != run
  }

  predicate Numbered(run: Word, x: Item) {
    !Foreign(run, x) && x.seqId.Some?
  }

  function CheckSeq(c: Counters, x: Item): Counters {
    if x.seqId.None? then c.(errors := c.errors + 1)
    else
      var p := x.seqId.value;
      if p > c.expected then
        c.(errors := c.errors + 1, expected := (p + 1) % U64,
           missing := (c.missing + (p - c.expected)) % U64)
      else if p < c.expected then c.(errors := c.errors + 1, replicated := c.replicated + 1)
      else c.(expected := (c.expected + 1) % U64)
  }

  function CheckOne(run: Word, c: Counters, x: Item): Counters {
    if Foreign(run, x) then c.(errors := c.errors + 1, badRun := c.badRun + 1)
    else CheckSeq(if x.run.None? then c.(malformed := c.malformed + 1) else c, x)
  }

  /** The counters after the first n items. */
  function CheckAll(run: Word, c: Counters, items: seq<Item>, n: nat): Counters
    requires n <= |items|
  {
    if n == 0 then c else CheckOne(run, CheckAll(run, c, items, n - 1), items[n - 1])
  }

  /** checkData, with the counters that the source passes by reference. */
  method CheckData(run: Word, items: seq<Item>, counters: Counters) returns (after: Counters)
    ensures after == CheckAll(run, counters, items, |items|)
  {
    after := counters;
    for i := 0 to |items|
      invariant after == CheckAll(run, counters, items, i)
    {
      var x := items[i];
      if x.run.Some? {
        if x.run.value != run {
          after := after.(errors := after.errors + 1, badRun := after.badRun + 1);
          continue;
        }
      } else {
        after := after.(malformed := after.malformed + 1);
      }
      if x.seqId.Some? {
        var p := x.seqId.value;
        if p > after.expected {
          var missing := p - after.expected;
          after := after.(errors := after.errors + 1, expected := (p + 1) % U64,
                          missing := (after.missing + missing) % U64);
        } else if p < after.expected {
          after := after.(replicated := after.replicated + 1, errors := after.errors + 1);
        } else {
          after := after.(expected := (after.expected + 1) % U64);
        }
      } else {
        after := after.(errors := after.errors + 1);
      }
    }
  }

  // ---------------------------------------------------------------- pages

  /** Counters threaded from a page to the next are those of one pass over both. */
  lemma {:induction false} CheckConcat(run: Word, c: Counters, a: seq<Item>, b: seq<Item>, n: nat)
    requires n <= |b|
    ensures CheckAll(run, c, a + b, |a| + n)
            == CheckAll(run, CheckAll(run, c, a, |a|), b, n)
  {
    if n == 0 {
      CheckPrefix(run, c, a, a + b, |a|);
    } else {
      CheckConcat(run, c, a, b, n - 1);
      assert (a + b)[|a| + n - 1] == b[n - 1];
    }
  }

  lemma {:induction false} CheckPrefix(
    run: Word, c: Counters, a: seq<Item>, b: seq<Item>, n: nat)
    requires n <= |a| && n <= |b| && forall i :: 0 <= i < n ==> a[i] == b[i]
    ensures CheckAll(run, c, a, n) == CheckAll(run, c, b, n)
  {
    if 0 < n { CheckPrefix(run, c, a, b, n - 1); }
  }

  // ---------------------------------------------------------------- no errors

  predicate InOrder(run: Word, k: Word, items: seq<Item>, n: nat)
    requires n <= |items|
  {
    forall i :: 0 <= i < n ==> Numbered(run, items[i]) && items[i].seqId.value == (k + i) % U64
  }

  lemma Next(k: int, i: int)
    ensures ((k + i) % U64 + 1) % U64 == (k + i + 1) % U64
  {
    var q, r := (k + i) / U64, (k + i) % U64;
    assert k + i == q * U64 + r;
    if r + 1 < U64 { RR.DivModOf(q, U64, r + 1); } else { RR.DivModOf(q + 1, U64, 0); }
  }

  lemma OneError(run: Word, c: Counters, x: Item)
    ensures var d := CheckOne(run, c, x);
            && c.errors <= d.errors
            && (d.errors == c.errors <==> Numbered(run, x) && x.seqId.value == c.expected)
            && (d.errors == c.errors ==>
                  && d.expected == (c.expected + 1) % U64 && d.missing == c.missing
                  && d.replicated == c.replicated && d.badRun == c.badRun)
  {}

  lemma {:induction false} NoErrors(run: Word, c: Counters, items: seq<Item>, n: nat)
    requires n <= |items|
    ensures var d := CheckAll(run, c, items, n);
            && c.errors <= d.errors
            && (d.errors == c.errors <==> InOrder(run, c.expected, items, n))
            && (d.errors == c.errors ==>
                  && d.expected == (c.expected + n) % U64 && d.missing == c.missing
                  && d.replicated == c.replicated && d.badRun == c.badRun)
  {
    hide CheckOne;
    if n == 0 {
      Unwrap(c.expected);
    } else {
      NoErrors(run, c, items, n - 1);
      OneError(run, CheckAll(run, c, items, n - 1), items[n - 1]);
      Next(c.expected, n - 1);
      if InOrder(run, c.expected, items, n) { assert InOrder(run, c.expected, items, n - 1); }
    }
  }

  /** No errors are reported iff every item has a sequence id, every run id there is the expected
      one, and the sequence ids count up by one from the expected id. */
  lemma ZeroErrorsIff(run: Word, c: Counters, items: seq<Item>)
    ensures CheckAll(run, c, items, |items|).errors == c.errors <==>
            forall i :: 0 <= i < |items| ==>
              && (items[i].run.None? || items[i].run.value == run)
              && items[i].seqId == Some((c.expected + i) % U64)
  {
    NoErrors(run, c, items, |items|);
  }

  function Count(items: seq<Item>, n: nat, p: Item -> bool): nat
    requires n <= |items|
  {
    if n == 0 then 0 else Count(items, n - 1, p) + (if p(items[n - 1]) then 1 else 0)
  }

  function ForeignTo(run: Word): Item -> bool {
    (x: Item) => Foreign(run, x)
  }

  function NoId(run: Word): Item -> bool {
    (x: Item) => !Foreign(run, x) && x.seqId.None?
  }

  predicate NoRun(x: Item) {
    x.run.None?
  }

  /** An item with an id above the expected one, which is reported as a gap. */
  predicate Gap(run: Word, c: Counters, x: Item) {
    Numbered(run, x) && c.expected < x.seqId.value
  }

  function Gaps(run: Word, c: Counters, items: seq<Item>, n: nat): nat
    requires n <= |items|
  {
    if n == 0 then 0
    else Gaps(run, c, items, n - 1)
         + (if Gap(run, CheckAll(run, c, items, n - 1), items[n - 1]) then 1 else 0)
  }

  /** Every error is exactly one of: a foreign item, an item of the run without an id, a replicated
      one, or a gap. Items without a run id are counted apart. */
  lemma {:induction false} Tally(run: Word, c: Counters, items: seq<Item>, n: nat)
    requires n <= |items|
    ensures var d := CheckAll(run, c, items, n);
            && d.badRun == c.badRun + Count(items, n, ForeignTo(run))
            && d.malformed == c.malformed + Count(items, n, NoRun)
            && d.errors == c.errors + Count(items, n, ForeignTo(run))
                           + Count(items, n, NoId(run))
                           + (d.replicated - c.replicated) + Gaps(run, c, items, n)
  {
    if 0 < n { Tally(run, c, items, n - 1); }
  }

  // ---------------------------------------------------------------- conservation

  function InRun(run: Word, items: seq<Item>, n: nat): nat
    requires n <= |items|
  {
    if n == 0 then 0 else InRun(run, items, n - 1) + (if Numbered(run, items[n - 1]) then 1 else 0)
  }

  /** How far the counters are out of balance: 0 modulo 2^64 in every run from NO_COUNTS. */
  function Imbalance(c: Counters, seen: nat): int {
    c.expected - c.missing - seen + c.replicated
  }

  lemma ImbalanceStep(run: Word, c: Counters, x: Item, seen: nat) returns (q: int)
    ensures Imbalance(CheckOne(run, c, x), seen + (if Numbered(run, x) then 1 else 0))
            == Imbalance(c, seen) + q * U64
  {
    q := 0;
    if Numbered(run, x) && x.seqId.value >= c.expected {
      var p := x.seqId.value;
      var m := c.missing + (p - c.expected);
      q := m / U64 - (p + 1) / U64;
      Unwrap(m);
      Unwrap(p + 1);
    }
  }

  lemma Unwrap(x: int)
    ensures x % U64 == x - x / U64 * U64
    ensures 0 <= x < U64 ==> x % U64 == x
  {}

  /** Every item of the run that carries an id is matched by an advance of the expected id, except
      for the replicated ones; skipped ids account for the rest. Modulo 2^64 for all inputs. */
  lemma {:induction false} Conservation(run: Word, c: Counters, items: seq<Item>, n: nat)
    requires n <= |items|
    ensures exists q :: Imbalance(CheckAll(run, c, items, n), InRun(run, items, n))
                        == Imbalance(c, 0) + q * U64
  {
    if n == 0 {
      assert Imbalance(c, 0) == Imbalance(c, 0) + 0 * U64;
    } else {
      Conservation(run, c, items, n - 1);
      var d, seen := CheckAll(run, c, items, n - 1), InRun(run, items, n - 1);
      var q :| Imbalance(d, seen) == Imbalance(c, 0) + q * U64;
      var q' := ImbalanceStep(run, d, items[n - 1], seen);
      assert (q + q') * U64 == q * U64 + q' * U64;
    }
  }

  /** The balance is exact when no id is the last 64-bit one. */
  lemma {:induction false} ExactConservation(run: Word, items: seq<Item>, n: nat)
    requires n <= |items|
    requires forall i :: 0 <= i < |items| && items[i].seqId.Some? ==> items[i].seqId.value < U64 - 1
    ensures var d := CheckAll(run, NO_COUNTS, items, n);
            && d.missing <= d.expected < U64
            && d.expected == d.missing + InRun(run, items, n) - d.replicated
  {
    if 0 < n {
      ExactConservation(run, items, n - 1);
      ExactStep(run, CheckAll(run, NO_COUNTS, items, n - 1), items[n - 1],
                InRun(run, items, n - 1));
    }
  }

  lemma ExactStep(run: Word, c: Counters, x: Item, seen: nat)
    requires c.missing <= c.expected && (x.seqId.Some? ==> x.seqId.value < U64 - 1)
    ensures var d := CheckOne(run, c, x);
            && d.missing <= d.expected
            && Imbalance(d, seen + (if Numbered(run, x) then 1 else 0)) == Imbalance(c, seen)
  {
    if Numbered(run, x) && x.seqId.value >= c.expected {
      Unwrap(x.seqId.value + 1);
      Unwrap(c.missing + (x.seqId.value - c.expected));
    }
  }

  // ---------------------------------------------------------------- the expected id and the gaps

  /** The ids that the first n items of the run carry. */
  function Carried(run: Word, items: seq<Item>, n: nat): set<nat>
    requires n <= |items|
  {
    set i | 0 <= i < n && Numbered(run, items[i]) :: items[i].seqId.value
  }

  lemma CarriedNext(run: Word, items: seq<Item>, n: nat)
    requires 0 < n <= |items|
    ensures Carried(run, items, n)
            == Carried(run, items, n - 1)
               + (if Numbered(run, items[n - 1]) then {items[n - 1].seqId.value} else {})
  {}

  ghost predicate SmallIds(items: seq<Item>) {
    forall i :: 0 <= i < |items| && items[i].seqId.Some? ==> items[i].seqId.value < U64 - 1
  }

  ghost predicate AllBelow(ids: set<nat>, e: nat) {
    forall id :: id in ids ==> id < e
  }

  /** e is 0 for no ids at all, and otherwise one above the largest. */
  ghost predicate OneAbove(ids: set<nat>, e: nat) {
    && AllBelow(ids, e)
    && (if ids == {} then e == 0 else 0 < e && e - 1 in ids)
  }

  /** The expected id is 0 before any numbered item of the run, and afterwards one above the largest
      id seen. */
  lemma {:induction false} ExpectedIsOneAbove(run: Word, items: seq<Item>, n: nat)
    requires n <= |items| && SmallIds(items)
    ensures OneAbove(Carried(run, items, n), CheckAll(run, NO_COUNTS, items, n).expected)
  {
    if 0 < n {
      ExpectedIsOneAbove(run, items, n - 1);
      CarriedNext(run, items, n);
      ExpectedStep(run, CheckAll(run, NO_COUNTS, items, n - 1), items[n - 1]);
    }
  }

  lemma ExpectedStep(run: Word, c: Counters, x: Item)
    requires x.seqId.Some? ==> x.seqId.value < U64 - 1
    ensures CheckOne(run, c, x).expected
            == if Numbered(run, x) && c.expected <= x.seqId.value then x.seqId.value + 1 else c.expected
  {
    if Numbered(run, x) { Unwrap(x.seqId.value + 1); }
  }

  /** The i-th item belongs to the run and goes past id x, which no item before it had reached. */
  ghost predicate Passes(run: Word, items: seq<Item>, i: nat, x: nat)
    requires i < |items|
  {
    Numbered(run, items[i]) && x < items[i].seqId.value && AllBelow(Carried(run, items, i), x)
  }

  ghost predicate PassedOver(run: Word, items: seq<Item>, n: nat, x: nat)
    requires n <= |items|
  {
    exists i :: 0 <= i < n && Passes(run, items, i, x)
  }

  /** The naturals from a up to, but not including, b. */
  function Interval(a: nat, b: nat): (r: set<nat>)
    requires a <= b
    ensures |r| == b - a && forall x: nat :: x in r <==> a <= x < b
    decreases b
  {
    if a == b then {} else Interval(a, b - 1) + {b - 1}
  }

  /** The ids below `top` that were passed over. */
  ghost function Missed(run: Word, items: seq<Item>, n: nat, top: nat): set<nat>
    requires n <= |items|
  {
    set x | x in Interval(0, top) && PassedOver(run, items, n, x)
  }

  lemma PassedNext(run: Word, items: seq<Item>, n: nat, x: nat)
    requires 0 < n <= |items|
    ensures PassedOver(run, items, n, x) <==>
            PassedOver(run, items, n - 1, x) || Passes(run, items, n - 1, x)
  {
    if PassedOver(run, items, n - 1, x) {
      var i :| 0 <= i < n - 1 && Passes(run, items, i, x);
      assert PassedOver(run, items, n, x);
    }
  }

  /** One more item passes over exactly the ids from the expected one up to its own. */
  lemma PassesFromExpected(run: Word, items: seq<Item>, i: nat, e: nat, x: nat)
    requires i < |items| && OneAbove(Carried(run, items, i), e)
    ensures Passes(run, items, i, x) <==> Numbered(run, items[i]) && e <= x < items[i].seqId.value
  {}

  /** The missing packets are the ids below the expected one that the run passed over: the first item
      to get so far had a larger id. */
  lemma {:induction false} MissingArePassedOver(run: Word, items: seq<Item>, n: nat)
    requires n <= |items| && SmallIds(items)
    ensures var c := CheckAll(run, NO_COUNTS, items, n);
            c.missing == |Missed(run, items, n, c.expected)|
  {
    hide OneAbove, CheckOne, PassedOver;
    if n == 0 {
      assert Missed(run, items, 0, 0) == {};
    } else {
      var c := CheckAll(run, NO_COUNTS, items, n - 1);
      MissingArePassedOver(run, items, n - 1);
      ExpectedIsOneAbove(run, items, n - 1);
      ExactConservation(run, items, n - 1);
      MissingStep(run, items, n, c);
    }
  }

  lemma MissingStep(run: Word, items: seq<Item>, n: nat, c: Counters)
    requires 0 < n <= |items| && SmallIds(items) && OneAbove(Carried(run, items, n - 1), c.expected)
    requires c.missing <= c.expected && c.missing == |Missed(run, items, n - 1, c.expected)|
    ensures var d := CheckOne(run, c, items[n - 1]);
            d.missing == |Missed(run, items, n, d.expected)|
  {
    hide OneAbove, CheckOne, Numbered, PassedOver, Missed;
    var x := items[n - 1];
    ExpectedStep(run, c, x);
    MissingAdds(run, c, x);
    MissedGrows(run, items, n, c.expected, CheckOne(run, c, x).expected);
  }

  /** Where the expected id goes after the n-th item, as in ExpectedStep. */
  ghost predicate Advances(run: Word, items: seq<Item>, n: nat, e: nat, f: nat)
    requires 0 < n <= |items|
  {
    f == if Numbered(run, items[n - 1]) && e <= items[n - 1].seqId.value
         then items[n - 1].seqId.value + 1 else e
  }

  lemma MissedGrows(run: Word, items: seq<Item>, n: nat, e: nat, f: nat)
    requires 0 < n <= |items| && OneAbove(Carried(run, items, n - 1), e) && Advances(run, items, n, e, f)
    ensures |Missed(run, items, n, f)|
            == |Missed(run, items, n - 1, e)| + (if e < f then f - 1 - e else 0)
  {
    hide Missed, OneAbove, Advances, Carried;
    var before, after := Missed(run, items, n - 1, e), Missed(run, items, n, f);
    var gap := if e < f then Interval(e, f - 1) else {};
    forall y: nat ensures y in after <==> y in before || y in gap
                  ensures !(y in before && y in gap)
    {
      MissedMember(run, items, n, e, f, y);
    }
    assert after == before + gap && before !! gap;
  }

  lemma MissedMember(run: Word, items: seq<Item>, n: nat, e: nat, f: nat, y: nat)
    requires 0 < n <= |items| && OneAbove(Carried(run, items, n - 1), e) && Advances(run, items, n, e, f)
    ensures y in Missed(run, items, n, f) <==> y in Missed(run, items, n - 1, e) || e <= y < f - 1
    ensures y in Missed(run, items, n - 1, e) ==> y < e
  {
    hide PassedOver, Passes, Carried, OneAbove;
    PassedNext(run, items, n, y);
    PassesFromExpected(run, items, n - 1, e, y);
    if e <= y { NothingPassedAbove(run, items, n - 1, e, y); }
  }

  lemma NothingPassedAbove(run: Word, items: seq<Item>, n: nat, e: nat, x: nat)
    requires n <= |items| && e <= x && OneAbove(Carried(run, items, n), e)
    ensures !PassedOver(run, items, n, x)
  {
    forall i | 0 <= i < n && Numbered(run, items[i]) ensures items[i].seqId.value <= x {
      assert items[i].seqId.value in Carried(run, items, n);
    }
  }

  lemma MissingAdds(run: Word, c: Counters, x: Item)
    requires c.missing <= c.expected && (x.seqId.Some? ==> x.seqId.value < U64 - 1)
    ensures var d := CheckOne(run, c, x);
            d.missing == c.missing + (if c.expected < d.expected then d.expected - 1 - c.expected else 0)
  {
    if Numbered(run, x) && c.expected <= x.seqId.value {
      Unwrap(x.seqId.value + 1);
      Unwrap(c.missing + (x.seqId.value - c.expected));
    }
  }

  ghost predicate Increasing(run: Word, items: seq<Item>) {
    forall i, j :: 0 <= i < j < |items| && Numbered(run, items[i]) && Numbered(run, items[j]) ==>
      items[i].seqId.value < items[j].seqId.value
  }

  /** For increasing ids the missing packets are exactly the ids below the largest one seen that no
      item carries. */
  lemma MissingAreNotCarried(run: Word, items: seq<Item>)
    requires SmallIds(items) && Increasing(run, items)
    ensures var c := CheckAll(run, NO_COUNTS, items, |items|);
            c.missing == |Interval(0, c.expected) - Carried(run, items, |items|)|
  {
    var n, e := |items|, CheckAll(run, NO_COUNTS, items, |items|).expected;
    MissingArePassedOver(run, items, n);
    ExpectedIsOneAbove(run, items, n);
    forall x | x in Interval(0, e)
      ensures PassedOver(run, items, n, x) <==> x !in Carried(run, items, n)
    {
      IncreasingPasses(run, items, x, e);
    }
    assert Missed(run, items, n, e) == Interval(0, e) - Carried(run, items, n);
  }

  lemma IncreasingPasses(run: Word, items: seq<Item>, x: nat, e: nat)
    requires Increasing(run, items) && x < e && e - 1 in Carried(run, items, |items|)
    ensures PassedOver(run, items, |items|, x) <==> x !in Carried(run, items, |items|)
  {
    if x !in Carried(run, items, |items|) {
      var i := FirstAbove(run, items, x, 0);
      assert Passes(run, items, i, x);
    } else {
      var k :| 0 <= k < |items| && Numbered(run, items[k]) && items[k].seqId.value == x;
      forall i | 0 <= i < |items| ensures !Passes(run, items, i, x) {
        if k < i { assert x in Carried(run, items, i); }
      }
    }
  }

  /** The first numbered item from i on with an id of at least x. */
  ghost function FirstAbove(run: Word, items: seq<Item>, x: nat, i: nat): (f: nat)
    requires i <= |items|
    requires exists k :: i <= k < |items| && Numbered(run, items[k]) && x <= items[k].seqId.value
    ensures i <= f < |items| && Numbered(run, items[f]) && x <= items[f].seqId.value
    ensures forall k :: i <= k < f && Numbered(run, items[k]) ==> items[k].seqId.value < x
    decreases |items| - i
  {
    if Numbered(run, items[i]) && x <= items[i].seqId.value then i else FirstAbove(run, items, x, i + 1)
  }
}
