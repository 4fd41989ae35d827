/** Round robin through a wrapping counter.

The k-th request of a counter that wraps at `period` goes to slot (k % period) % slots. When the
number of slots does not divide the period, each wrap restarts the rotation early, so the low
slots drift ahead by one request per wrap. */
module RoundRobin {

  function Slot(k: nat, period: nat, slots: nat): (w: nat)
    requires 0 < period && 0 < slots
    ensures w < slots
  {
    (k % period) % slots
  }

  /** How many of the first n requests went to slot w. */
  ghost function Uses(n: nat, w: nat, period: nat, slots: nat): nat
    requires 0 < period && 0 < slots
  {
    if n == 0 then 0
    else Uses(n - 1, w, period, slots) + (if Slot(n - 1, period, slots) == w then 1 else 0)
  }

  /** The part of r consecutive requests, counted from slot 0, that falls on slot w. */
  ghost function Share(r: nat, w: nat, slots: nat): nat
    requires 0 < slots
  {
    r / slots + (if w < r % slots then 1 else 0)
  }

  lemma NonzeroMultiple(d: int, m: nat)
    requires d != 0
    ensures m <= d * m || d * m <= -(m as int)
  {
    if 1 <= d {
      assert 0 <= (d - 1) * m;
      assert d * m == (d - 1) * m + m;
    } else {
      assert 0 <= (-d - 1) * m;
      assert -(d * m) == (-d - 1) * m + m;
    }
  }

  lemma DivModOf(q: int, m: nat, r: nat)
    requires r < m
    ensures (q * m + r) % m == r && (q * m + r) / m == q
  {
    var x := q * m + r;
    assert x == (x / m) * m + x % m;
    var d := q - x / m;
    assert d * m == x % m - r;
    if d != 0 { NonzeroMultiple(d, m); }
  }

  lemma ShareNext(r: nat, w: nat, slots: nat)
    requires w < slots
    ensures Share(r + 1, w, slots) == Share(r, w, slots) + (if r % slots == w then 1 else 0)
  {
    var q, p := r / slots, r % slots;
    assert r == q * slots + p;
    if p + 1 < slots {
      DivModOf(q, slots, p + 1);
      assert q * slots + (p + 1) == r + 1;
    } else {
      DivModOf(q + 1, slots, 0);
      assert (q + 1) * slots + 0 == r + 1;
    }
  }

  lemma {:induction false} UsesWithinPeriod(q: nat, r: nat, w: nat, period: nat, slots: nat)
    requires 0 < period && w < slots && r <= period
    ensures Uses(q * period + r, w, period, slots)
            == Uses(q * period, w, period, slots) + Share(r, w, slots)
  {
    if r == 0 {
      DivModOf(0, slots, 0);
    } else {
      UsesWithinPeriod(q, r - 1, w, period, slots);
      DivModOf(q, period, r - 1);
      ShareNext(r - 1, w, slots);
      assert q * period + r - 1 == q * period + (r - 1);
    }
  }

  lemma {:induction false} UsesOfPeriods(q: nat, w: nat, period: nat, slots: nat)
    requires 0 < period && w < slots
    ensures Uses(q * period, w, period, slots) == q * Share(period, w, slots)
  {
    if q == 0 {
      assert 0 * period == 0;
    } else {
      UsesOfPeriods(q - 1, w, period, slots);
      UsesWithinPeriod(q - 1, period, w, period, slots);
      assert q * period == (q - 1) * period + period;
      assert q * Share(period, w, slots)
             == (q - 1) * Share(period, w, slots) + Share(period, w, slots);
    }
  }

  /** The number of requests slot w gets out of the first n, without counting them one by one. */
  ghost function ClosedForm(n: nat, w: nat, period: nat, slots: nat): int
    requires 0 < period && 0 < slots
  {
    n / period * Share(period, w, slots) + Share(n % period, w, slots)
  }

  lemma UsesClosedForm(n: nat, w: nat, period: nat, slots: nat)
    requires 0 < period && w < slots
    ensures Uses(n, w, period, slots) == ClosedForm(n, w, period, slots)
  {
    var q, r := n / period, n % period;
    assert n == q * period + r;
    UsesWithinPeriod(q, r, w, period, slots);
    UsesOfPeriods(q, w, period, slots);
  }

  function Distance(a: int, b: int): (d: nat)
    ensures d == a - b || d == b - a
  {
    if a < b then b - a else a - b
  }

  lemma ScaledGap(q: nat, x: int, y: int, u: int, v: int)
    requires Distance(x, y) <= 1 && Distance(u, v) <= 1
    ensures Distance(q * x + u, q * y + v) <= q + 1
    ensures x == y ==> Distance(q * x + u, q * y + v) <= 1
  {
    assert q * x - q * y == q * (x - y);
  }

  lemma ClosedFormGap(n: nat, a: nat, b: nat, period: nat, slots: nat)
    requires 0 < period && a < slots && b < slots
    ensures Distance(ClosedForm(n, a, period, slots), ClosedForm(n, b, period, slots))
            <= n / period + 1
    ensures period % slots == 0 ==>
              Distance(ClosedForm(n, a, period, slots), ClosedForm(n, b, period, slots)) <= 1
  {
    ShareGap(period, a, b, slots);
    ShareGap(n % period, a, b, slots);
    ScaledGap(n / period, Share(period, a, slots), Share(period, b, slots),
              Share(n % period, a, slots), Share(n % period, b, slots));
  }

  /** After n requests two slots differ by at most one request per wrap, plus one. */
  lemma Fair(n: nat, a: nat, b: nat, period: nat, slots: nat)
    requires 0 < period && a < slots && b < slots
    ensures Distance(Uses(n, a, period, slots), Uses(n, b, period, slots)) <= n / period + 1
    ensures period % slots == 0 ==>
              Distance(Uses(n, a, period, slots), Uses(n, b, period, slots)) <= 1
  {
    UsesClosedForm(n, a, period, slots);
    UsesClosedForm(n, b, period, slots);
    ClosedFormGap(n, a, b, period, slots);
  }

  lemma ShareGap(r: nat, a: nat, b: nat, slots: nat)
    requires a < slots && b < slots
    ensures Distance(Share(r, a, slots), Share(r, b, slots)) <= 1
    ensures r % slots == 0 ==> Share(r, a, slots) == Share(r, b, slots)
  {}

  /** The slots stay within one request of each other forever iff their number divides the
      period: otherwise two wraps put slot 0 two requests ahead of the last slot. */
  lemma FairForeverIff(period: nat, slots: nat)
    requires 0 < period && 0 < slots
    ensures period % slots == 0 <==>
            forall n, a, b | 0 <= n && 0 <= a < slots && 0 <= b < slots ::
              Distance(Uses(n, a, period, slots), Uses(n, b, period, slots)) <= 1
  {
    if period % slots == 0 {
      forall n, a, b | 0 <= n && 0 <= a < slots && 0 <= b < slots
        ensures Distance(Uses(n, a, period, slots), Uses(n, b, period, slots)) <= 1
      {
        Fair(n, a, b, period, slots);
      }
    } else {
      UsesOfPeriods(2, 0, period, slots);
      UsesOfPeriods(2, slots - 1, period, slots);
      assert Distance(Uses(2 * period, 0, period, slots),
                      Uses(2 * period, slots - 1, period, slots)) == 2;
    }
  }

  lemma NextSlot(k: nat, slots: nat)
    requires 0 < slots
    ensures (k % slots + 1) % slots == (k + 1) % slots
  {
    var q, r := k / slots, k % slots;
    assert k == q * slots + r;
    if r + 1 < slots {
      DivModOf(q, slots, r + 1);
      DivModOf(0, slots, r + 1);
    } else {
      assert (q + 1) * slots == k + 1;
      DivModOf(q + 1, slots, 0);
      DivModOf(1, slots, 0);
    }
  }

  lemma SameSlot(j: nat, k: nat, slots: nat)
    requires 0 < slots && j % slots == k % slots && j <= k < j + slots
    ensures j == k
  {
    var d := k / slots - j / slots;
    assert d * slots == k - j;
    if d != 0 { NonzeroMultiple(d, slots); }
  }

  /** Among any `slots` consecutive numbers exactly one, k, falls on slot w. */
  lemma WindowUsesEachOnce(start: nat, w: nat, slots: nat) returns (k: nat)
    requires w < slots
    ensures start <= k < start + slots && k % slots == w
    ensures forall j :: start <= j < start + slots && j % slots == w ==> j == k
  {
    var q, p := start / slots, start % slots;
    assert start == q * slots + p;
    if p <= w {
      k := start + (w - p);
      DivModOf(q, slots, w);
    } else {
      k := start + (slots - p + w);
      assert (q + 1) * slots == q * slots + slots;
      DivModOf(q + 1, slots, w);
    }
    forall j | start <= j < start + slots && j % slots == w ensures j == k {
      if j <= k { SameSlot(j, k, slots); } else { SameSlot(k, j, slots); }
    }
  }
}
