/** Where the one-way delay filter of src/dep/servo.c settles when the delay stays the same. */
module Convergence {
  import opened Arith
  import opened Servo

  /** The filter after n samples of delay d. */
  function Settle(s: nat, f: DelayFilter, d: int, n: nat): (r: DelayFilter)
    requires s <= 30 && FilterOk(f) && Abs(d) < NSEC
    ensures FilterOk(r)
    decreases n
  {
    if n == 0 then f else Settle(s, FilterDelay(s, f, d), d, n - 1)
  }

  // ----- one step towards a delay that is not negative -----

  /** What one weighted step makes of value y and delay d, in products by k only. */
  ghost predicate Steps(k: int, y: int, d: int, y': int) {
    && k * (d - y') <= (k - 1) * (d - y) + 2 * k - 1
    && (y <= d ==> y' <= d)
    && (y >= d ==> k * (y' - d) <= (k - 1) * (y - d))
  }

  /** The quotients of the old value and of the samples add up to such a step. */
  lemma QuotientsStep(k: nat, y: int, d: nat, q: int, r: int)
    requires k >= 1
    requires (k - 1) * y - (k - 1) <= k * q && (y >= 0 ==> k * q <= (k - 1) * y) && (y <= 0 ==> q <= 0)
    requires d - 1 - (k - 1) <= k * r <= d
    ensures Steps(k, y, d, q + r)
  {
    Products.Distributes(k, q, r);
    Products.Distributes(k, d, q + r);
    Products.Distributes(k - 1, d, y);
    Products.Distributes(d, k, 1);
    if y <= d {
      if y >= 0 {
        Products.Grows(k - 1, y, d);
        Products.Cancels(k, q + r, d);
      } else {
        Products.Grows(d, 1, k);
        Products.Cancels(k, r, d);
      }
    }
  }

  /** The value below the delay by e moves to one below it by e', and k e' <= (k-1) e + 2k - 1; it
      never passes the delay from below, and comes closer from above. */
  lemma BlendSteps(k: int, y: int, d: int)
    requires k >= 1 && d >= 0 && Wrap32((k - 1) * y) == (k - 1) * y
    ensures Steps(k, y, d, Blend(k, y, d, d))
  {
    Products.SignOf(k - 1, y);
    Products.Truncates((k - 1) * y, k);
    Products.Truncates(DivC(d, 2) + DivC(d, 2), k);
    QuotientsStep(k, y, d, DivC((k - 1) * y, k), DivC(DivC(d, 2) + DivC(d, 2), k));
  }

  /** Two different samples: the step goes towards their mean, with weight 1/k, up to less than two
      nanoseconds for the truncations. */
  lemma BlendTowardsMean(k: int, y: int, x: int, p: int)
    requires k >= 1 && Wrap32((k - 1) * y) == (k - 1) * y
    ensures Abs(2 * (k * Blend(k, y, x, p)) - (2 * ((k - 1) * y) + x + p)) <= 4 * (k - 1) + 2
  {
    hide DivC;
    var a, b := (k - 1) * y, DivC(x, 2) + DivC(p, 2);
    Products.Truncates(a, k);
    Products.Truncates(b, k);
    Products.Truncates(x, 2);
    Products.Truncates(p, 2);
    Products.Distributes(k, DivC(a, k), DivC(b, k));
  }

  /** In every run of the filter the product does not wrap, so a sample moves it like that. */
  lemma EveryStepTowardsMean(s: nat, f: DelayFilter, x: int)
    requires s <= 30 && FilterOk(f) && Abs(x) < NSEC
    ensures var g := FilterDelay(s, f, x);
            && g.nsecPrev == x && g.sExp >= 1
            && Abs(2 * (g.sExp * g.y) - (2 * ((g.sExp - 1) * f.y) + x + f.nsecPrev)) <= 4 * (g.sExp - 1) + 2
  {
    hide Blend, DivC, Pow2;
    var reduced := ReducedS(s, f.y);
    var k := NextExponent(f.sExp, Pow2(reduced));
    ProductFits(reduced, k, f.y);
    BlendTowardsMean(k, f.y, x, f.nsecPrev);
  }

  // ----- the first samples -----

  function Fed(s: nat, f: DelayFilter, xs: seq<int>): (r: DelayFilter)
    requires s <= 30 && FilterOk(f) && forall i :: 0 <= i < |xs| ==> Abs(xs[i]) < NSEC
    ensures FilterOk(r)
    decreases |xs|
  {
    if xs == [] then f else FilterDelay(s, Fed(s, f, xs[..|xs| - 1]), xs[|xs| - 1])
  }

  /** Each sample together with the one before it, the first with none, all added up. */
  function Pairs(xs: seq<int>): int
    decreases |xs|
  {
    if xs == [] then 0
    else Pairs(xs[..|xs| - 1]) + xs[|xs| - 1] + if |xs| >= 2 then xs[|xs| - 2] else 0
  }

  lemma BlendWithin(k: int, y: int, x: int, p: int, n: nat)
    requires k >= 1 && Abs(x) <= n && Abs(p) <= n && (k == 1 || Abs(y) <= n) && Wrap32((k - 1) * y) == (k - 1) * y
    ensures Abs(Blend(k, y, x, p)) <= n
  {
    var a, b := (k - 1) * y, DivC(x, 2) + DivC(p, 2);
    Products.Truncates(a, k);
    Products.Truncates(b, k);
    if k > 1 { ProductAtMost(k - 1, y, n); }
    Products.SignOf(k - 1, n);
    QuotientsBound(k, Abs(a), Abs(b), Abs(DivC(a, k)), Abs(DivC(b, k)), n);
  }

  /** The weights of the first samples. */
  lemma WeightOfSample(s: nat, f: DelayFilter, x: int, n: nat, bound: nat)
    requires s <= 30 && FilterOk(f) && Abs(x) <= bound < NSEC && 1 <= n <= Pow2(s) && bound < Pow2(31 - s)
    requires f.sExp == n - 1 && Abs(f.nsecPrev) <= bound && (n > 1 ==> Abs(f.y) <= bound)
    ensures var g := FilterDelay(s, f, x);
            && g.sExp == n && g.nsecPrev == x && Abs(g.y) <= bound
            && Abs(2 * (n * g.y) - (2 * ((n - 1) * f.y) + x + f.nsecPrev)) <= 4 * (n - 1) + 2
  {
    hide Blend, Pow2, DivC;
    EveryStepTowardsMean(s, f, x);
    var reduced := ReducedS(s, f.y);
    var k := NextExponent(f.sExp, Pow2(reduced));
    if n > 1 { Unreduced(s, f.y); }
    ProductFits(reduced, k, f.y);
    BlendWithin(k, f.y, x, f.nsecPrev, bound);
  }

  /** The stiffness found is the largest that the product of the old value allows. */
  lemma {:induction false} ReducedIsLargest(s: nat, y: int)
    requires s <= 30 && Abs(y) < 0x8000_0000
    ensures ReducedS(s, y) < s ==> Abs(y) >= Pow2(30 - ReducedS(s, y))
    decreases s
  {
    hide Pow2;
    if Abs(y) / Pow2(31 - s) != 0 {
      Products.QuotientIsZero(Abs(y), Pow2(31 - s));
      ReducedIsSmaller(s, y);
      ReducedIsLargest(s - 1, y);
    }
  }

  lemma ReducedIsSmaller(s: nat, y: int)
    requires s <= 30 && Abs(y) < 0x8000_0000 && Abs(y) / Pow2(31 - s) != 0
    ensures s > 0 && ReducedS(s, y) == ReducedS(s - 1, y)
  {
    hide Pow2;
    Pow2Of31();
    Products.QuotientIsZero(Abs(y), Pow2(31 - s));
  }

  lemma Unreduced(s: nat, y: int)
    requires s <= 30 && Abs(y) < Pow2(31 - s) && Abs(y) < 0x8000_0000
    ensures ReducedS(s, y) == s
  {
    hide Pow2;
    Products.QuotientIsZero(Abs(y), Pow2(31 - s));
  }

  /** From a filter that has been cleared, the first 2^s samples are averaged: after n of them n times the value is
      half of the sum of the pairs, up to n * n. */
  lemma {:induction false} RunningMean(s: nat, y: int, xs: seq<int>, bound: nat)
    requires s <= 30 && Abs(y) < NSEC && 1 <= |xs| <= Pow2(s) && bound < NSEC && bound < Pow2(31 - s)
    requires forall i :: 0 <= i < |xs| ==> Abs(xs[i]) <= bound
    ensures var g, n := Fed(s, DelayFilter(0, y, 0), xs), |xs|;
            && g.sExp == n && g.nsecPrev == xs[n - 1] && Abs(g.y) <= bound
            && Abs(2 * (n * g.y) - Pairs(xs)) <= 2 * (n * n)
    decreases |xs|
  {
    hide Pow2, FilterDelay;
    var n := |xs|;
    var f := Fed(s, DelayFilter(0, y, 0), xs[..n - 1]);
    if n == 1 {
      assert xs[..0] == [] && f == DelayFilter(0, y, 0);
      WeightOfSample(s, f, xs[0], 1, bound);
      assert Pairs(xs[..0]) == 0;
    } else {
      RunningMean(s, y, xs[..n - 1], bound);
      WeightOfSample(s, f, xs[n - 1], n, bound);
      SquareOfNext(n);
    }
  }

  lemma SquareOfNext(n: int)
    ensures n * n == (n - 1) * (n - 1) + 2 * (n - 1) + 1
  {
  }

  // ----- settling -----

  /** The widest error the filter may settle at. */
  function Slack(s: nat): nat {
    2 * Pow2(s) - 1
  }

  /** Steps that are surely enough to bring y within the slack below d, or nothing if it is there. */
  function Excess(s: nat, y: int, d: int): nat {
    if y > d then y - d else if d - y > Slack(s) then d - y - Slack(s) else 0
  }

  /** One weighted step towards d: closer from either side, and once settled it stays settled. */
  lemma WeightedStep(s: nat, k: int, y: int, d: int, y': int)
    requires 1 <= k <= Pow2(s) && Steps(k, y, d, y')
    ensures Excess(s, y, d) == 0 ==> Excess(s, y', d) == 0
    ensures Excess(s, y, d) > 0 ==> Excess(s, y', d) < Excess(s, y, d)
  {
    if y > d {
      FromAbove(k, y - d, y' - d);
    } else {
      FromBelow(k, d - y, d - y', Slack(s));
    }
  }

  lemma FromAbove(k: nat, over: int, over': int)
    requires k >= 1 && over > 0
    requires k * over' <= (k - 1) * over
    requires k * -over' <= (k - 1) * -over + 2 * k - 1
    ensures -1 <= over' < over
  {
    Products.Distributes(over, k, 1);
    Products.Cancels(k, over', over);
    Products.Grows(k - 1, -over, -1);
    Products.Distributes(k, -over', 1);
    Products.Cancels(k, -over', 2);
  }

  lemma FromBelow(k: nat, e: int, e': int, slack: int)
    requires k >= 1 && 2 * k - 1 <= slack
    requires k * e' <= (k - 1) * e + 2 * k - 1
    ensures e > slack ==> e' < e
    ensures e <= slack ==> e' <= slack
  {
    if e > slack {
      Products.Distributes(e, k, 1);
      Products.Cancels(k, e', e);
    } else {
      Products.Grows(k - 1, e, slack);
      Products.Distributes(slack, k, 1);
      Products.Cancels(k, e', slack);
    }
  }

  lemma StepTowards(s: nat, f: DelayFilter, d: int)
    requires s <= 30 && FilterOk(f) && 0 <= d < NSEC && f.nsecPrev == d
    ensures Excess(s, f.y, d) == 0 ==> Excess(s, FilterDelay(s, f, d).y, d) == 0
    ensures Excess(s, f.y, d) > 0 ==> Excess(s, FilterDelay(s, f, d).y, d) < Excess(s, f.y, d)
  {
    var reduced := ReducedS(s, f.y);
    var k := NextExponent(f.sExp, Pow2(reduced));
    ProductFits(reduced, k, f.y);
    Pow2Grows(reduced, s);
    BlendSteps(k, f.y, d);
    WeightedStep(s, k, f.y, d, Blend(k, f.y, d, d));
  }

  lemma {:induction false} SettlesUpward(s: nat, f: DelayFilter, d: int, n: nat)
    requires s <= 30 && FilterOk(f) && 0 <= d < NSEC && f.nsecPrev == d
    requires n >= Excess(s, f.y, d)
    ensures Excess(s, Settle(s, f, d, n).y, d) == 0
    decreases n
  {
    if n > 0 {
      StepTowards(s, f, d);
      SettlesUpward(s, FilterDelay(s, f, d), d, n - 1);
    }
  }

  // ----- a negative delay is the mirror image -----

  function Mirror(f: DelayFilter): DelayFilter {
    DelayFilter(-f.nsecPrev, -f.y, f.sExp)
  }

  lemma BlendMirrors(k: int, y: int, x: int, p: int)
    requires k >= 1 && Wrap32((k - 1) * y) == (k - 1) * y && Wrap32((k - 1) * -y) == (k - 1) * -y
    ensures Blend(k, -y, -x, -p) == -Blend(k, y, x, p)
  {
    Products.Negates(k - 1, y);
    Products.TruncationMirrors((k - 1) * y, k);
    Products.TruncationMirrors(x, 2);
    Products.TruncationMirrors(p, 2);
    Products.TruncationMirrors(DivC(x, 2) + DivC(p, 2), k);
  }

  lemma FilterMirrors(s: nat, f: DelayFilter, x: int)
    requires s <= 30 && FilterOk(f) && Abs(x) < NSEC
    ensures FilterDelay(s, Mirror(f), -x) == Mirror(FilterDelay(s, f, x))
  {
    hide Blend, NextExponent, ReducedS, DivC, Wrap32;
    ReducedMirrors(s, f.y);
    var reduced := ReducedS(s, f.y);
    var k := NextExponent(f.sExp, Pow2(reduced));
    ProductFits(reduced, k, f.y);
    ProductFits(reduced, k, -f.y);
    BlendMirrors(k, f.y, x, f.nsecPrev);
  }

  lemma {:induction false} ReducedMirrors(s: nat, y: int)
    requires s <= 30 && Abs(y) < 0x8000_0000
    ensures ReducedS(s, -y) == ReducedS(s, y)
    decreases s
  {
    if Abs(y) / Pow2(31 - s) != 0 {
      Pow2Of31();
      ReducedMirrors(s - 1, y);
    }
  }

  lemma {:induction false} SettleMirrors(s: nat, f: DelayFilter, d: int, n: nat)
    requires s <= 30 && FilterOk(f) && Abs(d) < NSEC
    ensures Settle(s, Mirror(f), -d, n) == Mirror(Settle(s, f, d, n))
    decreases n
  {
    if n > 0 {
      FilterMirrors(s, f, d);
      SettleMirrors(s, FilterDelay(s, f, d), d, n - 1);
    }
  }

  lemma FirstSample(s: nat, f: DelayFilter, d: int)
    requires s <= 30 && FilterOk(f) && Abs(d) < NSEC
    ensures FilterDelay(s, f, d).nsecPrev == d
  {
  }

  lemma SettledAfter(s: nat, f: DelayFilter, d: int, n: nat)
    requires s <= 30 && FilterOk(f) && Abs(d) < NSEC && f.nsecPrev == d
    requires n >= Abs(d - f.y)
    ensures var y := Settle(s, f, d, n).y;
            if d >= 0 then d - Slack(s) <= y <= d else d <= y <= d + Slack(s)
  {
    if d >= 0 {
      SettlesUpward(s, f, d, n);
    } else {
      SettlesUpward(s, Mirror(f), -d, n);
      SettleMirrors(s, f, d, n);
    }
  }

  // ----- how fast -----

  function Power(b: nat, n: nat): nat {
    if n == 0 then 1 else b * Power(b, n - 1)
  }

  /** A step takes at least a share of one in 2^s off the excess, whatever the weight. */
  lemma WeightedContracts(s: nat, k: int, y: int, d: int, y': int)
    requires 1 <= k <= Pow2(s) && Steps(k, y, d, y')
    ensures Pow2(s) * Excess(s, y', d) <= (Pow2(s) - 1) * Excess(s, y, d)
  {
    if y > d {
      FromAbove(k, y - d, y' - d);
      ShareTaken(k, Pow2(s), y - d, y' - d);
    } else {
      FromBelow(k, d - y, d - y', Slack(s));
      if d - y' > Slack(s) { ShareTakenBelow(k, Pow2(s), d - y, d - y'); }
    }
    Products.SignOf(Pow2(s) - 1, Excess(s, y, d));
  }

  lemma ShareTaken(k: nat, m: nat, over: int, over': int)
    requires 1 <= k <= m && over > 0 && over' < over && k * over' <= (k - 1) * over
    ensures m * over' <= (m - 1) * over
  {
    Products.Distributes(over, k, 1);
    Products.Distributes(over, m, 1);
    Products.Distributes(k, over, over');
    Products.Distributes(m, over, over');
    Products.Grows(over - over', k, m);
  }

  lemma ShareTakenBelow(k: nat, m: nat, e: int, e': int)
    requires 1 <= k <= m && e >= 0 && k * e' <= (k - 1) * e + 2 * k - 1
    ensures m * (e' - (2 * m - 1)) <= (m - 1) * (e - (2 * m - 1))
  {
    var gap := e - e' + 2;
    Products.Distributes(e, k, 1);
    Products.Distributes(k, e, e');
    Products.Distributes(k, e - e', 2);
    assert e + 1 <= k * gap;
    Products.SignOf(k, gap);
    Products.Grows(gap, k, m);
    assert e + 1 <= m * gap;
    Products.Distributes(m, e - e', 2);
    Products.Distributes(m, e, e');
    Products.Distributes(m, e', 2 * m - 1);
    Products.Distributes(e - (2 * m - 1), m, 1);
    Products.Distributes(m, e, 2 * m - 1);
  }

  lemma StepContracts(s: nat, f: DelayFilter, d: int)
    requires s <= 30 && FilterOk(f) && 0 <= d < NSEC && f.nsecPrev == d
    ensures Pow2(s) * Excess(s, FilterDelay(s, f, d).y, d) <= (Pow2(s) - 1) * Excess(s, f.y, d)
  {
    var reduced := ReducedS(s, f.y);
    var k := NextExponent(f.sExp, Pow2(reduced));
    ProductFits(reduced, k, f.y);
    Pow2Grows(reduced, s);
    BlendSteps(k, f.y, d);
    WeightedContracts(s, k, f.y, d, Blend(k, f.y, d, d));
  }

  lemma Chained(m: nat, low: nat, high: nat, e0: nat, e1: nat, en: nat)
    requires m >= 1 && m * e1 <= (m - 1) * e0 && high * en <= low * e1
    ensures (m * high) * en <= ((m - 1) * low) * e0
  {
    Products.Grows(m, high * en, low * e1);
    Products.Grows(low, m * e1, (m - 1) * e0);
    Associates(m, high, en);
    Associates(m, low, e1);
    Associates(low, m, e1);
    Associates(low, m - 1, e0);
  }

  lemma Associates(a: int, b: int, c: int)
    ensures a * (b * c) == (a * b) * c && a * b == b * a
  {
  }

  /** After n samples at most (1 - 1/2^s)^n of the excess is left. */
  lemma {:induction false} ContractsEachTime(s: nat, f: DelayFilter, d: int, n: nat)
    requires s <= 30 && FilterOk(f) && 0 <= d < NSEC && f.nsecPrev == d
    ensures Power(Pow2(s), n) * Excess(s, Settle(s, f, d, n).y, d) <= Power(Pow2(s) - 1, n) * Excess(s, f.y, d)
    decreases n
  {
    hide FilterDelay, Excess;
    if n > 0 {
      var g, m := FilterDelay(s, f, d), Pow2(s);
      FirstSample(s, f, d);
      StepContracts(s, f, d);
      ContractsEachTime(s, g, d, n - 1);
      Chained(m, Power(m - 1, n - 1), Power(m, n - 1), Excess(s, f.y, d), Excess(s, g.y, d),
              Excess(s, Settle(s, f, d, n).y, d));
    }
  }

  /** Samples that are surely enough to settle: after the first one, as many as its value is off, or as many
      as shrink that distance below one, each by (1 - 1/2^s). */
  predicate Enough(s: nat, distance: nat, n: nat) {
    n > distance || (n >= 1 && Power(Pow2(s) - 1, n - 1) * distance < Power(Pow2(s), n - 1))
  }

  /** From any state of the filter, a constant delay d of either sign is reached: after enough samples the
      filtered value is never beyond d and at most 2 * 2^s - 1 nanoseconds short of it, for ever after. */
  lemma DelayFilterSettles(s: nat, f: DelayFilter, d: int, n: nat)
    requires s <= 30 && FilterOk(f) && Abs(d) < NSEC
    requires Enough(s, Abs(d - FilterDelay(s, f, d).y), n)
    ensures var y := Settle(s, f, d, n).y;
            if d >= 0 then d - Slack(s) <= y <= d else d <= y <= d + Slack(s)
  {
    hide FilterDelay, Slack;
    var g := FilterDelay(s, f, d);
    FirstSample(s, f, d);
    if n > Abs(d - g.y) {
      SettledAfter(s, g, d, n - 1);
    } else if d >= 0 {
      SettledFast(s, g, d, n - 1);
    } else {
      SettledFast(s, Mirror(g), -d, n - 1);
      SettleMirrors(s, g, d, n - 1);
    }
  }

  lemma SettledFast(s: nat, f: DelayFilter, d: int, n: nat)
    requires s <= 30 && FilterOk(f) && 0 <= d < NSEC && f.nsecPrev == d
    requires Power(Pow2(s) - 1, n) * Abs(d - f.y) < Power(Pow2(s), n)
    ensures var y := Settle(s, f, d, n).y; d - Slack(s) <= y <= d
  {
    var left := Excess(s, Settle(s, f, d, n).y, d);
    ContractsEachTime(s, f, d, n);
    Products.Grows(Power(Pow2(s) - 1, n), Excess(s, f.y, d), Abs(d - f.y));
    if left >= 1 { Products.Grows(Power(Pow2(s), n), 1, left); }
  }
}
