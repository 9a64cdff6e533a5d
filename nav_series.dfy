/** The whole-series columns `calculate_nav_metrics` adds to a frame
    (performance_analysis.py), over exact real arithmetic. A `None` entry is
    a value pandas holds as NaN, or as an infinity from a zero divisor; the
    two are told apart only where it decides an exception (`DropNaLength`). */
module NavSeries {
  import opened Results
  import opened Seqs

  /** `Series.pct_change()`: index 0 has no earlier value. */
  function PctChange(v: seq<real>): (r: seq<Option<real>>)
    ensures |r| == |v|
    ensures |v| > 0 ==> r[0].None?
  {
    seq(|v|, t requires 0 <= t < |v| =>
      if t == 0 || v[t - 1] == 0.0 then None else Some(v[t] / v[t - 1] - 1.0))
  }

  /** `1 + series`, undefined entries staying undefined. */
  function OnePlus(xs: seq<Option<real>>): (r: seq<Option<real>>)
    ensures |r| == |xs|
  {
    seq(|xs|, t requires 0 <= t < |xs| =>
      match xs[t]
      case None => None
      case Some(x) => Some(1.0 + x))
  }

  /** The product of the defined entries; 1 when there are none. */
  function ProductOfDefined(xs: seq<Option<real>>): real
    decreases |xs|
  {
    if |xs| == 0 then 1.0
    else ProductOfDefined(xs[..|xs| - 1]) * (match xs[|xs| - 1] case None => 1.0 case Some(x) => x)
  }

  /** `Series.cumprod()`: undefined entries stay undefined and are skipped. */
  function CumProd(xs: seq<Option<real>>): (r: seq<Option<real>>)
    ensures |r| == |xs|
  {
    seq(|xs|, t requires 0 <= t < |xs| =>
      if xs[t].None? then None else Some(ProductOfDefined(xs[..t + 1])))
  }

  /** `Series.max()`: the largest defined entry; undefined when none is. */
  function MaxOfDefined(xs: seq<Option<real>>): (r: Option<real>)
    ensures r.None? <==> forall i :: 0 <= i < |xs| ==> xs[i].None?
    ensures r.Some? ==> r in xs
    ensures r.Some? ==> forall i :: 0 <= i < |xs| && xs[i].Some? ==> xs[i].value <= r.value
    decreases |xs|
  {
    if |xs| == 0 then None
    else
      var m := MaxOfDefined(xs[..|xs| - 1]);
      var x := xs[|xs| - 1];
      assert xs == xs[..|xs| - 1] + [x];
      if x.None? then m
      else if m.None? || m.value < x.value then x
      else m
  }

  /** `Series.cummax()`: undefined entries stay undefined and are skipped. */
  function CumMax(xs: seq<Option<real>>): (r: seq<Option<real>>)
    ensures |r| == |xs|
  {
    seq(|xs|, t requires 0 <= t < |xs| =>
      if xs[t].None? then None else MaxOfDefined(xs[..t + 1]))
  }

  /** `(cummax - cum) / cummax`, entry by entry. */
  function DrawdownOf(cum: seq<Option<real>>): (r: seq<Option<real>>)
    ensures |r| == |cum|
  {
    var peak := CumMax(cum);
    seq(|cum|, t requires 0 <= t < |cum| =>
      if cum[t].None? || peak[t].None? || peak[t].value == 0.0 then None
      else Some((peak[t].value - cum[t].value) / peak[t].value))
  }

  /** The `Cumulative Return` column: `(1 + pct_change).cumprod()`. */
  function CumulativeReturn(v: seq<real>): (r: seq<Option<real>>)
    ensures |r| == |v|
    ensures |v| > 0 ==> r[0].None?
  {
    CumProd(OnePlus(PctChange(v)))
  }

  /** The `Drawdown` column. */
  function Drawdown(v: seq<real>): (r: seq<Option<real>>)
    ensures |r| == |v|
    ensures |v| > 0 ==> r[0].None?
  {
    DrawdownOf(CumulativeReturn(v))
  }

  /** `(v[-1] / v[0] - 1) * 100`; undefined when the first value is 0. */
  function TotalReturn(v: seq<real>): (r: Option<real>)
    requires |v| > 0
    ensures r.Some? <==> v[0] != 0.0
    ensures |v| == 1 && v[0] != 0.0 ==> r == Some(0.0)
  {
    if v[0] == 0.0 then None
    else
      SelfRatio(v[0]);
      Some((v[|v| - 1] / v[0] - 1.0) * 100.0)
  }

  /** `max() * 100` of a drawdown column. */
  function MaxDrawdownOf(dd: seq<Option<real>>): (r: Option<real>)
    ensures r.None? <==> forall i :: 0 <= i < |dd| ==> dd[i].None?
    ensures r.Some? ==> forall i :: 0 <= i < |dd| && dd[i].Some? ==> dd[i].value * 100.0 <= r.value
  {
    match MaxOfDefined(dd)
    case None => None
    case Some(m) => Some(m * 100.0)
  }

  /** The maximum drawdown, in percent. */
  function MaxDrawdown(v: seq<real>): (r: Option<real>)
    ensures |v| <= 1 ==> r.None?
  {
    MaxDrawdownOf(Drawdown(v))
  }

  /** `Daily Return`.dropna(): the returns the correlation uses. */
  function DefinedReturns(v: seq<real>): (r: seq<Option<real>>)
    ensures |r| <= |v|
    ensures forall x :: x in r ==> x.Some?
  {
    Filter(PctChange(v), (x: Option<real>) => x.Some?)
  }

  predicate NonZero(v: seq<real>)
  {
    forall i :: 0 <= i < |v| ==> v[i] != 0.0
  }

  predicate Positive(v: seq<real>)
  {
    forall i :: 0 <= i < |v| ==> v[i] > 0.0
  }

  predicate NonDecreasing(v: seq<real>)
  {
    forall i, j :: 0 <= i < j < |v| ==> v[i] <= v[j]
  }

  /** Every value multiplied by `k`. */
  function Scale(v: seq<real>, k: real): (r: seq<real>)
    ensures |r| == |v|
  {
    seq(|v|, i requires 0 <= i < |v| => k * v[i])
  }

  // ---------------------------------------------------------------------
  // Period returns
  // ---------------------------------------------------------------------

  /** With no zero value, index 0 is the only undefined period return and
      every other one is v[t]/v[t-1] - 1; so n values give n-1 returns. */
  lemma PctChangeDefined(v: seq<real>)
    requires NonZero(v)
    ensures |v| > 0 ==> PctChange(v)[0].None?
    ensures forall t :: 1 <= t < |v| ==> PctChange(v)[t] == Some(v[t] / v[t - 1] - 1.0)
    ensures |v| > 0 ==> |DefinedReturns(v)| == |v| - 1
  {
    var r := PctChange(v);
    forall t | 1 <= t < |v|
      ensures r[t] == Some(v[t] / v[t - 1] - 1.0)
    {
      assert v[t - 1] != 0.0;
    }
    if |v| > 0 {
      FilterDropsOnlyFirst(r, (x: Option<real>) => x.Some?);
    }
  }

  /** The correlation pairs the dropped-NaN returns with `Drawdown.iloc[1:]`:
      both are the entries 1..n-1 of their columns, so they have the same
      length and are paired index by index. */
  lemma CorrelationPairing(v: seq<real>)
    requires NonZero(v) && |v| > 0
    ensures DefinedReturns(v) == PctChange(v)[1..]
    ensures |DefinedReturns(v)| == |Drawdown(v)[1..]| == |v| - 1
  {
    FilterDropsOnlyFirst(PctChange(v), (x: Option<real>) => x.Some?);
  }

  /** Entry t >= 1 of pandas' `pct_change` is NaN exactly for 0 after 0
      (0/0); a non-zero value after 0 gives an infinity, which `dropna`
      keeps. */
  predicate ZeroAfterZero(v: seq<real>, t: nat)
    requires 1 <= t < |v|
  {
    v[t - 1] == 0.0 && v[t] == 0.0
  }

  /** Some value 0 follows a value 0. */
  predicate HasZeroAfterZero(v: seq<real>)
  {
    exists t :: 1 <= t < |v| && ZeroAfterZero(v, t)
  }

  /** The length of `Daily Return`.dropna() in pandas: entry 0 and every
      0/0 entry are dropped. */
  function DropNaLength(v: seq<real>): (n: nat)
    ensures |v| > 0 ==> n < |v|
    decreases |v|
  {
    if |v| <= 1 then 0
    else DropNaLength(v[..|v| - 1]) + (if ZeroAfterZero(v, |v| - 1) then 0 else 1)
  }

  /** `dropna` leaves at most n-1 returns, and exactly as many as
      `Drawdown.iloc[1:]` has entries unless some 0 follows a 0: that is
      when the correlation is asked to pair series of different lengths. */
  lemma {:induction false} DropNaLengthMatches(v: seq<real>)
    requires |v| > 0
    ensures DropNaLength(v) <= |v| - 1
    ensures DropNaLength(v) == |Drawdown(v)[1..]| <==> !HasZeroAfterZero(v)
    decreases |v|
  {
    if |v| > 1 {
      var n := |v| - 1;
      var p := v[..n];
      DropNaLengthMatches(p);
      if HasZeroAfterZero(p) {
        var t :| 1 <= t < |p| && ZeroAfterZero(p, t);
        assert ZeroAfterZero(v, t);
      }
      if HasZeroAfterZero(v) && !ZeroAfterZero(v, n) {
        var t :| 1 <= t < |v| && ZeroAfterZero(v, t);
        assert ZeroAfterZero(p, t);
      }
    }
  }

  // ---------------------------------------------------------------------
  // Cumulative return
  // ---------------------------------------------------------------------

  lemma RatioChain(a: real, b: real, c: real)
    requires a != 0.0 && b != 0.0
    ensures (b / a) * (c / b) == c / a
  {
  }

  lemma SelfRatio(a: real)
    requires a != 0.0
    ensures a / a == 1.0
  {
  }

  lemma ProductOfDefinedSnoc(xs: seq<Option<real>>, t: nat, x: real)
    requires t < |xs| && xs[t] == Some(x)
    ensures ProductOfDefined(xs[..t + 1]) == ProductOfDefined(xs[..t]) * x
  {
    assert xs[..t + 1][..t] == xs[..t];
  }

  /** With no zero value, `1 + pct_change` at t >= 1 is the growth factor
      v[t]/v[t-1]; at 0 it is undefined. */
  lemma GrowthAt(v: seq<real>, t: nat)
    requires NonZero(v) && t < |v|
    ensures OnePlus(PctChange(v))[t] == if t == 0 then None else Some(v[t] / v[t - 1])
  {
  }

  /** Growth factors v[s]/v[s-1] (none at 0) multiply up to v[t]/v[0]. */
  lemma {:induction false} ProductTelescopes(xs: seq<Option<real>>, v: seq<real>, t: nat)
    requires NonZero(v) && |xs| == |v| && t < |v| && xs[0].None?
    requires forall s :: 1 <= s < |xs| ==> xs[s] == Some(v[s] / v[s - 1])
    ensures ProductOfDefined(xs[..t + 1]) == v[t] / v[0]
  {
    if t == 0 {
      assert xs[..1][..0] == [];
      SelfRatio(v[0]);
    } else {
      ProductTelescopes(xs, v, t - 1);
      TelescopeStep(xs, t, v[0], v[t - 1], v[t]);
    }
  }

  /** One more growth factor c/b after a product of b/a gives c/a. */
  lemma TelescopeStep(xs: seq<Option<real>>, t: nat, a: real, b: real, c: real)
    requires t < |xs| && a != 0.0 && b != 0.0
    requires ProductOfDefined(xs[..t]) == b / a && xs[t] == Some(c / b)
    ensures ProductOfDefined(xs[..t + 1]) == c / a
  {
    ProductOfDefinedSnoc(xs, t, c / b);
    RatioChain(a, b, c);
  }

  /** At t >= 1 the cumulative return is v[t]/v[0]. */
  lemma CumulativeAt(v: seq<real>, t: nat)
    requires NonZero(v) && 1 <= t < |v|
    ensures CumulativeReturn(v)[t] == Some(v[t] / v[0])
  {
    var xs := OnePlus(PctChange(v));
    forall s | 0 <= s < |xs|
      ensures xs[s] == if s == 0 then None else Some(v[s] / v[s - 1])
    {
      GrowthAt(v, s);
    }
    ProductTelescopes(xs, v, t);
  }

  /** The cumulative return telescopes: undefined at 0, v[t]/v[0] after. */
  lemma CumulativeTelescopes(v: seq<real>)
    requires NonZero(v)
    ensures |v| > 0 ==> CumulativeReturn(v)[0].None?
    ensures forall t :: 1 <= t < |v| ==> CumulativeReturn(v)[t] == Some(v[t] / v[0])
  {
    forall t | 1 <= t < |v|
      ensures CumulativeReturn(v)[t] == Some(v[t] / v[0])
    {
      CumulativeAt(v, t);
    }
  }

  // ---------------------------------------------------------------------
  // Total return
  // ---------------------------------------------------------------------

  /** Total return is the last cumulative return, less 1, in percent. */
  lemma TotalReturnIsLastCumulative(v: seq<real>)
    requires NonZero(v) && |v| >= 2
    ensures TotalReturn(v) == Some((CumulativeReturn(v)[|v| - 1].value - 1.0) * 100.0)
  {
    CumulativeTelescopes(v);
  }

  lemma RatioScale(a: real, b: real, k: real)
    requires b != 0.0 && k != 0.0
    ensures (k * a) / (k * b) == a / b
  {
    var q := a / b;
    assert q * b == a;
    assert q * (k * b) == k * a;
  }

  lemma PctChangeScaleAt(v: seq<real>, k: real, t: nat)
    requires k != 0.0 && t < |v|
    ensures PctChange(Scale(v, k))[t] == PctChange(v)[t]
  {
    var w := Scale(v, k);
    if t > 0 {
      assert w[t - 1] == k * v[t - 1] && w[t] == k * v[t];
      assert w[t - 1] == 0.0 <==> v[t - 1] == 0.0;
      if v[t - 1] != 0.0 {
        RatioScale(v[t], v[t - 1], k);
        assert w[t] / w[t - 1] == v[t] / v[t - 1];
        assert PctChange(w)[t] == Some(w[t] / w[t - 1] - 1.0);
      }
    }
  }

  /** Scaling the whole series by a non-zero constant changes no period
      return. */
  lemma PctChangeScaleInvariant(v: seq<real>, k: real)
    requires k != 0.0
    ensures PctChange(Scale(v, k)) == PctChange(v)
  {
    forall t | 0 <= t < |v|
      ensures PctChange(Scale(v, k))[t] == PctChange(v)[t]
    {
      PctChangeScaleAt(v, k, t);
    }
  }

  /** Scaling the whole series by a non-zero constant changes no column and
      not the maximum drawdown. */
  lemma ScaleInvariant(v: seq<real>, k: real)
    requires k != 0.0
    ensures CumulativeReturn(Scale(v, k)) == CumulativeReturn(v)
    ensures Drawdown(Scale(v, k)) == Drawdown(v)
    ensures MaxDrawdown(Scale(v, k)) == MaxDrawdown(v)
  {
    PctChangeScaleInvariant(v, k);
  }

  /** Total return is unchanged when every value is scaled by the same
      non-zero constant. */
  lemma TotalReturnScaleInvariant(v: seq<real>, k: real)
    requires k != 0.0 && |v| > 0
    ensures TotalReturn(Scale(v, k)) == TotalReturn(v)
  {
    var w := Scale(v, k);
    var n := |v| - 1;
    assert w[0] == k * v[0] && w[n] == k * v[n];
    if v[0] != 0.0 {
      RatioScale(v[n], v[0], k);
      assert w[n] / w[0] == v[n] / v[0];
    }
  }

  // ---------------------------------------------------------------------
  // Drawdown
  // ---------------------------------------------------------------------

  lemma DrawdownRatio(m: real, c: real)
    requires 0.0 < c <= m
    ensures 0.0 <= (m - c) / m < 1.0
    ensures (m - c) / m == 0.0 <==> m == c
  {
    var d, q := (m - c) / m, c / m;
    assert d * m == m - c && q * m == c;
    assert (d + q - 1.0) * m == 0.0;
    assert d + q == 1.0;
    assert q > 0.0 by {
      assert q * m > 0.0;
    }
    assert q <= 1.0 by {
      assert (1.0 - q) * m == m - c;
    }
  }

  /** The running peak at a defined entry is defined, is at least every
      defined entry up to there, and is one of them. */
  lemma PeakOf(cum: seq<Option<real>>, t: nat)
    requires t < |cum| && cum[t].Some?
    ensures CumMax(cum)[t].Some?
    ensures forall i :: 0 <= i <= t && cum[i].Some? ==> cum[i].value <= CumMax(cum)[t].value
    ensures exists i :: 0 <= i <= t && cum[i] == CumMax(cum)[t]
  {
    var pre := cum[..t + 1];
    var m := MaxOfDefined(pre);
    assert pre[t] == cum[t];
    forall i | 0 <= i <= t && cum[i].Some?
      ensures cum[i].value <= m.value
    {
      assert pre[i] == cum[i];
    }
    var i :| 0 <= i < |pre| && pre[i] == m;
    assert pre[i] == cum[i];
  }

  /** The running peak at t >= 1 is the largest cumulative return so far. */
  lemma PeakAt(v: seq<real>, t: nat)
    requires Positive(v) && 1 <= t < |v|
    ensures CumMax(CumulativeReturn(v))[t].Some?
    ensures var m := CumMax(CumulativeReturn(v))[t].value;
      && (forall i :: 1 <= i <= t ==> v[i] / v[0] <= m)
      && (exists i :: 1 <= i <= t && m == v[i] / v[0])
  {
    var cum := CumulativeReturn(v);
    assert NonZero(v);
    CumulativeTelescopes(v);
    PeakOf(cum, t);
    var m := CumMax(cum)[t];
    forall i | 1 <= i <= t
      ensures v[i] / v[0] <= m.value
    {
      assert cum[i].Some?;
    }
    var i :| 0 <= i <= t && cum[i] == m;
    assert i != 0;
  }

  /** Index 0 of the cumulative return, and so of the drawdown, is undefined. */
  lemma DrawdownFirst(v: seq<real>)
    requires |v| > 0
    ensures CumulativeReturn(v)[0].None?
    ensures Drawdown(v)[0].None?
  {
  }

  /** For positive values the drawdown at t >= 1 lies in [0, 1), and it is 0
      exactly where the cumulative return equals its running peak. */
  lemma DrawdownAt(v: seq<real>, t: nat)
    requires Positive(v) && 1 <= t < |v|
    ensures Drawdown(v)[t].Some?
    ensures 0.0 <= Drawdown(v)[t].value < 1.0
    ensures Drawdown(v)[t].value == 0.0 <==> CumulativeReturn(v)[t] == CumMax(CumulativeReturn(v))[t]
  {
    var cum := CumulativeReturn(v);
    var c := v[t] / v[0];
    assert cum[t] == Some(c) by {
      assert NonZero(v);
      CumulativeAt(v, t);
    }
    PeakAt(v, t);
    var m := CumMax(cum)[t].value;
    assert c <= m;
    assert c > 0.0 by {
      assert v[t] > 0.0 && v[0] > 0.0;
      PositiveRatio(v[t], v[0]);
    }
    DrawdownRatio(m, c);
    DrawdownOfAt(cum, t, m, c);
  }

  lemma PositiveRatio(a: real, b: real)
    requires a > 0.0 && b > 0.0
    ensures a / b > 0.0
  {
  }

  /** Where the cumulative return is c and its running peak m > 0, the
      drawdown is (m - c) / m. */
  lemma DrawdownOfAt(cum: seq<Option<real>>, t: nat, m: real, c: real)
    requires t < |cum| && cum[t] == Some(c) && CumMax(cum)[t] == Some(m) && m > 0.0
    ensures DrawdownOf(cum)[t] == Some((m - c) / m)
  {
  }

  /** For positive values every drawdown at t >= 1 lies in [0, 1), and it is
      0 exactly where the cumulative return equals its running peak; index 0
      is undefined. */
  lemma DrawdownBounds(v: seq<real>)
    requires Positive(v)
    ensures |v| > 0 ==> Drawdown(v)[0].None?
    ensures forall t :: 1 <= t < |v| ==>
      && Drawdown(v)[t].Some?
      && 0.0 <= Drawdown(v)[t].value < 1.0
      && (Drawdown(v)[t].value == 0.0 <==> CumulativeReturn(v)[t] == CumMax(CumulativeReturn(v))[t])
  {
    if |v| > 0 {
      DrawdownFirst(v);
    }
    forall t | 1 <= t < |v|
      ensures && Drawdown(v)[t].Some?
              && 0.0 <= Drawdown(v)[t].value < 1.0
              && (Drawdown(v)[t].value == 0.0 <==> CumulativeReturn(v)[t] == CumMax(CumulativeReturn(v))[t])
    {
      DrawdownAt(v, t);
    }
  }

  lemma DivMonotone(a: real, b: real, d: real)
    requires d > 0.0 && a <= b
    ensures a / d <= b / d
  {
  }

  /** In a non-decreasing positive series the cumulative return at t is its
      own running peak. */
  lemma NoDrawdownAt(v: seq<real>, t: nat)
    requires Positive(v) && NonDecreasing(v) && 1 <= t < |v|
    ensures Drawdown(v)[t] == Some(0.0)
  {
    var cum := CumulativeReturn(v);
    assert NonZero(v);
    CumulativeAt(v, t);
    PeakAt(v, t);
    DrawdownAt(v, t);
    var m := CumMax(cum)[t].value;
    var i :| 1 <= i <= t && m == v[i] / v[0];
    if i < t {
      assert v[i] <= v[t];
    }
    DivMonotone(v[i], v[t], v[0]);
    assert cum[t] == CumMax(cum)[t];
  }

  /** A non-decreasing positive series never falls below its peak: each
      drawdown is 0 and, with at least two values, so is the maximum. */
  lemma NonDecreasingNoDrawdown(v: seq<real>)
    requires |v| > 0 && v[0] > 0.0 && NonDecreasing(v)
    ensures forall t :: 1 <= t < |v| ==> Drawdown(v)[t] == Some(0.0)
    ensures |v| >= 2 ==> MaxDrawdown(v) == Some(0.0)
  {
    NonDecreasingPositive(v);
    var dd := Drawdown(v);
    forall t | 1 <= t < |v|
      ensures dd[t] == Some(0.0)
    {
      NoDrawdownAt(v, t);
    }
    DrawdownFirst(v);
    if |v| >= 2 {
      NoDrawdownMax(dd);
    }
  }

  /** A non-decreasing series with a positive first value is positive. */
  lemma NonDecreasingPositive(v: seq<real>)
    requires |v| > 0 && v[0] > 0.0 && NonDecreasing(v)
    ensures Positive(v)
  {
    forall i | 0 <= i < |v| ensures v[i] > 0.0 {
      if i > 0 { assert v[0] <= v[i]; }
    }
  }

  /** A drawdown column that is 0 after its undefined first entry has a
      maximum drawdown of 0. */
  lemma NoDrawdownMax(dd: seq<Option<real>>)
    requires |dd| >= 2 && dd[0].None?
    requires forall t :: 1 <= t < |dd| ==> dd[t] == Some(0.0)
    ensures MaxDrawdownOf(dd) == Some(0.0)
  {
    var r := MaxOfDefined(dd);
    assert dd[1].Some?;
    var i :| 0 <= i < |dd| && dd[i] == r;
    assert i != 0;
  }

  /** Every value equals the first. */
  predicate Constant(v: seq<real>)
  {
    forall i :: 0 <= i < |v| ==> v[i] == v[0]
  }

  /** A constant positive series: every period return is 0, and so are the
      total return and the maximum drawdown. */
  lemma ConstantSeries(v: seq<real>)
    requires |v| >= 2 && v[0] > 0.0 && Constant(v)
    ensures forall t :: 1 <= t < |v| ==> PctChange(v)[t] == Some(0.0)
    ensures TotalReturn(v) == Some(0.0)
    ensures MaxDrawdown(v) == Some(0.0)
  {
    var c := v[0];
    assert c / c == 1.0;
    assert NonDecreasing(v) by {
      forall i, j | 0 <= i < j < |v| ensures v[i] <= v[j] {
        assert v[i] == c && v[j] == c;
      }
    }
    NonDecreasingNoDrawdown(v);
    forall t | 1 <= t < |v|
      ensures PctChange(v)[t] == Some(0.0)
    {
      assert v[t - 1] == c && v[t] == c;
    }
    assert v[|v| - 1] == c;
  }

  /** `m` is a drawdown after index 0, and every drawdown there is defined
      and at most `m`. */
  predicate LargestDrawdown(dd: seq<Option<real>>, m: real)
  {
    && |dd| > 0
    && Some(m) in dd[1..]
    && forall t :: 1 <= t < |dd| ==> dd[t].Some? && dd[t].value <= m
  }

  /** A drawdown column undefined only at index 0, with every other entry
      in [0, 1), has a maximum drawdown of 100 times its largest entry. */
  lemma LargestOfDrawdowns(dd: seq<Option<real>>)
    requires |dd| >= 2 && dd[0].None?
    requires forall t :: 1 <= t < |dd| ==> dd[t].Some? && 0.0 <= dd[t].value < 1.0
    ensures exists m :: MaxDrawdownOf(dd) == Some(100.0 * m) && 0.0 <= m < 1.0 && LargestDrawdown(dd, m)
  {
    var r := MaxOfDefined(dd);
    assert dd[1].Some?;
    var i :| 0 <= i < |dd| && dd[i] == r;
    assert dd[1..][i - 1] == r;
    assert LargestDrawdown(dd, r.value);
  }

  /** For positive values with at least two entries, the maximum drawdown is
      100 times the largest drawdown, which is in [0, 1); with fewer than two
      values it is undefined. */
  lemma MaxDrawdownBounds(v: seq<real>)
    requires Positive(v)
    ensures |v| < 2 ==> MaxDrawdown(v).None?
    ensures |v| >= 2 ==> exists m ::
      MaxDrawdown(v) == Some(100.0 * m) && 0.0 <= m < 1.0 && LargestDrawdown(Drawdown(v), m)
  {
    var dd := Drawdown(v);
    if |v| >= 2 {
      assert dd[0].None? && forall t :: 1 <= t < |dd| ==> dd[t].Some? && 0.0 <= dd[t].value < 1.0 by {
        DrawdownBounds(v);
      }
      LargestOfDrawdowns(dd);
    } else if |v| == 1 {
      DrawdownFirst(v);
    }
  }

  /** Example: cumulative returns 1.1, 0.99, 1.21 after the undefined first
      entry have drawdowns 0, 0.1, 0. */
  lemma ExampleDrawdowns(cum: seq<Option<real>>)
    requires cum == [None, Some(1.1), Some(0.99), Some(1.21)]
    ensures DrawdownOf(cum) == [None, Some(0.0), Some(0.1), Some(0.0)]
  {
    PeakOf(cum, 1);
    PeakOf(cum, 2);
    PeakOf(cum, 3);
    assert CumMax(cum) == [None, Some(1.1), Some(1.1), Some(1.21)];
  }

  /** Example: values 100, 110, 99, 121 fall 10% from the peak of 110 and
      end 21% up. */
  lemma ExampleMetrics(v: seq<real>)
    requires v == [100.0, 110.0, 99.0, 121.0]
    ensures TotalReturn(v) == Some(21.0)
    ensures Drawdown(v) == [None, Some(0.0), Some(0.1), Some(0.0)]
    ensures MaxDrawdown(v) == Some(10.0)
  {
    var cum := CumulativeReturn(v);
    assert NonZero(v);
    DrawdownFirst(v);
    CumulativeAt(v, 1);
    CumulativeAt(v, 2);
    CumulativeAt(v, 3);
    assert cum == [None, Some(1.1), Some(0.99), Some(1.21)];
    ExampleDrawdowns(cum);
    var dd := DrawdownOf(cum);
    assert MaxOfDefined(dd) == Some(0.1) by {
      assert dd[2].Some?;
    }
  }
}
