/** performance_analysis.py: the metrics `calculate_nav_metrics` reports for
    one value series, and `analyze_portfolio_performance`, which computes them
    for every asset of a portfolio and for the RL strategy, once per
    approach and prediction mode. The file system is a map from path to the
    frame `pd.read_csv` would parse from it. */
module PerformanceAnalysis {
  import opened Results
  import opened Seqs
  import opened Frames
  import opened NavSeries
  import opened AlgoDataset

  // ---------------------------------------------------------------------
  // Decimal formatting of integers (an f-string's `{n}`)
  // ---------------------------------------------------------------------

  predicate IsDigit(c: char)
  {
    '0' <= c <= '9'
  }

  function DigitChar(d: nat): (c: char)
    requires d < 10
    ensures IsDigit(c) && c as int - '0' as int == d
  {
    ('0' as int + d) as char
  }

  /** The decimal digits of `n`, most significant first, without leading
      zeros. */
  function NatToString(n: nat): (s: string)
    ensures |s| > 0 && forall i :: 0 <= i < |s| ==> IsDigit(s[i])
    ensures |s| > 1 ==> s[0] != '0'
    decreases n
  {
    if n < 10 then [DigitChar(n)]
    else
      var p := NatToString(n / 10);
      assert p[0] == (p + [DigitChar(n % 10)])[0];
      p + [DigitChar(n % 10)]
  }

  /** `str(i)` for an integer: a minus sign before the digits of a negative. */
  function IntToString(i: int): (s: string)
    ensures |s| > 0 && (s[0] == '-' <==> i < 0)
    ensures forall k :: 0 < k < |s| ==> IsDigit(s[k])
  {
    if i < 0 then "-" + NatToString(-i) else NatToString(i)
  }

  /** The number a string of decimal digits denotes. */
  function DigitsValue(s: string): nat
    requires forall i :: 0 <= i < |s| ==> IsDigit(s[i])
    decreases |s|
  {
    if |s| == 0 then 0
    else
      var c := s[|s| - 1];
      assert IsDigit(c);
      DigitsValue(s[..|s| - 1]) * 10 + (c as int - '0' as int)
  }

  /** Reading the digits back gives the number. */
  lemma {:induction false} DigitsValueOfNatToString(n: nat)
    ensures DigitsValue(NatToString(n)) == n
    decreases n
  {
    var s := NatToString(n);
    if n >= 10 {
      DigitsValueOfNatToString(n / 10);
      assert s[..|s| - 1] == NatToString(n / 10);
    }
  }

  /** Different integers are written differently. */
  lemma IntToStringInjective(i: int, j: int)
    requires IntToString(i) == IntToString(j)
    ensures i == j
  {
    if i < 0 {
      assert IntToString(i)[1..] == NatToString(-i);
      assert IntToString(j)[1..] == NatToString(-j);
      DigitsValueOfNatToString(-i);
      DigitsValueOfNatToString(-j);
    } else {
      DigitsValueOfNatToString(i);
      DigitsValueOfNatToString(j);
    }
  }

  // ---------------------------------------------------------------------
  // Where a run's strategy NAV is read from
  // ---------------------------------------------------------------------

  /** The approaches and prediction modes, in the order they are analysed. */
  const Approaches: seq<string> := ["gradual", "full_swing"]
  const PredictionModes: seq<bool> := [false, true]

  /** The run folder of an approach and prediction mode. */
  function Subfolder(approach: string, predict: bool): (s: string)
    ensures |s| == (if approach == "full_swing" then 3 else 0) + (if predict then 10 else 6)
  {
    var subfolder := if predict then "non_lagged" else "lagged";
    if approach == "full_swing" then "fs_" + subfolder else subfolder
  }

  /** Two runs share a folder exactly when they agree on whether the
      approach is full swing and on the prediction mode. */
  lemma SubfolderInjective(a1: string, p1: bool, a2: string, p2: bool)
    ensures Subfolder(a1, p1) == Subfolder(a2, p2)
            <==> (a1 == "full_swing") == (a2 == "full_swing") && p1 == p2
  {
  }

  /** The folder of portfolio `portfolioNum` (numbered from 0) holding a run. */
  function BasePath(portfolioNum: int, subfolder: string): (p: string)
    ensures |p| > 18 + |subfolder| && p[..17] == "data/rl/portfolio"
  {
    "data/rl/portfolio" + IntToString(portfolioNum + 1) + "/" + subfolder
  }

  /** `os.path.join(base_path, 'daily_nav.csv')`. */
  function RlNavPath(portfolioNum: int, subfolder: string): (p: string)
    ensures |p| > 14 && p[|p| - 14..] == "/daily_nav.csv"
  {
    BasePath(portfolioNum, subfolder) + "/daily_nav.csv"
  }

  /** The part of a path before its first '/'. */
  function BeforeSlash(x: string): (r: string)
    ensures '/' !in r
  {
    if |x| == 0 || x[0] == '/' then "" else [x[0]] + BeforeSlash(x[1..])
  }

  lemma {:induction false} BeforeSlashOfJoin(a: string, b: string)
    requires '/' !in a
    ensures BeforeSlash(a + "/" + b) == a
  {
    if |a| > 0 {
      assert a[0] in a;
      assert (a + "/" + b)[1..] == a[1..] + "/" + b;
      BeforeSlashOfJoin(a[1..], b);
    }
  }

  /** A string split at its first '/' comes apart uniquely. */
  lemma SplitAtSlash(a: string, b: string, c: string, d: string)
    requires '/' !in a && '/' !in c
    requires a + "/" + b == c + "/" + d
    ensures a == c && b == d
  {
    var x := a + "/" + b;
    BeforeSlashOfJoin(a, b);
    BeforeSlashOfJoin(c, d);
    assert b == x[|a| + 1..] && d == x[|c| + 1..];
  }

  /** Every portfolio and run has its own strategy NAV file. */
  lemma RlNavPathInjective(n1: int, s1: string, n2: int, s2: string)
    requires RlNavPath(n1, s1) == RlNavPath(n2, s2)
    ensures n1 == n2 && s1 == s2
  {
    var t1, t2 := IntToString(n1 + 1), IntToString(n2 + 1);
    NavPathMiddle(n1, s1);
    NavPathMiddle(n2, s2);
    NoSlashInNumber(n1 + 1);
    NoSlashInNumber(n2 + 1);
    SplitAtSlash(t1, s1, t2, s2);
    IntToStringInjective(n1 + 1, n2 + 1);
  }

  /** What lies between the folder prefix and the file name of a NAV path. */
  lemma NavPathMiddle(n: int, s: string)
    ensures var x := RlNavPath(n, s);
      |x| >= 31 && x[17..|x| - 14] == IntToString(n + 1) + "/" + s
  {
    MiddleOf("data/rl/portfolio", IntToString(n + 1) + "/" + s, "/daily_nav.csv");
    assert RlNavPath(n, s) == "data/rl/portfolio" + (IntToString(n + 1) + "/" + s) + "/daily_nav.csv";
  }

  lemma MiddleOf(pre: string, m: string, suf: string)
    ensures (pre + m + suf)[|pre|..|pre + m + suf| - |suf|] == m
  {
    var x := pre + m + suf;
    assert forall k :: 0 <= k < |m| ==> x[|pre| + k] == m[k];
  }

  lemma NoSlashInNumber(i: int)
    ensures '/' !in IntToString(i)
  {
    var t := IntToString(i);
    assert forall k :: 0 <= k < |t| ==> t[k] != '/';
  }

  /** For the portfolios the analysis runs (0, 1, 2), the strategy folder
      is the one the assets are loaded from. */
  lemma BasePathMatchesAssetFolder(portfolioNum: int, subfolder: string)
    requires 0 <= portfolioNum < 3
    ensures BasePath(portfolioNum, subfolder)
            == "data/rl/" + RunSet[PyIndex(portfolioNum, |RunSet|).value] + "/" + subfolder
  {
    assert IntToString(portfolioNum + 1) == [DigitChar(portfolioNum + 1)];
  }

  /** A negative portfolio number selects the assets of a folder counted
      from the end, while the strategy NAV path counts from 0: with -1 the
      assets come from portfolio3 and the NAV from portfolio0. */
  lemma NegativePortfolioFolders()
    ensures RunSet[PyIndex(-1, |RunSet|).value] == "portfolio3"
    ensures BasePath(-1, "lagged") == "data/rl/portfolio0/lagged"
  {
    assert IntToString(0) == "0";
  }

  // ---------------------------------------------------------------------
  // calculate_nav_metrics
  // ---------------------------------------------------------------------

  /** The two metrics of a value series this model keeps. */
  datatype NavMetrics = NavMetrics(totalReturn: Option<real>, maxDrawdown: Option<real>)

  /** The candidate value columns, in the order they are tried. */
  const ValueColumnOrder: seq<string> := ["Net", "Close", "NAV"]

  /** `r` is the first of `names` that is a column, or None when none is. */
  predicate IsFirstPresent(names: seq<string>, columns: set<string>, r: Option<string>)
  {
    && (r.None? <==> forall i :: 0 <= i < |names| ==> names[i] !in columns)
    && (r.Some? ==> exists i :: 0 <= i < |names| && names[i] == r.value && r.value in columns
                      && forall j :: 0 <= j < i ==> names[j] !in columns)
  }

  /** The first of `names` that is a column, if any: the reference the value
      column lookup is checked against. */
  function FirstPresent(names: seq<string>, columns: set<string>): (r: Option<string>)
    ensures IsFirstPresent(names, columns, r)
  {
    if |names| == 0 then None
    else if names[0] in columns then Some(names[0])
    else
      var r := FirstPresent(names[1..], columns);
      FirstPresentSkip(names, names[1..], columns, r);
      r
  }

  /** Skipping a first name that is not a column keeps the first present. */
  lemma FirstPresentSkip(names: seq<string>, rest: seq<string>, columns: set<string>, r: Option<string>)
    requires |names| > 0 && names[0] !in columns && rest == names[1..]
    requires IsFirstPresent(rest, columns, r)
    ensures IsFirstPresent(names, columns, r)
  {
    assert forall i :: 1 <= i < |names| ==> rest[i - 1] == names[i];
    if r.Some? {
      var i :| 0 <= i < |rest| && rest[i] == r.value && r.value in columns
               && forall j :: 0 <= j < i ==> rest[j] !in columns;
      assert names[i + 1] == r.value;
      forall j | 0 <= j < i + 1
        ensures names[j] !in columns
      {
        if j > 0 { assert rest[j - 1] == names[j]; }
      }
    }
  }

  /** `df['Net']` once a missing Net column has been filled from Close, or
      else from NAV; a frame with none of the three raises KeyError('NAV'). */
  function ValueColumn(f: Frame): (r: Result<seq<real>, PyError>)
    ensures r.Err? <==> "Net" !in f.columns && "Close" !in f.columns && "NAV" !in f.columns
    ensures r.Err? ==> r.error == KeyError("NAV")
  {
    if "Net" in f.columns then Ok(Column(f, "Net"))
    else if "Close" in f.columns then Ok(Column(f, "Close"))
    else if "NAV" in f.columns then Ok(Column(f, "NAV"))
    else Err(KeyError("NAV"))
  }

  /** The value column is the first of Net, Close, NAV the frame has, and
      its lookup fails exactly when it has none of them. */
  lemma ValueColumnIsFirstPresent(f: Frame)
    ensures ValueColumn(f) == match FirstPresent(ValueColumnOrder, f.columns)
                              case None => Err(KeyError("NAV"))
                              case Some(name) => Ok(Column(f, name))
  {
    var order, cols := ValueColumnOrder, f.columns;
    assert order[1..] == ["Close", "NAV"] && order[1..][1..] == ["NAV"] && order[1..][1..][1..] == [];
    assert FirstPresent(order[1..][1..][1..], cols) == None;
    assert FirstPresent(order[1..][1..], cols) == if "NAV" in cols then Some("NAV") else None;
    assert FirstPresent(order[1..], cols)
           == if "Close" in cols then Some("Close") else FirstPresent(order[1..][1..], cols);
  }

  /** The metrics of a non-empty value series. */
  function MetricsOf(v: seq<real>): (m: NavMetrics)
    requires |v| > 0
    ensures m.totalReturn.Some? <==> v[0] != 0.0
    ensures |v| == 1 ==> m.maxDrawdown.None?
    ensures |v| == 1 && v[0] != 0.0 ==> m.totalReturn == Some(0.0)
  {
    NavMetrics(TotalReturn(v), MaxDrawdown(v))
  }

  /** `calculate_nav_metrics(df)`: `None` for no frame; the lookup error of a
      frame without a value column; IndexError for an empty frame, whose
      `iloc[-1]` does not exist; ValueError when `dropna` leaves fewer
      returns than `Drawdown.iloc[1:]` has entries, so that `np.corrcoef`
      gets two series of different lengths. */
  function CalculateNavMetrics(df: Option<Frame>): (r: Result<Option<NavMetrics>, PyError>)
    ensures df.None? ==> r == Ok(None)
    ensures r.Err? <==> df.Some? && (ValueColumn(df.value).Err? || |df.value.rows| == 0
                                     || HasZeroAfterZero(ValueColumn(df.value).value))
    ensures r.Err? && df.Some? && ValueColumn(df.value).Ok?
            ==> r.error == if |df.value.rows| == 0 then IndexError else ValueError
    ensures r.Err? ==> r.error == IndexError || r.error == KeyError("NAV") || r.error == ValueError
    ensures r.Ok? && df.Some? ==> r.value == Some(MetricsOf(ValueColumn(df.value).value))
  {
    match df
    case None => Ok(None)
    case Some(f) =>
      match ValueColumn(f)
      case Err(e) => Err(e)
      case Ok(v) =>
        if |v| == 0 then Err(IndexError)
        else
          DropNaLengthMatches(v);
          if DropNaLength(v) != |Drawdown(v)[1..]| then Err(ValueError)
          else Ok(Some(MetricsOf(v)))
  }

  /** For positive values, at least two of them: the total return is the
      growth from first to last value in percent, and the maximum drawdown
      is 100 times the largest drawdown, in [0, 100). */
  lemma MetricsOfPositive(v: seq<real>)
    requires Positive(v) && |v| >= 2
    ensures MetricsOf(v).totalReturn == Some((v[|v| - 1] / v[0] - 1.0) * 100.0)
    ensures MetricsOf(v).maxDrawdown.Some?
    ensures 0.0 <= MetricsOf(v).maxDrawdown.value < 100.0
    ensures exists m :: MetricsOf(v).maxDrawdown == Some(100.0 * m) && LargestDrawdown(Drawdown(v), m)
  {
    MaxDrawdownBounds(v);
  }

  /** Multiplying every value by the same non-zero constant changes neither
      metric. */
  lemma MetricsScaleInvariant(v: seq<real>, k: real)
    requires |v| > 0 && k != 0.0
    ensures MetricsOf(Scale(v, k)) == MetricsOf(v)
  {
    ScaleInvariant(v, k);
    TotalReturnScaleInvariant(v, k);
  }

  // ---------------------------------------------------------------------
  // analyze_portfolio_performance
  // ---------------------------------------------------------------------

  /** `read_nav_file(path)`: the parsed frame, or `None` when reading fails. */
  function ReadNavFile(path: string, fs: map<string, Frame>): (r: Option<Frame>)
    ensures r.Some? <==> path in fs
    ensures r.Some? ==> r.value == fs[path]
  {
    if path in fs then Some(fs[path]) else None
  }

  /** `df[df['Date'].isin(date_range)]`. */
  function RestrictToDates(f: Frame, dateRange: seq<Date>): (g: Frame)
    ensures g.columns == f.columns
    ensures forall r :: r in g.rows <==> r in f.rows && r.date in dateRange
  {
    SelectRows(f, DateIsIn(dateRange))
  }

  /** The restriction keeps the columns, keeps exactly the rows dated in the
      range, in their order, and keeps a sorted frame sorted. */
  lemma RestrictToDatesKeeps(f: Frame, dateRange: seq<Date>)
    ensures RestrictToDates(f, dateRange).columns == f.columns
    ensures forall r :: r in RestrictToDates(f, dateRange).rows <==> r in f.rows && r.date in dateRange
    ensures IsSubsequence(RestrictToDates(f, dateRange).rows, f.rows)
    ensures SortedByDate(f) ==> SortedByDate(RestrictToDates(f, dateRange))
  {
    FilterIsSubsequence(f.rows, DateIsIn(dateRange));
    if SortedByDate(f) {
      SelectRowsKeepsSorted(f, DateIsIn(dateRange));
    }
  }

  /** When every frame's dates are strictly increasing, restricting any of
      them to the common dates leaves exactly the common dates, in order:
      all assets are then measured over the same days, and sorting by date
      changes nothing. */
  lemma AlignedFramesShareDates(dfList: seq<Frame>, j: nat)
    requires j < |dfList|
    requires forall i :: 0 <= i < |dfList| ==> SortedByDate(dfList[i])
    ensures DatesOf(RestrictToDates(dfList[j], CommonDates(DateColumns(dfList))).rows)
            == CommonDates(DateColumns(dfList))
    ensures SortedByDate(RestrictToDates(dfList[j], CommonDates(DateColumns(dfList))))
  {
    var cols := DateColumns(dfList);
    var range := CommonDates(cols);
    var f := dfList[j];
    DatesOfSelectDateIsIn(f.rows, range);
    var kept := Filter(cols[j], IsIn(range));
    assert DatesOf(RestrictToDates(f, range).rows) == kept;
    assert SortedByDate(dfList[0]) && SortedByDate(f);
    FilterKeepsIncreasing(cols[0], IsCommon(cols));
    FilterKeepsIncreasing(cols[j], IsIn(range));
    forall d ensures d in kept <==> d in range {
      if d in range {
        assert InAll(d, cols);
        assert d in cols[j];
      }
    }
    IncreasingSameElementsEqual(kept, range);
    SelectRowsKeepsSorted(f, DateIsIn(range));
  }

  /** The metrics of one asset: its frame restricted to the common dates. */
  function AssetMetrics(f: Frame, dateRange: seq<Date>): (r: Result<Option<NavMetrics>, PyError>)
    ensures r.Ok? ==> r.value.Some?
    ensures r.Err? ==> r.error == IndexError || r.error == KeyError("NAV") || r.error == ValueError
  {
    CalculateNavMetrics(Some(RestrictToDates(f, dateRange)))
  }

  /** The outcome of measuring `df_list[i]` for each of the first `n`
      stocks; an index past the frame list raises IndexError. */
  function AssetOutcomes(n: nat, dfList: seq<Frame>, dateRange: seq<Date>): (os: seq<Result<Option<NavMetrics>, PyError>>)
    ensures |os| == n
    ensures forall i :: |dfList| <= i < n ==> os[i] == Err(IndexError)
  {
    seq(n, i requires 0 <= i < n =>
      if i < |dfList| then AssetMetrics(dfList[i], dateRange) else Err(IndexError))
  }

  /** No later key repeats `keys[j]`, so its entry is the last written. */
  predicate LastOccurrence(keys: seq<string>, j: nat)
  {
    forall k :: j < k < |keys| ==> keys[k] != keys[j]
  }

  /** The dictionary after `d[keys[i]] = vals[i]` for each i in order,
      starting from an empty one. */
  function Assigned<V>(keys: seq<string>, vals: seq<V>): (d: map<string, V>)
    requires |keys| == |vals|
    ensures d.Keys == set k | k in keys
    ensures forall j :: 0 <= j < |keys| && LastOccurrence(keys, j) ==> d[keys[j]] == vals[j]
    decreases |keys|
  {
    if |keys| == 0 then map[]
    else
      var n := |keys| - 1;
      var before := Assigned(keys[..n], vals[..n]);
      AssignedLast(keys, vals, n, before);
      before[keys[n] := vals[n]]
  }

  /** Writing the last pair after the earlier ones. */
  lemma AssignedLast<V>(keys: seq<string>, vals: seq<V>, n: nat, before: map<string, V>)
    requires |keys| == |vals| == n + 1
    requires before.Keys == set k | k in keys[..n]
    requires forall j :: 0 <= j < n && LastOccurrence(keys[..n], j) ==> before[keys[j]] == vals[j]
    ensures before[keys[n] := vals[n]].Keys == set k | k in keys
    ensures forall j :: 0 <= j < |keys| && LastOccurrence(keys, j) ==> before[keys[n] := vals[n]][keys[j]] == vals[j]
  {
    KeysOfSnoc(keys, n);
    assert forall j :: 0 <= j < n ==> keys[j] in before by {
      forall j | 0 <= j < n ensures keys[j] in before {
        assert keys[..n][j] == keys[j];
      }
    }
    AssignedLastValues(keys, vals, n, before);
  }

  /** The values part of AssignedLast: a key whose last write is an earlier
      one keeps that value, and the last key gets the last value. */
  lemma AssignedLastValues<V>(keys: seq<string>, vals: seq<V>, n: nat, before: map<string, V>)
    requires |keys| == |vals| == n + 1
    requires forall j :: 0 <= j < n ==> keys[j] in before
    requires forall j :: 0 <= j < n && LastOccurrence(keys[..n], j) ==> before[keys[j]] == vals[j]
    ensures forall j :: 0 <= j < |keys| && LastOccurrence(keys, j) ==> before[keys[n] := vals[n]][keys[j]] == vals[j]
  {
    forall j | 0 <= j < |keys| && LastOccurrence(keys, j)
      ensures before[keys[n] := vals[n]][keys[j]] == vals[j]
    {
      if j < n {
        LastOccurrenceBefore(keys, n, j);
      }
    }
  }

  /** A last write among all keys is a last write among the first n, and
      differs from the key written at n. */
  lemma LastOccurrenceBefore(keys: seq<string>, n: nat, j: nat)
    requires j < n < |keys| && LastOccurrence(keys, j)
    ensures LastOccurrence(keys[..n], j) && keys[j] != keys[n]
  {
    forall k | j < k < n
      ensures keys[..n][k] != keys[..n][j]
    {
      assert keys[k] != keys[j];
    }
  }

  lemma KeysOfSnoc(keys: seq<string>, n: nat)
    requires n < |keys| == n + 1
    ensures (set k | k in keys[..n]) + {keys[n]} == set k | k in keys
  {
    assert keys == keys[..n] + [keys[n]];
  }

  /** The asset entries of one table: every stock's metrics filed under its
      name, or the first failure. */
  function AssetResults(stocks: seq<string>, dfList: seq<Frame>, dateRange: seq<Date>)
    : (r: Result<map<string, Option<NavMetrics>>, PyError>)
    ensures |stocks| > |dfList| ==> r.Err?
    ensures r.Ok? ==> r.value.Keys == set s | s in stocks
  {
    assert |stocks| > |dfList| ==> AssetOutcomes(|stocks|, dfList, dateRange)[|dfList|].Err?;
    match Collect(AssetOutcomes(|stocks|, dfList, dateRange))
    case Err(e) => Err(e)
    case Ok(ms) => Ok(Assigned(stocks, ms))
  }

  /** The asset entries exist exactly when every stock has a frame and every
      frame can be measured; then each stock (named once) holds its own
      frame's metrics, and a failure is a missing value column, an empty or
      missing frame, or a value column with a 0 after a 0. */
  lemma AssetResultsSpec(stocks: seq<string>, dfList: seq<Frame>, dateRange: seq<Date>)
    ensures var r := AssetResults(stocks, dfList, dateRange);
      && (r.Ok? <==> |stocks| <= |dfList| && forall j :: 0 <= j < |stocks| ==> AssetMetrics(dfList[j], dateRange).Ok?)
      && (r.Err? ==> r.error == IndexError || r.error == KeyError("NAV") || r.error == ValueError)
      && (r.Ok? ==> r.value.Keys == set s | s in stocks)
      && (r.Ok? ==> forall j :: 0 <= j < |stocks| && LastOccurrence(stocks, j) ==>
                      r.value[stocks[j]] == AssetMetrics(dfList[j], dateRange).value)
  {
    var os := AssetOutcomes(|stocks|, dfList, dateRange);
    if |stocks| > |dfList| {
      var i := |dfList|;
      assert os[i].Err?;
    } else {
      forall j | 0 <= j < |stocks|
        ensures os[j] == AssetMetrics(dfList[j], dateRange)
      {
      }
    }
    if Collect(os).Err? {
      CollectErrorIsFirst(os);
    }
  }

  /** One printed table: its approach and prediction mode, and the metrics
      of each asset and of the RL strategy. */
  datatype Report = Report(approach: string, predict: bool, results: map<string, Option<NavMetrics>>)

  /** The row under which the strategy's metrics are filed. */
  const Strategy: string := "RL Strategy"

  /** The table of one approach and prediction mode, or the exception that
      ends the analysis there. */
  function RunOnce(portfolioNum: int, approach: string, predict: bool, fs: map<string, Frame>): (r: Result<Report, PyError>)
    ensures r.Ok? ==> r.value.approach == approach && r.value.predict == predict && Strategy in r.value.results
  {
    match LoadedDataset(portfolioNum, fs)
    case Err(e) => Err(e)
    case Ok(ds) =>
      match AssetResults(ds.stocks, ds.dfList, ds.dateRange)
      case Err(e) => Err(e)
      case Ok(results) =>
        match CalculateNavMetrics(ReadNavFile(RlNavPath(portfolioNum, Subfolder(approach, predict)), fs))
        case Err(e) => Err(e)
        case Ok(m) => Ok(Report(approach, predict, results[Strategy := m]))
  }

  /** The runs in the order of the nested loops: approach outer, prediction
      mode inner. */
  const RunModes: seq<(string, bool)> :=
    [("gradual", false), ("gradual", true), ("full_swing", false), ("full_swing", true)]

  function RunOutcomes(portfolioNum: int, modes: seq<(string, bool)>, fs: map<string, Frame>): (os: seq<Result<Report, PyError>>)
    ensures |os| == |modes|
  {
    seq(|modes|, k requires 0 <= k < |modes| => RunOnce(portfolioNum, modes[k].0, modes[k].1, fs))
  }

  /** What `analyze_portfolio_performance(portfolio_num)` prints: the tables
      of the runs that complete, in loop order, and the exception that ends
      it at the first run that fails, if one does. A table is printed as
      soon as its run completes, so a later failure does not withdraw it. */
  function Analysis(portfolioNum: int, fs: map<string, Frame>): (r: Partial<Report, PyError>)
    ensures |r.done| <= 4
    ensures r.raised.None? <==> |r.done| == 4
  {
    RunUntilRaise(RunOutcomes(portfolioNum, RunModes, fs))
  }

  lemma AssignedSnoc<V>(keys: seq<string>, vals: seq<V>, key: string, v: V)
    requires |keys| == |vals|
    ensures Assigned(keys + [key], vals + [v]) == Assigned(keys, vals)[key := v]
  {
    assert (keys + [key])[..|keys|] == keys;
    assert (vals + [v])[..|vals|] == vals;
  }

  /** A table splits into the loaded dataset, its asset entries and the
      strategy's metrics it was assembled from. */
  lemma RunOnceParts(portfolioNum: int, approach: string, predict: bool, fs: map<string, Frame>, rep: Report)
    returns (ds: Dataset, results: map<string, Option<NavMetrics>>, rl: Option<NavMetrics>)
    requires RunOnce(portfolioNum, approach, predict, fs) == Ok(rep)
    ensures LoadedDataset(portfolioNum, fs) == Ok(ds)
    ensures AssetResults(ds.stocks, ds.dfList, ds.dateRange) == Ok(results)
    ensures CalculateNavMetrics(ReadNavFile(RlNavPath(portfolioNum, Subfolder(approach, predict)), fs)) == Ok(rl)
    ensures rep == Report(approach, predict, results[Strategy := rl])
  {
    ds := LoadedDataset(portfolioNum, fs).value;
    results := AssetResults(ds.stocks, ds.dfList, ds.dateRange).value;
    rl := CalculateNavMetrics(ReadNavFile(RlNavPath(portfolioNum, Subfolder(approach, predict)), fs)).value;
  }

  /** The stocks of a loaded dataset are three distinct names, none of them
      the strategy's, each with its frame. */
  lemma LoadedStocks(portfolioNum: int, fs: map<string, Frame>)
    requires LoadedDataset(portfolioNum, fs).Ok?
    ensures -3 <= portfolioNum < 3
    ensures var ds := LoadedDataset(portfolioNum, fs).value;
      && |ds.stocks| == |ds.dfList| == 3
      && Strategy !in ds.stocks
      && forall j :: 0 <= j < 3 ==> LastOccurrence(ds.stocks, j)
  {
    LoadedDatasetShape(portfolioNum, fs);
    StocksOfPortfolio(PyIndex(portfolioNum, 3).value);
  }

  /** Successful asset entries: one key per stock, each stock named once
      holding its own restricted frame's metrics. */
  lemma AssetResultsOk(stocks: seq<string>, dfList: seq<Frame>, dateRange: seq<Date>,
                       results: map<string, Option<NavMetrics>>)
    requires AssetResults(stocks, dfList, dateRange) == Ok(results)
    ensures |stocks| <= |dfList|
    ensures results.Keys == set s | s in stocks
    ensures forall j :: 0 <= j < |stocks| && LastOccurrence(stocks, j) ==>
              AssetMetrics(dfList[j], dateRange) == Ok(results[stocks[j]])
  {
    AssetResultsSpec(stocks, dfList, dateRange);
  }

  /** Asset entries with the strategy's entry added: one key per stock and
      the strategy's, each stock holding its own restricted frame's metrics. */
  lemma AssetEntries(stocks: seq<string>, dfList: seq<Frame>, dateRange: seq<Date>,
                     results: map<string, Option<NavMetrics>>, rl: Option<NavMetrics>)
    requires AssetResults(stocks, dfList, dateRange) == Ok(results)
    requires Strategy !in stocks
    requires forall j :: 0 <= j < |stocks| ==> LastOccurrence(stocks, j)
    ensures |stocks| <= |dfList|
    ensures results[Strategy := rl].Keys == (set s | s in stocks) + {Strategy}
    ensures forall j :: 0 <= j < |stocks| ==>
      stocks[j] in results[Strategy := rl] && AssetMetrics(dfList[j], dateRange) == Ok(results[Strategy := rl][stocks[j]])
  {
    AssetResultsOk(stocks, dfList, dateRange, results);
    var table := results[Strategy := rl];
    forall j | 0 <= j < |stocks|
      ensures stocks[j] in table && AssetMetrics(dfList[j], dateRange) == Ok(table[stocks[j]])
    {
      assert stocks[j] != Strategy && stocks[j] in results;
    }
  }

  /** A table exists only for a portfolio number Python accepts; it holds
      one entry per asset of that portfolio and one for the strategy, each
      asset's entry being its own restricted frame's metrics and the
      strategy's entry the metrics of the run's own NAV file. */
  lemma RunOnceShape(portfolioNum: int, approach: string, predict: bool, fs: map<string, Frame>, rep: Report)
    requires RunOnce(portfolioNum, approach, predict, fs) == Ok(rep)
    ensures -3 <= portfolioNum < 3 && LoadedDataset(portfolioNum, fs).Ok?
    ensures rep.approach == approach && rep.predict == predict
    ensures var ds := LoadedDataset(portfolioNum, fs).value;
      && rep.results.Keys == (set s | s in ds.stocks) + {Strategy}
      && |ds.dfList| == |ds.stocks|
      && forall j :: 0 <= j < |ds.stocks| ==>
           ds.stocks[j] in rep.results && AssetMetrics(ds.dfList[j], ds.dateRange) == Ok(rep.results[ds.stocks[j]])
    ensures Strategy in rep.results
    ensures CalculateNavMetrics(ReadNavFile(RlNavPath(portfolioNum, Subfolder(approach, predict)), fs))
            == Ok(rep.results[Strategy])
  {
    var ds, results, rl := RunOnceParts(portfolioNum, approach, predict, fs, rep);
    LoadedStocks(portfolioNum, fs);
    AssetEntries(ds.stocks, ds.dfList, ds.dateRange, results, rl);
  }

  /** A portfolio number Python rejects, a missing asset file or an asset
      file without a Close column ends the analysis before any table. */
  lemma AnalysisDatasetError(portfolioNum: int, fs: map<string, Frame>)
    requires LoadedDataset(portfolioNum, fs).Err?
    ensures Analysis(portfolioNum, fs) == Partial([], Some(LoadedDataset(portfolioNum, fs).error))
  {
    var outcomes := RunOutcomes(portfolioNum, RunModes, fs);
    assert outcomes[0].Err?;
    assert outcomes[..0] == [];
    RunUntilRaiseStop(outcomes, 0, []);
  }

  /** The printed tables are those of the runs before the first that
      fails, in loop order; all four are printed exactly when no run fails,
      and an exception is that of the first failing run. */
  lemma AnalysisRuns(portfolioNum: int, fs: map<string, Frame>, reports: seq<Report>)
    requires Analysis(portfolioNum, fs).done == reports
    ensures |reports| <= 4
    ensures forall k :: 0 <= k < |reports| ==> RunOnce(portfolioNum, RunModes[k].0, RunModes[k].1, fs) == Ok(reports[k])
    ensures Analysis(portfolioNum, fs).raised.None? <==> |reports| == 4
    ensures Analysis(portfolioNum, fs).raised.Some? ==>
              RunOnce(portfolioNum, RunModes[|reports|].0, RunModes[|reports|].1, fs)
              == Err(Analysis(portfolioNum, fs).raised.value)
  {
    var outcomes := RunOutcomes(portfolioNum, RunModes, fs);
    forall k | 0 <= k < |reports|
      ensures RunOnce(portfolioNum, RunModes[k].0, RunModes[k].1, fs) == Ok(reports[k])
    {
      assert outcomes[k] == Ok(reports[k]);
    }
  }

  /** Two runs on the same portfolio and files file the same asset entries
      under the same keys; only the strategy's entry can differ. */
  lemma TablesAgree(portfolioNum: int, fs: map<string, Frame>,
                    a1: string, p1: bool, rep1: Report, a2: string, p2: bool, rep2: Report)
    requires RunOnce(portfolioNum, a1, p1, fs) == Ok(rep1)
    requires RunOnce(portfolioNum, a2, p2, fs) == Ok(rep2)
    ensures rep2.results.Keys == rep1.results.Keys
    ensures forall s :: s in rep1.results && s != Strategy ==> s in rep2.results && rep2.results[s] == rep1.results[s]
  {
    var ds1, results1, rl1 := RunOnceParts(portfolioNum, a1, p1, fs, rep1);
    var ds2, results2, rl2 := RunOnceParts(portfolioNum, a2, p2, fs, rep2);
    assert ds1 == ds2;
    assert results1 == results2;
    UpdateAgrees(results1, Strategy, rl1, rl2);
  }

  lemma UpdateAgrees<K, V>(m: map<K, V>, k: K, v1: V, v2: V)
    ensures m[k := v1].Keys == m[k := v2].Keys == m.Keys + {k}
    ensures forall s :: s in m && s != k ==> m[k := v1][s] == m[s] && m[k := v2][s] == m[s]
  {
  }

  /** When run k fails and the runs before it complete, the analysis prints
      the k tables of those runs and then raises run k's exception. */
  lemma AnalysisKeepsEarlierTables(portfolioNum: int, fs: map<string, Frame>, k: nat)
    requires k < 4 && RunOnce(portfolioNum, RunModes[k].0, RunModes[k].1, fs).Err?
    requires forall j :: 0 <= j < k ==> RunOnce(portfolioNum, RunModes[j].0, RunModes[j].1, fs).Ok?
    ensures |Analysis(portfolioNum, fs).done| == k
    ensures forall j :: 0 <= j < k ==>
              Ok(Analysis(portfolioNum, fs).done[j]) == RunOnce(portfolioNum, RunModes[j].0, RunModes[j].1, fs)
    ensures Analysis(portfolioNum, fs).raised == Some(RunOnce(portfolioNum, RunModes[k].0, RunModes[k].1, fs).error)
  {
    AnalysisRuns(portfolioNum, fs, Analysis(portfolioNum, fs).done);
  }

  /** The printed tables come in loop order; they share their asset
      entries, which do not depend on approach or prediction mode, and
      differ only in the strategy entry, read from each run's own NAV file. */
  lemma AnalysisShape(portfolioNum: int, fs: map<string, Frame>, reports: seq<Report>)
    requires Analysis(portfolioNum, fs).done == reports
    ensures |reports| <= 4
    ensures forall k :: 0 <= k < |reports| ==> (reports[k].approach, reports[k].predict) == RunModes[k]
    ensures forall k :: 0 <= k < |reports| ==> reports[k].results.Keys == reports[0].results.Keys
    ensures forall k, s :: 0 <= k < |reports| && s in reports[0].results && s != Strategy ==>
              s in reports[k].results && reports[k].results[s] == reports[0].results[s]
    ensures forall k :: 0 <= k < |reports| ==>
              && Strategy in reports[k].results
              && CalculateNavMetrics(ReadNavFile(RlNavPath(portfolioNum, Subfolder(RunModes[k].0, RunModes[k].1)), fs))
                 == Ok(reports[k].results[Strategy])
  {
    AnalysisRuns(portfolioNum, fs, reports);
    forall k | 0 <= k < |reports|
      ensures (reports[k].approach, reports[k].predict) == RunModes[k]
      ensures Strategy in reports[k].results
      ensures CalculateNavMetrics(ReadNavFile(RlNavPath(portfolioNum, Subfolder(RunModes[k].0, RunModes[k].1)), fs))
              == Ok(reports[k].results[Strategy])
    {
      RunOnceShape(portfolioNum, RunModes[k].0, RunModes[k].1, fs, reports[k]);
    }
    forall k | 0 <= k < |reports|
      ensures reports[k].results.Keys == reports[0].results.Keys
      ensures forall s :: s in reports[0].results && s != Strategy ==>
                s in reports[k].results && reports[k].results[s] == reports[0].results[s]
    {
      TablesAgree(portfolioNum, fs, RunModes[0].0, RunModes[0].1, reports[0], RunModes[k].0, RunModes[k].1, reports[k]);
    }
  }

  /** Within a portfolio, the four runs read four different strategy NAV
      files. */
  lemma RunNavPathsDistinct(portfolioNum: int)
    ensures forall i, j :: 0 <= i < j < 4 ==>
      RlNavPath(portfolioNum, Subfolder(RunModes[i].0, RunModes[i].1))
      != RlNavPath(portfolioNum, Subfolder(RunModes[j].0, RunModes[j].1))
  {
    forall i, j | 0 <= i < j < 4
      ensures RlNavPath(portfolioNum, Subfolder(RunModes[i].0, RunModes[i].1))
              != RlNavPath(portfolioNum, Subfolder(RunModes[j].0, RunModes[j].1))
    {
      var ai, pi, aj, pj := RunModes[i].0, RunModes[i].1, RunModes[j].0, RunModes[j].1;
      assert "gradual" != "full_swing";
      assert (ai == "full_swing", pi) != (aj == "full_swing", pj);
      SubfolderInjective(ai, pi, aj, pj);
      if RlNavPath(portfolioNum, Subfolder(ai, pi)) == RlNavPath(portfolioNum, Subfolder(aj, pj)) {
        RlNavPathInjective(portfolioNum, Subfolder(ai, pi), portfolioNum, Subfolder(aj, pj));
      }
    }
  }

  /** A successful step i extends both the collected values and the
      dictionary they are filed in. */
  lemma FillStep<V>(keys: seq<string>, outcomes: seq<Result<V, PyError>>, i: nat, vs: seq<V>)
    requires i < |keys| == |outcomes| && |vs| == i
    requires Collect(outcomes[..i]) == Ok(vs) && outcomes[i].Ok?
    ensures Collect(outcomes[..i + 1]) == Ok(vs + [outcomes[i].value])
    ensures Assigned(keys[..i + 1], vs + [outcomes[i].value]) == Assigned(keys[..i], vs)[keys[i] := outcomes[i].value]
  {
    CollectStep(outcomes, i, vs);
    assert keys[..i + 1] == keys[..i] + [keys[i]];
    AssignedSnoc(keys[..i], vs, keys[i], outcomes[i].value);
  }

  /** Asset i failing after its predecessors succeeded fails the table. */
  lemma AssetStop(stocks: seq<string>, dfList: seq<Frame>, dateRange: seq<Date>, i: nat)
    requires i < |stocks| == |dfList|
    requires Collect(AssetOutcomes(|stocks|, dfList, dateRange)[..i]).Ok?
    requires AssetMetrics(dfList[i], dateRange).Err?
    ensures AssetResults(stocks, dfList, dateRange) == Err(AssetMetrics(dfList[i], dateRange).error)
  {
    var outcomes := AssetOutcomes(|stocks|, dfList, dateRange);
    assert outcomes[i] == AssetMetrics(dfList[i], dateRange);
    CollectStop(outcomes, i);
  }

  /** The loop over the assets of one table: restrict each frame to the
      common dates and file its metrics under the stock's name. */
  method FillAssetResults(stocks: seq<string>, dfList: seq<Frame>, dateRange: seq<Date>)
    returns (r: Result<map<string, Option<NavMetrics>>, PyError>)
    requires |dfList| == |stocks|
    ensures r == AssetResults(stocks, dfList, dateRange)
  {
    ghost var outcomes := AssetOutcomes(|stocks|, dfList, dateRange);
    ghost var ms: seq<Option<NavMetrics>> := [];
    var results: map<string, Option<NavMetrics>> := map[];
    for i := 0 to |stocks|
      invariant |ms| == i
      invariant Collect(outcomes[..i]) == Ok(ms)
      invariant results == Assigned(stocks[..i], ms)
    {
      var df := dfList[i];
      df := RestrictToDates(df, dateRange);
      var metrics := CalculateNavMetrics(Some(df));
      if metrics.Err? {
        AssetStop(stocks, dfList, dateRange, i);
        return Err(metrics.error);
      }
      assert outcomes[i] == metrics;
      FillStep(stocks, outcomes, i, ms);
      results := results[stocks[i] := metrics.value];
      ms := ms + [metrics.value];
    }
    assert stocks[..|stocks|] == stocks && outcomes[..|stocks|] == outcomes;
    return Ok(results);
  }

  /** The body of the nested loops for one approach and prediction mode. */
  method AnalyzeRun(portfolioNum: int, approach: string, predict: bool, fs: map<string, Frame>)
    returns (r: Result<Report, PyError>)
    ensures r == RunOnce(portfolioNum, approach, predict, fs)
  {
    var subfolder := if predict then "non_lagged" else "lagged";
    if approach == "full_swing" {
      subfolder := "fs_" + subfolder;
    }
    var basePath := "data/rl/portfolio" + IntToString(portfolioNum + 1) + "/" + subfolder;
    var ds := GetAlgoDataset(portfolioNum, fs);
    if ds.Err? {
      return Err(ds.error);
    }
    LoadedDatasetShape(portfolioNum, fs);
    var results := FillAssetResults(ds.value.stocks, ds.value.dfList, ds.value.dateRange);
    if results.Err? {
      return Err(results.error);
    }
    var rlNavPath := basePath + "/daily_nav.csv";
    assert rlNavPath == RlNavPath(portfolioNum, Subfolder(approach, predict));
    var rlNav := ReadNavFile(rlNavPath, fs);
    var rl := CalculateNavMetrics(rlNav);
    if rl.Err? {
      return Err(rl.error);
    }
    return Ok(Report(approach, predict, results.value[Strategy := rl.value]));
  }

  /** Run 2a + p of the nested loops is approach a with prediction mode p. */
  lemma RunOutcomeAt(portfolioNum: int, fs: map<string, Frame>, a: nat, p: nat)
    requires a < |Approaches| && p < |PredictionModes|
    ensures 2 * a + p < |RunModes|
    ensures RunOutcomes(portfolioNum, RunModes, fs)[2 * a + p]
            == RunOnce(portfolioNum, Approaches[a], PredictionModes[p], fs)
  {
    ModeAt(a, p);
  }

  lemma ModeAt(a: nat, p: nat)
    requires a < |Approaches| && p < |PredictionModes|
    ensures 2 * a + p < |RunModes| && RunModes[2 * a + p] == (Approaches[a], PredictionModes[p])
  {
  }

  /** The inner loop over the prediction modes of approach a, continuing the
      tables printed for the approaches before it. */
  method AnalyzeApproach(portfolioNum: int, fs: map<string, Frame>, a: nat, printed: seq<Report>)
    returns (r: Partial<Report, PyError>)
    requires a < |Approaches|
    requires RunUntilRaise(RunOutcomes(portfolioNum, RunModes, fs)[..2 * a]) == Partial(printed, None)
    ensures r.raised.None? ==> RunUntilRaise(RunOutcomes(portfolioNum, RunModes, fs)[..2 * a + 2]) == r
    ensures r.raised.Some? ==> r == Analysis(portfolioNum, fs)
  {
    ghost var outcomes := RunOutcomes(portfolioNum, RunModes, fs);
    var approach := Approaches[a];
    var predictionModes := PredictionModes;
    var tables := printed;
    for p := 0 to |predictionModes|
      invariant RunUntilRaise(outcomes[..2 * a + p]) == Partial(tables, None)
    {
      var predict := predictionModes[p];
      ghost var k := 2 * a + p;
      RunOutcomeAt(portfolioNum, fs, a, p);
      var report := AnalyzeRun(portfolioNum, approach, predict, fs);
      if report.Err? {
        RunUntilRaiseStop(outcomes, k, tables);
        return Partial(tables, Some(report.error));
      }
      RunUntilRaiseStep(outcomes, k, tables);
      tables := tables + [report.value];
    }
    return Partial(tables, None);
  }

  /** `analyze_portfolio_performance(portfolio_num)`: the tables it prints,
      and the exception that ends it, if one does. */
  method AnalyzePortfolioPerformance(portfolioNum: int, fs: map<string, Frame>)
    returns (r: Partial<Report, PyError>)
    ensures r == Analysis(portfolioNum, fs)
  {
    ghost var outcomes := RunOutcomes(portfolioNum, RunModes, fs);
    var approaches := Approaches;
    var printed: seq<Report> := [];
    assert outcomes[..0] == [];
    for a := 0 to |approaches|
      invariant RunUntilRaise(outcomes[..2 * a]) == Partial(printed, None)
    {
      var tables := AnalyzeApproach(portfolioNum, fs, a, printed);
      if tables.raised.Some? {
        return tables;
      }
      printed := tables.done;
    }
    assert outcomes[..4] == outcomes;
    return Partial(printed, None);
  }
}
