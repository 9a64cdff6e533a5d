/** util/algo_dataset.py: loading a portfolio's asset frames and the dates
    they all share. */
module AlgoDataset {
  import opened Results
  import opened Seqs
  import opened Frames

  // ---------------------------------------------------------------------
  // remove_uncommon_dates
  // ---------------------------------------------------------------------

  /** Every series has at least one row dated `d`. */
  predicate InAll(d: Date, series: seq<seq<Date>>)
  {
    forall j :: 0 <= j < |series| ==> d in series[j]
  }

  /** `InAll` as a test on dates, to hand to Filter. */
  function IsCommon(series: seq<seq<Date>>): Date -> bool
  {
    (d: Date) => InAll(d, series)
  }

  /** How many series have no row dated `d`: the counter `empty`. */
  function Misses(d: Date, series: seq<seq<Date>>): (m: nat)
    ensures m <= |series|
    decreases |series|
  {
    if |series| == 0 then 0
    else Misses(d, series[..|series| - 1]) + (if d in series[|series| - 1] then 0 else 1)
  }

  /** The counter stays at zero exactly when no series misses the date. */
  lemma {:induction false} MissesZeroIffInAll(d: Date, series: seq<seq<Date>>)
    ensures Misses(d, series) == 0 <==> InAll(d, series)
    decreases |series|
  {
    if |series| > 0 {
      var p := series[..|series| - 1];
      MissesZeroIffInAll(d, p);
      assert forall j :: 0 <= j < |p| ==> p[j] == series[j];
    }
  }

  /** The dates of the first series, in order and with their repetitions,
      that every series has. */
  function CommonDates(series: seq<seq<Date>>): (r: seq<Date>)
    requires |series| > 0
    ensures forall d :: d in r <==> InAll(d, series)
  {
    Filter(series[0], IsCommon(series))
  }

  /** `remove_uncommon_dates(df_list)`, on the Date column of each frame. */
  method RemoveUncommonDates(dfList: seq<seq<Date>>) returns (dateRange: seq<Date>)
    requires |dfList| > 0
    ensures dateRange == CommonDates(dfList)
  {
    dateRange := [];
    var first := dfList[0];
    for i := 0 to |first|
      invariant dateRange == Filter(first[..i], IsCommon(dfList))
    {
      var date := first[i];
      var empty := 0;
      for k := 0 to |dfList|
        invariant empty == Misses(date, dfList[..k])
      {
        var tempDf := Filter(dfList[k], (x: Date) => x == date);
        assert |tempDf| == 0 <==> date !in dfList[k] by {
          assert date in dfList[k] ==> date in tempDf;
          assert |tempDf| > 0 ==> tempDf[0] in tempDf;
        }
        if |tempDf| == 0 {
          empty := empty + 1;
        }
        assert dfList[..k + 1][..k] == dfList[..k];
      }
      assert dfList[..|dfList|] == dfList;
      MissesZeroIffInAll(date, dfList);
      if empty == 0 {
        dateRange := dateRange + [date];
      }
      assert first[..i + 1][..i] == first[..i];
    }
    assert first[..|first|] == first;
  }

  /** Order: the result is a subsequence of the first series' dates. */
  lemma CommonDatesIsSubsequence(series: seq<seq<Date>>)
    requires |series| > 0
    ensures IsSubsequence(CommonDates(series), series[0])
    ensures |CommonDates(series)| <= |series[0]|
  {
    FilterIsSubsequence(series[0], IsCommon(series));
  }

  /** Completeness: every occurrence of a common date in the first series is
      kept, and nothing else is; with no common date the result is empty. */
  lemma CommonDatesComplete(series: seq<seq<Date>>)
    requires |series| > 0
    ensures forall d :: multiset(CommonDates(series))[d]
                        == if InAll(d, series) then multiset(series[0])[d] else 0
    ensures (forall d :: d in series[0] ==> !InAll(d, series)) ==> CommonDates(series) == []
  {
    forall d
      ensures multiset(CommonDates(series))[d]
              == if InAll(d, series) then multiset(series[0])[d] else 0
    {
      FilterCount(series[0], IsCommon(series), d);
    }
    var r := CommonDates(series);
    assert |r| > 0 ==> r[0] in r;
  }

  /** A single series is aligned with itself: all its dates come back. */
  lemma CommonDatesOfOne(s: seq<Date>)
    ensures CommonDates([s]) == s
  {
    FilterKeepsAll(s, IsCommon([s]));
  }

  /** Only which series follow the first matters, not their order or how
      often each is listed. */
  lemma CommonDatesIgnoresOrderOfOthers(a: seq<seq<Date>>, b: seq<seq<Date>>)
    requires |a| > 0 && |b| > 0 && a[0] == b[0]
    requires forall s :: s in a[1..] <==> s in b[1..]
    ensures CommonDates(a) == CommonDates(b)
  {
    assert a == [a[0]] + a[1..] && b == [b[0]] + b[1..];
    forall d
      ensures InAll(d, a) == InAll(d, b)
    {
      SameSeriesSameCommon(d, a, b);
    }
    FilterCongruent(a[0], IsCommon(a), IsCommon(b));
  }

  /** Any reordering of the series, the first included, aligns to the same
      set of dates (the order of the result follows the first series). */
  lemma CommonDatesSameSet(a: seq<seq<Date>>, b: seq<seq<Date>>)
    requires |a| > 0 && |b| > 0
    requires multiset(a) == multiset(b)
    ensures forall d :: d in CommonDates(a) <==> d in CommonDates(b)
  {
    forall d
      ensures InAll(d, a) == InAll(d, b)
    {
      forall s ensures s in a <==> s in b {
        assert s in a <==> s in multiset(a);
        assert s in b <==> s in multiset(b);
      }
      SameSeriesSameCommon(d, a, b);
    }
  }

  /** InAll depends only on which series are listed. */
  lemma SameSeriesSameCommon(d: Date, a: seq<seq<Date>>, b: seq<seq<Date>>)
    requires forall s :: s in a <==> s in b
    ensures InAll(d, a) == InAll(d, b)
  {
    if InAll(d, a) {
      forall j | 0 <= j < |b| ensures d in b[j] {
        assert b[j] in b;
      }
    }
    if InAll(d, b) {
      forall j | 0 <= j < |a| ensures d in a[j] {
        assert a[j] in a;
      }
    }
  }

  /** Restricting every series to the aligned dates and aligning again gives
      the same dates back. */
  lemma CommonDatesIdempotent(series: seq<seq<Date>>)
    requires |series| > 0
    ensures var r := CommonDates(series);
            CommonDates(seq(|series|, j requires 0 <= j < |series| => Filter(series[j], IsIn(r)))) == r
  {
    var r := CommonDates(series);
    var restricted := seq(|series|, j requires 0 <= j < |series| => Filter(series[j], IsIn(r)));
    // Keeping the dates of r is the same test, on the first series, as being common.
    FilterCongruent(series[0], IsIn(r), IsCommon(series));
    assert restricted[0] == r;
    // Every date of r is in every restricted series.
    forall d | d in r
      ensures InAll(d, restricted)
    {
      forall j | 0 <= j < |restricted| ensures d in restricted[j] {
        assert d in series[j];
      }
    }
    FilterKeepsAll(r, IsCommon(restricted));
  }

  /** Example: dates {1,2,3}, {2,3,4} and {2,3} align to [2,3]. */
  lemma CommonDatesExample()
    ensures CommonDates([[1, 2, 3], [2, 3, 4], [2, 3]]) == [2, 3]
  {
    var series := [[1, 2, 3], [2, 3, 4], [2, 3]];
    assert !InAll(1, series) by { assert 1 !in series[2]; }
    assert InAll(2, series) && InAll(3, series);
    var s := series[0];
    assert s[..2][..1] == [1] && s[..2] == [1, 2] && s[..3][..2] == [1, 2];
    assert Filter([], IsCommon(series)) == [];
    assert Filter([1], IsCommon(series)) == [] by { assert [1][..0] == []; }
  }

  // ---------------------------------------------------------------------
  // get_algo_dataset
  // ---------------------------------------------------------------------

  /** The portfolio folders, in the order `choose_set_num` indexes them. */
  const RunSet: seq<string> := ["portfolio1", "portfolio2", "portfolio3"]

  /** Python's `xs[n]` position for a list of length `len`: a negative `n`
      counts from the end, anything else out of range raises IndexError. */
  function PyIndex(n: int, len: nat): (r: Option<nat>)
    ensures r.Some? <==> -(len as int) <= n < len
    ensures r.Some? ==> r.value < len && r.value % len == n % len
  {
    if 0 <= n < len then Some(n)
    else if -(len as int) <= n < 0 then
      ShiftMod(n, len);
      Some(n + len)
    else None
  }

  lemma ShiftMod(n: int, len: nat)
    requires -(len as int) <= n < 0
    ensures n % len == n + len
    ensures (n + len) % len == n + len
  {
    var q := n / len;
    assert n == q * len + n % len;
    QuotientBounds(q, len);
    assert q == -1;
    assert q * len == -(len as int);
  }

  lemma QuotientBounds(q: int, len: nat)
    ensures q >= 0 ==> q * len >= 0
    ensures q <= -2 ==> q * len <= -2 * len
  {
  }

  /** The assets each portfolio folder holds; no other folder has any. */
  function StocksOf(chooseSet: string): (stocks: seq<string>)
    ensures chooseSet in RunSet <==> |stocks| == 3
    ensures chooseSet !in RunSet ==> stocks == []
  {
    if chooseSet == RunSet[0] then ["AUD", "CAD", "USD"]
    else if chooseSet == RunSet[1] then ["USD", "CNY", "INR"]
    else if chooseSet == RunSet[2] then ["Govt", "ESG", "Shariah"]
    else []
  }

  /** Where an asset's price history is read from. */
  function AssetPath(folder: string, stock: string): string
  {
    "data/rl/" + folder + "/" + stock + ".csv"
  }

  /** A row passes `df['Close'] > 0`. */
  function ClosePositive(): Row -> bool
  {
    (r: Row) => "Close" in r.values && r.values["Close"] > 0.0
  }

  /** `df[df['Close'] > 0]`: a frame without a Close column raises KeyError. */
  function PositiveCloseRows(f: Frame): (r: Result<Frame, PyError>)
    ensures r.Err? <==> "Close" !in f.columns
    ensures r.Err? ==> r.error == KeyError("Close")
    ensures r.Ok? ==> r.value.columns == f.columns
    ensures r.Ok? ==> forall row :: row in r.value.rows <==> row in f.rows && row.values["Close"] > 0.0
  {
    if "Close" !in f.columns then Err(KeyError("Close"))
    else Ok(SelectRows(f, ClosePositive()))
  }

  /** The Close filter keeps every row with a positive Close (each
      occurrence), drops the others, and keeps the rows in order. */
  lemma PositiveCloseRowsInOrder(f: Frame)
    requires "Close" in f.columns
    ensures IsSubsequence(PositiveCloseRows(f).value.rows, f.rows)
    ensures forall row :: row in f.rows && row.values["Close"] > 0.0
                          ==> multiset(PositiveCloseRows(f).value.rows)[row] == multiset(f.rows)[row]
    ensures SortedByDate(f) ==> SortedByDate(PositiveCloseRows(f).value)
  {
    FilterIsSubsequence(f.rows, ClosePositive());
    forall row | row in f.rows && row.values["Close"] > 0.0
      ensures multiset(PositiveCloseRows(f).value.rows)[row] == multiset(f.rows)[row]
    {
      FilterCount(f.rows, ClosePositive(), row);
    }
    if SortedByDate(f) {
      SelectRowsKeepsSorted(f, ClosePositive());
    }
  }

  /** Reading one asset file and dropping its non-positive closes. */
  function LoadAsset(folder: string, stock: string, fs: map<string, Frame>): (r: Result<Frame, PyError>)
    ensures r.Err? <==> AssetPath(folder, stock) !in fs || "Close" !in fs[AssetPath(folder, stock)].columns
    ensures r.Err? ==> r.error == FileNotFound(AssetPath(folder, stock)) || r.error == KeyError("Close")
  {
    var path := AssetPath(folder, stock);
    if path !in fs then Err(FileNotFound(path)) else PositiveCloseRows(fs[path])
  }

  /** Loading the assets in order; the first failure is the one raised. */
  function LoadAll(folder: string, stocks: seq<string>, fs: map<string, Frame>): (r: Result<seq<Frame>, PyError>)
    ensures r.Ok? <==> forall j :: 0 <= j < |stocks| ==> LoadAsset(folder, stocks[j], fs).Ok?
    ensures r.Ok? ==> |r.value| == |stocks|
    ensures r.Err? ==> r.error.FileNotFound? || r.error == KeyError("Close")
    ensures r.Ok? ==> forall j :: 0 <= j < |stocks| ==> r.value[j] == LoadAsset(folder, stocks[j], fs).value
    decreases |stocks|
  {
    if |stocks| == 0 then Ok([])
    else
      var n := |stocks| - 1;
      assert forall j :: 0 <= j < n ==> stocks[..n][j] == stocks[j];
      match LoadAll(folder, stocks[..n], fs)
      case Err(e) => Err(e)
      case Ok(frames) =>
        match LoadAsset(folder, stocks[n], fs)
        case Err(e) => Err(e)
        case Ok(f) => Ok(frames + [f])
  }

  /** On failure, the error raised is that of the first asset that fails. */
  lemma {:induction false} LoadAllFirstFailure(folder: string, stocks: seq<string>, fs: map<string, Frame>, j: nat)
    requires j < |stocks| && LoadAsset(folder, stocks[j], fs).Err?
    requires forall i :: 0 <= i < j ==> LoadAsset(folder, stocks[i], fs).Ok?
    ensures LoadAll(folder, stocks, fs) == Err(LoadAsset(folder, stocks[j], fs).error)
    decreases |stocks|
  {
    var n := |stocks| - 1;
    if j < n {
      assert forall i :: 0 <= i < n ==> stocks[..n][i] == stocks[i];
      LoadAllFirstFailure(folder, stocks[..n], fs, j);
    } else {
      assert forall i :: 0 <= i < n ==> stocks[..n][i] == stocks[i];
    }
  }

  /** The Date column of every frame. */
  function DateColumns(dfList: seq<Frame>): (cols: seq<seq<Date>>)
    ensures |cols| == |dfList|
    ensures forall j :: 0 <= j < |dfList| ==> cols[j] == DatesOf(dfList[j].rows)
  {
    seq(|dfList|, j requires 0 <= j < |dfList| => DatesOf(dfList[j].rows))
  }

  /** What `get_algo_dataset` returns, less the trend list. */
  datatype Dataset = Dataset(dfList: seq<Frame>, dateRange: seq<Date>, stocks: seq<string>)

  /** The dataset `get_algo_dataset(choose_set_num)` returns, or the
      exception it raises. */
  function LoadedDataset(chooseSetNum: int, fs: map<string, Frame>): (r: Result<Dataset, PyError>)
    ensures r.Ok? ==> |r.value.stocks| == |r.value.dfList| == 3
    ensures r.Err? ==> r.error == IndexError || r.error.FileNotFound? || r.error == KeyError("Close")
  {
    match PyIndex(chooseSetNum, |RunSet|)
    case None => Err(IndexError)
    case Some(k) =>
      var stocks := StocksOf(RunSet[k]);
      match LoadAll(RunSet[k], stocks, fs)
      case Err(e) => Err(e)
      case Ok(dfList) =>
        if |dfList| == 0 then Ok(Dataset([], [], []))
        else Ok(Dataset(dfList, CommonDates(DateColumns(dfList)), stocks))
  }

  /** The loop of one branch: read, filter and collect each asset's frame. */
  method LoadFrames(folder: string, stocks: seq<string>, fs: map<string, Frame>) returns (r: Result<seq<Frame>, PyError>)
    ensures r == LoadAll(folder, stocks, fs)
  {
    var dfList: seq<Frame> := [];
    for i := 0 to |stocks|
      invariant LoadAll(folder, stocks[..i], fs) == Ok(dfList)
    {
      assert stocks[..i + 1][..i] == stocks[..i];
      var path := AssetPath(folder, stocks[i]);
      if path !in fs {
        LoadAllFirstFailure(folder, stocks, fs, i);
        return Err(FileNotFound(path));
      }
      var df := PositiveCloseRows(fs[path]);
      assert LoadAsset(folder, stocks[i], fs) == df;
      if df.Err? {
        LoadAllFirstFailure(folder, stocks, fs, i);
        return Err(df.error);
      }
      dfList := dfList + [df.value];
    }
    assert stocks[..|stocks|] == stocks;
    return Ok(dfList);
  }

  /** `get_algo_dataset(choose_set_num)`, less the trend list. */
  method GetAlgoDataset(chooseSetNum: int, fs: map<string, Frame>) returns (r: Result<Dataset, PyError>)
    ensures r == LoadedDataset(chooseSetNum, fs)
  {
    var runSet := RunSet;
    var k := PyIndex(chooseSetNum, |runSet|);
    if k.None? {
      return Err(IndexError);
    }
    var chooseSet := runSet[k.value];
    var dfList: seq<Frame> := [];
    var dateRange: seq<Date> := [];
    var stocks: seq<string> := [];
    if chooseSet == runSet[0] {
      stocks := ["AUD", "CAD", "USD"];
      var loaded := LoadFrames("portfolio1", stocks, fs);
      if loaded.Err? {
        return Err(loaded.error);
      }
      dfList := loaded.value;
      dateRange := RemoveUncommonDates(DateColumns(dfList));
    } else if chooseSet == runSet[1] {
      stocks := ["USD", "CNY", "INR"];
      var loaded := LoadFrames("portfolio2", stocks, fs);
      if loaded.Err? {
        return Err(loaded.error);
      }
      dfList := loaded.value;
      dateRange := RemoveUncommonDates(DateColumns(dfList));
    } else if chooseSet == runSet[2] {
      stocks := ["Govt", "ESG", "Shariah"];
      var loaded := LoadFrames("portfolio3", stocks, fs);
      if loaded.Err? {
        return Err(loaded.error);
      }
      dfList := loaded.value;
      dateRange := RemoveUncommonDates(DateColumns(dfList));
    }
    return Ok(Dataset(dfList, dateRange, stocks));
  }

  /** Each portfolio holds three distinct assets, none named like the
      strategy row the analysis adds. */
  lemma StocksOfPortfolio(k: nat)
    requires k < |RunSet|
    ensures |StocksOf(RunSet[k])| == 3
    ensures forall i, j :: 0 <= i < j < 3 ==> StocksOf(RunSet[k])[i] != StocksOf(RunSet[k])[j]
    ensures "RL Strategy" !in StocksOf(RunSet[k])
  {
    assert RunSet[0] != RunSet[1] && RunSet[0] != RunSet[2] && RunSet[1] != RunSet[2] by {
      assert RunSet[0][9] == '1' && RunSet[1][9] == '2' && RunSet[2][9] == '3';
    }
    var stocks := StocksOf(RunSet[k]);
    if k == 0 {
      assert stocks == ["AUD", "CAD", "USD"];
      assert stocks[0][0] == 'A' && stocks[1][0] == 'C' && stocks[2][0] == 'U';
    } else if k == 1 {
      assert stocks == ["USD", "CNY", "INR"];
      assert stocks[0][0] == 'U' && stocks[1][0] == 'C' && stocks[2][0] == 'I';
    } else {
      assert stocks == ["Govt", "ESG", "Shariah"];
      assert stocks[0][0] == 'G' && stocks[1][0] == 'E' && stocks[2][0] == 'S';
    }
    assert forall s :: s in stocks ==> |s| != |"RL Strategy"|;
  }

  /** Exactly the indices Python rejects raise IndexError. */
  lemma LoadedDatasetIndexError(chooseSetNum: int, fs: map<string, Frame>)
    ensures LoadedDataset(chooseSetNum, fs) == Err(IndexError) <==> !(-3 <= chooseSetNum < 3)
  {
  }

  /** A successful load yields one Close-filtered frame per asset of the
      chosen portfolio, and the dates those frames have in common. */
  lemma LoadedDatasetShape(chooseSetNum: int, fs: map<string, Frame>)
    requires LoadedDataset(chooseSetNum, fs).Ok?
    ensures -3 <= chooseSetNum < 3
    ensures var ds := LoadedDataset(chooseSetNum, fs).value;
      var folder := RunSet[PyIndex(chooseSetNum, 3).value];
      && ds.stocks == StocksOf(folder) && |ds.stocks| == 3 && |ds.dfList| == 3
      && ds.dateRange == CommonDates(DateColumns(ds.dfList))
      && (forall j :: 0 <= j < 3 ==> LoadAsset(folder, ds.stocks[j], fs) == Ok(ds.dfList[j]))
  {
    var k := PyIndex(chooseSetNum, 3).value;
    StocksOfPortfolio(k);
  }
}
