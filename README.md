# Portfolio performance analysis, modelled in Dafny

This project models the core of a portfolio performance report. For one
portfolio of three assets, the program:

- loads each asset's price history and drops the rows whose `Close` is not
  positive;
- aligns the assets on the dates they all share (`remove_uncommon_dates`);
- computes each asset's total return and maximum drawdown over those dates
  (`calculate_nav_metrics`);
- does the same for the net asset value (NAV) series of a reinforcement-learning
  ("RL") strategy;
- repeats this once per trading approach (`gradual`, `full_swing`) and per
  prediction mode (without, with), in that nested-loop order
  (`analyze_portfolio_performance`).

Modules:

- `Results`: `Option`/`Result`; `Collect`, the "first exception stops the
  loop" fold; and `RunUntilRaise`, the same fold keeping the values of the
  steps completed before the exception.
- `Seqs`: `Filter`, the order-preserving selection behind pandas boolean-mask
  indexing and `dropna`.
- `Frames`: a DataFrame as rows with a date and named real values, and the
  Python exceptions that can escape (`KeyError`, `IndexError`, a missing file,
  and the `ValueError` of `np.corrcoef` on series of different lengths).
- `AlgoDataset`: `util/algo_dataset.py`.
- `NavSeries`: the whole-series columns of `calculate_nav_metrics` (period
  return, cumulative return, running peak, drawdown) over exact reals. A NaN,
  or an infinity from a zero divisor, is `None`.
- `PerformanceAnalysis`: the value-column lookup, the metrics record, the
  run-folder and NAV paths, the date restriction and the nested loops.

The file system is a map from path to the frame `pd.read_csv` would parse from
that path. A missing asset file raises `FileNotFound`; a missing strategy NAV
file makes `read_nav_file` return `None`, as the source's `try`/`except` does.
Loops in the source (`remove_uncommon_dates`, the asset loading loop, the asset
loop and the nested approach/mode loops) are methods with loop invariants. Each
is proved equal to a function, and the properties are proved about that function.

Behaviour of the code worth noting:

- An empty frame (for example an asset with no common date) raises `IndexError`
  at `iloc[-1]`; it does not yield NaN metrics.
- Any exception raised while analysing one run ends the whole analysis. Nothing
  catches it per asset or per run. The tables of the runs before it have
  already been printed, so the analysis is modelled as those tables plus the
  exception (`Analysis`, `AnalysisKeepsEarlierTables`).
- A value column with a 0 right after a 0 makes `calculate_nav_metrics` raise
  ValueError: the 0/0 return is NaN and `dropna` removes it, so the correlation
  is asked to pair series of different lengths (`DropNaLengthMatches`).
- A negative portfolio number is accepted: Python indexes the portfolio list
  from the end. The strategy NAV path, however, is built from `portfolio_num+1`.
  So with -1 the assets come from `portfolio3` while the NAV is read from
  `portfolio0` (`NegativePortfolioFolders`). The program only ever runs 0, 1
  and 2, where the two folders agree (`BasePathMatchesAssetFolder`).

## Model

| member | source | states |
|---|---|---|
| AlgoDataset.RemoveUncommonDates | util/algo_dataset.py:62-72 | the nested loop returns exactly `CommonDates` of the frames' Date columns |
| AlgoDataset.MissesZeroIffInAll | util/algo_dataset.py:65-70 | the counter `empty` ends at 0 exactly when every frame has a row with that date |
| AlgoDataset.Misses | util/algo_dataset.py:65-69 | the count of frames without a row on the date is at most the number of frames; `MissesZeroIffInAll` states when it is 0 |
| AlgoDataset.CommonDates | util/algo_dataset.py:62-72 | a date is in the result if and only if every frame has it |
| AlgoDataset.CommonDatesIsSubsequence | util/algo_dataset.py:64-71 | the result keeps the first frame's dates in their order, and is no longer than them |
| AlgoDataset.CommonDatesComplete | util/algo_dataset.py:62-72 | each common date occurs as often as in the first frame, every other date not at all; with no common date the result is empty |
| AlgoDataset.CommonDatesOfOne | util/algo_dataset.py:62-72 | a single frame gets all its dates back |
| AlgoDataset.CommonDatesIgnoresOrderOfOthers | util/algo_dataset.py:66-69 | only which frames follow the first matters, not their order or repetition |
| AlgoDataset.CommonDatesSameSet | util/algo_dataset.py:62-72 | any reordering of the frames, the first included, gives the same set of dates |
| AlgoDataset.CommonDatesIdempotent | util/algo_dataset.py:62-72 | restricting every frame to the common dates and aligning again gives the same dates |
| AlgoDataset.CommonDatesExample | util/algo_dataset.py:62-72 | dates {1,2,3}, {2,3,4}, {2,3} align to [2,3] |
| AlgoDataset.PyIndex | util/algo_dataset.py:14 | Python list indexing: defined exactly for -len <= n < len, negative indices counting from the end |
| AlgoDataset.StocksOf | util/algo_dataset.py:20-47 | three assets exactly for the three portfolio folders, none for any other folder; `StocksOfPortfolio` states that they are distinct and not the strategy |
| AlgoDataset.PositiveCloseRows | util/algo_dataset.py:24 | KeyError('Close') exactly when there is no Close column; otherwise the same columns and exactly the rows with a positive Close |
| AlgoDataset.PositiveCloseRowsInOrder | util/algo_dataset.py:24 | the filter keeps row order, every occurrence of a kept row, and date order |
| AlgoDataset.LoadAsset | util/algo_dataset.py:23-24 | an error exactly when the asset file is missing or has no Close column, and then FileNotFound of that path or KeyError('Close') |
| AlgoDataset.LoadAll | util/algo_dataset.py:22-26 | all frames load exactly when every asset loads; one frame per asset, in order; errors are a missing file or KeyError('Close') |
| AlgoDataset.LoadAllFirstFailure | util/algo_dataset.py:22-26 | the error raised is that of the first asset that fails |
| AlgoDataset.LoadFrames | util/algo_dataset.py:22-26 | the loading loop returns `LoadAll` |
| AlgoDataset.GetAlgoDataset | util/algo_dataset.py:9-59 | the three-branch loader returns `LoadedDataset` (frames, common dates, stocks, or the exception) |
| AlgoDataset.LoadedDataset | util/algo_dataset.py:9-59 | a successful load has three stocks and three frames; the only errors are IndexError, a missing file and KeyError('Close'); `LoadedDatasetShape` and `LoadedDatasetIndexError` state the rest |
| AlgoDataset.StocksOfPortfolio | util/algo_dataset.py:20-47 | each portfolio has three distinct assets, none named "RL Strategy" |
| AlgoDataset.LoadedDatasetIndexError | util/algo_dataset.py:13-14 | the loader raises IndexError exactly for numbers outside -3..2 |
| AlgoDataset.LoadedDatasetShape | util/algo_dataset.py:9-59 | a successful load has the portfolio's three stocks, one Close-filtered frame each, and their common dates |
| Frames.SelectRows | performance_analysis.py:87 | a boolean mask keeps the columns and exactly the rows that pass |
| Frames.SelectRowsKeepsSorted | performance_analysis.py:87-88 | selecting rows keeps a date-sorted frame sorted |
| Frames.DatesOfSelectDateIsIn | performance_analysis.py:87 | the dates of the rows selected by `isin(range)` are the frame's dates filtered by `range` |
| NavSeries.MaxOfDefined | performance_analysis.py:34 | `max()` skipping NaN: undefined exactly when all entries are, else one of the entries and at least every defined one |
| NavSeries.PctChange | performance_analysis.py:28 | its contract gives only the length and an undefined first return; `PctChangeDefined` states the values |
| NavSeries.OnePlus | performance_analysis.py:32 | its contract gives only the length; `CumulativeTelescopes` states the product it feeds |
| NavSeries.CumProd | performance_analysis.py:32 | its contract gives only the length; `CumulativeTelescopes` states its value on the period returns |
| NavSeries.CumulativeReturn | performance_analysis.py:32 | its contract gives only the length and an undefined first entry; `CumulativeAt` and `CumulativeTelescopes` state the values |
| NavSeries.CumMax | performance_analysis.py:33 | its contract gives only the length; `PeakOf` and `PeakAt` state the running peak |
| NavSeries.DrawdownOf | performance_analysis.py:33 | its contract gives only the length; `DrawdownBounds` and `ExampleDrawdowns` state the values |
| NavSeries.Drawdown | performance_analysis.py:32-33 | its contract gives only the length and an undefined first entry; `DrawdownAt` and `DrawdownBounds` state the values |
| NavSeries.TotalReturn | performance_analysis.py:29 | defined exactly when the first value is not 0, and 0 for a single non-zero value; `TotalReturnIsLastCumulative` states its value |
| NavSeries.MaxDrawdownOf | performance_analysis.py:34 | undefined exactly when every drawdown is; otherwise at least 100 times each defined drawdown; `LargestOfDrawdowns` states that it is one of them |
| NavSeries.MaxDrawdown | performance_analysis.py:33-34 | undefined below two values; `MaxDrawdownBounds` states its value |
| NavSeries.DefinedReturns | performance_analysis.py:42 | `dropna` keeps only defined returns and no more than there are values; `CorrelationPairing` states which remain |
| NavSeries.DropNaLength | performance_analysis.py:42 | fewer returns remain than there are values; `DropNaLengthMatches` states when it equals the length of `Drawdown.iloc[1:]` |
| NavSeries.PctChangeDefined | performance_analysis.py:28 | with no zero value, only the first period return is undefined, the others are v[t]/v[t-1]-1, and `dropna` leaves n-1 |
| NavSeries.CorrelationPairing | performance_analysis.py:42 | the dropped-NaN returns are entries 1..n-1 of the return column, as long as `Drawdown.iloc[1:]` |
| NavSeries.CumulativeAt | performance_analysis.py:32 | the cumulative return at t >= 1 is v[t]/v[0] |
| NavSeries.CumulativeTelescopes | performance_analysis.py:32 | the cumulative return is undefined at 0 and v[t]/v[0] after |
| NavSeries.TotalReturnIsLastCumulative | performance_analysis.py:29-32 | the total return is the last cumulative return less 1, in percent |
| NavSeries.PctChangeScaleInvariant | performance_analysis.py:28 | scaling every value by k != 0 changes no period return |
| NavSeries.ScaleInvariant | performance_analysis.py:32-34 | scaling by k != 0 changes neither the cumulative return, the drawdown nor the maximum drawdown |
| NavSeries.TotalReturnScaleInvariant | performance_analysis.py:29 | scaling by k != 0 leaves the total return unchanged |
| NavSeries.PeakOf | performance_analysis.py:33 | the running peak at a defined entry is one of the entries so far and at least each of them |
| NavSeries.PeakAt | performance_analysis.py:33 | for positive values the running peak at t is the largest v[i]/v[0] with 1 <= i <= t |
| NavSeries.DrawdownFirst | performance_analysis.py:32-33 | the first cumulative return and drawdown are undefined |
| NavSeries.DrawdownAt | performance_analysis.py:33 | for positive values the drawdown at t >= 1 is in [0,1), and 0 exactly at a running peak |
| NavSeries.DrawdownBounds | performance_analysis.py:33 | the same for every t, with index 0 undefined |
| NavSeries.NonDecreasingNoDrawdown | performance_analysis.py:33-34 | a non-decreasing positive series has drawdown 0 everywhere after 0 and maximum drawdown 0 |
| NavSeries.ConstantSeries | performance_analysis.py:28-34 | a constant positive series has period returns, total return and maximum drawdown 0 |
| NavSeries.LargestOfDrawdowns | performance_analysis.py:34 | drawdowns defined after index 0 and in [0,1) have a defined maximum in [0,1) that is one of them and bounds them all |
| NavSeries.MaxDrawdownBounds | performance_analysis.py:33-34 | for positive values the maximum drawdown is undefined below two values, else 100 times the largest drawdown, in [0,1) |
| NavSeries.ExampleDrawdowns | performance_analysis.py:33 | cumulative returns 1.1, 0.99, 1.21 give drawdowns 0, 0.1, 0 |
| NavSeries.ExampleMetrics | performance_analysis.py:28-34 | values 100, 110, 99, 121: total return 21%, drawdowns 0, 0.1, 0, maximum drawdown 10% |
| PerformanceAnalysis.ReadNavFile | performance_analysis.py:9-16 | the parsed frame when the file exists, `None` otherwise |
| PerformanceAnalysis.FirstPresent | performance_analysis.py:24-25 | the first listed name that is a column, or none when no name is |
| PerformanceAnalysis.ValueColumn | performance_analysis.py:24-25 | KeyError('NAV') exactly when none of Net, Close, NAV is a column |
| PerformanceAnalysis.ValueColumnIsFirstPresent | performance_analysis.py:24-25 | the value column is the first of Net, Close, NAV the frame has |
| PerformanceAnalysis.MetricsOf | performance_analysis.py:44-49 | the total return is defined exactly when the first value is not 0; a single value has an undefined maximum drawdown and, if not 0, total return 0; `MetricsOfPositive` states both values for positive series |
| NavSeries.DropNaLengthMatches | performance_analysis.py:28-42 | `dropna` leaves at most n-1 returns, and exactly as many as `Drawdown.iloc[1:]` has entries if and only if no 0 follows a 0 |
| PerformanceAnalysis.CalculateNavMetrics | performance_analysis.py:18-49 | no frame gives None; an error exactly for a frame without a value column (KeyError), with no rows (IndexError), or whose value column has a 0 after a 0 (ValueError); otherwise the metrics of the value column |
| PerformanceAnalysis.MetricsOfPositive | performance_analysis.py:29-34 | for two or more positive values: total return (last/first - 1)·100, maximum drawdown 100 times the largest drawdown, in [0,100) |
| PerformanceAnalysis.MetricsScaleInvariant | performance_analysis.py:28-34 | scaling the values by k != 0 changes neither metric |
| PerformanceAnalysis.IntToString | performance_analysis.py:76 | the decimal text of an integer: a minus sign exactly for negatives, digits after it |
| PerformanceAnalysis.DigitsValueOfNatToString | performance_analysis.py:76 | reading the digits back gives the number |
| PerformanceAnalysis.IntToStringInjective | performance_analysis.py:76 | different portfolio numbers give different folder names |
| PerformanceAnalysis.Subfolder | performance_analysis.py:72-74 | the run folder's length: 3 more for full swing, 10 or 6 for with or without prediction |
| PerformanceAnalysis.SubfolderInjective | performance_analysis.py:72-74 | two runs share a folder exactly when both or neither are full swing and their prediction modes agree |
| PerformanceAnalysis.BasePath | performance_analysis.py:76 | begins with "data/rl/portfolio" and is longer than that plus the run folder; `BasePathMatchesAssetFolder` and `NegativePortfolioFolders` give it in full |
| PerformanceAnalysis.RlNavPath | performance_analysis.py:97 | ends with "/daily_nav.csv"; `RlNavPathInjective` states that it determines the portfolio and the run |
| PerformanceAnalysis.RlNavPathInjective | performance_analysis.py:97 | the NAV path determines both the portfolio number and the run folder |
| PerformanceAnalysis.RunNavPathsDistinct | performance_analysis.py:69-97 | the four runs of a portfolio read four different NAV files |
| PerformanceAnalysis.BasePathMatchesAssetFolder | performance_analysis.py:76 | for portfolios 0..2 the run folder lies in the folder the assets are loaded from |
| PerformanceAnalysis.NegativePortfolioFolders | performance_analysis.py:76 | with -1 the assets are portfolio3's but the NAV path is under portfolio0 |
| PerformanceAnalysis.RestrictToDates | performance_analysis.py:87 | the same columns and exactly the rows dated in the range; `RestrictToDatesKeeps` adds their order |
| PerformanceAnalysis.RestrictToDatesKeeps | performance_analysis.py:87 | the restriction keeps the columns and exactly the rows dated in the range, in order, and keeps a sorted frame sorted |
| PerformanceAnalysis.AlignedFramesShareDates | performance_analysis.py:85-89 | with date-sorted frames every restricted frame has exactly the common dates, in order, so the sort changes nothing |
| PerformanceAnalysis.Assigned | performance_analysis.py:89 | the dictionary after the assignments has the assigned keys, each holding its last assigned value |
| PerformanceAnalysis.AssetMetrics | performance_analysis.py:86-89 | an asset that is measured always gets metrics, never None; an error is IndexError, KeyError('NAV') or ValueError |
| PerformanceAnalysis.AssetOutcomes | performance_analysis.py:85-89 | one outcome per stock; a stock with no frame at its position raises IndexError at `df_list[i]` |
| PerformanceAnalysis.AssetResults | performance_analysis.py:85-89 | more stocks than frames raises; a result has exactly the stocks as keys; `AssetResultsSpec` states the entries |
| PerformanceAnalysis.AssetResultsSpec | performance_analysis.py:85-89 | the asset entries exist exactly when every stock has a frame that can be measured; each stock then holds its own restricted frame's metrics; an error is IndexError, KeyError('NAV') or ValueError |
| PerformanceAnalysis.FillAssetResults | performance_analysis.py:85-89 | the asset loop returns `AssetResults` |
| PerformanceAnalysis.AssetEntries | performance_analysis.py:85-99 | with the strategy's row added: one key per stock plus "RL Strategy", each stock holding its own metrics |
| PerformanceAnalysis.RunOnce | performance_analysis.py:72-99 | a table carries its run's approach and prediction mode and has a strategy row; `RunOnceShape` states the rows |
| PerformanceAnalysis.RunOnceShape | performance_analysis.py:72-99 | a table exists only for a number in -3..2; it has one row per asset with that asset's restricted metrics, and a strategy row with the metrics of this run's NAV file |
| PerformanceAnalysis.AnalyzeRun | performance_analysis.py:72-99 | one iteration of the nested loops returns `RunOnce` |
| PerformanceAnalysis.AnalysisDatasetError | performance_analysis.py:82 | a failed dataset load ends the analysis with that exception, before any table |
| PerformanceAnalysis.Analysis | performance_analysis.py:69-104 | at most four tables, and four exactly when nothing is raised; `AnalysisRuns` states which |
| PerformanceAnalysis.AnalysisRuns | performance_analysis.py:69-104 | the printed tables are the runs before the first failing one, in loop order; all four exactly when none fails; the exception is the failing run's |
| PerformanceAnalysis.AnalysisKeepsEarlierTables | performance_analysis.py:69-104 | when run k fails after the runs before it complete, their k tables are printed and run k's exception is raised |
| PerformanceAnalysis.TablesAgree | performance_analysis.py:79-99 | two runs on the same portfolio have the same keys and the same asset entries |
| PerformanceAnalysis.AnalysisShape | performance_analysis.py:69-104 | the printed tables come in loop order, share keys and asset entries, and differ only in the strategy row read from each run's own NAV file |
| PerformanceAnalysis.AnalyzeApproach | performance_analysis.py:70-104 | the inner loop over the prediction modes extends the printed tables, or returns the analysis: the tables printed so far and the exception |
| PerformanceAnalysis.AnalyzePortfolioPerformance | performance_analysis.py:63-104 | the nested loops return `Analysis`: the tables printed, in loop order, and the first exception if there is one |
| Results.RunUntilRaise | performance_analysis.py:69-104 | the completed steps' values in order, and the error of the first failing step, which follows them |
| Results.CollectIsRunUntilRaise | performance_analysis.py:69-104 | `Collect` is `RunUntilRaise` without the values completed before an error |

## Left out

- Sharpe ratio and return–drawdown correlation values: they need the mean,
  standard deviation, square root and Pearson correlation of floating-point
  series. Only the pairing of the two correlated columns is modelled
  (`CorrelationPairing`).
- IEEE floating point: values are exact reals, and rounding is not modelled.
  NaN and infinities are both `None`; they are told apart only for the
  ValueError (`DropNaLength`).
- NavSeries.MaxDrawdown: a value column with a 0 followed by a non-zero value
  (for example 0, 1, 2, 1) gets an infinite period return in pandas. `cumprod`
  and `cummax` keep the infinity, so every later drawdown is NaN and the
  reported maximum drawdown can be NaN. The model skips that return like a
  NaN and can report a defined maximum drawdown (50% for 0, 1, 2, 1). The
  lemmas that state the metrics of a series (`CumulativeTelescopes`,
  `DrawdownBounds`, `MetricsOfPositive`) assume non-zero or positive values,
  where the two agree.
- `pd.read_csv` parsing and `parse_dates`: a file is the frame it parses to.
  Dates are day numbers, and only their equality and order are used.
- `indicators.day_gain` (the `returns` column) and `util.get_trend_list`
  (`trend_list`): foreign code, and neither value reaches the reported metrics.
- `sort_values('Date')`: not modelled as a step. An asset file whose dates are
  not in increasing order is measured in file order, where the program
  measures it sorted. `AlignedFramesShareDates` shows the sort changes nothing
  when each asset's dates are strictly increasing.
- The columns `calculate_nav_metrics` adds to its argument (`Net`,
  `Daily Return`, `Cumulative Return`, `Drawdown`): they are computed as values
  and not written back into the frame. No caller reads them afterwards.
- Results as a dictionary: the model uses a `map`, so the insertion order that
  fixes the printed row order is not kept.
- Printing: the error message of `read_nav_file`, the table title and
  `print_performance_table`. Their formatting is output only.
- The module-level loop over portfolios 0, 1, 2 and the command-line imports.
- `rl_visual.py`: not part of this model.
- AlgoDataset.RemoveUncommonDates: requires at least one frame. Python raises
  IndexError on an empty list, but no caller passes one.
