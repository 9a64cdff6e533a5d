/** The tables the analysis works on: a pandas DataFrame read from one CSV
    file, with its parsed `Date` column and its numeric columns. */
module Frames {
  import opened Seqs

  /** A calendar day, as a day number: only equality and order of dates matter. */
  type Date = int

  /** One row: its date and its value in each numeric column. */
  datatype Row = Row(date: Date, values: map<string, real>)

  datatype Table = Table(columns: set<string>, rows: seq<Row>)

  /** Every row has a value in exactly the table's columns. */
  predicate WellFormed(t: Table)
  {
    forall r :: r in t.rows ==> r.values.Keys == t.columns
  }

  type Frame = t: Table | WellFormed(t) witness Table({}, [])

  /** The Python exceptions that can escape the analysed code; ValueError is
      what `np.corrcoef` raises for two series of different lengths. */
  datatype PyError = KeyError(key: string) | IndexError | FileNotFound(path: string) | ValueError

  /** The `Date` column. */
  function DatesOf(rows: seq<Row>): (ds: seq<Date>)
    ensures |ds| == |rows|
    ensures forall i :: 0 <= i < |rows| ==> ds[i] == rows[i].date
  {
    seq(|rows|, i requires 0 <= i < |rows| => rows[i].date)
  }

  /** The values of one column, row by row (`df[name]`). */
  function Column(f: Frame, name: string): (vs: seq<real>)
    requires name in f.columns
    ensures |vs| == |f.rows|
    ensures forall i :: 0 <= i < |f.rows| ==> vs[i] == f.rows[i].values[name]
  {
    seq(|f.rows|, i requires 0 <= i < |f.rows| => assert f.rows[i] in f.rows; f.rows[i].values[name])
  }

  /** Rows in strictly increasing date order, so no date repeats. */
  predicate SortedByDate(f: Table)
  {
    StrictlyIncreasing(DatesOf(f.rows))
  }

  /** Boolean-mask row selection `df[mask]` where the mask is `keep` applied
      to each row: the same columns, the rows that pass, in their order. */
  function SelectRows(f: Frame, keep: Row -> bool): (g: Frame)
    ensures g.columns == f.columns
    ensures forall r :: r in g.rows <==> r in f.rows && keep(r)
  {
    Table(f.columns, Filter(f.rows, keep))
  }

  /** Selecting rows never breaks date order. */
  lemma SelectRowsKeepsSorted(f: Frame, keep: Row -> bool)
    requires SortedByDate(f)
    ensures SortedByDate(SelectRows(f, keep))
  {
    FilterSelectsKeptPositions(f.rows, keep);
  }

  /** `d in range`, as a test on dates (pandas `isin`). */
  function IsIn(range: seq<Date>): Date -> bool
  {
    (d: Date) => d in range
  }

  /** `df['Date'].isin(range)`, as a test on rows. */
  function DateIsIn(range: seq<Date>): Row -> bool
  {
    (r: Row) => r.date in range
  }

  /** Selecting the rows dated in `range` selects, from the Date column,
      exactly the dates in `range`. */
  lemma {:induction false} DatesOfSelectDateIsIn(rows: seq<Row>, range: seq<Date>)
    ensures DatesOf(Filter(rows, DateIsIn(range))) == Filter(DatesOf(rows), IsIn(range))
    decreases |rows|
  {
    if |rows| > 0 {
      var n := |rows| - 1;
      var p, last := rows[..n], rows[n];
      DatesOfSelectDateIsIn(p, range);
      FilterSnoc(rows, DateIsIn(range));
      DatesOfPrefix(rows, n);
      FilterSnoc(DatesOf(rows), IsIn(range));
      var kept, keptDates := Filter(p, DateIsIn(range)), Filter(DatesOf(p), IsIn(range));
      if last.date in range {
        DatesOfAppend(kept, [last]);
        assert DatesOf([last]) == [last.date];
        assert DatesOf(kept + [last]) == keptDates + [last.date];
      } else {
        assert DatesOf(kept + []) == keptDates + [];
      }
    }
  }

  lemma DatesOfPrefix(rows: seq<Row>, n: nat)
    requires n < |rows|
    ensures DatesOf(rows)[..n] == DatesOf(rows[..n])
  {
  }

  /** Filter, unfolded at the last element. */
  lemma FilterSnoc<T(!new)>(s: seq<T>, keep: T -> bool)
    requires |s| > 0
    ensures Filter(s, keep) == Filter(s[..|s| - 1], keep) + (if keep(s[|s| - 1]) then [s[|s| - 1]] else [])
  {
  }

  lemma DatesOfAppend(a: seq<Row>, b: seq<Row>)
    ensures DatesOf(a + b) == DatesOf(a) + DatesOf(b)
  {
  }
}
