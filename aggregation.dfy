/** The career statistics `create_dashboard` computes from the generated table
    before it lays out the dashboard. */
module Aggregation {
  import opened Profiles
  import opened Generator

  datatype Option<T> = None | Some(value: T)

  /** Sum of the `Runs` column. */
  function TotalRuns(df: seq<Record>): (r: int)
    ensures (forall i :: 0 <= i < |df| ==> df[i].runs >= 0) ==> r >= 0
  {
    if df == [] then 0 else df[0].runs + TotalRuns(df[1..])
  }

  /** Sum of the `Wickets` column. */
  function TotalWickets(df: seq<Record>): (r: int)
    ensures (forall i :: 0 <= i < |df| ==> 0 <= df[i].wickets <= 2) ==> 0 <= r <= 2 * |df|
  {
    if df == [] then 0 else df[0].wickets + TotalWickets(df[1..])
  }

  /** Sum of the `Balls Faced` column. */
  function TotalBalls(df: seq<Record>): (r: int)
    ensures (forall i :: 0 <= i < |df| ==> df[i].ballsFaced >= 0) ==> r >= 0
  {
    if df == [] then 0 else df[0].ballsFaced + TotalBalls(df[1..])
  }

  /** The number of rows with balls faced above zero. */
  function Innings(df: seq<Record>): (n: nat)
    ensures n <= |df|
  {
    if df == [] then 0 else (if df[0].ballsFaced > 0 then 1 else 0) + Innings(df[1..])
  }

  /** The number of rows with runs in [50, 100). */
  function HalfCenturies(df: seq<Record>): (n: nat)
    ensures n <= |df|
  {
    if df == [] then 0 else (if 50 <= df[0].runs < 100 then 1 else 0) + HalfCenturies(df[1..])
  }

  /** The number of rows with at least 100 runs. */
  function Centuries(df: seq<Record>): (n: nat)
    ensures n <= |df|
  {
    if df == [] then 0 else (if df[0].runs >= 100 then 1 else 0) + Centuries(df[1..])
  }

  /** The number of rows with at least 50 runs. */
  function FiftyPlus(df: seq<Record>): (n: nat)
    ensures n <= |df|
  {
    if df == [] then 0 else (if df[0].runs >= 50 then 1 else 0) + FiftyPlus(df[1..])
  }

  /** The maximum of the `Runs` column; none for an empty table. */
  function HighestScore(df: seq<Record>): (r: Option<int>)
    ensures r.None? <==> df == []
    ensures r.Some? ==> forall i :: 0 <= i < |df| ==> df[i].runs <= r.value
    ensures r.Some? ==> exists i :: 0 <= i < |df| && df[i].runs == r.value
  {
    if df == [] then None
    else
      match HighestScore(df[1..])
      case None => Some(df[0].runs)
      case Some(m) =>
        assert forall i :: 1 <= i < |df| ==> df[i] == df[1..][i - 1];
        Some(if df[0].runs >= m then df[0].runs else m)
  }

  /** Total runs per innings with balls faced; zero when there is no such innings. */
  function BattingAverage(df: seq<Record>): (r: real)
    ensures Innings(df) == 0 ==> r == 0.0
    ensures Innings(df) > 0 ==> r * Innings(df) as real == TotalRuns(df) as real
  {
    if Innings(df) > 0 then TotalRuns(df) as real / Innings(df) as real else 0.0
  }

  /** Runs per hundred balls over the whole table; zero when no ball was faced. */
  function StrikeRate(df: seq<Record>): (r: real)
    ensures TotalBalls(df) <= 0 ==> r == 0.0
    ensures TotalBalls(df) > 0 ==> r * TotalBalls(df) as real == 100.0 * TotalRuns(df) as real
  {
    if TotalBalls(df) > 0 then (TotalRuns(df) as real / TotalBalls(df) as real) * 100.0 else 0.0
  }

  /** Half-centuries and centuries are disjoint and together make up every score of fifty or more. */
  lemma {:induction false} FiftiesSplit(df: seq<Record>)
    ensures HalfCenturies(df) + Centuries(df) == FiftyPlus(df)
    ensures HalfCenturies(df) + Centuries(df) <= |df|
  {
    if df != [] {
      FiftiesSplit(df[1..]);
    }
  }

  // ----- Group-by on the year -----

  /** One row of the yearly table: a year with the runs and wickets of its matches. */
  datatype YearRow = YearRow(year: int, totalRuns: int, totalWickets: int)

  /** Rows in strictly ascending year order, so each year has one row. */
  predicate YearsAscending(rows: seq<YearRow>)
  {
    forall i, j :: 0 <= i < j < |rows| ==> rows[i].year < rows[j].year
  }

  /** The years that have a row. */
  function RowYears(rows: seq<YearRow>): set<int>
  {
    if rows == [] then {} else {rows[0].year} + RowYears(rows[1..])
  }

  /** The years that have a match. */
  function MatchYears(df: seq<Record>): set<int>
  {
    if df == [] then {} else {df[0].year} + MatchYears(df[1..])
  }

  /** Runs and wickets over the matches of one year. */
  function RunsInYear(df: seq<Record>, y: int): int
  {
    if df == [] then 0 else (if df[0].year == y then df[0].runs else 0) + RunsInYear(df[1..], y)
  }

  function WicketsInYear(df: seq<Record>, y: int): int
  {
    if df == [] then 0 else (if df[0].year == y then df[0].wickets else 0) + WicketsInYear(df[1..], y)
  }

  /** Runs and wickets over the rows of one year (at most one on ascending rows). */
  function RowRunsInYear(rows: seq<YearRow>, y: int): int
  {
    if rows == [] then 0 else (if rows[0].year == y then rows[0].totalRuns else 0) + RowRunsInYear(rows[1..], y)
  }

  function RowWicketsInYear(rows: seq<YearRow>, y: int): int
  {
    if rows == [] then 0 else (if rows[0].year == y then rows[0].totalWickets else 0) + RowWicketsInYear(rows[1..], y)
  }

  /** The `Total_Runs` and `Total_Wickets` columns summed over all rows. */
  function SumRowRuns(rows: seq<YearRow>): int
  {
    if rows == [] then 0 else rows[0].totalRuns + SumRowRuns(rows[1..])
  }

  function SumRowWickets(rows: seq<YearRow>): int
  {
    if rows == [] then 0 else rows[0].totalWickets + SumRowWickets(rows[1..])
  }

  /** Adds one match to the yearly rows, keeping them in year order: it adds at
      most one row. */
  function AddMatch(rows: seq<YearRow>, r: Record): (out: seq<YearRow>)
    ensures |rows| <= |out| <= |rows| + 1
  {
    if rows == [] then [YearRow(r.year, r.runs, r.wickets)]
    else if r.year < rows[0].year then [YearRow(r.year, r.runs, r.wickets)] + rows
    else if r.year == rows[0].year then
      [YearRow(r.year, rows[0].totalRuns + r.runs, rows[0].totalWickets + r.wickets)] + rows[1..]
    else [rows[0]] + AddMatch(rows[1..], r)
  }

  /** `groupby('Year')` summing runs and wickets, in ascending year order. */
  function YearlyPerf(df: seq<Record>): (rows: seq<YearRow>)
    ensures YearsAscending(rows)
    ensures RowYears(rows) == MatchYears(df)
    ensures |rows| <= |df|
  {
    if df == [] then []
    else
      var rows := YearlyPerf(df[1..]);
      AddMatchAscending(rows, df[0]);
      AddMatchYears(rows, df[0]);
      AddMatch(rows, df[0])
  }

  lemma {:induction false} AddMatchTotals(rows: seq<YearRow>, r: Record)
    ensures SumRowRuns(AddMatch(rows, r)) == SumRowRuns(rows) + r.runs
    ensures SumRowWickets(AddMatch(rows, r)) == SumRowWickets(rows) + r.wickets
  {
    if rows != [] && r.year > rows[0].year {
      AddMatchTotals(rows[1..], r);
      assert AddMatch(rows, r)[1..] == AddMatch(rows[1..], r);
    }
  }

  lemma {:induction false} AddMatchYears(rows: seq<YearRow>, r: Record)
    ensures RowYears(AddMatch(rows, r)) == RowYears(rows) + {r.year}
  {
    if rows != [] {
      if r.year < rows[0].year {
        assert AddMatch(rows, r)[1..] == rows;
      } else if r.year == rows[0].year {
        assert AddMatch(rows, r)[1..] == rows[1..];
      } else {
        AddMatchYears(rows[1..], r);
        assert AddMatch(rows, r)[1..] == AddMatch(rows[1..], r);
      }
    }
  }

  lemma {:induction false} AddMatchInYear(rows: seq<YearRow>, r: Record, y: int)
    ensures RowRunsInYear(AddMatch(rows, r), y) == RowRunsInYear(rows, y) + (if r.year == y then r.runs else 0)
    ensures RowWicketsInYear(AddMatch(rows, r), y) == RowWicketsInYear(rows, y) + (if r.year == y then r.wickets else 0)
  {
    if rows != [] {
      if r.year < rows[0].year {
        assert AddMatch(rows, r)[1..] == rows;
      } else if r.year == rows[0].year {
        assert AddMatch(rows, r)[1..] == rows[1..];
      } else {
        AddMatchInYear(rows[1..], r, y);
        assert AddMatch(rows, r)[1..] == AddMatch(rows[1..], r);
      }
    }
  }

  /** A year of the rows is the year of one of them. */
  lemma {:induction false} RowYearsIndex(rows: seq<YearRow>, y: int) returns (i: nat)
    requires y in RowYears(rows)
    ensures i < |rows| && rows[i].year == y
  {
    if rows[0].year == y {
      i := 0;
    } else {
      var k := RowYearsIndex(rows[1..], y);
      i := k + 1;
    }
  }

  /** Every year of the rows' tail lies above the first row's year, on ascending rows. */
  lemma AscendingTailYears(rows: seq<YearRow>, y: int)
    requires YearsAscending(rows) && rows != []
    requires y in RowYears(rows[1..])
    ensures rows[0].year < y
  {
    var k := RowYearsIndex(rows[1..], y);
    assert rows[k + 1] == rows[1..][k];
  }

  lemma {:induction false} AddMatchAscending(rows: seq<YearRow>, r: Record)
    requires YearsAscending(rows)
    ensures YearsAscending(AddMatch(rows, r))
  {
    if rows != [] && r.year < rows[0].year {
      var out := AddMatch(rows, r);
      forall i, j | 0 <= i < j < |out| ensures out[i].year < out[j].year {
        if i > 0 { assert out[i] == rows[i - 1]; }
        assert out[j] == rows[j - 1];
      }
    } else if rows != [] && r.year > rows[0].year {
      var rest := AddMatch(rows[1..], r);
      AddMatchAscending(rows[1..], r);
      AddMatchYears(rows[1..], r);
      var out := AddMatch(rows, r);
      assert out == [rows[0]] + rest;
      forall i, j | 0 <= i < j < |out| ensures out[i].year < out[j].year {
        if i == 0 {
          assert out[j] == rest[j - 1];
          InRowYears(rest, j - 1);
          if rest[j - 1].year != r.year {
            AscendingTailYears(rows, rest[j - 1].year);
          }
        } else {
          assert out[i] == rest[i - 1] && out[j] == rest[j - 1];
        }
      }
    }
  }

  /** Each row's year is one of the rows' years. */
  lemma {:induction false} InRowYears(rows: seq<YearRow>, i: nat)
    requires i < |rows|
    ensures rows[i].year in RowYears(rows)
  {
    if i > 0 {
      InRowYears(rows[1..], i - 1);
    }
  }

  /** On ascending rows, the sum over one row's year is that row's own total. */
  lemma {:induction false} AscendingRowInYear(rows: seq<YearRow>, i: nat)
    requires YearsAscending(rows) && i < |rows|
    ensures RowRunsInYear(rows, rows[i].year) == rows[i].totalRuns
    ensures RowWicketsInYear(rows, rows[i].year) == rows[i].totalWickets
  {
    if i == 0 {
      AbsentYear(rows[1..], rows[0].year);
    } else {
      AscendingRowInYear(rows[1..], i - 1);
      assert rows[1..][i - 1] == rows[i];
    }
  }

  /** A year below every row's year contributes nothing. */
  lemma {:induction false} AbsentYear(rows: seq<YearRow>, y: int)
    requires forall i :: 0 <= i < |rows| ==> y < rows[i].year
    ensures RowRunsInYear(rows, y) == 0 && RowWicketsInYear(rows, y) == 0
  {
    if rows != [] {
      AbsentYear(rows[1..], y);
    }
  }

  /** The yearly table is the group-by: one row per year that has a match, in
      ascending order, each holding that year's runs and wickets; and its columns
      add up to the career totals. */
  lemma {:induction false} YearlyPerfCorrect(df: seq<Record>)
    ensures YearsAscending(YearlyPerf(df))
    ensures RowYears(YearlyPerf(df)) == MatchYears(df)
    ensures forall y :: RowRunsInYear(YearlyPerf(df), y) == RunsInYear(df, y)
    ensures forall y :: RowWicketsInYear(YearlyPerf(df), y) == WicketsInYear(df, y)
    ensures SumRowRuns(YearlyPerf(df)) == TotalRuns(df)
    ensures SumRowWickets(YearlyPerf(df)) == TotalWickets(df)
  {
    if df != [] {
      var rows := YearlyPerf(df[1..]);
      YearlyPerfCorrect(df[1..]);
      AddMatchAscending(rows, df[0]);
      AddMatchYears(rows, df[0]);
      AddMatchTotals(rows, df[0]);
      forall y ensures RowRunsInYear(YearlyPerf(df), y) == RunsInYear(df, y)
        && RowWicketsInYear(YearlyPerf(df), y) == WicketsInYear(df, y)
      {
        AddMatchInYear(rows, df[0], y);
      }
    }
  }

  /** Each row of the yearly table holds exactly its year's runs and wickets. */
  lemma YearlyRows(df: seq<Record>, i: nat)
    requires i < |YearlyPerf(df)|
    ensures YearlyPerf(df)[i].totalRuns == RunsInYear(df, YearlyPerf(df)[i].year)
    ensures YearlyPerf(df)[i].totalWickets == WicketsInYear(df, YearlyPerf(df)[i].year)
  {
    YearlyPerfCorrect(df);
    AscendingRowInYear(YearlyPerf(df), i);
  }

  // ----- The KPI block -----

  /** Everything the aggregation block computes from the table. */
  datatype Summary = Summary(
    totalRuns: int,
    totalWickets: int,
    matchesPlayed: nat,
    highestScore: Option<int>,
    battingAvg: real,
    strikeRate: real,
    halfCenturies: nat,
    centuries: nat,
    yearly: seq<YearRow>)

  /** The aggregation block of the dashboard. */
  function Summarize(df: seq<Record>): (s: Summary)
    ensures s.matchesPlayed == |df|
    ensures s.halfCenturies + s.centuries <= s.matchesPlayed
    ensures s.highestScore.Some? <==> s.matchesPlayed > 0
    ensures s.totalRuns == TotalRuns(df) && s.totalWickets == TotalWickets(df)
    ensures SumRowRuns(s.yearly) == TotalRuns(df) && SumRowWickets(s.yearly) == TotalWickets(df)
  {
    FiftiesSplit(df);
    YearlyPerfCorrect(df);
    Summary(
      TotalRuns(df), TotalWickets(df), |df|, HighestScore(df),
      BattingAverage(df), StrikeRate(df), HalfCenturies(df), Centuries(df), YearlyPerf(df))
  }

  // ----- Statistics of generated tables -----

  lemma {:induction false} ConsistentTotals(name: string, df: seq<Record>)
    requires forall i :: 0 <= i < |df| ==> Consistent(name, df[i])
    ensures 0 <= TotalRuns(df)
    ensures 0 <= TotalBalls(df)
    ensures 0 <= TotalWickets(df) <= 2 * |df|
    ensures TotalBalls(df) == 0 ==> TotalRuns(df) == 0
  {
    if df != [] {
      assert Consistent(name, df[0]);
      ConsistentTotals(name, df[1..]);
    }
  }

  /** On a generated table, the batting average and the strike rate are never negative. */
  lemma GeneratedStatistics(name: string, df: seq<Record>)
    requires forall i :: 0 <= i < |df| ==> Consistent(name, df[i])
    ensures BattingAverage(df) >= 0.0
    ensures StrikeRate(df) >= 0.0
  {
    ConsistentTotals(name, df);
  }

  /** A three-record table with runs 10, 0, 60 and balls faced 20, 0, 40. */
  function SampleRecord(runs: int, balls: int): Record
  {
    Record(Date(2024, 1, 1), 2024, "T20I", "England", "Home",
      runs, balls, 0.0, 0, 0, 0, 0.0, 0.0, "Won",
      TilakVarma, "", "", "", "", "", "")
  }

  lemma AveragesExample()
    ensures var df := [SampleRecord(10, 20), SampleRecord(0, 0), SampleRecord(60, 40)];
      && BattingAverage(df) == 35.0
      && StrikeRate(df) == (70.0 / 60.0) * 100.0
  {
    var df := [SampleRecord(10, 20), SampleRecord(0, 0), SampleRecord(60, 40)];
    assert df[1..][1..][1..] == [];
    assert TotalRuns(df) == 70 && TotalBalls(df) == 60 && Innings(df) == 2;
  }
}
