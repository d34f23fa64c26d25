# Cricket performance dashboard: mock data generator and career statistics

This project models the computational core of a one-script cricket dashboard.
The script synthesises one row of batting and bowling statistics per match for
a named player, then reduces the table to the career figures the aggregation
block computes (create_dashboard.py:121-129): total runs and wickets, matches
played, highest score, batting average, strike rate, fifties, hundreds and a
per-year table of runs and wickets. Total wickets, hundreds and the yearly
wickets are computed there but not displayed on the dashboard.

The model is split into four modules, each in its own file:

- `Sampling` (`sampling.dfy`): the random draws the generator makes
  (`randint`, unweighted and weighted `choice`, `normal`, and the
  `int(max(0, x))` clamp). Each one is a function of an explicit draw value.
  This makes the generator deterministic.
- `Profiles` (`profiles.dfy`): profile selection by exact name. There is one
  named profile and one fallback for every other name. Also the match dates:
  100 dates in chronological order, from the career start to the last day.
- `Generator` (`generator.dfy`): the per-match derivation
  (`BattingLine`, `BowlingLine`, `MatchRecord`) and the generator itself.
  `GenerateMockData` is a method whose loop appends one record per date.
  Its postcondition ties the i-th record to the i-th date and the i-th match's
  draws. It also states that every record satisfies `Consistent`. That
  predicate covers the zero guards, the not-batting and not-bowling zero rows,
  format membership, the draw ranges and the profile fields copied onto each
  row.
- `Aggregation` (`aggregation.dfy`): the aggregation block as recursive
  functions over `seq<Record>`. The `groupby('Year')` table is built by
  inserting each match into rows kept in ascending year order. Lemmas show
  that this table is the group-by and that its columns add up to the career
  totals.

Strike rates, averages and economy are Dafny `real`s. Overs are integer tenths
of an over. No part of the model depends on floating point.

## Model

| member | source | states |
|---|---|---|
| `Sampling.RandInt` | create_dashboard.py:48 | `randint(lo, hi)` returns a value in [lo, hi) |
| `Sampling.RandIntCovers` | create_dashboard.py:48 | each value in [lo, hi) comes from some draw, so the draw model covers the whole range |
| `Sampling.Choice` | create_dashboard.py:42-44 | an unweighted `choice` returns an element of its list |
| `Sampling.NonNegInt` | create_dashboard.py:50 | `int(max(0, x))` is non-negative, is 0 for x <= 0, and otherwise is the integer part of x |
| `Sampling.Normal` | create_dashboard.py:50 | `normal(loc, scale)` as loc + scale * z: it is loc when z is 0, and for a positive scale lies above loc exactly when z is positive |
| `Sampling.FirstAbove` | create_dashboard.py:64 | the index picked by the weighted choice is in range; all cumulative weights before it are <= the sample; it exceeds the sample unless it is the last |
| `Sampling.WeightedChoice` | create_dashboard.py:64 | a weighted choice returns a list element, and never one past the first cumulative weight above the sample |
| `Profiles.LookupProfile` | create_dashboard.py:14-34 | "Tilak Varma" gets formats T20I and ODI, role Middle-order Batsman, nationality India, start 2023-08-03. Any other name gets T20I, ODI and Test, role Allrounder, nationality Unknown, start 2020-01-01. Test is a format exactly when the name is not "Tilak Varma" |
| `Profiles.FallbackIsShared` | create_dashboard.py:25-34 | every name other than "Tilak Varma" gets the same profile |
| `Generator.InningsRuns` | create_dashboard.py:49-54 | runs are non-negative. Other names: the truncated normal(30, 20) sample. Tilak Varma: the normal(35, 25) sample when it is at most 50, else either the sample or a boosted score in [50, 85) |
| `Generator.BoostKeepsFifties` | create_dashboard.py:50-52 | the 50-boost touches only scores above 50, and a boosted score stays at 50 or more |
| `Generator.BattingLine` | create_dashboard.py:47-58 | the player bats (balls faced non-zero) exactly when the roll exceeds 0.1. Not batting makes runs, balls and strike rate 0. Balls lie in [5, 60), or [20, 150) for Test. Strike rate is runs / balls * 100, or 0 when balls is 0 |
| `Generator.BowlingLine` | create_dashboard.py:61-68 | the player bowls (overs non-zero) exactly when the roll exceeds 0.7. Not bowling makes all five fields 0. Overs lie in 1.0-4.0, or 5.0-15.0 for Test. Runs conceded lie in [floor(overs*4), floor(overs*10)). Wickets are 0, 1 or 2. Economy is 0 exactly when overs is 0, otherwise runs / overs. Bowling strike rate is 0 without wickets, otherwise overs*6 / wickets |
| `Generator.WicketsByRoll` | create_dashboard.py:64 | the weighted wicket choice gives 0 below 0.8, 1 in [0.8, 0.95) and 2 from 0.95 |
| `Generator.MatchRecord` | create_dashboard.py:42-94 | one match's record carries its date and satisfies `Consistent` for the player. Balls faced are non-zero exactly when the batting roll passes, and overs exactly when the bowling roll passes |
| `Generator.GenerateMockData` | create_dashboard.py:36-94 | exactly 100 records, the i-th being the match record of the i-th date and draws. Each is `Consistent` and has the player's name. Dates are in chronological order, from the profile's career start to `today` |
| `Generator.TilakVarmaRecords` | create_dashboard.py:14-23 | a record generated for "Tilak Varma" has format T20I or ODI and carries that player's name, role and nationality |
| `Generator.FallbackRecords` | create_dashboard.py:25-34 | a record generated for any other name has format T20I, ODI or Test, role Allrounder and nationality Unknown |
| `Aggregation.TotalRuns` | create_dashboard.py:121 | the sum of the `Runs` column is non-negative when every row's runs are; `YearlyPerfCorrect` proves the yearly `Total_Runs` column sums to it |
| `Aggregation.TotalWickets` | create_dashboard.py:122 | the sum of the `Wickets` column lies in [0, 2 * rows] when every row has 0 to 2 wickets; `YearlyPerfCorrect` proves the yearly `Total_Wickets` column sums to it |
| `Aggregation.TotalBalls` | create_dashboard.py:126 | the sum of the `Balls Faced` column is non-negative when every row's balls faced are |
| `Aggregation.AddMatch` | create_dashboard.py:129 | inserting a match into the yearly rows adds at most one row; `AddMatchTotals`, `AddMatchYears`, `AddMatchInYear` and `AddMatchAscending` state the rest |
| `Aggregation.YearlyPerf` | create_dashboard.py:129 | the `groupby('Year')` table has strictly ascending years, exactly the years that have a match, and no more rows than matches; `YearlyPerfCorrect` adds the per-year sums |
| `Aggregation.Innings` | create_dashboard.py:125 | the number of rows with balls faced > 0 is at most the number of rows |
| `Aggregation.HalfCenturies` | create_dashboard.py:127 | the count of rows with runs in [50, 100) is at most the number of rows |
| `Aggregation.Centuries` | create_dashboard.py:128 | the count of rows with runs >= 100 is at most the number of rows |
| `Aggregation.FiftyPlus` | create_dashboard.py:127-128 | the count of rows with runs >= 50 is at most the number of rows |
| `Aggregation.HighestScore` | create_dashboard.py:124 | none exactly for an empty table; otherwise at least every row's runs and equal to some row's runs |
| `Aggregation.BattingAverage` | create_dashboard.py:125 | 0 when no row has balls faced; otherwise average * innings = total runs |
| `Aggregation.StrikeRate` | create_dashboard.py:126 | 0 when total balls faced is 0; otherwise rate * total balls = 100 * total runs |
| `Aggregation.FiftiesSplit` | create_dashboard.py:127-128 | fifties plus hundreds equals the count of scores >= 50, so the two are disjoint, and the sum is at most the number of matches |
| `Aggregation.AddMatchTotals` | create_dashboard.py:129 | adding a match to the yearly rows adds its runs and wickets to the column sums |
| `Aggregation.AddMatchYears` | create_dashboard.py:129 | adding a match adds its year to the rows' years, and nothing else |
| `Aggregation.AddMatchInYear` | create_dashboard.py:129 | adding a match changes only its own year's runs and wickets, by that match's amounts |
| `Aggregation.AddMatchAscending` | create_dashboard.py:129 | adding a match keeps the rows in strictly ascending year order |
| `Aggregation.AscendingRowInYear` | create_dashboard.py:129 | on ascending rows, a row's totals are the totals of its year |
| `Aggregation.YearlyPerfCorrect` | create_dashboard.py:129 | the yearly table is in strictly ascending year order and has one row per year with a match. Each year's runs and wickets are that year's sums. `Total_Runs` sums to total runs and `Total_Wickets` to total wickets |
| `Aggregation.YearlyRows` | create_dashboard.py:129 | each row of the yearly table holds exactly the runs and wickets of its year's matches |
| `Aggregation.Summarize` | create_dashboard.py:121-129 | matches played is the row count. Fifties plus hundreds do not exceed it. A highest score exists exactly when a match does. Total runs and wickets are the table's column sums, and the yearly columns add up to them |
| `Aggregation.ConsistentTotals` | create_dashboard.py:121-126 | on a generated table, total runs and balls are non-negative, total wickets are at most twice the matches, and no balls faced means no runs |
| `Aggregation.GeneratedStatistics` | create_dashboard.py:125-126 | on a generated table the batting average and strike rate are non-negative |
| `Aggregation.AveragesExample` | create_dashboard.py:125-126 | for runs 10, 0, 60 and balls 20, 0, 40, the batting average is 35.0 and the strike rate is 70/60 * 100 |

## Left out

- Random distributions are left out. Each random draw is an explicit field of
  `Generator.Draws`, and no probabilities are stated.
  - `randint` takes a raw natural number, reduced into the range.
  - Unweighted `choice` takes a raw index, reduced modulo the list length.
  - `normal(loc, scale)` takes a standard normal sample z, as loc + scale * z.
  - The weighted wicket choice takes its uniform sample; index selection
    follows numpy's cumulative-weight search.
- One `Draws` value stands for one match's draws. numpy draws only on the
  branches actually taken, so in the model a field a branch does not reach is
  ignored rather than not drawn.
- `round(uniform(lo, hi), 1)` for overs is a single draw of a value in tenths,
  in [10, 40] or, for Test, [50, 150]. Python's float rounding and the
  float products `overs * 4` and `overs * 10` are exact in the model
  (`(4 * t) / 10` and `t` for t tenths).
- Float comparisons against 0.1, 0.3 and 0.7 use exact rationals.
- Date arithmetic is left out. `date.today()` is the `today` parameter.
  `pd.date_range(start, end, periods=100)` is the `dates` parameter, required
  to hold 100 chronological dates from the career start to `today`.
- A career start after today, which would give a decreasing range, is not
  modelled.
- Career start and end are `Date` values. The start is a profile field; the
  end is the `today` parameter, not a profile field. The DOB stays a string.
- The pandas type coercion after the loop (create_dashboard.py:96-101) is
  left out. It is the identity on the already numeric columns.
- The match dates are only required to be chronological (as
  truncation to days can repeat a date), not evenly spaced, because the date
  arithmetic is left out.
- pandas returns NaN for the maximum of an empty column; the model's highest
  score is `None` there instead of a number.
- The dashboard layout is left out: plotly figures, indicators, gauges, the
  bar chart, colours, the image URL and the HTML annotation
  (create_dashboard.py:108-118, 131-192). These are rendering with no
  computation of their own.
- File output (`write_html`, `to_csv`), the console messages and the
  command-line entry point (create_dashboard.py:195-214) are I/O and left out.
