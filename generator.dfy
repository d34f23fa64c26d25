/** `generate_mock_data`: one record per match date, each derived from that
    match's random draws. */
module Generator {
  import opened Sampling
  import opened Profiles

  const OppositionTeams: seq<string> :=
    ["Australia", "England", "South Africa", "New Zealand", "Pakistan", "Sri Lanka", "West Indies", "Bangladesh"]
  const Venues: seq<string> := ["Home", "Away"]
  const Results: seq<string> := ["Won", "Lost"]

  /** The wicket counts and the cumulative sums of their weights 0.8, 0.15, 0.05. */
  const WicketCounts: seq<int> := [0, 1, 2]
  const WicketCdf: seq<real> := [0.8, 0.95, 1.0]

  /** Everything numpy draws for one match. A field the match's branches do not
      reach is ignored. */
  datatype Draws = Draws(
    format: nat,        // choice(formats)
    opposition: nat,    // choice(opposition_teams)
    venue: nat,         // choice(venues)
    batRoll: real,      // rand(): the player bats when it exceeds 0.1
    balls: nat,         // randint for balls faced
    runsNormal: real,   // the standard normal sample behind normal(loc, scale)
    boostRoll: real,    // rand(): the 50-boost applies when it exceeds 0.3
    boostRuns: nat,     // randint(50, 85)
    bowlRoll: real,     // rand(): the player bowls when it exceeds 0.7
    overs: nat,         // stands for round(uniform(...), 1): a raw draw, reduced into tenths of an over
    conceded: nat,      // randint for runs conceded
    wicketsRoll: real,  // the uniform sample behind the weighted wicket choice
    result: nat)        // choice(["Won", "Lost"])

  /** One row of the generated table. Overs are kept in tenths of an over. */
  datatype Record = Record(
    matchDate: Date,
    year: int,
    format: string,
    opposition: string,
    venue: string,
    runs: int,
    ballsFaced: int,
    battingStrikeRate: real,
    wickets: int,
    oversTenths: int,
    runsConceded: int,
    economy: real,
    bowlingStrikeRate: real,
    result: string,
    playerName: string,
    dob: string,
    nationality: string,
    playingRole: string,
    battingStyle: string,
    bowlingStyle: string,
    biography: string)

  datatype Batting = Batting(runs: int, balls: int, strikeRate: real)

  datatype Bowling = Bowling(oversTenths: int, runsConceded: int, wickets: int, economy: real, strikeRate: real)

  /** The balls-faced range of a format: [5, 60) outside Test cricket, [20, 150) in it. */
  predicate BallsInRange(format: string, balls: int)
  {
    if format != "Test" then 5 <= balls < 60 else 20 <= balls < 150
  }

  /** The overs range of a format, in tenths: 1.0 to 4.0 overs outside Test
      cricket, 5.0 to 15.0 in it. */
  predicate OversInRange(format: string, tenths: int)
  {
    if format != "Test" then 10 <= tenths <= 40 else 50 <= tenths <= 150
  }

  /** What holds of the batting fields of every record: either the player did not
      bat and all three are zero, or the balls lie in the format's range, the
      runs are non-negative and the strike rate is runs per hundred balls. */
  predicate BattingFacts(format: string, b: Batting)
  {
    && b.runs >= 0
    && b.strikeRate >= 0.0
    && (b.balls == 0 ==> b.runs == 0 && b.strikeRate == 0.0)
    && (b.balls != 0 ==> BallsInRange(format, b.balls))
    && (b.balls > 0 ==> b.strikeRate == b.runs as real / b.balls as real * 100.0)
  }

  /** What holds of the bowling fields of every record: either the player did not
      bowl and all five are zero, or the overs lie in the format's range and the
      runs conceded in [floor(overs * 4), floor(overs * 10)); at most two wickets;
      the economy is zero exactly when no overs were bowled and otherwise runs per
      over; the strike rate is zero without wickets and otherwise overs times six per
      wicket. */
  predicate BowlingFacts(format: string, w: Bowling)
  {
    && (w.oversTenths == 0 ==>
          w.runsConceded == 0 && w.wickets == 0 && w.economy == 0.0 && w.strikeRate == 0.0)
    && (w.oversTenths != 0 ==>
          OversInRange(format, w.oversTenths) && w.oversTenths * 4 / 10 <= w.runsConceded < w.oversTenths)
    && 0 <= w.wickets <= 2
    && (w.economy == 0.0 <==> w.oversTenths == 0)
    && (w.oversTenths > 0 ==> w.economy == w.runsConceded as real / (w.oversTenths as real / 10.0))
    && (w.wickets == 0 ==> w.strikeRate == 0.0)
    && (w.wickets > 0 ==> w.strikeRate == (w.oversTenths as real / 10.0) * 6.0 / w.wickets as real)
  }

  /** The runs of an innings: a clamped, truncated normal sample (mean 35 and
      scale 25 for the profiled player, 30 and 20 otherwise); for the profiled
      player a score above 50 is, on a second roll, replaced by one in [50, 85). */
  function InningsRuns(name: string, d: Draws): (r: int)
    ensures r >= 0
    ensures name != TilakVarma ==> r == NonNegInt(Normal(30.0, 20.0, d.runsNormal))
    ensures name == TilakVarma ==>
      var sample := NonNegInt(Normal(35.0, 25.0, d.runsNormal));
      && (sample <= 50 ==> r == sample)
      && (sample > 50 ==> r == sample || 50 <= r < 85)
  {
    if name == TilakVarma then
      var runs := NonNegInt(Normal(35.0, 25.0, d.runsNormal));
      if runs > 50 && d.boostRoll > 0.3 then RandInt(50, 85, d.boostRuns) else runs
    else
      NonNegInt(Normal(30.0, 20.0, d.runsNormal))
  }

  /** The 50-boost never takes a score above 50 below 50, and leaves every other
      score alone. */
  lemma BoostKeepsFifties(d: Draws)
    ensures var sample := NonNegInt(Normal(35.0, 25.0, d.runsNormal));
      && (sample > 50 ==> InningsRuns(TilakVarma, d) >= 50)
      && (sample <= 50 ==> InningsRuns(TilakVarma, d) == sample)
  {
  }

  /** The batting fields of a match. */
  function BattingLine(name: string, format: string, d: Draws): (b: Batting)
    ensures d.batRoll > 0.1 <==> b.balls != 0
    ensures d.batRoll > 0.1 ==> b.runs == InningsRuns(name, d)
    ensures BattingFacts(format, b)
  {
    if d.batRoll > 0.1 then
      var balls := if format != "Test" then RandInt(5, 60, d.balls) else RandInt(20, 150, d.balls);
      var runs := InningsRuns(name, d);
      Batting(runs, balls, if balls > 0 then runs as real / balls as real * 100.0 else 0.0)
    else
      Batting(0, 0, 0.0)
  }

  /** The bowling fields of a match. */
  function BowlingLine(format: string, d: Draws): (w: Bowling)
    ensures d.bowlRoll > 0.7 <==> w.oversTenths != 0
    ensures BowlingFacts(format, w)
  {
    if d.bowlRoll > 0.7 then
      var overs := if format != "Test" then RandInt(10, 41, d.overs) else RandInt(50, 151, d.overs);
      var conceded := RandInt(overs * 4 / 10, overs, d.conceded);
      var wickets := WeightedChoice(WicketCounts, WicketCdf, d.wicketsRoll);
      var oversReal := overs as real / 10.0;
      Bowling(
        overs, conceded, wickets,
        if oversReal > 0.0 then conceded as real / oversReal else 0.0,
        if wickets > 0 then oversReal * 6.0 / wickets as real else 0.0)
    else
      Bowling(0, 0, 0, 0.0, 0.0)
  }

  /** The weighted wicket choice: no wicket below 0.8, one below 0.95, else two. */
  lemma WicketsByRoll(u: real)
    ensures var w := WeightedChoice(WicketCounts, WicketCdf, u);
      && (u < 0.8 ==> w == 0)
      && (0.8 <= u < 0.95 ==> w == 1)
      && (0.95 <= u ==> w == 2)
  {
    var rest := WicketCdf[1..];
    assert rest == [0.95, 1.0] && rest[1..] == [1.0];
    if 0.8 <= u {
      assert FirstAbove(WicketCdf, u) == 1 + FirstAbove(rest, u);
      if u < 0.95 {
        assert FirstAbove(rest, u) == 0;
      } else {
        assert FirstAbove(rest, u) == 1 + FirstAbove(rest[1..], u) == 1;
      }
    }
  }

  /** What holds of every record generated for the player `name`. */
  predicate Consistent(name: string, r: Record)
  {
    var p := LookupProfile(name);
    && r.year == r.matchDate.year
    && r.format in p.formats
    && r.opposition in OppositionTeams
    && r.venue in Venues
    && r.result in Results
    && r.playerName == name
    && r.dob == p.dob
    && r.nationality == p.nationality
    && r.playingRole == p.playingRole
    && r.battingStyle == p.battingStyle
    && r.bowlingStyle == p.bowlingStyle
    && r.biography == p.bio
    && BattingFacts(r.format, Batting(r.runs, r.ballsFaced, r.battingStrikeRate))
    && BowlingFacts(r.format, Bowling(r.oversTenths, r.runsConceded, r.wickets, r.economy, r.bowlingStrikeRate))
  }

  /** The record of one match (the body of the generator's loop). */
  function MatchRecord(name: string, date: Date, d: Draws): (r: Record)
    ensures r.matchDate == date
    ensures Consistent(name, r)
    ensures d.batRoll > 0.1 <==> r.ballsFaced != 0
    ensures d.bowlRoll > 0.7 <==> r.oversTenths != 0
  {
    var p := LookupProfile(name);
    var format := Choice(p.formats, d.format);
    var bat := BattingLine(name, format, d);
    var bowl := BowlingLine(format, d);
    Record(
      date, date.year, format,
      Choice(OppositionTeams, d.opposition), Choice(Venues, d.venue),
      bat.runs, bat.balls, bat.strikeRate,
      bowl.wickets, bowl.oversTenths, bowl.runsConceded, bowl.economy, bowl.strikeRate,
      Choice(Results, d.result),
      name, p.dob, p.nationality, p.playingRole, p.battingStyle, p.bowlingStyle, p.bio)
  }

  /** The generator: one record per date of the career, in date order, the i-th
      derived from the i-th match's draws. `today` is the career's last date. */
  method GenerateMockData(name: string, today: Date, dates: seq<Date>, draws: seq<Draws>)
    returns (data: seq<Record>)
    requires CareerDates(LookupProfile(name).careerStart, today, dates)
    requires |draws| == |dates|
    ensures |data| == Periods
    ensures forall i :: 0 <= i < |data| ==> data[i] == MatchRecord(name, dates[i], draws[i])
    ensures forall i :: 0 <= i < |data| ==> data[i].matchDate == dates[i] && Consistent(name, data[i])
    ensures forall i, j :: 0 <= i <= j < |data| ==> DateLeq(data[i].matchDate, data[j].matchDate)
    ensures data[0].matchDate == LookupProfile(name).careerStart
    ensures data[|data| - 1].matchDate == today
  {
    data := [];
    for i := 0 to |dates|
      invariant |data| == i
      invariant forall k :: 0 <= k < i ==> data[k] == MatchRecord(name, dates[k], draws[k])
    {
      data := data + [MatchRecord(name, dates[i], draws[i])];
    }
  }

  /** Records generated for the profiled player are limited-overs matches and
      carry that player's role. */
  lemma TilakVarmaRecords(r: Record)
    requires Consistent(TilakVarma, r)
    ensures r.format == "T20I" || r.format == "ODI"
    ensures r.playerName == TilakVarma && r.playingRole == "Middle-order Batsman" && r.nationality == "India"
  {
  }

  /** Records generated for any other name carry the fallback profile. */
  lemma FallbackRecords(name: string, r: Record)
    requires name != TilakVarma && Consistent(name, r)
    ensures r.format == "T20I" || r.format == "ODI" || r.format == "Test"
    ensures r.playerName == name && r.playingRole == "Allrounder" && r.nationality == "Unknown"
  {
  }
}
