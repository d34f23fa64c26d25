/** The player profile that `generate_mock_data` selects by name, and the match
    dates it spreads over the career. */
module Profiles {

  /** A calendar date; only its order and its year matter to the model. */
  datatype Date = Date(year: int, month: int, day: int)

  /** Chronological order of dates. */
  predicate DateLeq(a: Date, b: Date)
  {
    a.year < b.year
    || (a.year == b.year && a.month < b.month)
    || (a.year == b.year && a.month == b.month && a.day <= b.day)
  }

  /** Static metadata repeated on every generated record. */
  datatype Profile = Profile(
    careerStart: Date,
    formats: seq<string>,
    playingRole: string,
    battingStyle: string,
    bowlingStyle: string,
    nationality: string,
    dob: string,
    bio: string)

  /** The one player with a profile of their own. */
  const TilakVarma: string := "Tilak Varma"

  /** The biographies carried by the two profiles. */
  const TilakVarmaBio: string :=
    "Namboori Thakur Tilak Varma is an Indian international cricketer who plays for the Indian cricket team. A left-handed batsman and an occasional off-spin bowler, he plays for Hyderabad in domestic cricket and for Mumbai Indians in the Indian Premier League (IPL). He was a member of the Indian team that won the 2023 Asia Cup."
  const FallbackBio: string := "No biography available for this player."

  /** The number of match dates the generator spreads over the career. */
  const Periods: nat := 100

  /** Profile selection: an exact match on the player's name, every other name
      falling back to one generic profile. */
  function LookupProfile(name: string): (p: Profile)
    ensures |p.formats| > 0
    ensures name == TilakVarma ==>
      && p.formats == ["T20I", "ODI"]
      && p.playingRole == "Middle-order Batsman"
      && p.nationality == "India"
      && p.careerStart == Date(2023, 8, 3)
    ensures name != TilakVarma ==>
      && p.formats == ["T20I", "ODI", "Test"]
      && p.playingRole == "Allrounder"
      && p.nationality == "Unknown"
      && p.careerStart == Date(2020, 1, 1)
    ensures "Test" in p.formats <==> name != TilakVarma
  {
    if name == TilakVarma then
      Profile(
        Date(2023, 8, 3),
        ["T20I", "ODI"],
        "Middle-order Batsman",
        "Left-hand bat",
        "Right-arm off-break",
        "India",
        "2002-11-08",
        TilakVarmaBio)
    else
      Profile(
        Date(2020, 1, 1),
        ["T20I", "ODI", "Test"],
        "Allrounder",
        "Right-hand bat",
        "Right-arm fast-medium",
        "Unknown",
        "2000-01-01",
        FallbackBio)
  }

  /** Every name other than the one with its own profile gets the same profile. */
  lemma FallbackIsShared(a: string, b: string)
    requires a != TilakVarma && b != TilakVarma
    ensures LookupProfile(a) == LookupProfile(b)
  {
  }

  /** What the date range from `start` to `end` with `Periods` points yields once
      truncated to days: exactly `Periods` dates, from `start` to `end`, in
      chronological order. */
  predicate CareerDates(start: Date, end: Date, dates: seq<Date>)
  {
    && |dates| == Periods
    && dates[0] == start
    && dates[|dates| - 1] == end
    && forall i, j :: 0 <= i <= j < |dates| ==> DateLeq(dates[i], dates[j])
  }
}
