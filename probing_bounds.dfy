/** The probing bounds calculator: given the year of a location's latest observation,
    the year to start probing at and the floor year to stop at. The clock read of the
    source is the parameter `currentYear`; a date that does not parse is `None`. */
module Bounds {
  import opened Wrappers

  const NotANumber := "stopYear must provided and must be a number"
  const NotADate := "parameter cannot be parsed as an date object"

  /** A calculator, configured with the floor year. */
  datatype Calculator = Calculator(stopYear: int)

  datatype ProbingBounds = ProbingBounds(startYear: int, stopYear: int)

  /** The constructor: a `stopYear` that is not a number is rejected. */
  function New(stopYear: Option<int>): (r: Result<Calculator, string>)
    ensures r.Success? <==> stopYear.Some?
    ensures r.Success? ==> r.value.stopYear == stopYear.value
    ensures r.Failure? ==> r.error == NotANumber
  {
    if stopYear.None? then Failure(NotANumber) else Success(Calculator(stopYear.value))
  }

  /** `getProbingBounds`: an input year equal to the current one, or below the floor,
      starts the probe one year before the current one; any other starts at the input
      year. */
  function GetProbingBounds(c: Calculator, inputYear: Option<int>, currentYear: int): (r: Result<ProbingBounds, string>)
    ensures r.Failure? <==> inputYear.None?
    ensures r.Failure? ==> r.error == NotADate
    ensures r.Success? ==> r.value.stopYear == c.stopYear
  {
    if inputYear.None? then Failure(NotADate)
    else
      var year := inputYear.value;
      var startYear := if year == currentYear || year < c.stopYear then currentYear - 1 else year;
      Success(ProbingBounds(startYear, c.stopYear))
  }

  /** The start year is the input year exactly when that year is neither the current
      one nor below the floor; otherwise it is the year before the current one. */
  lemma StartYearRule(c: Calculator, year: int, currentYear: int)
    ensures var b := GetProbingBounds(c, Some(year), currentYear).value;
      (year != currentYear && year >= c.stopYear ==> b.startYear == year)
      && (year == currentYear || year < c.stopYear ==> b.startYear == currentYear - 1)
  {
  }

  /** With a floor before the current year, every start year is at least the floor. */
  lemma StartNotBelowStop(c: Calculator, year: int, currentYear: int)
    requires c.stopYear < currentYear
    ensures var b := GetProbingBounds(c, Some(year), currentYear).value;
      b.startYear >= b.stopYear
  {
  }

  /** A floor at or after the current year gives bounds with the start below the floor:
      the probe then queries its start year once and stops. */
  lemma StopAfterCurrentInverts(c: Calculator, currentYear: int)
    requires c.stopYear >= currentYear
    ensures var b := GetProbingBounds(c, Some(c.stopYear - 1), currentYear).value;
      b.startYear == currentYear - 1 && b.startYear < b.stopYear
  {
  }

  /** An observation year up to the current one never makes the probe start at the
      current year, whose data is not complete. */
  lemma StartBeforeCurrent(c: Calculator, year: int, currentYear: int)
    requires year <= currentYear
    ensures GetProbingBounds(c, Some(year), currentYear).value.startYear < currentYear
  {
  }

  /** The unit test's cases, with 2015 as the current year and 2000 as the floor. */
  lemma ExampleBounds()
    ensures New(Some(2000)).Success? && New(None).Failure?
    ensures GetProbingBounds(Calculator(2000), Some(2015), 2015) == Success(ProbingBounds(2014, 2000))
    ensures GetProbingBounds(Calculator(2000), Some(2004), 2015) == Success(ProbingBounds(2004, 2000))
    ensures GetProbingBounds(Calculator(2000), Some(1999), 2015) == Success(ProbingBounds(2014, 2000))
    ensures GetProbingBounds(Calculator(2000), None, 2015).Failure?
  {
  }
}
