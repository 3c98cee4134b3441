/** The backward year-probing search of `cdoDataProbingQuery.js`: query the full-year
    window of `startYear`; on no data step one year back, after a 1000 ms pause, while
    the year is not below `endYear`; stop at the first year with data. The remote side
    is an oracle from query parameters to records-or-null. */
module ProbingQuery {
  import opened Wrappers
  import Decimal
  import ApiClient
  import Seqs

  /** The pause before probing the previous year, in milliseconds. */
  const RetryDelay := 1000

  /** What a probe is about: the location, dataset and data type of every window. */
  datatype Series = Series(locationId: string, dataset: string, datatypeid: string)

  function YearStart(year: int): string {
    Decimal.IntToString(year) + "-01-01"
  }

  function YearEnd(year: int): string {
    Decimal.IntToString(year) + "-12-31"
  }

  /** The query parameters for the calendar year `year`. */
  function YearWindow(s: Series, year: int): ApiClient.QueryParams {
    ApiClient.QueryParams(s.dataset, s.datatypeid, s.locationId, YearStart(year), YearEnd(year))
  }

  function Windows(s: Series, years: seq<int>): seq<ApiClient.QueryParams> {
    seq(|years|, k requires 0 <= k < |years| => YearWindow(s, years[k]))
  }

  /** The year a window is for, read back from its start date. */
  function DateYear(date: string): int {
    if |date| < 6 then 0 else Decimal.ParseInt(date[..|date| - 6])
  }

  /** A window names its series and runs from 1 January to 31 December of its year:
      its dates are the year's text followed by `-01-01` and `-12-31`, and both read
      back as the year. */
  lemma {:induction false} YearWindowYear(s: Series, year: int)
    ensures var w := YearWindow(s, year);
      w.dataset == s.dataset && w.datatypeid == s.datatypeid && w.locationId == s.locationId
      && w.startDate == Decimal.IntToString(year) + "-01-01"
      && w.endDate == Decimal.IntToString(year) + "-12-31"
      && DateYear(w.startDate) == year && DateYear(w.endDate) == year
  {
    var n := Decimal.IntToString(year);
    assert YearStart(year)[..|YearStart(year)| - 6] == n;
    assert YearEnd(year)[..|YearEnd(year)| - 6] == n;
    Decimal.ParseIntToString(year);
  }

  /** Two windows of one series are equal exactly when their years are. */
  lemma YearWindowInjective(s: Series, year: int, other: int)
    ensures YearWindow(s, year) == YearWindow(s, other) <==> year == other
  {
    YearWindowYear(s, year);
    YearWindowYear(s, other);
  }

  // ---------------------------------------------------------------- the search

  /** The years queried, the pauses, the value handed to the completion callback and
      the value of `queryYear` at the end. */
  datatype Probe<R> = Probe(years: seq<int>, delays: seq<int>, result: Option<seq<R>>, finalYear: int)

  /** The search from `year` on, the query for `year` having answered `answer`. */
  function SearchAfter<R>(api: ApiClient.QueryParams -> Option<seq<R>>, s: Series, answer: Option<seq<R>>, year: int, endYear: int): (p: Probe<R>)
    decreases year - endYear, 0
    ensures |p.years| >= 1 && p.years[0] == year && |p.delays| == |p.years| - 1
  {
    if answer.Some? then Probe([year], [], answer, year)
    else if year - 1 >= endYear then
      var rest := Search(api, s, year - 1, endYear);
      Probe([year] + rest.years, [RetryDelay] + rest.delays, rest.result, rest.finalYear)
    else Probe([year], [], None, year - 1)
  }

  /** The search started at `year`. */
  function Search<R>(api: ApiClient.QueryParams -> Option<seq<R>>, s: Series, year: int, endYear: int): (p: Probe<R>)
    decreases year - endYear, 1
    ensures |p.years| >= 1 && p.years[0] == year && |p.delays| == |p.years| - 1
  {
    SearchAfter(api, s, api(YearWindow(s, year)), year, endYear)
  }

  /** The years go down one at a time from the start; every year after the first is
      at least `endYear`; every pause is 1000 ms; `queryYear` ends at the year with data,
      or one below the last year queried. */
  lemma {:induction false} SearchShape<R>(api: ApiClient.QueryParams -> Option<seq<R>>, s: Series, answer: Option<seq<R>>, year: int, endYear: int)
    ensures var p := SearchAfter(api, s, answer, year, endYear);
      && (forall k :: 0 <= k < |p.years| ==> p.years[k] == year - k)
      && (forall k :: 0 < k < |p.years| ==> p.years[k] >= endYear)
      && (forall k :: 0 <= k < |p.delays| ==> p.delays[k] == RetryDelay)
      && p.finalYear == (if p.result.Some? then p.years[|p.years| - 1] else p.years[|p.years| - 1] - 1)
    decreases year - endYear
  {
    var p := SearchAfter(api, s, answer, year, endYear);
    if answer.None? && year - 1 >= endYear {
      var rest := Search(api, s, year - 1, endYear);
      SearchShape(api, s, api(YearWindow(s, year - 1)), year - 1, endYear);
      assert p.years == [year] + rest.years;
      forall k | 0 < k < |p.years| ensures p.years[k] == year - k && p.years[k] >= endYear {
        var i := k - 1;
        assert p.years[k] == rest.years[i] == year - 1 - i;
      }
      forall k | 0 < k < |p.delays| ensures p.delays[k] == RetryDelay {
        assert p.delays[k] == rest.delays[k - 1];
      }
    }
  }

  /** Every year between the first and the last answered no data; the result is the
      last year's answer; a null result means the year below the last one is below
      `endYear`. With `SearchShape`, the last year is `year - |p.years| + 1`. */
  lemma {:induction false} SearchResult<R>(api: ApiClient.QueryParams -> Option<seq<R>>, s: Series, answer: Option<seq<R>>, year: int, endYear: int)
    ensures var p := SearchAfter(api, s, answer, year, endYear);
      var last := year - |p.years| + 1;
      && (answer.None? || |p.years| == 1)
      && (forall y :: last < y < year ==> api(YearWindow(s, y)).None?)
      && p.result == (if |p.years| == 1 then answer else api(YearWindow(s, last)))
      && (p.result.None? ==> last - 1 < endYear)
    decreases year - endYear
  {
    if answer.None? && year - 1 >= endYear {
      var a := api(YearWindow(s, year - 1));
      SearchResult(api, s, a, year - 1, endYear);
    }
  }

  /** No data in any year from `startYear` down to `endYear`: exactly
      `startYear - endYear + 1` queries, `startYear - endYear` pauses, and null. */
  lemma {:induction false} AllEmpty<R>(api: ApiClient.QueryParams -> Option<seq<R>>, s: Series, startYear: int, endYear: int)
    requires startYear >= endYear
    requires forall y :: endYear <= y <= startYear ==> api(YearWindow(s, y)).None?
    ensures var p := Search(api, s, startYear, endYear);
      |p.years| == startYear - endYear + 1 && |p.delays| == startYear - endYear
      && p.result.None? && p.finalYear == endYear - 1
    decreases startYear - endYear
  {
    if startYear > endYear {
      AllEmpty(api, s, startYear - 1, endYear);
    }
  }

  /** The first year with data, counting down from `startYear`, is the one whose answer
      is passed on, and the search stops there. */
  lemma {:induction false} FirstHit<R>(api: ApiClient.QueryParams -> Option<seq<R>>, s: Series, startYear: int, endYear: int, hit: int)
    requires hit == startYear || endYear <= hit <= startYear
    requires api(YearWindow(s, hit)).Some?
    requires forall y :: hit < y <= startYear ==> api(YearWindow(s, y)).None?
    ensures var p := Search(api, s, startYear, endYear);
      |p.years| == startYear - hit + 1 && p.result == api(YearWindow(s, hit)) && p.finalYear == hit
    decreases startYear - hit
  {
    if hit < startYear {
      FirstHit(api, s, startYear - 1, endYear, hit);
    }
  }

  /** The first query is unconditional: a start below `endYear` still queries once. */
  lemma StartBelowEnd<R>(api: ApiClient.QueryParams -> Option<seq<R>>, s: Series, startYear: int, endYear: int)
    requires startYear < endYear
    ensures var p := Search(api, s, startYear, endYear);
      p.years == [startYear] && p.delays == [] && p.result == api(YearWindow(s, startYear))
  {
  }

  /** A search with `done` entries ahead of it, as the loop has walked them. */
  function Prefixed<R>(years: seq<int>, delays: seq<int>, p: Probe<R>): Probe<R> {
    Probe(years + p.years, delays + p.delays, p.result, p.finalYear)
  }

  /** One step of the loop: a null answer above `endYear` moves on to the year before. */
  lemma SearchStep<R>(api: ApiClient.QueryParams -> Option<seq<R>>, s: Series, years: seq<int>, delays: seq<int>, answer: Option<seq<R>>, year: int, endYear: int)
    requires answer.None? && year - 1 >= endYear
    ensures Prefixed(years, delays, SearchAfter(api, s, answer, year, endYear))
         == Prefixed(years + [year], delays + [RetryDelay], Search(api, s, year - 1, endYear))
  {
    var rest := Search(api, s, year - 1, endYear);
    assert years + ([year] + rest.years) == (years + [year]) + rest.years;
    assert delays + ([RetryDelay] + rest.delays) == (delays + [RetryDelay]) + rest.delays;
  }

  /** The last step of the loop. */
  lemma SearchStop<R>(api: ApiClient.QueryParams -> Option<seq<R>>, s: Series, years: seq<int>, delays: seq<int>, answer: Option<seq<R>>, year: int, endYear: int)
    requires answer.Some? || year - 1 < endYear
    ensures var p := Prefixed(years, delays, SearchAfter(api, s, answer, year, endYear));
      p.years == years + [year] && p.delays == delays && p.result == answer
      && p.finalYear == (if answer.Some? then year else year - 1)
  {
    assert delays + [] == delays;
  }

  lemma WindowsAppend(s: Series, years: seq<int>, year: int)
    ensures Windows(s, years + [year]) == Windows(s, years) + [YearWindow(s, year)]
  {
  }

  // ---------------------------------------------------------------- the query object

  /** The probing query: its fixed series and floor year, the year it is at, the
      completion callback (given or the no-op), and the windows queried, the timer
      pauses and the values handed to the callback. */
  class DataProbingQuery<R> {
    const series: Series
    const endYear: int
    var queryYear: int
    var hasCallback: bool
    var queries: seq<ApiClient.QueryParams>
    var delays: seq<int>
    var delivered: seq<Option<seq<R>>>

    constructor(locationId: string, dataset: string, datatypeid: string, startYear: int, endYear: int)
      ensures series == Series(locationId, dataset, datatypeid) && this.endYear == endYear
      ensures queryYear == startYear && !hasCallback
      ensures queries == [] && delays == [] && delivered == []
    {
      series := Series(locationId, dataset, datatypeid);
      this.endYear := endYear;
      queryYear := startYear;
      hasCallback := false;
      queries := [];
      delays := [];
      delivered := [];
    }

    /** `queryNext`: one API query for the window of `queryYear`. */
    method QueryNext(api: ApiClient.QueryParams -> Option<seq<R>>) returns (answer: Option<seq<R>>)
      modifies this
      ensures answer == api(YearWindow(series, queryYear))
      ensures queries == old(queries) + [YearWindow(series, queryYear)]
      ensures queryYear == old(queryYear) && hasCallback == old(hasCallback)
      ensures delays == old(delays) && delivered == old(delivered)
    {
      var window := YearWindow(series, queryYear);
      queries := queries + [window];
      answer := api(window);
    }

    /** Calls the completion callback; the no-op leaves no trace. */
    method Complete(result: Option<seq<R>>)
      modifies this
      ensures delivered == old(delivered) + (if hasCallback then [result] else [])
      ensures queryYear == old(queryYear) && hasCallback == old(hasCallback)
      ensures queries == old(queries) && delays == old(delays)
    {
      if hasCallback {
        delivered := delivered + [result];
      }
    }

    /** `onApiCallComplete`: passes data on, or steps one year back and either asks for
        another query after 1000 ms or completes with null. */
    method OnApiCallComplete(answer: Option<seq<R>>) returns (retry: bool)
      modifies this
      ensures answer.Some? ==> !retry && queryYear == old(queryYear)
      ensures answer.None? ==> queryYear == old(queryYear) - 1 && (retry <==> queryYear >= endYear)
      ensures delays == old(delays) + (if retry then [RetryDelay] else [])
      ensures delivered == old(delivered) + (if !retry && hasCallback then [answer] else [])
      ensures hasCallback == old(hasCallback) && queries == old(queries)
    {
      if answer.Some? {
        Complete(answer);
        retry := false;
      } else {
        queryYear := queryYear - 1;
        if queryYear >= endYear {
          delays := delays + [RetryDelay];
          retry := true;
        } else {
          Complete(None);
          retry := false;
        }
      }
    }

    /** `run`: installs the callback (a no-op when none is given) and probes from
        `queryYear` down, each timer firing at once. */
    method Run(callback: bool, api: ApiClient.QueryParams -> Option<seq<R>>) returns (result: Option<seq<R>>)
      modifies this
      ensures hasCallback == callback
      ensures var p := Search(api, series, old(queryYear), endYear);
        && result == p.result
        && queryYear == p.finalYear
        && queries == old(queries) + Windows(series, p.years)
        && delays == old(delays) + p.delays
        && delivered == old(delivered) + (if callback then [p.result] else [])
    {
      hasCallback := callback;
      ghost var p := Search(api, series, queryYear, endYear);
      ghost var queries0, delays0, delivered0 := queries, delays, delivered;
      ghost var years: seq<int> := [];
      ghost var pauses: seq<int> := [];
      assert p == Prefixed(years, pauses, Search(api, series, queryYear, endYear)) by {
        assert [] + p.years == p.years && [] + p.delays == p.delays;
      }
      while true
        invariant p == Prefixed(years, pauses, Search(api, series, queryYear, endYear))
        invariant years == [] || queryYear >= endYear
        invariant hasCallback == callback
        invariant queries == queries0 + Windows(series, years)
        invariant delays == delays0 + pauses
        invariant delivered == delivered0
        decreases if queryYear >= endYear then queryYear - endYear + 1 else 0
      {
        ghost var year := queryYear;
        var answer := QueryNext(api);
        assert queries == queries0 + Windows(series, years + [year]) by {
          WindowsAppend(series, years, year);
          Seqs.AppendAssoc(queries0, Windows(series, years), [YearWindow(series, year)]);
        }
        assert p == Prefixed(years, pauses, SearchAfter(api, series, answer, year, endYear));
        var retry := OnApiCallComplete(answer);
        if !retry {
          SearchStop(api, series, years, pauses, answer, year, endYear);
          result := answer;
          return;
        }
        assert queryYear == year - 1;
        SearchStep(api, series, years, pauses, answer, year, endYear);
        Seqs.AppendAssoc(delays0, pauses, [RetryDelay]);
        years := years + [year];
        pauses := pauses + [RetryDelay];
      }
    }
  }

  /** The unit test's probe: no data anywhere from 2014 down to 2000 makes 15 queries,
      2014 first and 2000 last, with 14 pauses of 1000 ms, and ends with null. */
  lemma ExampleAllEmpty<R>(api: ApiClient.QueryParams -> Option<seq<R>>, s: Series)
    requires forall y :: 2000 <= y <= 2014 ==> api(YearWindow(s, y)).None?
    ensures var p := Search(api, s, 2014, 2000);
      |p.years| == 15 && p.years[0] == 2014 && p.years[14] == 2000
      && (forall k :: 0 <= k < 15 ==> p.years[k] == 2014 - k)
      && |p.delays| == 14 && (forall k :: 0 <= k < 14 ==> p.delays[k] == RetryDelay)
      && p.result.None?
  {
    AllEmpty(api, s, 2014, 2000);
    SearchShape(api, s, api(YearWindow(s, 2014)), 2014, 2000);
  }
}
