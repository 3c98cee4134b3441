/** The older probing draft `cdoDataQuery.js`: one API client and one parameters
    object; on a null `done` the year steps back and only the two dates of the
    parameters object are rewritten before the same object is queried again. The
    remote side is an oracle from query parameters to records-or-null. */
module DataQuery {
  import opened Wrappers
  import ApiClient
  import ProbingQuery
  import Decimal
  import Seqs

  /** The `apiParameters` object, whose fields can be rewritten in place. */
  class ApiParameters {
    var dataset: string
    var datatypeid: string
    var locationId: string
    var startDate: string
    var endDate: string

    constructor(dataset: string, datatypeid: string, locationId: string, startDate: string, endDate: string)
      ensures this.dataset == dataset && this.datatypeid == datatypeid && this.locationId == locationId
      ensures this.startDate == startDate && this.endDate == endDate
    {
      this.dataset := dataset;
      this.datatypeid := datatypeid;
      this.locationId := locationId;
      this.startDate := startDate;
      this.endDate := endDate;
    }

    /** The parameters as the API client reads them when `query` is called. */
    function Snapshot(): ApiClient.QueryParams
      reads this
    {
      ApiClient.QueryParams(dataset, datatypeid, locationId, startDate, endDate)
    }

    /** The fields no retry touches. */
    function Series(): ProbingQuery.Series
      reads this
    {
      ProbingQuery.Series(locationId, dataset, datatypeid)
    }

    /** The rewrite done before each retry. */
    method SetYear(year: int)
      modifies this
      ensures Snapshot() == ProbingQuery.YearWindow(old(Series()), year)
      ensures Series() == old(Series())
    {
      startDate := ProbingQuery.YearStart(year);
      endDate := ProbingQuery.YearEnd(year);
    }
  }

  /** The series a parameter set is for. */
  function SeriesOf(q: ApiClient.QueryParams): ProbingQuery.Series {
    ProbingQuery.Series(q.locationId, q.dataset, q.datatypeid)
  }

  /** Everything a run changes: the year, the parameters object's fields, and the
      parameters of every API query, the timer pauses and the values handed to the
      completion callback so far. */
  datatype QueryState<R> = QueryState(
    queryYear: int, params: ApiClient.QueryParams, queries: seq<ApiClient.QueryParams>,
    delays: seq<int>, delivered: seq<Option<seq<R>>>)

  /** A new state and whether `onApiClientDone` scheduled a retry. */
  datatype Done<R> = Done(state: QueryState<R>, retry: bool)

  /** A new state and the value handed to the completion callback. */
  datatype Settled<R> = Settled(state: QueryState<R>, result: Option<seq<R>>)

  /** `query`: the parameters as they stand go out. */
  function AfterQuery<R>(st: QueryState<R>): QueryState<R> {
    st.(queries := st.queries + [st.params])
  }

  /** `onApiClientDone`: data is handed on; null steps one year back and either rewrites
      the two dates for a retry after 1000 ms or, below `endYear`, hands on null. */
  function AfterDone<R>(st: QueryState<R>, endYear: int, callback: bool, answer: Option<seq<R>>): (d: Done<R>)
    ensures d.retry ==> d.state.queryYear == st.queryYear - 1 >= endYear
  {
    if answer.Some? then
      Done(st.(delivered := st.delivered + (if callback then [answer] else [])), false)
    else if st.queryYear - 1 >= endYear then
      Done(st.(queryYear := st.queryYear - 1, delays := st.delays + [ProbingQuery.RetryDelay],
               params := ProbingQuery.YearWindow(SeriesOf(st.params), st.queryYear - 1)), true)
    else
      Done(st.(queryYear := st.queryYear - 1, delivered := st.delivered + (if callback then [None] else [])), false)
  }

  /** `onApiClientDone` and its retries, the query for `queryYear` having answered
      `answer`. */
  function Settle<R>(st: QueryState<R>, endYear: int, callback: bool, api: ApiClient.QueryParams -> Option<seq<R>>, answer: Option<seq<R>>): Settled<R>
    decreases if st.queryYear >= endYear then st.queryYear - endYear + 1 else 0
  {
    var d := AfterDone(st, endYear, callback, answer);
    if !d.retry then Settled(d.state, answer)
    else Settle(AfterQuery(d.state), endYear, callback, api, api(d.state.params))
  }

  /** The query object: the floor year, the year it is at, its parameters object, and
      the parameters of every API query, the timer pauses and the values handed to the
      completion callback. */
  class CdoDataQuery<R> {
    const endYear: int
    const apiParameters: ApiParameters
    var queryYear: int
    var queries: seq<ApiClient.QueryParams>
    var delays: seq<int>
    var delivered: seq<Option<seq<R>>>

    constructor(locationId: string, dataset: string, datatypeid: string, startYear: int, endYear: int)
      ensures fresh(apiParameters)
      ensures this.endYear == endYear
      ensures State() == QueryState(startYear,
        ProbingQuery.YearWindow(ProbingQuery.Series(locationId, dataset, datatypeid), startYear), [], [], [])
    {
      this.endYear := endYear;
      queryYear := startYear;
      apiParameters := new ApiParameters(dataset, datatypeid, locationId,
        ProbingQuery.YearStart(startYear), ProbingQuery.YearEnd(startYear));
      queries := [];
      delays := [];
      delivered := [];
    }

    function State(): QueryState<R>
      reads this, apiParameters
    {
      QueryState(queryYear, apiParameters.Snapshot(), queries, delays, delivered)
    }

    /** `ngdcApiClient.query(apiParameters)`, answered by the oracle. */
    method Query(api: ApiClient.QueryParams -> Option<seq<R>>) returns (answer: Option<seq<R>>)
      modifies this
      ensures answer == api(apiParameters.Snapshot())
      ensures State() == AfterQuery(old(State()))
    {
      var params := apiParameters.Snapshot();
      queries := queries + [params];
      answer := api(params);
    }

    /** `onApiClientDone`. */
    method OnApiClientDone(callback: bool, answer: Option<seq<R>>) returns (retry: bool)
      modifies this, apiParameters
      ensures Done(State(), retry) == AfterDone(old(State()), endYear, callback, answer)
    {
      if answer.Some? {
        if callback {
          delivered := delivered + [answer];
        }
        retry := false;
      } else {
        queryYear := queryYear - 1;
        if queryYear >= endYear {
          delays := delays + [ProbingQuery.RetryDelay];
          apiParameters.SetYear(queryYear);
          retry := true;
        } else {
          if callback {
            delivered := delivered + [None];
          }
          retry := false;
        }
      }
    }

    /** `run`: the first query goes out with the parameters as they stand; each retry
        rewrites the dates to the year probed. A missing callback is the no-op. */
    method Run(callback: bool, api: ApiClient.QueryParams -> Option<seq<R>>) returns (result: Option<seq<R>>)
      modifies this, apiParameters
      ensures var s := old(apiParameters.Series());
        var first := old(apiParameters.Snapshot());
        var p := ProbingQuery.SearchAfter(api, s, api(first), old(queryYear), endYear);
        && result == p.result
        && queryYear == p.finalYear
        && queries == old(queries) + [first] + ProbingQuery.Windows(s, p.years[1..])
        && delays == old(delays) + p.delays
        && delivered == old(delivered) + (if callback then [p.result] else [])
        && apiParameters.Series() == s
        && apiParameters.Snapshot()
           == (if |p.years| == 1 then first else ProbingQuery.YearWindow(s, p.years[|p.years| - 1]))
    {
      ghost var st := State();
      var answer := Query(api);
      result := Retry(callback, api, answer);
      SettleIsSearch(AfterQuery(st), endYear, callback, api, api(st.params));
    }

    /** `onApiClientDone` and the timer callback, as a loop over the answers. */
    method Retry(callback: bool, api: ApiClient.QueryParams -> Option<seq<R>>, answer: Option<seq<R>>) returns (result: Option<seq<R>>)
      modifies this, apiParameters
      ensures Settled(State(), result) == Settle(old(State()), endYear, callback, api, answer)
    {
      ghost var final := Settle(State(), endYear, callback, api, answer);
      var answer := answer;
      while true
        invariant final == Settle(State(), endYear, callback, api, answer)
        decreases if queryYear >= endYear then queryYear - endYear + 1 else 0
      {
        var retry := OnApiClientDone(callback, answer);
        if !retry {
          result := answer;
          return;
        }
        answer := Query(api);
      }
    }
  }

  /** The retries query exactly the windows of the probe's later years, in order, make
      its pauses, hand on its result once and stop at its final year, and leave the
      parameters at the window of its last year; the series never changes. */
  lemma SettleIsSearch<R>(st: QueryState<R>, endYear: int, callback: bool, api: ApiClient.QueryParams -> Option<seq<R>>, answer: Option<seq<R>>)
    ensures var s := SeriesOf(st.params);
      var p := ProbingQuery.SearchAfter(api, s, answer, st.queryYear, endYear);
      var f := Settle(st, endYear, callback, api, answer);
      && f.result == p.result
      && f.state.queryYear == p.finalYear
      && f.state.queries == st.queries + ProbingQuery.Windows(s, p.years[1..])
      && f.state.delays == st.delays + p.delays
      && f.state.delivered == st.delivered + (if callback then [p.result] else [])
      && SeriesOf(f.state.params) == s
      && f.state.params == (if |p.years| == 1 then st.params else ProbingQuery.YearWindow(s, p.years[|p.years| - 1]))
  {
    SettleOutcome(st, endYear, callback, api, answer);
    SettleQueries(st, endYear, callback, api, answer);
    SettleParams(st, endYear, callback, api, answer);
  }

  /** The retries end with the probe's result and final year. */
  lemma {:induction false} SettleOutcome<R>(st: QueryState<R>, endYear: int, callback: bool, api: ApiClient.QueryParams -> Option<seq<R>>, answer: Option<seq<R>>)
    ensures var s := SeriesOf(st.params);
      var p := ProbingQuery.SearchAfter(api, s, answer, st.queryYear, endYear);
      var f := Settle(st, endYear, callback, api, answer);
      && f.result == p.result
      && f.state.queryYear == p.finalYear
      && f.state.delivered == st.delivered + (if callback then [p.result] else [])
    decreases if st.queryYear >= endYear then st.queryYear - endYear + 1 else 0
  {
    var d := AfterDone(st, endYear, callback, answer);
    if d.retry {
      var s := SeriesOf(st.params);
      var st1 := AfterQuery(d.state);
      assert SeriesOf(st1.params) == s;
      SettleOutcome(st1, endYear, callback, api, api(d.state.params));
    }
  }

  /** The retries query the windows of the probe's later years and make its pauses. */
  lemma {:induction false} SettleQueries<R>(st: QueryState<R>, endYear: int, callback: bool, api: ApiClient.QueryParams -> Option<seq<R>>, answer: Option<seq<R>>)
    ensures var s := SeriesOf(st.params);
      var p := ProbingQuery.SearchAfter(api, s, answer, st.queryYear, endYear);
      var f := Settle(st, endYear, callback, api, answer);
      && f.state.queries == st.queries + ProbingQuery.Windows(s, p.years[1..])
      && f.state.delays == st.delays + p.delays
    decreases if st.queryYear >= endYear then st.queryYear - endYear + 1 else 0
  {
    var s := SeriesOf(st.params);
    var p := ProbingQuery.SearchAfter(api, s, answer, st.queryYear, endYear);
    var d := AfterDone(st, endYear, callback, answer);
    if d.retry {
      var year := st.queryYear - 1;
      var st1 := AfterQuery(d.state);
      var q := ProbingQuery.Search(api, s, year, endYear);
      assert SeriesOf(st1.params) == s;
      SettleQueries(st1, endYear, callback, api, api(d.state.params));
      assert p.years[1..] == q.years;
      AgreesWithProbingQuery(api, s, year, endYear);
      Seqs.AppendAssoc(st.queries, [ProbingQuery.YearWindow(s, year)], ProbingQuery.Windows(s, q.years[1..]));
      Seqs.AppendAssoc(st.delays, [ProbingQuery.RetryDelay], q.delays);
    } else {
      assert p.years[1..] == [];
      assert st.queries + [] == st.queries && st.delays + [] == st.delays;
    }
  }

  /** The retries leave the parameters at the window of the probe's last year. */
  lemma {:induction false} SettleParams<R>(st: QueryState<R>, endYear: int, callback: bool, api: ApiClient.QueryParams -> Option<seq<R>>, answer: Option<seq<R>>)
    ensures var s := SeriesOf(st.params);
      var p := ProbingQuery.SearchAfter(api, s, answer, st.queryYear, endYear);
      var f := Settle(st, endYear, callback, api, answer);
      && SeriesOf(f.state.params) == s
      && f.state.params == (if |p.years| == 1 then st.params else ProbingQuery.YearWindow(s, p.years[|p.years| - 1]))
    decreases if st.queryYear >= endYear then st.queryYear - endYear + 1 else 0
  {
    var s := SeriesOf(st.params);
    var p := ProbingQuery.SearchAfter(api, s, answer, st.queryYear, endYear);
    var d := AfterDone(st, endYear, callback, answer);
    if d.retry {
      var year := st.queryYear - 1;
      var st1 := AfterQuery(d.state);
      var q := ProbingQuery.Search(api, s, year, endYear);
      assert SeriesOf(st1.params) == s;
      SettleParams(st1, endYear, callback, api, api(d.state.params));
      assert p.years == [st.queryYear] + q.years;
      assert p.years[|p.years| - 1] == q.years[|q.years| - 1];
      if |q.years| == 1 {
        assert q.years[0] == year;
      }
    }
  }

  /** A run on parameters that still hold the window of `queryYear`, as the
      constructor leaves them, queries exactly what `cdoDataProbingQuery.js` queries and
      reaches the same result. */
  lemma {:induction false} AgreesWithProbingQuery<R>(api: ApiClient.QueryParams -> Option<seq<R>>, s: ProbingQuery.Series, year: int, endYear: int)
    ensures var first := ProbingQuery.YearWindow(s, year);
      var p := ProbingQuery.SearchAfter(api, s, api(first), year, endYear);
      p == ProbingQuery.Search(api, s, year, endYear)
      && [first] + ProbingQuery.Windows(s, p.years[1..]) == ProbingQuery.Windows(s, p.years)
  {
    var p := ProbingQuery.Search(api, s, year, endYear);
    var w := ProbingQuery.Windows(s, p.years);
    var v := [ProbingQuery.YearWindow(s, year)] + ProbingQuery.Windows(s, p.years[1..]);
    assert |v| == |w|;
    forall k | 0 <= k < |w| ensures v[k] == w[k] {
      if k > 0 {
        assert v[k] == ProbingQuery.Windows(s, p.years[1..])[k - 1];
        assert p.years[1..][k - 1] == p.years[k];
      }
    }
  }

  /** Across any run, dataset, data type and location of the parameters never change,
      and every query after the first is for the full year of its probe, from
      `<year>-01-01` to `<year>-12-31`. */
  lemma SeriesNeverChanges<R>(api: ApiClient.QueryParams -> Option<seq<R>>, s: ProbingQuery.Series, first: ApiClient.QueryParams, year: int, endYear: int)
    ensures var p := ProbingQuery.SearchAfter(api, s, api(first), year, endYear);
      var qs := ProbingQuery.Windows(s, p.years[1..]);
      forall k :: 0 <= k < |qs| ==>
        qs[k].dataset == s.dataset && qs[k].datatypeid == s.datatypeid && qs[k].locationId == s.locationId
        && qs[k].startDate == Decimal.IntToString(year - 1 - k) + "-01-01"
        && qs[k].endDate == Decimal.IntToString(year - 1 - k) + "-12-31"
        && ProbingQuery.DateYear(qs[k].startDate) == year - 1 - k
        && ProbingQuery.DateYear(qs[k].endDate) == year - 1 - k
  {
    var p := ProbingQuery.SearchAfter(api, s, api(first), year, endYear);
    var qs := ProbingQuery.Windows(s, p.years[1..]);
    ProbingQuery.SearchShape(api, s, api(first), year, endYear);
    forall k | 0 <= k < |qs|
      ensures qs[k].dataset == s.dataset && qs[k].datatypeid == s.datatypeid && qs[k].locationId == s.locationId
        && qs[k].startDate == Decimal.IntToString(year - 1 - k) + "-01-01"
        && qs[k].endDate == Decimal.IntToString(year - 1 - k) + "-12-31"
        && ProbingQuery.DateYear(qs[k].startDate) == year - 1 - k
        && ProbingQuery.DateYear(qs[k].endDate) == year - 1 - k
    {
      assert p.years[1..][k] == p.years[k + 1] == year - (k + 1);
      ProbingQuery.YearWindowYear(s, year - 1 - k);
    }
  }
}
