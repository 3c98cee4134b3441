/** The paginated client of the Climate Data Online REST service (cdoApiClient.js).

    One call of `Query` issues a request for the first page and keeps requesting the
    next page, 1500 ms later, until the page metadata says that everything has been
    fetched.  The remote service is a sequence of responses: the k-th request made
    during a query receives the k-th response; a request beyond the last response is
    still waiting (`Awaiting`).  The timer runs its callback at once and records the
    delay it was given. */
module ApiClient {
  import opened Wrappers
  import Decimal
  import Seqs

  /** Pacing delay, in milliseconds, before the next page is requested. */
  const PageDelay := 1500

  /** The fields of one logical query. */
  datatype QueryParams = QueryParams(
    dataset: string, datatypeid: string, locationId: string, startDate: string, endDate: string)

  /** `metadata.resultset` of a page. */
  datatype ResultSet = ResultSet(limit: int, count: int, offset: int)

  /** A parsed response body: its `results` and `metadata` when present with a value
      that is not null, and whether the object has any key at all (a `results` or
      `metadata` key whose value is null counts as a key). */
  datatype Page<R> = Page(results: Option<seq<R>>, metadata: Option<ResultSet>, hasKeys: bool)

  /** What the HTTP layer hands back for one request: an error (non-200 status or
      transport failure), a body that is not JSON, or a parsed body. */
  datatype Response<R> = HttpError(message: string) | Malformed | Body(page: Page<R>)

  /** An element of the accumulator.  `concat` with a missing or null `results` appends
      one `undefined` or `null` element rather than nothing; `Undefined` stands for
      either. */
  datatype Entry<R> = Undefined | Item(value: R)

  /** How one query ends: `done` with the accumulated records, `done` with null, no event
      at all, a thrown error, or a request still waiting for its response. */
  datatype Outcome<R> = Done(records: seq<Entry<R>>) | DoneNull | Silent | Raised(error: string) | Awaiting

  /** What `onRequestCompleted` decides for one response: stop with an outcome, or ask
      for the page at `offset`; `acc` is the accumulator afterwards. */
  datatype Reaction<R> = Stop(outcome: Outcome<R>, acc: Option<seq<Entry<R>>>)
                       | Next(offset: int, acc: Option<seq<Entry<R>>>)

  /** The offsets requested, the delays given to the timer, the outcome and the final
      accumulator of one query. */
  datatype Trace<R> = Trace(offsets: seq<int>, delays: seq<int>, outcome: Outcome<R>, acc: Option<seq<Entry<R>>>)

  // ---------------------------------------------------------------- request paths

  /** The request path without its offset: the data endpoint, then dataset, location,
      start date, end date and data type, then the fixed page size 1000. */
  function QueryPath(p: QueryParams): (path: string)
    ensures "/cdo-web/api/v2/data?datasetid=" + p.dataset + "&locationid=" <= path
    ensures |path| >= 11 && path[|path| - 11..] == "&limit=1000"
  {
    "/cdo-web/api/v2/data?datasetid=" + p.dataset
    + "&locationid=" + p.locationId
    + "&startdate=" + p.startDate
    + "&enddate=" + p.endDate
    + "&datatypeid=" + p.datatypeid
    + "&limit=1000"
  }

  /** The `&`-separated fields of a path, in order. */
  function Fields(s: string): (r: seq<string>)
    ensures |r| >= 1
    decreases |s|
  {
    if |s| == 0 then [""]
    else
      var rest := Fields(s[1..]);
      if s[0] == '&' then [""] + rest else [[s[0]] + rest[0]] + rest[1..]
  }

  /** A value that holds no field separator. */
  predicate NoAmp(s: string) {
    forall i :: 0 <= i < |s| ==> s[i] != '&'
  }

  lemma NoAmpAppend(a: string, b: string)
    ensures NoAmp(a + b) <==> NoAmp(a) && NoAmp(b)
  {
    if NoAmp(a) && NoAmp(b) {
      forall i | 0 <= i < |a + b| ensures (a + b)[i] != '&' {
        if i >= |a| { assert (a + b)[i] == b[i - |a|]; }
      }
    }
    if NoAmp(a + b) {
      forall i | 0 <= i < |a| ensures a[i] != '&' {
        assert (a + b)[i] == a[i];
      }
      forall i | 0 <= i < |b| ensures b[i] != '&' {
        assert (a + b)[|a| + i] == b[i];
      }
    }
  }

  /** Appending a separator and a separator-free field adds it as the last field. */
  lemma {:induction false} FieldsSnoc(a: string, b: string)
    requires NoAmp(b)
    ensures Fields(a + "&" + b) == Fields(a) + [b]
    decreases |a|
  {
    var s := a + "&" + b;
    if |a| == 0 {
      assert s == "&" + b && s[1..] == b;
      FieldsSingle(b);
    } else {
      assert s[0] == a[0] && s[1..] == a[1..] + "&" + b;
      FieldsSnoc(a[1..], b);
    }
  }

  /** A separator-free string is one field. */
  lemma {:induction false} FieldsSingle(a: string)
    requires NoAmp(a)
    ensures Fields(a) == [a]
    decreases |a|
  {
    if |a| > 0 {
      FieldsSingle(a[1..]);
      assert [a[0]] + a[1..] == a;
    }
  }

  /** One `&key=value` step of the query path. */
  lemma AddField(a: string, fs: seq<string>, ampKey: string, key: string, value: string)
    requires Fields(a) == fs && ampKey == "&" + key && NoAmp(key) && NoAmp(value)
    ensures Fields(a + ampKey + value) == fs + [key + value]
  {
    assert a + ampKey + value == a + "&" + (key + value);
    NoAmpAppend(key, value);
    FieldsSnoc(a, key + value);
  }

  /** The first three fields of the query path: endpoint with dataset, location and
      start date. */
  lemma QueryPathHead(p: QueryParams)
    requires NoAmp(p.dataset) && NoAmp(p.locationId) && NoAmp(p.startDate)
    ensures Fields("/cdo-web/api/v2/data?datasetid=" + p.dataset + "&locationid=" + p.locationId
                   + "&startdate=" + p.startDate)
         == ["/cdo-web/api/v2/data?datasetid=" + p.dataset, "locationid=" + p.locationId,
             "startdate=" + p.startDate]
  {
    var a1 := "/cdo-web/api/v2/data?datasetid=" + p.dataset;
    var a2 := a1 + "&locationid=" + p.locationId;
    assert Fields(a1) == [a1] by {
      NoAmpAppend("/cdo-web/api/v2/data?datasetid=", p.dataset);
      FieldsSingle(a1);
    }
    AddField(a1, [a1], "&locationid=", "locationid=", p.locationId);
    AddField(a2, [a1, "locationid=" + p.locationId], "&startdate=", "startdate=", p.startDate);
  }

  /** When no parameter holds a `&`, the query path reads back field by field: the
      endpoint with the dataset, then location, start date, end date, data type and the
      page size, in that order. */
  lemma QueryPathFields(p: QueryParams)
    requires NoAmp(p.dataset) && NoAmp(p.locationId) && NoAmp(p.startDate)
    requires NoAmp(p.endDate) && NoAmp(p.datatypeid)
    ensures Fields(QueryPath(p)) == [
      "/cdo-web/api/v2/data?datasetid=" + p.dataset, "locationid=" + p.locationId,
      "startdate=" + p.startDate, "enddate=" + p.endDate, "datatypeid=" + p.datatypeid,
      "limit=1000"]
  {
    var a3 := "/cdo-web/api/v2/data?datasetid=" + p.dataset + "&locationid=" + p.locationId
              + "&startdate=" + p.startDate;
    var a4 := a3 + "&enddate=" + p.endDate;
    var a5 := a4 + "&datatypeid=" + p.datatypeid;
    var f3 := ["/cdo-web/api/v2/data?datasetid=" + p.dataset, "locationid=" + p.locationId,
               "startdate=" + p.startDate];
    var f4 := f3 + ["enddate=" + p.endDate];
    var f5 := f4 + ["datatypeid=" + p.datatypeid];
    QueryPathHead(p);
    AddField(a3, f3, "&enddate=", "enddate=", p.endDate);
    AddField(a4, f4, "&datatypeid=", "datatypeid=", p.datatypeid);
    AddField(a5, f5, "&limit=1000", "limit=1000", "");
    assert a5 + "&limit=1000" + "" == QueryPath(p) && "limit=1000" + "" == "limit=1000";
  }

  /** The full path of the request for the page at `offset`. */
  function RequestPath(base: string, offset: int): string {
    base + "&offset=" + Decimal.IntToString(offset)
  }

  /** The paths of requests at the given offsets, in order. */
  function RequestPaths(base: string, offsets: seq<int>): seq<string>
  {
    if offsets == [] then [] else [RequestPath(base, offsets[0])] + RequestPaths(base, offsets[1..])
  }

  /** Two requests of one query differ only in their offset, and the offset can be read
      back from the path. */
  lemma {:induction false} RequestPathOffset(base: string, offset: int, other: int)
    ensures var path := RequestPath(base, offset);
      path[..|base| + 8] == base + "&offset="
      && Decimal.ParseInt(path[|base| + 8..]) == offset
    ensures RequestPath(base, offset) == RequestPath(base, other) <==> offset == other
  {
    var path := RequestPath(base, offset);
    assert path[|base| + 8..] == Decimal.IntToString(offset);
    Decimal.ParseIntToString(offset);
    if path == RequestPath(base, other) {
      assert RequestPath(base, other)[|base| + 8..] == Decimal.IntToString(other);
      Decimal.IntToStringInjective(offset, other);
    }
  }

  /** A body whose only key is a null `metadata` emits nothing, as a body with data but
      no metadata does. */
  lemma ExampleNullMetadata<R>(acc: seq<Entry<R>>)
    ensures var nullMeta: Page<R> := Page(None, None, true);
      OnResponse(Some(acc), Body(nullMeta)) == Stop(Silent, Some(acc + [Undefined]))
    ensures var empty: Page<R> := Page(None, None, false);
      OnResponse(Some(acc), Body(empty)) == Stop(DoneNull, Some(acc + [Undefined]))
  {
  }

  /** `offset ? offset : 1`: a missing or zero offset starts at the first page. */
  function InitialOffset(offset: Option<int>): (o: int)
    ensures offset == None ==> o == 1
    ensures o != 0
    ensures offset == Some(0) ==> o == 1
    ensures offset.Some? && offset.value != 0 ==> o == offset.value
  {
    if offset.None? || offset.value == 0 then 1 else offset.value
  }

  // ---------------------------------------------------------------- pagination

  /** The accumulator entries a page contributes. */
  function PageEntries<R>(p: Page<R>): seq<Entry<R>>
  {
    match p.results
    case None => [Undefined]
    case Some(rs) => seq(|rs|, k requires 0 <= k < |rs| => Item(rs[k]))
  }

  /** `Object.keys(resultJson).length === 0`.  A page with results or metadata has keys
      whatever its flag says, so only a page with neither can be empty. */
  predicate IsEmptyObject<R>(p: Page<R>) {
    p.results.None? && p.metadata.None? && !p.hasKeys
  }

  /** The reset done by `makeRequest`: a request at offset 1 starts from an empty
      accumulator; any other offset keeps it. */
  function AccumulatorFor<R>(acc: Option<seq<Entry<R>>>, offset: int): Option<seq<Entry<R>>> {
    if offset == 1 then Some([]) else acc
  }

  /** The outcome reported to a caller by the 'done' event: nothing, or one value. */
  function Emitted<R>(outcome: Outcome<R>): (e: seq<Option<seq<Entry<R>>>>)
    ensures |e| <= 1
    ensures |e| == 1 <==> outcome.Done? || outcome.DoneNull?
    ensures outcome.Done? ==> e == [Some(outcome.records)]
    ensures outcome.DoneNull? ==> e == [None]
  {
    match outcome
    case Done(records) => [Some(records)]
    case DoneNull => [None]
    case _ => []
  }

  /** The rule of `onRequestCompleted` and of the HTTP error callback for one response. */
  function OnResponse<R>(acc: Option<seq<Entry<R>>>, response: Response<R>): (r: Reaction<R>)
    ensures response.HttpError? ==> r == Stop(Raised(response.message), acc)
    ensures r.Next? ==> response.Body? && response.page.metadata.Some?
    ensures response.Body? && acc.Some? ==> r.acc == Some(acc.value + PageEntries(response.page))
  {
    match response
    case HttpError(message) => Stop(Raised(message), acc)
    case Malformed => Stop(Raised("SyntaxError: unexpected token in JSON"), acc)
    case Body(page) =>
      if acc.None? then Stop(Raised("TypeError: cannot read property 'concat' of undefined"), acc)
      else
        var acc' := acc.value + PageEntries(page);
        match page.metadata
        case Some(rs) =>
          var next := rs.offset + rs.limit;
          if next > rs.count then Stop(Done(acc'), Some(acc')) else Next(next, Some(acc'))
        case None =>
          if IsEmptyObject(page) then Stop(DoneNull, Some(acc')) else Stop(Silent, Some(acc'))
  }

  /** A whole query, starting with a request at `offset` with accumulator `acc`. */
  function Paginate<R>(acc: Option<seq<Entry<R>>>, offset: int, server: seq<Response<R>>): (t: Trace<R>)
    decreases |server|
    ensures |t.offsets| >= 1 && t.offsets[0] == offset
    ensures |t.offsets| <= |server| + 1
    ensures t.outcome.Awaiting? <==> |t.offsets| == |server| + 1
    ensures |t.delays| == |t.offsets| - 1
    ensures t.outcome.Done? ==> t.acc == Some(t.outcome.records)
  {
    var acc' := AccumulatorFor(acc, offset);
    if |server| == 0 then Trace([offset], [], Awaiting, acc')
    else
      match OnResponse(acc', server[0])
      case Stop(outcome, acc'') => Trace([offset], [], outcome, acc'')
      case Next(next, acc'') =>
        var rest := Paginate(acc'', next, server[1..]);
        Trace([offset] + rest.offsets, [PageDelay] + rest.delays, rest.outcome, rest.acc)
  }

  /** One step of `Paginate`, unfolded. */
  lemma PaginateStep<R>(acc: Option<seq<Entry<R>>>, offset: int, server: seq<Response<R>>)
    requires |server| > 0
    ensures var r := OnResponse(AccumulatorFor(acc, offset), server[0]);
      var t := Paginate(acc, offset, server);
      (r.Stop? ==> t == Trace([offset], [], r.outcome, r.acc))
      && (r.Next? ==>
            var rest := Paginate(r.acc, r.offset, server[1..]);
            t == Trace([offset] + rest.offsets, [PageDelay] + rest.delays, rest.outcome, rest.acc))
  {
  }

  // ---------------------------------------------------------------- properties

  /** A page's records enter the accumulator in order, one entry per record; a page
      without a `results` member adds one undefined entry. */
  lemma PageEntriesAre<R>(p: Page<R>)
    ensures p.results.Some? ==>
      |PageEntries(p)| == |p.results.value|
      && forall k :: 0 <= k < |p.results.value| ==> PageEntries(p)[k] == Item(p.results.value[k])
    ensures p.results.None? ==> PageEntries(p) == [Undefined]
  {
  }

  /** Every pause between two requests of a query is the 1500 ms of the source. */
  lemma {:induction false} PaginateDelays<R>(acc: Option<seq<Entry<R>>>, offset: int, server: seq<Response<R>>)
    ensures forall k :: 0 <= k < |Paginate(acc, offset, server).delays| ==>
      Paginate(acc, offset, server).delays[k] == PageDelay
    decreases |server|
  {
    if |server| > 0 {
      var r := OnResponse(AccumulatorFor(acc, offset), server[0]);
      if r.Next? {
        PaginateDelays(r.acc, r.offset, server[1..]);
      }
    }
  }

  /** A query started at offset 1 does not depend on what an earlier query accumulated,
      and it raises only on an answer to its last request that is not a parsable body. */
  lemma FreshQueryIgnoresEarlierResults<R>(acc: Option<seq<Entry<R>>>, other: Option<seq<Entry<R>>>, server: seq<Response<R>>)
    ensures Paginate(acc, 1, server) == Paginate(other, 1, server)
    ensures var t := Paginate(acc, 1, server);
      t.outcome.Raised? ==> |t.offsets| <= |server| && !server[|t.offsets| - 1].Body?
  {
    RaisedOnlyOnErrors(acc, 1, server);
  }

  /** With an accumulator in place, the only errors are the HTTP layer's and JSON's, and
      they come from the answer to the last request made. */
  lemma {:induction false} RaisedOnlyOnErrors<R>(acc: Option<seq<Entry<R>>>, offset: int, server: seq<Response<R>>)
    requires AccumulatorFor(acc, offset).Some?
    ensures var t := Paginate(acc, offset, server);
      t.outcome.Raised? ==> |t.offsets| <= |server| && !server[|t.offsets| - 1].Body?
    decreases |server|
  {
    var acc' := AccumulatorFor(acc, offset);
    if |server| > 0 {
      PaginateStep(acc, offset, server);
      match OnResponse(acc', server[0])
      case Stop(_, _) =>
      case Next(next, acc'') =>
        RaisedOnlyOnErrors(acc'', next, server[1..]);
        var rest := Paginate(acc'', next, server[1..]);
        if rest.outcome.Raised? {
          assert server[1..][|rest.offsets| - 1] == server[|rest.offsets|];
        }
    }
  }

  /** An HTTP error is terminal: one request, no timer, no 'done' event. */
  lemma HttpErrorStops<R>(acc: Option<seq<Entry<R>>>, offset: int, server: seq<Response<R>>)
    requires |server| > 0 && server[0].HttpError?
    ensures var t := Paginate(acc, offset, server);
      t.offsets == [offset] && t.delays == [] && t.outcome == Raised(server[0].message)
      && Emitted(t.outcome) == []
  {
  }

  /** The decision for a page with metadata: when `offset + limit > count` the query is
      done with every record so far including this page (with nothing before it on the
      first page); otherwise exactly one more request, at `offset + limit`, after the
      1500 ms delay. */
  lemma PageWithMetadata<R>(acc: seq<Entry<R>>, offset: int, server: seq<Response<R>>)
    requires |server| > 0 && server[0].Body? && server[0].page.metadata.Some?
    ensures var rs := server[0].page.metadata.value;
      var t := Paginate(Some(acc), offset, server);
      var all := AccumulatorFor(Some(acc), offset).value + PageEntries(server[0].page);
      (rs.offset + rs.limit > rs.count ==> t.offsets == [offset] && t.delays == [] && t.outcome == Done(all))
      && (rs.offset + rs.limit <= rs.count ==>
            |t.offsets| >= 2 && t.offsets[1] == rs.offset + rs.limit && t.delays[0] == PageDelay
            && t == var rest := Paginate(Some(all), rs.offset + rs.limit, server[1..]);
                    Trace([offset] + rest.offsets, [PageDelay] + rest.delays, rest.outcome, rest.acc))
  {
  }

  /** The empty object `{}` means "no data"; a body with neither metadata nor emptiness
      ends the query without any event. */
  lemma PageWithoutMetadata<R>(acc: seq<Entry<R>>, offset: int, server: seq<Response<R>>)
    requires |server| > 0 && server[0].Body? && server[0].page.metadata.None?
    ensures var t := Paginate(Some(acc), offset, server);
      t.offsets == [offset] && t.delays == []
      && (IsEmptyObject(server[0].page) ==> t.outcome == DoneNull && Emitted(t.outcome) == [None])
      && (!IsEmptyObject(server[0].page) ==> t.outcome == Silent && Emitted(t.outcome) == [])
  {
  }

  /** The entries of a run of responses, in order. */
  function Entries<R>(server: seq<Response<R>>): seq<Entry<R>> {
    if |server| == 0 then []
    else (if server[0].Body? then PageEntries(server[0].page) else []) + Entries(server[1..])
  }

  /** No page sends the client back to offset 1 (which would reset the accumulator). */
  predicate NeverRestarts<R>(server: seq<Response<R>>) {
    forall k :: 0 <= k < |server| && server[k].Body? && server[k].page.metadata.Some? ==>
      server[k].page.metadata.value.offset + server[k].page.metadata.value.limit != 1
  }

  /** `done` carries the records of every page fetched since the accumulator was last
      reset, in order. */
  lemma {:induction false} DoneHasAllPages<R>(acc: Option<seq<Entry<R>>>, offset: int, server: seq<Response<R>>)
    requires AccumulatorFor(acc, offset).Some? && NeverRestarts(server)
    ensures var t := Paginate(acc, offset, server);
      t.outcome.Done? ==>
        t.outcome.records == AccumulatorFor(acc, offset).value + Entries(server[..|t.offsets|])
    decreases |server|
  {
    var t := Paginate(acc, offset, server);
    var a := AccumulatorFor(acc, offset).value;
    if |server| > 0 && t.outcome.Done? {
      PaginateStep(acc, offset, server);
      var all := a + PageEntries(server[0].page);
      match OnResponse(Some(a), server[0])
      case Stop(_, _) =>
        assert server[..1] == [server[0]];
        assert Entries(server[..1]) == PageEntries(server[0].page) + Entries(server[..1][1..]);
      case Next(next, acc'') =>
        assert next != 1;
        assert NeverRestarts(server[1..]) by {
          forall k | 0 <= k < |server[1..]| ensures server[1..][k] == server[k + 1] { }
        }
        DoneHasAllPages(acc'', next, server[1..]);
        var rest := Paginate(acc'', next, server[1..]);
        var n := |t.offsets|;
        assert n == 1 + |rest.offsets| && |rest.offsets| <= |server| - 1;
        assert server[..n][1..] == server[1..][..|rest.offsets|];
        assert Entries(server[..n]) == PageEntries(server[0].page) + Entries(server[..n][1..]);
    }
  }

  /** A fresh query's `done` carries exactly the records of the pages it fetched. */
  lemma FreshDoneHasAllPages<R>(acc: Option<seq<Entry<R>>>, server: seq<Response<R>>)
    requires NeverRestarts(server)
    ensures var t := Paginate(acc, 1, server);
      t.outcome.Done? ==> t.outcome.records == Entries(server[..|t.offsets|])
  {
    DoneHasAllPages(acc, 1, server);
  }

  /** The offset of the k-th page when pages hold `limit` records: 1, 1 + limit, ... */
  function PageOffset(limit: int, k: nat): int {
    if k == 0 then 1 else PageOffset(limit, k - 1) + limit
  }

  lemma {:induction false} PageOffsetIs(limit: int, k: nat)
    ensures PageOffset(limit, k) == 1 + k * limit
  {
    if k > 0 {
      PageOffsetIs(limit, k - 1);
      assert (k - 1) * limit + limit == k * limit;
    }
  }

  /** A service that pages with a fixed `limit` through `count` records, each page
      reporting its own offset, starting with offset 1. */
  predicate Uniform<R>(server: seq<Response<R>>, limit: int, count: int) {
    forall k :: 0 <= k < |server| ==>
      server[k].Body? && server[k].page.metadata == Some(ResultSet(limit, count, PageOffset(limit, k)))
  }

  /** The index of the last page of a uniform service. */
  function LastPage(limit: int, count: int): nat
    requires limit > 0
  {
    if count >= 1 then (count - 1) / limit else 0
  }

  /** Every page before the last one leaves records to fetch; the last one does not. */
  lemma LastPageBounds(limit: int, count: int)
    requires limit > 0
    ensures var n := LastPage(limit, count);
      (forall j :: 0 < j <= n ==> PageOffset(limit, j) <= count) && PageOffset(limit, n + 1) > count
  {
    var n := LastPage(limit, count);
    PageOffsetIs(limit, n + 1);
    if count >= 1 {
      assert n * limit <= count - 1 < (n + 1) * limit;
      forall j | 0 < j <= n ensures PageOffset(limit, j) <= count {
        PageOffsetIs(limit, j);
        assert j * limit <= n * limit;
      }
    }
  }

  /** The client's decision on the j-th page of a uniform service. */
  lemma UniformStep<R>(server: seq<Response<R>>, limit: int, count: int, j: nat, acc: seq<Entry<R>>)
    requires limit > 0 && Uniform(server, limit, count)
    requires j <= LastPage(limit, count) < |server|
    requires j > 0 || acc == []
    ensures var all := acc + PageEntries(server[j].page);
      OnResponse(AccumulatorFor(Some(acc), PageOffset(limit, j)), server[j])
        == if j == LastPage(limit, count) then Stop(Done(all), Some(all))
           else Next(PageOffset(limit, j + 1), Some(all))
  {
    LastPageBounds(limit, count);
    if j > 0 {
      PageOffsetIs(limit, j);
      assert j * limit > 0;
    }
    assert server[j].page.metadata == Some(ResultSet(limit, count, PageOffset(limit, j)));
  }

  lemma EntriesCons<R>(server: seq<Response<R>>, j: nat, m: nat)
    requires j < m <= |server| && server[j].Body?
    ensures Entries(server[j..m]) == PageEntries(server[j].page) + Entries(server[j + 1..m])
  {
    assert server[j..m][0] == server[j];
    assert server[j..m][1..] == server[j + 1..m];
  }

  /** The offsets of pages j, j + 1, ..., n. */
  function PageOffsets(limit: int, j: nat, n: nat): (s: seq<int>)
    decreases n + 1 - j
    ensures |s| == if j <= n then n + 1 - j else 0
  {
    if j > n then [] else [PageOffset(limit, j)] + PageOffsets(limit, j + 1, n)
  }

  lemma {:induction false} PageOffsetsAre(limit: int, j: nat, n: nat)
    ensures forall k :: 0 <= k < |PageOffsets(limit, j, n)| ==>
      PageOffsets(limit, j, n)[k] == 1 + (j + k) * limit
    decreases n + 1 - j
  {
    if j <= n {
      PageOffsetsAre(limit, j + 1, n);
      PageOffsetIs(limit, j);
      forall k | 0 < k < |PageOffsets(limit, j, n)|
        ensures PageOffsets(limit, j, n)[k] == 1 + (j + k) * limit
      {
        var i := k - 1;
        assert PageOffsets(limit, j, n)[k] == PageOffsets(limit, j + 1, n)[i];
        assert j + 1 + i == j + k;
      }
    }
  }

  /** The j-th page of a uniform service, seen from the query as a whole: the last page
      finishes it, any other leads on to the next page. */
  lemma UniformPage<R>(server: seq<Response<R>>, limit: int, count: int, j: nat, acc: seq<Entry<R>>)
    requires limit > 0 && Uniform(server, limit, count)
    requires j <= LastPage(limit, count) < |server|
    requires j > 0 || acc == []
    ensures var all := acc + PageEntries(server[j].page);
      var t := Paginate(Some(acc), PageOffset(limit, j), server[j..]);
      var rest := Paginate(Some(all), PageOffset(limit, j + 1), server[j + 1..]);
      (j == LastPage(limit, count) ==> t.offsets == [PageOffset(limit, j)] && t.outcome == Done(all))
      && (j < LastPage(limit, count) ==>
            t.offsets == [PageOffset(limit, j)] + rest.offsets && t.outcome == rest.outcome)
  {
    assert server[j..][0] == server[j] && server[j..][1..] == server[j + 1..];
    UniformStep(server, limit, count, j, acc);
    PaginateStep(Some(acc), PageOffset(limit, j), server[j..]);
  }

  /** From the j-th page on, the requests go to the offsets of pages j, j + 1, ..., n. */
  lemma {:induction false} UniformOffsets<R>(server: seq<Response<R>>, limit: int, count: int, j: nat, acc: seq<Entry<R>>)
    requires limit > 0 && Uniform(server, limit, count)
    requires j <= LastPage(limit, count) < |server|
    requires j > 0 || acc == []
    ensures Paginate(Some(acc), PageOffset(limit, j), server[j..]).offsets
         == PageOffsets(limit, j, LastPage(limit, count))
    decreases LastPage(limit, count) - j
  {
    UniformPage(server, limit, count, j, acc);
    if j < LastPage(limit, count) {
      UniformOffsets(server, limit, count, j + 1, acc + PageEntries(server[j].page));
    }
  }

  /** From the j-th page on, the query is done with the records of pages j, ..., n
      added to the accumulator. */
  lemma {:induction false} UniformOutcome<R>(server: seq<Response<R>>, limit: int, count: int, j: nat, acc: seq<Entry<R>>)
    requires limit > 0 && Uniform(server, limit, count)
    requires j <= LastPage(limit, count) < |server|
    requires j > 0 || acc == []
    ensures Paginate(Some(acc), PageOffset(limit, j), server[j..]).outcome
         == Done(acc + Entries(server[j..LastPage(limit, count) + 1]))
    decreases LastPage(limit, count) - j
  {
    var n := LastPage(limit, count);
    var all := acc + PageEntries(server[j].page);
    var t := Paginate(Some(acc), PageOffset(limit, j), server[j..]);
    if j < n {
      var rest := Paginate(Some(all), PageOffset(limit, j + 1), server[j + 1..]);
      assert t.outcome == rest.outcome by { UniformPage(server, limit, count, j, acc); }
      assert rest.outcome == Done(all + Entries(server[j + 1..n + 1])) by {
        UniformOutcome(server, limit, count, j + 1, all);
      }
      assert all + Entries(server[j + 1..n + 1]) == acc + Entries(server[j..n + 1]) by {
        EntriesCons(server, j, n + 1);
        Seqs.AppendAssoc(acc, PageEntries(server[j].page), Entries(server[j + 1..n + 1]));
      }
    } else {
      assert t.outcome == Done(all) by { UniformPage(server, limit, count, j, acc); }
      assert Entries(server[j..n + 1]) == PageEntries(server[j].page) by {
        EntriesCons(server, j, n + 1);
        assert server[j + 1..n + 1] == [];
      }
    }
  }

  /** With a service paging uniformly by `limit` through `count` records, a fresh query
      requests offsets 1, 1 + limit, 1 + 2 * limit, ... up to the last page, pauses
      1500 ms before each but the first, and is done with all records of those pages. */
  lemma UniformPaging<R>(server: seq<Response<R>>, limit: int, count: int, acc: Option<seq<Entry<R>>>)
    requires limit > 0 && Uniform(server, limit, count)
    requires LastPage(limit, count) < |server|
    ensures var n := LastPage(limit, count);
      var t := Paginate(acc, 1, server);
      t.offsets == seq(n + 1, k requires 0 <= k < n + 1 => 1 + k * limit)
      && t.delays == seq(n, k requires 0 <= k < n => PageDelay)
      && t.outcome == Done(Entries(server[..n + 1]))
  {
    var n := LastPage(limit, count);
    FreshQueryIgnoresEarlierResults(acc, Some([]), server);
    PaginateDelays(acc, 1, server);
    UniformOffsets(server, limit, count, 0, []);
    UniformOutcome(server, limit, count, 0, []);
    assert server[0..] == server;
    assert server[0..n + 1] == server[..n + 1];
    PageOffsetsAre(limit, 0, n);
  }

  /** The unit test's service: limit 25 and count 100 give requests at offsets 1, 26, 51
      and 76, and then the client stops; count 15 finishes after one page. */
  lemma ExamplePaging<R>(server: seq<Response<R>>, small: seq<Response<R>>)
    requires Uniform(server, 25, 100) && |server| >= 4
    requires Uniform(small, 25, 15) && |small| >= 1
    ensures Paginate(None, 1, server).offsets == [1, 26, 51, 76]
    ensures Paginate(None, 1, server).delays == [1500, 1500, 1500]
    ensures Paginate(None, 1, server).outcome.Done?
    ensures Paginate(None, 1, small).offsets == [1] && Paginate(None, 1, small).outcome.Done?
  {
    assert LastPage(25, 100) == 3;
    UniformPaging(server, 25, 100, None);
    assert LastPage(25, 15) == 0;
    UniformPaging(small, 25, 15, None);
  }

  // ---------------------------------------------------------------- the client object

  /** The client object: the path of the current query and the accumulator, plus the
      requests, timer delays and 'done' events it has produced. */
  class Client<R> {
    var apiQueryPath: string
    var queryResults: Option<seq<Entry<R>>>
    /** Paths handed to the HTTP client, in order. */
    var requested: seq<string>
    /** Delays handed to the timer, in order. */
    var delays: seq<int>
    /** Values emitted with the 'done' event, in order. */
    var emitted: seq<Option<seq<Entry<R>>>>

    constructor ()
      ensures queryResults == None && requested == [] && delays == [] && emitted == []
    {
      apiQueryPath := "";
      queryResults := None;
      requested, delays, emitted := [], [], [];
    }

    /** `makeRequest`: resets the accumulator for offset 1 and issues the request. */
    method MakeRequest(offset: int)
      modifies this
      ensures queryResults == AccumulatorFor(old(queryResults), offset)
      ensures requested == old(requested) + [RequestPath(apiQueryPath, offset)]
      ensures apiQueryPath == old(apiQueryPath) && delays == old(delays) && emitted == old(emitted)
    {
      if offset == 1 {
        queryResults := Some([]);
      }
      requested := requested + [RequestPath(apiQueryPath, offset)];
    }

    /** `onRequestCompleted` (and the error callback) for one response. */
    method OnRequestCompleted(response: Response<R>) returns (reaction: Reaction<R>)
      modifies this
      ensures reaction == OnResponse(old(queryResults), response)
      ensures queryResults == reaction.acc
      ensures delays == old(delays) + (if reaction.Next? then [PageDelay] else [])
      ensures emitted == old(emitted) + (if reaction.Stop? then Emitted(reaction.outcome) else [])
      ensures apiQueryPath == old(apiQueryPath) && requested == old(requested)
    {
      match response
      case HttpError(message) =>
        reaction := Stop(Raised(message), queryResults);
      case Malformed =>
        reaction := Stop(Raised("SyntaxError: unexpected token in JSON"), queryResults);
      case Body(page) =>
        if queryResults.None? {
          reaction := Stop(Raised("TypeError: cannot read property 'concat' of undefined"), queryResults);
          return;
        }
        queryResults := Some(queryResults.value + PageEntries(page));
        if page.metadata.Some? {
          var rs := page.metadata.value;
          var nextRequestOffset := rs.offset + rs.limit;
          if nextRequestOffset > rs.count {
            emitted := emitted + [queryResults];
            reaction := Stop(Done(queryResults.value), queryResults);
          } else {
            delays := delays + [PageDelay];
            reaction := Next(nextRequestOffset, queryResults);
          }
        } else if IsEmptyObject(page) {
          emitted := emitted + [None];
          reaction := Stop(DoneNull, queryResults);
        } else {
          reaction := Stop(Silent, queryResults);
        }
    }

    /** `query`: sets the path for `params` and walks the pages from `offset` (1 when
        absent or zero) until the query ends or waits on a response. */
    method Query(params: QueryParams, offset: Option<int>, server: seq<Response<R>>) returns (outcome: Outcome<R>)
      modifies this
      ensures apiQueryPath == QueryPath(params)
      ensures var t := Paginate(old(queryResults), InitialOffset(offset), server);
        && outcome == t.outcome
        && queryResults == t.acc
        && requested == old(requested) + RequestPaths(QueryPath(params), t.offsets)
        && delays == old(delays) + t.delays
        && emitted == old(emitted) + Emitted(t.outcome)
    {
      apiQueryPath := QueryPath(params);
      outcome := Walk(InitialOffset(offset), server);
    }

    /** The chain `makeRequest` -> `onRequestCompleted` -> timer -> `makeRequest`: one
        round for the first response, then the chain again from the next offset. */
    method Walk(offset: int, server: seq<Response<R>>) returns (outcome: Outcome<R>)
      modifies this
      decreases |server|
      ensures apiQueryPath == old(apiQueryPath)
      ensures var t := Paginate(old(queryResults), offset, server);
        && outcome == t.outcome
        && queryResults == t.acc
        && requested == old(requested) + RequestPaths(apiQueryPath, t.offsets)
        && delays == old(delays) + t.delays
        && emitted == old(emitted) + Emitted(t.outcome)
    {
      if |server| == 0 {
        MakeRequest(offset);
        assert RequestPaths(apiQueryPath, [offset]) == [RequestPath(apiQueryPath, offset)];
        outcome := Awaiting;
        return;
      }
      PaginateStep(queryResults, offset, server);
      var reaction := Exchange(offset, server[0]);
      if reaction.Stop? {
        assert RequestPaths(apiQueryPath, [offset]) == [RequestPath(apiQueryPath, offset)];
        outcome := reaction.outcome;
        return;
      }
      ghost var requested1, delays1 := requested, delays;
      outcome := Walk(reaction.offset, server[1..]);
      ghost var rest := Paginate(reaction.acc, reaction.offset, server[1..]);
      assert requested == old(requested) + RequestPaths(apiQueryPath, [offset] + rest.offsets) by {
        RequestPathsCons(apiQueryPath, offset, rest.offsets);
        Seqs.AppendAssoc(old(requested), [RequestPath(apiQueryPath, offset)], RequestPaths(apiQueryPath, rest.offsets));
      }
      Seqs.AppendAssoc(old(delays), [PageDelay], rest.delays);
    }

    /** One round of the chain: `makeRequest(offset)` and then `onRequestCompleted` for
        the response the service gives to that request. */
    method Exchange(offset: int, response: Response<R>) returns (reaction: Reaction<R>)
      modifies this
      ensures reaction == OnResponse(AccumulatorFor(old(queryResults), offset), response)
      ensures queryResults == reaction.acc
      ensures requested == old(requested) + [RequestPath(apiQueryPath, offset)]
      ensures delays == old(delays) + (if reaction.Next? then [PageDelay] else [])
      ensures emitted == old(emitted) + (if reaction.Stop? then Emitted(reaction.outcome) else [])
      ensures apiQueryPath == old(apiQueryPath)
    {
      MakeRequest(offset);
      reaction := OnRequestCompleted(response);
    }
  }

  /** Requesting one more offset first puts its path first. */
  lemma RequestPathsCons(base: string, offset: int, offsets: seq<int>)
    ensures RequestPaths(base, [offset] + offsets) == [RequestPath(base, offset)] + RequestPaths(base, offsets)
  {
    assert ([offset] + offsets)[1..] == offsets;
  }
}
