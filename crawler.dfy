/** The crawl orchestrator of `cdoDataCrawler.js`: walks the window of the location
    list that starts at `offset` and holds at most `count` locations, strictly in order.
    For each location it computes probing bounds and starts one probe; each completed
    probe adds its records, or the location's id when it found none, reports progress
    and schedules the next location after 2000 ms. The end of the window hands the
    results and the ids without data to the results callback. */
module Crawler {
  import opened Wrappers
  import ApiClient
  import Bounds
  import Seqs

  /** The pause before the next location, in milliseconds. */
  const NextDelay := 2000

  /** A location of the list; `maxYear` is the year of its `maxdate`, `None` when the
      date does not parse. */
  datatype Location = Location(id: string, maxYear: Option<int>)

  /** The arguments of the probing query started for one location. */
  datatype ProbeRequest = ProbeRequest(locationId: string, dataset: string, datatypeid: string, startYear: int, stopYear: int)

  /** What `queryNext` did: started a probe, called the results callback, or threw
      from `getProbingBounds`. */
  datatype Step = Probing(request: ProbeRequest) | Finished | Threw(error: string)

  /** One call of the results callback. */
  datatype Delivery<R> = Delivery(results: seq<R>, locationsNoData: seq<string>)

  /** The crawler's fixed configuration; `count` is the clipped one. */
  datatype Config = Config(dataset: string, datatypeid: string, locations: seq<Location>, offset: nat, count: nat, bounds: Bounds.Calculator)

  /** The constructor's clipping of `count` to the number of locations. */
  function ClipCount(count: nat, len: nat): (c: nat)
    ensures c <= len && c <= count
    ensures c == count || c == len
  {
    if len < count then len else count
  }

  /** The number of locations the crawl probes: as many as `count` allows and as remain
      after `offset`. */
  function Window(c: Config): (w: nat)
    ensures w <= c.count && (w > 0 ==> c.offset + w <= |c.locations|)
    ensures w == c.count || c.offset + w >= |c.locations|
  {
    if c.offset >= |c.locations| then 0
    else if c.count < |c.locations| - c.offset then c.count
    else |c.locations| - c.offset
  }

  /** `queryNext` for the location at `index` of the window. */
  function NextStep(c: Config, index: nat, currentYear: int): (s: Step)
    ensures s.Finished? <==> index >= Window(c)
  {
    if index < |c.locations| - c.offset && index < c.count then
      var loc := c.locations[index + c.offset];
      match Bounds.GetProbingBounds(c.bounds, loc.maxYear, currentYear)
      case Failure(e) => Threw(e)
      case Success(b) => Probing(ProbeRequest(loc.id, c.dataset, c.datatypeid, b.startYear, b.stopYear))
    else Finished
  }

  /** Inside the window, `queryNext` throws exactly when the location's `maxdate` does
      not parse, and otherwise probes that location, for the crawler's dataset and data
      type, between the bounds the calculator gives for it. */
  lemma NextStepIs(c: Config, index: nat, currentYear: int)
    requires index < Window(c)
    ensures var s := NextStep(c, index, currentYear);
      var loc := c.locations[c.offset + index];
      && (s.Threw? <==> loc.maxYear.None?)
      && (s.Threw? ==> s.error == Bounds.NotADate)
      && (s.Probing? ==>
            s.request.locationId == loc.id && s.request.dataset == c.dataset && s.request.datatypeid == c.datatypeid
            && Bounds.GetProbingBounds(c.bounds, loc.maxYear, currentYear)
               == Success(Bounds.ProbingBounds(s.request.startYear, s.request.stopYear)))
  {
  }

  /** `reportProgress`, in hundredths of a percent: `index` over the window size,
      rounded half up as `Math.round` does; `None` for a window of size zero, where the
      source divides by zero. */
  function Progress(index: nat, count: nat, offset: nat, len: nat): Option<int> {
    var last := if count + offset > len then len else count + offset;
    var d := last - offset;
    var n := 10000 * index;
    if d == 0 then None
    else if d > 0 then Some(RoundHalfUp(n, d))
    // d < 0 needs offset > len; a crawl never reaches it, since progress is reported
    // only after a location inside the window (so offset < len) was queried
    else Some(RoundHalfUp(-n, -d))
  }

  /** The report is the nearest integer to `10000 * index / d`, halves rounded up, for
      the window size `d = min(count + offset, len) - offset`, and none for `d = 0`. */
  lemma ProgressRounds(index: nat, count: nat, offset: nat, len: nat)
    ensures var r := Progress(index, count, offset, len);
      var last := if count + offset > len then len else count + offset;
      var d := last - offset;
      var n := 10000 * index;
      && (r.None? <==> d == 0)
      && (r.Some? && d > 0 ==> 2 * r.value * d - d <= 2 * n < 2 * r.value * d + d)
      && (r.Some? && d < 0 ==> 2 * r.value * d + d < 2 * n <= 2 * r.value * d - d)
  {
    var last := if count + offset > len then len else count + offset;
    var d := last - offset;
    var n := 10000 * index;
    if d > 0 {
      RoundsHalfUp(n, d);
    }
    if d < 0 {
      RoundsHalfUp(-n, -d);
      var q := RoundHalfUp(-n, -d);
      assert 2 * q * (-d) - (-d) <= 2 * (-n) < 2 * q * (-d) + (-d);
      assert 2 * q * (-d) == -(2 * q * d);
    }
  }

  /** The integer nearest to `n / d`, halves rounded up. */
  function RoundHalfUp(n: int, d: int): int
    requires d > 0
  {
    (2 * n + d) / (2 * d)
  }

  lemma RoundsHalfUp(n: int, d: int)
    requires d > 0
    ensures var q := RoundHalfUp(n, d); 2 * q * d - d <= 2 * n < 2 * q * d + d
  {
    var q := (2 * n + d) / (2 * d);
    assert 2 * n + d == q * (2 * d) + (2 * n + d) % (2 * d);
    assert q * (2 * d) == 2 * q * d;
  }

  // ---------------------------------------------------------------- the walk

  /** What a run of `queryNext` / `onQueryComplete` adds, and where it ends; `reported`
      holds the `index` each progress report saw. */
  datatype Trace<R> = Trace(
    probes: seq<ProbeRequest>, results: seq<R>, noData: seq<string>,
    reported: seq<nat>, delays: seq<int>,
    index: nat, last: Step, lastId: Option<string>)

  /** The records a completed probe adds: its array, or nothing for null. */
  function Found<R>(answer: Option<seq<R>>): seq<R> {
    if answer.Some? then answer.value else []
  }

  /** The walk from `index` on, the probes handing back `answers` in order; it ends at
      the end of the window, at a throw, or at a probe with no answer yet. `id` is
      `queryLocationId` at the start. */
  function Walk<R>(c: Config, index: nat, currentYear: int, answers: seq<Option<seq<R>>>, id: Option<string>): Trace<R>
    decreases |answers|
  {
    var step := NextStep(c, index, currentYear);
    var id' := if index < Window(c) then Some(c.locations[c.offset + index].id) else id;
    if !step.Probing? then Trace([], [], [], [], [], index, step, id')
    else if |answers| == 0 then Trace([step.request], [], [], [], [], index, step, id')
    else
      var a := answers[0];
      var rest := Walk(c, index + 1, currentYear, answers[1..], id');
      Join(Trace([step.request], Found(a), if a.None? then [id'.value] else [],
                 [index + 1], [NextDelay], index + 1, step, id'),
           rest)
  }

  /** Two pieces of a walk, one after the other. */
  function Join<R>(a: Trace<R>, b: Trace<R>): Trace<R> {
    Trace(a.probes + b.probes, a.results + b.results, a.noData + b.noData,
          a.reported + b.reported, a.delays + b.delays, b.index, b.last, b.lastId)
  }

  /** The concatenation of the records of every answer. */
  function Flatten<R>(answers: seq<Option<seq<R>>>): seq<R> {
    if |answers| == 0 then [] else Found(answers[0]) + Flatten(answers[1..])
  }

  /** The ids of the locations, from `index` of the window on, whose answer was null. */
  function NoDataIds<R>(c: Config, index: nat, answers: seq<Option<seq<R>>>): seq<string>
    requires c.offset + index + |answers| <= |c.locations|
    decreases |answers|
  {
    if |answers| == 0 then []
    else (if answers[0].None? then [c.locations[c.offset + index].id] else []) + NoDataIds(c, index + 1, answers[1..])
  }

  /** A walk completes `n` probes: it takes the first `n` answers, each for the next
      location of the window; `index` advances by exactly `n`, one 2000 ms pause each;
      the records are those of the first `n` answers in order, and the ids without
      data are those whose answer was null. */
  lemma {:induction false} WalkSummary<R>(c: Config, index: nat, currentYear: int, answers: seq<Option<seq<R>>>, id: Option<string>)
    ensures var t := Walk(c, index, currentYear, answers, id);
      var n := |t.reported|;
      && n <= |answers| && t.index == index + n
      && (n > 0 ==> index + n <= Window(c))
      && |t.delays| == n && (forall k :: 0 <= k < n ==> t.delays[k] == NextDelay)
      && t.results == Flatten(answers[..n])
      && (n > 0 ==> t.noData == NoDataIds(c, index, answers[..n]))
      && (n == 0 ==> t.noData == [])
    decreases |answers|
  {
    var t := Walk(c, index, currentYear, answers, id);
    var step := NextStep(c, index, currentYear);
    if step.Probing? && |answers| > 0 {
      var a := answers[0];
      var id' := Some(c.locations[c.offset + index].id);
      var rest := Walk(c, index + 1, currentYear, answers[1..], id');
      WalkSummary(c, index + 1, currentYear, answers[1..], id');
      var m := |rest.reported|;
      assert t.reported == [index + 1] + rest.reported;
      assert answers[..m + 1] == [a] + answers[1..][..m];
      assert answers[..m + 1][1..] == answers[1..][..m];
      assert t.results == Found(a) + rest.results;
      forall k | 0 <= k < m + 1 ensures t.delays[k] == NextDelay {
        if k > 0 {
          assert t.delays[k] == rest.delays[k - 1];
        }
      }
      if m == 0 {
        assert answers[1..][..0] == [];
      }
    } else {
      assert answers[..0] == [];
    }
  }

  /** The k-th progress report of a walk sees `index + k + 1` completed locations. */
  lemma {:induction false} WalkProgress<R>(c: Config, index: nat, currentYear: int, answers: seq<Option<seq<R>>>, id: Option<string>)
    ensures forall k :: 0 <= k < |Walk(c, index, currentYear, answers, id).reported| ==>
      Walk(c, index, currentYear, answers, id).reported[k] == index + k + 1
    decreases |answers|
  {
    var t := Walk(c, index, currentYear, answers, id);
    var step := NextStep(c, index, currentYear);
    if step.Probing? && |answers| > 0 {
      var id' := Some(c.locations[c.offset + index].id);
      var rest := Walk(c, index + 1, currentYear, answers[1..], id');
      WalkProgress(c, index + 1, currentYear, answers[1..], id');
      assert t.reported == [index + 1] + rest.reported;
      forall k | 0 < k < |t.reported| ensures t.reported[k] == index + k + 1 {
        var j := k - 1;
        assert t.reported[k] == rest.reported[j];
        assert rest.reported[j] == index + 1 + j + 1;
      }
    }
  }

  /** Every percentage a walk reports lies between 0% and 100%, and a walk that ends
      the window last reports exactly 100%. */
  lemma WalkReportsProgress<R>(c: Config, index: nat, currentYear: int, answers: seq<Option<seq<R>>>, id: Option<string>)
    requires c.count <= |c.locations|
    ensures var t := Walk(c, index, currentYear, answers, id);
      && (forall k :: 0 <= k < |t.reported| ==>
            var r := Progress(t.reported[k], c.count, c.offset, |c.locations|);
            r.Some? && 0 <= r.value <= 10000)
      && (t.last.Finished? && |t.reported| > 0 ==>
            Progress(t.reported[|t.reported| - 1], c.count, c.offset, |c.locations|) == Some(10000))
  {
    var t := Walk(c, index, currentYear, answers, id);
    WalkSummary(c, index, currentYear, answers, id);
    WalkProgress(c, index, currentYear, answers, id);
    WalkProbes(c, index, currentYear, answers, id);
    forall k | 0 <= k < |t.reported|
      ensures var r := Progress(t.reported[k], c.count, c.offset, |c.locations|); r.Some? && 0 <= r.value <= 10000
    {
      ProgressOfWindow(c, t.reported[k]);
    }
    if t.last.Finished? && |t.reported| > 0 {
      ProgressOfWindow(c, t.reported[|t.reported| - 1]);
    }
  }

  /** Every probe of a walk is the one `queryNext` makes for the next index, and only
      the last step can be a throw or the end of the window. */
  lemma {:induction false} WalkProbes<R>(c: Config, index: nat, currentYear: int, answers: seq<Option<seq<R>>>, id: Option<string>)
    ensures var t := Walk(c, index, currentYear, answers, id);
      && |t.probes| == |t.reported| + (if t.last.Probing? then 1 else 0)
      && (forall k :: 0 <= k < |t.probes| ==> Probing(t.probes[k]) == NextStep(c, index + k, currentYear))
      && t.last == NextStep(c, t.index, currentYear)
      && (t.last.Probing? ==> |t.reported| == |answers|)
    decreases |answers|
  {
    var t := Walk(c, index, currentYear, answers, id);
    var step := NextStep(c, index, currentYear);
    if step.Probing? && |answers| > 0 {
      var id' := Some(c.locations[c.offset + index].id);
      var rest := Walk(c, index + 1, currentYear, answers[1..], id');
      WalkProbes(c, index + 1, currentYear, answers[1..], id');
      assert t.probes == [step.request] + rest.probes;
      forall k | 0 < k < |t.probes| ensures Probing(t.probes[k]) == NextStep(c, index + k, currentYear) {
        var i := k - 1;
        assert t.probes[k] == rest.probes[i];
        assert index + 1 + i == index + k;
      }
    }
  }

  /** With an answer for every location and every date parseable, the walk probes the
      whole rest of the window and ends there. */
  lemma {:induction false} WalkCompletes<R>(c: Config, index: nat, currentYear: int, answers: seq<Option<seq<R>>>, id: Option<string>)
    requires index <= Window(c) && |answers| >= Window(c) - index
    requires DatesParse(c, index)
    ensures var t := Walk(c, index, currentYear, answers, id);
      t.last == Finished && |t.probes| == Window(c) - index && t.index == Window(c)
    decreases Window(c) - index
  {
    if index < Window(c) {
      var id' := Some(c.locations[c.offset + index].id);
      assert c.locations[c.offset + index].maxYear.Some?;
      assert DatesParse(c, index + 1);
      WalkCompletes(c, index + 1, currentYear, answers[1..], id');
    }
  }

  /** Every location of the window from `index` on has a `maxdate` that parses. */
  predicate DatesParse(c: Config, index: nat) {
    forall i :: c.offset + index <= i < c.offset + Window(c) ==> c.locations[i].maxYear.Some?
  }

  /** A throw does not advance `index`: the walk resumed by `continue` starts with the
      same location again. */
  lemma ContinueRetriesSameLocation<R>(c: Config, index: nat, currentYear: int, answers: seq<Option<seq<R>>>, id: Option<string>, more: seq<Option<seq<R>>>)
    requires Walk(c, index, currentYear, answers, id).last.Threw?
    ensures var t := Walk(c, index, currentYear, answers, id);
      Walk(c, t.index, currentYear, more, t.lastId).last == t.last
      && Walk(c, t.index, currentYear, more, t.lastId).probes == []
      && Walk(c, t.index, currentYear, more, t.lastId).index == t.index
  {
    WalkProbes(c, index, currentYear, answers, id);
  }

  /** An offset at or past the end of the list probes nothing and finishes at once. */
  lemma OffsetPastEnd<R>(c: Config, currentYear: int, answers: seq<Option<seq<R>>>, id: Option<string>)
    requires c.offset >= |c.locations|
    ensures Walk(c, 0, currentYear, answers, id) == Trace([], [], [], [], [], 0, Finished, id)
  {
  }

  /** The progress reported after the k-th completion of a window of size `w` lies
      within half a unit of `10000 * k / w`; after the last one it is exactly 100%. */
  lemma ProgressOfWindow(c: Config, k: nat)
    requires Window(c) > 0 && k <= Window(c) && c.count <= |c.locations|
    ensures var r := Progress(k, c.count, c.offset, |c.locations|);
      r.Some? && 0 <= r.value <= 10000 && (k == Window(c) ==> r.value == 10000)
  {
    var w := Window(c);
    var last := if c.count + c.offset > |c.locations| then |c.locations| else c.count + c.offset;
    assert last - c.offset == w;
    ProgressRounds(k, c.count, c.offset, |c.locations|);
    RoundedShare(Progress(k, c.count, c.offset, |c.locations|).value, k, w);
  }

  /** A share `k / w` of at most one, rounded to hundredths of a percent, lies in
      `0 .. 10000` and is `10000` for the whole. */
  lemma RoundedShare(r: int, k: int, w: int)
    requires 0 <= k <= w && w > 0
    requires 2 * r * w - w <= 2 * (10000 * k) < 2 * r * w + w
    ensures 0 <= r <= 10000 && (k == w ==> r == 10000)
  {
    if r < 0 {
      MulNonneg(-r - 1, w);
      assert false;
    }
    if r > 10000 {
      MulNonneg(r - 10001, w);
      MulNonneg(w - k, 10000);
      assert false;
    }
    if k == w && r < 10000 {
      MulNonneg(9999 - r, w);
      assert false;
    }
  }

  lemma MulNonneg(a: int, b: int)
    requires a >= 0 && b >= 0
    ensures a * b >= 0
  {
  }

  // ---------------------------------------------------------------- the crawler's state

  /** Everything the crawler changes: the `index` into the window, the records and the
      ids without data so far, the id of the location probed last, whether a results
      callback was given, and the probes started, timer pauses, the `index` each progress
      report saw (it logs `Progress` of it) and the results deliveries made so far. */
  datatype CrawlState<R> = CrawlState(
    index: nat, results: seq<R>, noData: seq<string>, queryLocationId: Option<string>,
    hasOnResults: bool, probes: seq<ProbeRequest>, delays: seq<int>,
    reported: seq<nat>, deliveries: seq<Delivery<R>>)

  /** A new state and what `queryNext` did to reach it. */
  datatype Stepped<R> = Stepped(state: CrawlState<R>, step: Step)

  /** `queryNext`: inside the window it records the location's id, then either throws
      or starts the probe; past the window it delivers the results, if a callback was
      given. */
  function AfterQueryNext<R>(c: Config, st: CrawlState<R>, currentYear: int): (r: Stepped<R>)
    ensures r.step == NextStep(c, st.index, currentYear)
    ensures r.step.Probing? ==> r.state.queryLocationId.Some?
  {
    var step := NextStep(c, st.index, currentYear);
    var id := if st.index < Window(c) then Some(c.locations[c.offset + st.index].id) else st.queryLocationId;
    var probes := if step.Probing? then st.probes + [step.request] else st.probes;
    var deliveries := if step.Finished? && st.hasOnResults
      then st.deliveries + [Delivery(st.results, st.noData)] else st.deliveries;
    Stepped(st.(queryLocationId := id, probes := probes, deliveries := deliveries), step)
  }

  /** `onQueryComplete`: records the answer, advances `index`, reports progress and
      schedules the next step. */
  function AfterComplete<R>(st: CrawlState<R>, answer: Option<seq<R>>): CrawlState<R>
    requires st.queryLocationId.Some?
  {
    st.(results := st.results + Found(answer),
        noData := st.noData + (if answer.None? then [st.queryLocationId.value] else []),
        index := st.index + 1,
        reported := st.reported + [st.index + 1],
        delays := st.delays + [NextDelay])
  }

  /** What the crawl does to a state: it adds the walk's probes, records, ids without
      data, progress reports and pauses, moves `index` and `queryLocationId` to where the
      walk ends, and calls the results callback, with everything gathered, when the walk
      ends the window. */
  function Apply<R>(st: CrawlState<R>, t: Trace<R>): Stepped<R> {
    var results := st.results + t.results;
    var noData := st.noData + t.noData;
    Stepped(st.(index := t.index, results := results, noData := noData, queryLocationId := t.lastId,
                probes := st.probes + t.probes, reported := st.reported + t.reported,
                delays := st.delays + t.delays,
                deliveries := st.deliveries + (if t.last.Finished? && st.hasOnResults then [Delivery(results, noData)] else [])),
            t.last)
  }

  /** One `queryNext` that starts a probe and its `onQueryComplete` take the crawl one
      location further: the rest is the walk from the next index. */
  lemma CrawlStep<R>(c: Config, st: CrawlState<R>, currentYear: int, answers: seq<Option<seq<R>>>)
    requires AfterQueryNext(c, st, currentYear).step.Probing? && |answers| > 0
    ensures var st' := AfterComplete(AfterQueryNext(c, st, currentYear).state, answers[0]);
      Apply(st, Walk(c, st.index, currentYear, answers, st.queryLocationId))
      == Apply(st', Walk(c, st'.index, currentYear, answers[1..], st'.queryLocationId))
  {
    var s := AfterQueryNext(c, st, currentYear);
    var a := answers[0];
    var id := s.state.queryLocationId;
    var st' := AfterComplete(s.state, a);
    var rest := Walk(c, st.index + 1, currentYear, answers[1..], id);
    var nd := if a.None? then [id.value] else [];
    var t := Walk(c, st.index, currentYear, answers, st.queryLocationId);
    assert st'.index == st.index + 1 && st'.queryLocationId == id;
    var l := Apply(st, t).state;
    var r := Apply(st', rest).state;
    assert l.probes == r.probes by {
      Seqs.AppendAssoc(st.probes, [s.step.request], rest.probes);
    }
    assert l.results == r.results by {
      Seqs.AppendAssoc(st.results, Found(a), rest.results);
    }
    assert l.noData == r.noData by {
      Seqs.AppendAssoc(st.noData, nd, rest.noData);
    }
    assert l.reported == r.reported by {
      Seqs.AppendAssoc(st.reported, [st.index + 1], rest.reported);
    }
    assert l.delays == r.delays by {
      Seqs.AppendAssoc(st.delays, [NextDelay], rest.delays);
    }
  }

  /** A `queryNext` that throws, ends the window or starts a probe with no answer yet is
      the whole crawl. */
  lemma CrawlStop<R>(c: Config, st: CrawlState<R>, currentYear: int, answers: seq<Option<seq<R>>>)
    requires !AfterQueryNext(c, st, currentYear).step.Probing? || |answers| == 0
    ensures Apply(st, Walk(c, st.index, currentYear, answers, st.queryLocationId)) == AfterQueryNext(c, st, currentYear)
  {
    assert st.results + [] == st.results && st.noData + [] == st.noData;
    assert st.reported + [] == st.reported && st.delays + [] == st.delays;
    assert st.probes + [] == st.probes;
  }

  /** Once the window is done, every further `continue` changes nothing but calls the
      results callback again with everything gathered. */
  lemma ContinueAfterEnd<R>(c: Config, st: CrawlState<R>, currentYear: int, answers: seq<Option<seq<R>>>)
    requires st.index >= Window(c)
    ensures var r := Apply(st, Walk(c, st.index, currentYear, answers, st.queryLocationId));
      r.step == Finished
      && r.state == st.(deliveries := st.deliveries + (if st.hasOnResults then [Delivery(st.results, st.noData)] else []))
  {
    CrawlStop(c, st, currentYear, answers);
  }

  /** A new crawler whose offset is at or past the end of its list probes nothing, and
      its first `queryNext` calls the results callback, if `run` was given one, with
      empty results and no location without data. */
  lemma FreshCrawlPastEnd<R>(c: Config, callback: bool, currentYear: int, answers: seq<Option<seq<R>>>)
    requires c.offset >= |c.locations|
    ensures var st: CrawlState<R> := CrawlState(0, [], [], None, callback, [], [], [], []);
      var r := Apply(st, Walk(c, 0, currentYear, answers, None));
      && r.step == Finished && r.state.index == 0
      && r.state.probes == [] && r.state.delays == [] && r.state.reported == []
      && r.state.deliveries == (if callback then [Delivery([], [])] else [])
  {
    var st: CrawlState<R> := CrawlState(0, [], [], None, callback, [], [], [], []);
    assert Window(c) == 0;
    ContinueAfterEnd(c, st, currentYear, answers);
  }

  // ---------------------------------------------------------------- the crawler object

  /** The crawler: its configuration (`count` clipped) and its changing state. */
  class DataCrawler<R> {
    const dataset: string
    const datatypeid: string
    const locations: seq<Location>
    const offset: nat
    const count: nat
    const bounds: Bounds.Calculator
    var index: nat
    var results: seq<R>
    var locationsNoData: seq<string>
    var queryLocationId: Option<string>
    var hasOnResults: bool
    var probes: seq<ProbeRequest>
    var delays: seq<int>
    var reported: seq<nat>
    var deliveries: seq<Delivery<R>>

    /** The constructor clips `count` to the number of locations. */
    constructor(dataset: string, datatypeid: string, locations: seq<Location>, offset: nat, count: nat, bounds: Bounds.Calculator)
      ensures Settings() == Config(dataset, datatypeid, locations, offset, ClipCount(count, |locations|), bounds)
      ensures State() == CrawlState(0, [], [], None, false, [], [], [], [])
    {
      this.dataset := dataset;
      this.datatypeid := datatypeid;
      this.locations := locations;
      this.offset := offset;
      this.count := if |locations| < count then |locations| else count;
      this.bounds := bounds;
      index := 0;
      results := [];
      locationsNoData := [];
      queryLocationId := None;
      hasOnResults := false;
      probes := [];
      delays := [];
      reported := [];
      deliveries := [];
    }

    function Settings(): Config {
      Config(dataset, datatypeid, locations, offset, count, bounds)
    }

    function State(): CrawlState<R>
      reads this
    {
      CrawlState(index, results, locationsNoData, queryLocationId, hasOnResults, probes, delays, reported, deliveries)
    }

    /** `queryNext`. */
    method QueryNext(currentYear: int) returns (step: Step)
      modifies this
      ensures var r := AfterQueryNext(Settings(), old(State()), currentYear);
        State() == r.state && step == r.step
    {
      if index < |locations| - offset && index < count {
        var queryLocation := locations[index + offset];
        queryLocationId := Some(queryLocation.id);
        var probingBounds := Bounds.GetProbingBounds(bounds, queryLocation.maxYear, currentYear);
        if probingBounds.Failure? {
          step := Threw(probingBounds.error);
          return;
        }
        var request := ProbeRequest(queryLocation.id, dataset, datatypeid,
          probingBounds.value.startYear, probingBounds.value.stopYear);
        probes := probes + [request];
        step := Probing(request);
      } else {
        if hasOnResults {
          deliveries := deliveries + [Delivery(results, locationsNoData)];
        }
        step := Finished;
      }
    }

    /** `onQueryComplete`, the completion callback of the probe for `queryLocationId`;
        the timer it starts is the caller's next `QueryNext`. */
    method OnQueryComplete(queryResult: Option<seq<R>>)
      requires queryLocationId.Some?
      modifies this
      ensures State() == AfterComplete(old(State()), queryResult)
    {
      if queryResult.Some? {
        results := results + queryResult.value;
      } else {
        locationsNoData := locationsNoData + [queryLocationId.value];
      }
      index := index + 1;
      reported := reported + [index];
      delays := delays + [NextDelay];
    }

    /** `run`: keeps a given results callback, then crawls as `continue` does. */
    method Run(callback: bool, currentYear: int, answers: seq<Option<seq<R>>>) returns (step: Step)
      modifies this
      ensures var r := Apply(old(State()).(hasOnResults := old(hasOnResults) || callback),
                             Walk(Settings(), old(index), currentYear, answers, old(queryLocationId)));
        State() == r.state && step == r.step
    {
      if callback {
        hasOnResults := true;
      }
      step := Continue(currentYear, answers);
    }

    /** `continue`: `queryNext`, and the chain of completions and timers it starts,
        with the probes answering `answers` in order. */
    method Continue(currentYear: int, answers: seq<Option<seq<R>>>) returns (step: Step)
      modifies this
      ensures var r := Apply(old(State()), Walk(Settings(), old(index), currentYear, answers, old(queryLocationId)));
        State() == r.state && step == r.step
    {
      ghost var c := Settings();
      ghost var final := Apply(State(), Walk(c, index, currentYear, answers, queryLocationId));
      var i := 0;
      while true
        invariant 0 <= i <= |answers|
        invariant final == Apply(State(), Walk(c, index, currentYear, answers[i..], queryLocationId))
        decreases |answers| - i
      {
        ghost var st := State();
        step := QueryNext(currentYear);
        if !step.Probing? || i == |answers| {
          CrawlStop(c, st, currentYear, answers[i..]);
          return;
        }
        OnQueryComplete(answers[i]);
        CrawlStep(c, st, currentYear, answers[i..]);
        assert answers[i..][1..] == answers[i + 1..];
        i := i + 1;
      }
    }
  }

  /** The unit test's crawl: three locations, a limit of 500, answers `[1,2,3]`,
      `[4,5,6]` and null; the results callback receives `[1,2,3,4,5,6]` and the id of
      the third location. */
  lemma ExampleCrawl()
    ensures var locs := [Location("CITY:NL000001", Some(2015)), Location("CITY:RS000001", Some(2015)),
                         Location("CITY:CD000001", Some(1978))];
      var c := Config("GHCNDMS", "MMNT", locs, 0, ClipCount(500, 3), Bounds.Calculator(2000));
      var t := Walk(c, 0, 2015, [Some([1, 2, 3]), Some([4, 5, 6]), None], None);
      t.last == Finished && t.results == [1, 2, 3, 4, 5, 6] && t.noData == ["CITY:CD000001"]
      && |t.probes| == 3 && t.probes[0].locationId == "CITY:NL000001"
      && t.probes[1].locationId == "CITY:RS000001" && t.probes[2].locationId == "CITY:CD000001"
      && t.index == 3
  {
    var locs := [Location("CITY:NL000001", Some(2015)), Location("CITY:RS000001", Some(2015)),
                 Location("CITY:CD000001", Some(1978))];
    var c := Config("GHCNDMS", "MMNT", locs, 0, ClipCount(500, 3), Bounds.Calculator(2000));
    var answers: seq<Option<seq<int>>> := [Some([1, 2, 3]), Some([4, 5, 6]), None];
    assert Window(c) == 3;
    WalkCompletes(c, 0, 2015, answers, None);
    WalkSummary(c, 0, 2015, answers, None);
    WalkProbes(c, 0, 2015, answers, None);
    var t := Walk(c, 0, 2015, answers, None);
    NextStepIs(c, 2, 2015);
    assert answers[..3] == answers;
    assert Flatten(answers) == [1, 2, 3, 4, 5, 6] by {
      assert answers[1..][1..][1..] == [];
    }
  }

  /** The same crawl run by a fresh crawler given a results callback: the callback is
      called once, with `[1,2,3,4,5,6]` and the id of the third location. */
  lemma ExampleDelivery()
    ensures var locs := [Location("CITY:NL000001", Some(2015)), Location("CITY:RS000001", Some(2015)),
                         Location("CITY:CD000001", Some(1978))];
      var c := Config("GHCNDMS", "MMNT", locs, 0, ClipCount(500, 3), Bounds.Calculator(2000));
      var r := Apply(CrawlState(0, [], [], None, true, [], [], [], []), Walk(c, 0, 2015, [Some([1, 2, 3]), Some([4, 5, 6]), None], None));
      r.step == Finished && r.state.deliveries == [Delivery([1, 2, 3, 4, 5, 6], ["CITY:CD000001"])]
  {
    var locs := [Location("CITY:NL000001", Some(2015)), Location("CITY:RS000001", Some(2015)),
                 Location("CITY:CD000001", Some(1978))];
    var c := Config("GHCNDMS", "MMNT", locs, 0, ClipCount(500, 3), Bounds.Calculator(2000));
    var answers: seq<Option<seq<int>>> := [Some([1, 2, 3]), Some([4, 5, 6]), None];
    var st := CrawlState(0, [], [], None, true, [], [], [], []);
    ExampleCrawl();
    var t := Walk(c, 0, 2015, answers, None);
    var r := Apply(st, t);
    assert r.state.results == [] + t.results == [1, 2, 3, 4, 5, 6];
    assert r.state.noData == [] + t.noData == ["CITY:CD000001"];
  }

  /** The unit tests' query limit and offset: with a limit of 2 only two of the three
      locations are probed; with offset 1 the first probe is for the second location. */
  lemma ExampleLimitAndOffset()
    ensures var locs := [Location("CITY:NL000001", Some(2015)), Location("CITY:RS000001", Some(2015)),
                         Location("CITY:CD000001", Some(1978))];
      var limited := Config("GHCNDMS", "MMNT", locs, 0, ClipCount(2, 3), Bounds.Calculator(2000));
      var shifted := Config("GHCNDMS", "MMNT", locs, 1, ClipCount(500, 3), Bounds.Calculator(2000));
      var t := Walk<int>(limited, 0, 2015, [None, None, None], None);
      var u := Walk<int>(shifted, 0, 2015, [None], None);
      t.last == Finished && |t.probes| == 2
      && u.probes[0].locationId == "CITY:RS000001"
  {
    var locs := [Location("CITY:NL000001", Some(2015)), Location("CITY:RS000001", Some(2015)),
                 Location("CITY:CD000001", Some(1978))];
    var limited := Config("GHCNDMS", "MMNT", locs, 0, ClipCount(2, 3), Bounds.Calculator(2000));
    var nulls: seq<Option<seq<int>>> := [None, None, None];
    assert Window(limited) == 2;
    WalkCompletes(limited, 0, 2015, nulls, None);
    var shifted := Config("GHCNDMS", "MMNT", locs, 1, ClipCount(500, 3), Bounds.Calculator(2000));
    NextStepIs(shifted, 0, 2015);
  }
}
