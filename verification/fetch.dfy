/** The page loop of the tender fetcher: `make_url`, `fetch_month` and
    `fetch_period`. Each HTTP request is replaced by the next element of a
    finite transcript of responses, so the loop ends either on the source's
    own stopping conditions or when the transcript runs out. */
module Fetch {
  import opened Text
  import Calendar

  datatype Option<T> = None | Some(value: T)

  /** BASE_API and the names of the page, from and to query parameters. */
  datatype Config = Config(baseApi: string, pageParam: string, fromParam: string, toParam: string)

  /** What the decoded body of a response is: not JSON at all, a top-level
      JSON list, a JSON object with optional `results`/`items` lists (None
      when the key is absent or null), or any other JSON value. */
  datatype Payload<T> =
    | NotJson
    | JsonList(batch: seq<T>)
    | JsonObject(results: Option<seq<T>>, items: Option<seq<T>>)
    | JsonScalar

  /** One attempt at a page: a transport failure, or a response. */
  datatype Outcome<T> = NetworkError | Response(status: int, payload: Payload<T>)

  /** The exceptions that escape `fetch_month` and `fetch_period`:
      ValueError for a URL not starting with "http", AttributeError for
      `.get` on a JSON value that is not an object, and the ValueError of
      `month_range` for a month outside the range of `datetime.date`. */
  datatype Error = InvalidUrl | NotAnObject | DateOutOfRange

  /** How a month (or a period) ended: by returning its items, by an
      exception, or because the transcript ran out while the loop was still
      asking for pages (the items collected until then are kept). */
  datatype End<T> = Returned(items: seq<T>) | Raised(error: Error) | Unfinished(items: seq<T>)

  /** A page written to disk: the month and page it belongs to, which
      name its file (see SnapshotPath), and the batch it holds. */
  datatype Snapshot<T> = Snapshot(year: int, month: int, page: nat, batch: seq<T>)

  /** An end together with every snapshot written on the way. */
  datatype Run<T> = Run(end: End<T>, snapshots: seq<Snapshot<T>>)

  // ---------------------------------------------------------------------
  // URLs

  /** `date.isoformat()`. */
  function IsoFormat(d: Calendar.Date): string {
    FormatInt(d.year, 4) + "-" + FormatInt(d.month, 2) + "-" + FormatInt(d.day, 2)
  }

  /** `make_url`: the base, then the page, from and to parameters. The URL
      passes the "http" check exactly when the base does, whatever the page
      and dates. */
  function MakeUrl(cfg: Config, page: nat, dateFrom: string, dateTo: string): (url: string)
    ensures StartsWith(url, cfg.baseApi)
    ensures StartsWith(url, "http") <==> StartsWith(cfg.baseApi, "http")
  {
    var url := cfg.baseApi + "?" + cfg.pageParam + "=" + Decimal(page)
               + "&" + cfg.fromParam + "=" + dateFrom + "&" + cfg.toParam + "=" + dateTo;
    assert url[..|cfg.baseApi|] == cfg.baseApi;
    assert url[|cfg.baseApi|] == '?';
    assert |cfg.baseApi| >= 4 ==> url[..4] == cfg.baseApi[..4];
    url
  }

  /** Builds the URL of a page and applies the "http" check to it. */
  method CheckUrl(cfg: Config, page: nat, start: Calendar.Date, end: Calendar.Date) returns (ok: bool)
    ensures ok <==> StartsWith(cfg.baseApi, "http")
  {
    var url := MakeUrl(cfg, page, IsoFormat(start), IsoFormat(end));
    ok := StartsWith(url, "http");
  }

  // ---------------------------------------------------------------------
  // One page

  predicate NonEmpty<T>(o: Option<seq<T>>) {
    o.Some? && o.value != []
  }

  /** The batch of a decoded body: a list is the batch itself; an object
      gives `results` when it is non-empty, else `items` when that is
      non-empty, else nothing. */
  function BatchOf<T>(p: Payload<T>): (b: seq<T>)
    requires p.JsonList? || p.JsonObject?
    ensures p.JsonList? ==> b == p.batch
    ensures p.JsonObject? ==> (b != [] <==> NonEmpty(p.results) || NonEmpty(p.items))
    ensures p.JsonObject? && NonEmpty(p.results) ==> b == p.results.value
    ensures p.JsonObject? && !NonEmpty(p.results) && NonEmpty(p.items) ==> b == p.items.value
  {
    match p
    case JsonList(batch) => batch
    case JsonObject(results, items) =>
      if NonEmpty(results) then results.value
      else if NonEmpty(items) then items.value
      else []
  }

  /** What the loop does with one outcome. */
  datatype Step<T> = Retry | Stop | Raise(error: Error) | Take(batch: seq<T>)

  function Classify<T>(o: Outcome<T>): (s: Step<T>)
    ensures s.Retry? <==> o.Response? && o.status == 429
    ensures s.Take? ==> s.batch != [] && o.Response? && o.status < 400
    ensures s.Raise? <==> o.Response? && o.status < 400 && o.payload.JsonScalar?
    ensures s.Raise? ==> s.error == NotAnObject
    ensures (|| o.NetworkError?
             || (o.Response? && o.status >= 400 && o.status != 429)
             || (o.Response? && o.payload.NotJson? && o.status != 429)) ==> s.Stop?
    ensures o.Response? && o.status < 400 && o.status != 429 && (o.payload.JsonList? || o.payload.JsonObject?) ==>
              (if BatchOf(o.payload) == [] then s.Stop? else s == Take(BatchOf(o.payload)))
  {
    match o
    case NetworkError => Stop
    case Response(status, payload) =>
      if status == 429 then Retry
      else if status >= 400 then Stop
      else match payload
        case NotJson => Stop
        case JsonScalar => Raise(NotAnObject)
        case _ => var b := BatchOf(payload); if b == [] then Stop else Take(b)
  }

  predicate Continues<T>(o: Outcome<T>) {
    Classify(o).Retry? || Classify(o).Take?
  }

  // ---------------------------------------------------------------------
  // The month, as a function of the transcript

  /** The index of the first outcome that ends the month. */
  function StopIndex<T>(outs: seq<Outcome<T>>): (k: nat)
    ensures k <= |outs|
    ensures forall j :: 0 <= j < k ==> Continues(outs[j])
    ensures k < |outs| ==> !Continues(outs[k])
  {
    if outs == [] || !Continues(outs[0]) then 0 else 1 + StopIndex(outs[1..])
  }

  /** The non-empty batches among the outcomes, in order. */
  function Batches<T>(outs: seq<Outcome<T>>): seq<seq<T>> {
    if outs == [] then []
    else
      var last := Classify(outs[|outs| - 1]);
      Batches(outs[..|outs| - 1]) + if last.Take? then [last.batch] else []
  }

  function Flatten<T>(bs: seq<seq<T>>): seq<T> {
    if bs == [] then [] else Flatten(bs[..|bs| - 1]) + bs[|bs| - 1]
  }

  /** The path of page `page` of month `month` of `year` below the raw
      root: YYYY / MM / YYYY-MM-p<page>.json. */
  function SnapshotPath(year: int, month: int, page: nat): seq<string> {
    var yy := FormatInt(year, 4);
    var mm := FormatInt(month, 2);
    [yy, mm, yy + "-" + mm + "-p" + Decimal(page) + ".json"]
  }

  /** The snapshots of consecutive pages holding `bs`, from page 1. */
  function Snapshots<T>(year: int, month: int, bs: seq<seq<T>>): (s: seq<Snapshot<T>>)
    ensures |s| == |bs|
    ensures forall i :: 0 <= i < |bs| ==> s[i] == Snapshot(year, month, i + 1, bs[i])
  {
    seq(|bs|, i requires 0 <= i < |bs| => Snapshot(year, month, i + 1, bs[i]))
  }

  /** What `fetch_month` does with a transcript: raise at once when the URL
      fails the "http" check (which MakeUrl shows depends on the base
      alone, so the window's dates play no part); otherwise collect the batches of the outcomes
      before the first one that ends the month, and end as that outcome
      says (or unfinished when there is none). */
  function MonthSpec<T>(cfg: Config, year: int, month: int, outs: seq<Outcome<T>>): Run<T>
  {
    if !StartsWith(cfg.baseApi, "http") then Run(Raised(InvalidUrl), [])
    else
      var k := StopIndex(outs);
      var bs := Batches(outs[..k]);
      var items := Flatten(bs);
      if k == |outs| then Run(Unfinished(items), Snapshots(year, month, bs))
      else match Classify(outs[k])
        case Raise(e) => Run(Raised(e), Snapshots(year, month, bs))
        case _ => Run(Returned(items), Snapshots(year, month, bs))
  }

  lemma SnapshotsAppend<T>(year: int, month: int, bs: seq<seq<T>>, b: seq<T>)
    ensures Snapshots(year, month, bs + [b])
         == Snapshots(year, month, bs) + [Snapshot(year, month, |bs| + 1, b)]
  {
    var l := Snapshots(year, month, bs + [b]);
    var r := Snapshots(year, month, bs) + [Snapshot(year, month, |bs| + 1, b)];
    assert |l| == |r|;
    forall i | 0 <= i < |l| ensures l[i] == r[i] {
      if i < |bs| {
        assert (bs + [b])[i] == bs[i];
      }
    }
  }

  /** `fetch_month` as its loop runs: before each request the URL of the
      current page is checked, then the next outcome decides. A 429 asks
      for the same page again; a non-empty batch is saved as page `page`,
      appended, and the page advances; any other outcome ends the month.
      The run stays unfinished when the transcript runs out. */
  function MonthLoop<T>(cfg: Config, year: int, month: int, outs: seq<Outcome<T>>,
                        page: nat, acc: seq<T>, snaps: seq<Snapshot<T>>): Run<T>
    decreases |outs|
  {
    if !StartsWith(cfg.baseApi, "http") then Run(Raised(InvalidUrl), snaps)
    else if outs == [] then Run(Unfinished(acc), snaps)
    else match Classify(outs[0])
      case Retry => MonthLoop(cfg, year, month, outs[1..], page, acc, snaps)
      case Stop => Run(Returned(acc), snaps)
      case Raise(e) => Run(Raised(e), snaps)
      case Take(b) => MonthLoop(cfg, year, month, outs[1..], page + 1, acc + b, snaps + [Snapshot(year, month, page, b)])
  }

  /** The loop's state after the first j outcomes, resumed on the rest:
      page 1 + (number of batches so far), holding their items and
      snapshots. */
  function Resume<T>(cfg: Config, year: int, month: int, outs: seq<Outcome<T>>, j: nat): Run<T>
    requires j <= |outs|
  {
    var bs := Batches(outs[..j]);
    MonthLoop(cfg, year, month, outs[j..], 1 + |bs|, Flatten(bs), Snapshots(year, month, bs))
  }

  /** An outcome that lets the loop continue moves it from one resumed
      state to the next. */
  lemma ResumeStep<T>(cfg: Config, year: int, month: int, outs: seq<Outcome<T>>, j: nat)
    requires StartsWith(cfg.baseApi, "http")
    requires j < |outs| && Continues(outs[j])
    ensures Resume(cfg, year, month, outs, j) == Resume(cfg, year, month, outs, j + 1)
  {
    var bs := Batches(outs[..j]);
    assert outs[j..][0] == outs[j] && outs[j..][1..] == outs[j + 1..];
    BatchesStep(outs, j);
    match Classify(outs[j]) {
      case Retry =>
        assert Batches(outs[..j + 1]) == bs;
      case Take(b) =>
        SnapshotsAppend(year, month, bs, b);
        assert (bs + [b])[..|bs|] == bs;
        assert Flatten(bs + [b]) == Flatten(bs) + b;
    }
  }

  /** The loop agrees with MonthSpec from any point up to the stopping
      outcome. */
  lemma {:induction false} MonthLoopMatchesSpec<T>(cfg: Config, year: int, month: int, outs: seq<Outcome<T>>, j: nat)
    requires j <= StopIndex(outs)
    requires j > 0 ==> StartsWith(cfg.baseApi, "http")
    ensures Resume(cfg, year, month, outs, j) == MonthSpec(cfg, year, month, outs)
    decreases |outs| - j
  {
    if !StartsWith(cfg.baseApi, "http") {
      assert outs[..j] == [];
    } else if j == |outs| {
      assert outs[j..] == [];
    } else if j < StopIndex(outs) {
      ResumeStep(cfg, year, month, outs, j);
      MonthLoopMatchesSpec(cfg, year, month, outs, j + 1);
    } else {
      assert outs[j..][0] == outs[j];
    }
  }

  /** `fetch_month`: pages from 1 upwards; a 429 retries the same page; a
      network error, any other status of 400 or more, a body that is not
      JSON or an empty batch ends the month with the items collected so far;
      a non-empty batch is saved as a snapshot, appended, and the page
      advances by one. */
  method FetchMonth<T>(cfg: Config, curYear: int, curMonth: int, start: Calendar.Date, end: Calendar.Date,
                       responses: seq<Outcome<T>>)
    returns (r: End<T>, snapshots: seq<Snapshot<T>>)
    ensures Run(r, snapshots) == MonthLoop(cfg, curYear, curMonth, responses, 1, [], [])
    ensures Run(r, snapshots) == MonthSpec(cfg, curYear, curMonth, responses)
  {
    MonthLoopMatchesSpec(cfg, curYear, curMonth, responses, 0);
    assert responses[..0] == [] && responses[0..] == responses;
    ghost var goal := MonthLoop(cfg, curYear, curMonth, responses, 1, [], []);
    var page: nat := 1;
    var allItems: seq<T> := [];
    snapshots := [];
    var next := 0;  // index of the response the next request receives
    while true
      invariant next <= |responses|
      invariant goal == MonthLoop(cfg, curYear, curMonth, responses[next..], page, allItems, snapshots)
      decreases |responses| - next
    {
      var urlOk := CheckUrl(cfg, page, start, end);
      if !urlOk {
        r := Raised(InvalidUrl);
        return;
      }
      if next == |responses| {
        r := Unfinished(allItems);
        return;
      }
      var resp := responses[next];
      assert responses[next..][0] == resp && responses[next..][1..] == responses[next + 1..];
      next := next + 1;
      if resp.NetworkError? {
        break;
      }
      if resp.status == 429 {
        continue;
      }
      if resp.status >= 400 {
        break;
      }
      if resp.payload.NotJson? {
        break;
      }
      if resp.payload.JsonScalar? {
        r := Raised(NotAnObject);
        return;
      }
      var items := BatchOf(resp.payload);
      if items == [] {
        break;
      }
      snapshots := snapshots + [Snapshot(curYear, curMonth, page, items)];
      allItems := allItems + items;
      page := page + 1;
    }
    r := Returned(allItems);
  }

  /** One more outcome adds its batch, if it has one. */
  lemma BatchesStep<T>(outs: seq<Outcome<T>>, j: nat)
    requires j < |outs|
    ensures Batches(outs[..j + 1])
         == Batches(outs[..j]) + if Classify(outs[j]).Take? then [Classify(outs[j]).batch] else []
  {
    assert outs[..j + 1][..j] == outs[..j];
  }

  // ---------------------------------------------------------------------
  // Properties of a month

  lemma {:induction false} BatchesConcat<T>(a: seq<Outcome<T>>, b: seq<Outcome<T>>)
    ensures Batches(a + b) == Batches(a) + Batches(b)
    decreases |b|
  {
    if b == [] {
      assert a + b == a;
    } else {
      var b' := b[..|b| - 1];
      assert (a + b)[..|a + b| - 1] == a + b';
      assert b[..|b| - 1] == b';
      BatchesConcat(a, b');
    }
  }

  lemma {:induction false} FlattenConcat<T>(a: seq<seq<T>>, b: seq<seq<T>>)
    ensures Flatten(a + b) == Flatten(a) + Flatten(b)
    decreases |b|
  {
    if b == [] {
      assert a + b == a;
    } else {
      var b' := b[..|b| - 1];
      assert (a + b)[..|a + b| - 1] == a + b';
      FlattenConcat(a, b');
    }
  }

  /** A 429 is invisible: the month behaves as if the rate-limited attempt
      had not happened, so the same page is asked again and nothing is
      saved or collected for it. */
  lemma RateLimitRetriesSamePage<T>(cfg: Config, year: int, month: int, p: Payload<T>, rest: seq<Outcome<T>>)
    ensures MonthSpec(cfg, year, month, [Response(429, p)] + rest)
         == MonthSpec(cfg, year, month, rest)
  {
    var outs := [Response(429, p)] + rest;
    assert outs[0] == Response(429, p) && Classify(outs[0]) == Retry;
    assert outs[1..] == rest;
    var k := StopIndex(rest);
    assert StopIndex(outs) == k + 1;
    if k < |rest| {
      assert outs[k + 1] == rest[k];
    }
    assert outs[..k + 1] == [Response(429, p)] + rest[..k];
    BatchesConcat([Response(429, p)], rest[..k]);
    assert Batches([Response(429, p)]) == [] by {
      assert [Response(429, p)][..0] == [];
    }
    assert [] + Batches(rest[..k]) == Batches(rest[..k]);
  }

  /** A stopping outcome ends the month: whatever comes after it is never
      requested, the items are exactly the batches before it, and no
      snapshot is written for it. */
  lemma StopEndsMonth<T>(cfg: Config, year: int, month: int,
                         before: seq<Outcome<T>>, o: Outcome<T>, after: seq<Outcome<T>>)
    requires StartsWith(cfg.baseApi, "http")
    requires forall j :: 0 <= j < |before| ==> Continues(before[j])
    requires Classify(o).Stop?
    ensures MonthSpec(cfg, year, month, before + [o] + after)
         == Run(Returned(Flatten(Batches(before))), Snapshots(year, month, Batches(before)))
  {
    var outs := before + [o] + after;
    StopIndexAt(before, o, after);
    assert outs[|before|] == o;
    assert outs[..|before|] == before;
  }

  /** The first outcome that does not continue the loop is where the month
      stops. */
  lemma {:induction false} StopIndexAt<T>(before: seq<Outcome<T>>, o: Outcome<T>, after: seq<Outcome<T>>)
    requires forall j :: 0 <= j < |before| ==> Continues(before[j])
    requires !Continues(o)
    ensures StopIndex(before + [o] + after) == |before|
    decreases |before|
  {
    var outs := before + [o] + after;
    if before == [] {
      assert outs[0] == o;
    } else {
      assert outs[0] == before[0];
      assert outs[1..] == before[1..] + [o] + after;
      StopIndexAt(before[1..], o, after);
    }
  }

  /** The batches the snapshots hold, in page order. */
  function SavedBatches<T>(snaps: seq<Snapshot<T>>): (bs: seq<seq<T>>)
    ensures |bs| == |snaps|
    ensures forall i :: 0 <= i < |snaps| ==> bs[i] == snaps[i].batch
  {
    seq(|snaps|, i requires 0 <= i < |snaps| => snaps[i].batch)
  }

  /** Every collected item was saved: the items of a month are the
      concatenation of its snapshots' batches in page order, each snapshot
      holds a non-empty batch, and snapshot i is page i + 1. */
  lemma ItemsAreSavedPages<T>(cfg: Config, year: int, month: int, outs: seq<Outcome<T>>)
    ensures var run := MonthSpec(cfg, year, month, outs);
            && (run.end.Returned? || run.end.Unfinished? ==> run.end.items == Flatten(SavedBatches(run.snapshots)))
            && (forall i :: 0 <= i < |run.snapshots| ==>
                  (&& run.snapshots[i].batch != []
                   && run.snapshots[i].year == year && run.snapshots[i].month == month
                   && run.snapshots[i].page == i + 1))
  {
    var k := StopIndex(outs);
    var bs := Batches(outs[..k]);
    BatchesNonEmpty(outs[..k]);
    assert SavedBatches(Snapshots(year, month, bs)) == bs;
  }

  lemma {:induction false} BatchesNonEmpty<T>(outs: seq<Outcome<T>>)
    ensures forall i :: 0 <= i < |Batches(outs)| ==> Batches(outs)[i] != []
    decreases |outs|
  {
    if outs != [] {
      BatchesNonEmpty(outs[..|outs| - 1]);
    }
  }

  /** Distinct pages of a month are saved under distinct paths: the path
      names its page. */
  lemma SnapshotPathDeterminesPage(year: int, month: int, p: nat, q: nat)
    requires SnapshotPath(year, month, p) == SnapshotPath(year, month, q)
    ensures p == q
  {
    var pre := FormatInt(year, 4) + "-" + FormatInt(month, 2) + "-p";
    var a := SnapshotPath(year, month, p)[2];
    var b := SnapshotPath(year, month, q)[2];
    assert a == pre + Decimal(p) + ".json";
    assert b == pre + Decimal(q) + ".json";
    assert |Decimal(p)| == |Decimal(q)|;
    assert a[|pre|..|pre| + |Decimal(p)|] == Decimal(p);
    assert b[|pre|..|pre| + |Decimal(q)|] == Decimal(q);
    DecimalInjective(p, q);
  }

  /** Pages of sizes 3, 2 and 0: five items, pages 1 and 2 saved. */
  lemma ThreeTwoZeroExample(cfg: Config, year: int, month: int)
    requires StartsWith(cfg.baseApi, "http")
    ensures var outs := [Response(200, JsonList([1, 2, 3])), Response(200, JsonObject(Some([4, 5]), None)),
                         Response(200, JsonList([]))];
            var run := MonthSpec(cfg, year, month, outs);
            && run.end == Returned([1, 2, 3, 4, 5])
            && |run.snapshots| == 2
            && run.snapshots[0] == Snapshot(year, month, 1, [1, 2, 3])
            && run.snapshots[1] == Snapshot(year, month, 2, [4, 5])
  {
    var before := [Response(200, JsonList([1, 2, 3])), Response(200, JsonObject(Some([4, 5]), None))];
    var o := Response(200, JsonList([]));
    assert Classify(before[0]) == Take([1, 2, 3]);
    assert Classify(before[1]) == Take([4, 5]);
    assert Classify(o).Stop?;
    StopEndsMonth(cfg, year, month, before, o, []);
    assert before + [o] + [] == [Response(200, JsonList([1, 2, 3])), Response(200, JsonObject(Some([4, 5]), None)),
                                 Response(200, JsonList([]))];
    assert before[..1] == [before[0]];
    assert [before[0]][..0] == [];
    assert Batches([before[0]]) == [[1, 2, 3]];
    assert Batches(before) == [[1, 2, 3], [4, 5]];
    assert Flatten([[1, 2, 3], [4, 5]]) == [1, 2, 3, 4, 5] by {
      assert [[1, 2, 3], [4, 5]][..1] == [[1, 2, 3]];
      assert [[1, 2, 3]][..0] == [];
    }
  }

  // ---------------------------------------------------------------------
  // The period

  /** The months (y, m), (y, m + 1), ..., (y, 12). */
  function MonthsFrom(y: int, m: int): seq<(int, int)>
    decreases 13 - m
  {
    if m > 12 then [] else [(y, m)] + MonthsFrom(y, m + 1)
  }

  /** Every month of the years a..b, in ascending order. */
  function Months(a: int, b: int): seq<(int, int)>
    decreases b - a
  {
    if a > b then [] else MonthsFrom(a, 1) + Months(a + 1, b)
  }

  /** `fetch_period` from the months still to visit: an accumulator of
      items and snapshots, stopped by the first exception or unfinished
      month. */
  function PeriodRun<T>(cfg: Config, server: (int, int) -> seq<Outcome<T>>, ms: seq<(int, int)>,
                        acc: seq<T>, snaps: seq<Snapshot<T>>): Run<T>
    decreases |ms|
  {
    if ms == [] then Run(Returned(acc), snaps)
    else
      var month := VisitMonth(cfg, server, ms[0].0, ms[0].1);
      var snaps' := snaps + month.snapshots;
      match month.end
      case Returned(items) => PeriodRun(cfg, server, ms[1..], acc + items, snaps')
      case Raised(e) => Run(Raised(e), snaps')
      case Unfinished(items) => Run(Unfinished(acc + items), snaps')
  }

  /** One month of `fetch_period`: its window, then `fetch_month` on it.
      A month outside the range of `datetime.date` raises before any
      request; otherwise the window's dates play no part in the result. */
  function VisitMonth<T>(cfg: Config, server: (int, int) -> seq<Outcome<T>>, y: int, m: int): Run<T> {
    if Calendar.HasWindow(y, m) then MonthLoop(cfg, y, m, server(y, m), 1, [], [])
    else Run(Raised(DateOutOfRange), [])
  }

  /** A month of the period is `fetch_month` on its transcript when its
      window exists, and DateOutOfRange before any request otherwise. */
  lemma VisitMonthIsSpec<T>(cfg: Config, server: (int, int) -> seq<Outcome<T>>, y: int, m: int)
    ensures Calendar.HasWindow(y, m) ==> VisitMonth(cfg, server, y, m) == MonthSpec(cfg, y, m, server(y, m))
    ensures !Calendar.HasWindow(y, m) ==> VisitMonth(cfg, server, y, m) == Run(Raised(DateOutOfRange), [])
  {
    var outs := server(y, m);
    MonthLoopMatchesSpec(cfg, y, m, outs, 0);
    assert outs[..0] == [] && outs[0..] == outs;
  }

  /** What `fetch_period(startYear, endYear)` does: PeriodRun over the months
      of the years startYear..endYear. */
  function PeriodSpec<T>(cfg: Config, server: (int, int) -> seq<Outcome<T>>, startYear: int, endYear: int): Run<T> {
    PeriodRun(cfg, server, Months(startYear, endYear), [], [])
  }

  /** The same run, stepping through (year, month) as the two nested loops
      of `fetch_period` do. */
  function PeriodFrom<T>(cfg: Config, server: (int, int) -> seq<Outcome<T>>, y: int, m: int, endYear: int,
                         acc: seq<T>, snaps: seq<Snapshot<T>>): Run<T>
    requires 1 <= m <= 13
    decreases endYear - y, 13 - m
  {
    if y > endYear then Run(Returned(acc), snaps)
    else if m > 12 then PeriodFrom(cfg, server, y + 1, 1, endYear, acc, snaps)
    else
      var month := VisitMonth(cfg, server, y, m);
      var snaps' := snaps + month.snapshots;
      match month.end
      case Returned(items) => PeriodFrom(cfg, server, y, m + 1, endYear, acc + items, snaps')
      case Raised(e) => Run(Raised(e), snaps')
      case Unfinished(items) => Run(Unfinished(acc + items), snaps')
  }

  lemma PeriodRunCons<T>(cfg: Config, server: (int, int) -> seq<Outcome<T>>, y: int, m: int,
                         tail: seq<(int, int)>, acc: seq<T>, snaps: seq<Snapshot<T>>)
    ensures var month := VisitMonth(cfg, server, y, m);
            var run := PeriodRun(cfg, server, [(y, m)] + tail, acc, snaps);
            && (month.end.Returned? ==> run == PeriodRun(cfg, server, tail, acc + month.end.items, snaps + month.snapshots))
            && (month.end.Raised? ==> run == Run(Raised(month.end.error), snaps + month.snapshots))
            && (month.end.Unfinished? ==> run == Run(Unfinished(acc + month.end.items), snaps + month.snapshots))
  {
    assert ([(y, m)] + tail)[1..] == tail;
  }

  /** Stepping through the nested loops visits exactly the months of
      MonthsFrom and Months, in their order. */
  lemma {:induction false} PeriodFromIsRun<T>(cfg: Config, server: (int, int) -> seq<Outcome<T>>, y: int, m: int,
                                              endYear: int, acc: seq<T>, snaps: seq<Snapshot<T>>)
    requires 1 <= m <= 13 && y <= endYear
    ensures PeriodFrom(cfg, server, y, m, endYear, acc, snaps)
         == PeriodRun(cfg, server, MonthsFrom(y, m) + Months(y + 1, endYear), acc, snaps)
    decreases endYear - y, 13 - m
  {
    if m > 12 {
      assert MonthsFrom(y, m) + Months(y + 1, endYear) == Months(y + 1, endYear);
      if y + 1 <= endYear {
        PeriodFromIsRun(cfg, server, y + 1, 1, endYear, acc, snaps);
      }
    } else {
      var tail := MonthsFrom(y, m + 1) + Months(y + 1, endYear);
      assert MonthsFrom(y, m) + Months(y + 1, endYear) == [(y, m)] + tail;
      PeriodRunCons(cfg, server, y, m, tail, acc, snaps);
      var month := VisitMonth(cfg, server, y, m);
      if month.end.Returned? {
        PeriodFromIsRun(cfg, server, y, m + 1, endYear, acc + month.end.items, snaps + month.snapshots);
      }
    }
  }

  lemma PeriodFromIsSpec<T>(cfg: Config, server: (int, int) -> seq<Outcome<T>>, startYear: int, endYear: int)
    ensures PeriodFrom(cfg, server, startYear, 1, endYear, [], []) == PeriodSpec(cfg, server, startYear, endYear)
  {
    if startYear <= endYear {
      PeriodFromIsRun(cfg, server, startYear, 1, endYear, [], []);
    }
  }

  /** The body of the inner loop of `fetch_period`: `month_range`, then
      `fetch_month` on the window. */
  method FetchMonthOf<T>(cfg: Config, y: int, m: int, server: (int, int) -> seq<Outcome<T>>)
    returns (rows: End<T>, saved: seq<Snapshot<T>>)
    ensures Run(rows, saved) == VisitMonth(cfg, server, y, m)
  {
    var range := Calendar.MonthRange(y, m);
    if range.Err? {
      return Raised(DateOutOfRange), [];
    }
    rows, saved := FetchMonth(cfg, y, m, range.value.start, range.value.end, server(y, m));
  }

  /** `fetch_period`: every month of every year from startYear to endYear,
      each fetched with its own transcript `server(y, m)`, the rows
      concatenated in visiting order. */
  method FetchPeriod<T>(cfg: Config, startYear: int, endYear: int, server: (int, int) -> seq<Outcome<T>>)
    returns (r: End<T>, snapshots: seq<Snapshot<T>>)
    ensures Run(r, snapshots) == PeriodSpec(cfg, server, startYear, endYear)
  {
    ghost var goal := PeriodFrom(cfg, server, startYear, 1, endYear, [], []);
    PeriodFromIsSpec(cfg, server, startYear, endYear);
    var allRows: seq<T> := [];
    snapshots := [];
    var y := startYear;
    while y <= endYear
      invariant goal == PeriodFrom(cfg, server, y, 1, endYear, allRows, snapshots)
      decreases endYear - y
    {
      var m := 1;
      while m <= 12
        invariant 1 <= m <= 13
        invariant goal == PeriodFrom(cfg, server, y, m, endYear, allRows, snapshots)
      {
        var rows, saved := FetchMonthOf(cfg, y, m, server);
        snapshots := snapshots + saved;
        match rows
        case Raised(e) =>
          r := Raised(e);
          return;
        case Unfinished(items) =>
          r := Unfinished(allRows + items);
          return;
        case Returned(items) =>
          allRows := allRows + items;
        m := m + 1;
      }
      y := y + 1;
    }
    r := Returned(allRows);
  }

  // ---------------------------------------------------------------------
  // Properties of a period

  lemma {:induction false} MonthsFromAt(y: int, m: int, i: int)
    requires 1 <= m <= 13 && 0 <= i < 13 - m
    ensures |MonthsFrom(y, m)| == 13 - m
    ensures MonthsFrom(y, m)[i] == (y, m + i)
    decreases 13 - m
  {
    if i > 0 {
      MonthsFromAt(y, m + 1, i - 1);
    } else if m < 12 {
      MonthsFromAt(y, m + 1, 0);
    }
  }

  lemma MonthsFromLength(y: int, m: int)
    requires 1 <= m <= 13
    ensures |MonthsFrom(y, m)| == 13 - m
    decreases 13 - m
  {
    if m <= 12 { MonthsFromLength(y, m + 1); }
  }

  /** `fetch_period` visits 12 months for each year from a to b, ascending
      by year and then by month; none when a > b. */
  lemma {:induction false} MonthsInOrder(a: int, b: int)
    ensures |Months(a, b)| == if a <= b then 12 * (b - a + 1) else 0
    ensures forall i :: 0 <= i < |Months(a, b)| ==> Months(a, b)[i] == (a + i / 12, i % 12 + 1)
    decreases b - a
  {
    if a <= b {
      MonthsInOrder(a + 1, b);
      MonthsFromLength(a, 1);
      forall i | 0 <= i < |Months(a, b)| ensures Months(a, b)[i] == (a + i / 12, i % 12 + 1) {
        if i < 12 {
          MonthsFromAt(a, 1, i);
        } else {
          assert Months(a, b)[i] == Months(a + 1, b)[i - 12];
          assert (i - 12) / 12 == i / 12 - 1 && (i - 12) % 12 == i % 12;
        }
      }
    }
  }

  /** Every month of `ms` has a valid window and returns normally. */
  predicate AllMonthsReturn<T>(cfg: Config, server: (int, int) -> seq<Outcome<T>>, ms: seq<(int, int)>) {
    forall i :: 0 <= i < |ms| ==> VisitMonth(cfg, server, ms[i].0, ms[i].1).end.Returned?
  }

  /** The per-month results of `ms`, concatenated in order. */
  function MonthlyItems<T>(cfg: Config, server: (int, int) -> seq<Outcome<T>>, ms: seq<(int, int)>): seq<T>
    requires AllMonthsReturn(cfg, server, ms)
  {
    if ms == [] then []
    else VisitMonth(cfg, server, ms[0].0, ms[0].1).end.items + MonthlyItems(cfg, server, ms[1..])
  }

  /** When every month returns, the period returns the per-month results
      concatenated in visiting order. */
  lemma {:induction false} PeriodConcatenatesMonths<T>(cfg: Config, server: (int, int) -> seq<Outcome<T>>,
                                                       ms: seq<(int, int)>, acc: seq<T>, snaps: seq<Snapshot<T>>)
    requires AllMonthsReturn(cfg, server, ms)
    ensures PeriodRun(cfg, server, ms, acc, snaps).end == Returned(acc + MonthlyItems(cfg, server, ms))
    decreases |ms|
  {
    if ms == [] {
      assert acc + [] == acc;
    } else {
      var month := VisitMonth(cfg, server, ms[0].0, ms[0].1);
      assert AllMonthsReturn(cfg, server, ms[1..]) by {
        forall i | 0 <= i < |ms[1..]| ensures ms[1..][i] == ms[i + 1] { }
      }
      PeriodConcatenatesMonths(cfg, server, ms[1..], acc + month.end.items, snaps + month.snapshots);
      assert acc + month.end.items + MonthlyItems(cfg, server, ms[1..])
          == acc + (month.end.items + MonthlyItems(cfg, server, ms[1..]));
    }
  }

  /** A period whose start year lies after its end year fetches nothing. */
  lemma EmptyPeriod<T>(cfg: Config, server: (int, int) -> seq<Outcome<T>>, startYear: int, endYear: int)
    requires startYear > endYear
    ensures PeriodSpec(cfg, server, startYear, endYear) == Run(Returned([]), [])
  {
  }
}
