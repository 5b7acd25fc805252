/**
 * The NVD collector of internal/collector/collector.go: the retrying fetch
 * of one page, the paging loop over a publication window, the per-record
 * store-and-publish rule, and the ticker's first-run switch. The fetch is
 * shared with the legacy program in main.go, which differs only in page
 * size and error texts.
 */
module Collector {
  import opened Wrappers
  import opened Text
  import opened Nvd
  import opened CveStore

  // ---------------------------------------------------------------------
  // fetchCVEData
  // ---------------------------------------------------------------------

  /** The two fetchers: internal/collector/collector.go and main.go. */
  datatype Fetcher = CollectorFetcher | MainFetcher

  /** The `resultsPerPage` each fetcher asks for. */
  function PageSize(f: Fetcher): nat {
    match f
    case CollectorFetcher => 500
    case MainFetcher => 100
  }

  /** A publication window `pubStartDate`..`pubEndDate`. */
  datatype Window = Window(pubStartDate: Timestamp, pubEndDate: Timestamp)

  /** The query parameters of one page request. */
  datatype NvdQuery = NvdQuery(window: Window, startIndex: int, resultsPerPage: nat)

  /** A decoded NVD response page. */
  datatype Page = Page(vulnerabilities: seq<CveData>, resultsPerPage: int, totalResults: int)

  /** What reading and decoding a response body gave. */
  datatype Body = Decoded(page: Page) | ReadFailed(readError: string) | Malformed(jsonError: string)

  /** One transport attempt: a response, or a transport error from the HTTP client. */
  datatype Attempt = Response(status: nat, body: Body) | TransportFailure(transportError: string)

  /** The network: the answer to attempt `k` (from 0) of a query. */
  type Transport = (NvdQuery, nat) -> Attempt

  const MaxAttempts: nat := 3

  /** The number of attempts made from attempt `k` (counting from 1) on. */
  function AttemptsFrom(transport: Transport, q: NvdQuery, k: nat): (n: nat)
    requires 1 <= k <= MaxAttempts
    ensures k <= n <= MaxAttempts
    ensures n == MaxAttempts || transport(q, n - 1).Response?
    ensures forall j :: k - 1 <= j < n - 1 ==> transport(q, j).TransportFailure?
    decreases MaxAttempts - k
  {
    if k == MaxAttempts || transport(q, k - 1).Response? then k else AttemptsFrom(transport, q, k + 1)
  }

  /** How many attempts fetchCVEData makes: up to the first response, at most three. */
  function Attempts(transport: Transport, q: NvdQuery): (n: nat)
    ensures 1 <= n <= MaxAttempts
    ensures n == MaxAttempts || transport(q, n - 1).Response?
    ensures forall j :: 0 <= j < n - 1 ==> transport(q, j).TransportFailure?
  {
    AttemptsFrom(transport, q, 1)
  }

  /** The page, or the error each fetcher reports, given the last attempt. */
  function Outcome(f: Fetcher, a: Attempt): (r: Result<Page>)
    ensures r.Ok? <==> a.Response? && a.status == 200 && a.body.Decoded?
    ensures r.Ok? ==> r.value == a.body.page
  {
    match a
    case TransportFailure(e) =>
      if f == CollectorFetcher then Err("[Response] " + e) else Err(e)
    case Response(status, body) =>
      if status != 200 then
        if f == CollectorFetcher then Err("[HTTP Status code] " + NatToString(status))
        else Err("API request failed with status code: " + NatToString(status))
      else
        match body
        case Decoded(p) => Ok(p)
        case ReadFailed(e) => if f == CollectorFetcher then Err("[ReadAll] " + e) else Err(e)
        case Malformed(e) => if f == CollectorFetcher then Err("[Unmarshal] " + e) else Err(e)
  }

  function Query(f: Fetcher, w: Window, startIndex: int): NvdQuery {
    NvdQuery(w, startIndex, PageSize(f))
  }

  /** What fetchCVEData returns for one page. */
  function Fetched(f: Fetcher, transport: Transport, w: Window, startIndex: int): (r: Result<Page>)
    ensures var q := Query(f, w, startIndex);
            r.Ok? ==> transport(q, Attempts(transport, q) - 1) == Response(200, Decoded(r.value))
  {
    var q := Query(f, w, startIndex);
    Outcome(f, transport(q, Attempts(transport, q) - 1))
  }

  /** fetchCVEData: retry transport errors, at most three attempts in all. */
  method FetchCveData(f: Fetcher, transport: Transport, w: Window, startIndex: int)
    returns (r: Result<Page>, attempts: nat)
    ensures attempts == Attempts(transport, Query(f, w, startIndex))
    ensures r == Fetched(f, transport, w, startIndex)
  {
    var q := Query(f, w, startIndex);
    attempts := 1;
    var a := transport(q, 0);
    while a.TransportFailure? && attempts < MaxAttempts
      invariant 1 <= attempts <= MaxAttempts
      invariant a == transport(q, attempts - 1)
      invariant AttemptsFrom(transport, q, attempts) == Attempts(transport, q)
      decreases MaxAttempts - attempts
    {
      a := transport(q, attempts);
      attempts := attempts + 1;
    }
    r := Outcome(f, a);
  }

  /** A non-200 status is reported at once, without a retry. */
  lemma StatusErrorNotRetried(f: Fetcher, transport: Transport, w: Window, startIndex: int)
    requires var q := Query(f, w, startIndex); transport(q, 0).Response? && transport(q, 0).status != 200
    ensures Attempts(transport, Query(f, w, startIndex)) == 1
    ensures Fetched(f, transport, w, startIndex).Err?
  {
  }

  /** Three transport errors in a row give up with the third one's error. */
  lemma TransportErrorsExhaustRetries(transport: Transport, w: Window, startIndex: int)
    requires var q := Query(CollectorFetcher, w, startIndex);
             forall k :: 0 <= k < MaxAttempts ==> transport(q, k).TransportFailure?
    ensures var q := Query(CollectorFetcher, w, startIndex);
            Attempts(transport, q) == MaxAttempts &&
            Fetched(CollectorFetcher, transport, w, startIndex) == Err("[Response] " + transport(q, 2).transportError)
  {
    var q := Query(CollectorFetcher, w, startIndex);
    assert transport(q, 0).TransportFailure? && transport(q, 1).TransportFailure?;
  }

  // ---------------------------------------------------------------------
  // Storing and publishing the records of one page
  // ---------------------------------------------------------------------

  /**
   * The surroundings of one run, each answer keyed by the page's startIndex
   * and the record's position on it: the network, the database clock, the
   * database's errors and the queue's send failures.
   */
  datatype Environment = Environment(
    transport: Transport,
    clock: (int, nat) -> Timestamp,
    storeError: (int, nat) -> Option<string>,
    sendFails: (int, nat) -> bool)

  /** The table, the ids published to the queue in order, and `updateResults`. */
  datatype Tally = Tally(rows: map<string, CveRow>, published: seq<string>, updates: nat)

  /** The store and publish step for record `j` of the page at `start`. */
  function Step(env: Environment, t: Tally, start: int, j: nat, cve: CveData): (r: Tally)
    ensures env.storeError(start, j).Some? ==> r == t
    ensures env.storeError(start, j).None? ==>
              var u := Upsert(t.rows, CastKey(cve.id), CastColumns(Columns(cve)), env.clock(start, j));
              r.rows == u.rows &&
              r.updates == (if u.changed then t.updates + 1 else t.updates) &&
              r.published == (if u.changed && cve.vulnStatus != "Received" && !env.sendFails(start, j)
                              then t.published + [cve.id] else t.published)
  {
    match env.storeError(start, j)
    case Some(_) => t
    case None =>
      var u := Upsert(t.rows, CastKey(cve.id), CastColumns(Columns(cve)), env.clock(start, j));
      if !u.changed then Tally(u.rows, t.published, t.updates)
      else
        var published := if cve.vulnStatus != "Received" && !env.sendFails(start, j)
                         then t.published + [cve.id] else t.published;
        Tally(u.rows, published, t.updates + 1)
  }

  /** The records of one page stored in order. */
  function IngestPage(env: Environment, t: Tally, start: int, vulns: seq<CveData>): Tally
    decreases |vulns|
  {
    if |vulns| == 0 then t
    else Step(env, IngestPage(env, t, start, vulns[..|vulns| - 1]), start, |vulns| - 1, vulns[|vulns| - 1])
  }

  /** One more record of the page is one more `Step`. */
  lemma IngestPageStep(env: Environment, t: Tally, start: int, vulns: seq<CveData>, j: nat)
    requires j < |vulns|
    ensures IngestPage(env, t, start, vulns[..j + 1]) ==
            Step(env, IngestPage(env, t, start, vulns[..j]), start, j, vulns[j])
  {
    assert vulns[..j + 1][..j] == vulns[..j];
  }

  /** Some record of `vulns` has id `id` and a status other than "Received". */
  ghost predicate NotReceivedIn(id: string, vulns: seq<CveData>) {
    exists j :: 0 <= j < |vulns| && vulns[j].id == id && vulns[j].vulnStatus != "Received"
  }

  /**
   * Only records whose status is not "Received" are published, publishing
   * only appends, and every publish is also counted in `updateResults`.
   */
  lemma {:induction false} IngestPagePublishRule(env: Environment, t: Tally, start: int, vulns: seq<CveData>)
    ensures var r := IngestPage(env, t, start, vulns);
            t.published <= r.published &&
            |r.published| - |t.published| <= r.updates - t.updates &&
            forall i :: |t.published| <= i < |r.published| ==> NotReceivedIn(r.published[i], vulns)
    decreases |vulns|
  {
    if |vulns| > 0 {
      var init := vulns[..|vulns| - 1];
      IngestPagePublishRule(env, t, start, init);
      var m := IngestPage(env, t, start, init);
      var last := vulns[|vulns| - 1];
      var r := IngestPage(env, t, start, vulns);
      assert r == Step(env, m, start, |vulns| - 1, last);
      assert r.published == m.published || (r.published == m.published + [last.id] && last.vulnStatus != "Received");
      forall i | |t.published| <= i < |r.published|
        ensures NotReceivedIn(r.published[i], vulns)
      {
        if i < |m.published| {
          var j :| 0 <= j < |init| && init[j].id == m.published[i] && init[j].vulnStatus != "Received";
          assert vulns[j] == init[j];
        } else {
          assert r.published[i] == last.id;
        }
      }
    }
  }

  /** A page whose records all match their stored rows leaves the table, the queue and the count as they were. */
  lemma {:induction false} IngestPageUnchangedIsQuiet(env: Environment, t: Tally, start: int, vulns: seq<CveData>)
    requires forall j :: 0 <= j < |vulns| ==>
               env.storeError(start, j).Some? ||
               (CastKey(vulns[j].id) in t.rows &&
                t.rows[CastKey(vulns[j].id)].cols == CastColumns(Columns(vulns[j])) &&
                t.rows[CastKey(vulns[j].id)].updatedAt != env.clock(start, j))
    ensures IngestPage(env, t, start, vulns) == t
    decreases |vulns|
  {
    if |vulns| > 0 {
      var init := vulns[..|vulns| - 1];
      assert forall j :: 0 <= j < |init| ==> init[j] == vulns[j];
      IngestPageUnchangedIsQuiet(env, t, start, init);
    }
  }

  // ---------------------------------------------------------------------
  // The paging loop over one window
  // ---------------------------------------------------------------------

  /**
   * Every page after which the loop goes on (`startIndex + resultsPerPage <
   * totalResults`) advances the index and reports at most `maxTotal`
   * results; a last page, such as the empty answer `Page([], 0, 0)`, is
   * unconstrained. Without this the paging loop need not end.
   */
  ghost predicate PagesBounded(transport: Transport, maxTotal: nat) {
    forall q: NvdQuery, k: nat ::
      (0 <= q.startIndex && transport(q, k).Response? && transport(q, k).body.Decoded? &&
       q.startIndex + transport(q, k).body.page.resultsPerPage < transport(q, k).body.page.totalResults) ==>
      transport(q, k).body.page.resultsPerPage > 0 && transport(q, k).body.page.totalResults <= maxTotal
  }

  /** The paging loop from `startIndex` on: stop at a fetch error or once the index reaches the total. */
  ghost function CollectFrom(env: Environment, w: Window, startIndex: int, t: Tally, maxTotal: nat): Tally
    requires 0 <= startIndex && PagesBounded(env.transport, maxTotal)
    decreases maxTotal - startIndex
  {
    var r := Fetched(CollectorFetcher, env.transport, w, startIndex);
    if r.Err? then t
    else
      var t' := IngestPage(env, t, startIndex, r.value.vulnerabilities);
      var next := startIndex + r.value.resultsPerPage;
      if next >= r.value.totalResults then t' else CollectFrom(env, w, next, t', maxTotal)
  }

  /**
   * `id` belongs to a record whose status is not "Received", on a page of
   * window `w` at some index from `from` on that the collector fetched
   * with status 200.
   */
  ghost predicate FetchedNotReceived(env: Environment, w: Window, from: int, id: string) {
    exists s: int :: from <= s && Fetched(CollectorFetcher, env.transport, w, s).Ok? &&
      NotReceivedIn(id, Fetched(CollectorFetcher, env.transport, w, s).value.vulnerabilities)
  }

  /**
   * Over a whole window, publishing only appends, never outruns
   * `updateResults`, and publishes only ids of fetched records whose
   * status is not "Received".
   */
  lemma {:induction false} CollectFromPublishRule(env: Environment, w: Window, startIndex: int, t: Tally, maxTotal: nat)
    requires 0 <= startIndex && PagesBounded(env.transport, maxTotal)
    ensures var r := CollectFrom(env, w, startIndex, t, maxTotal);
            t.published <= r.published && |r.published| - |t.published| <= r.updates - t.updates
    ensures var r := CollectFrom(env, w, startIndex, t, maxTotal);
            forall i :: |t.published| <= i < |r.published| ==> FetchedNotReceived(env, w, startIndex, r.published[i])
    decreases maxTotal - startIndex
  {
    var page := Fetched(CollectorFetcher, env.transport, w, startIndex);
    if page.Ok? {
      var vulns := page.value.vulnerabilities;
      var t' := IngestPage(env, t, startIndex, vulns);
      IngestPagePublishRule(env, t, startIndex, vulns);
      var next := startIndex + page.value.resultsPerPage;
      if next < page.value.totalResults {
        CollectFromPublishRule(env, w, next, t', maxTotal);
        var r := CollectFrom(env, w, startIndex, t, maxTotal);
        assert r == CollectFrom(env, w, next, t', maxTotal);
        forall i | |t.published| <= i < |r.published|
          ensures FetchedNotReceived(env, w, startIndex, r.published[i])
        {
          if i < |t'.published| {
            assert r.published[i] == t'.published[i];
            assert NotReceivedIn(r.published[i], vulns);
          } else {
            var s :| next <= s && Fetched(CollectorFetcher, env.transport, w, s).Ok? &&
                     NotReceivedIn(r.published[i], Fetched(CollectorFetcher, env.transport, w, s).value.vulnerabilities);
          }
        }
      } else {
        forall i | |t.published| <= i < |t'.published|
          ensures FetchedNotReceived(env, w, startIndex, t'.published[i])
        {
          assert NotReceivedIn(t'.published[i], vulns);
        }
      }
    }
  }

  /**
   * NVD's answer to a window with no CVEs, `Page([], 0, 0)`, ends the loop
   * at once (0 >= 0): it is admitted by PagesBounded and changes nothing.
   */
  lemma EmptyWindowCollectsNothing(env: Environment, w: Window, t: Tally)
    requires forall q: NvdQuery, k: nat :: env.transport(q, k) == Response(200, Decoded(Page([], 0, 0)))
    ensures PagesBounded(env.transport, 0)
    ensures CollectFrom(env, w, 0, t, 0) == t
  {
    var r := Fetched(CollectorFetcher, env.transport, w, 0);
    assert r == Ok(Page([], 0, 0));
    assert IngestPage(env, t, 0, []) == t;
  }

  /** 60 days, the width of the window each tick collects. */
  const WindowLength: int := 60 * 24 * 60 * 60 * 1000

  /** The first tick fires after 10 seconds, later ones every `interval` hours. */
  const FirstPeriod: nat := 10

  /** The running collector: its table, what it has published, and its ticker. */
  class Collector {
    const db: CveTable
    const interval: nat
    var published: seq<string>
    var firstRun: bool
    var period: nat     // the ticker period, in seconds

    constructor (db: CveTable, interval: nat)
      ensures this.db == db && this.interval == interval
      ensures published == [] && firstRun && period == FirstPeriod
    {
      this.db := db;
      this.interval := interval;
      published := [];
      firstRun := true;
      period := FirstPeriod;
    }

    /** The inner loop of Run: store each record of a page, publish and count the changed ones. */
    method IngestPageInto(env: Environment, start: int, vulns: seq<CveData>, updates0: nat) returns (updates: nat)
      modifies this, db
      ensures unchanged(this`firstRun, this`period)
      ensures Tally(db.rows, published, updates) ==
              IngestPage(env, Tally(old(db.rows), old(published), updates0), start, vulns)
    {
      updates := updates0;
      for j := 0 to |vulns|
        invariant unchanged(this`firstRun, this`period)
        invariant Tally(db.rows, published, updates) ==
                  IngestPage(env, Tally(old(db.rows), old(published), updates0), start, vulns[..j])
      {
        var cve := vulns[j];
        var changed, err := db.Store(cve, env.clock(start, j), env.storeError(start, j));
        if err.None? && changed {
          if cve.vulnStatus != "Received" && !env.sendFails(start, j) {
            published := published + [cve.id];
          }
          updates := updates + 1;
        }
        IngestPageStep(env, Tally(old(db.rows), old(published), updates0), start, vulns, j);
      }
      assert vulns[..|vulns|] == vulns;
    }

    /** The paging loop of Run over one window; returns `updateResults`. */
    method CollectWindow(env: Environment, w: Window, ghost maxTotal: nat) returns (updates: nat)
      requires PagesBounded(env.transport, maxTotal)
      modifies this, db
      ensures unchanged(this`firstRun, this`period)
      ensures Tally(db.rows, published, updates) ==
              CollectFrom(env, w, 0, Tally(old(db.rows), old(published), 0), maxTotal)
    {
      ghost var goal := CollectFrom(env, w, 0, Tally(db.rows, published, 0), maxTotal);
      var startIndex := 0;
      updates := 0;
      while true
        invariant 0 <= startIndex <= maxTotal
        invariant unchanged(this`firstRun, this`period)
        invariant CollectFrom(env, w, startIndex, Tally(db.rows, published, updates), maxTotal) == goal
        decreases maxTotal - startIndex
      {
        var resp, _ := FetchCveData(CollectorFetcher, env.transport, w, startIndex);
        if resp.Err? {
          break;
        }
        var page := resp.value;
        updates := IngestPageInto(env, startIndex, page.vulnerabilities, updates);
        var totalResults := page.totalResults;
        startIndex := startIndex + page.resultsPerPage;
        if startIndex >= totalResults {
          break;
        }
      }
    }

    /** One tick of Run at time `now`: switch the ticker on the first tick, then collect the last 60 days. */
    method Tick(env: Environment, now: Timestamp, ghost maxTotal: nat) returns (updates: nat)
      requires PagesBounded(env.transport, maxTotal)
      modifies this, db
      ensures !firstRun
      ensures period == if old(firstRun) then interval * 3600 else old(period)
      ensures Tally(db.rows, published, updates) ==
              CollectFrom(env, Window(now - WindowLength, now), 0, Tally(old(db.rows), old(published), 0), maxTotal)
    {
      if firstRun {
        period := interval * 3600;
        firstRun := false;
      }
      updates := CollectWindow(env, Window(now - WindowLength, now), maxTotal);
    }
  }
}
