/**
 * The one-shot collector of main.go: a fixed publication window, pages of
 * 100, a plain overwrite upsert per record, and an early return on the
 * first fetch error.
 */
module LegacyMain {
  import opened Wrappers
  import opened Nvd
  import opened CveStore
  import opened Collector

  /** The hard-coded window, 2024-07-31T00:00:00Z to 2024-08-29T00:00:00Z. */
  const LegacyWindow := Window(1722384000000, 1724889600000)

  /** The records of one page inserted in order; an insert error skips only that record. */
  function LegacyIngestPage(env: Environment, rows: map<string, CveRow>, start: int, vulns: seq<CveData>)
    : map<string, CveRow>
    decreases |vulns|
  {
    if |vulns| == 0 then rows
    else
      var before := LegacyIngestPage(env, rows, start, vulns[..|vulns| - 1]);
      var j := |vulns| - 1;
      if env.storeError(start, j).Some? then before
      else Overwrite(before, vulns[j].id, Columns(vulns[j]), env.clock(start, j))
  }

  /** After a page, exactly the ids of the records inserted without error have been added. */
  lemma {:induction false} LegacyPageStoresEveryGoodRecord(
    env: Environment, rows: map<string, CveRow>, start: int, vulns: seq<CveData>)
    ensures LegacyIngestPage(env, rows, start, vulns).Keys ==
            rows.Keys + set j | 0 <= j < |vulns| && env.storeError(start, j).None? :: vulns[j].id
    decreases |vulns|
  {
    if |vulns| > 0 {
      var init := vulns[..|vulns| - 1];
      LegacyPageStoresEveryGoodRecord(env, rows, start, init);
      var good := set j | 0 <= j < |vulns| && env.storeError(start, j).None? :: vulns[j].id;
      var goodInit := set j | 0 <= j < |init| && env.storeError(start, j).None? :: init[j].id;
      assert forall j :: 0 <= j < |init| ==> init[j] == vulns[j];
      var last := |vulns| - 1;
      if env.storeError(start, last).None? {
        assert good == goodInit + {vulns[last].id};
      } else {
        assert good == goodInit;
      }
    }
  }

  /** A page of inserts never removes a row. */
  lemma {:induction false} LegacyPageKeepsRows(env: Environment, rows: map<string, CveRow>, start: int, vulns: seq<CveData>)
    ensures rows.Keys <= LegacyIngestPage(env, rows, start, vulns).Keys
    decreases |vulns|
  {
    if |vulns| > 0 {
      LegacyPageKeepsRows(env, rows, start, vulns[..|vulns| - 1]);
    }
  }

  /** The paging loop of main from `startIndex` on. */
  ghost function LegacyFrom(env: Environment, startIndex: int, rows: map<string, CveRow>, maxTotal: nat)
    : map<string, CveRow>
    requires 0 <= startIndex && PagesBounded(env.transport, maxTotal)
    decreases maxTotal - startIndex
  {
    var r := Fetched(MainFetcher, env.transport, LegacyWindow, startIndex);
    if r.Err? then rows
    else
      var rows' := LegacyIngestPage(env, rows, startIndex, r.value.vulnerabilities);
      var next := startIndex + r.value.resultsPerPage;
      if next >= r.value.totalResults then rows' else LegacyFrom(env, next, rows', maxTotal)
  }

  /** A fetch error ends the loop with the table as it was. */
  lemma LegacyFromStops(env: Environment, startIndex: int, rows: map<string, CveRow>, maxTotal: nat)
    requires 0 <= startIndex && PagesBounded(env.transport, maxTotal)
    requires Fetched(MainFetcher, env.transport, LegacyWindow, startIndex).Err?
    ensures LegacyFrom(env, startIndex, rows, maxTotal) == rows
  {
  }

  /** A fetched page is inserted, and the loop goes on from the next index unless the total is reached. */
  lemma LegacyFromPage(env: Environment, startIndex: int, rows: map<string, CveRow>, maxTotal: nat)
    requires 0 <= startIndex && PagesBounded(env.transport, maxTotal)
    requires Fetched(MainFetcher, env.transport, LegacyWindow, startIndex).Ok?
    ensures var page := Fetched(MainFetcher, env.transport, LegacyWindow, startIndex).value;
            var rows' := LegacyIngestPage(env, rows, startIndex, page.vulnerabilities);
            var next := startIndex + page.resultsPerPage;
            LegacyFrom(env, startIndex, rows, maxTotal) ==
            if next >= page.totalResults then rows' else LegacyFrom(env, next, rows', maxTotal)
  {
  }

  /** A table never loses a row over a run of main. */
  lemma {:induction false} LegacyFromKeepsRows(env: Environment, startIndex: int, rows: map<string, CveRow>, maxTotal: nat)
    requires 0 <= startIndex && PagesBounded(env.transport, maxTotal)
    ensures rows.Keys <= LegacyFrom(env, startIndex, rows, maxTotal).Keys
    decreases maxTotal - startIndex
  {
    match Fetched(MainFetcher, env.transport, LegacyWindow, startIndex)
    case Err(_) =>
      LegacyFromStops(env, startIndex, rows, maxTotal);
    case Ok(page) =>
      LegacyFromPage(env, startIndex, rows, maxTotal);
      var rows' := LegacyIngestPage(env, rows, startIndex, page.vulnerabilities);
      LegacyPageKeepsRows(env, rows, startIndex, page.vulnerabilities);
      if startIndex + page.resultsPerPage < page.totalResults {
        LegacyFromKeepsRows(env, startIndex + page.resultsPerPage, rows', maxTotal);
      }
  }


  /** The inner loop of main: insert each record, log and skip the failures. */
  method InsertPage(db: CveTable, env: Environment, start: int, vulns: seq<CveData>)
    modifies db
    ensures db.rows == LegacyIngestPage(env, old(db.rows), start, vulns)
  {
    for j := 0 to |vulns|
      invariant db.rows == LegacyIngestPage(env, old(db.rows), start, vulns[..j])
    {
      var _ := db.StoreOverwrite(vulns[j], env.clock(start, j), env.storeError(start, j));
      assert vulns[..j + 1][..j] == vulns[..j];
    }
    assert vulns[..|vulns|] == vulns;
  }

  /** main's collection: page through the fixed window until the total is reached or a fetch fails. */
  method RunLegacy(db: CveTable, env: Environment, ghost maxTotal: nat)
    requires PagesBounded(env.transport, maxTotal)
    modifies db
    ensures db.rows == LegacyFrom(env, 0, old(db.rows), maxTotal)
  {
    ghost var goal := LegacyFrom(env, 0, db.rows, maxTotal);
    var startIndex := 0;
    while true
      invariant 0 <= startIndex <= maxTotal
      invariant LegacyFrom(env, startIndex, db.rows, maxTotal) == goal
      decreases maxTotal - startIndex
    {
      var resp, _ := FetchCveData(MainFetcher, env.transport, LegacyWindow, startIndex);
      if resp.Err? {
        return;
      }
      InsertPage(db, env, startIndex, resp.value.vulnerabilities);
      var totalResults := resp.value.totalResults;
      startIndex := startIndex + resp.value.resultsPerPage;
      if startIndex >= totalResults {
        break;
      }
    }
  }
}
