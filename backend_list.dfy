/**
 * The older CVE list endpoint of backend/getCVEList/index.mjs: one fixed
 * query, newest modification first, with the page size and offset as its
 * two parameters, and the error message passed back on failure.
 */
module BackendList {
  import opened Wrappers
  import opened Text
  import opened ApiList

  const BackendSelect := "\n      SELECT \n        c.cve_id, \n        c.last_modified_date,\n        c.vulnerability_status, \n        c.updated_at AS cve_updated_at,\n        a.updated_at AS analysis_updated_at,\n        a.risk_level,\n        a.analysis_summary,\n        a.affected_products\n      FROM \n        cve_data c\n      LEFT JOIN \n        analysis_data a ON c.cve_id = a.cve_id\n      "

  /** The fixed order of the query: newest modification first. */
  const BackendOrder := "ORDER BY \n        " + TieBreak

  const BackendPaging := "\n      LIMIT $1 OFFSET $2\n    "

  /** The whole data query. */
  const BackendQuery := BackendSelect + BackendOrder + BackendPaging

  /** The parameters of the data query: the page size, then the offset. */
  function BackendParams(page: Option<int>): (r: seq<SqlParam>)
    ensures |r| == 2 && r[0] == Number(Some(PageSize as int)) && r[1] == Number(OffsetOf(page))
  {
    [Number(Some(PageSize as int)), Number(OffsetOf(page))]
  }

  const QueryFailed := "Error executing query"

  /**
   * The handler: connect, run the data query and the unfiltered count, and
   * answer 200 with the rows and the paging block; a failure on the way is
   * 500 with its message.
   */
  function BackendListHandler<R>(pageParam: Option<string>, connectError: Option<string>,
                                 data: (string, seq<SqlParam>) -> Result<seq<R>>,
                                 count: (string, seq<SqlParam>) -> Result<nat>): (r: Response<R>)
    ensures r.allowOrigin.None?
    ensures connectError.Some? ==> r == Response(500, Failure(QueryFailed, connectError.value), None)
    ensures r.statusCode == 200 || r.statusCode == 500
    ensures r.statusCode == 500 ==> r.body.Failure? && r.body.message == QueryFailed
  {
    var page := PageOf(pageParam);
    if connectError.Some? then Response(500, Failure(QueryFailed, connectError.value), None)
    else
      var rows := data(BackendQuery, BackendParams(page));
      if rows.Err? then Response(500, Failure(QueryFailed, rows.error), None)
      else
        var total := count(CountSelect, []);
        if total.Err? then Response(500, Failure(QueryFailed, total.error), None)
        else Response(200, Listing(rows.value, PaginationOf(page, total.value)), None)
  }

  /** The query is always ordered by the last modification time, newest first. */
  lemma BackendOrderFixed()
    ensures Contains(BackendQuery, "ORDER BY \n        " + TieBreak)
  {
    ContainsPiece(BackendSelect, BackendOrder, BackendPaging);
  }

  /** A 200 answer carries the rows of the data query and the paging block of the count. */
  lemma BackendListOk<R>(pageParam: Option<string>, connectError: Option<string>,
                         data: (string, seq<SqlParam>) -> Result<seq<R>>, count: (string, seq<SqlParam>) -> Result<nat>)
    ensures var page := PageOf(pageParam);
            var rows := data(BackendQuery, BackendParams(page));
            var total := count(CountSelect, []);
            BackendListHandler(pageParam, connectError, data, count).statusCode == 200 <==>
              connectError.None? && rows.Ok? && total.Ok?
    ensures var page := PageOf(pageParam);
            var rows := data(BackendQuery, BackendParams(page));
            var total := count(CountSelect, []);
            BackendListHandler(pageParam, connectError, data, count).statusCode == 200 ==>
              BackendListHandler(pageParam, connectError, data, count).body ==
                Listing(rows.value, PaginationOf(page, total.value))
  {
  }

  /**
   * With no search and no sort key the newer endpoint sends the same
   * parameters, orders the same way and counts the same rows as this one.
   */
  lemma NewerEndpointAgrees(pageParam: Option<string>)
    ensures DataParams(SearchOf(None), OffsetOf(PageOf(pageParam))) == BackendParams(PageOf(pageParam))
    ensures OrderBy(None, "DESC") == "ORDER BY " + TieBreak
    ensures CountQuery(SearchOf(None)) == CountSelect && CountParams(SearchOf(None)) == []
  {
  }
}
