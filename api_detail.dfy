/**
 * The CVE detail endpoint of api/getCVEDetail/index.mjs: the status code
 * chosen from the path parameter and the query's rows.
 */
module ApiDetail {
  import opened Wrappers
  import opened ApiList

  /**
   * The detail query, one row per CVE joined with its analysis, asked by
   * the parameters it is given; its SQL text is fixed and not spelled out.
   */
  type DetailQuery<R> = seq<SqlParam> -> Result<seq<R>>

  const IdRequired := "CVE ID is required"
  const NotFound := "CVE not found"
  const QueryFailed := "Error executing query"

  /**
   * The handler: after connecting, a missing or empty id is 400; the query
   * by id failing is 500, no row is 404, and otherwise the first row is
   * answered with 200.
   */
  function DetailHandler<R>(cveId: Option<string>, connectError: Option<string>,
                            query: DetailQuery<R>): (r: Response<R>)
    ensures r.allowOrigin.None?
    ensures r.statusCode in {200, 400, 404, 500}
  {
    if connectError.Some? then Response(500, Failure(QueryFailed, connectError.value), None)
    else if cveId.None? || cveId.value == "" then Response(400, Message(IdRequired), None)
    else
      var rows := query([Text(cveId.value)]);
      if rows.Err? then Response(500, Failure(QueryFailed, rows.error), None)
      else if |rows.value| == 0 then Response(404, Message(NotFound), None)
      else Response(200, Detail(rows.value[0]), None)
  }

  /** Each status code, stated both ways. */
  lemma DetailStatusIff<R>(cveId: Option<string>, connectError: Option<string>,
                           query: DetailQuery<R>)
    ensures var r := DetailHandler(cveId, connectError, query);
            var given := cveId.Some? && cveId.value != "";
            (r.statusCode == 400 <==> connectError.None? && !given) &&
            (r.statusCode == 500 <==> connectError.Some? || (given && query([Text(cveId.value)]).Err?)) &&
            (r.statusCode == 404 <==> connectError.None? && given && query([Text(cveId.value)]) == Ok([])) &&
            (r.statusCode == 200 <==> connectError.None? && given && query([Text(cveId.value)]).Ok? &&
                                      |query([Text(cveId.value)]).value| > 0)
  {
  }

  /** A 200 answer carries the first row the query returned for the id, and only it. */
  lemma DetailAnswersFirstRow<R>(cveId: string, query: DetailQuery<R>)
    requires cveId != ""
    requires query([Text(cveId)]).Ok? && |query([Text(cveId)]).value| > 0
    ensures DetailHandler(Some(cveId), None, query) == Response(200, Detail(query([Text(cveId)]).value[0]), None)
  {
  }

  /** A missing id is refused before the database is asked: the answer does not depend on it. */
  lemma MissingIdAsksNothing<R>(cveId: Option<string>, q1: DetailQuery<R>,
                                q2: DetailQuery<R>)
    requires cveId.None? || cveId.value == ""
    ensures DetailHandler(cveId, None, q1) == DetailHandler(cveId, None, q2) == Response(400, Message(IdRequired), None)
  {
  }
}
