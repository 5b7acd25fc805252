/**
 * The CVE list endpoint of api/getCVEList/index.mjs: the query-string
 * parameters, the paging arithmetic, the sort whitelist, the SQL text and
 * its positional parameters, and the response. The database is a pair of
 * oracles from (SQL text, parameters) to rows or a count.
 */
module ApiList {
  import opened Wrappers
  import opened Text

  /** Rows per page. */
  const PageSize: nat := 20

  // ---------------------------------------------------------------------
  // JavaScript string helpers
  // ---------------------------------------------------------------------

  /** The white space and line terminators JavaScript's trim and parseInt skip. */
  predicate IsJsSpace(c: char) {
    c == ' ' || c == '\t' || c == '\n' || c == '\r' || c == '\U{000B}' || c == '\U{000C}'
    || c == '\U{00A0}' || c == '\U{FEFF}' || c == '\U{1680}' || '\U{2000}' <= c <= '\U{200A}'
    || c == '\U{2028}' || c == '\U{2029}' || c == '\U{202F}' || c == '\U{205F}' || c == '\U{3000}'
  }

  function TrimStartJs(s: string): (r: string)
    ensures |r| <= |s| && r == s[|s| - |r|..]
    ensures forall i :: 0 <= i < |s| - |r| ==> IsJsSpace(s[i])
    ensures r == "" || !IsJsSpace(r[0])
    decreases |s|
  {
    if |s| > 0 && IsJsSpace(s[0]) then TrimStartJs(s[1..]) else s
  }

  function TrimEndJs(s: string): (r: string)
    ensures |r| <= |s| && r == s[..|r|]
    ensures forall i :: |r| <= i < |s| ==> IsJsSpace(s[i])
    ensures r == "" || !IsJsSpace(r[|r| - 1])
    decreases |s|
  {
    if |s| > 0 && IsJsSpace(s[|s| - 1]) then TrimEndJs(s[..|s| - 1]) else s
  }

  /** String.prototype.trim. */
  function TrimJs(s: string): (r: string)
    ensures r == "" || (!IsJsSpace(r[0]) && !IsJsSpace(r[|r| - 1]))
  {
    TrimEndJs(TrimStartJs(s))
  }

  /** A string of white space alone trims to the empty string. */
  lemma BlankTrimsToEmpty(s: string)
    requires forall i :: 0 <= i < |s| ==> IsJsSpace(s[i])
    ensures TrimJs(s) == ""
  {
  }

  /** The longest run of decimal digits at the head of `s`. */
  function DigitPrefix(s: string): (r: string)
    ensures r <= s && AllDigits(r)
    ensures |r| < |s| ==> !IsDigit(s[|r|])
    decreases |s|
  {
    if |s| == 0 || !IsDigit(s[0]) then "" else [s[0]] + DigitPrefix(s[1..])
  }

  /** The digit prefix of digits followed by a non-digit is those digits. */
  lemma {:induction false} DigitPrefixOf(d: string, rest: string)
    requires AllDigits(d)
    requires rest == "" || !IsDigit(rest[0])
    ensures DigitPrefix(d + rest) == d
    decreases |d|
  {
    if |d| > 0 {
      assert (d + rest)[1..] == d[1..] + rest;
      DigitPrefixOf(d[1..], rest);
    } else {
      assert d + rest == rest;
    }
  }

  /** The value of the digit run at the head of `u`; None (NaN) when there is none. */
  function LeadingNumber(u: string): (r: Option<nat>)
    ensures r.None? <==> u == "" || !IsDigit(u[0])
  {
    var digits := DigitPrefix(u);
    if digits == "" then None else Some(ParseNat(digits))
  }

  /** One optional sign, then the leading number. */
  function SignedNumber(t: string): Option<int> {
    if |t| > 0 && t[0] == '-' then
      var n := LeadingNumber(t[1..]);
      if n.None? then None else Some(-(n.value as int))
    else if |t| > 0 && t[0] == '+' then
      var n := LeadingNumber(t[1..]);
      if n.None? then None else Some(n.value as int)
    else
      var n := LeadingNumber(t);
      if n.None? then None else Some(n.value as int)
  }

  /**
   * parseInt(s) in base ten: leading white space and one sign are skipped,
   * the longest digit run is read and the rest ignored; no digit at all is
   * NaN, written None.
   */
  function ParseIntJs(s: string): Option<int> {
    SignedNumber(TrimStartJs(s))
  }

  lemma TrimStartOfNonSpace(u: string)
    requires |u| > 0 && !IsJsSpace(u[0])
    ensures TrimStartJs(u) == u
  {
  }

  /** A leading number read after a minus sign is negated. */
  lemma ParseIntJsNegative(u: string)
    requires LeadingNumber(u).Some?
    ensures ParseIntJs("-" + u) == Some(-(LeadingNumber(u).value as int))
  {
    var s := "-" + u;
    assert s[0] == '-' && s[1..] == u;
    TrimStartOfNonSpace(s);
  }

  /** A leading number with no sign in front reads as itself. */
  lemma ParseIntJsUnsigned(u: string)
    requires LeadingNumber(u).Some?
    ensures ParseIntJs(u) == Some(LeadingNumber(u).value as int)
  {
    TrimStartOfNonSpace(u);
  }

  /** A run of digits followed by a non-digit reads as its value. */
  lemma ParseIntJsOfDigits(d: string, rest: string)
    requires |d| > 0 && AllDigits(d)
    requires rest == "" || !IsDigit(rest[0])
    ensures ParseIntJs(d + rest) == Some(ParseNat(d) as int)
  {
    DigitPrefixOf(d, rest);
    ParseIntJsUnsigned(d + rest);
  }

  /** A decimal number followed by anything but a digit parses back to itself. */
  lemma ParseIntJsOfNumber(n: nat, rest: string)
    requires rest == "" || !IsDigit(rest[0])
    ensures ParseIntJs(NatToString(n) + rest) == Some(n)
  {
    ParseIntJsOfDigits(NatToString(n), rest);
    ParseNatToString(n);
  }

  // ---------------------------------------------------------------------
  // The request
  // ---------------------------------------------------------------------

  /** The query-string parameters of the list request; a missing one is None. */
  datatype ListRequest = ListRequest(
    page: Option<string>, cveId: Option<string>, sortBy: Option<string>, sortOrder: Option<string>)

  /**
   * The requested page: 1 when the parameter is missing or empty, else
   * parseInt of it (None for NaN).
   */
  function PageOf(param: Option<string>): (p: Option<int>)
    ensures param.None? || param == Some("") ==> p == Some(1)
    ensures param.Some? && param.value != "" ==> p == ParseIntJs(param.value)
  {
    if param.Some? && param.value != "" then ParseIntJs(param.value) else Some(1)
  }

  /** The row offset of a page; NaN stays NaN. */
  function OffsetOf(page: Option<int>): (r: Option<int>)
    ensures page.None? <==> r.None?
    ensures page.Some? ==> r.value + PageSize == page.value * PageSize
  {
    if page.None? then None else Some((page.value - 1) * PageSize)
  }

  /** The trimmed search term; a missing parameter searches for nothing. */
  function SearchOf(param: Option<string>): (r: string)
    ensures param.None? ==> r == ""
    ensures param.Some? ==> r == TrimJs(param.value)
  {
    if param.None? then "" else TrimJs(param.value)
  }

  /** The three sortable columns and the SQL column each stands for. */
  function SortColumn(sortBy: Option<string>): (r: Option<string>)
    ensures r.Some? <==> sortBy.Some? && sortBy.value in {"published_date", "last_modified_date", "analysis_updated_at"}
    ensures r == Some("a.updated_at") <==> sortBy == Some("analysis_updated_at")
  {
    if sortBy == Some("published_date") then Some("c.published_date")
    else if sortBy == Some("last_modified_date") then Some("c.last_modified_date")
    else if sortBy == Some("analysis_updated_at") then Some("a.updated_at")
    else None
  }

  /**
   * The sort order as written: upper-cased and used as it is, "DESC" when
   * missing or empty.
   */
  function SortOrderAsWritten(param: Option<string>): (r: string)
    ensures r != ""
    ensures param.Some? && param.value != "" ==> r == ToUpper(param.value)
  {
    if param.Some? && ToUpper(param.value) != "" then ToUpper(param.value) else "DESC"
  }

  /** The sort order as evidently intended: "ASC" when asked for, "DESC" otherwise. */
  function SortDirection(param: Option<string>): (r: string)
    ensures r == "ASC" || r == "DESC"
    ensures r == "ASC" <==> param.Some? && ToUpper(param.value) == "ASC"
  {
    if SortOrderAsWritten(param) == "ASC" then "ASC" else "DESC"
  }

  // ---------------------------------------------------------------------
  // The SQL text
  // ---------------------------------------------------------------------

  /** A positional SQL parameter: a text, or a number that may be NaN. */
  datatype SqlParam = Text(text: string) | Number(number: Option<int>)

  const ListSelect := "\n    SELECT \n      c.cve_id, \n      c.published_date,\n      c.last_modified_date,\n      c.vulnerability_status, \n      c.updated_at AS cve_updated_at,\n      a.updated_at AS analysis_updated_at,\n      a.risk_level,\n      a.analysis_summary,\n      a.affected_products\n    FROM \n      cve_data c\n    LEFT JOIN \n      analysis_data a ON c.cve_id = a.cve_id\n  "

  const TieBreak := "c.last_modified_date DESC"

  /**
   * The ORDER BY clause for a sort key and an order text: a whitelisted
   * column, NULLs last for the analysis time, always broken by the last
   * modification time, newest first.
   */
  function OrderBy(sortBy: Option<string>, order: string): (r: string)
    ensures "ORDER BY " <= r
    ensures r == "ORDER BY " + TieBreak <==> SortColumn(sortBy).None?
  {
    var column := SortColumn(sortBy);
    if column.None? then "ORDER BY " + TieBreak
    else if sortBy == Some("analysis_updated_at") then
      NullsLastKey(column.value) + column.value + (" " + order + ",") + ("\n            " + TieBreak)
    else "ORDER BY " + column.value + (" " + order + ",") + (" " + TieBreak)
  }

  /** The leading sort key that puts rows without a value after all others. */
  function NullsLastKey(column: string): string {
    "ORDER BY \n            CASE WHEN " + column + " IS NULL THEN 1 ELSE 0 END,\n            "
  }

  lemma PrefixOfAppends(a: string, b: string, c: string, d: string)
    ensures a <= a + b + c + d
  {
  }

  lemma ContainsMiddle(p: string, a: string, m: string, b: string, t: string)
    ensures Contains(p + (a + m + b) + t, m)
  {
    assert p + (a + m + b) + t == (p + a) + m + (b + t);
    ContainsPiece(p + a, m, b + t);
  }

  /** The search filter and its pattern. */
  const SearchFilter := " WHERE c.cve_id ILIKE $1"

  function Pattern(search: string): string { "%" + search + "%" }

  /** The LIMIT/OFFSET tail: the placeholders follow the search pattern when there is one. */
  function LimitOffset(filtered: bool): string {
    if filtered then " LIMIT $2 OFFSET $3" else " LIMIT $1 OFFSET $2"
  }

  /** The LIMIT/OFFSET tail when `pushed` parameters come before them. */
  function Placeholders(pushed: nat): string {
    " LIMIT $" + NatToString(pushed + 1) + " OFFSET $" + NatToString(pushed + 2)
  }

  /** The two tails the handler can write. */
  lemma PlaceholderTails()
    ensures Placeholders(0) == LimitOffset(false) && Placeholders(1) == LimitOffset(true)
  {
    assert NatToString(1) == "1" && NatToString(2) == "2" && NatToString(3) == "3";
  }

  /** The selection with its search filter, if any. */
  function Filtered(select: string, search: string): string {
    if search != "" then select + SearchFilter else select
  }

  /**
   * The data query for a selection, a search term, a sort key and an order
   * text.
   */
  function DataQueryText(select: string, search: string, sortBy: Option<string>, order: string): string {
    Filtered(select, search) + " " + OrderBy(sortBy, order) + LimitOffset(search != "")
  }

  /** The parameters of the data query. */
  function DataParams(search: string, offset: Option<int>): seq<SqlParam> {
    (if search != "" then [Text(Pattern(search))] else []) + [Number(Some(PageSize as int)), Number(offset)]
  }

  /** The data query as the handler writes it, with the order text spliced in. */
  function DataQueryAsWritten(req: ListRequest): (r: string)
    ensures SortColumn(req.sortBy).Some? && req.sortOrder.Some? && req.sortOrder.value != "" ==>
              Contains(r, " " + ToUpper(req.sortOrder.value) + ",")
  {
    if SortColumn(req.sortBy).Some? && req.sortOrder.Some? && req.sortOrder.value != "" then
      SortOrderSpliced(ListSelect, SearchOf(req.cveId), req.sortBy, req.sortOrder.value);
      DataQueryText(ListSelect, SearchOf(req.cveId), req.sortBy, SortOrderAsWritten(req.sortOrder))
    else
      DataQueryText(ListSelect, SearchOf(req.cveId), req.sortBy, SortOrderAsWritten(req.sortOrder))
  }

  /** The data query with the order restricted to ASC or DESC. */
  function DataQuery(req: ListRequest): (r: string)
    ensures SortOrderAsWritten(req.sortOrder) in {"ASC", "DESC"} ==> r == DataQueryAsWritten(req)
  {
    DataQueryText(ListSelect, SearchOf(req.cveId), req.sortBy, SortDirection(req.sortOrder))
  }

  /**
   * The data query built the way the handler builds it: the text grows by
   * appends, the parameters by pushes, and the LIMIT and OFFSET
   * placeholders are numbered after the parameters pushed so far.
   */
  method BuildDataQuery(select: string, search: string, sortBy: Option<string>, order: string, offset: Option<int>)
    returns (query: string, params: seq<SqlParam>)
    ensures query == DataQueryText(select, search, sortBy, order)
    ensures params == DataParams(search, offset)
  {
    query := select;
    params := [];
    if search != "" {
      query := query + SearchFilter;
      params := params + [Text(Pattern(search))];
    }
    query := query + " " + OrderBy(sortBy, order) + Placeholders(|params|);
    params := params + [Number(Some(PageSize as int)), Number(offset)];
    PlaceholderTails();
  }

  const CountSelect := "SELECT COUNT(*) FROM cve_data"

  /** The count query applies the same search filter as the data query. */
  function CountQuery(search: string): (r: string)
    ensures CountSelect <= r
    ensures r == CountSelect <==> search == ""
  {
    CountSelect + (if search != "" then " WHERE cve_id ILIKE $1" else "")
  }

  function CountParams(search: string): seq<SqlParam> {
    if search != "" then [Text(Pattern(search))] else []
  }

  // ---------------------------------------------------------------------
  // Paging
  // ---------------------------------------------------------------------

  /** Math.ceil(totalCount / 20): the fewest pages that hold every row. */
  function TotalPages(totalCount: nat): (r: nat)
    ensures r * PageSize >= totalCount
    ensures r > 0 ==> (r - 1) * PageSize < totalCount
  {
    (totalCount + PageSize - 1) / PageSize
  }

  datatype Pagination = Pagination(
    currentPage: Option<int>, totalPages: nat, totalCount: nat, hasNextPage: bool, hasPrevPage: bool)

  /** The paging block of the response; NaN compares false both ways. */
  function PaginationOf(page: Option<int>, totalCount: nat): (r: Pagination)
    ensures r.currentPage == page && r.totalCount == totalCount
    ensures r.totalPages * PageSize >= totalCount && (r.totalPages > 0 ==> (r.totalPages - 1) * PageSize < totalCount)
    ensures r.hasNextPage <==> page.Some? && page.value < r.totalPages
    ensures r.hasPrevPage <==> page.Some? && page.value > 1
  {
    var totalPages := TotalPages(totalCount);
    Pagination(page, totalPages, totalCount,
               page.Some? && page.value < totalPages, page.Some? && page.value > 1)
  }

  // ---------------------------------------------------------------------
  // The handler
  // ---------------------------------------------------------------------

  /** The response body shapes of the three handlers. */
  datatype Body<R> =
    | Listing(data: seq<R>, pagination: Pagination)
    | Detail(result: R)
    | Message(message: string)
    | Failure(message: string, error: string)

  datatype Response<R> = Response(statusCode: nat, body: Body<R>, allowOrigin: Option<string>)

  const InternalError := "Internal server error"

  /**
   * Connect, run the data query `query`, run the count query and answer
   * 200 with the rows and the paging block; any failure on the way is 500
   * "Internal server error". Every answer allows any origin.
   */
  function Respond<R>(req: ListRequest, query: string, connectError: Option<string>,
                      data: (string, seq<SqlParam>) -> Result<seq<R>>,
                      count: (string, seq<SqlParam>) -> Result<nat>): Response<R>
  {
    var page := PageOf(req.page);
    var search := SearchOf(req.cveId);
    if connectError.Some? then Response(500, Message(InternalError), Some("*"))
    else
      var rows := data(query, DataParams(search, OffsetOf(page)));
      if rows.Err? then Response(500, Message(InternalError), Some("*"))
      else
        var total := count(CountQuery(search), CountParams(search));
        if total.Err? then Response(500, Message(InternalError), Some("*"))
        else Response(200, Listing(rows.value, PaginationOf(page, total.value)), Some("*"))
  }

  /**
   * The handler as written: the data query carries the spliced sort order.
   * A 200 answer holds the rows of the data query and the paging block of
   * the count; anything else is the fixed 500.
   */
  function ListHandler<R>(req: ListRequest, connectError: Option<string>,
                          data: (string, seq<SqlParam>) -> Result<seq<R>>,
                          count: (string, seq<SqlParam>) -> Result<nat>): (r: Response<R>)
    ensures r.allowOrigin == Some("*")
    ensures r.statusCode == 200 || r == Response(500, Message(InternalError), Some("*"))
    ensures var search := SearchOf(req.cveId);
            var page := PageOf(req.page);
            var rows := data(DataQueryAsWritten(req), DataParams(search, OffsetOf(page)));
            var total := count(CountQuery(search), CountParams(search));
            r.statusCode == 200 ==> rows.Ok? && total.Ok? && r.body == Listing(rows.value, PaginationOf(page, total.value))
  {
    Respond(req, DataQueryAsWritten(req), connectError, data, count)
  }

  /** The handler with the sort order restricted to ASC or DESC. */
  function SafeListHandler<R>(req: ListRequest, connectError: Option<string>,
                              data: (string, seq<SqlParam>) -> Result<seq<R>>,
                              count: (string, seq<SqlParam>) -> Result<nat>): (r: Response<R>)
    ensures r.allowOrigin == Some("*")
    ensures r.statusCode == 200 || r == Response(500, Message(InternalError), Some("*"))
    ensures var search := SearchOf(req.cveId);
            var page := PageOf(req.page);
            var rows := data(DataQuery(req), DataParams(search, OffsetOf(page)));
            var total := count(CountQuery(search), CountParams(search));
            r.statusCode == 200 ==> rows.Ok? && total.Ok? && r.body == Listing(rows.value, PaginationOf(page, total.value))
  {
    Respond(req, DataQuery(req), connectError, data, count)
  }

  // ---------------------------------------------------------------------
  // Properties
  // ---------------------------------------------------------------------

  /**
   * The handler answers 200 exactly when the connection and both queries
   * succeed, with the rows the data query returned and the paging block of
   * the count.
   */
  lemma ListOkIff<R>(req: ListRequest, connectError: Option<string>,
                     data: (string, seq<SqlParam>) -> Result<seq<R>>, count: (string, seq<SqlParam>) -> Result<nat>)
    ensures var search := SearchOf(req.cveId);
            var page := PageOf(req.page);
            var rows := data(DataQueryAsWritten(req), DataParams(search, OffsetOf(page)));
            var total := count(CountQuery(search), CountParams(search));
            var r := ListHandler(req, connectError, data, count);
            (r.statusCode == 200 <==> connectError.None? && rows.Ok? && total.Ok?) &&
            (r.statusCode == 200 ==> r.body == Listing(rows.value, PaginationOf(page, total.value)))
  {
  }

  /**
   * Where the spliced order is already ASC or DESC, the restricted handler
   * answers exactly as the handler as written.
   */
  lemma SafeHandlerAgrees<R>(req: ListRequest, connectError: Option<string>,
                             data: (string, seq<SqlParam>) -> Result<seq<R>>,
                             count: (string, seq<SqlParam>) -> Result<nat>)
    requires SortOrderAsWritten(req.sortOrder) in {"ASC", "DESC"}
    ensures SafeListHandler(req, connectError, data, count) == ListHandler(req, connectError, data, count)
  {
    assert SortDirection(req.sortOrder) == SortOrderAsWritten(req.sortOrder);
  }

  /** A missing or empty page parameter asks for the first page, at offset 0. */
  lemma DefaultPageIsFirst(param: Option<string>)
    requires param.None? || param == Some("")
    ensures OffsetOf(PageOf(param)) == Some(0)
    ensures !PaginationOf(PageOf(param), 0).hasPrevPage
  {
  }

  /** A page number given in decimal is the page requested. */
  lemma PageParamReadsBack(n: nat)
    ensures PageOf(Some(NatToString(n))) == Some(n)
  {
    assert NatToString(n) + "" == NatToString(n);
    ParseIntJsOfNumber(n, "");
  }

  /**
   * For a page from 1 on, a next page is announced exactly when rows lie
   * beyond this one, and a previous page exactly when rows lie before it.
   */
  lemma NextPageIffMoreRows(p: int, totalCount: nat)
    requires p >= 1
    ensures PaginationOf(Some(p), totalCount).hasNextPage <==> OffsetOf(Some(p)).value + PageSize < totalCount
    ensures PaginationOf(Some(p), totalCount).hasPrevPage <==> OffsetOf(Some(p)).value > 0
  {
    var tp := TotalPages(totalCount);
    if p < tp {
      assert p * PageSize <= (tp - 1) * PageSize;
    } else {
      assert tp * PageSize <= p * PageSize;
    }
  }

  /** Every row lies on exactly one page from 1 to the page count. */
  lemma EveryRowOnOnePage(k: nat, totalCount: nat)
    requires k < totalCount
    ensures var p := k / PageSize + 1;
            1 <= p <= TotalPages(totalCount) &&
            OffsetOf(Some(p)).value <= k < OffsetOf(Some(p)).value + PageSize
    ensures forall q: int :: 1 <= q && OffsetOf(Some(q)).value <= k < OffsetOf(Some(q)).value + PageSize ==>
              q == k / PageSize + 1
  {
    var p := k / PageSize + 1;
    forall q: int | 1 <= q && OffsetOf(Some(q)).value <= k < OffsetOf(Some(q)).value + PageSize
      ensures q == p
    {
      assert (q - 1) * PageSize <= k < q * PageSize;
    }
  }

  /** Every clause is broken by the last modification time, newest first. */
  lemma OrderByEndsWithTieBreak(sortBy: Option<string>, order: string)
    ensures var o := OrderBy(sortBy, order);
            |o| >= |TieBreak| && o[|o| - |TieBreak|..] == TieBreak
  {
  }

  /** Sorting by the analysis time puts CVEs without an analysis last, whatever the order. */
  lemma AnalysisSortNullsLast(order: string)
    ensures NullsLastKey("a.updated_at") <= OrderBy(Some("analysis_updated_at"), order)
  {
    PrefixOfAppends(NullsLastKey("a.updated_at"), "a.updated_at", " " + order + ",", "\n            " + TieBreak);
  }

  /** A key outside the whitelist leaves the default order, whatever the order text. */
  lemma UnknownSortKeyIgnored(sortBy: Option<string>, order: string)
    requires SortColumn(sortBy).None?
    ensures OrderBy(sortBy, order) == "ORDER BY " + TieBreak
  {
  }

  /**
   * Each placeholder names the parameter at its position: LIMIT and OFFSET
   * take the last two places, holding 20 and the offset, after the search
   * pattern when there is one.
   */
  lemma PlaceholdersMatchParams(select: string, search: string, sortBy: Option<string>, order: string,
                                offset: Option<int>)
    ensures var params := DataParams(search, offset);
            var tail := " LIMIT $" + NatToString(|params| - 1) + " OFFSET $" + NatToString(|params|);
            var q := DataQueryText(select, search, sortBy, order);
            |q| >= |tail| && q[|q| - |tail|..] == tail &&
            params[|params| - 2] == Number(Some(20)) && params[|params| - 1] == Number(offset)
    ensures search != "" <==> |DataParams(search, offset)| == 3
  {
    var params := DataParams(search, offset);
    var pushed := if search != "" then 1 else 0;
    assert |params| == pushed + 2;
    PlaceholderTails();
    var head := Filtered(select, search) + " " + OrderBy(sortBy, order);
    var q := head + Placeholders(pushed);
    assert q == DataQueryText(select, search, sortBy, order);
    assert q[|head|..] == Placeholders(pushed);
  }

  /** With a search term, $1 is the pattern and the filter follows the selection. */
  lemma SearchIsFirstParam(select: string, search: string, sortBy: Option<string>, order: string,
                           offset: Option<int>)
    requires search != ""
    ensures DataParams(search, offset)[0] == Text(Pattern(search))
    ensures select + SearchFilter <= DataQueryText(select, search, sortBy, order)
  {
    PrefixOfAppends(select + SearchFilter, " ", OrderBy(sortBy, order), LimitOffset(true));
  }

  /** Both queries filter on the same pattern, and neither filters without a search term. */
  lemma SearchAppliesToBothQueries(search: string, offset: Option<int>)
    ensures search != "" ==> CountParams(search) == [Text(Pattern(search))] == DataParams(search, offset)[..1]
    ensures search == "" <==> CountQuery(search) == CountSelect
    ensures search == "" ==> forall i :: 0 <= i < |DataParams(search, offset)| ==> DataParams(search, offset)[i].Number?
  {
  }

  /** A search term of white space alone is no search. */
  lemma BlankSearchIsNoSearch(s: string)
    requires forall i :: 0 <= i < |s| ==> IsJsSpace(s[i])
    ensures SearchOf(Some(s)) == ""
    ensures DataQuery(ListRequest(None, Some(s), None, None)) == DataQuery(ListRequest(None, None, None, None))
  {
    BlankTrimsToEmpty(s);
  }

  /**
   * As written, whatever follows a whitelisted sort key in `sortOrder`
   * reaches the SQL text, upper-cased.
   */
  lemma SortOrderSpliced(select: string, search: string, sortBy: Option<string>, param: string)
    requires SortColumn(sortBy).Some? && param != ""
    ensures var order := SortOrderAsWritten(Some(param));
            Contains(DataQueryText(select, search, sortBy, order), " " + ToUpper(param) + ",")
  {
    var order := ToUpper(param);
    var column := SortColumn(sortBy).value;
    var pre := Filtered(select, search) + " ";
    var tail := LimitOffset(search != "");
    if sortBy == Some("analysis_updated_at") {
      ContainsMiddle(pre, NullsLastKey(column) + column, " " + order + ",", "\n            " + TieBreak, tail);
    } else {
      ContainsMiddle(pre, "ORDER BY " + column, " " + order + ",", " " + TieBreak, tail);
    }
  }

  /**
   * An extra ORDER BY term: a subquery that divides by zero unless cve_data
   * has rows, a one-statement probe of the database.
   */
  const ProbePieces: seq<string> :=
    ["ASC, (SELECT CASE ", "WHEN (SELECT COUNT(*) ", "FROM CVE_DATA)>0 ", "THEN 1 ELSE 1/0 END)"]

  const ProbeOrder: string := ProbePieces[0] + ProbePieces[1] + ProbePieces[2] + ProbePieces[3]

  /** A sort order carrying the probe puts it into the query as written. */
  lemma SortOrderInjection(select: string, search: string)
    ensures Contains(DataQueryText(select, search, Some("published_date"), SortOrderAsWritten(Some(ProbeOrder))),
                     " " + ProbeOrder + ",")
  {
    forall k | 0 <= k < 4 ensures ToUpper(ProbePieces[k]) == ProbePieces[k] {
      var p := ProbePieces[k];
      assert forall i :: 0 <= i < |p| ==> UpperChar(p[i]) == p[i];
    }
    ToUpperAppend(ProbePieces[0], ProbePieces[1]);
    ToUpperAppend(ProbePieces[0] + ProbePieces[1], ProbePieces[2]);
    ToUpperAppend(ProbePieces[0] + ProbePieces[1] + ProbePieces[2], ProbePieces[3]);
    SortOrderSpliced(select, search, Some("published_date"), ProbeOrder);
  }

  /**
   * With the order restricted, the SQL text depends on the request only
   * through whether there is a search, the sort key and the direction; the
   * search term itself travels only as a parameter.
   */
  lemma QueryTextIsFixed(r1: ListRequest, r2: ListRequest)
    requires (SearchOf(r1.cveId) == "") == (SearchOf(r2.cveId) == "")
    requires r1.sortBy == r2.sortBy
    requires SortDirection(r1.sortOrder) == SortDirection(r2.sortOrder)
    ensures DataQuery(r1) == DataQuery(r2)
    ensures CountQuery(SearchOf(r1.cveId)) == CountQuery(SearchOf(r2.cveId))
  {
  }
}
