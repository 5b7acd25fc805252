/**
 * The CWE helpers of backend/internal/analyzer/cwe.go: the `cwe_info`
 * cache lookup, the two-step MITRE catalogue fetch with its acceptance
 * rules, the weakness-type test and the id normalisation.
 */
module Cwe {
  import opened Wrappers
  import opened Text
  import opened Nvd
  import opened Datastore

  // ---------------------------------------------------------------------
  // getCWEInfo
  // ---------------------------------------------------------------------

  /** The text of a query error other than "no rows". */
  function CweQueryError(e: string): string {
    "failed to query CWE infomation: " + e
  }

  /**
   * getCWEInfo as written: the third column, `summary_ko`, is scanned into
   * `CWEID` a second time, so the id is overwritten with the Korean summary
   * and `SummaryKo` keeps its zero value.
   */
  function GetCweInfoAsWritten(rows: map<string, CweInfoRow>, cweId: string, queryError: Option<string>)
    : (r: Result<Option<CweInfo>>)
    ensures queryError.None? && cweId in rows ==>
              r == Ok(Some(CweInfo(rows[cweId].summaryKo, rows[cweId].summaryEn, "", rows[cweId].sourceUrl)))
  {
    if queryError.Some? then Err(CweQueryError(queryError.value))
    else if cweId !in rows then Ok(None)
    else
      var row := rows[cweId];
      Ok(Some(CweInfo(row.summaryKo, row.summaryEn, "", row.sourceUrl)))
  }

  /**
   * getCWEInfo as evidently intended: a missing row is a cache miss, not an
   * error; any other query error is wrapped; a found row is returned column
   * for column.
   */
  function GetCweInfo(rows: map<string, CweInfoRow>, cweId: string, queryError: Option<string>)
    : (r: Result<Option<CweInfo>>)
    ensures queryError.Some? ==> r == Err(CweQueryError(queryError.value))
    ensures queryError.None? ==> r.Ok? && (r.value.None? <==> cweId !in rows)
    ensures r.Ok? && r.value.Some? ==>
              var row := rows[cweId];
              r.value.value == CweInfo(cweId, row.summaryEn, row.summaryKo, row.sourceUrl)
  {
    if queryError.Some? then Err(CweQueryError(queryError.value))
    else if cweId !in rows then Ok(None)
    else
      var row := rows[cweId];
      Ok(Some(CweInfo(cweId, row.summaryEn, row.summaryKo, row.sourceUrl)))
  }

  /** A summary stored by storeCWEInfo is read back unchanged by the corrected lookup. */
  lemma StoredCweInfoReadsBack(rows: map<string, CweInfoRow>, info: CweInfo, now: Timestamp)
    ensures GetCweInfo(rows[info.cweId := CweInfoRow(info.summaryEn, info.summaryKo, info.sourceUrl, now)],
                       info.cweId, None) == Ok(Some(info))
  {
  }

  /**
   * The mis-scan loses the stored summary: whenever the Korean summary is not
   * the id itself, the row read back is not the row stored.
   */
  lemma MisScanLosesSummary(rows: map<string, CweInfoRow>, info: CweInfo, now: Timestamp)
    requires info.summaryKo != info.cweId
    ensures var stored := rows[info.cweId := CweInfoRow(info.summaryEn, info.summaryKo, info.sourceUrl, now)];
            GetCweInfoAsWritten(stored, info.cweId, None) != Ok(Some(info))
  {
    var stored := rows[info.cweId := CweInfoRow(info.summaryEn, info.summaryKo, info.sourceUrl, now)];
    var r := GetCweInfoAsWritten(stored, info.cweId, None);
    assert r.value.value.cweId == info.summaryKo;
  }

  // ---------------------------------------------------------------------
  // isWeaknessType / extractID
  // ---------------------------------------------------------------------

  /** isWeaknessType: a case-sensitive substring test for "weakness". */
  predicate IsWeaknessType(t: string)
    ensures IsWeaknessType(t) <==> exists i :: OccursAt(t, "weakness", i)
  {
    Contains(t, "weakness")
  }

  /** A type that mentions "weakness" anywhere is accepted, whatever surrounds it. */
  lemma WeaknessTypeInContext(a: string, t: string, b: string)
    requires IsWeaknessType(t)
    ensures IsWeaknessType(a + t + b)
  {
    var i := IndexOf(t, "weakness");
    var s := a + t + b;
    assert s[|a| + i..|a| + i + 8] == t[i..i + 8];
    assert OccursAt(s, "weakness", |a| + i);
  }

  /** A type without the lower-case word is refused, capitalised or not. */
  lemma CapitalisedWeaknessRefused(t: string)
    requires forall i :: 0 <= i < |t| ==> t[i] != 'w'
    ensures !IsWeaknessType(t)
  {
    forall i ensures !OccursAt(t, "weakness", i) {
      if 0 <= i && i + 8 <= |t| {
        assert t[i..i + 8][0] == t[i];
      }
    }
  }

  /** extractID: upper-case the input and strip one leading "CWE-". */
  function ExtractId(input: string): (r: string)
    ensures "CWE-" <= ToUpper(input) ==> "CWE-" + r == ToUpper(input)
    ensures !("CWE-" <= ToUpper(input)) ==> r == ToUpper(input)
  {
    TrimPrefix(ToUpper(input), "CWE-")
  }

  /** Upper-casing a prefixed string upper-cases both parts. */
  lemma ToUpperAppend(a: string, b: string)
    ensures ToUpper(a + b) == ToUpper(a) + ToUpper(b)
  {
    var l := ToUpper(a + b);
    var r := ToUpper(a) + ToUpper(b);
    forall i | 0 <= i < |l| ensures l[i] == r[i] {
      if i < |a| { assert (a + b)[i] == a[i]; } else { assert (a + b)[i] == b[i - |a|]; }
    }
  }

  /**
   * The id of a "CWE-" key, in any case, is the upper-cased rest: "cwe-79"
   * gives "79".
   */
  lemma ExtractIdOfKey(prefix: string, id: string)
    requires ToUpper(prefix) == "CWE-"
    ensures ExtractId(prefix + id) == ToUpper(id)
  {
    ToUpperAppend(prefix, id);
    assert "CWE-" <= ToUpper(prefix + id);
  }

  /** A numeric id survives the round trip through the `cwe_data` key. */
  lemma ExtractIdOfCweKey(id: string)
    requires AllDigits(id)
    ensures ExtractId(CweKey(id)) == id
  {
    assert ToUpper("CWE-") == "CWE-";
    ExtractIdOfKey("CWE-", id);
    assert ToUpper(id) == id;
  }

  // ---------------------------------------------------------------------
  // fetchCWEInfo
  // ---------------------------------------------------------------------

  datatype CweMeta = CweMeta(typ: string, id: string)

  /** The answer to the meta request: transport, body read and JSON decode folded together. */
  datatype MetaAnswer = MetaFetchFailed(fetchError: string) | MetaReadFailed(readError: string)
                      | MetaUnparsable(parseError: string) | Metas(metas: seq<CweMeta>)

  /** The answer to the detail request. */
  datatype DetailAnswer = DetailFetchFailed(fetchError: string) | DetailReadFailed(readError: string)
                        | DetailUnparsable(parseError: string) | Weaknesses(weaknesses: seq<CweData>)

  const MitreApi := "https://cwe-api.mitre.org/api/v1/cwe/"

  function MetaUrl(id: string): string { MitreApi + id }

  function DetailUrl(id: string): string { MitreApi + "weakness/" + id }

  /** What a call of fetchCWEInfo as written ends in: a result, or a runtime panic. */
  datatype Outcome = Returned(result: Result<CweData>) | Panicked(reason: string)

  function NotWeaknessError(id: string, typ: string): string {
    "CWE-" + id + " is not a weakness type (type: " + typ + ")"
  }

  /** The detail step, common to both versions. */
  function DetailStep(id: string, detail: DetailAnswer): (r: Result<CweData>)
    ensures r.Ok? <==> detail.Weaknesses? && |detail.weaknesses| > 0
    ensures r.Ok? ==> r.value == detail.weaknesses[0]
    ensures detail == Weaknesses([]) ==> r == Err("no detailed info found for CWE-" + id)
  {
    match detail
    case DetailFetchFailed(e) => Err("failed to fetch CWE detail info: " + e)
    case DetailReadFailed(e) => Err("failed to read detail response body: " + e)
    case DetailUnparsable(e) => Err("failed to parse CWE detail info: " + e)
    case Weaknesses(ws) => if |ws| == 0 then Err("no detailed info found for CWE-" + id) else Ok(ws[0])
  }

  /**
   * fetchCWEInfo as written. The type check is `len(metas) == 0 ||
   * !isWeaknessType(metas[0].Type)`, and its error message reads
   * `metas[0].Type` even when the list is empty, which panics.
   */
  function FetchCweInfoAsWritten(cweId: string, meta: string -> MetaAnswer, detail: string -> DetailAnswer)
    : (r: Outcome)
    ensures r.Panicked? ==> meta(MetaUrl(ExtractId(cweId))) == Metas([])
    ensures r.Returned? && r.result.Ok? ==>
              var m := meta(MetaUrl(ExtractId(cweId)));
              m.Metas? && |m.metas| > 0 && IsWeaknessType(m.metas[0].typ) &&
              var d := detail(DetailUrl(ExtractId(cweId)));
              d.Weaknesses? && |d.weaknesses| > 0 && r.result.value == d.weaknesses[0]
  {
    var id := ExtractId(cweId);
    match meta(MetaUrl(id))
    case MetaFetchFailed(e) => Returned(Err("failed to fetch CWE meta info: " + e))
    case MetaReadFailed(e) => Returned(Err("failed to read meta response body: " + e))
    case MetaUnparsable(e) => Returned(Err("failed to parse CWE meta info: " + e))
    case Metas(metas) =>
      if |metas| == 0 then Panicked("index out of range [0] with length 0")
      else if !IsWeaknessType(metas[0].typ) then Returned(Err(NotWeaknessError(id, metas[0].typ)))
      else Returned(DetailStep(id, detail(DetailUrl(id))))
  }

  /** An empty meta list makes fetchCWEInfo as written panic instead of returning an error. */
  lemma EmptyMetasPanic(cweId: string, meta: string -> MetaAnswer, detail: string -> DetailAnswer)
    requires meta(MetaUrl(ExtractId(cweId))) == Metas([])
    ensures FetchCweInfoAsWritten(cweId, meta, detail).Panicked?
  {
  }

  /**
   * fetchCWEInfo as evidently intended: an empty meta list is refused like
   * a non-weakness type, with an empty type in the message.
   */
  function FetchCweInfo(cweId: string, meta: string -> MetaAnswer, detail: string -> DetailAnswer)
    : (r: Result<CweData>)
    ensures r.Ok? ==> var m := meta(MetaUrl(ExtractId(cweId)));
              m.Metas? && |m.metas| > 0 && IsWeaknessType(m.metas[0].typ) &&
              var d := detail(DetailUrl(ExtractId(cweId)));
              d.Weaknesses? && |d.weaknesses| > 0 && r.value == d.weaknesses[0]
    ensures meta(MetaUrl(ExtractId(cweId))) == Metas([]) ==>
              r == Err(NotWeaknessError(ExtractId(cweId), ""))
  {
    var id := ExtractId(cweId);
    match meta(MetaUrl(id))
    case MetaFetchFailed(e) => Err("failed to fetch CWE meta info: " + e)
    case MetaReadFailed(e) => Err("failed to read meta response body: " + e)
    case MetaUnparsable(e) => Err("failed to parse CWE meta info: " + e)
    case Metas(metas) =>
      if |metas| == 0 then Err(NotWeaknessError(id, ""))
      else if !IsWeaknessType(metas[0].typ) then Err(NotWeaknessError(id, metas[0].typ))
      else DetailStep(id, detail(DetailUrl(id)))
  }

  /** Whenever the code as written does not panic, the corrected version returns what it returns. */
  lemma FetchCweInfoAgrees(cweId: string, meta: string -> MetaAnswer, detail: string -> DetailAnswer)
    ensures FetchCweInfoAsWritten(cweId, meta, detail).Returned? ==>
              FetchCweInfoAsWritten(cweId, meta, detail).result == FetchCweInfo(cweId, meta, detail)
    ensures FetchCweInfoAsWritten(cweId, meta, detail).Panicked? <==>
              meta(MetaUrl(ExtractId(cweId))) == Metas([])
  {
  }
}
