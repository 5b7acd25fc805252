/**
 * getCVEInfo of backend/internal/analyzer/cve.go: one `cve_data` row read
 * into the record the prompt is built from.
 */
module CveRead {
  import opened Wrappers
  import opened Nvd
  import opened CveStore

  /** The CVE as the analyzer reads it back. */
  datatype CveInfo = CveInfo(
    id: string,
    description: string,
    cvssV3Vector: string,
    cvssV3BaseScore: Score,
    cvssV3BaseSeverity: string,
    cvssV4Vector: string,
    cvssV4BaseScore: Score,
    cvssV4BaseSeverity: string,
    affectedProducts: seq<string>,
    cweIds: seq<string>)

  /** The record a stored row reads back as, under its key. */
  function FromRow(key: string, c: CveColumns): (info: CveInfo)
    ensures info.id == key && info.description == c.description
    ensures info.cvssV3Vector == c.cvssV3Vector && info.cvssV3BaseScore == c.cvssV3BaseScore &&
            info.cvssV3BaseSeverity == c.cvssV3BaseSeverity
    ensures info.cvssV4Vector == c.cvssV4Vector && info.cvssV4BaseScore == c.cvssV4BaseScore &&
            info.cvssV4BaseSeverity == c.cvssV4BaseSeverity
    ensures info.affectedProducts == c.affectedProducts && info.cweIds == c.cweIds
  {
    CveInfo(key, c.description, c.cvssV3Vector, c.cvssV3BaseScore, c.cvssV3BaseSeverity,
            c.cvssV4Vector, c.cvssV4BaseScore, c.cvssV4BaseSeverity, c.affectedProducts, c.cweIds)
  }

  const NotFound := "not found in database"

  /**
   * getCVEInfo: a missing row is the error "not found in database", any
   * other query error is wrapped, and a found row is returned field for field.
   */
  function GetCveInfo(rows: map<string, CveRow>, cveId: string, queryError: Option<string>): (r: Result<CveInfo>)
    ensures queryError.Some? ==> r == Err("failed to query CVE infomation: " + queryError.value)
    ensures queryError.None? && cveId !in rows ==> r == Err(NotFound)
    ensures r.Ok? <==> queryError.None? && cveId in rows
    ensures r.Ok? ==> r.value == FromRow(cveId, rows[cveId].cols)
  {
    if queryError.Some? then Err("failed to query CVE infomation: " + queryError.value)
    else if cveId !in rows then Err(NotFound)
    else Ok(FromRow(cveId, rows[cveId].cols))
  }

  /**
   * A record stored by the change-detecting collector is read back with its
   * extracted columns, whatever the row held before and whatever the clock.
   */
  lemma StoredCveReadsBack(rows: map<string, CveRow>, cve: CveData, now: Timestamp)
    requires |cve.id| <= 20 && FitsWidths(Columns(cve))
    ensures var stored := Upsert(rows, CastKey(cve.id), CastColumns(Columns(cve)), now).rows;
            GetCveInfo(stored, cve.id, None) == Ok(FromRow(cve.id, Columns(cve)))
  {
  }

  /** The description read back is the first English description of the record. */
  lemma ReadBackDescription(rows: map<string, CveRow>, cve: CveData, now: Timestamp, i: nat)
    requires |cve.id| <= 20 && FitsWidths(Columns(cve))
    requires i < |cve.descriptions| && cve.descriptions[i].lang == "en"
    requires forall j :: 0 <= j < i ==> cve.descriptions[j].lang != "en"
    ensures var stored := Upsert(rows, CastKey(cve.id), CastColumns(Columns(cve)), now).rows;
            GetCveInfo(stored, cve.id, None).value.description == cve.descriptions[i].value
  {
    StoredCveReadsBack(rows, cve, now);
  }
}
