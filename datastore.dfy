/**
 * The tables the analyzer of backend/internal/analyzer/datastore.go writes:
 * `poc_data` (insert-if-absent, keyed globally by `file_url`), `cwe_data`
 * and `cwe_info` (replace on conflict) and `analysis_data` (replace on
 * conflict, `created_at` set only on insert).
 */
module Datastore {
  import opened Wrappers
  import opened Nvd
  import opened Poc

  // ---------------------------------------------------------------------
  // poc_data
  // ---------------------------------------------------------------------

  /** `INSERT ... ON CONFLICT (file_url) DO NOTHING` for one PoC. */
  function InsertIfAbsent(rows: map<string, PoCData>, p: PoCData): (r: map<string, PoCData>)
    ensures r.Keys == rows.Keys + {p.fileUrl}
    ensures forall u :: u in rows ==> r[u] == rows[u]
    ensures p.fileUrl !in rows ==> r[p.fileUrl] == p
  {
    if p.fileUrl in rows then rows else rows[p.fileUrl := p]
  }

  /** The PoCs of a list inserted one after another. */
  function InsertAll(rows: map<string, PoCData>, ps: seq<PoCData>): map<string, PoCData>
    decreases |ps|
  {
    if |ps| == 0 then rows else InsertIfAbsent(InsertAll(rows, ps[..|ps| - 1]), ps[|ps| - 1])
  }

  /** The index of the first failing insert among the first `n`, or `n` when none fails. */
  function FirstFailure(insertError: nat -> Option<string>, n: nat): (k: nat)
    ensures k <= n
    ensures forall i :: 0 <= i < k ==> insertError(i).None?
    ensures k < n ==> insertError(k).Some?
    decreases n
  {
    if n == 0 then 0
    else
      var k := FirstFailure(insertError, n - 1);
      if k < n - 1 || insertError(n - 1).Some? then k else n
  }

  /** The table after storePoCData: the PoCs before the first failing insert, inserted in order. */
  function StoredPocs(rows: map<string, PoCData>, ps: seq<PoCData>, insertError: nat -> Option<string>)
    : map<string, PoCData>
  {
    InsertAll(rows, ps[..FirstFailure(insertError, |ps|)])
  }

  /** The file URLs of a list. */
  function FileUrls(ps: seq<PoCData>): (r: set<string>)
    ensures forall u :: u in r <==> exists i :: 0 <= i < |ps| && ps[i].fileUrl == u
  {
    set i | 0 <= i < |ps| :: ps[i].fileUrl
  }

  /** The URLs of a non-empty list are those of all but its last PoC, and the last one's. */
  lemma FileUrlsSnoc(ps: seq<PoCData>)
    requires |ps| > 0
    ensures FileUrls(ps) == FileUrls(ps[..|ps| - 1]) + {ps[|ps| - 1].fileUrl}
  {
    var init := ps[..|ps| - 1];
    forall u | u in FileUrls(ps) ensures u in FileUrls(init) + {ps[|ps| - 1].fileUrl} {
      var i :| 0 <= i < |ps| && ps[i].fileUrl == u;
      if i < |init| { assert init[i] == ps[i]; }
    }
    forall u | u in FileUrls(init) ensures u in FileUrls(ps) {
      var i :| 0 <= i < |init| && init[i].fileUrl == u;
      assert ps[i] == init[i];
    }
  }

  /** After inserting a list the table holds exactly its old URLs and those of the list. */
  lemma {:induction false} InsertAllKeys(rows: map<string, PoCData>, ps: seq<PoCData>)
    ensures InsertAll(rows, ps).Keys == rows.Keys + FileUrls(ps)
    decreases |ps|
  {
    if |ps| > 0 {
      var init := ps[..|ps| - 1];
      InsertAllKeys(rows, init);
      FileUrlsSnoc(ps);
    }
  }

  /** A row that was already there is left as it was, even one stored for another CVE. */
  lemma {:induction false} InsertAllKeepsRows(rows: map<string, PoCData>, ps: seq<PoCData>)
    ensures forall u :: u in rows ==> u in InsertAll(rows, ps) && InsertAll(rows, ps)[u] == rows[u]
    decreases |ps|
  {
    if |ps| > 0 {
      InsertAllKeepsRows(rows, ps[..|ps| - 1]);
    }
  }

  /** A URL new to the table holds the first PoC of the list that carries it. */
  lemma {:induction false} InsertAllFirstWins(rows: map<string, PoCData>, ps: seq<PoCData>, i: nat)
    requires i < |ps| && ps[i].fileUrl !in rows
    requires forall j :: 0 <= j < i ==> ps[j].fileUrl != ps[i].fileUrl
    ensures ps[i].fileUrl in InsertAll(rows, ps) && InsertAll(rows, ps)[ps[i].fileUrl] == ps[i]
    decreases |ps|
  {
    var init := ps[..|ps| - 1];
    var last := ps[|ps| - 1];
    var before := InsertAll(rows, init);
    if i < |init| {
      assert forall j :: 0 <= j < i ==> init[j] == ps[j];
      InsertAllFirstWins(rows, init, i);
    } else {
      InsertAllKeys(rows, init);
      forall j | 0 <= j < |init| ensures init[j].fileUrl != last.fileUrl {
        assert init[j] == ps[j];
      }
    }
  }

  /** Inserting PoCs whose URLs are all present changes nothing. */
  lemma {:induction false} InsertAllPresent(rows: map<string, PoCData>, ps: seq<PoCData>)
    requires FileUrls(ps) <= rows.Keys
    ensures InsertAll(rows, ps) == rows
    decreases |ps|
  {
    if |ps| > 0 {
      var init := ps[..|ps| - 1];
      assert forall j :: 0 <= j < |init| ==> init[j] == ps[j];
      assert FileUrls(init) <= FileUrls(ps);
      InsertAllPresent(rows, init);
      assert ps[|ps| - 1].fileUrl in FileUrls(ps);
    }
  }

  /** Storing the same PoC list twice leaves the table as the first store left it. */
  lemma StoreTwiceIsStoreOnce(rows: map<string, PoCData>, ps: seq<PoCData>)
    ensures InsertAll(InsertAll(rows, ps), ps) == InsertAll(rows, ps)
  {
    InsertAllKeys(rows, ps);
    InsertAllPresent(InsertAll(rows, ps), ps);
  }

  /** The message of storePoCData's failure for `p`. */
  function PocInsertError(p: PoCData, e: string): string {
    "failed to insert PoCData for " + p.fileUrl + ": " + e
  }

  // ---------------------------------------------------------------------
  // cwe_data and cwe_info
  // ---------------------------------------------------------------------

  datatype Consequence = Consequence(scope: seq<string>, impact: seq<string>, note: string)

  /** A CWE entry of the MITRE catalogue as the analyzer keeps it. */
  datatype CweData = CweData(
    id: string, name: string, description: string, extendedDescription: string,
    likelihoodOfExploit: string, commonConsequences: seq<Consequence>)

  datatype CweDataRow = CweDataRow(
    name: string, description: string, extendedDescription: string, likelihood: string,
    commonConsequences: seq<Consequence>, updatedAt: Timestamp)

  /** The summary row of a CWE. */
  datatype CweInfo = CweInfo(cweId: string, summaryEn: string, summaryKo: string, sourceUrl: string)

  datatype CweInfoRow = CweInfoRow(summaryEn: string, summaryKo: string, sourceUrl: string, updatedAt: Timestamp)

  /** The `cwe_data` key of a catalogue entry: `fmt.Sprintf("CWE-%s", ID)`. */
  function CweKey(id: string): (k: string)
    ensures |k| == |id| + 4 && k[..4] == "CWE-" && k[4..] == id
  {
    "CWE-" + id
  }

  /** Distinct catalogue ids give distinct keys. */
  lemma CweKeyInjective(a: string, b: string)
    requires CweKey(a) == CweKey(b)
    ensures a == b
  {
    assert a == CweKey(a)[4..];
  }

  // ---------------------------------------------------------------------
  // analysis_data
  // ---------------------------------------------------------------------

  /** The structured result of the LLM analysis. */
  datatype Analysis = Analysis(
    analysisSummary: string, affectedSystems: string, affectedProducts: seq<string>,
    vulnerabilityType: string, riskLevel: int, recommendation: string, technicalDetails: string)

  datatype AnalysisRow = AnalysisRow(analysis: Analysis, createdAt: Timestamp, updatedAt: Timestamp)

  /**
   * The analysis upsert: a new CVE gets `created_at = updated_at = now`; an
   * existing one has its seven fields replaced and `updated_at` moved to now,
   * keeping `created_at`.
   */
  function UpsertAnalysis(rows: map<string, AnalysisRow>, cveId: string, a: Analysis, now: Timestamp)
    : (r: map<string, AnalysisRow>)
    ensures r.Keys == rows.Keys + {cveId}
    ensures forall k :: k in rows && k != cveId ==> r[k] == rows[k]
    ensures r[cveId].analysis == a && r[cveId].updatedAt == now
    ensures r[cveId].createdAt == if cveId in rows then rows[cveId].createdAt else now
  {
    var createdAt := if cveId in rows then rows[cveId].createdAt else now;
    rows[cveId := AnalysisRow(a, createdAt, now)]
  }

  /**
   * Of two analyses stored for a CVE the later one is kept, with the
   * creation time of the first store.
   */
  lemma LastAnalysisWins(rows: map<string, AnalysisRow>, cveId: string, a1: Analysis, a2: Analysis,
                         t1: Timestamp, t2: Timestamp)
    requires cveId !in rows
    ensures UpsertAnalysis(UpsertAnalysis(rows, cveId, a1, t1), cveId, a2, t2) ==
            rows[cveId := AnalysisRow(a2, t1, t2)]
  {
  }

  // ---------------------------------------------------------------------
  // The tables
  // ---------------------------------------------------------------------

  /** The analyzer's database: the four tables it writes. */
  class AnalyzerStore {
    var pocData: map<string, PoCData>
    var cweData: map<string, CweDataRow>
    var cweInfo: map<string, CweInfoRow>
    var analysisData: map<string, AnalysisRow>

    constructor ()
      ensures pocData == map[] && cweData == map[] && cweInfo == map[] && analysisData == map[]
    {
      pocData, cweData, cweInfo, analysisData := map[], map[], map[], map[];
    }

    /**
     * storePoCData: insert each PoC unless its URL is stored; `insertError(i)`
     * is the error of the i-th INSERT. The first failure ends the loop, and
     * the PoCs inserted before it stay.
     */
    method StorePoCData(ps: seq<PoCData>, insertError: nat -> Option<string>) returns (err: Option<string>)
      modifies this
      ensures cweData == old(cweData) && cweInfo == old(cweInfo) && analysisData == old(analysisData)
      ensures pocData == StoredPocs(old(pocData), ps, insertError)
      ensures err.None? <==> forall i :: 0 <= i < |ps| ==> insertError(i).None?
      ensures err.Some? ==>
                FirstFailure(insertError, |ps|) < |ps| &&
                err == Some(PocInsertError(ps[FirstFailure(insertError, |ps|)],
                                           insertError(FirstFailure(insertError, |ps|)).value))
    {
      for i := 0 to |ps|
        invariant forall j :: 0 <= j < i ==> insertError(j).None?
        invariant pocData == InsertAll(old(pocData), ps[..i])
        invariant cweData == old(cweData) && cweInfo == old(cweInfo) && analysisData == old(analysisData)
      {
        var e := insertError(i);
        if e.Some? {
          assert FirstFailure(insertError, |ps|) == i;
          return Some(PocInsertError(ps[i], e.value));
        }
        pocData := InsertIfAbsent(pocData, ps[i]);
        assert ps[..i + 1][..i] == ps[..i];
      }
      assert FirstFailure(insertError, |ps|) == |ps|;
      assert ps[..|ps|] == ps;
      return None;
    }

    /**
     * storeCWEData: a missing entry is refused; otherwise the row under
     * `"CWE-" + ID` is inserted or has every column replaced.
     */
    method StoreCweData(data: Option<CweData>, now: Timestamp, dbError: Option<string>) returns (err: Option<string>)
      modifies this
      ensures pocData == old(pocData) && cweInfo == old(cweInfo) && analysisData == old(analysisData)
      ensures data.None? ==> err == Some("CWEData is nil") && cweData == old(cweData)
      ensures data.Some? && dbError.Some? ==>
                err == Some("failed to store CWE data: " + dbError.value) && cweData == old(cweData)
      ensures data.Some? && dbError.None? ==>
                err.None? &&
                cweData == old(cweData)[CweKey(data.value.id) := CweDataRow(
                  data.value.name, data.value.description, data.value.extendedDescription,
                  data.value.likelihoodOfExploit, data.value.commonConsequences, now)]
    {
      if data.None? {
        return Some("CWEData is nil");
      }
      var d := data.value;
      if dbError.Some? {
        return Some("failed to store CWE data: " + dbError.value);
      }
      cweData := cweData[CweKey(d.id) := CweDataRow(d.name, d.description, d.extendedDescription,
                                                    d.likelihoodOfExploit, d.commonConsequences, now)];
      return None;
    }

    /** storeCWEInfo: a missing summary is refused; otherwise the row is inserted or replaced. */
    method StoreCweInfo(info: Option<CweInfo>, now: Timestamp, dbError: Option<string>) returns (err: Option<string>)
      modifies this
      ensures pocData == old(pocData) && cweData == old(cweData) && analysisData == old(analysisData)
      ensures info.None? ==> err == Some("CWEInfo is nil") && cweInfo == old(cweInfo)
      ensures info.Some? && dbError.Some? ==>
                err == Some("failed to store CWE info: " + dbError.value) && cweInfo == old(cweInfo)
      ensures info.Some? && dbError.None? ==>
                err.None? &&
                cweInfo == old(cweInfo)[info.value.cweId := CweInfoRow(
                  info.value.summaryEn, info.value.summaryKo, info.value.sourceUrl, now)]
    {
      if info.None? {
        return Some("CWEInfo is nil");
      }
      var i := info.value;
      if dbError.Some? {
        return Some("failed to store CWE info: " + dbError.value);
      }
      cweInfo := cweInfo[i.cweId := CweInfoRow(i.summaryEn, i.summaryKo, i.sourceUrl, now)];
      return None;
    }

    /** storeAnalysisResult: the analysis upsert; a failure is returned with its own text. */
    method StoreAnalysisResult(cveId: string, a: Analysis, now: Timestamp, dbError: Option<string>)
      returns (err: Option<string>)
      modifies this
      ensures pocData == old(pocData) && cweData == old(cweData) && cweInfo == old(cweInfo)
      ensures err == dbError
      ensures dbError.Some? ==> analysisData == old(analysisData)
      ensures dbError.None? ==> analysisData == UpsertAnalysis(old(analysisData), cveId, a, now)
    {
      if dbError.Some? {
        return dbError;
      }
      analysisData := UpsertAnalysis(analysisData, cveId, a, now);
      return None;
    }
  }
}
