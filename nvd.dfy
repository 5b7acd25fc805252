/**
 * The NVD 2.0 vulnerability record as the collector decodes it, and the
 * field extractors that turn a record into the 13 non-key columns of
 * `cve_data`. The extractors are the same in internal/collector/collector.go,
 * internal/collector/database.go and main.go.
 */
module Nvd {

  /** An instant, in milliseconds since the Unix epoch (UTC). */
  type Timestamp = int

  /** A CVSS base score in tenths of a point: 7.5 is 75. */
  type Score = nat

  datatype LangString = LangString(lang: string, value: string)

  datatype CvssData = CvssData(version: string, vectorString: string, baseScore: Score, baseSeverity: string)

  datatype Metrics = Metrics(cvssMetricV31: seq<CvssData>, cvssMetricV40: seq<CvssData>)

  /** A configuration node, reduced to the `criteria` of each of its cpeMatch entries. */
  datatype Node = Node(cpeMatch: seq<string>)

  datatype Configuration = Configuration(nodes: seq<Node>)

  /** A weakness entry, reduced to the `value` of each of its descriptions. */
  datatype Weakness = Weakness(description: seq<string>)

  datatype CveData = CveData(
    id: string,
    published: Timestamp,
    lastModified: Timestamp,
    vulnStatus: string,
    descriptions: seq<LangString>,
    metrics: Metrics,
    configurations: seq<Configuration>,
    references: seq<string>,            // the `url` of each reference
    weaknesses: seq<Weakness>)

  /** The 13 non-key columns of a `cve_data` row, in the order of the INSERT. */
  datatype CveColumns = CveColumns(
    publishedDate: Timestamp,
    lastModifiedDate: Timestamp,
    vulnerabilityStatus: string,
    description: string,
    cvssV3Vector: string,
    cvssV3BaseScore: Score,
    cvssV3BaseSeverity: string,
    cvssV4Vector: string,
    cvssV4BaseScore: Score,
    cvssV4BaseSeverity: string,
    affectedProducts: seq<string>,
    referenceLinks: seq<string>,
    cweIds: seq<string>)

  // ---------------------------------------------------------------------
  // getDescription
  // ---------------------------------------------------------------------

  /** The value of the first description in English, or "" when there is none. */
  function FirstEnglish(descs: seq<LangString>): (r: string)
    ensures (forall i :: 0 <= i < |descs| ==> descs[i].lang != "en") ==> r == ""
    ensures forall i :: (0 <= i < |descs| && descs[i].lang == "en" &&
                         (forall j :: 0 <= j < i ==> descs[j].lang != "en")) ==> r == descs[i].value
    decreases |descs|
  {
    if |descs| == 0 then ""
    else if descs[0].lang == "en" then descs[0].value
    else
      var r := FirstEnglish(descs[1..]);
      assert forall i :: 1 <= i < |descs| ==> descs[i] == descs[1..][i - 1];
      r
  }

  // ---------------------------------------------------------------------
  // getCVSSV3* / getCVSSV4*
  // ---------------------------------------------------------------------

  /** What the getters return when a metric list is empty: "" and 0. */
  const NoCvss := CvssData("", "", 0, "")

  /** The metric the V3/V4 getters read: element 0, or the empty defaults. */
  function Primary(metrics: seq<CvssData>): (r: CvssData)
    ensures |metrics| > 0 ==> r == metrics[0]
    ensures |metrics| == 0 ==> r.vectorString == "" && r.baseScore == 0 && r.baseSeverity == ""
  {
    if |metrics| > 0 then metrics[0] else NoCvss
  }

  // ---------------------------------------------------------------------
  // getAffectedProducts / getReferenceLinks / getCWEIDs
  // ---------------------------------------------------------------------

  function TotalLength<T>(xss: seq<seq<T>>): nat
    decreases |xss|
  {
    if |xss| == 0 then 0 else |xss[0]| + TotalLength(xss[1..])
  }

  /** The nested append loops: every inner item, in order. */
  function Flatten<T>(xss: seq<seq<T>>): (r: seq<T>)
    ensures |r| == TotalLength(xss)
    decreases |xss|
  {
    if |xss| == 0 then [] else xss[0] + Flatten(xss[1..])
  }

  /** Flattening keeps the order of the outer list. */
  lemma {:induction false} FlattenAppend<T>(a: seq<seq<T>>, b: seq<seq<T>>)
    ensures Flatten(a + b) == Flatten(a) + Flatten(b)
    decreases |a|
  {
    if |a| > 0 {
      FlattenAppend(a[1..], b);
      assert (a + b)[1..] == a[1..] + b;
    } else {
      assert a + b == b;
    }
  }

  /** An item is in the flattening exactly when it is in one of the inner lists. */
  lemma {:induction false} FlattenMember<T>(xss: seq<seq<T>>, x: T)
    ensures x in Flatten(xss) <==> exists i :: 0 <= i < |xss| && x in xss[i]
    decreases |xss|
  {
    if |xss| > 0 {
      FlattenMember(xss[1..], x);
      if x in Flatten(xss[1..]) {
        var i :| 0 <= i < |xss[1..]| && x in xss[1..][i];
        assert x in xss[i + 1];
      }
      if exists i :: 0 <= i < |xss| && x in xss[i] {
        var i :| 0 <= i < |xss| && x in xss[i];
        if i > 0 { assert x in xss[1..][i - 1]; }
      }
    }
  }

  /** The cpeMatch criteria of each node. */
  function NodeCriteria(nodes: seq<Node>): (r: seq<seq<string>>)
    ensures |r| == |nodes| && forall j :: 0 <= j < |nodes| ==> r[j] == nodes[j].cpeMatch
  {
    seq(|nodes|, j requires 0 <= j < |nodes| => nodes[j].cpeMatch)
  }

  /** The criteria of every node of each configuration. */
  function ConfigurationCriteria(cs: seq<Configuration>): (r: seq<seq<string>>)
    ensures |r| == |cs| && forall i :: 0 <= i < |cs| ==> r[i] == Flatten(NodeCriteria(cs[i].nodes))
  {
    seq(|cs|, i requires 0 <= i < |cs| => Flatten(NodeCriteria(cs[i].nodes)))
  }

  /** The description values of each weakness. */
  function WeaknessValues(ws: seq<Weakness>): (r: seq<seq<string>>)
    ensures |r| == |ws| && forall i :: 0 <= i < |ws| ==> r[i] == ws[i].description
  {
    seq(|ws|, i requires 0 <= i < |ws| => ws[i].description)
  }

  /** getAffectedProducts. */
  function AffectedProducts(cve: CveData): seq<string> {
    Flatten(ConfigurationCriteria(cve.configurations))
  }

  /** getCWEIDs. */
  function CweIds(cve: CveData): seq<string> {
    Flatten(WeaknessValues(cve.weaknesses))
  }

  /** A product is listed exactly when some node of some configuration names it. */
  lemma AffectedProductsMember(cve: CveData, p: string)
    ensures p in AffectedProducts(cve) <==>
      exists i, j :: 0 <= i < |cve.configurations| && 0 <= j < |cve.configurations[i].nodes| &&
                     p in cve.configurations[i].nodes[j].cpeMatch
  {
    var cs := cve.configurations;
    var outer := ConfigurationCriteria(cs);
    FlattenMember(outer, p);
    forall i | 0 <= i < |cs|
      ensures p in outer[i] <==> exists j :: 0 <= j < |cs[i].nodes| && p in cs[i].nodes[j].cpeMatch
    {
      FlattenMember(NodeCriteria(cs[i].nodes), p);
    }
  }

  /** A CWE id is listed exactly when some weakness carries it as a description. */
  lemma CweIdsMember(cve: CveData, id: string)
    ensures id in CweIds(cve) <==>
      exists i :: 0 <= i < |cve.weaknesses| && id in cve.weaknesses[i].description
  {
    FlattenMember(WeaknessValues(cve.weaknesses), id);
  }

  // ---------------------------------------------------------------------
  // The bound parameters of the upsert
  // ---------------------------------------------------------------------

  /** The 13 column values bound to $2..$14 for a record. */
  function Columns(cve: CveData): CveColumns {
    var v3 := Primary(cve.metrics.cvssMetricV31);
    var v4 := Primary(cve.metrics.cvssMetricV40);
    CveColumns(
      cve.published, cve.lastModified, cve.vulnStatus, FirstEnglish(cve.descriptions),
      v3.vectorString, v3.baseScore, v3.baseSeverity,
      v4.vectorString, v4.baseScore, v4.baseSeverity,
      AffectedProducts(cve), cve.references, CweIds(cve))
  }

  // ---------------------------------------------------------------------
  // CustomTime.UnmarshalJSON
  // ---------------------------------------------------------------------

  /**
   * The text CustomTime.UnmarshalJSON hands to time.Parse: the raw JSON token
   * without its first and last byte. Go panics on a token shorter than 2.
   */
  function StripQuotes(token: string): (s: string)
    requires |token| >= 2
    ensures |s| == |token| - 2
    ensures token == [token[0]] + s + [token[|token| - 1]]
  {
    token[1..|token| - 1]
  }

  /** A quoted JSON string loses exactly its quotes. */
  lemma StripQuotesOfQuoted(s: string)
    ensures StripQuotes("\"" + s + "\"") == s
  {
    var t := "\"" + s + "\"";
    assert [t[0]] + s + [t[|t| - 1]] == t;
  }
}
