/**
 * Prompt construction and reply parsing of the analyzer: generatePrompt and
 * parseResponse of backend/internal/analyzer/llm.go, their older copies in
 * internal/analyzer/analyzer.go, and the assessment prompt of
 * internal/analyzer/prompt.go.
 */
module Prompt {
  import opened Wrappers
  import opened Text
  import opened Nvd
  import opened CveStore
  import opened CveRead
  import opened Datastore

  // ---------------------------------------------------------------------
  // The CVSS block and the products line
  // ---------------------------------------------------------------------

  /** fmt's "%.1f" of a score held in tenths: the whole part, a point, one digit. */
  function FormatTenths(s: Score): (r: string)
    ensures |r| >= 3 && r[|r| - 2] == '.'
    ensures AllDigits(r[..|r| - 2]) && IsDigit(r[|r| - 1])
  {
    NatToString(s / 10) + "." + [DigitChar(s % 10)]
  }

  /** Reading a formatted score back, whole part and tenths, gives the score. */
  lemma FormatTenthsReadsBack(s: Score)
    ensures var r := FormatTenths(s);
            ParseNat(r[..|r| - 2]) * 10 + DigitValue(r[|r| - 1]) == s
  {
    var r := FormatTenths(s);
    assert r[..|r| - 2] == NatToString(s / 10);
    ParseNatToString(s / 10);
  }

  /** One line of a CVSS block, "CVSS V<version> <field>: <value>", on a new indented line. */
  function CvssLine(version: string, field: string, value: string): string {
    "\n\t\tCVSS V" + version + " " + field + ": " + value
  }

  /** The three-line block of one CVSS version: vector, score to one decimal, severity. */
  function CvssBlock(version: string, vector: string, score: Score, severity: string): string {
    CvssLine(version, "Vector", vector) + CvssLine(version, "Score", FormatTenths(score))
    + CvssLine(version, "Severity", severity)
  }

  const NoCvssInfo := "No CVSS information available"

  /** A CVSS version is shown when its vector is non-empty or its score is positive. */
  predicate HasV3(c: CveInfo) { c.cvssV3Vector != "" || c.cvssV3BaseScore > 0 }

  predicate HasV4(c: CveInfo) { c.cvssV4Vector != "" || c.cvssV4BaseScore > 0 }

  /**
   * The CVSS information of the prompt: the V3 block when V3 is present,
   * else the V4 block when V4 is present, else the fixed literal.
   */
  function CvssInfo(c: CveInfo): (r: string)
    ensures HasV3(c) ==> r == CvssBlock("3", c.cvssV3Vector, c.cvssV3BaseScore, c.cvssV3BaseSeverity)
    ensures !HasV3(c) && HasV4(c) ==> r == CvssBlock("4", c.cvssV4Vector, c.cvssV4BaseScore, c.cvssV4BaseSeverity)
    ensures r == NoCvssInfo <==> !HasV3(c) && !HasV4(c)
  {
    if HasV3(c) then CvssBlock("3", c.cvssV3Vector, c.cvssV3BaseScore, c.cvssV3BaseSeverity)
    else if HasV4(c) then CvssBlock("4", c.cvssV4Vector, c.cvssV4BaseScore, c.cvssV4BaseSeverity)
    else NoCvssInfo
  }

  /**
   * The block shown opens with the vector line of the version chosen and
   * carries that version's score to one decimal.
   */
  lemma CvssInfoShowsChosenVersion(c: CveInfo)
    ensures HasV3(c) ==>
              CvssLine("3", "Vector", c.cvssV3Vector) <= CvssInfo(c) &&
              Contains(CvssInfo(c), CvssLine("3", "Score", FormatTenths(c.cvssV3BaseScore)))
    ensures !HasV3(c) && HasV4(c) ==>
              CvssLine("4", "Vector", c.cvssV4Vector) <= CvssInfo(c) &&
              Contains(CvssInfo(c), CvssLine("4", "Score", FormatTenths(c.cvssV4BaseScore)))
  {
    if HasV3(c) {
      ContainsPiece(CvssLine("3", "Vector", c.cvssV3Vector), CvssLine("3", "Score", FormatTenths(c.cvssV3BaseScore)),
                    CvssLine("3", "Severity", c.cvssV3BaseSeverity));
    } else if HasV4(c) {
      ContainsPiece(CvssLine("4", "Vector", c.cvssV4Vector), CvssLine("4", "Score", FormatTenths(c.cvssV4BaseScore)),
                    CvssLine("4", "Severity", c.cvssV4BaseSeverity));
    }
  }

  const ProductsLabel := "Affected Products: "
  const NoProductsInfo := "No affected products information available"

  /** The products line: the label and the list joined by ", ", or the literal for an empty list. */
  function ProductsLine(products: seq<string>): (r: string)
    ensures |products| > 0 ==> r == ProductsLabel + Join(products, ", ")
    ensures |products| == 0 ==> r == NoProductsInfo
  {
    if |products| > 0 then ProductsLabel + Join(products, ", ") else NoProductsInfo
  }

  /** The two forms of the products line are told apart by the label. */
  lemma ProductsLineLabelled(products: seq<string>)
    ensures ProductsLabel <= ProductsLine(products) <==> |products| > 0
  {
    if |products| == 0 {
      assert ProductsLine(products)[0] != ProductsLabel[0];
    }
  }

  // ---------------------------------------------------------------------
  // The prompt templates
  // ---------------------------------------------------------------------

  /**
   * A prompt template: the fixed text around the id, the description, the
   * CVSS block, the products line and the joined CWE ids, in that order.
   */
  datatype Template = Template(
    head: string, afterId: string, afterDescription: string,
    afterCvss: string, afterProducts: string, tail: string)

  /** The pieces of the prompt a template gives for one CVE, in order. */
  function RenderParts(t: Template, c: CveInfo): seq<string> {
    [t.head, c.id, t.afterId, c.description, t.afterDescription, CvssInfo(c),
     t.afterCvss, ProductsLine(c.affectedProducts), t.afterProducts, Join(c.cweIds, ", "), t.tail]
  }

  /** The prompt a template gives for one CVE. */
  function Render(t: Template, c: CveInfo): string {
    Concat(RenderParts(t, c))
  }

  /** Every rendered prompt begins with the head, the id and the text after it. */
  lemma RenderStartsWithId(t: Template, c: CveInfo)
    ensures t.head + c.id + t.afterId <= Render(t, c)
  {
    var ps := RenderParts(t, c);
    ConcatWindow(ps, 0, 3);
    UnfoldThree(ps[..3]);
  }

  /**
   * Every rendered prompt carries each run of three consecutive pieces:
   * each value right behind the template text that introduces it.
   */
  lemma RenderContainsRun(t: Template, c: CveInfo, i: nat)
    requires i + 3 <= 11
    ensures var ps := RenderParts(t, c); Contains(Render(t, c), ps[i] + ps[i + 1] + ps[i + 2])
  {
    var ps := RenderParts(t, c);
    ConcatWindow(ps, i, i + 3);
    UnfoldThree(ps[i..i + 3]);
  }

  /**
   * The description, the CVSS block, the products line and the CWE ids
   * joined by ", " each stand in the prompt between their template texts.
   */
  lemma RenderEmbeds(t: Template, c: CveInfo)
    ensures Contains(Render(t, c), t.afterId + c.description + t.afterDescription)
    ensures Contains(Render(t, c), t.afterDescription + CvssInfo(c) + t.afterCvss)
    ensures Contains(Render(t, c), t.afterCvss + ProductsLine(c.affectedProducts) + t.afterProducts)
    ensures Contains(Render(t, c), t.afterProducts + Join(c.cweIds, ", ") + t.tail)
  {
    RenderContainsRun(t, c, 2);
    RenderContainsRun(t, c, 4);
    RenderContainsRun(t, c, 6);
    RenderContainsRun(t, c, 8);
  }

  /** Three pieces written out. */
  lemma UnfoldThree(ps: seq<string>)
    requires |ps| == 3
    ensures Concat(ps) == ps[0] + ps[1] + ps[2]
  {
    assert Concat(ps[2..]) == ps[2] + Concat(ps[3..]);
  }

  /** The JSON-analysis prompt of backend/internal/analyzer/llm.go. */
  const AnalysisTemplate := Template(
    "\n"
      + "\tAs a cybersecurity expert, analyze vulnerability ",
    " based on the provided information. Respond in JSON format:\n"
      + "\n"
      + "\t{\n"
      + "\t\"analysis_summary\": \"Comprehensive analysis considering CVSS score, affected systems, and vulnerability type. (Max 5 sentences)\",\n"
      + "\t\"affected_systems\": \"Brief description of impacted systems/software based on the CVE description (e.g., 'Linux kernel-based systems', 'WordPress plugin WPFactory Helper', 'Draytek Vigor 3910 router')\",\n"
      + "\t\"affected_products\": [\"List\", \"of\", \"specific\", \"affected\", \"product\", \"names\", \"based\", \"on\", \"CPE\", \"information\"],\n"
      + "\t\"vulnerability_type\": \"Category or type of vulnerability in English\",\n"
      + "\t\"risk_level\": 0, // 0: Low, 1: Medium, 2: High, based on CVSS score and severity\n"
      + "\t\"recommendation\": \"Specific actions to mitigate or address the vulnerability (2-3 sentences)\",\n"
      + "\t\"technical_details\": \"Technical specifics, attack vectors, and potential impact if exploited (3-4 sentences)\"\n"
      + "\t}\n"
      + "\n"
      + "\tGuidelines:\n"
      + "\t1. Integrate all provided data (CVSS score, affected products, CWE IDs) for a professional analysis.\n"
      + "\t2. 'analysis_summary': Include vulnerability significance, potential impact, and technical characteristics.\n"
      + "\t3. 'affected_systems': Describe the types of systems or software affected, based on the CVE description.\n"
      + "\t4. 'affected_products': List specific product names affected, based on the CPE information provided.\n"
      + "\t5. 'technical_details': Be specific and technical. Include potential impact and attack vectors. Do not mention the CVE ID in this field.\n"
      + "\t6. 'recommendation': Provide actionable and concrete measures.\n"
      + "\t7. 'vulnerability_type': Use standard cybersecurity terms in English.\n"
      + "\t8. For all fields except 'analysis_summary', avoid mentioning the CVE ID directly.\n"
      + "\n"
      + "\tDescription: ",
    "\n"
      + "\n"
      + "\t",
    "\n"
      + "\n"
      + "\t",
    "\n"
      + "\tCWE IDs: ",
    "\n"
      + "\n"
      + "\tProvide a valid JSON response. Use Korean for all fields except 'vulnerability_type' and 'affected_products'.\n"
      + "\t")

  /** The older JSON-analysis prompt of internal/analyzer/analyzer.go. */
  const LegacyAnalysisTemplate := Template(
    "\n"
      + "\tAs a cybersecurity expert, analyze vulnerability ",
    " based on the provided information. Respond in JSON format:\n"
      + "\n"
      + "\t{\n"
      + "\t\"analysis_summary\": \"Comprehensive analysis considering CVSS score, affected systems, and vulnerability type. (Max 5 sentences)\",\n"
      + "\t\"affected_systems\": \"Brief description of impacted systems/software\",\n"
      + "\t\"affected_products\": [\"List\", \"of\", \"affected\", \"product\", \"names\"],\n"
      + "\t\"vulnerability_type\": \"Category or type of vulnerability in English\",\n"
      + "\t\"risk_level\": 0, // 0: Low, 1: Medium, 2: High, based on CVSS score and severity\n"
      + "\t\"recommendation\": \"Specific actions to mitigate or address the vulnerability (2-3 sentences)\",\n"
      + "\t\"technical_details\": \"Technical specifics, attack vectors, and potential impact if exploited (3-4 sentences)\"\n"
      + "\t}\n"
      + "\n"
      + "\tGuidelines:\n"
      + "\t1. Integrate all provided data (CVSS score, affected products, CWE IDs) for a professional analysis.\n"
      + "\t2. 'analysis_summary': Include vulnerability significance, potential impact, and technical characteristics.\n"
      + "\t3. 'technical_details': Be specific and technical. Include potential impact and attack vectors. Do not mention the CVE ID in this field.\n"
      + "\t4. 'recommendation': Provide actionable and concrete measures.\n"
      + "\t5. 'vulnerability_type': Use standard cybersecurity terms in English.\n"
      + "\t6. 'affected_systems': Concise, doesn't require full sentences.\n"
      + "\t7. For all fields except 'analysis_summary', avoid mentioning the CVE ID directly.\n"
      + "\n"
      + "\tDescription: ",
    "\n"
      + "\n"
      + "\t",
    "\n"
      + "\n"
      + "\t",
    "\n"
      + "\tCWE IDs: ",
    "\n"
      + "\n"
      + "\tProvide a valid JSON response. Use Korean for all fields except 'vulnerability_type'.\n"
      + "\t")

  /**
   * The free-text assessment prompt of internal/analyzer/prompt.go; its own
   * text puts a products label in front of the products line.
   */
  const AssessmentTemplate := Template(
    "\n"
      + "\t\tYou are a cybersecurity expert. Based on the provided information about ",
    ", give a concise assessment (maximum 5 sentences) of this vulnerability. Consider:\n"
      + "\t\t1. The risk level based on CVSS score and severity\n"
      + "\t\t2. Potential impacts on affected products/systems\n"
      + "\t\t3. Notable characteristics or implications\n"
      + "\t\t4. Brief mitigation recommendations, if applicable\n"
      + "\t\tEnsure your response is comprehensive yet concise, integrating all relevant details from the provided information.\n"
      + "\n"
      + "\t\tDescription: ",
    "\n"
      + "\n"
      + "\t\t",
    "\n\t\t\n\t\t" + ProductsLabel,
    "\n"
      + "\t\tCWE IDs: ",
    "\n"
      + "\n"
      + "\t\tYour response should be in Korean.\n"
      + "\t")


  // ---------------------------------------------------------------------
  // generatePrompt
  // ---------------------------------------------------------------------

  /**
   * What building a prompt ends in: `sql.ErrNoRows` when the CVE has no
   * row, any other database error unchanged, or the prompt.
   */
  datatype PromptOutcome = Built(prompt: string) | NoRows | QueryFailed(error: string)

  /**
   * generatePrompt with a template: the `cve_data` row of the id is read;
   * a query error is returned unchanged, a missing row is `sql.ErrNoRows`,
   * and a found row is rendered.
   */
  function Generate(t: Template, rows: map<string, CveRow>, cveId: string, queryError: Option<string>)
    : (r: PromptOutcome)
    ensures queryError.Some? ==> r == QueryFailed(queryError.value)
    ensures queryError.None? ==> (r.NoRows? <==> cveId !in rows) && !r.QueryFailed?
    ensures r.Built? ==> cveId in rows && r.prompt == Render(t, FromRow(cveId, rows[cveId].cols))
  {
    if queryError.Some? then QueryFailed(queryError.value)
    else if cveId !in rows then NoRows
    else Built(Render(t, FromRow(cveId, rows[cveId].cols)))
  }

  /** generatePrompt of backend/internal/analyzer/llm.go. */
  function GeneratePrompt(rows: map<string, CveRow>, cveId: string, queryError: Option<string>): PromptOutcome {
    Generate(AnalysisTemplate, rows, cveId, queryError)
  }

  /** generatePrompt of internal/analyzer/analyzer.go. */
  function LegacyGeneratePrompt(rows: map<string, CveRow>, cveId: string, queryError: Option<string>): PromptOutcome {
    Generate(LegacyAnalysisTemplate, rows, cveId, queryError)
  }

  /** generatePrompt of internal/analyzer/prompt.go. */
  function AssessmentPrompt(rows: map<string, CveRow>, cveId: string, queryError: Option<string>): PromptOutcome {
    Generate(AssessmentTemplate, rows, cveId, queryError)
  }

  /** The prompt of a CVE stored by the collector is rendered from the record's own columns. */
  lemma StoredCvePrompt(t: Template, rows: map<string, CveRow>, cve: CveData, now: Timestamp)
    requires |cve.id| <= 20 && FitsWidths(Columns(cve))
    ensures var stored := Upsert(rows, CastKey(cve.id), CastColumns(Columns(cve)), now).rows;
            Generate(t, stored, cve.id, None) == Built(Render(t, FromRow(cve.id, Columns(cve))))
  {
    StoredCveReadsBack(rows, cve, now);
  }

  /**
   * A template whose text before the products line ends in the products
   * label shows the label twice for a non-empty list.
   */
  lemma LabelBeforeProductsDoubles(t: Template, c: CveInfo, indent: string)
    requires t.afterCvss == indent + ProductsLabel
    requires |c.affectedProducts| > 0
    ensures Contains(Render(t, c), ProductsLabel + ProductsLabel + Join(c.affectedProducts, ", "))
  {
    var w := Join(c.affectedProducts, ", ");
    RenderContainsRun(t, c, 6);
    var lab := ProductsLabel;
    var u := t.afterCvss + ProductsLine(c.affectedProducts) + t.afterProducts;
    Regroup(indent, lab, lab + w, t.afterProducts);
    assert lab + (lab + w) == lab + lab + w;
    ContainsPiece(indent, lab + lab + w, t.afterProducts);
    ContainsTrans(Render(t, c), u, lab + lab + w);
  }

  lemma Regroup(a: string, b: string, c: string, d: string)
    ensures a + b + c + d == a + (b + c) + d
  {
  }

  /**
   * The assessment prompt puts its own label in front of the products
   * line, which has the label already: a non-empty list reads
   * "Affected Products: Affected Products: ...".
   */
  lemma AssessmentPromptDoublesLabel(c: CveInfo)
    requires |c.affectedProducts| > 0
    ensures Contains(Render(AssessmentTemplate, c), ProductsLabel + ProductsLabel + Join(c.affectedProducts, ", "))
  {
    LabelBeforeProductsDoubles(AssessmentTemplate, c, "\n\t\t\n\t\t");
  }

  // ---------------------------------------------------------------------
  // parseResponse
  // ---------------------------------------------------------------------

  const OpenFence := "```json"
  const CloseFence := "```"
  const NoOpenFence := "JSON 시작 태그를 찾을 수 없습니다"
  const NoCloseFence := "JSON 종료 태그를 찾을 수 없습니다"

  function ParseFailure(e: string): string {
    "AI 응답 파싱 실패: " + e
  }

  /**
   * `j` is what stands between the opening fence at `s` and the first
   * closing fence after it.
   */
  predicate FencedAt(response: string, s: int, j: string) {
    OccursAt(response, OpenFence, s) && s + 7 + |j| <= |response| &&
    response[s + 7..s + 7 + |j|] == j && OccursAt(response, CloseFence, s + 7 + |j|) &&
    forall k :: s + 7 <= k < s + 7 + |j| ==> !OccursAt(response, CloseFence, k)
  }

  /** A fence after the opening tag, seen in the rest of the reply or in the whole reply. */
  lemma FenceShift(response: string, s: nat, k: int)
    requires s + 7 <= |response| && s + 7 <= k
    ensures OccursAt(response[s + 7..], CloseFence, k - (s + 7)) <==> OccursAt(response, CloseFence, k)
  {
    var rest := response[s + 7..];
    if k + 3 <= |response| {
      assert rest[k - (s + 7)..k - (s + 7) + 3] == response[k..k + 3];
    }
  }

  /**
   * The fence extraction of parseResponse: the text between the first
   * "```json" and the first "```" after it; an error when either is missing.
   */
  function ExtractJson(response: string): (r: Result<string>)
    ensures !Contains(response, OpenFence) ==> r == Err(NoOpenFence)
    ensures Contains(response, OpenFence) ==>
              (r == Err(NoCloseFence) <==>
               forall k :: IndexOf(response, OpenFence) + 7 <= k ==> !OccursAt(response, CloseFence, k))
    ensures r.Ok? ==> FencedAt(response, IndexOf(response, OpenFence), r.value)
    ensures r.Ok? ==> forall s :: 0 <= s < IndexOf(response, OpenFence) ==> !OccursAt(response, OpenFence, s)
  {
    var s := IndexOf(response, OpenFence);
    if s == -1 then Err(NoOpenFence)
    else
      var rest := response[s + 7..];
      var e := IndexOf(rest, CloseFence);
      assert forall k :: s + 7 <= k ==> (OccursAt(rest, CloseFence, k - (s + 7)) <==> OccursAt(response, CloseFence, k)) by {
        forall k | s + 7 <= k { FenceShift(response, s, k); }
      }
      if e == -1 then Err(NoCloseFence)
      else
        assert OccursAt(response, CloseFence, s + 7 + e);
        Ok(rest[..e])
  }

  /**
   * parseResponse: the extracted text handed to the JSON decoder; a decode
   * error is wrapped, a missing fence is reported as such.
   */
  function ParseResponse(response: string, decode: string -> Result<Analysis>): (r: Result<Analysis>)
    ensures ExtractJson(response).Err? ==> r == Err(ExtractJson(response).error)
    ensures ExtractJson(response).Ok? && decode(ExtractJson(response).value).Ok? ==>
              r == decode(ExtractJson(response).value)
    ensures ExtractJson(response).Ok? && decode(ExtractJson(response).value).Err? ==>
              r == Err(ParseFailure(decode(ExtractJson(response).value).error))
  {
    match ExtractJson(response)
    case Err(e) => Err(e)
    case Ok(j) =>
      match decode(j)
      case Err(e) => Err(ParseFailure(e))
      case Ok(a) => Ok(a)
  }

  /**
   * A reply made of a preamble without "```json", the opening fence, a
   * body without "```" that does not end in a backtick, the closing fence
   * and anything after it yields exactly the body.
   */
  lemma ExtractJsonRoundTrip(p: string, j: string, tail: string)
    requires !Contains(p, OpenFence)
    requires !Contains(j, CloseFence)
    requires j == "" || j[|j| - 1] != '`'
    ensures ExtractJson(p + OpenFence + j + CloseFence + tail) == Ok(j)
  {
    var response := p + OpenFence + (j + CloseFence + tail);
    assert response == p + OpenFence + j + CloseFence + tail;
    forall i | 0 <= i < |p| ensures !OccursAt(response, OpenFence, i) {
      if i + 7 <= |p| {
        assert response[i..i + 7] == p[i..i + 7];
        assert !OccursAt(p, OpenFence, i);
      } else {
        OpenFenceNotStraddling(p, j + CloseFence + tail, i);
      }
    }
    IndexOfFirstAt(p, OpenFence, j + CloseFence + tail);
    var rest := response[|p| + 7..];
    assert rest == j + CloseFence + tail;
    forall k | 0 <= k < |j| ensures !OccursAt(rest, CloseFence, k) {
      if k + 3 <= |j| {
        assert rest[k..k + 3] == j[k..k + 3];
        assert !OccursAt(j, CloseFence, k);
      } else {
        CloseFenceNotStraddling(j, tail, k);
      }
    }
    IndexOfFirstAt(j, CloseFence, tail);
    assert rest[..|j|] == j;
  }

  /** An opening fence cannot start inside the preamble and run into the real one. */
  lemma OpenFenceNotStraddling(p: string, after: string, i: nat)
    requires i < |p| < i + 7
    ensures !OccursAt(p + OpenFence + after, OpenFence, i)
  {
    var response := p + OpenFence + after;
    var window := response[i..i + 7];
    var d := |p| - i;
    if d <= 3 {
      assert window[d + 3] == response[|p| + 3] == 'j' != OpenFence[d + 3];
    } else {
      assert window[d] == response[|p|] == '`' != OpenFence[d];
    }
    assert window != OpenFence;
  }

  /** A closing fence cannot start inside a body that does not end in a backtick. */
  lemma CloseFenceNotStraddling(j: string, tail: string, k: nat)
    requires k < |j| < k + 3 && j[|j| - 1] != '`'
    ensures !OccursAt(j + CloseFence + tail, CloseFence, k)
  {
    var rest := j + CloseFence + tail;
    var window := rest[k..k + 3];
    var d := |j| - 1 - k;
    assert window[d] == rest[|j| - 1] == j[|j| - 1] != '`';
    assert CloseFence[d] == '`';
    assert window != CloseFence;
  }


  /** Without the last requirement the body is cut short: "```json" + "a`" + "```" yields "a". */
  lemma TrailingBacktickShortensBody()
    ensures ExtractJson(OpenFence + "a`" + CloseFence) == Ok("a")
  {
    var response := OpenFence + "a`" + CloseFence;
    assert OccursAt(response, OpenFence, 0);
    var rest := response[7..];
    assert rest == "a````";
    assert rest[0] == 'a';
    assert OccursAt(rest, CloseFence, 1);
    assert IndexOf(rest, CloseFence) == 1;
    assert rest[..1] == "a";
  }

  /** The reply built around a body is decoded from exactly that body. */
  lemma ParseResponseRoundTrip(p: string, j: string, tail: string, decode: string -> Result<Analysis>)
    requires !Contains(p, OpenFence)
    requires !Contains(j, CloseFence)
    requires j == "" || j[|j| - 1] != '`'
    ensures decode(j).Ok? ==> ParseResponse(p + OpenFence + j + CloseFence + tail, decode) == decode(j)
    ensures decode(j).Err? ==>
              ParseResponse(p + OpenFence + j + CloseFence + tail, decode) == Err(ParseFailure(decode(j).error))
  {
    ExtractJsonRoundTrip(p, j, tail);
  }
}
