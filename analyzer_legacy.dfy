/**
 * The older analyzer of internal/analyzer: the message loop of Run in
 * analyzer.go (JSON analysis into `analysis_data`), the message loop of
 * processMessages in sqs.go (free-text assessment into `ai_analysis`, with
 * storeAnalysisResult of database.go), and the two table upserts.
 */
module LegacyAnalyzer {
  import opened Wrappers
  import opened Nvd
  import opened CveStore
  import opened Datastore
  import opened Prompt

  const ShortInterval: nat := 10
  const DefaultInterval: nat := 60

  datatype Message = Message(body: string, receiptHandle: string)

  /** What the outside world answers while one message is processed. */
  datatype Answers = Answers(
    promptQueryError: Option<string>,
    llm: Result<string>,
    decode: string -> Result<Analysis>,
    storeError: Option<string>,
    deleteError: Option<string>,
    now: Timestamp)

  datatype Stage = PromptGeneration | LlmCall | ResponseParse | AnalysisStore

  /** How a message ends: skipped at a stage (left on the queue), dropped (deleted), or completed (deleted). */
  datatype Fate = Skipped(at: Stage) | Dropped | Completed

  predicate Acked(f: Fate) { f.Dropped? || f.Completed? }

  // ---------------------------------------------------------------------
  // The two tables
  // ---------------------------------------------------------------------

  /** The text of a failed analysis store, in both versions. */
  function StoreFailure(e: string): string {
    "Failed to store analysis result: " + e
  }

  datatype SummaryRow = SummaryRow(summary: string, createdAt: Timestamp, updatedAt: Timestamp)

  /**
   * The `ai_analysis` upsert of database.go: a new CVE gets
   * `created_at = updated_at = now`; an existing one has its summary and
   * `updated_at` replaced and keeps `created_at`.
   */
  function UpsertSummary(rows: map<string, SummaryRow>, cveId: string, summary: string, now: Timestamp)
    : (r: map<string, SummaryRow>)
    ensures r.Keys == rows.Keys + {cveId}
    ensures forall k :: k in rows && k != cveId ==> r[k] == rows[k]
    ensures r[cveId].summary == summary && r[cveId].updatedAt == now
    ensures r[cveId].createdAt == if cveId in rows then rows[cveId].createdAt else now
  {
    var createdAt := if cveId in rows then rows[cveId].createdAt else now;
    rows[cveId := SummaryRow(summary, createdAt, now)]
  }

  /** Storing a summary again for the same CVE replaces it and keeps the first creation time. */
  lemma LastSummaryWins(rows: map<string, SummaryRow>, cveId: string, s1: string, s2: string,
                        t1: Timestamp, t2: Timestamp)
    requires cveId !in rows
    ensures UpsertSummary(UpsertSummary(rows, cveId, s1, t1), cveId, s2, t2) == rows[cveId := SummaryRow(s2, t1, t2)]
  {
  }

  // ---------------------------------------------------------------------
  // Run of analyzer.go
  // ---------------------------------------------------------------------

  /**
   * The fate of a message in Run: a missing CVE row drops the message; any
   * other prompt error, an LLM error, a parse error or a store error skips it.
   */
  function RunFate(cves: map<string, CveRow>, m: Message, a: Answers): Fate {
    if a.promptQueryError.Some? then Skipped(PromptGeneration)
    else if m.body !in cves then Dropped
    else if a.llm.Err? then Skipped(LlmCall)
    else if ParseResponse(a.llm.value, a.decode).Err? then Skipped(ResponseParse)
    else if a.storeError.Some? then Skipped(AnalysisStore)
    else Completed
  }

  /** The state the message loops change. */
  datatype World = World(
    analysisData: map<string, AnalysisRow>, aiAnalysis: map<string, SummaryRow>,
    deleted: seq<string>, interval: nat)

  /** The state after one message of Run. */
  function RunStep(w: World, cves: map<string, CveRow>, m: Message, a: Answers): (r: World)
    ensures r.deleted == w.deleted + (if Acked(RunFate(cves, m, a)) && a.deleteError.None? then [m.receiptHandle] else [])
    ensures RunFate(cves, m, a).Completed? ==>
              r.analysisData == UpsertAnalysis(w.analysisData, m.body, ParseResponse(a.llm.value, a.decode).value, a.now)
    ensures !RunFate(cves, m, a).Completed? ==> r.analysisData == w.analysisData
    ensures r.aiAnalysis == w.aiAnalysis && r.interval == w.interval
  {
    var fate := RunFate(cves, m, a);
    var analysisData :=
      if fate.Completed? then UpsertAnalysis(w.analysisData, m.body, ParseResponse(a.llm.value, a.decode).value, a.now)
      else w.analysisData;
    var deleted := if Acked(fate) && a.deleteError.None? then w.deleted + [m.receiptHandle] else w.deleted;
    w.(analysisData := analysisData, deleted := deleted)
  }

  function RunBatch(w: World, cves: map<string, CveRow>, msgs: seq<Message>, answers: nat -> Answers): World
    decreases |msgs|
  {
    if |msgs| == 0 then w
    else RunStep(RunBatch(w, cves, msgs[..|msgs| - 1], answers), cves, msgs[|msgs| - 1], answers(|msgs| - 1))
  }

  /**
   * One tick of Run: a receive error changes nothing; an empty batch sets
   * the ticker to 60 s; a non-empty batch is processed and then sets it to
   * 10 s, whatever became of its messages.
   */
  function AfterRunTick(w: World, cves: map<string, CveRow>, received: Result<seq<Message>>, answers: nat -> Answers)
    : (r: World)
    ensures received.Err? ==> r == w
    ensures received == Ok([]) ==> r == w.(interval := DefaultInterval)
    ensures received.Ok? && |received.value| > 0 ==> r.interval == ShortInterval
  {
    if received.Err? then w
    else if |received.value| == 0 then w.(interval := DefaultInterval)
    else RunBatch(w, cves, received.value, answers).(interval := ShortInterval)
  }

  // ---------------------------------------------------------------------
  // processMessages of sqs.go
  // ---------------------------------------------------------------------

  /**
   * The fate of a message in processMessages: every prompt error, a missing
   * CVE included, skips it; then an LLM error or a store error skips it.
   */
  function SqsFate(cves: map<string, CveRow>, m: Message, a: Answers): Fate {
    if a.promptQueryError.Some? || m.body !in cves then Skipped(PromptGeneration)
    else if a.llm.Err? then Skipped(LlmCall)
    else if a.storeError.Some? then Skipped(AnalysisStore)
    else Completed
  }

  /** The state after one message of processMessages: the reply itself is the stored summary. */
  function SqsStep(w: World, cves: map<string, CveRow>, m: Message, a: Answers): (r: World)
    ensures r.deleted == w.deleted + (if Acked(SqsFate(cves, m, a)) && a.deleteError.None? then [m.receiptHandle] else [])
    ensures SqsFate(cves, m, a).Completed? ==> r.aiAnalysis == UpsertSummary(w.aiAnalysis, m.body, a.llm.value, a.now)
    ensures !SqsFate(cves, m, a).Completed? ==> r.aiAnalysis == w.aiAnalysis
    ensures r.analysisData == w.analysisData && r.interval == w.interval
  {
    var fate := SqsFate(cves, m, a);
    var aiAnalysis := if fate.Completed? then UpsertSummary(w.aiAnalysis, m.body, a.llm.value, a.now) else w.aiAnalysis;
    var deleted := if Acked(fate) && a.deleteError.None? then w.deleted + [m.receiptHandle] else w.deleted;
    w.(aiAnalysis := aiAnalysis, deleted := deleted)
  }

  function SqsBatch(w: World, cves: map<string, CveRow>, msgs: seq<Message>, answers: nat -> Answers): World
    decreases |msgs|
  {
    if |msgs| == 0 then w
    else SqsStep(SqsBatch(w, cves, msgs[..|msgs| - 1], answers), cves, msgs[|msgs| - 1], answers(|msgs| - 1))
  }

  /** One tick of processMessages, with the same ticker rule as Run. */
  function AfterSqsTick(w: World, cves: map<string, CveRow>, received: Result<seq<Message>>, answers: nat -> Answers)
    : (r: World)
    ensures received.Err? ==> r == w
    ensures received == Ok([]) ==> r == w.(interval := DefaultInterval)
    ensures received.Ok? && |received.value| > 0 ==> r.interval == ShortInterval
  {
    if received.Err? then w
    else if |received.value| == 0 then w.(interval := DefaultInterval)
    else SqsBatch(w, cves, received.value, answers).(interval := ShortInterval)
  }

  // ---------------------------------------------------------------------
  // Properties
  // ---------------------------------------------------------------------

  /** Run deletes a message after a full analysis, and drops one whose CVE has no row. */
  lemma RunAcksIff(cves: map<string, CveRow>, m: Message, a: Answers)
    ensures RunFate(cves, m, a).Completed? <==>
              a.promptQueryError.None? && m.body in cves && a.llm.Ok? &&
              ParseResponse(a.llm.value, a.decode).Ok? && a.storeError.None?
    ensures RunFate(cves, m, a).Dropped? <==> a.promptQueryError.None? && m.body !in cves
  {
  }

  /** processMessages deletes a message only after the LLM call and the store succeed; it never drops one. */
  lemma SqsAcksIff(cves: map<string, CveRow>, m: Message, a: Answers)
    ensures Acked(SqsFate(cves, m, a)) <==>
              a.promptQueryError.None? && m.body in cves && a.llm.Ok? && a.storeError.None?
    ensures !SqsFate(cves, m, a).Dropped?
  {
  }

  /**
   * The two loops part on a missing CVE: Run deletes the message,
   * processMessages leaves it on the queue to be delivered again.
   */
  lemma MissingCveDiverges(cves: map<string, CveRow>, m: Message, a: Answers)
    requires a.promptQueryError.None? && m.body !in cves
    ensures RunFate(cves, m, a) == Dropped
    ensures SqsFate(cves, m, a) == Skipped(PromptGeneration)
  {
  }

  /**
   * A batch of Run only appends to the deleted handles, and each handle it
   * appends belongs to a message of the batch that was dropped or completed.
   */
  lemma {:induction false} RunBatchDeletesOnlyAcked(w: World, cves: map<string, CveRow>, msgs: seq<Message>,
                                                    answers: nat -> Answers)
    ensures w.deleted <= RunBatch(w, cves, msgs, answers).deleted
    ensures forall k :: |w.deleted| <= k < |RunBatch(w, cves, msgs, answers).deleted| ==>
              exists i :: 0 <= i < |msgs| && msgs[i].receiptHandle == RunBatch(w, cves, msgs, answers).deleted[k] &&
                          Acked(RunFate(cves, msgs[i], answers(i)))
    decreases |msgs|
  {
    if |msgs| > 0 {
      var n := |msgs| - 1;
      var init := msgs[..n];
      RunBatchDeletesOnlyAcked(w, cves, init, answers);
      var before := RunBatch(w, cves, init, answers);
      var after := RunBatch(w, cves, msgs, answers);
      assert after == RunStep(before, cves, msgs[n], answers(n));
      forall k | |w.deleted| <= k < |after.deleted|
        ensures exists i :: 0 <= i < |msgs| && msgs[i].receiptHandle == after.deleted[k] &&
                            Acked(RunFate(cves, msgs[i], answers(i)))
      {
        if k < |before.deleted| {
          var i :| 0 <= i < |init| && init[i].receiptHandle == before.deleted[k] &&
                   Acked(RunFate(cves, init[i], answers(i)));
          assert msgs[i] == init[i];
        } else {
          assert after.deleted[k] == msgs[n].receiptHandle;
        }
      }
    }
  }


  /** After a batch of processMessages there is an `ai_analysis` row for every completed message. */
  lemma {:induction false} SqsBatchStoresCompleted(w: World, cves: map<string, CveRow>, msgs: seq<Message>,
                                                   answers: nat -> Answers)
    ensures w.aiAnalysis.Keys <= SqsBatch(w, cves, msgs, answers).aiAnalysis.Keys
    ensures forall i :: 0 <= i < |msgs| && SqsFate(cves, msgs[i], answers(i)).Completed? ==>
              msgs[i].body in SqsBatch(w, cves, msgs, answers).aiAnalysis
    decreases |msgs|
  {
    if |msgs| > 0 {
      var n := |msgs| - 1;
      var init := msgs[..n];
      SqsBatchStoresCompleted(w, cves, init, answers);
      assert forall i :: 0 <= i < n ==> init[i] == msgs[i];
    }
  }

  // ---------------------------------------------------------------------
  // The two versions of the analyzer
  // ---------------------------------------------------------------------

  /**
   * The analyzer of analyzer.go: Run builds the JSON-analysis prompt and
   * stores into `analysis_data`. The `cve_data` rows are what it reads.
   */
  class RunAnalyzer {
    var cves: map<string, CveRow>
    var analysisData: map<string, AnalysisRow>
    var aiAnalysis: map<string, SummaryRow>
    var deleted: seq<string>
    var interval: nat
    /** The template of generatePrompt in analyzer.go. */
    const template: Template

    function State(): World
      reads this
    {
      World(analysisData, aiAnalysis, deleted, interval)
    }

    constructor (cves: map<string, CveRow>)
      ensures template == LegacyAnalysisTemplate
      ensures this.cves == cves && State() == World(map[], map[], [], ShortInterval)
    {
      this.cves := cves;
      analysisData, aiAnalysis, deleted, interval := map[], map[], [], ShortInterval;
      template := LegacyAnalysisTemplate;
    }

    /** storeAnalysisResult of analyzer.go: the `analysis_data` upsert, with its failure wrapped. */
    method StoreAnalysisResult(cveId: string, a: Analysis, now: Timestamp, dbError: Option<string>)
      returns (err: Option<string>)
      modifies this
      ensures dbError.Some? ==> err == Some(StoreFailure(dbError.value)) && analysisData == old(analysisData)
      ensures dbError.None? ==> err.None? && analysisData == UpsertAnalysis(old(analysisData), cveId, a, now)
      ensures cves == old(cves) && aiAnalysis == old(aiAnalysis) && deleted == old(deleted) && interval == old(interval)
    {
      if dbError.Some? {
        return Some(StoreFailure(dbError.value));
      }
      analysisData := UpsertAnalysis(analysisData, cveId, a, now);
      return None;
    }

    /** The body of the message loop of Run for one message. */
    method ProcessMessage(m: Message, a: Answers) returns (fate: Fate)
      modifies this
      ensures fate == RunFate(cves, m, a)
      ensures cves == old(cves)
      ensures State() == RunStep(old(State()), cves, m, a)
    {
      var prompt := Generate(template, cves, m.body, a.promptQueryError);
      if prompt.NoRows? {
        if a.deleteError.None? {
          deleted := deleted + [m.receiptHandle];
        }
        return Dropped;
      }
      if prompt.QueryFailed? {
        return Skipped(PromptGeneration);
      }
      if a.llm.Err? {
        return Skipped(LlmCall);
      }
      var parsed := ParseResponse(a.llm.value, a.decode);
      if parsed.Err? {
        return Skipped(ResponseParse);
      }
      var err := StoreAnalysisResult(m.body, parsed.value, a.now, a.storeError);
      if err.Some? {
        return Skipped(AnalysisStore);
      }
      if a.deleteError.None? {
        deleted := deleted + [m.receiptHandle];
      }
      return Completed;
    }

    /** One tick of Run. */
    method Tick(received: Result<seq<Message>>, answers: nat -> Answers)
      modifies this
      ensures cves == old(cves)
      ensures State() == AfterRunTick(old(State()), cves, received, answers)
    {
      if received.Err? {
        return;
      }
      var msgs := received.value;
      if |msgs| == 0 {
        interval := DefaultInterval;
        return;
      }
      ghost var start := State();
      for i := 0 to |msgs|
        invariant cves == old(cves)
        invariant State() == RunBatch(start, cves, msgs[..i], answers)
      {
        var _ := ProcessMessage(msgs[i], answers(i));
        assert msgs[..i + 1][..i] == msgs[..i];
      }
      assert msgs[..|msgs|] == msgs;
      interval := ShortInterval;
    }
  }

  /**
   * The analyzer of sqs.go, database.go and prompt.go: processMessages
   * builds the free-text assessment prompt and stores the reply into
   * `ai_analysis`.
   */
  class SqsAnalyzer {
    var cves: map<string, CveRow>
    var analysisData: map<string, AnalysisRow>
    var aiAnalysis: map<string, SummaryRow>
    var deleted: seq<string>
    var interval: nat
    /** The template of generatePrompt in prompt.go. */
    const template: Template

    function State(): World
      reads this
    {
      World(analysisData, aiAnalysis, deleted, interval)
    }

    constructor (cves: map<string, CveRow>)
      ensures template == AssessmentTemplate
      ensures this.cves == cves && State() == World(map[], map[], [], ShortInterval)
    {
      this.cves := cves;
      analysisData, aiAnalysis, deleted, interval := map[], map[], [], ShortInterval;
      template := AssessmentTemplate;
    }

    /** storeAnalysisResult of database.go: the `ai_analysis` upsert, with its failure wrapped. */
    method StoreAnalysisResult(cveId: string, summary: string, now: Timestamp, dbError: Option<string>)
      returns (err: Option<string>)
      modifies this
      ensures dbError.Some? ==> err == Some(StoreFailure(dbError.value)) && aiAnalysis == old(aiAnalysis)
      ensures dbError.None? ==> err.None? && aiAnalysis == UpsertSummary(old(aiAnalysis), cveId, summary, now)
      ensures cves == old(cves) && analysisData == old(analysisData) && deleted == old(deleted) && interval == old(interval)
    {
      if dbError.Some? {
        return Some(StoreFailure(dbError.value));
      }
      aiAnalysis := UpsertSummary(aiAnalysis, cveId, summary, now);
      return None;
    }

    /** The body of the message loop of processMessages for one message. */
    method ProcessMessage(m: Message, a: Answers) returns (fate: Fate)
      modifies this
      ensures fate == SqsFate(cves, m, a)
      ensures cves == old(cves)
      ensures State() == SqsStep(old(State()), cves, m, a)
    {
      var prompt := Generate(template, cves, m.body, a.promptQueryError);
      if !prompt.Built? {
        return Skipped(PromptGeneration);
      }
      if a.llm.Err? {
        return Skipped(LlmCall);
      }
      var err := StoreAnalysisResult(m.body, a.llm.value, a.now, a.storeError);
      if err.Some? {
        return Skipped(AnalysisStore);
      }
      if a.deleteError.None? {
        deleted := deleted + [m.receiptHandle];
      }
      return Completed;
    }

    /** One tick of processMessages. */
    method Tick(received: Result<seq<Message>>, answers: nat -> Answers)
      modifies this
      ensures cves == old(cves)
      ensures State() == AfterSqsTick(old(State()), cves, received, answers)
    {
      if received.Err? {
        return;
      }
      var msgs := received.value;
      if |msgs| == 0 {
        interval := DefaultInterval;
        return;
      }
      ghost var start := State();
      for i := 0 to |msgs|
        invariant cves == old(cves)
        invariant State() == SqsBatch(start, cves, msgs[..i], answers)
      {
        var _ := ProcessMessage(msgs[i], answers(i));
        assert msgs[..i + 1][..i] == msgs[..i];
      }
      assert msgs[..|msgs|] == msgs;
      interval := ShortInterval;
    }
  }
}
