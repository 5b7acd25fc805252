/**
 * The per-message orchestration of backend/internal/analyzer/analyzer.go:
 * each queue message names a CVE and runs through Exploit-DB collection,
 * GitHub collection, prompt generation, the LLM call, reply parsing and the
 * analysis store; whether the message is deleted (acknowledged) and how the
 * polling ticker is reset are decided by the outcomes of those stages.
 */
module BackendAnalyzer {
  import opened Wrappers
  import opened Nvd
  import opened CveStore
  import opened Poc
  import opened Datastore
  import opened Prompt

  /** The ticker periods, in seconds. */
  const ShortInterval: nat := 10
  const DefaultInterval: nat := 60

  /** A queue message: its body is the CVE id. */
  datatype Message = Message(body: string, receiptHandle: string)

  /** What the outside world answers while one message is processed. */
  datatype Answers = Answers(
    exploitDb: Result<seq<PoCData>>,
    exploitDbInsertError: nat -> Option<string>,
    gitHub: Result<seq<PoCData>>,
    gitHubInsertError: nat -> Option<string>,
    promptQueryError: Option<string>,
    llm: Result<string>,
    decode: string -> Result<Analysis>,
    storeError: Option<string>,
    deleteError: Option<string>,
    now: Timestamp)

  /** The stages whose failure abandons a message. */
  datatype Stage = ExploitDbFetch | PromptGeneration | LlmCall | ResponseParse | AnalysisStore

  /**
   * How a message ends: abandoned at a stage (left on the queue for
   * redelivery), dropped because its CVE has no row (deleted), or completed
   * (deleted after its analysis was stored).
   */
  datatype Fate = Abandoned(at: Stage) | Dropped | Completed

  /** The fates after which DeleteMessage is called. */
  predicate Acked(f: Fate) { f.Dropped? || f.Completed? }

  /** The fate of a message, decided stage by stage. */
  function FateOf(cves: map<string, CveRow>, m: Message, a: Answers): Fate {
    if a.exploitDb.Err? then Abandoned(ExploitDbFetch)
    else if a.promptQueryError.Some? then Abandoned(PromptGeneration)
    else if m.body !in cves then Dropped
    else if a.llm.Err? then Abandoned(LlmCall)
    else if ParseResponse(a.llm.value, a.decode).Err? then Abandoned(ResponseParse)
    else if a.storeError.Some? then Abandoned(AnalysisStore)
    else Completed
  }

  /** The state the processing of messages changes. */
  datatype World = World(
    pocData: map<string, PoCData>, analysisData: map<string, AnalysisRow>,
    deleted: seq<string>, interval: nat)

  /** The `poc_data` table after the Exploit-DB and GitHub stages of one message. */
  function PocAfter(rows: map<string, PoCData>, a: Answers): map<string, PoCData> {
    if a.exploitDb.Err? then rows
    else
      var afterExploitDb :=
        if |a.exploitDb.value| == 0 then rows
        else StoredPocs(rows, a.exploitDb.value, a.exploitDbInsertError);
      if a.gitHub.Err? then afterExploitDb
      else StoredPocs(afterExploitDb, a.gitHub.value, a.gitHubInsertError)
  }

  /** The state after one message. */
  function Step(w: World, cves: map<string, CveRow>, m: Message, a: Answers): (r: World)
    ensures r.deleted == w.deleted + (if Acked(FateOf(cves, m, a)) && a.deleteError.None? then [m.receiptHandle] else [])
    ensures r.interval == if FateOf(cves, m, a).Completed? then ShortInterval else w.interval
    ensures FateOf(cves, m, a).Completed? ==>
              r.analysisData == UpsertAnalysis(w.analysisData, m.body, ParseResponse(a.llm.value, a.decode).value, a.now)
    ensures !FateOf(cves, m, a).Completed? ==> r.analysisData == w.analysisData
  {
    var fate := FateOf(cves, m, a);
    var analysisData :=
      if fate.Completed? then UpsertAnalysis(w.analysisData, m.body, ParseResponse(a.llm.value, a.decode).value, a.now)
      else w.analysisData;
    var deleted := if Acked(fate) && a.deleteError.None? then w.deleted + [m.receiptHandle] else w.deleted;
    var interval := if fate.Completed? then ShortInterval else w.interval;
    World(PocAfter(w.pocData, a), analysisData, deleted, interval)
  }

  /** The state after the messages of a batch, in order; `answers(i)` answers for the i-th. */
  function Batch(w: World, cves: map<string, CveRow>, msgs: seq<Message>, answers: nat -> Answers): World
    decreases |msgs|
  {
    if |msgs| == 0 then w
    else Step(Batch(w, cves, msgs[..|msgs| - 1], answers), cves, msgs[|msgs| - 1], answers(|msgs| - 1))
  }

  /** One tick: a receive error changes nothing, an empty batch sets the ticker to 60 s. */
  function AfterTick(w: World, cves: map<string, CveRow>, received: Result<seq<Message>>, answers: nat -> Answers)
    : (r: World)
    ensures received.Err? ==> r == w
    ensures received == Ok([]) ==> r == w.(interval := DefaultInterval)
  {
    if received.Err? then w
    else if |received.value| == 0 then w.(interval := DefaultInterval)
    else Batch(w, cves, received.value, answers)
  }

  // ---------------------------------------------------------------------
  // Properties of one message
  // ---------------------------------------------------------------------

  /** A message is completed exactly when every stage from the prompt to the store succeeds. */
  lemma CompletedIffAllStagesSucceed(cves: map<string, CveRow>, m: Message, a: Answers)
    ensures FateOf(cves, m, a).Completed? <==>
              a.exploitDb.Ok? && a.promptQueryError.None? && m.body in cves && a.llm.Ok? &&
              ParseResponse(a.llm.value, a.decode).Ok? && a.storeError.None?
  {
  }

  /**
   * A message whose CVE has no row is dropped (deleted); any other prompt
   * error leaves it on the queue.
   */
  lemma DroppedIffNoRow(cves: map<string, CveRow>, m: Message, a: Answers)
    ensures FateOf(cves, m, a).Dropped? <==> a.exploitDb.Ok? && a.promptQueryError.None? && m.body !in cves
    ensures a.exploitDb.Ok? && a.promptQueryError.Some? ==> FateOf(cves, m, a) == Abandoned(PromptGeneration)
  {
  }

  /** An Exploit-DB fetch error abandons the message before any table, the queue or the ticker is touched. */
  lemma ExploitDbErrorAbandons(w: World, cves: map<string, CveRow>, m: Message, a: Answers)
    requires a.exploitDb.Err?
    ensures FateOf(cves, m, a) == Abandoned(ExploitDbFetch)
    ensures Step(w, cves, m, a) == w
  {
  }

  /**
   * The PoC stages never decide the fate: a GitHub fetch failure and failed
   * PoC inserts are only logged, and processing goes on to the prompt.
   */
  lemma PocStagesDoNotDecide(cves: map<string, CveRow>, m: Message, a: Answers,
                             gitHub: Result<seq<PoCData>>, e1: nat -> Option<string>, e2: nat -> Option<string>)
    ensures FateOf(cves, m, a) ==
            FateOf(cves, m, a.(gitHub := gitHub, exploitDbInsertError := e1, gitHubInsertError := e2))
  {
  }

  /** An empty Exploit-DB result stores nothing from Exploit-DB. */
  lemma EmptyExploitDbStoresNothing(rows: map<string, PoCData>, a: Answers)
    requires a.exploitDb == Ok([])
    ensures PocAfter(rows, a) == if a.gitHub.Ok? then StoredPocs(rows, a.gitHub.value, a.gitHubInsertError) else rows
  {
  }

  /** Processing a message never removes a stored PoC or analysis. */
  lemma StepKeepsRows(w: World, cves: map<string, CveRow>, m: Message, a: Answers)
    ensures w.pocData.Keys <= Step(w, cves, m, a).pocData.Keys
    ensures w.analysisData.Keys <= Step(w, cves, m, a).analysisData.Keys
  {
    var afterExploitDb :=
      if a.exploitDb.Err? || |a.exploitDb.value| == 0 then w.pocData
      else StoredPocs(w.pocData, a.exploitDb.value, a.exploitDbInsertError);
    if a.exploitDb.Ok? && |a.exploitDb.value| > 0 {
      var ps := a.exploitDb.value;
      InsertAllKeys(w.pocData, ps[..FirstFailure(a.exploitDbInsertError, |ps|)]);
    }
    if a.exploitDb.Ok? && a.gitHub.Ok? {
      var ps := a.gitHub.value;
      InsertAllKeys(afterExploitDb, ps[..FirstFailure(a.gitHubInsertError, |ps|)]);
    }
  }

  // ---------------------------------------------------------------------
  // Properties of a batch
  // ---------------------------------------------------------------------

  /**
   * After a batch the ticker is at 10 s when some message was completed and
   * otherwise where it was before the batch, 60 s after an empty one included.
   */
  lemma {:induction false} BatchInterval(w: World, cves: map<string, CveRow>, msgs: seq<Message>, answers: nat -> Answers)
    ensures (exists i :: 0 <= i < |msgs| && FateOf(cves, msgs[i], answers(i)).Completed?) ==>
              Batch(w, cves, msgs, answers).interval == ShortInterval
    ensures (forall i :: 0 <= i < |msgs| ==> !FateOf(cves, msgs[i], answers(i)).Completed?) ==>
              Batch(w, cves, msgs, answers).interval == w.interval
    decreases |msgs|
  {
    if |msgs| > 0 {
      var init := msgs[..|msgs| - 1];
      BatchInterval(w, cves, init, answers);
      assert forall i :: 0 <= i < |init| ==> init[i] == msgs[i];
    }
  }

  /**
   * A batch only appends to the deleted handles, and every handle it
   * appends belongs to a message of the batch that was dropped or completed.
   */
  lemma {:induction false} BatchDeletesOnlyAcked(w: World, cves: map<string, CveRow>, msgs: seq<Message>,
                                                 answers: nat -> Answers)
    ensures w.deleted <= Batch(w, cves, msgs, answers).deleted
    ensures forall k :: |w.deleted| <= k < |Batch(w, cves, msgs, answers).deleted| ==>
              exists i :: 0 <= i < |msgs| && msgs[i].receiptHandle == Batch(w, cves, msgs, answers).deleted[k] &&
                          Acked(FateOf(cves, msgs[i], answers(i)))
    decreases |msgs|
  {
    if |msgs| > 0 {
      var n := |msgs| - 1;
      var init := msgs[..n];
      BatchDeletesOnlyAcked(w, cves, init, answers);
      var before := Batch(w, cves, init, answers);
      var after := Batch(w, cves, msgs, answers);
      assert after == Step(before, cves, msgs[n], answers(n));
      forall k | |w.deleted| <= k < |after.deleted|
        ensures exists i :: 0 <= i < |msgs| && msgs[i].receiptHandle == after.deleted[k] &&
                            Acked(FateOf(cves, msgs[i], answers(i)))
      {
        if k < |before.deleted| {
          var i :| 0 <= i < |init| && init[i].receiptHandle == before.deleted[k] &&
                   Acked(FateOf(cves, init[i], answers(i)));
          assert msgs[i] == init[i];
        } else {
          assert after.deleted[k] == msgs[n].receiptHandle;
        }
      }
    }
  }

  // ---------------------------------------------------------------------
  // countFiles
  // ---------------------------------------------------------------------

  datatype PoCFile = PoCFile(path: string, fileUrl: string, fileExt: string)

  /** A PoC repository with the files found in it. */
  datatype GroupedPoC = GroupedPoC(cveId: string, source: string, url: string, files: seq<PoCFile>)

  /** The number of files over all groups. */
  function SumFiles(groups: seq<GroupedPoC>): nat
    decreases |groups|
  {
    if |groups| == 0 then 0 else SumFiles(groups[..|groups| - 1]) + |groups[|groups| - 1].files|
  }

  /** The count of two lists of groups together is the sum of their counts. */
  lemma {:induction false} SumFilesAppend(a: seq<GroupedPoC>, b: seq<GroupedPoC>)
    ensures SumFiles(a + b) == SumFiles(a) + SumFiles(b)
    decreases |b|
  {
    if |b| > 0 {
      assert (a + b)[..|a + b| - 1] == a + b[..|b| - 1];
      SumFilesAppend(a, b[..|b| - 1]);
    } else {
      assert a + b == a;
    }
  }

  /** Every group's files are part of the count. */
  lemma {:induction false} SumFilesCountsEachGroup(groups: seq<GroupedPoC>, i: nat)
    requires i < |groups|
    ensures |groups[i].files| <= SumFiles(groups)
    decreases |groups|
  {
    if i < |groups| - 1 {
      SumFilesCountsEachGroup(groups[..|groups| - 1], i);
    }
  }

  /** countFiles: the files of all groups, counted group by group. */
  method CountFiles(grouped: seq<GroupedPoC>) returns (total: nat)
    ensures total == SumFiles(grouped)
  {
    total := 0;
    for i := 0 to |grouped|
      invariant total == SumFiles(grouped[..i])
    {
      assert grouped[..i + 1][..i] == grouped[..i];
      total := total + |grouped[i].files|;
    }
    assert grouped[..|grouped|] == grouped;
  }

  // ---------------------------------------------------------------------
  // The analyzer
  // ---------------------------------------------------------------------

  /** The analyzer: its tables, the `cve_data` rows it reads, the queue deletions and the ticker. */
  class Analyzer {
    const db: AnalyzerStore
    /** The template generatePrompt renders. */
    const template: Template
    var cves: map<string, CveRow>
    var deleted: seq<string>
    var interval: nat

    /** The part of the state that message processing changes. */
    function State(): World
      reads this, db
    {
      World(db.pocData, db.analysisData, deleted, interval)
    }

    /** A new analyzer polls every 10 s and has deleted nothing. */
    constructor (db: AnalyzerStore, cves: map<string, CveRow>)
      ensures this.db == db && template == AnalysisTemplate
      ensures this.cves == cves && deleted == [] && interval == ShortInterval
    {
      this.db := db;
      template := AnalysisTemplate;
      this.cves := cves;
      deleted := [];
      interval := ShortInterval;
    }

    /**
     * Steps 1 and 2 after a successful Exploit-DB fetch: store its PoCs when
     * there are any, then the GitHub PoCs when that fetch succeeded; insert
     * failures are only logged.
     */
    method CollectPocs(a: Answers)
      requires a.exploitDb.Ok?
      modifies db
      ensures db.pocData == PocAfter(old(db.pocData), a)
      ensures db.analysisData == old(db.analysisData)
      ensures db.cweData == old(db.cweData) && db.cweInfo == old(db.cweInfo)
    {
      if |a.exploitDb.value| > 0 {
        var _ := db.StorePoCData(a.exploitDb.value, a.exploitDbInsertError);
      }
      if a.gitHub.Ok? {
        var _ := db.StorePoCData(a.gitHub.value, a.gitHubInsertError);
      }
    }

    /** The body of the message loop of Run for one message. */
    method ProcessMessage(m: Message, a: Answers) returns (fate: Fate)
      modifies this, db
      ensures fate == FateOf(cves, m, a)
      ensures cves == old(cves)
      ensures db.cweData == old(db.cweData) && db.cweInfo == old(db.cweInfo)
      ensures State() == Step(old(State()), cves, m, a)
    {
      if a.exploitDb.Err? {
        return Abandoned(ExploitDbFetch);
      }
      CollectPocs(a);
      // 3. Prompt
      var prompt := Generate(template, cves, m.body, a.promptQueryError);
      if prompt.NoRows? {
        if a.deleteError.None? {
          deleted := deleted + [m.receiptHandle];
        }
        return Dropped;
      }
      if prompt.QueryFailed? {
        return Abandoned(PromptGeneration);
      }
      // 4. LLM
      if a.llm.Err? {
        return Abandoned(LlmCall);
      }
      // 5. Parse and store
      var parsed := ParseResponse(a.llm.value, a.decode);
      if parsed.Err? {
        return Abandoned(ResponseParse);
      }
      var err := db.StoreAnalysisResult(m.body, parsed.value, a.now, a.storeError);
      if err.Some? {
        return Abandoned(AnalysisStore);
      }
      // 6. Delete
      if a.deleteError.None? {
        deleted := deleted + [m.receiptHandle];
      }
      interval := ShortInterval;
      return Completed;
    }

    /** One tick of Run: receive a batch and process its messages in order. */
    method Tick(received: Result<seq<Message>>, answers: nat -> Answers)
      modifies this, db
      ensures cves == old(cves)
      ensures State() == AfterTick(old(State()), cves, received, answers)
    {
      if received.Err? {
        return;
      }
      var msgs := received.value;
      if |msgs| == 0 {
        interval := DefaultInterval;
        return;
      }
      ghost var start := State();
      for i := 0 to |msgs|
        invariant cves == old(cves)
        invariant State() == Batch(start, cves, msgs[..i], answers)
      {
        var _ := ProcessMessage(msgs[i], answers(i));
        assert msgs[..i + 1][..i] == msgs[..i];
      }
      assert msgs[..|msgs|] == msgs;
    }
  }
}
