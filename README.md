# WasabiBucket CVE pipeline, modelled in Dafny

WasabiBucket collects CVE records from the NVD 2.0 API and enriches them for display.

- **Collector.** It pages through a publication window and upserts each record into the PostgreSQL table `cve_data`. It publishes the ids of changed, non-"Received" records to an SQS queue.
- **Analyzer.** It takes CVE ids off the queue and enriches each one:
  - it collects proof-of-concept files from a local Exploit-DB CSV and from GitHub code search;
  - it builds a prompt from the stored row and sends it to an LLM;
  - it extracts the fenced JSON answer from the reply and stores the analysis;
  - only then does it acknowledge (delete) the message.
- **Lambda handlers.** Three handlers serve the table to the web front end: a paginated, searchable, sortable list; an older fixed list; and a detail view.

This project models that core as Dafny modules, one per file:

| file | module | what it models |
|---|---|---|
| `nvd.dfy` | `Nvd` | the NVD record, the column extractors (`getDescription`, the CVSS getters, `getAffectedProducts`, `getCWEIDs`) and `CustomTime.UnmarshalJSON` |
| `cve_store.dfy` | `CveStore` | the `cve_data` table as a class over a map; the change-detecting upsert of `internal/collector/collector.go` with its `VARCHAR(n)` casts; the overwrite upsert of `internal/collector/database.go` and `main.go` |
| `collector.dfy` | `Collector` | `fetchCVEData` (three attempts, status and decode errors), the store-and-publish step, the paging loop over one window, and the ticker of `Run` |
| `legacy_main.dfy` | `LegacyMain` | the paging loop of `main.go` over its hard-coded window |
| `poc.dfy` | `Poc` | `fetchExploitDBPoC`, `fetchGitHubPoC`, `extractNextURL`, `shouldThrottle` and `fetchGitHubFileContent` |
| `datastore.dfy` | `Datastore` | the analyzer's tables `poc_data`, `cwe_data`, `cwe_info` and `analysis_data`, and their store functions |
| `cwe.dfy` | `Cwe` | `getCWEInfo`, `fetchCWEInfo`, `isWeaknessType` and `extractID` |
| `cve_read.dfy` | `CveRead` | `getCVEInfo` |
| `prompt.dfy` | `Prompt` | the three prompt generators and `parseResponse` |
| `analyzer.dfy` | `BackendAnalyzer` | the per-message pipeline of `backend/internal/analyzer/analyzer.go` and `countFiles` |
| `analyzer_legacy.dfy` | `LegacyAnalyzer` | the older loops of `internal/analyzer/analyzer.go` and `internal/analyzer/sqs.go`, and the `ai_analysis` upsert |
| `api_list.dfy` | `ApiList` | the `api/getCVEList` handler |
| `backend_list.dfy` | `BackendList` | the `backend/getCVEList` handler |
| `api_detail.dfy` | `ApiDetail` | the `api/getCVEDetail` handler |
| `config.dfy` | `Config` | `Config.Load`, `getEnv`, `getEnvBool` and `validate` |
| `wrappers.dfy`, `text.dfy` | `Wrappers`, `Text` | `Option`/`Result`, and the Go string functions the core relies on (`strings.Index`, `Split`, `Join`, `TrimSpace`, `ToUpper`, `TrimPrefix`, `strconv`, `url.QueryEscape`) |

The outside world enters only through parameters:

- The network, the database's answers and errors, the clock, the file system and the LLM are parameters.
- Most of them are functions from a request to its answer.
- A run is therefore a function of those answers.
- The imperative parts of the source are `Run` loops, `for` loops over pages, rows and items, and objects whose fields are assigned. They stay imperative:
  - classes hold the tables and ticker state;
  - methods loop with invariants;
  - each method is proved equal to a recursive specification function;
  - the properties are proved as lemmas about that function.

## Model

| member | source | states |
|---|---|---|
| Nvd.FirstEnglish | internal/collector/collector.go:299-305 | the description is the value of the first entry whose language is "en", and "" when no entry is in English |
| Nvd.Primary | internal/collector/collector.go:308-347 | the CVSS getters read element 0 of the metric list, and "" and 0 when the list is empty |
| Nvd.AffectedProductsMember | internal/collector/collector.go:350-359 | a product is listed exactly when some cpeMatch of some node of some configuration carries it as its criteria |
| Nvd.CweIdsMember | internal/collector/collector.go:370-377 | a CWE id is listed exactly when some weakness carries it as a description value |
| Nvd.FlattenAppend | internal/collector/collector.go:350-359 | the nested append loops keep the order of the outer list: flattening distributes over concatenation |
| Nvd.StripQuotes | main.go:33-41 | the text handed to time.Parse is the token without its first and last byte; Go's slice needs at least two bytes |
| Nvd.StripQuotesOfQuoted | main.go:33-41 | a quoted JSON string loses exactly its two quotes |
| CveStore.Truncate | internal/collector/collector.go:219-229 | an explicit cast to VARCHAR(n) keeps a prefix of at most n characters, and leaves a string that fits unchanged |
| CveStore.CastKey | internal/collector/collector.go:219 | the stored key has at most 20 characters and is the id itself when the id fits |
| CveStore.CastColumns | internal/collector/collector.go:224-229 | after the casts every string column fits its width; only the four cast columns can change, each to a prefix of itself; columns that already fit are kept |
| CveStore.TrackedDiffersIffUnequal | internal/collector/collector.go:257-273 | the 13 IS DISTINCT FROM tests together hold exactly when the stored columns differ from the new ones |
| CveStore.Upsert | internal/collector/collector.go:214-296 | inserts a new key stamped now and reports a change; for an existing key it replaces the columns and re-stamps and reports a change only if some tracked column differs; an equal row keeps its stamp, and reports a change only if that stamp equals now; other rows are untouched |
| CveStore.Overwrite | internal/collector/database.go:11-51 | replaces the columns of the key and keeps its existing updated_at; a new row gets `initial`, the column default that the INSERT leaves to the schema; other rows are untouched |
| CveStore.UpsertsAgreeOnColumns | internal/collector/collector.go:243-256 | both upserts leave the same keys and the same columns; they differ only in updated_at |
| CveStore.UpsertIdempotent | internal/collector/collector.go:257-280 | storing the same columns again at a later time leaves the table as it was and reports no change |
| CveStore.ReorderedProductsAreAChange | internal/collector/collector.go:269 | arrays are compared element by element in order, so a reordered product list alone re-stamps the row and reports a change |
| CveStore.LastModifiedAloneIsAChange | internal/collector/collector.go:260 | a new last_modified_date alone re-stamps the row and reports a change |
| CveStore.CveTable.constructor | internal/collector/collector.go:214 | the table starts empty |
| CveStore.CveTable.Store | internal/collector/collector.go:284-296 | a database error reports false and that error and leaves the table; otherwise the table and the changed flag are those of Upsert on the cast key and columns |
| CveStore.CveTable.StoreOverwrite | main.go:184-224 | the error is the database's; a failed statement leaves the table; otherwise the table is Overwrite of the record's columns |
| Collector.AttemptsFrom | internal/collector/collector.go:183-189 | the retry loop goes on past transport errors and stops at the first response or after the third attempt |
| Collector.Attempts | internal/collector/collector.go:183-189 | fetchCVEData makes 1 to 3 attempts; every attempt before the last one failed in transport; fewer than 3 means the last one got a response |
| Collector.Outcome | internal/collector/collector.go:191-211 | a page comes back exactly when the last attempt got status 200 and a body that decodes, and it is that decoded page |
| Collector.Fetched | internal/collector/collector.go:165-211 | a returned page is the decoded 200 answer of the last attempt made for the window's query |
| Collector.FetchCveData | internal/collector/collector.go:165-211 | the loop makes exactly Attempts attempts and returns Fetched's page or error |
| Collector.StatusErrorNotRetried | internal/collector/collector.go:196-198 | a first answer with a status other than 200 is reported at once, without a retry |
| Collector.TransportErrorsExhaustRetries | internal/collector/collector.go:183-193 | three transport errors in a row use up all three attempts and report "[Response] " followed by the third error |
| Collector.Step | internal/collector/collector.go:127-146 | a store error skips the record; otherwise the table is the upsert's, the update count grows iff the row changed, and the id is published iff it changed, its status is not "Received" and the send succeeded |
| Collector.IngestPagePublishRule | internal/collector/collector.go:127-146 | over a page, publishing only appends; it never outruns the update count; every published id is a record of the page whose status is not "Received" |
| Collector.IngestPageUnchangedIsQuiet | internal/collector/collector.go:127-146 | a page whose records all equal their stored rows changes neither the table nor the queue nor the count |
| Collector.CollectFromPublishRule | internal/collector/collector.go:116-157 | over a whole window, publishing only appends and never outruns updateResults; every id published is that of a record whose status is not "Received", on a page of the window fetched with status 200 at or after the starting index |
| Collector.Collector.constructor | internal/collector/collector.go:77-82 | a new collector has published nothing and is waiting for its first tick, 10 seconds away |
| Collector.Collector.IngestPageInto | internal/collector/collector.go:127-147 | the record loop leaves the table, the published ids and the update count exactly as the specification fold over the page says |
| Collector.EmptyWindowCollectsNothing | internal/collector/collector.go:149-153 | NVD's empty answer to a window with no CVEs ends the loop at once (0 >= 0) and changes nothing; the termination assumption admits it |
| Collector.Collector.CollectWindow | internal/collector/collector.go:110-157 | the paging loop ends with the state of the paging specification: it stops at a fetch error or once startIndex reaches totalResults |
| Collector.Collector.Tick | internal/collector/collector.go:89-157 | the first tick switches the ticker to interval hours; every tick collects the last 60 days up to now |
| LegacyMain.LegacyPageStoresEveryGoodRecord | main.go:163-169 | after a page, the table's keys are the old keys plus exactly the ids of the records inserted without error |
| LegacyMain.LegacyPageKeepsRows | main.go:163-169 | a page of inserts never removes a row |
| LegacyMain.LegacyFromKeepsRows | main.go:156-179 | a whole run of main never removes a row, whether it stops at a fetch error or at the total |
| LegacyMain.InsertPage | main.go:163-169 | the insert loop leaves the table as the specification fold over the page says |
| LegacyMain.RunLegacy | main.go:144-179 | the paging loop over the fixed window leaves the table as the paging specification says |
| Poc.ExploitDbEntries | backend/internal/analyzer/poc.go:36-75 | there are at most as many entries as CSV records, and each is an Exploit-DB entry of the requested CVE |
| Poc.ExploitDbEntriesShape | backend/internal/analyzer/poc.go:36-75 | one entry per matching row; each is an Exploit-DB entry for the CVE whose repo and file URLs are built from that row's id and path |
| Poc.HeaderIgnored | backend/internal/analyzer/poc.go:37-39 | the first record is skipped whatever it holds |
| Poc.AnyTrimmedIs | backend/internal/analyzer/poc.go:41-48 | the scan finds a match exactly when some ';'-separated code, trimmed, equals the CVE id |
| Poc.FetchExploitDbPoC | backend/internal/analyzer/poc.go:19-78 | an open or read failure gives its wrapped error; otherwise the entries are those of the matching rows in order, with the retry marker for an unreadable file |
| Poc.Ext | backend/internal/analyzer/poc.go:130 | filepath.Ext: the suffix from the last '.' of the final path element, or "" when that element has no '.' |
| Poc.FileContent | backend/internal/analyzer/poc.go:184-235 | 403 with no requests remaining gives the rate-limit marker as content; another non-200 status is an error naming it; an empty download_url is an error; a successful download gives the raw body |
| Poc.Bracketed | backend/internal/analyzer/poc.go:161-165 | the text strictly between the first '<' and the first '>', present exactly when '<' occurs and '>' comes after the character that follows it |
| Poc.NextUrlIn | backend/internal/analyzer/poc.go:158-168 | the URL of the first part naming rel="next" that has a bracketed URL, or "" when no part qualifies |
| Poc.ExtractNextUrlOfNext | backend/internal/analyzer/poc.go:157-169 | a Link header of the form <url>; rel="next" gives back url |
| Poc.Saturate | backend/internal/analyzer/poc.go:179 | time.Until's duration is clamped to the int64 range and is exact inside it |
| Poc.ShouldThrottle | backend/internal/analyzer/poc.go:171-182 | no throttle (and no wait) exactly when the remaining count parses and is above 1; otherwise wait until the reset time, or 30 seconds if the reset time does not parse |
| Poc.NoThrottleAboveOne | backend/internal/analyzer/poc.go:174 | a remaining count of 2 or more is never throttled |
| Poc.ThrottleAtOneOrLess | backend/internal/analyzer/poc.go:172-174 | a count of 0 or 1, or a missing header, is throttled |
| Poc.Accepted | backend/internal/analyzer/poc.go:130-138 | a search item is kept exactly when its extension is allowed and its content was fetched and is non-empty, and the kept content is what was fetched |
| Poc.Acceptances | backend/internal/analyzer/poc.go:125-149 | the verdict on each item of a page, one per item |
| Poc.Picks | backend/internal/analyzer/poc.go:125-149 | a page adds at most the room left under maxFiles, all GitHub entries of the CVE |
| Poc.PicksFromItems | backend/internal/analyzer/poc.go:125-149 | every entry a page adds comes from an accepted item of that page, with that item's URLs and content |
| Poc.ThrottledRequestRetriesSameUrl | backend/internal/analyzer/poc.go:107-110 | a throttled answer re-requests the same URL and adds nothing |
| Poc.PickFromSearch | backend/internal/analyzer/poc.go:125-149 | each entry a parsed answer adds is a GitHub entry of the CVE with non-empty content, built from an item of that answer whose extension is allowed and whose download was that content |
| Poc.PicksExtend | backend/internal/analyzer/poc.go:125-152 | a run that extends a page's picks added to what was held also extends what was held |
| Poc.GitHubFromBounds | backend/internal/analyzer/poc.go:92-152 | the search keeps what it had and never holds more than 10 files; every entry it adds is a GitHub entry of the CVE with non-empty content, from an item of some parsed answer whose extension is allowed and whose download was that content |
| Poc.ParsedExtends | backend/internal/analyzer/poc.go:113-152 | after a parsed answer, the rest of the search adds only such entries |
| Poc.CollectItems | backend/internal/analyzer/poc.go:125-149 | the item loop appends exactly the page's picks under the remaining room |
| Poc.FetchGitHubPoC | backend/internal/analyzer/poc.go:80-155 | the search loop returns the results and error of the search specification started at the query URL: at most 10 files, each a GitHub entry of the CVE with non-empty content from an item of some parsed answer whose extension is allowed and whose download was that content |
| Datastore.InsertIfAbsent | backend/internal/analyzer/datastore.go:13-17 | ON CONFLICT (file_url) DO NOTHING: adds the file URL as a key, never changes an existing row, and stores the entry only under a new URL |
| Datastore.FirstFailure | backend/internal/analyzer/datastore.go:12-21 | the index of the first failing insert, or the count when none fails; all before it succeeded |
| Datastore.InsertAllKeys | backend/internal/analyzer/datastore.go:11-23 | after storing a list, the keys are the old keys plus its file URLs |
| Datastore.InsertAllKeepsRows | backend/internal/analyzer/datastore.go:16 | rows already present are never changed |
| Datastore.InsertAllFirstWins | backend/internal/analyzer/datastore.go:16 | for a new URL, the first entry of the list carrying it is the one stored |
| Datastore.InsertAllPresent | backend/internal/analyzer/datastore.go:16 | a list whose URLs are all stored changes nothing |
| Datastore.StoreTwiceIsStoreOnce | backend/internal/analyzer/datastore.go:11-23 | storing the same list twice is storing it once |
| Datastore.CweKey | backend/internal/analyzer/datastore.go:56 | the cwe_data key is "CWE-" followed by the id |
| Datastore.CweKeyInjective | backend/internal/analyzer/datastore.go:56 | distinct ids get distinct keys |
| Datastore.UpsertAnalysis | backend/internal/analyzer/datastore.go:98-123 | sets the analysis and updated_at of the CVE, keeps created_at of an existing row, stamps created_at of a new one, and leaves other rows alone |
| Datastore.LastAnalysisWins | backend/internal/analyzer/datastore.go:106-114 | two stores keep the second analysis and the first creation time |
| Datastore.AnalyzerStore.constructor | backend/internal/analyzer/datastore.go:11 | the four tables start empty |
| Datastore.AnalyzerStore.StorePoCData | backend/internal/analyzer/datastore.go:11-23 | inserts in order up to the first failure, which is reported with its file URL; nil error iff every insert succeeded; other tables untouched |
| Datastore.AnalyzerStore.StoreCweData | backend/internal/analyzer/datastore.go:25-68 | nil data is the error "CWEData is nil"; a database error is wrapped and changes nothing; otherwise the row under "CWE-"+id is replaced and stamped |
| Datastore.AnalyzerStore.StoreCweInfo | backend/internal/analyzer/datastore.go:71-96 | nil info is the error "CWEInfo is nil"; a database error is wrapped and changes nothing; otherwise the row under the id is replaced and stamped |
| Datastore.AnalyzerStore.StoreAnalysisResult | backend/internal/analyzer/datastore.go:98-123 | the database error is returned as is; on success the analysis table is UpsertAnalysis of the old one |
| Cwe.IsWeaknessType | backend/internal/analyzer/cwe.go:93-97 | a type is a weakness type exactly when "weakness" occurs in it somewhere, case-sensitively |
| Cwe.FetchCweInfoAsWritten | backend/internal/analyzer/cwe.go:43-91 | fetchCWEInfo as written: it panics only on an empty meta list; a success needs a weakness-type first meta and returns the first weakness of the detail answer |
| Cwe.GetCweInfoAsWritten | backend/internal/analyzer/cwe.go:16-41 | as written, a found row reads back with summary_ko in the id field and an empty Korean summary |
| Cwe.MisScanLosesSummary | backend/internal/analyzer/cwe.go:26-31 | a stored CWE info whose Korean summary is not its id does not read back as stored |
| Cwe.GetCweInfo | backend/internal/analyzer/cwe.go:16-41 | a query error is wrapped; a missing row is "not found" without an error; a found row reads back field for field |
| Cwe.StoredCweInfoReadsBack | backend/internal/analyzer/cwe.go:16-41 | the corrected read returns exactly the info storeCWEInfo stored |
| Cwe.WeaknessTypeInContext | backend/internal/analyzer/cwe.go:93-97 | any type containing "weakness", whatever surrounds it, is a weakness type |
| Cwe.CapitalisedWeaknessRefused | backend/internal/analyzer/cwe.go:96 | the test is case-sensitive: a type without a lower-case 'w' (such as "Weakness") is refused |
| Cwe.ExtractId | backend/internal/analyzer/cwe.go:99-101 | the upper-cased input without its "CWE-" prefix, or the upper-cased input when it has none |
| Cwe.ExtractIdOfKey | backend/internal/analyzer/cwe.go:99-101 | any casing of "CWE-" in front of an id is removed |
| Cwe.ExtractIdOfCweKey | backend/internal/analyzer/cwe.go:99-101 | extractID undoes the "CWE-" key of a numeric id |
| Cwe.DetailStep | backend/internal/analyzer/cwe.go:80-90 | the detail answer succeeds exactly with a non-empty Weaknesses list, giving its first entry; an empty list is "no detailed info found for CWE-" + id |
| Cwe.EmptyMetasPanic | backend/internal/analyzer/cwe.go:63-64 | as written, an empty meta list panics on the error message's metas[0] |
| Cwe.FetchCweInfo | backend/internal/analyzer/cwe.go:43-91 | a success means the first meta is a weakness type and the detail list is non-empty, and the result is its first entry; an empty meta list is the not-a-weakness error |
| Cwe.FetchCweInfoAgrees | backend/internal/analyzer/cwe.go:43-91 | the source panics exactly on an empty meta list and otherwise returns what the corrected function returns |
| CveRead.FromRow | backend/internal/analyzer/cve.go:32-52 | every field of the record is the stored column of that name, under the queried id |
| CveRead.GetCveInfo | backend/internal/analyzer/cve.go:13-55 | a query error is wrapped; a missing row is "not found in database"; otherwise the row is returned field for field |
| CveRead.StoredCveReadsBack | backend/internal/analyzer/cve.go:13-55 | a record stored by the collector reads back with its extracted columns |
| CveRead.ReadBackDescription | backend/internal/analyzer/cve.go:34 | the description read back is the record's first English description |
| Prompt.FormatTenths | backend/internal/analyzer/llm.go:57 | "%.1f" of a score gives digits, a point and one digit |
| Prompt.FormatTenthsReadsBack | backend/internal/analyzer/llm.go:57 | reading the formatted score back gives the score |
| Prompt.CvssInfo | backend/internal/analyzer/llm.go:53-66 | the V3 block when V3 has a vector or a positive score, else the V4 block under the same test, else the fixed no-information text, and that text exactly when neither applies |
| Prompt.CvssInfoShowsChosenVersion | backend/internal/analyzer/llm.go:53-63 | the chosen block begins with its version's vector line and contains its score formatted to one decimal |
| Prompt.ProductsLine | backend/internal/analyzer/llm.go:68-73 | the joined products after their label, or the fixed no-products text |
| Prompt.ProductsLineLabelled | backend/internal/analyzer/llm.go:68-73 | the line starts with the label exactly when there are products |
| Prompt.RenderStartsWithId | backend/internal/analyzer/llm.go:75-112 | every prompt begins with its template's head, the CVE id and the text after it |
| Prompt.RenderEmbeds | backend/internal/analyzer/llm.go:75-112 | the description, the CVSS block, the products line and the joined CWE ids each appear between their template texts |
| Prompt.Generate | backend/internal/analyzer/llm.go:16-115 | a query error is returned; no row is the ErrNoRows outcome exactly when the id is missing; a built prompt is the template rendered from the stored row |
| Prompt.StoredCvePrompt | backend/internal/analyzer/llm.go:16-115 | the prompt for a CVE stored by the collector is the rendering of its extracted columns |
| Prompt.AssessmentPromptDoublesLabel | internal/analyzer/prompt.go:64-92 | with products, the assessment prompt carries the label twice in a row, because the template's own label precedes the labelled line |
| Prompt.ExtractJson | backend/internal/analyzer/llm.go:138-151 | no "```json" is the start error; the end error holds exactly when no "```" follows the first "```json"; otherwise the text between the first "```json" and the first "```" after it |
| Prompt.ParseResponse | backend/internal/analyzer/llm.go:138-170 | an extraction error is returned as is; otherwise the decoded body, or the decode error wrapped |
| Prompt.ExtractJsonRoundTrip | backend/internal/analyzer/llm.go:138-151 | fencing a body that holds no "```" and does not end in a backtick, after a prefix without "```json", gives the body back whatever follows |
| Prompt.TrailingBacktickShortensBody | backend/internal/analyzer/llm.go:147 | a body ending in a backtick loses it, since the closing search finds "```" one character early |
| Prompt.ParseResponseRoundTrip | backend/internal/analyzer/llm.go:138-170 | such a fenced reply parses to what the decoder makes of the body |
| BackendAnalyzer.Step | backend/internal/analyzer/analyzer.go:104-190 | the message is deleted iff it was dropped or completed and the delete succeeded; only a completed message stores its analysis and resets the ticker to 10 s |
| BackendAnalyzer.AfterTick | backend/internal/analyzer/analyzer.go:93-102 | a receive error changes nothing; an empty receive sets the ticker to 60 s |
| BackendAnalyzer.CompletedIffAllStagesSucceed | backend/internal/analyzer/analyzer.go:104-190 | a message completes exactly when the Exploit-DB fetch, the prompt query, the LLM call, the parse and the store all succeed and the CVE has a row |
| BackendAnalyzer.DroppedIffNoRow | backend/internal/analyzer/analyzer.go:142-155 | a message is dropped exactly when it gets to the prompt and its CVE has no row; any other prompt error abandons it |
| BackendAnalyzer.ExploitDbErrorAbandons | backend/internal/analyzer/analyzer.go:109-112 | an Exploit-DB fetch error abandons the message before anything is stored |
| BackendAnalyzer.PocStagesDoNotDecide | backend/internal/analyzer/analyzer.go:114-139 | the GitHub stage and the PoC store errors never change how a message ends |
| BackendAnalyzer.EmptyExploitDbStoresNothing | backend/internal/analyzer/analyzer.go:114-115 | an empty Exploit-DB result stores nothing from Exploit-DB |
| BackendAnalyzer.StepKeepsRows | backend/internal/analyzer/analyzer.go:104-190 | processing a message never removes a PoC or analysis row |
| BackendAnalyzer.BatchInterval | backend/internal/analyzer/analyzer.go:104-190 | after a batch, the ticker is 10 s if some message completed, and unchanged otherwise |
| BackendAnalyzer.BatchDeletesOnlyAcked | backend/internal/analyzer/analyzer.go:104-190 | a batch only appends deletions, each the receipt handle of a message that was dropped or completed |
| BackendAnalyzer.SumFilesCountsEachGroup | backend/internal/analyzer/analyzer.go:195-201 | the total counts at least the files of every group |
| BackendAnalyzer.SumFilesAppend | backend/internal/analyzer/analyzer.go:195-201 | the file count of two lists together is the sum of their counts |
| BackendAnalyzer.CountFiles | backend/internal/analyzer/analyzer.go:195-201 | countFiles returns the total number of files over all groups |
| BackendAnalyzer.Analyzer.constructor | backend/internal/analyzer/analyzer.go:84 | a new analyzer has deleted nothing and polls every 10 s |
| BackendAnalyzer.Analyzer.CollectPocs | backend/internal/analyzer/analyzer.go:113-139 | the PoC table afterwards is that of the Exploit-DB and GitHub stages, and the other tables are untouched |
| BackendAnalyzer.Analyzer.ProcessMessage | backend/internal/analyzer/analyzer.go:104-190 | returns the message's fate and leaves the state Step gives |
| BackendAnalyzer.Analyzer.Tick | backend/internal/analyzer/analyzer.go:92-190 | one tick leaves the state the tick specification gives for what was received |
| LegacyAnalyzer.UpsertSummary | internal/analyzer/database.go:8-21 | the ai_analysis upsert sets the summary and updated_at, keeps created_at of an existing row, and leaves other rows alone |
| LegacyAnalyzer.LastSummaryWins | internal/analyzer/database.go:12-14 | two stores keep the second summary and the first creation time |
| LegacyAnalyzer.RunStep | internal/analyzer/analyzer.go:105-151 | the message is deleted iff dropped or completed and the delete succeeded; only a completed message stores its analysis |
| LegacyAnalyzer.AfterRunTick | internal/analyzer/analyzer.go:97-155 | a receive error changes nothing; an empty receive sets 60 s; any non-empty batch sets 10 s |
| LegacyAnalyzer.SqsStep | internal/analyzer/sqs.go:31-60 | only a completed message stores its summary; the message is deleted iff completed and the delete succeeded |
| LegacyAnalyzer.AfterSqsTick | internal/analyzer/sqs.go:23-64 | a receive error changes nothing; an empty receive sets 60 s; any non-empty batch sets 10 s |
| LegacyAnalyzer.RunAcksIff | internal/analyzer/analyzer.go:109-150 | completion needs the prompt, the LLM call, the parse and the store to succeed; a missing row is dropped and deleted |
| LegacyAnalyzer.SqsAcksIff | internal/analyzer/sqs.go:35-59 | a message is deleted exactly when the prompt, the LLM call and the store succeed; nothing is dropped |
| LegacyAnalyzer.MissingCveDiverges | internal/analyzer/analyzer.go:111-118 | for a CVE without a row, the Run loop deletes the message while the SQS loop leaves it for redelivery |
| LegacyAnalyzer.RunBatchDeletesOnlyAcked | internal/analyzer/analyzer.go:105-151 | a batch only appends deletions, each of a dropped or completed message |
| LegacyAnalyzer.SqsBatchStoresCompleted | internal/analyzer/sqs.go:31-60 | every completed message of a batch has its summary stored, and no summary is removed |
| LegacyAnalyzer.RunAnalyzer.constructor | internal/analyzer/analyzer.go:89 | empty tables, nothing deleted, 10 s ticker, JSON-analysis template |
| LegacyAnalyzer.RunAnalyzer.StoreAnalysisResult | internal/analyzer/analyzer.go:315-341 | a database error is wrapped and changes nothing; otherwise the analysis table is UpsertAnalysis of the old one |
| LegacyAnalyzer.RunAnalyzer.ProcessMessage | internal/analyzer/analyzer.go:105-150 | returns the message's fate and leaves the state RunStep gives |
| LegacyAnalyzer.RunAnalyzer.Tick | internal/analyzer/analyzer.go:97-155 | one tick leaves the state the tick specification gives |
| LegacyAnalyzer.SqsAnalyzer.constructor | internal/analyzer/sqs.go:15 | empty tables, nothing deleted, 10 s ticker, assessment template |
| LegacyAnalyzer.SqsAnalyzer.StoreAnalysisResult | internal/analyzer/database.go:8-21 | a database error is wrapped and changes nothing; otherwise the summary table is UpsertSummary of the old one |
| LegacyAnalyzer.SqsAnalyzer.ProcessMessage | internal/analyzer/sqs.go:31-60 | returns the message's fate and leaves the state SqsStep gives |
| LegacyAnalyzer.SqsAnalyzer.Tick | internal/analyzer/sqs.go:23-64 | one tick leaves the state the tick specification gives |
| ApiList.TrimStartJs | api/getCVEList/index.mjs:34 | removes exactly the leading JavaScript whitespace |
| ApiList.TrimEndJs | api/getCVEList/index.mjs:34 | removes exactly the trailing JavaScript whitespace |
| ApiList.TrimJs | api/getCVEList/index.mjs:34 | the trimmed search neither starts nor ends with whitespace |
| ApiList.BlankTrimsToEmpty | api/getCVEList/index.mjs:34 | a blank search trims to "" |
| ApiList.DigitPrefix | api/getCVEList/index.mjs:33 | the longest run of leading digits |
| ApiList.DigitPrefixOf | api/getCVEList/index.mjs:33 | digits followed by a non-digit give exactly those digits |
| ApiList.LeadingNumber | api/getCVEList/index.mjs:33 | there is no number exactly when the text is empty or does not start with a digit |
| ApiList.ParseIntJsUnsigned | api/getCVEList/index.mjs:33 | parseInt of text starting with digits reads those digits |
| ApiList.ParseIntJsNegative | api/getCVEList/index.mjs:33 | a leading minus negates the number |
| ApiList.ParseIntJsOfDigits | api/getCVEList/index.mjs:33 | parseInt ignores whatever follows the digits |
| ApiList.ParseIntJsOfNumber | api/getCVEList/index.mjs:33 | parseInt reads back any decimal page number, with any non-digit tail |
| ApiList.PageOf | api/getCVEList/index.mjs:33 | an absent or empty page parameter is page 1; any other is parseInt of it |
| ApiList.OffsetOf | api/getCVEList/index.mjs:38 | the offset is (page - 1) * 20 |
| ApiList.SearchOf | api/getCVEList/index.mjs:34 | the search is the trimmed cveId parameter, or "" |
| ApiList.SortColumn | api/getCVEList/index.mjs:66-72 | only the three sortable keys choose a column, and analysis_updated_at maps to a.updated_at |
| ApiList.SortOrderAsWritten | api/getCVEList/index.mjs:36 | as written, a non-empty sortOrder is spliced upper-cased whatever it holds, and otherwise DESC |
| ApiList.SortDirection | api/getCVEList/index.mjs:36 | the corrected direction is ASC exactly when the parameter upper-cases to ASC, and DESC otherwise |
| ApiList.PlaceholderTails | api/getCVEList/index.mjs:82 | without a search the limit and offset are $1 and $2, with one they are $2 and $3 |
| ApiList.BuildDataQuery | api/getCVEList/index.mjs:41-83 | the string-building code gives the data query text and parameter list of the specification |
| ApiList.TotalPages | api/getCVEList/index.mjs:100 | Math.ceil(total / 20): the least page count that covers every row |
| ApiList.OrderBy | api/getCVEList/index.mjs:66-79 | every clause starts with ORDER BY, and it is the default `c.last_modified_date DESC` exactly when sortBy is not a whitelisted key |
| ApiList.DataQueryAsWritten | api/getCVEList/index.mjs:41-83 | the data query as written: with a whitelisted key and a non-empty sortOrder, the upper-cased sortOrder appears in the SQL text |
| ApiList.DataQuery | api/getCVEList/index.mjs:41-83 | the corrected data query equals the as-written one whenever the spliced order is ASC or DESC |
| ApiList.CountQuery | api/getCVEList/index.mjs:89-91 | the count query starts with `SELECT COUNT(*) FROM cve_data`, and adds the filter exactly when there is a search term |
| ApiList.PaginationOf | api/getCVEList/index.mjs:100-118 | the block echoes the page and the count; totalPages is the fewest pages of 20 that hold every row; hasNextPage and hasPrevPage are `page < totalPages` and `page > 1`, false for NaN |
| ApiList.ListHandler | api/getCVEList/index.mjs:18-134 | the handler as written, sending the query with the spliced sortOrder: every response allows any origin; it is 200 or the fixed internal-error 500; a 200 holds the data query's rows and the count's paging block |
| ApiList.SafeListHandler | api/getCVEList/index.mjs:18-134 | the handler with the order restricted to ASC or DESC: the same response shapes, over the corrected query |
| ApiList.ListOkIff | api/getCVEList/index.mjs:27-130 | the response is 200 exactly when the connection, the data query and the count query succeed, and its body is then the rows of the as-written data query with the paging block of the count |
| ApiList.SafeHandlerAgrees | api/getCVEList/index.mjs:36-78 | when the spliced order is already ASC or DESC, the restricted handler answers exactly as the handler as written |
| ApiList.DefaultPageIsFirst | api/getCVEList/index.mjs:33-38 | without a page parameter the offset is 0 and there is no previous page |
| ApiList.PageParamReadsBack | api/getCVEList/index.mjs:33 | a page number written in decimal is read back |
| ApiList.NextPageIffMoreRows | api/getCVEList/index.mjs:100-102 | there is a next page exactly when rows remain after this page, and a previous one exactly when the offset is positive |
| ApiList.EveryRowOnOnePage | api/getCVEList/index.mjs:100-102 | every row falls on exactly one page, and that page is within totalPages |
| ApiList.OrderByEndsWithTieBreak | api/getCVEList/index.mjs:72-79 | every ordering ends with last_modified_date DESC |
| ApiList.AnalysisSortNullsLast | api/getCVEList/index.mjs:73-77 | sorting by analysis time puts unanalysed rows last |
| ApiList.UnknownSortKeyIgnored | api/getCVEList/index.mjs:79 | an unknown or missing sort key orders by last_modified_date DESC only |
| ApiList.PlaceholdersMatchParams | api/getCVEList/index.mjs:59-83 | the LIMIT and OFFSET placeholders number the last two parameters, which are 20 and the offset; there are three parameters exactly when there is a search |
| ApiList.SearchIsFirstParam | api/getCVEList/index.mjs:60-63 | with a search, $1 is the ILIKE pattern %search% and the filter follows the select |
| ApiList.SearchAppliesToBothQueries | api/getCVEList/index.mjs:59-97 | the count query filters with the same pattern as the data query, and neither filters without a search |
| ApiList.BlankSearchIsNoSearch | api/getCVEList/index.mjs:34-63 | a blank cveId gives the same query as none |
| ApiList.SortOrderSpliced | api/getCVEList/index.mjs:72-79 | as written, the upper-cased sortOrder appears verbatim in the query text |
| ApiList.SortOrderInjection | api/getCVEList/index.mjs:36-78 | as written, a sortOrder carrying an extra ORDER BY term, a subquery that divides by zero unless cve_data has rows, puts that term into the SQL text |
| ApiList.QueryTextIsFixed | api/getCVEList/index.mjs:41-83 | corrected, the query text depends only on whether there is a search, the sort key and the direction, never on the parameter's text |
| BackendList.BackendParams | backend/getCVEList/index.mjs:59 | the parameters are the limit 20 and the page's offset |
| BackendList.BackendListHandler | backend/getCVEList/index.mjs:18-99 | no CORS header; a connection error is a 500 with its message; only 200 or a 500 "Error executing query" |
| BackendList.BackendOrderFixed | backend/getCVEList/index.mjs:54-55 | the order is always last_modified_date DESC |
| BackendList.BackendListOk | backend/getCVEList/index.mjs:27-84 | 200 exactly when the connection and both queries succeed, and then the body is the rows with the page's pagination |
| BackendList.NewerEndpointAgrees | backend/getCVEList/index.mjs:33-64 | without search or sort, the newer list endpoint binds the same parameters and the same order |
| ApiDetail.DetailHandler | api/getCVEDetail/index.mjs:18-112 | only 200, 400, 404 or 500, and no CORS header |
| ApiDetail.DetailStatusIff | api/getCVEDetail/index.mjs:27-107 | 400 exactly for a missing or empty id; 500 for a connection or query error; 404 for no row; 200 otherwise |
| ApiDetail.DetailAnswersFirstRow | api/getCVEDetail/index.mjs:91-97 | a found CVE answers with the first row |
| ApiDetail.MissingIdAsksNothing | api/getCVEDetail/index.mjs:33-43 | without an id the answer is the 400 whatever the database holds |
| Config.GetEnv | backend/internal/common/config.go:113-118 | the variable's value when set, even if empty, and the fallback otherwise |
| Config.ParseBool | backend/internal/common/config.go:122 | strconv.ParseBool: true and false exactly for its six accepted spellings each |
| Config.ParseFormatBool | backend/internal/common/config.go:122 | formatting a bool and parsing it back gives it |
| Config.GetEnvBool | backend/internal/common/config.go:120-129 | unset or unparsable gives the fallback; otherwise the parsed lower-cased value |
| Config.GetEnvBoolAnyCase | backend/internal/common/config.go:122 | "true" and "false" in any casing are read as themselves |
| Config.GetEnvBoolExamples | backend/internal/common/config.go:120-129 | "TRUE" reads as true; "yes" falls back |
| Config.Defaults | backend/internal/common/config.go:63-84 | the defaults of an empty environment: ./log, the NVD URL, localhost:5432, us-west-2 |
| Config.Validate | backend/internal/common/config.go:131-145 | valid exactly when the NVD key, host, port, user, both AWS keys and the GPT key are set; the first failing check names the error |
| Config.UncheckedFields | backend/internal/common/config.go:131-145 | password, database name, queue URL and region are never checked |
| Config.ValidIffRequiredSet | backend/internal/common/config.go:57-91 | a loaded environment is valid exactly when the required variables are non-empty and DB_HOST and DB_PORT are not set to "" |
| Config.EmptyEnvFailsFirstCheck | backend/internal/common/config.go:132-133 | an empty environment fails on the NVD key first |
| Config.Config.constructor | backend/internal/common/config.go:53-55 | a new config has every field at its zero value |
| Config.Config.Load | backend/internal/common/config.go:57-91 | a failed .env load is wrapped and changes nothing; otherwise every field is assigned from the environment, and the error is the validation error wrapped |

## Left out

**Environment and I/O**
- Real I/O is not modelled: HTTP requests, SQL execution, file reads, SQS, the OpenAI client and time.Sleep.
  - Their answers are parameters.
  - The SQL texts are abstracted to the table transformations they perform, except the list query text, whose construction is the point.
- Logging, process setup and shutdown are not modelled: `init`, `setupLogger`, `printCVEInfo`, `Close`, and the `ctx.Done()` branches.
- The ticker, goroutines and real time are left out.
  - A `Tick` method models one firing of the ticker.
  - The period is a field.
- Context timeouts and `defer cancel()` have no effect in the model.

**Numbers and encodings**
- CVSS scores are natural numbers of tenths, not `float64`/`REAL`. Negative and non-tenth scores are out of scope.
- Timestamps are abstract integers, and CURRENT_TIMESTAMP is a parameter. Time formatting and parsing (RFC 3339, `time.Parse`) are not modelled beyond `StripQuotes`.
- JSON decoding is a parameter (`decode`, `Decoded`/`Parsed` answers).
  - `json.Marshal` of CommonConsequences cannot fail for those types and is omitted.
  - The LLM's reply does not depend on the prompt in the model.
- The csv package's parsing, including LazyQuotes, is a parameter. The model starts from the rows.
- `strings.ToUpper`/`ToLower` are modelled for ASCII only.
- `strings.TrimSpace` is modelled for the Latin-1 whitespace set only.

**Operations**
- Nvd: getReferenceLinks is modelled as the record's list of reference URLs itself.
- Poc.FetchGitHubPoC: the second `json.Unmarshal` of the same body into the same type is dead code and is not modelled separately.
- Poc.FetchGitHubPoC: termination assumes that the search answers settle, meaning no throttle and no next link after some number of requests. The source loops for as long as the server keeps answering.
- Collector.Collector.CollectWindow: termination assumes `PagesBounded`: a page after which the loop goes on, because `startIndex + resultsPerPage < totalResults`, has a positive `resultsPerPage` and a `totalResults` under a ghost bound. A last page is unconstrained, so the empty answer `Page([], 0, 0)` is admitted. The source loops forever when a server keeps answering a non-final page with 0 or fewer results per page.
- LegacyMain.RunLegacy: termination assumes the same as CollectWindow.
- BackendAnalyzer: `buildGroupedPoC` is not part of this model.
  - The GitHub stage stores the fetched entries directly.
  - `storePoCData`/`storeAnalysisResult` are called with types that do not match their declarations (`[]GroupedPoC`, and `*AIAnalysis` for `*CVEInfo`), which mixes versions of the package. The model stores PoC entries and the parsed analysis.
- BackendAnalyzer: the GitHub token and the Exploit-DB path accessors (`GetGitHubToken`, `GetExploitDBPath`) belong to a different version of the config interface and are not modelled.
- Config: the getters of `ConfigLoader` are plain field reads and are not modelled separately. `godotenv.Load`'s merging of `.env` into the environment is represented only by the `env` map and its failure.
- ApiList.PageOf: `parseInt` is modelled for decimal text. The "0x" hexadecimal prefix is not modelled. Neither is a NaN page, which reaches the query as NaN and is left to the data oracle.
- ApiList.SortOrderAsWritten, ApiList.SortDirection: JavaScript's `toUpperCase` maps all of Unicode, and the model maps ASCII letters only.
  - For example, JavaScript upper-cases `aſc` to `ASC` and `ß` to `SS`.
  - So the model misses sort orders that reach ASC, or change length, only through non-ASCII letters.
- ApiList.PageOf, ApiList.OffsetOf: JavaScript's `parseInt` gives a double, and the model uses unbounded integers.
  - Pages above 2^53 lose precision in the source.
  - A large offset is sent to the database as text such as `1e+21`.
- ApiList.SortColumn: JavaScript prototype keys (such as `constructor`) that would make `sortableColumns[sortBy]` truthy are not modelled.
- ApiList, BackendList and ApiDetail handlers: the certificate file is read outside the `try` block, and a failure to read it is not modelled.
- CveStore.Overwrite: the stamp of a newly inserted row is the `updated_at` column default of the schema. No source file shows that default, so it is the parameter `initial`.
- ApiDetail: the detail query's SQL text is abstracted. The handler is modelled against the query's answer.
- LegacyAnalyzer: internal/analyzer declares `generatePrompt` twice, at internal/analyzer/analyzer.go:160 and internal/analyzer/prompt.go:12, so the package does not compile as given. The model gives the `Run` loop the template of analyzer.go (LegacyAnalysisTemplate) and the queue loop the template of prompt.go (AssessmentTemplate).
- BackendAnalyzer and LegacyAnalyzer: `resp.Choices[0]` panics on a reply with no choices (backend/internal/analyzer/llm.go:135, internal/analyzer/analyzer.go:278, internal/analyzer/chatgpt.go:28). The LLM is a `Result` parameter, so that panic is not modelled.
- Prompt.ExtractJsonRoundTrip: the round trip also needs a body that does not end in a backtick, because such a body loses that backtick (Prompt.TrailingBacktickShortensBody).

## Findings

| source | as written | input that shows it | evidently intended | confidence | as-written member | corrected member |
|---|---|---|---|---|---|---|
| backend/internal/analyzer/cwe.go:26-31 | Scan writes `summary_ko` into the CWEID field, so the Korean summary is lost and the id is overwritten | a stored row `CWE-79` whose Korean summary is "요약" reads back with id "요약" and an empty Korean summary | scan the third column into SummaryKo | not executed | Cwe.GetCweInfoAsWritten, Cwe.MisScanLosesSummary | Cwe.GetCweInfo, Cwe.StoredCweInfoReadsBack |
| backend/internal/analyzer/cwe.go:63-64 | the error message indexes `metas[0]` on the branch taken when `len(metas) == 0` | a meta endpoint answering `[]` panics with index out of range | report the empty meta list as an error | not executed | Cwe.FetchCweInfoAsWritten, Cwe.EmptyMetasPanic | Cwe.FetchCweInfo, Cwe.FetchCweInfoAgrees |
| api/getCVEList/index.mjs:36-78 | `sortOrder` is upper-cased and spliced into the SQL text unchecked | `?sortBy=published_date&sortOrder=asc, (select case when (select count(*) from cve_data)>0 then 1 else 1/0 end)`, one statement whose error or success reveals whether cve_data has rows | accept only ASC or DESC | not executed | ApiList.ListHandler, ApiList.SortOrderAsWritten, ApiList.SortOrderInjection | ApiList.SafeListHandler, ApiList.SortDirection, ApiList.QueryTextIsFixed, ApiList.SafeHandlerAgrees |
