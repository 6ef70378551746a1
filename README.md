# Insurance claim evaluation: a Dafny model

This project models three pieces of deterministic logic from an insurance
retrieval-augmented claims system, and proves properties of them in Dafny.

- **The claim-evaluation graph** (`agent_orchestrator.py`). Six nodes run in a
  fixed order over one shared `AgentState`: initializer, selector,
  investigator, compliance, orchestrator, archiver. Each node maps the state,
  plus what the outside services answer, to a partial update. The runner
  merges each update into the state: `messages` are appended and every other
  key it names is overwritten. The initializer and the archiver also append a
  start record and a completion record to the evaluation audit log. The
  runner stops at the first node that raises.
- **The ingestion watcher** (`processor.py`). It keeps a per-path debounce
  cache of event times. It waits a bounded number of attempts for the writer
  to release a file. It derives a document's metadata from the components of
  the file's path: claim or policy, category, client and submission date. The
  stamped chunks go to the claims store or to the policy store.
- **The storage endpoints** (`main.py`). A policy upload needs a category. The
  category is stripped and capitalised, and one that is empty afterwards is
  refused with status 400. Policies are filed under
  `BASE\policies\<category>\<timestamp>\<file>` and claims under
  `BASE\claims\<client>\<date>_<type>\<file>`. The watcher reads that layout
  back, and `layout.dfy` proves that the round trip works.

Files:

| file | contents |
|---|---|
| `wrappers.dfy` | `Option`, `Result` and the pass/fail `Outcome` of an effectful call |
| `text.dfy` | ASCII `strip`, `lower`, `capitalize`, the substring test, `join`/`split`, `str(int)` |
| `documents.dfy` | the retrieval store's `Document` (text plus string metadata) and its two collections |
| `paths.dfy` | `os.path.normpath(p).split(os.sep)` and `pathlib` joining on Windows |
| `agent_orchestrator.dfy` | the state, the six nodes, the reference semantics `Exec`, the audit log class, the runner loop |
| `orchestrator_props.dfy` | lemmas about nodes, about runs of any node list, and about the compiled graph |
| `processor.dfy` | debounce, bounded retry, metadata derivation, the handler and store classes |
| `upload.dfy` | category normalisation and the two upload paths |
| `layout.dfy` | the uploads read back by the ingestion, and the category read back by the selector |

Every outside call is an oracle value:

- `Services`: similarity search, model reply, audit-store write, clock strings.
- `Environment`: the lock state of each release attempt, the renames and
  moves, the PDF loader, the splitter, the store write.

The searches, the model, the audit-store write, the rename, the loader, the
store write and the move may answer with an error, which models an exception.
The release attempts, the splitter and the clock strings always answer. The
model's reply is a function of the prompt: the same prompt always gets the
same reply.

Where one might expect otherwise, the model follows the code:

- A search that raises stops the run just as a failing model call does. The
  code does not catch it; only an empty search result falls back to a default.
- A failed run writes no `Failed` audit record. The code writes only the start
  record and the completion record.
- The policy category also falls back to `General` when the top document has
  no `document_category` key, not only when the search finds nothing.

## Model

| member | source | states |
|---|---|---|
| `AgentOrchestrator.FlagRisk` | agent_orchestrator.py:67-75 | the increment is added in full or not at all, and in full exactly when the lower-cased reply contains the word |
| `AgentOrchestrator.Merge` | agent_orchestrator.py:16-25 | no contract of its own: `OrchestratorProps.MergeWritesNamedKeys` states that the messages become the old ones followed by the update's and that every other key the update names takes the update's value; `MergeKeepsUnnamedKeys` that every key it leaves out, and the identifiers, are kept |
| `AgentOrchestrator.InitializationNode` | agent_orchestrator.py:29-44 | no contract of its own: `OrchestratorProps.StepAudit` states that it writes the `In_Progress` start record tagged with the state's identifiers, `StepWritesOnlyItsKeys` that it names only `messages`, and `StepRisk` that it leaves the risk alone |
| `AgentOrchestrator.PolicySelectorNode` | agent_orchestrator.py:46-55 | no contract of its own: `OrchestratorProps.StepWritesOnlyItsKeys` states that it names only the category, the context and the messages; `EmptySearchesFallBack` gives the `General` fallback; `GraphDone` ties the category and context to the search on the first message |
| `AgentOrchestrator.HistoryInvestigatorNode` | agent_orchestrator.py:57-68 | no contract of its own: `OrchestratorProps.StepRisk` states that it adds 0 or 25 to the risk, `TextsCarryTheirParts` and `EmptySearchesFallBack` what its prompt carries |
| `AgentOrchestrator.ComplianceEvaluatorNode` | agent_orchestrator.py:70-76 | no contract of its own: `OrchestratorProps.StepRisk` states that it adds 0 or 40 to the risk, `StepWritesOnlyItsKeys` that it names only the report and the risk, `TextsCarryTheirParts` that its prompt carries the claim context |
| `AgentOrchestrator.OrchestratorNode` | agent_orchestrator.py:78-82 | no contract of its own: `OrchestratorProps.StepWritesOnlyItsKeys` states that it names only `final_verdict`; `TextsCarryTheirParts` that its prompt carries the printed risk and the report; `GraphDone` that the verdict is asked on the risk after the compliance node |
| `AgentOrchestrator.EvaluationArchiverNode` | agent_orchestrator.py:84-100 | no contract of its own: `OrchestratorProps.StepAudit` states that it writes the `Completed` record with the current risk, `ExecAuditSources` that no other node writes one, `GraphRiskIncrease` that the record carries the final risk |
| `AgentOrchestrator.Exec` | agent_orchestrator.py:113-120 | no contract of its own: the reference run, which `RunStages` is proved to compute; `OrchestratorProps.ExecTrace`, `ExecMonotone`, `ExecSplit` and `ExecAuditSources` state its properties |
| `AgentOrchestrator.AuditLog.AddTexts` | agent_orchestrator.py:34-43 | an audit write appends exactly one record and keeps every earlier one |
| `AgentOrchestrator.RunStages` | agent_orchestrator.py:113-122 | the step-by-step loop returns exactly the run `Exec` defines, and the audit log gains exactly that run's records, in order |
| `AgentOrchestrator.Invoke` | agent_orchestrator.py:103-122 | invoking the compiled graph runs the six nodes in the wired order and appends to the log exactly that run's records |
| `OrchestratorProps.MergeKeepsUnnamedKeys` | agent_orchestrator.py:16-25 | merging leaves every key the update does not name unchanged, keeps the old messages as a prefix, and never changes the identifiers |
| `OrchestratorProps.MergeWritesNamedKeys` | agent_orchestrator.py:16-25 | the merged messages are the old ones followed by the update's, and each other key the update names takes the update's value |
| `OrchestratorProps.StepWritesOnlyItsKeys` | agent_orchestrator.py:44-82 | each node names only the keys it owns and leaves all others as they were; the orchestrator writes only `final_verdict` |
| `OrchestratorProps.StepRisk` | agent_orchestrator.py:57-76 | the investigator adds 0 or 25 to the risk, the compliance node 0 or 40, and every other node leaves it unchanged |
| `OrchestratorProps.FlagRiskIgnoresCase` | agent_orchestrator.py:67-75 | replies that differ only in the case of their letters raise the risk alike |
| `OrchestratorProps.StepAudit` | agent_orchestrator.py:34-99 | only the initializer and the archiver write a record; it carries the state's client, instance and date; the archiver's is `Completed` with the current risk |
| `OrchestratorProps.ExecTrace` | agent_orchestrator.py:113-120 | the completed nodes are a prefix of the node list, are all of it on success, and otherwise end right before the node that raised |
| `OrchestratorProps.ExecMonotone` | agent_orchestrator.py:16-25 | along any run the risk never falls, messages only grow at the end, the identifiers stay fixed, and every record carries them |
| `OrchestratorProps.ExecAuditSources` | agent_orchestrator.py:34-99 | a `Completed` record appears only if the archiver completed, and an `In_Progress` record only if the initializer did |
| `OrchestratorProps.ExecSplit` | agent_orchestrator.py:113-120 | running two node lists in sequence is running their concatenation |
| `OrchestratorProps.RiskNeverDecreases` | agent_orchestrator.py:67-76 | after a longer prefix of the node list the risk is at least what it was after a shorter one |
| `OrchestratorProps.GraphDone` | agent_orchestrator.py:29-120 | a completed run has had every call answered and ran the six nodes once each, in order. The category and context come from the policy search on the first message. The risk is the seeded risk plus both flags. The verdict is asked on the post-compliance risk. The log gains exactly a start record and then a completion record |
| `OrchestratorProps.GraphAnswered` | agent_orchestrator.py:29-120 | when every search, model call and audit write answers, the graph completes |
| `OrchestratorProps.GraphDoneIff` | agent_orchestrator.py:29-120 | the graph completes if and only if every call it makes answers |
| `OrchestratorProps.GraphHalted` | agent_orchestrator.py:34-120 | a stopped run failed on a service call and never on a missing key; it appended only the start record, or nothing if that write itself failed, and never a completion record |
| `OrchestratorProps.HaltedAfterStart` | agent_orchestrator.py:46-100 | once the initializer has run, a stop in any later node appends nothing and is a service failure |
| `OrchestratorProps.HaltedFromCompliance` | agent_orchestrator.py:70-100 | from the compliance node on, with a first message present, a stop appends nothing and is a service failure |
| `OrchestratorProps.FinalRiskIncrease` | agent_orchestrator.py:67-76 | the final risk minus the seeded risk is one of 0, 25, 40 and 65 |
| `OrchestratorProps.GraphRiskIncrease` | agent_orchestrator.py:67-99 | a completed run raises the risk by 0, 25, 40 or 65, and its completion record carries the final risk |
| `OrchestratorProps.BothFlagsRaiseBy65` | agent_orchestrator.py:64-76 | a suspicious analysis and a violating report together raise the risk by exactly 65 |
| `OrchestratorProps.EmptySearchesFallBack` | agent_orchestrator.py:49-66 | empty searches give category `General`, an empty context, and a history prompt that carries `No history.` |
| `OrchestratorProps.TextsCarryTheirParts` | agent_orchestrator.py:65-90 | the history prompt contains the client and the history; the compliance prompt contains the claim context; the verdict prompt contains the printed risk and the report; the completion text contains the verdict and the report |
| `Text.ContainsIff` | agent_orchestrator.py:67 | the scanning substring test holds exactly when the word occurs at some index |
| `Text.LowerIgnoresCase` | agent_orchestrator.py:67 | strings that differ only in case lower-case to the same string, and `lower()` changes its input only in case |
| `Text.IntToDecimalInjective` | agent_orchestrator.py:80 | two different risk scores never print the same |
| `Text.NatToDecimalValue` | agent_orchestrator.py:80 | the printed digits of a number denote that number |
| `Text.StripShape` | main.py:40 | `strip()` returns a slice of its input with only whitespace on either side of it, and no whitespace at either end |
| `Text.StripEmptyIff` | main.py:41 | `strip()` leaves the empty string exactly when the input is all whitespace |
| `Text.CapitalizeIdempotent` | main.py:40 | `capitalize()` applied twice is `capitalize()` applied once |
| `Text.SplitJoin` | processor.py:87 | splitting a joined string on its separator gives back the parts, provided no part contains the separator |
| `Paths.NormParts` | processor.py:87 | the components of a normalised path: never an empty list |
| `Paths.ResolvePlain` | processor.py:87 | `normpath` keeps components that are neither empty, `.` nor `..` exactly as they are |
| `Paths.NormPartsOfPathString` | processor.py:87 | a path written from plain components is split back into exactly those components |
| `Paths.PathJoinPlain` | main.py:48-52 | `pathlib` joining of plain components writes them out with back slashes between them |
| `Processor.CacheAfter` | processor.py:48-52 | after an event the cache has the same keys plus the path. Every other path keeps its time. A debounced event changes nothing; otherwise the path's time becomes `now` |
| `Processor.DebounceWindow` | processor.py:49-52 | after a processed event, a later event for the same path is ignored exactly while it is less than 5 seconds later |
| `Processor.DebounceOtherPaths` | processor.py:52 | an event for one path does not change whether events for other paths are debounced |
| `Processor.FirstRelease` | processor.py:62-72 | the first free attempt below the retry count, with every earlier attempt busy; or none, with every attempt busy |
| `Processor.WaitForFileRelease` | processor.py:62-72 | the wait reports success exactly when some attempt below `retries` found the file free. It stops right after the first such attempt; otherwise it made `retries` attempts (none when `retries` is not positive) |
| `Processor.MetaMap` | processor.py:99-104 | the metadata dictionary has exactly the four keys `source_type`, `document_category`, `client_id` and `submission_date`, each holding the matching field of the metadata |
| `Processor.Sample` | processor.py:95 | the classifier sample is a prefix of the first page: the whole page when it has at most 1500 characters, exactly its first 1500 otherwise, and empty when there are no pages |
| `Processor.ClassifyClaimType` | processor.py:56-60 | the classification is the model's reply to the prompt built from the category search, stripped, so it has no surrounding whitespace; a failing search or model call fails it with that error |
| `Processor.DeriveMetadata` | processor.py:87-104 | with fewer than three path components this is an `IndexError`, and a claim whose classification fails is an error. A claim gets `Claim`, the stripped classification, `parts[-3]` and `parts[-2]`. A policy gets `Policy`, `parts[-3]`, `Company` and `N/A` |
| `Processor.Stamp` | processor.py:106-107 | every chunk keeps its text and carries all four metadata entries; any other key keeps its value |
| `Processor.Prepare` | processor.py:82-107 | once the rename and the load succeed, the result is the split pages stamped with the derived metadata, aimed at the claims store exactly for a claim path, or the derivation's error; a failing rename or load fails it with that error |
| `Processor.Added` | processor.py:109-110 | a collection gains chunks only when the store write went through and it is the file's target, and it then gains exactly the batch |
| `Processor.IngestIndexed` | processor.py:74-116 | a file is indexed exactly when it is released within the retries, the rename, the load and the metadata succeed, and the store write and the move go through; the batch is then the split pages stamped with that metadata, for the store the path selects |
| `Processor.IngestAdds` | processor.py:78-110 | a locked file or a failure before or at the store write adds nothing; once the write goes through, the target store gains the prepared chunks and the other store nothing |
| `Processor.Ingest` | processor.py:74-120 | no contract of its own: the reference outcome of one processing call, which `IngestionHandler.ProcessPdf` is proved to reach; `Processor.IngestIndexed` states when it indexes and what, `Processor.IngestAdds` what each store gains |
| `Processor.Index.AddDocuments` | processor.py:110 | a successful write appends the chunks to the collection; a failed one changes nothing |
| `Processor.IngestionHandler.ProcessPdf` | processor.py:74-120 | one processing call ends as the reference outcome `Ingest` says: still locked, failed, stored but not moved, or indexed. The target store gains exactly the stamped chunks and the other store nothing |
| `Processor.IngestionHandler.HandleEvent` | processor.py:44-54 | a debounced event leaves the cache, the stores and the processing calls untouched. Otherwise the path's time becomes `now` and processing runs exactly once, with the stores changed as that run says |
| `Upload.NormaliseCategory` | main.py:40 | the normalised category is the input's stripped text with its case changed: as long as the stripped text, each character equal to the stripped text's up to case, no surrounding whitespace, first character not lower case, no upper case after it. It is empty exactly when the input is all whitespace |
| `Upload.UploadPolicy` | main.py:39-60 | an all-whitespace category is refused with 400 and the fixed detail. Otherwise the receipt echoes the normalised category and the path joins the base, `policies`, that category, the timestamp and the file name |
| `Upload.UploadClaim` | main.py:62-73 | no contract of its own: `Layout.ClaimRoundTrip` states that its path is read back as a claim of the client dated by the `<date>_<type>` folder, and `Layout.ClaimIngested` what ingesting it stores |
| `Upload.NormaliseIdempotent` | main.py:40 | normalising an already normalised category changes nothing |
| `Upload.NormalisedNotClaims` | main.py:40 | a normalised category is never `claims` |
| `Layout.UnderBaseDir` | main.py:18 | a path under the storage root has only plain components, and has a `claims` component exactly when the part below the root has one |
| `Layout.StoredParts` | processor.py:87 | the ingestion splits a stored path back into the components it was joined from |
| `Layout.PolicyRoundTrip` | main.py:46-52 | a policy upload path is never read as a claim. Its metadata is `Policy` with the normalised category as `document_category`, `Company` and `N/A` |
| `Layout.ClaimRoundTrip` | main.py:64-69 | a claim upload path is always read as a claim of its client. Its `submission_date` is the folder name, so it carries the `_<type>` suffix; it fails only if the classifier fails |
| `Layout.PolicyIngested` | processor.py:87-110 | a fully ingested policy upload goes to the policy store, with every chunk carrying the upload's normalised category |
| `Layout.ClaimIngested` | processor.py:87-110 | a fully ingested claim upload goes to the claims store, with every chunk carrying `Claim`, the stripped classification, the client and the dated folder |
| `Layout.PolicyUploadIndexed` | processor.py:78-116 | a policy upload is indexed whenever the file is released and the rename, load, store write and move go through |
| `Layout.ClaimUploadIndexed` | processor.py:78-116 | a claim upload is indexed under the same conditions when the classifier also answers |
| `Layout.SelectorReadsStampedCategory` | agent_orchestrator.py:50 | when the top search hit is a stamped chunk, the selector picks the category the ingestion stamped on it |

## Left out

- `ai_service.py` as a whole: retriever chains and HTTP endpoints over LangChain, Chroma and Ollama, with no logic of their own. `ai_service.py` is not part of this model, beyond the three collections and the model it provides, modelled as oracles.
- What the services compute: similarity ranking, embeddings and model output are uninterpreted oracle answers. The model's reply is assumed to depend on the prompt alone.
- Concurrency and the runtime: FastAPI's async handling, LangGraph's executor and the watcher's `__main__` loop and observer. The graph is a sequential loop over the node list.
- A dispatcher, an instance registry and status polling appear in no file modelled here, so they are not part of this model.
- `add_messages` replacing a message that has the same id as an existing one: every node sends new system messages, so the model only appends.
- The caller seeds `messages`, the three identifiers and `risk_score`. A state without `risk_score` raises `KeyError` in the investigator; the model's state always has the score.
- Clocks: `datetime.now().isoformat()`, `strftime` and `time.time()` are inputs. Event times are exact reals, without float rounding.
- `WaitForFileRelease`: the one-second `time.sleep` between attempts is not modelled; the lock state at each attempt is an oracle.
- `IngestionHandler.ProcessPdf`: the `.ingesting` rename and the move into `processed` (with its `makedirs`) are `Outcome` oracles and are not performed. The rollback rename after a failure is not modelled, nor is an exception raised by that rename itself, which would escape `process_pdf`: `ProcessPdf` always returns an outcome. The PDF loader and the splitter are oracles; chunks are an opaque list.
- The watcher's glob filters (`*.pdf`, `processed` folders, directories) are out; every event reaching `HandleEvent` is taken to have passed them.
- `Paths.NormParts`: a drive is treated as an ordinary first component, and a leading root separator is dropped, where `ntpath` keeps an empty first component. A `..` that climbs to the drive removes it, where `ntpath` would stop at the root.
- `Paths.PathJoin`: a component with a drive or a leading separator, which would restart a `pathlib` path, is not modelled.
- The round trip needs plain components: an uploaded category, client, folder or file name containing a separator, or equal to `.` or `..`, changes the path's component count and is outside the round-trip lemmas.
- `Upload`: the file write and `mkdir` after the path is built are I/O and are out.
- `clear_all_data` and `delete_client_data` (main.py) are ChromaDB and directory deletion calls, and are out.
- Logging throughout.
- Unicode case and whitespace rules: `lower()`, `capitalize()` and `strip()` follow ASCII.
