# A verified model of the JUANAN diagnosis pipeline

JUANAN runs a fixed chain of agents over a patient's brain MRI scans:

1. A planner reads the user's query.
2. The patient identifier is taken from the plan.
3. An image lister writes the patient's scans to `temp/lister.json`.
4. The classification agent calls the tumour classifier once per FLAIR/T1CE pair.
5. The segmentation agent runs only when some classification predicts `"Tumor"` with a Tumor probability above 0.6.
6. The report agent joins both results, by `scan_id`, into a master report and has it rendered as a PDF.
7. The report validator checks that the rendered text mentions the diagnosis and the segmentation.

Every stage answers with a JSON document. A top-level `"error"` in a stage's answer ends the run with an error document. Per-scan errors stay inside their entries. Any exception becomes `{"error": str(e)}`.

The front end keeps the chat state. It formats each answer of the assistant (`**x**` becomes bold, any other `*` a line break) and appends each exchange to the history.

The Dafny project models this deterministic core:

| module | file | models |
|---|---|---|
| `Wrappers` | `wrappers.dfy` | `Option`, and `Result`, the outcome of a Python expression that may raise |
| `Strings` | `strings.dfy` | substring search, `split`/`join`/`replace`, ASCII `lower`/`title`, decimal digits |
| `PyJson` | `py_json.dfy` | decoded JSON and the Python operations the agents apply to it: `.get`, `in`, `[]`, truthiness, iteration, `> 0.6`, `* 100`, formatting |
| `FileStore` | `file_store.dfy` | the local files the agents write, as a class over a path-to-document map |
| `Folds` | `fold.dfy` | a `for` loop threading a state that may raise, and a loop that stops at its first hit |
| `ScanWorker` | `scan_worker.dfy` | the per-scan loop that the classification and segmentation agents share |
| `ClassificationAgent`, `SegmentationAgent` | `classification_agent.dfy`, `segmentation_agent.dfy` | the two agents as instances of that loop |
| `SegmenterTool` | `segmenter_tool.dfy` | the segmenter's input guard, its output names and its answer |
| `ReportAgent` | `report_agent.dfy` | building the master report, the `scan_id` join, the write, and the PDF step |
| `ReportValidator` | `report_validator.dfy` | the heading checks and the verdict |
| `Orchestrator` | `orchestrator.dfy` | the agent sequence, the early exits and the segmentation predicate |
| `ChatContext` | `chat_context.dfy` | the front end's response formatter and chat state |

Code that works step by step is modelled imperatively. Each such loop is a `method` with its invariants, proved equal to a specification function: the scan loop, the report loops with the `found` flag, the validator's loops with `break`, the orchestrator's `should_segment` loop and the formatter's indexed loop. The properties are then proved as lemmas about those functions. The files the agents write are a `FileStore.Store` object that the methods modify. The chat state is a `ChatContext.Chat` object whose methods update its fields.

The orchestrator's run, `Orchestrator.Pipeline(query, env, down)`, takes the two agents that follow segmentation as `down`: the report agent and the validator, as functions of the documents the orchestrator passes them. `Orchestrator.Answers` states what the run relies on: both answer dicts, and of the files the modelled agents write, the report agent writes only the patient's report. The properties of the run are proved for every `down` that meets `Answers`. `Orchestrator.Models(env)` is the pair modelled in `ReportAgent` and `ReportValidator`, and it meets `Answers`. `Orchestrator.Orchestrate` calls those two modules and is proved to compute `Pipeline(query, env, Models(env))`.

Collaborators outside the core are parameters:

- the planner's answer: its text, or the exception the call raised;
- the image lister's call: the exception it raised, or else the reply of reading the lister file;
- the classifier and the segmenter, as per-pair tools answering JSON;
- the PDF renderer;
- `read_file_from_local`, as the validator calls it;
- `json.dumps` of a document;
- the rendering of values in f-strings;
- `runChat` in the front end.

### Behaviour of the code worth knowing

- **Validator.** The validator's docstring (src/agents/report_validator_agent.py:10-28) and its prompt (src/config/prompts.py:463-480) promise that a rejected report is rewritten from the original data and saved as a corrected file. The code never writes anything: every answer is a verdict or an error next to the unchanged path (`ReportValidator.PathEchoed`).
- **Segmentation trigger.** Segmentation runs only for an entry whose prediction is `"Tumor"` and whose Tumor probability is above 0.6; a high probability with another prediction does not trigger it (`Orchestrator.OnlyTumorPredictions`, `Orchestrator.TumorThreshold`).
- **No segmentation.** When segmentation does not run, the report agent receives `json.dumps([])` as the segmentation document (`Orchestrator.ReportArguments`).
- **Overwrites.** Writing a file that already exists replaces its document (`FileStore.WriteTwiceOverwrites`).
- **Segmentation entries.** The segmenter's answer is nested under `result`, and it names the mask `mask_file`, never `saved_mask` (`SegmenterTool.NoSavedMaskKey`).
- **Report rows.** The report appends one row per classification entry, even when two entries share a `scan_id`. Each segmentation is merged into the first row with an equal `scan_id`, or appended when there is none (`ReportAgent.ClassificationRows`, `ReportAgent.MergeMatched`, `ReportAgent.MergeUnmatched`).

### Key mismatches between producer and consumers, stated as lemmas

- The segmenter reports the mask under `mask_file`. The validator looks for `saved_mask`, so entries the pipeline produces never trigger the segmentation check (`SegmenterTool.NoSavedMaskKey`, `ReportValidator.SegmenterEntriesNeverChecked`).
- The report agent also reads `saved_mask` in its summary loop. It writes the mask under `mask_file`, and the PDF template reads `nombre_archivo_segmentado`, a key the report never has (`ReportAgent.ReportMaskKey`).

## Model

| member | source | states |
|---|---|---|
| `FileStore.Store.Write` | backend/src/tools/file_system_tools.py:59-76 | the document at the path is replaced by the new one; every other path keeps its document |
| `FileStore.ApplyWrites` | backend/src/tools/file_system_tools.py:66-71 | after a sequence of writes, the paths present are the earlier ones plus every path written |
| `FileStore.WriteTwiceOverwrites` | backend/src/tools/file_system_tools.py:70-71 | writing the same document twice to a path is the same as writing it once, and the path then holds that document |
| `FileStore.ApplyWritesAppend` | backend/src/tools/file_system_tools.py:66-71 | two sequences of writes applied one after the other equal their concatenation applied at once |
| `FileStore.UntouchedPath` | backend/src/tools/file_system_tools.py:66-71 | a path that no write names keeps its document, and stays absent if it was absent |
| `Folds.FoldRaiseStops` | src/agents/report_agent.py:97-145 | once a loop iteration has raised, the rest of the list is not visited and the exception is the loop's outcome |
| `Folds.FoundExists` | src/agents/orchestrator_agent.py:63-69 | on elements that do not raise, the loop that stops at its first hit reports a hit iff some element meets the test |
| `Folds.FoundHit` | src/agents/report_validator_agent.py:46-51 | the loop that stops at its first hit reports a hit when some element meets the test and no element before it raises |
| `Folds.FoundLoop` | src/agents/orchestrator_agent.py:64-69 | the loop with its flag and `break` finds a hit iff the specification does, and raises exactly when it does |
| `ScanWorker.RaiseStops` | src/agents/classification_agent.py:32-41 | once a scan has raised, no later scan is visited |
| `ScanWorker.EntriesPerScan` | src/agents/classification_agent.py:31-41 | the loop yields entries iff no scan raises; then one entry per scan, in input order, each depending on its own scan only; the tool ran once per complete scan, in order |
| `ScanWorker.EntriesIffNoRaise` | src/agents/classification_agent.py:31-41 | the loop yields entries iff every scan can be turned into an entry without raising |
| `ScanWorker.EntriesInOrder` | src/agents/classification_agent.py:31-41 | a loop that does not raise has exactly one entry per scan, the `k`-th being the `k`-th scan's own entry, and called the tool exactly for the complete scans, in order |
| `ScanWorker.FirstRaiseWins` | src/agents/classification_agent.py:32-41 | a loop that raises carries the message of the first scan that raises, and every scan before it produced an entry |
| `ScanWorker.ScanEntryCases` | src/agents/classification_agent.py:33-41 | the tool is called iff both paths are truthy, and with exactly those paths; otherwise the entry holds the incomplete-paths error |
| `ScanWorker.ScanIdCopied` | src/agents/classification_agent.py:35 | the entry's `scan_id` is the scan's own, or `"unknown_scan"` when the scan has none |
| `ScanWorker.ScanLoop` | src/agents/classification_agent.py:31-41 | the loop over `scans` computes the entries, or the exception that ended it, and the tool calls made |
| `ScanWorker.Agent` | src/agents/classification_agent.py:23-50 | the answer is always a dict, and a document is written only when it is the document answered |
| `ScanWorker.NoScans` | src/agents/classification_agent.py:25-29 | a missing or empty `scans` answers the patient identifier (default `"unknown"`) with the no-images error; no tool is called and nothing is written |
| `ScanWorker.OneEntryPerScan` | src/agents/classification_agent.py:25-48 | with a non-empty list of scans none of which raises, the answer holds the identifier and exactly one entry per scan in order; the document written is the one answered |
| `ScanWorker.RunAgent` | src/agents/classification_agent.py:23-50 | the agent answers as `Agent` says and writes its answer to its output path exactly when `Agent` says it writes |
| `ClassificationAgent.Run` | src/agents/classification_agent.py:10-50 | the classification agent answers, calls the classifier and writes exactly as the per-scan worker with the list key `"classifications"`, its no-images message and the output path `data/temp/classification.json` |
| `SegmentationAgent.Run` | src/agents/segmentator_agent.py:10-50 | the segmentation agent answers, calls the segmenter and writes exactly as the per-scan worker with the list key `"segmentations"`, its no-images message and the output path `data/temp/segmentation.json` |
| `SegmenterTool.Basename` | src/tools/execute_brain_tumor_segmentation.py:128-142 | the base name is the suffix of the path after its last `/`, or the whole path when it has none: a suffix without `/`, preceded by a `/` unless it is the whole path |
| `SegmenterTool.Segment` | src/tools/execute_brain_tumor_segmentation.py:276-308 | the guard loop over both paths, then the answer: a not-found error, the exception's message, or the three output names |
| `SegmenterTool.ReadSlices` | src/tools/execute_brain_tumor_segmentation.py:289-291 | the input loop reads `VOLUME_SLICES` (100) slices |
| `SegmenterTool.GuardOrder` | src/tools/execute_brain_tumor_segmentation.py:276-308 | a missing FLAIR file is reported first; a missing T1CE file only when the FLAIR file exists; a missing file's answer does not depend on a later failure; past the guard the answer is the three names or the exception |
| `SegmenterTool.InputPrefixValue` | src/tools/execute_brain_tumor_segmentation.py:128-130 | the input PNG prefix carries the selected slice index: `Imagen_Cerebral_slice_60_` |
| `SegmenterTool.NamesDistinct` | src/tools/execute_brain_tumor_segmentation.py:128-142 | the input, mask and overlay names are pairwise distinct |
| `SegmenterTool.BasenameOfPath` | src/tools/execute_brain_tumor_segmentation.py:129 | the base name of `dir/name` is `name` |
| `SegmenterTool.PngNameOfFlairFile` | src/tools/execute_brain_tumor_segmentation.py:129-141 | a FLAIR file `dir/<name>_flair.nii` gives the PNG name `<name>.png` |
| `SegmenterTool.SliceWindow` | src/tools/execute_brain_tumor_segmentation.py:32-34 | the input loop reads volume slices 22 to 121, one after another, and the slice shown for the default index 60 is volume slice 82 |
| `SegmenterTool.NoSavedMaskKey` | src/tools/execute_brain_tumor_segmentation.py:300-304 | the answer never has `saved_mask`; a successful one has `mask_file` |
| `ReportAgent.LinesPerItem` | src/agents/report_agent.py:47-66 | a summary loop yields lines iff no entry raises; then one line per entry, in order |
| `ReportAgent.SummaryLoop` | src/agents/report_agent.py:48-56 | the summary loop computes the lines, or the first exception |
| `ReportAgent.ClassificationRows` | src/agents/report_agent.py:97-115 | the classification loop succeeds iff every entry can be read; it then appends exactly one row per entry, in order, without merging equal ids, and keeps earlier rows |
| `ReportAgent.ClassificationOk` | src/agents/report_agent.py:97-115 | the classification loop succeeds iff every entry can be read |
| `ReportAgent.ClassificationAppends` | src/agents/report_agent.py:97-115 | a classification loop that succeeds keeps the earlier rows and appends, in order, the row of each entry |
| `ReportAgent.ClassificationFields` | src/agents/report_agent.py:97-107 | the three classifier fields come from the last entry, or stay as they were without entries; no other field changes |
| `ReportAgent.ClassificationLoop` | src/agents/report_agent.py:97-115 | the classification loop computes the report after all entries, or the first exception |
| `ReportAgent.FirstMatch` | src/agents/report_agent.py:132-137 | the index found is that of the first row with an equal `scan_id`; none when no row has it |
| `ReportAgent.MergeMatched` | src/agents/report_agent.py:131-137 | a segmentation whose id is listed sets `mask_file` on the first such row only; no row is added and every other row is kept |
| `ReportAgent.MergeUnmatched` | src/agents/report_agent.py:138-145 | a segmentation whose id is not listed appends one row with its id, both paths `"NO DISPONIBLE"`, no tumour probability and its own mask |
| `ReportAgent.MergeKeepsRows` | src/agents/report_agent.py:131-145 | merging changes no row except its mask, and lists the merged id |
| `ReportAgent.SegmentationOk` | src/agents/report_agent.py:117-124 | the segmentation loop succeeds iff every entry can be read |
| `ReportAgent.SegmentationIds` | src/agents/report_agent.py:117-145 | after the segmentation loop, earlier rows are unchanged except for their masks, and every segmentation's id is listed |
| `ReportAgent.SegmentationFields` | src/agents/report_agent.py:117-129 | the image fields come from the last entry; `zona_afectada` and `volumen_cc` are only reset; nothing else changes |
| `ReportAgent.FindRow` | src/agents/report_agent.py:132-137 | the search with its `found` flag finds the first row with an equal `scan_id`, if any |
| `ReportAgent.MergeLoop` | src/agents/report_agent.py:131-145 | the search with its `found` flag and the append when nothing matched compute the merge that `MergeMatched` and `MergeUnmatched` characterise |
| `ReportAgent.SegmentationLoop` | src/agents/report_agent.py:117-145 | the segmentation loop computes the report after all entries, or the first exception |
| `ReportAgent.Run` | src/agents/report_agent.py:35-173 | the agent answers as the specification says, and writes the report to its JSON path exactly when nothing raised before the write |
| `ReportAgent.ConstantFields` | src/agents/report_agent.py:76-95 | the fields no input fills are always `"NO DISPONIBLE"`, and `volumen_cc` is always None; the identifier and the name come from the argument |
| `ReportAgent.MissingKnowledgeAndTriage` | src/agents/report_agent.py:39-40 | without knowledge the summary is the fixed no-history text; without triage the risk and its justification are the fixed defaults |
| `ReportAgent.BothLoopsJoin` | src/agents/report_agent.py:97-145 | from an empty row list, the two loops give one row per classification, in order, with its id and probability, and list every segmentation's id |
| `ReportAgent.ReportRows` | src/agents/report_agent.py:97-145 | the rows of a built report are joined from the classification and segmentation entries as `BothLoopsJoin` says |
| `ReportAgent.WriteAndEcho` | src/agents/report_agent.py:147-173 | the report is written to `data/temp/reporte_<lower id>.json` iff nothing raised before the write; an earlier exception writes nothing and echoes the arguments with its message |
| `ReportAgent.PdfOutcomes` | src/agents/report_agent.py:156-163 | a renderer reply with `error` gives the PDF-failure document; one with `pdf_path` gives `{"report_path": ...}`; one with neither raises `KeyError('pdf_path')` |
| `ReportAgent.NameAndPath` | src/agents/report_agent.py:43 | the patient name has the identifier's length; position by position, each `_` becomes a space and every other character is kept up to case, so no `_` is left; the JSON path does not depend on the identifier's case |
| `ReportAgent.ReportMaskKey` | src/agents/report_agent.py:76-95 | the report has `mask_file` and never `nombre_archivo_segmentado` |
| `ReportValidator.Validate` | src/agents/report_validator_agent.py:30-73 | the agent with its `is_valid` flag and `break`s answers as the specification says |
| `ReportValidator.VerdictCases` | src/agents/report_validator_agent.py:41-59 | when every classification and segmentation entry can be read (an entry that raises gives the error answer instead): the report is rejected for the diagnosis iff some entry predicts `"Tumor"` and the text lacks the diagnosis heading; otherwise it is rejected for the segmentation iff some entry has a truthy `saved_mask` and the text lacks the segmentation heading; otherwise it is approved |
| `ReportValidator.PathEchoed` | src/agents/report_validator_agent.py:65-73 | every answer is the unchanged path next to either a verdict or an error, and nothing more |
| `ReportValidator.UnreadableReportRejected` | src/agents/report_validator_agent.py:32-51 | a report that cannot be read has empty content, so a Tumor prediction at any position rejects it, provided no earlier entry raises |
| `ReportValidator.SegmenterEntriesNeverChecked` | src/agents/report_validator_agent.py:53-59 | entries the segmentation agent records, from the segmenter or for incomplete paths, never trigger the segmentation check |
| `ReportValidator.EntryWithoutMask` | src/agents/report_validator_agent.py:53-59 | an entry whose result is a dict without `saved_mask` never triggers the segmentation check |
| `Orchestrator.ReportAnswer` | src/agents/orchestrator_agent.py:94 | the report agent's answer is always a dict, so `.get("report_path")` never raises; its write goes to the patient's report path |
| `Orchestrator.Reported` | src/agents/orchestrator_agent.py:82-88 | the report agent's run with empty knowledge and triage answers a dict and writes only to the report path |
| `Orchestrator.Models` | src/agents/orchestrator_agent.py:82-100 | the report agent and the validator of their own modules answer dicts, and the report agent writes only the patient's report: all the run relies on (`Answers`) |
| `Orchestrator.Reporting` | src/agents/orchestrator_agent.py:82-100 | from the report agent on, for any downstream agents that meet `Answers`: the report call comes first with the documents as arguments, only later agents are called, and of the files the modelled agents write, the report is the only one written |
| `Orchestrator.Segmenting` | src/agents/orchestrator_agent.py:71-100 | from the segmentation agent on: it is called first with the lister's document, the calls stay in order, and of the files the modelled agents write, only artifacts are written |
| `Orchestrator.Classifying` | src/agents/orchestrator_agent.py:53-100 | from the classification agent on: it is called first with the lister's document, the calls stay in order, and of the files the modelled agents write, only artifacts are written |
| `Orchestrator.Listed` | src/agents/orchestrator_agent.py:37-100 | from the image lister on: it is called first for the patient, the calls stay in order, and of the files the modelled agents write, only artifacts are written |
| `Orchestrator.Pipeline` | src/agents/orchestrator_agent.py:22-103 | every answer is a dict; the planner is called first, then each agent at most once in the fixed order; the lister is called iff the planner answers and its text names the patient; of the files the modelled agents write, only the three artifacts are written |
| `Orchestrator.RunReporting` | src/agents/orchestrator_agent.py:82-100 | the report and validator steps answer, call and write as `Reporting` says of the modelled agents (`Models`) |
| `Orchestrator.RunSegmenting` | src/agents/orchestrator_agent.py:71-100 | the segmentation step and what follows answer, call and write as `Segmenting` says |
| `Orchestrator.RunClassifying` | src/agents/orchestrator_agent.py:55-100 | the classification step, the `should_segment` loop and what follows answer, call and write as `Classifying` says |
| `Orchestrator.Orchestrate` | src/agents/orchestrator_agent.py:17-103 | the agent answers, calls agents and leaves the files as `Pipeline` says of the modelled report agent and validator (`Models`) |
| `Orchestrator.PlannerOnce` | src/agents/orchestrator_agent.py:25 | the planner is called exactly once, before any other agent |
| `Orchestrator.PlannerRaiseStops` | src/agents/orchestrator_agent.py:22-25 | a planner call that raises ends the run with `{"error": str(e)}` and no other agent runs |
| `Orchestrator.NoPatientStops` | src/agents/orchestrator_agent.py:30-35 | without the patient's name in the plan, the answer is the no-identifier error and no other agent runs |
| `Orchestrator.ListerRaiseStops` | src/agents/orchestrator_agent.py:37-39 | an image lister call that raises ends the run with `{"error": str(e)}` before the classification agent |
| `Orchestrator.UnreadableListerFile` | src/agents/orchestrator_agent.py:44-45 | an unreadable lister file ends the run with the `KeyError` for `content` |
| `Orchestrator.ListerErrorStops` | src/agents/orchestrator_agent.py:48-49 | an `"error"` in the lister's document ends the run with that error before classification |
| `Orchestrator.PerScanErrorsContinue` | src/agents/orchestrator_agent.py:58-60 | an agent that processed every scan answers without a top-level `"error"`, so per-scan errors do not stop the run |
| `Orchestrator.ClassificationErrorStops` | src/agents/orchestrator_agent.py:58-60 | an `"error"` in the classification answer ends the run with that error before any later agent, and nothing was written |
| `Orchestrator.TumorThreshold` | src/agents/orchestrator_agent.py:65-68 | a `"Tumor"` entry with a numeric probability `p` triggers segmentation iff `p > 0.6`; exactly 0.6 does not |
| `Orchestrator.MissingProbabilityIsZero` | src/agents/orchestrator_agent.py:67 | a `"Tumor"` entry without a Tumor probability counts as 0 and does not trigger segmentation |
| `Orchestrator.OnlyTumorPredictions` | src/agents/orchestrator_agent.py:66 | only a `"Tumor"` prediction triggers segmentation; an entry holding a per-scan error never does |
| `Orchestrator.PastLister` | src/agents/orchestrator_agent.py:51-55 | past the lister, the run continues with the classification agent on the lister's document |
| `Orchestrator.SegmentCalledIffFlag` | src/agents/orchestrator_agent.py:63-73 | once the classification stage passes, the segmentation agent is called iff `should_segment` is set |
| `Orchestrator.SegmentationIffTumor` | src/agents/orchestrator_agent.py:63-73 | when no classification entry raises in the `should_segment` loop (an entry that raises ends the run with its error): the segmentation agent is called iff some classification entry triggers it |
| `Orchestrator.OnlyArtifactsChange` | src/agents/orchestrator_agent.py:53-88 | of the files the modelled agents write, a run leaves every one other than the classification, segmentation and report artifacts as it was |
| `Orchestrator.ValidatorIffReportPath` | src/agents/orchestrator_agent.py:94-100 | the validator is called iff the report's `report_path` is truthy, and its answer is the run's; otherwise the answer is the missing-path error |
| `Orchestrator.ReportArguments` | src/agents/orchestrator_agent.py:63-88 | without segmentation, the report agent follows classification directly and gets the classification document, `json.dumps([])`, and empty knowledge and triage |
| `Orchestrator.SegmentedReportArguments` | src/agents/orchestrator_agent.py:71-88 | with segmentation, the segmentation agent gets the lister's document and the report agent gets both answers |
| `Orchestrator.SegmentationErrorStops` | src/agents/orchestrator_agent.py:75-77 | an `"error"` in the segmentation answer ends the run with that error; the report agent is not called |
| `ChatContext.Embolden` | frontend/src/context/Context.jsx:33-41 | the indexed loop over the `**` pieces copies the even pieces and the first, and wraps every other piece in `<b>` |
| `ChatContext.FormatResponse` | frontend/src/context/Context.jsx:33-42 | the `**` loop and the `*` replacement compute the formatted response |
| `ChatContext.FormatRemovesStars` | frontend/src/context/Context.jsx:42 | the formatted response never contains `*` |
| `ChatContext.FormatIdentity` | frontend/src/context/Context.jsx:33-42 | a response without `*` is shown unchanged |
| `ChatContext.BoldPair` | frontend/src/context/Context.jsx:33-41 | `a**b**c` shows `b` in bold between `a` and `c` |
| `ChatContext.TrailingBold` | frontend/src/context/Context.jsx:33-41 | an unmatched `**` bolds the rest of the response |
| `ChatContext.SingleStarBreaks` | frontend/src/context/Context.jsx:42 | a single `*` becomes a line break |
| `ChatContext.UserPromptsExchange` | frontend/src/context/Context.jsx:45-49 | appending an exchange adds exactly its prompt to the user prompts of the history |
| `ChatContext.ExchangesAppend` | frontend/src/context/Context.jsx:45-49 | appending a user entry and then a bot entry keeps the history a sequence of user/bot exchanges |
| `ChatContext.SendKeepsInvariant` | frontend/src/context/Context.jsx:26-28 | appending a sent prompt keeps the chat invariant: exchanges, star-free bot entries, and every user entry a sent prompt |
| `ChatContext.AnswerKeepsInvariant` | frontend/src/context/Context.jsx:30-49 | appending the exchange of a sent prompt with its formatted answer keeps the chat invariant |
| `ChatContext.SendKeepsConsistent` | frontend/src/context/Context.jsx:26-49 | when sends do not overlap, a completed send keeps the history a sequence of user/bot exchanges whose bot entries have no `*` and whose prompts are the latest sent |
| `ChatContext.Chat.constructor` | frontend/src/context/Context.jsx:7-13 | the initial state: no prompts, empty input and result, flags cleared, empty history; it establishes the invariant |
| `ChatContext.Chat.Send` | frontend/src/context/Context.jsx:21-30 | before the `await`: the flags are set, and the prompt (the argument, or the input box when the argument is missing or empty) is recorded and appended to the sent prompts; the history and input are untouched; the invariant is kept |
| `ChatContext.Chat.Answered` | frontend/src/context/Context.jsx:30-59 | after `runChat` answers a sent prompt: the user entry and the formatted answer are appended to the current history, loading ends and the input is cleared; the invariant is kept |
| `ChatContext.Chat.OnSent` | frontend/src/context/Context.jsx:21-60 | one send answered before anything else happens: the prompt is recorded and appended to the sent prompts; the history gains the user entry, then the formatted answer; the input is cleared and the flags set; a history whose prompts were the latest sent stays so |
| `ChatContext.Chat.SetInput` | frontend/src/context/Context.jsx:8 | `setInput(s)`: the input box holds `s` and every other field is unchanged; the invariant is kept |
| `ChatContext.Chat.NewChat` | frontend/src/context/Context.jsx:62-67 | the history and the result are emptied and both flags cleared; the sent prompts, the input and the recent prompt are kept |

## Left out

- The planner, the image lister, the RAG and triage agents and every prompt file are language-model driven. The planner's answer, the lister's call and the lister's file are parameters, and each may raise; `swarm_strands/agents/planner_agent.py` and `src/agents/image_lister_agent.py` are not part of this model.
- The classifier and the segmenter's neural network, the volume loading and the plotting are not modelled. The tools are functions from a path pair to a reply. The segmenter loads the FLAIR volume from the T1CE path and the T1CE volume from the FLAIR path (src/tools/execute_brain_tumor_segmentation.py:286-287). That swap only affects pixel data, which is not modelled.
- Orchestrator.OnlyArtifactsChange: the store holds only the writes of the modelled agents (classification, segmentation and the report's JSON). It does not hold the image lister's write of `temp/lister.json` (src/agents/image_lister_agent.py:19, 29) or the PDF the renderer builds (src/agents/report_agent.py:156), so "every other file as it was" is about the modelled writes only. The same holds for the "only artifacts are written" clauses of `Orchestrator.Reporting`, `Segmenting`, `Classifying`, `Listed` and `Pipeline`.
- File, PDF and network I/O are not modelled. Reading is a parameter and writing is an update of the store's map. The PDF renderer is a parameter. A failed write is not modelled: the code ignores a write's reply.
- `json.dumps` followed by `json.loads` between the agents is the identity. Decoding a collaborator's text is abstract: a document or a decoding error. Duplicate keys keep their last value.
- `str()`, f-string and `{:.2f}` rendering are abstract functions. Numbers are exact (`0.6` is the real 0.6). Python's `==` between JSON values is approximated by `PyEq`.
- `str.lower` and `str.title` are modelled on ASCII letters only.
- The text of the report agent's two summary loops is never used by the code; the model keeps only the exceptions those loops can raise.
- ChatContext.Chat.OnSent: models one send whose `runChat` answers before any other event. Overlapping sends are `Chat.Send` and `Chat.Answered` interleaved, and a send whose `runChat` rejects is a `Chat.Send` with no `Chat.Answered`: `loading` stays set and the input is kept. Under interleaving only the invariant `ChatContext.ChatInvariant` is promised; that the history's prompts are the latest sent (`ChatContext.Consistent`) holds only for sends that do not overlap, and the model does not track that each send is answered at most once.
- The animation of the answer (`delayPara`, `setTimeout`, `frontend/src/context/Context.jsx:15-19`, 52-56) is not modelled, so `resultData` stays empty after `OnSent`. The rendering components and polling of the front end are not part of this model.
- Exceptions that `print` or logging could raise are not modelled.
