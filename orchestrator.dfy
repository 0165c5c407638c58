/** `orchestrator_agent`: the fixed sequence planner, patient identifier,
    image lister, classification, conditional segmentation, report and
    validator. A top-level `"error"` in an agent's answer, or any exception,
    ends the run with an error document; segmentation runs only when some
    classification predicts `"Tumor"` with a Tumor probability above 0.6. The
    planner and the image lister are collaborators whose behaviour is a
    parameter; the classification, segmentation, report and validator agents
    are the models of their own modules. */
module Orchestrator {
  import opened Wrappers
  import opened Strings
  import opened PyJson
  import opened Folds
  import opened FileStore
  import opened ScanWorker
  import ClassificationAgent
  import SegmentationAgent
  import ReportAgent
  import ReportValidator

  /** The patient name the planner's answer is searched for, as the source
      spells it (UTF-8 bytes of `é` read as Latin-1). */
  const PlannerPatient := "Carlos PÃ©rez Paco"
  const PatientId := "Carlos_Perez_Paco"
  const NoPatient := "Could not extract patient identifier from planner response."
  const ListerFailed := "Image lister failed: "
  const ClassificationFailed := "Classification failed: "
  const SegmentationFailed := "Segmentation failed: "
  const NoReportPath := "Report path not returned by report_agent."
  /** `str(KeyError("content"))`. */
  const NoContent := "'content'"
  /** What `json.loads("")` raises. */
  const EmptyInput := "Expecting value: line 1 column 1 (char 0)"

  /** The collaborators of one run:
      - `planner`: the text of `planner_agent(query)`, or the message of the
        exception the call raised;
      - `listed`: the message of the exception `image_lister_agent` raised
        for the given patient, or, once it has run, the reply of reading
        `temp/lister.json`;
      - `decode`: `json.loads` of that file's text;
      - `classify`, `segment`: the tools of the two per-scan agents;
      - `report`: the PDF renderer and value formatting of the report agent;
      - `readFile`: `read_file_from_local` as the validator calls it;
      - `dumps`: the text of `json.dumps(doc)`. */
  datatype Env = Env(
    planner: string -> Result<string>,
    listed: string -> Result<ReadReply>,
    decode: string -> Reply,
    classify: Tool,
    segment: Tool,
    report: ReportAgent.Services,
    readFile: Json -> ReadReply,
    dumps: Json -> string)

  /** One agent invocation, with the arguments it received. */
  datatype Call =
    | Plan(query: string)
    | List(patient: string)
    | Classify(data: Json)
    | Segment(data: Json)
    | Report(patient: string, classification: ReportAgent.Text, segmentation: ReportAgent.Text,
             knowledge: ReportAgent.Text, triage: ReportAgent.Text)
    | Validate(reportPath: Json, classificationDoc: Reply, segmentationDoc: Reply)

  /** The position of each agent in the fixed sequence. */
  function Rank(c: Call): nat {
    match c
    case Plan(_) => 0
    case List(_) => 1
    case Classify(_) => 2
    case Segment(_) => 3
    case Report(_, _, _, _, _) => 4
    case Validate(_, _, _) => 5
  }

  /** The calls follow the fixed sequence: no agent twice, none out of order. */
  predicate Ranked(calls: seq<Call>) {
    forall i, j :: 0 <= i < j < |calls| ==> Rank(calls[i]) < Rank(calls[j])
  }

  /** The calls are in order and none comes before position `n`. */
  predicate RankedFrom(calls: seq<Call>, n: nat) {
    Ranked(calls) && forall k :: 0 <= k < |calls| ==> n <= Rank(calls[k])
  }

  /** Calling an agent before the agents of an ordered run keeps it ordered. */
  lemma RankedPrepend(c: Call, calls: seq<Call>)
    requires RankedFrom(calls, Rank(c) + 1)
    ensures RankedFrom([c] + calls, Rank(c))
  {
    assert forall k :: 1 <= k < |[c] + calls| ==> ([c] + calls)[k] == calls[k - 1];
  }

  /** What a run answers, the agents it called in order, and the documents the
      agents wrote, in order. */
  datatype Run = Run(out: Json, calls: seq<Call>, writes: seq<(string, Json)>)

  /** `json.loads(json.loads(read_file_from_local("temp/lister.json"))["content"])`:
      a failed read answers `{"error": ...}`, which has no `"content"`. */
  function ListerData(reply: ReadReply, decode: string -> Reply): Result<Json> {
    match reply
    case ReadErr(_) => Raise(NoContent)
    case ReadOk(text) => Loads(decode(text))
  }

  /** The patient document after the image lister: the exception of the
      lister's call, or of reading and decoding its file. */
  function Listing(env: Env): Result<Json> {
    var reply :- env.listed(PatientId);
    ListerData(reply, env.decode)
  }

  /** The planner answered, and its text names the patient. */
  predicate PatientNamed(query: string, env: Env) {
    env.planner(query).Ok? && Contains(env.planner(query).value, PlannerPatient)
  }

  /** `if "error" in doc: return {"error": f"{prefix}{doc['error']}"}`: the
      message when the stage failed, none when the run goes on. */
  function StageFailure(doc: Json, prefix: string, fmt: Formatter): Result<Option<string>> {
    var failed :- In("error", doc);
    if !failed then Ok(None)
    else
      var e :- Index(doc, "error");
      Ok(Some(prefix + Str(e, fmt)))
  }

  /** One classification entry triggers segmentation:
      `c.get("result", {}).get("prediction") == "Tumor" and
       c.get("result", {}).get("probabilities", {}).get("Tumor", 0) > 0.6`. */
  function TumorAbove(cls: Json): Result<bool> {
    var result :- Get(cls, "result", JObj([]));
    var prediction :- Get(result, "prediction", JNull);
    if prediction != JStr("Tumor") then Ok(false)
    else
      var probabilities :- Get(result, "probabilities", JObj([]));
      var p :- Get(probabilities, "Tumor", JInt(0));
      Exceeds(p, 0.6)
  }

  /** The entries the `should_segment` loop visits: `data.get("classifications", [])`. */
  function Classifications(cdata: Json): Result<seq<Json>> {
    var v :- Get(cdata, "classifications", JArr([]));
    Elements(v)
  }

  /** The `should_segment` flag after its loop, which stops at the first hit. */
  function ShouldSegment(cdata: Json): Result<bool> {
    var items :- Classifications(cdata);
    Found(items, TumorAbove)
  }

  /** A string argument of the report agent made with `json.dumps(doc)`. */
  function Arg(env: Env, doc: Json): ReportAgent.Text {
    ReportAgent.Text(env.dumps(doc), Doc(doc))
  }

  /** The empty string passed as knowledge and triage. */
  const Unset := ReportAgent.Text("", NotJson(EmptyInput))

  /** The write of an agent that wrote `written` to `path`, if it wrote. */
  function WrittenAt(path: string, written: Option<Json>): seq<(string, Json)> {
    if written.Some? then [(path, written.value)] else []
  }

  /** The paths the agents of a run write to. */
  predicate Artifact(path: string) {
    path == ClassificationAgent.OutputPath || path == SegmentationAgent.OutputPath ||
    path == ReportAgent.ReportPath(PatientId)
  }

  /** Every write goes to one of the artifact paths. */
  predicate OnlyArtifacts(writes: seq<(string, Json)>) {
    forall k :: 0 <= k < |writes| ==> Artifact(writes[k].0)
  }

  /** The writes of two stages that write only artifacts write only artifacts. */
  lemma ArtifactsAppend(a: seq<(string, Json)>, b: seq<(string, Json)>)
    requires OnlyArtifacts(a) && OnlyArtifacts(b)
    ensures OnlyArtifacts(a + b)
  {
    forall k | 0 <= k < |a + b|
      ensures Artifact((a + b)[k].0)
    {
      if k < |a| {
        assert (a + b)[k] == a[k];
      } else {
        assert (a + b)[k] == b[k - |a|];
      }
    }
  }

  /** The report agent's answer is always a dict, so `.get("report_path")`
      never raises, and the report it writes goes to the patient's report path. */
  lemma ReportAnswer(pid: string, c: ReportAgent.Text, s: ReportAgent.Text, k: ReportAgent.Text, t: ReportAgent.Text,
                     svc: ReportAgent.Services)
    ensures ReportAgent.Compose(pid, c, s, k, t, svc).out.JObj?
    ensures ReportAgent.Compose(pid, c, s, k, t, svc).written.Some? ==>
              ReportAgent.Compose(pid, c, s, k, t, svc).written.value.0 == ReportAgent.ReportPath(pid)
  {
  }

  /** The report agent's run on the classification and segmentation
      documents, with empty knowledge and triage. */
  function Reported(env: Env, cdata: Json, sdata: Json): (r: ReportAgent.ReportRun)
    ensures r.out.JObj?
    ensures r.written.Some? ==> r.written.value.0 == ReportAgent.ReportPath(PatientId)
  {
    ReportAnswer(PatientId, Arg(env, cdata), Arg(env, sdata), Unset, Unset, env.report);
    ReportAgent.Compose(PatientId, Arg(env, cdata), Arg(env, sdata), Unset, Unset, env.report)
  }

  /** The agents after segmentation, as the orchestrator calls them: the
      report agent on the classification and segmentation documents (with
      empty knowledge and triage), and the validator on a report path and the
      two documents. */
  datatype Downstream = Downstream(report: (Json, Json) -> ReportAgent.ReportRun,
                                   validate: (Json, Json, Json) -> Json)

  /** What the orchestrator relies on of those agents: the report agent
      answers a dict and writes only the patient's report, and the validator
      answers a dict. */
  ghost predicate Answers(down: Downstream) {
    (forall cdata, sdata :: down.report(cdata, sdata).out.JObj? &&
       (down.report(cdata, sdata).written.Some? ==>
          down.report(cdata, sdata).written.value.0 == ReportAgent.ReportPath(PatientId))) &&
    (forall path, cdata, sdata :: down.validate(path, cdata, sdata).JObj?)
  }

  /** The report agent and the validator as their own modules model them. */
  function Models(env: Env): (down: Downstream)
    ensures Answers(down)
    ensures forall cdata, sdata :: down.report(cdata, sdata) == Reported(env, cdata, sdata)
    ensures forall path, cdata, sdata ::
              down.validate(path, cdata, sdata) == ReportValidator.ValidateSpec(path, Doc(cdata), Doc(sdata), env.readFile)
  {
    Downstream((cdata, sdata) => Reported(env, cdata, sdata),
               (path, cdata, sdata) => ReportValidator.ValidateSpec(path, Doc(cdata), Doc(sdata), env.readFile))
  }

  /** From the report agent on: the report, then the validator when the
      report answered a truthy `report_path`. */
  function Reporting(env: Env, down: Downstream, cdata: Json, sdata: Json): (r: Run)
    requires Answers(down)
    ensures r.out.JObj? && RankedFrom(r.calls, 4)
    ensures |r.calls| >= 1 && r.calls[0] == Report(PatientId, Arg(env, cdata), Arg(env, sdata), Unset, Unset)
    ensures r.writes == if down.report(cdata, sdata).written.Some? then [down.report(cdata, sdata).written.value] else []
    ensures OnlyArtifacts(r.writes)
  {
    var report := down.report(cdata, sdata);
    var call := Report(PatientId, Arg(env, cdata), Arg(env, sdata), Unset, Unset);
    var writes := if report.written.Some? then [report.written.value] else [];
    match Get(report.out, "report_path", JNull)
    case Raise(m) => Run(ErrorDoc(m), [call], writes)
    case Ok(path) =>
      if Truthy(path) then
        Run(down.validate(path, cdata, sdata), [call, Validate(path, Doc(cdata), Doc(sdata))], writes)
      else Run(ErrorDoc(NoReportPath), [call], writes)
  }

  /** From the segmentation agent on, given its run, when `should_segment` is set. */
  function Segmenting(env: Env, down: Downstream, lister: Json, cdata: Json, segmentation: AgentRun): (r: Run)
    requires Answers(down)
    ensures r.out.JObj? && RankedFrom(r.calls, 3) && |r.calls| >= 1 && r.calls[0] == Segment(lister)
    ensures OnlyArtifacts(r.writes)
  {
    var written := WrittenAt(SegmentationAgent.OutputPath, segmentation.written);
    match StageFailure(segmentation.out, SegmentationFailed, env.report.fmt)
    case Raise(m) => Run(ErrorDoc(m), [Segment(lister)], written)
    case Ok(Some(m)) => Run(ErrorDoc(m), [Segment(lister)], written)
    case Ok(None) =>
      var rest := Reporting(env, down, cdata, segmentation.out);
      RankedPrepend(Segment(lister), rest.calls);
      ArtifactsAppend(written, rest.writes);
      Run(rest.out, [Segment(lister)] + rest.calls, written + rest.writes)
  }

  /** From the classification agent on, given its run. */
  function Classifying(env: Env, down: Downstream, lister: Json, classification: AgentRun): (r: Run)
    requires Answers(down)
    ensures r.out.JObj? && RankedFrom(r.calls, 2) && |r.calls| >= 1 && r.calls[0] == Classify(lister)
    ensures OnlyArtifacts(r.writes)
  {
    var cdata := classification.out;
    var written := WrittenAt(ClassificationAgent.OutputPath, classification.written);
    match StageFailure(cdata, ClassificationFailed, env.report.fmt)
    case Raise(m) => Run(ErrorDoc(m), [Classify(lister)], written)
    case Ok(Some(m)) => Run(ErrorDoc(m), [Classify(lister)], written)
    case Ok(None) =>
      match ShouldSegment(cdata)
      case Raise(m) => Run(ErrorDoc(m), [Classify(lister)], written)
      case Ok(false) =>
        var rest := Reporting(env, down, cdata, JArr([]));
        RankedPrepend(Classify(lister), rest.calls);
        ArtifactsAppend(written, rest.writes);
        Run(rest.out, [Classify(lister)] + rest.calls, written + rest.writes)
      case Ok(true) =>
        var rest := Segmenting(env, down, lister, cdata, Agent(SegmentationAgent.Segmentation, lister, env.segment));
        RankedPrepend(Classify(lister), rest.calls);
        ArtifactsAppend(written, rest.writes);
        Run(rest.out, [Classify(lister)] + rest.calls, written + rest.writes)
  }

  /** From the image lister on, once it produced the patient document `lister`. */
  function Listed(env: Env, down: Downstream, lister: Json): (r: Run)
    requires Answers(down)
    ensures r.out.JObj? && RankedFrom(r.calls, 1) && |r.calls| >= 2 && r.calls[0] == List(PatientId)
    ensures OnlyArtifacts(r.writes)
  {
    var rest := Classifying(env, down, lister, Agent(ClassificationAgent.Classification, lister, env.classify));
    RankedPrepend(List(PatientId), rest.calls);
    Run(rest.out, [List(PatientId)] + rest.calls, rest.writes)
  }

  /** The whole run for a query: its answer (every answer a dict), the agents
      called (the planner first, then each agent at most once, in the fixed
      order), and the documents written. */
  function Pipeline(query: string, env: Env, down: Downstream): (r: Run)
    requires Answers(down)
    ensures r.out.JObj? && RankedFrom(r.calls, 0) && |r.calls| >= 1 && r.calls[0] == Plan(query)
    ensures PatientNamed(query, env) <==> |r.calls| >= 2 && r.calls[1] == List(PatientId)
    ensures OnlyArtifacts(r.writes)
  {
    match env.planner(query)
    case Raise(m) => Run(ErrorDoc(m), [Plan(query)], [])
    case Ok(plan) =>
      if !Contains(plan, PlannerPatient) then Run(ErrorDoc(NoPatient), [Plan(query)], [])
      else
        var calls := [Plan(query), List(PatientId)];
        match Listing(env)
        case Raise(m) => Run(ErrorDoc(m), calls, [])
        case Ok(lister) =>
          match StageFailure(lister, ListerFailed, env.report.fmt)
          case Raise(m) => Run(ErrorDoc(m), calls, [])
          case Ok(Some(m)) => Run(ErrorDoc(m), calls, [])
          case Ok(None) =>
            var rest := Listed(env, down, lister);
            RankedPrepend(Plan(query), rest.calls);
            Run(rest.out, [Plan(query)] + rest.calls, rest.writes)
  }

  /** An agent's run followed by the rest of the pipeline leaves the store as
      the two sequences of writes applied in order. */
  lemma ThenWrites(docs0: map<string, Json>, written: seq<(string, Json)>, middle: map<string, Json>,
                   rest: seq<(string, Json)>, after: map<string, Json>)
    requires |written| <= 1
    requires written == [] ==> middle == docs0
    requires |written| == 1 ==> middle == docs0[written[0].0 := written[0].1]
    requires after == ApplyWrites(middle, rest)
    ensures after == ApplyWrites(docs0, written + rest)
  {
    ApplyWritesAppend(docs0, written, rest);
    if |written| == 1 {
      assert written[1..] == [];
    }
  }

  /** The report agent and the validator, proved to compute `Reporting`. */
  method RunReporting(env: Env, cdata: Json, sdata: Json, store: Store) returns (out: Json, ghost calls: seq<Call>)
    modifies store
    ensures out == Reporting(env, Models(env), cdata, sdata).out
    ensures calls == Reporting(env, Models(env), cdata, sdata).calls
    ensures store.docs == ApplyWrites(old(store.docs), Reporting(env, Models(env), cdata, sdata).writes)
  {
    var c := Arg(env, cdata);
    var s := Arg(env, sdata);
    ghost var report := Reported(env, cdata, sdata);
    ghost var r := Reporting(env, Models(env), cdata, sdata);
    var reportOut := ReportAgent.Run(PatientId, c, s, Unset, Unset, env.report, store);
    assert reportOut == report.out;
    ThenWrites(old(store.docs), r.writes, store.docs, [], store.docs);
    assert r.writes + [] == r.writes;
    calls := [Report(PatientId, c, s, Unset, Unset)];
    var reportPath := Get(reportOut, "report_path", JNull);
    if reportPath.Raise? {
      return ErrorDoc(reportPath.message), calls;
    }
    if Truthy(reportPath.value) {
      out := ReportValidator.Validate(reportPath.value, Doc(cdata), Doc(sdata), env.readFile);
      calls := calls + [Validate(reportPath.value, Doc(cdata), Doc(sdata))];
      return;
    }
    return ErrorDoc(NoReportPath), calls;
  }

  /** The segmentation agent and the rest, proved to compute `Segmenting`. */
  method RunSegmenting(env: Env, data: Json, cdata: Json, store: Store) returns (out: Json, ghost calls: seq<Call>)
    modifies store
    ensures out == Segmenting(env, Models(env), data, cdata, Agent(SegmentationAgent.Segmentation, data, env.segment)).out
    ensures calls == Segmenting(env, Models(env), data, cdata, Agent(SegmentationAgent.Segmentation, data, env.segment)).calls
    ensures store.docs ==
            ApplyWrites(old(store.docs), Segmenting(env, Models(env), data, cdata, Agent(SegmentationAgent.Segmentation, data, env.segment)).writes)
  {
    ghost var segmentation := Agent(SegmentationAgent.Segmentation, data, env.segment);
    ghost var written := WrittenAt(SegmentationAgent.OutputPath, segmentation.written);
    ghost var toolCalls;
    var sdata;
    sdata, toolCalls := SegmentationAgent.Run(data, env.segment, store);
    ghost var middle := store.docs;
    calls := [Segment(data)];
    var failure := StageFailure(sdata, SegmentationFailed, env.report.fmt);
    if failure.Raise? {
      ThenWrites(old(store.docs), written, middle, [], store.docs);
      return ErrorDoc(failure.message), calls;
    }
    if failure.value.Some? {
      ThenWrites(old(store.docs), written, middle, [], store.docs);
      return ErrorDoc(failure.value.value), calls;
    }
    ghost var rest;
    out, rest := RunReporting(env, cdata, sdata, store);
    calls := calls + rest;
    ThenWrites(old(store.docs), written, middle, Reporting(env, Models(env), cdata, sdata).writes, store.docs);
  }

  /** The classification agent, the `should_segment` loop and the rest,
      proved to compute `Classifying`. */
  method RunClassifying(env: Env, data: Json, store: Store) returns (out: Json, ghost calls: seq<Call>)
    modifies store
    ensures out == Classifying(env, Models(env), data, Agent(ClassificationAgent.Classification, data, env.classify)).out
    ensures calls == Classifying(env, Models(env), data, Agent(ClassificationAgent.Classification, data, env.classify)).calls
    ensures store.docs ==
            ApplyWrites(old(store.docs), Classifying(env, Models(env), data, Agent(ClassificationAgent.Classification, data, env.classify)).writes)
  {
    ghost var classification := Agent(ClassificationAgent.Classification, data, env.classify);
    ghost var written := WrittenAt(ClassificationAgent.OutputPath, classification.written);
    ghost var toolCalls;
    var cdata;
    cdata, toolCalls := ClassificationAgent.Run(data, env.classify, store);
    ghost var middle := store.docs;
    calls := [Classify(data)];
    var failure := StageFailure(cdata, ClassificationFailed, env.report.fmt);
    if failure.Raise? {
      ThenWrites(old(store.docs), written, middle, [], store.docs);
      return ErrorDoc(failure.message), calls;
    }
    if failure.value.Some? {
      ThenWrites(old(store.docs), written, middle, [], store.docs);
      return ErrorDoc(failure.value.value), calls;
    }
    var items := Classifications(cdata);
    if items.Raise? {
      ThenWrites(old(store.docs), written, middle, [], store.docs);
      return ErrorDoc(items.message), calls;
    }
    var shouldSegment := FoundLoop(items.value, TumorAbove);
    if shouldSegment.Raise? {
      ThenWrites(old(store.docs), written, middle, [], store.docs);
      return ErrorDoc(shouldSegment.message), calls;
    }
    ghost var rest;
    if shouldSegment.value {
      out, rest := RunSegmenting(env, data, cdata, store);
      ThenWrites(old(store.docs), written, middle,
                 Segmenting(env, Models(env), data, cdata, Agent(SegmentationAgent.Segmentation, data, env.segment)).writes, store.docs);
    } else {
      out, rest := RunReporting(env, cdata, JArr([]), store);
      ThenWrites(old(store.docs), written, middle, Reporting(env, Models(env), cdata, JArr([])).writes,
                 store.docs);
    }
    calls := calls + rest;
  }

  /** The agent, proved to compute `Pipeline`: its answer, the agents it
      calls, and the documents those agents leave in the store. */
  method Orchestrate(query: string, env: Env, store: Store) returns (out: Json, ghost calls: seq<Call>)
    modifies store
    ensures out == Pipeline(query, env, Models(env)).out && calls == Pipeline(query, env, Models(env)).calls
    ensures store.docs == ApplyWrites(old(store.docs), Pipeline(query, env, Models(env)).writes)
  {
    calls := [Plan(query)];
    var plan := env.planner(query);
    if plan.Raise? {
      return ErrorDoc(plan.message), calls;
    }
    var patient: Option<string> := None;
    if Contains(plan.value, PlannerPatient) {
      patient := Some(PatientId);
    }
    if patient.None? {
      return ErrorDoc(NoPatient), calls;
    }
    var pid := patient.value;
    calls := calls + [List(pid)];
    var reply := env.listed(pid);
    if reply.Raise? {
      return ErrorDoc(reply.message), calls;
    }
    var lister := ListerData(reply.value, env.decode);
    if lister.Raise? {
      return ErrorDoc(lister.message), calls;
    }
    var failure := StageFailure(lister.value, ListerFailed, env.report.fmt);
    if failure.Raise? {
      return ErrorDoc(failure.message), calls;
    }
    if failure.value.Some? {
      return ErrorDoc(failure.value.value), calls;
    }
    ghost var rest;
    out, rest := RunClassifying(env, lister.value, store);
    PastLister(query, env, Models(env), lister.value);
    assert calls + rest == [Plan(query), List(PatientId)] + rest;
    calls := calls + rest;
  }

  // ---------------------------------------------------------------------
  // Properties of the run.

  /** The planner is called exactly once, before any other agent. */
  lemma PlannerOnce(query: string, env: Env, down: Downstream)
    requires Answers(down)
    ensures var calls := Pipeline(query, env, down).calls;
            calls[0] == Plan(query) && forall k :: 1 <= k < |calls| ==> !calls[k].Plan?
  {
    var calls := Pipeline(query, env, down).calls;
    forall k | 1 <= k < |calls|
      ensures !calls[k].Plan?
    {
      assert Rank(calls[0]) < Rank(calls[k]);
    }
  }

  /** A planner call that raises ends the run with its message; no other
      agent runs. */
  lemma PlannerRaiseStops(query: string, env: Env, down: Downstream)
    requires Answers(down)
    requires env.planner(query).Raise?
    ensures Pipeline(query, env, down) == Run(ErrorDoc(env.planner(query).message), [Plan(query)], [])
  {
  }

  /** Without the patient's name in the plan the answer is the error and no
      other agent runs. */
  lemma NoPatientStops(query: string, env: Env, down: Downstream, plan: string)
    requires Answers(down)
    requires env.planner(query) == Ok(plan) && !Contains(plan, PlannerPatient)
    ensures Pipeline(query, env, down) == Run(ErrorDoc(NoPatient), [Plan(query)], [])
  {
  }

  /** An image lister call that raises ends the run with its message, before
      the classification agent. */
  lemma ListerRaiseStops(query: string, env: Env, down: Downstream)
    requires Answers(down)
    requires PatientNamed(query, env)
    requires env.listed(PatientId).Raise?
    ensures Pipeline(query, env, down) ==
            Run(ErrorDoc(env.listed(PatientId).message), [Plan(query), List(PatientId)], [])
  {
  }

  /** A lister file that cannot be read ends the run with the `KeyError` of
      the missing `"content"`. */
  lemma UnreadableListerFile(query: string, env: Env, down: Downstream)
    requires Answers(down)
    requires PatientNamed(query, env)
    requires env.listed(PatientId).Ok? && env.listed(PatientId).value.ReadErr?
    ensures Pipeline(query, env, down) == Run(ErrorDoc(NoContent), [Plan(query), List(PatientId)], [])
  {
  }

  /** An `"error"` key in the lister's document ends the run with that error,
      before the classification agent. */
  lemma ListerErrorStops(query: string, env: Env, down: Downstream, lister: Json)
    requires Answers(down)
    requires PatientNamed(query, env)
    requires Listing(env) == Ok(lister)
    requires HasKey(lister, "error")
    ensures Pipeline(query, env, down) ==
            Run(ErrorDoc(ListerFailed + Str(Lookup(lister.fields, "error").value, env.report.fmt)),
                [Plan(query), List(PatientId)], [])
  {
  }

  /** The run gets past the image lister with the patient document `lister`. */
  predicate ListerPassed(query: string, env: Env, lister: Json) {
    PatientNamed(query, env) &&
    Listing(env) == Ok(lister) &&
    StageFailure(lister, ListerFailed, env.report.fmt) == Ok(None)
  }

  /** The classification agent's answer for the patient document. */
  function Classified(env: Env, lister: Json): Json {
    Agent(ClassificationAgent.Classification, lister, env.classify).out
  }

  /** Per-scan errors stay inside their entries: an agent that processed every
      scan (and wrote its answer) answers without a top-level `"error"`, so the
      run goes on. */
  lemma PerScanErrorsContinue(w: Worker, data: Json, tool: Tool, prefix: string, fmt: Formatter)
    requires w.listKey != "error"
    requires Agent(w, data, tool).written.Some?
    ensures !HasKey(Agent(w, data, tool).out, "error")
    ensures StageFailure(Agent(w, data, tool).out, prefix, fmt) == Ok(None)
  {
    var out := Agent(w, data, tool).out;
    assert out.fields[0].0 == "patient_identifier" && out.fields[1].0 == w.listKey && |out.fields| == 2;
    LookupAbsent(out.fields, "error");
  }

  /** A top-level `"error"` in the classification agent's answer ends the run
      with that error before any later agent; such an answer was not written. */
  lemma ClassificationErrorStops(query: string, env: Env, down: Downstream, lister: Json)
    requires Answers(down)
    requires ListerPassed(query, env, lister)
    requires HasKey(Classified(env, lister), "error")
    ensures Pipeline(query, env, down) ==
            Run(ErrorDoc(ClassificationFailed + Str(Lookup(Classified(env, lister).fields, "error").value, env.report.fmt)),
                [Plan(query), List(PatientId), Classify(lister)], [])
  {
    if Agent(ClassificationAgent.Classification, lister, env.classify).written.Some? {
      PerScanErrorsContinue(ClassificationAgent.Classification, lister, env.classify, ClassificationFailed, env.report.fmt);
    }
  }

  /** An entry whose classifier result predicts `"Tumor"` with a numeric Tumor
      probability `p` triggers segmentation iff `p > 0.6`: exactly 0.6 does not. */
  lemma TumorThreshold(scanId: Json, result: seq<(string, Json)>, probabilities: seq<(string, Json)>, p: Json)
    requires Lookup(result, "prediction") == Some(JStr("Tumor"))
    requires Lookup(result, "probabilities") == Some(JObj(probabilities))
    requires Lookup(probabilities, "Tumor") == Some(p) && NumberOf(p).Some?
    ensures TumorAbove(EntryDoc(scanId, JObj(result))) == Ok(NumberOf(p).value > 0.6)
  {
    assert EntryDoc(scanId, JObj(result)).fields[1] == ("result", JObj(result));
    LookupLiteral(EntryDoc(scanId, JObj(result)).fields, "result", JObj(result));
  }

  /** A `"Tumor"` prediction without probabilities, or without a Tumor
      probability, counts as probability 0 and does not trigger segmentation. */
  lemma MissingProbabilityIsZero(scanId: Json, result: seq<(string, Json)>, probabilities: seq<(string, Json)>)
    requires Lookup(result, "prediction") == Some(JStr("Tumor"))
    requires Lookup(result, "probabilities") == None ||
             (Lookup(result, "probabilities") == Some(JObj(probabilities)) && Lookup(probabilities, "Tumor") == None)
    ensures TumorAbove(EntryDoc(scanId, JObj(result))) == Ok(false)
  {
    assert EntryDoc(scanId, JObj(result)).fields[1] == ("result", JObj(result));
    LookupLiteral(EntryDoc(scanId, JObj(result)).fields, "result", JObj(result));
  }

  /** Only a `"Tumor"` prediction triggers segmentation, and an entry that
      records a per-scan error never does. */
  lemma OnlyTumorPredictions(scanId: Json, result: seq<(string, Json)>, message: string)
    requires Lookup(result, "prediction") != Some(JStr("Tumor"))
    ensures TumorAbove(EntryDoc(scanId, JObj(result))) == Ok(false)
    ensures TumorAbove(EntryDoc(scanId, ErrorDoc(message))) == Ok(false)
  {
    assert EntryDoc(scanId, JObj(result)).fields[1] == ("result", JObj(result));
    LookupLiteral(EntryDoc(scanId, JObj(result)).fields, "result", JObj(result));
    assert EntryDoc(scanId, ErrorDoc(message)).fields[1] == ("result", ErrorDoc(message));
    LookupLiteral(EntryDoc(scanId, ErrorDoc(message)).fields, "result", ErrorDoc(message));
    LookupAbsent(ErrorDoc(message).fields, "prediction");
  }

  /** Past the lister, the run continues with the classification agent on the
      lister's document. */
  lemma PastLister(query: string, env: Env, down: Downstream, lister: Json)
    requires Answers(down)
    requires ListerPassed(query, env, lister)
    ensures var rest := Classifying(env, down, lister, Agent(ClassificationAgent.Classification, lister, env.classify));
            Pipeline(query, env, down) == Run(rest.out, [Plan(query), List(PatientId)] + rest.calls, rest.writes)
  {
    assert Listing(env) == Ok(lister);
    assert StageFailure(lister, ListerFailed, env.report.fmt) == Ok(None);
    var rest := Classifying(env, down, lister, Agent(ClassificationAgent.Classification, lister, env.classify));
    assert Listed(env, down, lister) == Run(rest.out, [List(PatientId)] + rest.calls, rest.writes);
    assert [Plan(query)] + ([List(PatientId)] + rest.calls) == [Plan(query), List(PatientId)] + rest.calls;
  }

  /** Once the classification stage passes, the segmentation agent is called
      iff `should_segment` is set. */
  lemma SegmentCalledIffFlag(env: Env, down: Downstream, lister: Json, classification: AgentRun, shouldSegment: bool)
    requires Answers(down)
    requires StageFailure(classification.out, ClassificationFailed, env.report.fmt) == Ok(None)
    requires ShouldSegment(classification.out) == Ok(shouldSegment)
    ensures Segment(lister) in Classifying(env, down, lister, classification).calls <==> shouldSegment
  {
    var cdata := classification.out;
    var calls := Classifying(env, down, lister, classification).calls;
    if shouldSegment {
      assert calls[1] == Segment(lister);
    } else {
      var rest := Reporting(env, down, cdata, JArr([]));
      assert calls == [Classify(lister)] + rest.calls;
      forall k | 0 <= k < |calls|
        ensures calls[k] != Segment(lister)
      {
        if k >= 1 {
          assert calls[k] == rest.calls[k - 1];
        }
      }
    }
  }

  /** When the classification stage passes and no entry raises in the
      `should_segment` loop, the segmentation agent is called iff some entry
      triggers it. */
  lemma SegmentationIffTumor(query: string, env: Env, down: Downstream, lister: Json, items: seq<Json>)
    requires Answers(down)
    requires ListerPassed(query, env, lister)
    requires StageFailure(Classified(env, lister), ClassificationFailed, env.report.fmt) == Ok(None)
    requires Classifications(Classified(env, lister)) == Ok(items)
    requires forall k :: 0 <= k < |items| ==> TumorAbove(items[k]).Ok?
    ensures Segment(lister) in Pipeline(query, env, down).calls <==>
            exists k :: 0 <= k < |items| && TumorAbove(items[k]) == Ok(true)
  {
    FoundExists(items, TumorAbove);
    PastLister(query, env, down, lister);
    var classification := Agent(ClassificationAgent.Classification, lister, env.classify);
    SegmentCalledIffFlag(env, down, lister, classification, ShouldSegment(classification.out).value);
    var later := Classifying(env, down, lister, classification).calls;
    assert Pipeline(query, env, down).calls == [Plan(query), List(PatientId)] + later;
  }

  /** A run leaves every document outside the three artifact paths as it was:
      the classification and segmentation results and the patient's report are
      the only files the agents write. */
  lemma OnlyArtifactsChange(query: string, env: Env, down: Downstream, docs0: map<string, Json>, path: string)
    requires Answers(down)
    requires !Artifact(path)
    ensures var docs := ApplyWrites(docs0, Pipeline(query, env, down).writes);
            (path in docs <==> path in docs0) && (path in docs0 ==> docs[path] == docs0[path])
  {
    UntouchedPath(docs0, Pipeline(query, env, down).writes, path);
  }

  /** The report stage: `.get("report_path")` on the report agent's answer never
      raises; a truthy path is handed to the validator, whose answer is the
      run's, and a missing or falsy one ends the run with the error. */
  lemma ValidatorIffReportPath(env: Env, down: Downstream, cdata: Json, sdata: Json)
    requires Answers(down)
    ensures var report := down.report(cdata, sdata);
            var r := Reporting(env, down, cdata, sdata);
            var path := Get(report.out, "report_path", JNull);
            path.Ok? &&
            (Truthy(path.value) ==>
               r.calls == [r.calls[0], Validate(path.value, Doc(cdata), Doc(sdata))] &&
               r.out == down.validate(path.value, cdata, sdata)) &&
            (!Truthy(path.value) ==> |r.calls| == 1 && r.out == ErrorDoc(NoReportPath))
  {
  }

  /** Without segmentation, the report agent gets the classification document
      and `json.dumps([])` for segmentation, the empty string for knowledge and
      triage, and follows the classification agent directly. */
  lemma ReportArguments(query: string, env: Env, down: Downstream, lister: Json)
    requires Answers(down)
    requires ListerPassed(query, env, lister)
    requires StageFailure(Classified(env, lister), ClassificationFailed, env.report.fmt) == Ok(None)
    requires ShouldSegment(Classified(env, lister)) == Ok(false)
    ensures var calls := Pipeline(query, env, down).calls;
            |calls| >= 4 && calls[..4] ==
              [Plan(query), List(PatientId), Classify(lister),
               Report(PatientId, Arg(env, Classified(env, lister)), Arg(env, JArr([])), Unset, Unset)]
  {
    PastLister(query, env, down, lister);
    var cdata := Classified(env, lister);
    var rest := Reporting(env, down, cdata, JArr([]));
    var classifying := Classifying(env, down, lister, Agent(ClassificationAgent.Classification, lister, env.classify));
    assert classifying.calls == [Classify(lister)] + rest.calls;
  }

  /** The segmentation agent's answer for the patient document. */
  function Segmented(env: Env, lister: Json): Json {
    Agent(SegmentationAgent.Segmentation, lister, env.segment).out
  }

  /** With segmentation, the segmentation agent gets the lister's document and
      the report agent gets both agents' answers. */
  lemma SegmentedReportArguments(query: string, env: Env, down: Downstream, lister: Json)
    requires Answers(down)
    requires ListerPassed(query, env, lister)
    requires StageFailure(Classified(env, lister), ClassificationFailed, env.report.fmt) == Ok(None)
    requires ShouldSegment(Classified(env, lister)) == Ok(true)
    requires StageFailure(Segmented(env, lister), SegmentationFailed, env.report.fmt) == Ok(None)
    ensures var calls := Pipeline(query, env, down).calls;
            |calls| >= 5 && calls[..5] ==
              [Plan(query), List(PatientId), Classify(lister), Segment(lister),
               Report(PatientId, Arg(env, Classified(env, lister)), Arg(env, Segmented(env, lister)), Unset, Unset)]
  {
    PastLister(query, env, down, lister);
    var cdata := Classified(env, lister);
    var sdata := Segmented(env, lister);
    var rest := Reporting(env, down, cdata, sdata);
    var segmenting := Segmenting(env, down, lister, cdata, Agent(SegmentationAgent.Segmentation, lister, env.segment));
    assert segmenting.calls == [Segment(lister)] + rest.calls;
    var classifying := Classifying(env, down, lister, Agent(ClassificationAgent.Classification, lister, env.classify));
    assert classifying.calls == [Classify(lister)] + segmenting.calls;
  }

  /** A top-level `"error"` in the segmentation agent's answer ends the run with
      that error; the report agent is not called. */
  lemma SegmentationErrorStops(query: string, env: Env, down: Downstream, lister: Json)
    requires Answers(down)
    requires ListerPassed(query, env, lister)
    requires StageFailure(Classified(env, lister), ClassificationFailed, env.report.fmt) == Ok(None)
    requires ShouldSegment(Classified(env, lister)) == Ok(true)
    requires HasKey(Segmented(env, lister), "error")
    ensures Pipeline(query, env, down).out ==
            ErrorDoc(SegmentationFailed + Str(Lookup(Segmented(env, lister).fields, "error").value, env.report.fmt))
    ensures Pipeline(query, env, down).calls == [Plan(query), List(PatientId), Classify(lister), Segment(lister)]
  {
    PastLister(query, env, down, lister);
    var cdata := Classified(env, lister);
    var segmentation := Agent(SegmentationAgent.Segmentation, lister, env.segment);
    if segmentation.written.Some? {
      PerScanErrorsContinue(SegmentationAgent.Segmentation, lister, env.segment, SegmentationFailed, env.report.fmt);
    }
    var segmenting := Segmenting(env, down, lister, cdata, segmentation);
    assert segmenting.calls == [Segment(lister)];
    var classifying := Classifying(env, down, lister, Agent(ClassificationAgent.Classification, lister, env.classify));
    assert classifying.calls == [Classify(lister)] + segmenting.calls;
  }
}
