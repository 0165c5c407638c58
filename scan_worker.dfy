/** The per-scan worker loop that `clasificacion_agent` and `segmentator_agent`
    both run: read the patient document, refuse an empty `scans`, call a
    per-pair tool for every scan with both image paths, record one entry per
    scan, write the result document and return it. Any exception turns the
    whole answer into `{"error": str(e)}`. The two agents differ only in the
    key of the entry list, the empty-scans message and the output path, which
    `Worker` carries. */
module ScanWorker {
  import opened Wrappers
  import opened PyJson
  import FileStore

  /** What sets the classification agent and the segmentation agent apart. */
  datatype Worker = Worker(listKey: string, noScansMessage: string, outputPath: string)

  /** A per-pair tool (`classify_tumor_from_image`, `segmenter_tumor_from_image`)
      applied to the `flair_path` and `t1ce_path` values of one scan; it answers
      with JSON text. */
  type Tool = (Json, Json) -> Reply

  const IncompletePaths := "Rutas de imagen incompletas."
  const UnknownScan := "unknown_scan"
  const UnknownPatient := "unknown"

  /** `{"scan_id": scanId, "result": result}`, one entry of the output list. */
  function EntryDoc(scanId: Json, result: Json): Json {
    JObj([("scan_id", scanId), ("result", result)])
  }

  /** The three values the loop body reads from one element of `scans`. */
  datatype ScanFields = ScanFields(flair: Json, t1ce: Json, scanId: Json)

  function ReadScan(scan: Json): Result<ScanFields> {
    var flair :- Get(scan, "flair_path", JNull);
    var t1ce :- Get(scan, "t1ce_path", JNull);
    var scanId :- Get(scan, "scan_id", JStr(UnknownScan));
    Ok(ScanFields(flair, t1ce, scanId))
  }

  /** `if flair_path and t1ce_path:` */
  predicate Complete(f: ScanFields) {
    Truthy(f.flair) && Truthy(f.t1ce)
  }

  /** The tool invocation the loop body makes for `scan`, if any. */
  function CallsFor(scan: Json): seq<(Json, Json)> {
    match ReadScan(scan)
    case Ok(f) => if Complete(f) then [(f.flair, f.t1ce)] else []
    case Raise(_) => []
  }

  /** The entry the loop body appends for `scan`, or what it raises. */
  function ScanEntry(scan: Json, tool: Tool): Result<Json> {
    var f :- ReadScan(scan);
    if Complete(f) then
      var result :- Loads(tool(f.flair, f.t1ce));
      Ok(EntryDoc(f.scanId, result))
    else
      Ok(EntryDoc(f.scanId, ErrorDoc(IncompletePaths)))
  }

  /** The state of the loop: the entries so far (or the exception that ended
      it) and the tool invocations made. */
  datatype LoopRun = LoopRun(entries: Result<seq<Json>>, calls: seq<(Json, Json)>)

  /** The loop over `scans`, one iteration per element, stopping at the first
      exception. Defined on the last element, as the loop extends its prefix. */
  function RunScans(scans: seq<Json>, tool: Tool): LoopRun
    decreases |scans|
  {
    if scans == [] then LoopRun(Ok([]), [])
    else
      var prev := RunScans(scans[..|scans| - 1], tool);
      var scan := scans[|scans| - 1];
      if prev.entries.Raise? then prev
      else
        var calls := prev.calls + CallsFor(scan);
        match ScanEntry(scan, tool)
        case Ok(e) => LoopRun(Ok(prev.entries.value + [e]), calls)
        case Raise(m) => LoopRun(Raise(m), calls)
  }

  /** The invocations a loop that does not raise makes: one per scan with both
      paths, in the order of `scans`. */
  function Requested(scans: seq<Json>): seq<(Json, Json)>
    decreases |scans|
  {
    if scans == [] then [] else Requested(scans[..|scans| - 1]) + CallsFor(scans[|scans| - 1])
  }

  /** Once an iteration has raised, the rest of `scans` is not visited. */
  lemma {:induction false} RaiseStops(scans: seq<Json>, i: nat, tool: Tool)
    requires i <= |scans|
    requires RunScans(scans[..i], tool).entries.Raise?
    ensures RunScans(scans, tool) == RunScans(scans[..i], tool)
    decreases |scans|
  {
    if i < |scans| {
      var init := scans[..|scans| - 1];
      assert init[..i] == scans[..i];
      RaiseStops(init, i, tool);
    } else {
      assert scans[..i] == scans;
    }
  }

  /** The loop yields entries iff no scan raises. */
  lemma {:induction false} EntriesIffNoRaise(scans: seq<Json>, tool: Tool)
    ensures RunScans(scans, tool).entries.Ok? <==>
            forall k :: 0 <= k < |scans| ==> ScanEntry(scans[k], tool).Ok?
    decreases |scans|
  {
    if scans != [] {
      var init := scans[..|scans| - 1];
      EntriesIffNoRaise(init, tool);
      assert forall k :: 0 <= k < |init| ==> init[k] == scans[k];
    }
  }

  /** A loop that does not raise has one entry per scan, in input order, and
      invoked the tool exactly for the complete scans. */
  lemma {:induction false} EntriesInOrder(scans: seq<Json>, tool: Tool)
    requires RunScans(scans, tool).entries.Ok?
    ensures var es := RunScans(scans, tool).entries.value;
            |es| == |scans| &&
            (forall k :: 0 <= k < |scans| ==> ScanEntry(scans[k], tool) == Ok(es[k])) &&
            RunScans(scans, tool).calls == Requested(scans)
    decreases |scans|
  {
    if scans != [] {
      var init := scans[..|scans| - 1];
      var last := scans[|scans| - 1];
      var prev := RunScans(init, tool);
      assert prev.entries.Ok? && ScanEntry(last, tool).Ok?;
      EntriesInOrder(init, tool);
      var es := prev.entries.value + [ScanEntry(last, tool).value];
      assert RunScans(scans, tool) == LoopRun(Ok(es), prev.calls + CallsFor(last));
      forall k | 0 <= k < |scans|
        ensures ScanEntry(scans[k], tool) == Ok(es[k])
      {
        if k < |init| {
          assert scans[k] == init[k];
        }
      }
    }
  }

  /** The loop yields entries iff no scan raises; then there is exactly one
      entry per scan, in input order, each a function of its own scan only
      (so an error of one scan leaves its siblings' entries as they would
      otherwise be), and the tool was invoked exactly for the complete scans. */
  lemma EntriesPerScan(scans: seq<Json>, tool: Tool)
    ensures RunScans(scans, tool).entries.Ok? <==>
            forall k :: 0 <= k < |scans| ==> ScanEntry(scans[k], tool).Ok?
    ensures RunScans(scans, tool).entries.Ok? ==>
            var es := RunScans(scans, tool).entries.value;
            |es| == |scans| &&
            (forall k :: 0 <= k < |scans| ==> es[k] == ScanEntry(scans[k], tool).value) &&
            RunScans(scans, tool).calls == Requested(scans)
  {
    EntriesIffNoRaise(scans, tool);
    if RunScans(scans, tool).entries.Ok? {
      EntriesInOrder(scans, tool);
    }
  }

  /** When the loop raises, the message is that of the first scan that raises,
      and every scan before it produced an entry. */
  lemma {:induction false} FirstRaiseWins(scans: seq<Json>, tool: Tool)
    requires RunScans(scans, tool).entries.Raise?
    ensures exists k :: (0 <= k < |scans| &&
              ScanEntry(scans[k], tool) == Raise(RunScans(scans, tool).entries.message) &&
              forall j :: 0 <= j < k ==> ScanEntry(scans[j], tool).Ok?)
    decreases |scans|
  {
    var init := scans[..|scans| - 1];
    assert forall k :: 0 <= k < |init| ==> init[k] == scans[k];
    if RunScans(init, tool).entries.Raise? {
      FirstRaiseWins(init, tool);
    } else {
      EntriesPerScan(init, tool);
      var k := |scans| - 1;
      assert ScanEntry(scans[k], tool) == Raise(RunScans(scans, tool).entries.message);
    }
  }

  /** The tool is invoked for a scan iff it is a dict with both paths truthy,
      and then with exactly those two values; every other well-formed scan
      gets the inline incomplete-paths entry. */
  lemma ScanEntryCases(scan: Json, tool: Tool)
    requires ReadScan(scan).Ok?
    ensures var f := ReadScan(scan).value;
            (CallsFor(scan) == [(f.flair, f.t1ce)] <==> Complete(f)) &&
            (CallsFor(scan) == [] <==> !Complete(f)) &&
            (!Complete(f) ==> ScanEntry(scan, tool) == Ok(EntryDoc(f.scanId, ErrorDoc(IncompletePaths)))) &&
            (Complete(f) && tool(f.flair, f.t1ce).Doc? ==>
               ScanEntry(scan, tool) == Ok(EntryDoc(f.scanId, tool(f.flair, f.t1ce).doc)))
  {
  }

  /** A scan's `scan_id` is copied unchanged, or is `"unknown_scan"` when the
      scan has none. */
  lemma ScanIdCopied(scan: Json)
    requires scan.JObj?
    ensures ReadScan(scan).Ok?
    ensures HasKey(scan, "scan_id") ==> ReadScan(scan).value.scanId == Lookup(scan.fields, "scan_id").value
    ensures !HasKey(scan, "scan_id") ==> ReadScan(scan).value.scanId == JStr(UnknownScan)
  {
  }

  /** The loop over `scans` of both agents, proved to compute `RunScans`. */
  method ScanLoop(scans: seq<Json>, tool: Tool) returns (run: LoopRun)
    ensures run == RunScans(scans, tool)
  {
    var entries: seq<Json> := [];
    var calls: seq<(Json, Json)> := [];
    var i := 0;
    while i < |scans|
      invariant 0 <= i <= |scans|
      invariant RunScans(scans[..i], tool) == LoopRun(Ok(entries), calls)
    {
      var scan := scans[i];
      assert scans[..i + 1][..i] == scans[..i];
      match ReadScan(scan) {
        case Raise(m) =>
          run := LoopRun(Raise(m), calls);
          RaiseStops(scans, i + 1, tool);
          return;
        case Ok(f) =>
          if Complete(f) {
            var reply := tool(f.flair, f.t1ce);
            calls := calls + [(f.flair, f.t1ce)];
            match Loads(reply) {
              case Raise(m) =>
                run := LoopRun(Raise(m), calls);
                RaiseStops(scans, i + 1, tool);
                return;
              case Ok(result) =>
                entries := entries + [EntryDoc(f.scanId, result)];
            }
          } else {
            entries := entries + [EntryDoc(f.scanId, ErrorDoc(IncompletePaths))];
          }
      }
      i := i + 1;
    }
    assert scans[..|scans|] == scans;
    run := LoopRun(Ok(entries), calls);
  }

  /** What one run of an agent returns, which tool invocations it made, and the
      document it wrote to `outputPath`, if any. */
  datatype AgentRun = AgentRun(out: Json, calls: seq<(Json, Json)>, written: Option<Json>)

  /** The whole agent on the decoded patient document. */
  function Agent(w: Worker, data: Json, tool: Tool): (r: AgentRun)
    ensures r.written.Some? ==> r.written.value == r.out
    ensures r.out.JObj?
  {
    match Get(data, "patient_identifier", JStr(UnknownPatient))
    case Raise(m) => AgentRun(ErrorDoc(m), [], None)
    case Ok(pid) =>
      match Get(data, "scans", JArr([]))
      case Raise(m) => AgentRun(ErrorDoc(m), [], None)
      case Ok(scans) =>
        if !Truthy(scans) then
          AgentRun(JObj([("patient_identifier", pid), ("error", JStr(w.noScansMessage))]), [], None)
        else
          match Elements(scans)
          case Raise(m) => AgentRun(ErrorDoc(m), [], None)
          case Ok(items) =>
            var run := RunScans(items, tool);
            match run.entries
            case Raise(m) => AgentRun(ErrorDoc(m), run.calls, None)
            case Ok(es) =>
              var final := JObj([("patient_identifier", pid), (w.listKey, JArr(es))]);
              AgentRun(final, run.calls, Some(final))
  }

  /** A missing, null or empty `scans` gives the patient identifier (default
      `"unknown"`) with the empty-scans message; no tool runs, nothing is
      written. */
  lemma NoScans(w: Worker, data: Json, tool: Tool)
    requires data.JObj?
    requires !HasKey(data, "scans") || !Truthy(Lookup(data.fields, "scans").value)
    ensures var pid := if HasKey(data, "patient_identifier")
                       then Lookup(data.fields, "patient_identifier").value else JStr(UnknownPatient);
            Agent(w, data, tool) ==
            AgentRun(JObj([("patient_identifier", pid), ("error", JStr(w.noScansMessage))]), [], None)
  {
  }

  /** The entries of a loop in which no scan raises: each scan's own entry. */
  function EntriesOf(items: seq<Json>, tool: Tool): (es: seq<Json>)
    requires forall k :: 0 <= k < |items| ==> ScanEntry(items[k], tool).Ok?
    ensures |es| == |items|
    ensures forall k :: 0 <= k < |items| ==> es[k] == ScanEntry(items[k], tool).value
  {
    seq(|items|, k requires 0 <= k < |items| => ScanEntry(items[k], tool).value)
  }

  /** With a non-empty list of scans none of which raises, the answer is the
      patient identifier (default `"unknown"`) and exactly one entry per scan,
      in order, each the scan's own entry; the tool ran once per complete scan,
      in order; the document written is the document returned. */
  lemma OneEntryPerScan(w: Worker, data: Json, tool: Tool, items: seq<Json>)
    requires data.JObj? && HasKey(data, "scans") && Lookup(data.fields, "scans").value == JArr(items)
    requires items != []
    requires forall k :: 0 <= k < |items| ==> ScanEntry(items[k], tool).Ok?
    ensures var pid := if HasKey(data, "patient_identifier")
                       then Lookup(data.fields, "patient_identifier").value else JStr(UnknownPatient);
            var doc := JObj([("patient_identifier", pid), (w.listKey, JArr(EntriesOf(items, tool)))]);
            Agent(w, data, tool) == AgentRun(doc, Requested(items), Some(doc))
  {
    EntriesPerScan(items, tool);
    var run := RunScans(items, tool);
    assert run.entries.value == EntriesOf(items, tool);
    var pid := if HasKey(data, "patient_identifier")
               then Lookup(data.fields, "patient_identifier").value else JStr(UnknownPatient);
    GetOnDict(data, "patient_identifier", JStr(UnknownPatient));
    GetOnDict(data, "scans", JArr([]));
    assert Get(data, "patient_identifier", JStr(UnknownPatient)) == Ok(pid);
    assert Get(data, "scans", JArr([])) == Ok(JArr(items));
    assert Truthy(JArr(items)) && Elements(JArr(items)) == Ok(items);
    var doc := JObj([("patient_identifier", pid), (w.listKey, JArr(run.entries.value))]);
    assert Agent(w, data, tool) == AgentRun(doc, run.calls, Some(doc));
  }

  /** The agent of `clasificacion_agent` / `segmentator_agent`, proved to
      compute `Agent` and to write exactly the document it returns. */
  method RunAgent(w: Worker, data: Json, tool: Tool, store: FileStore.Store)
    returns (out: Json, ghost calls: seq<(Json, Json)>)
    modifies store
    ensures out == Agent(w, data, tool).out && calls == Agent(w, data, tool).calls
    ensures Agent(w, data, tool).written.Some? ==> store.docs == old(store.docs)[w.outputPath := out]
    ensures Agent(w, data, tool).written.None? ==> store.docs == old(store.docs)
  {
    calls := [];
    var pid := Get(data, "patient_identifier", JStr(UnknownPatient));
    if pid.Raise? {
      return ErrorDoc(pid.message), calls;
    }
    var scans := Get(data, "scans", JArr([]));
    if scans.Raise? {
      return ErrorDoc(scans.message), calls;
    }
    if !Truthy(scans.value) {
      return JObj([("patient_identifier", pid.value), ("error", JStr(w.noScansMessage))]), calls;
    }
    var items := Elements(scans.value);
    if items.Raise? {
      return ErrorDoc(items.message), calls;
    }
    var run := ScanLoop(items.value, tool);
    calls := run.calls;
    if run.entries.Raise? {
      return ErrorDoc(run.entries.message), calls;
    }
    out := JObj([("patient_identifier", pid.value), (w.listKey, JArr(run.entries.value))]);
    store.Write(w.outputPath, out);
  }
}
