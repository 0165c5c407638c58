/** `report_agent`: builds the master report from the classification,
    segmentation, knowledge and triage documents, writes it as JSON to
    `data/temp/reporte_<id>.json`, asks the PDF renderer for a PDF of it and
    answers with the PDF's path. Every field the inputs do not supply is
    `"NO DISPONIBLE"`. Per-scan rows are joined by `scan_id`: each
    classification appends a row; each segmentation updates the `mask_file`
    of the first row with an equal `scan_id`, or appends a row of its own. */
module ReportAgent {
  import opened Wrappers
  import opened Strings
  import opened PyJson
  import opened Folds
  import FileStore

  const NotAvailable := JStr("NO DISPONIBLE")
  const NotApplicable := JStr("N/A")
  const NoHistory := "No se encontró información relevante en el historial clínico."
  const Undetermined := "NO DETERMINADO"
  const NoJustification := "No se pudo determinar la justificación."

  /** A string argument of the agent: its text, and what `json.loads` makes of it. */
  datatype Text = Text(raw: string, loaded: Reply)

  /** The collaborators: `generate_pdf_from_report`, given the JSON path and the
      report written there, and the rendering of values in f-strings. */
  datatype Services = Services(renderPdf: (string, Json) -> Reply, fmt: Formatter)

  /** One element of `report_data["scans"]`. */
  datatype ScanRow = ScanRow(scanId: Json, flairPath: Json, t1cePath: Json, pTumor: Json, maskFile: Json)

  /** `report_data`, one field per key. */
  datatype Report = Report(
    pacienteId: string,
    nombre: string,
    fecha: Json,
    edad: Json,
    motivoConsulta: Json,
    tumorProb: Json,
    tumorResultado: Json,
    comentariosClasificador: Json,
    zonaAfectada: Json,
    volumenCc: Json,
    inputSlice: Json,
    maskFile: Json,
    overlayFile: Json,
    resumenHistorial: Json,
    riesgo: Json,
    justificacionTriaje: Json,
    comentarioFinal: Json,
    scans: seq<ScanRow>)

  function RowDoc(row: ScanRow): Json {
    JObj([("scan_id", row.scanId), ("flair_path", row.flairPath), ("t1ce_path", row.t1cePath),
          ("p_tumor", row.pTumor), ("mask_file", row.maskFile)])
  }

  /** The document `json.dumps(report_data)` writes, keys in their order. */
  function ReportDoc(r: Report): Json {
    JObj([("paciente_id", JStr(r.pacienteId)), ("nombre", JStr(r.nombre)), ("fecha", r.fecha),
          ("edad", r.edad), ("motivo_consulta", r.motivoConsulta), ("tumor_prob", r.tumorProb),
          ("tumor_resultado", r.tumorResultado), ("comentarios_clasificador", r.comentariosClasificador),
          ("zona_afectada", r.zonaAfectada), ("volumen_cc", r.volumenCc), ("input_slice", r.inputSlice),
          ("mask_file", r.maskFile), ("overlay_file", r.overlayFile), ("resumen_historial", r.resumenHistorial),
          ("riesgo", r.riesgo), ("justificacion_triaje", r.justificacionTriaje),
          ("comentario_final_sobre_el_caso", r.comentarioFinal),
          ("scans", JArr(seq(|r.scans|, i requires 0 <= i < |r.scans| => RowDoc(r.scans[i]))))])
  }

  /** `patient_identifier.replace("_", " ").title()`. */
  function PatientName(pid: string): string {
    Title(Replace(pid, "_", " "))
  }

  /** `os.path.join("data", "temp", f"reporte_{patient_identifier.lower()}.json")`. */
  function ReportPath(pid: string): string {
    "data/temp/reporte_" + Lower(pid) + ".json"
  }

  /** `report_data` as first built, before the two loops. */
  function Initial(pid: string, summary: Json, risk: Json, justification: Json): Report {
    Report(pid, PatientName(pid), NotAvailable, NotAvailable, NotAvailable, JNull, NotAvailable,
           NotAvailable, NotAvailable, JNull, NotAvailable, NotAvailable, NotAvailable,
           summary, risk, justification, NotAvailable, [])
  }

  // ---------------------------------------------------------------------
  // The summary loops. Their text is never used, but the reads they make can
  // raise, and an exception there ends the agent.

  function AppendLine(lines: seq<string>, line: Result<string>): Result<seq<string>> {
    var l :- line;
    Ok(lines + [l])
  }

  /** The lines of a summary loop over `items`. */
  function Lines(items: seq<Json>, line: Json -> Result<string>): Result<seq<string>> {
    Fold([], items, (lines, x) => AppendLine(lines, line(x)))
  }

  /** One line of the classification summary. */
  function ClassSummaryLine(cls: Json, fmt: Formatter): Result<string> {
    var scanId :- Get(cls, "scan_id", NotApplicable);
    var result :- Get(cls, "result", JObj([]));
    var prediction :- Get(result, "prediction", NotApplicable);
    var probabilities :- Get(result, "probabilities", JObj([]));
    var tumor :- Get(probabilities, "Tumor", JInt(0));
    var percent :- Times100(tumor);
    var shown :- Fixed2(percent, fmt);
    Ok("  - Scan ID: " + Str(scanId, fmt) + "\n    - Predicción: " + Str(prediction, fmt) +
       "\n    - Probabilidad de Tumor: " + shown + "%")
  }

  /** One line of the segmentation summary; it reads `result.saved_mask`. */
  function SegSummaryLine(seg: Json, fmt: Formatter): Result<string> {
    var scanId :- Get(seg, "scan_id", NotApplicable);
    var result :- Get(seg, "result", JObj([]));
    var outputFile :- Get(result, "saved_mask", NotApplicable);
    Ok("  - Scan ID: " + Str(scanId, fmt) + "\n    - Archivo de Máscara: " + Str(outputFile, fmt))
  }

  /** A summary loop yields lines iff no element raises; then one line per
      element, in order. */
  lemma {:induction false} LinesPerItem(items: seq<Json>, line: Json -> Result<string>)
    ensures Lines(items, line).Ok? <==> forall k :: 0 <= k < |items| ==> line(items[k]).Ok?
    ensures Lines(items, line).Ok? ==>
              |Lines(items, line).value| == |items| &&
              forall k :: 0 <= k < |items| ==> Lines(items, line).value[k] == line(items[k]).value
    decreases |items|
  {
    if items != [] {
      var init := items[..|items| - 1];
      LinesPerItem(init, line);
      assert forall k :: 0 <= k < |init| ==> init[k] == items[k];
    }
  }

  /** A summary loop, proved to compute `Lines`. */
  method SummaryLoop(items: seq<Json>, line: Json -> Result<string>) returns (r: Result<seq<string>>)
    ensures r == Lines(items, line)
  {
    var step := (lines, x) => AppendLine(lines, line(x));
    var lines: seq<string> := [];
    var i := 0;
    while i < |items|
      invariant 0 <= i <= |items|
      invariant Fold([], items[..i], step) == Ok(lines)
    {
      FoldStep([], items, step, i, lines);
      var l := line(items[i]);
      if l.Raise? {
        FoldRaiseStops([], items, step, i + 1);
        return Raise(l.message);
      }
      lines := lines + [l.value];
      i := i + 1;
    }
    assert items[..|items|] == items;
    return Ok(lines);
  }

  // ---------------------------------------------------------------------
  // The classification loop.

  /** What the loop body reads from one classification entry. */
  datatype Classified = Classified(scanId: Json, prediction: Json, tumorProb: Json, comment: string)

  function ReadClassification(cls: Json, fmt: Formatter): Result<Classified> {
    var scanId :- Get(cls, "scan_id", NotApplicable);
    var result :- Get(cls, "result", JObj([]));
    var prediction :- Get(result, "prediction", NotApplicable);
    var probabilities :- Get(result, "probabilities", JObj([]));
    var tumorProb :- Get(probabilities, "Tumor", JInt(0));
    var shown :- Fixed2(tumorProb, fmt);
    Ok(Classified(scanId, prediction, tumorProb,
                  "Predicción: " + Str(prediction, fmt) + ", Probabilidad de Tumor: " + shown + "%"))
  }

  /** The row a classification entry appends. */
  function ClassRow(c: Classified): ScanRow {
    ScanRow(c.scanId, NotAvailable, NotAvailable, c.tumorProb, NotAvailable)
  }

  function AddClassification(r: Report, cls: Json, fmt: Formatter): Result<Report> {
    var c :- ReadClassification(cls, fmt);
    Ok(r.(tumorResultado := c.prediction, tumorProb := c.tumorProb,
          comentariosClasificador := JStr(c.comment), scans := r.scans + [ClassRow(c)]))
  }

  function ApplyClassifications(r: Report, items: seq<Json>, fmt: Formatter): Result<Report> {
    Fold(r, items, (acc, cls) => AddClassification(acc, cls, fmt))
  }

  /** `r` with the fields the classification loop sets blanked out. */
  function OtherThanClassifier(r: Report): Report {
    r.(tumorResultado := JNull, tumorProb := JNull, comentariosClasificador := JNull, scans := [])
  }

  /** The classification loop succeeds iff every entry can be read; it then
      appends exactly one row per entry, in order and without merging equal
      `scan_id`s, and keeps the rows already there. */
  lemma ClassificationRows(r: Report, items: seq<Json>, fmt: Formatter)
    ensures ApplyClassifications(r, items, fmt).Ok? <==>
            forall k :: 0 <= k < |items| ==> ReadClassification(items[k], fmt).Ok?
    ensures ApplyClassifications(r, items, fmt).Ok? ==>
            var out := ApplyClassifications(r, items, fmt).value;
            |out.scans| == |r.scans| + |items| &&
            out.scans[..|r.scans|] == r.scans &&
            forall k :: 0 <= k < |items| ==>
              out.scans[|r.scans| + k] == ClassRow(ReadClassification(items[k], fmt).value)
  {
    ClassificationOk(r, items, fmt);
    if ApplyClassifications(r, items, fmt).Ok? {
      ClassificationAppends(r, items, fmt);
    }
  }

  /** The classification loop succeeds iff every entry can be read. */
  lemma {:induction false} ClassificationOk(r: Report, items: seq<Json>, fmt: Formatter)
    ensures ApplyClassifications(r, items, fmt).Ok? <==>
            forall k :: 0 <= k < |items| ==> ReadClassification(items[k], fmt).Ok?
    decreases |items|
  {
    if items != [] {
      var init := items[..|items| - 1];
      ClassificationOk(r, init, fmt);
      assert forall k :: 0 <= k < |init| ==> init[k] == items[k];
    }
  }

  /** A classification loop that succeeds appends one row per entry, in order,
      after the rows already there. */
  lemma {:induction false} ClassificationAppends(r: Report, items: seq<Json>, fmt: Formatter)
    requires ApplyClassifications(r, items, fmt).Ok?
    ensures var out := ApplyClassifications(r, items, fmt).value;
            |out.scans| == |r.scans| + |items| &&
            out.scans[..|r.scans|] == r.scans &&
            forall k :: 0 <= k < |items| ==>
              ReadClassification(items[k], fmt).Ok? &&
              out.scans[|r.scans| + k] == ClassRow(ReadClassification(items[k], fmt).value)
    decreases |items|
  {
    if items != [] {
      var init := items[..|items| - 1];
      var prev := ApplyClassifications(r, init, fmt);
      var c := ReadClassification(items[|items| - 1], fmt);
      assert prev.Ok? && c.Ok?;
      ClassificationAppends(r, init, fmt);
      var out := ApplyClassifications(r, items, fmt).value;
      assert out.scans == prev.value.scans + [ClassRow(c.value)];
      forall k | 0 <= k < |items|
        ensures ReadClassification(items[k], fmt).Ok? &&
                out.scans[|r.scans| + k] == ClassRow(ReadClassification(items[k], fmt).value)
      {
        if k < |init| {
          assert items[k] == init[k];
        }
      }
    }
  }

  /** The three classifier fields come from the last entry, and stay as they
      were when there is none; no other field changes. */
  lemma {:induction false} ClassificationFields(r: Report, items: seq<Json>, fmt: Formatter)
    requires ApplyClassifications(r, items, fmt).Ok?
    ensures var out := ApplyClassifications(r, items, fmt).value;
            OtherThanClassifier(out) == OtherThanClassifier(r) &&
            (items == [] ==> out == r) &&
            (items != [] ==>
               var last := ReadClassification(items[|items| - 1], fmt).value;
               out.tumorResultado == last.prediction && out.tumorProb == last.tumorProb &&
               out.comentariosClasificador == JStr(last.comment))
    decreases |items|
  {
    if items != [] {
      ClassificationFields(r, items[..|items| - 1], fmt);
    }
  }

  /** The classification loop, proved to compute `ApplyClassifications`. */
  method ClassificationLoop(r: Report, items: seq<Json>, fmt: Formatter) returns (res: Result<Report>)
    ensures res == ApplyClassifications(r, items, fmt)
  {
    var step := (acc, cls) => AddClassification(acc, cls, fmt);
    var report := r;
    var i := 0;
    while i < |items|
      invariant 0 <= i <= |items|
      invariant Fold(r, items[..i], step) == Ok(report)
    {
      FoldStep(r, items, step, i, report);
      var c := ReadClassification(items[i], fmt);
      if c.Raise? {
        FoldRaiseStops(r, items, step, i + 1);
        return Raise(c.message);
      }
      report := report.(tumorResultado := c.value.prediction, tumorProb := c.value.tumorProb,
                        comentariosClasificador := JStr(c.value.comment));
      report := report.(scans := report.scans + [ClassRow(c.value)]);
      i := i + 1;
    }
    assert items[..|items|] == items;
    return Ok(report);
  }

  // ---------------------------------------------------------------------
  // The segmentation loop and its join by `scan_id`.

  /** What the loop body reads from one segmentation entry. */
  datatype Segmented = Segmented(scanId: Json, inputSlice: Json, maskFile: Json, overlayFile: Json)

  function ReadSegmentation(seg: Json): Result<Segmented> {
    var scanId :- Get(seg, "scan_id", NotApplicable);
    var result :- Get(seg, "result", JObj([]));
    var inputSlice :- Get(result, "input_slice", NotApplicable);
    var maskFile :- Get(result, "mask_file", NotApplicable);
    var overlayFile :- Get(result, "overlay_file", NotApplicable);
    Ok(Segmented(scanId, inputSlice, maskFile, overlayFile))
  }

  /** The index of the first row whose `scan_id` equals `sid`, if any. */
  function FirstMatch(rows: seq<ScanRow>, sid: Json): (r: Option<nat>)
    ensures r.Some? ==> r.value < |rows| && PyEq(rows[r.value].scanId, sid) &&
                        forall j :: 0 <= j < r.value ==> !PyEq(rows[j].scanId, sid)
    ensures r.None? ==> forall j :: 0 <= j < |rows| ==> !PyEq(rows[j].scanId, sid)
  {
    if rows == [] then None
    else if PyEq(rows[0].scanId, sid) then Some(0)
    else match FirstMatch(rows[1..], sid)
      case Some(i) => Some(i + 1)
      case None => None
  }

  /** The row a segmentation entry without a matching row appends. */
  function SegRow(s: Segmented): ScanRow {
    ScanRow(s.scanId, NotAvailable, NotAvailable, JNull, s.maskFile)
  }

  /** The inner search: set the mask of the first matching row, or append one. */
  function MergeRow(rows: seq<ScanRow>, s: Segmented): seq<ScanRow> {
    match FirstMatch(rows, s.scanId)
    case Some(i) => rows[i := rows[i].(maskFile := s.maskFile)]
    case None => rows + [SegRow(s)]
  }

  function AddSegmentation(r: Report, seg: Json): Result<Report> {
    var s :- ReadSegmentation(seg);
    Ok(r.(inputSlice := s.inputSlice, maskFile := s.maskFile, overlayFile := s.overlayFile,
          zonaAfectada := NotAvailable, volumenCc := JNull, scans := MergeRow(r.scans, s)))
  }

  function ApplySegmentations(r: Report, items: seq<Json>): Result<Report> {
    Fold(r, items, AddSegmentation)
  }

  /** A segmentation whose `scan_id` is already listed only sets `mask_file` on
      the first such row: no row is added, and `p_tumor`, the paths and every
      other row are kept. */
  lemma MergeMatched(rows: seq<ScanRow>, s: Segmented, i: nat)
    requires i < |rows| && PyEq(rows[i].scanId, s.scanId)
    requires forall j :: 0 <= j < i ==> !PyEq(rows[j].scanId, s.scanId)
    ensures |MergeRow(rows, s)| == |rows|
    ensures MergeRow(rows, s)[i] == rows[i].(maskFile := s.maskFile)
    ensures forall j :: 0 <= j < |rows| && j != i ==> MergeRow(rows, s)[j] == rows[j]
  {
  }

  /** A segmentation whose `scan_id` is not listed appends one row with no
      tumour probability and its own mask. */
  lemma MergeUnmatched(rows: seq<ScanRow>, s: Segmented)
    requires forall j :: 0 <= j < |rows| ==> !PyEq(rows[j].scanId, s.scanId)
    ensures MergeRow(rows, s) == rows + [ScanRow(s.scanId, NotAvailable, NotAvailable, JNull, s.maskFile)]
  {
  }

  /** The scan ids of the rows. */
  predicate Listed(rows: seq<ScanRow>, sid: Json) {
    exists j :: 0 <= j < |rows| && PyEq(rows[j].scanId, sid)
  }

  /** A row with its mask left out. */
  function Unmasked(row: ScanRow): ScanRow {
    row.(maskFile := JNull)
  }

  /** Merging changes no row but in its mask, and lists the merged `scan_id`. */
  lemma MergeKeepsRows(rows: seq<ScanRow>, s: Segmented)
    ensures |rows| <= |MergeRow(rows, s)|
    ensures forall j :: 0 <= j < |rows| ==> Unmasked(MergeRow(rows, s)[j]) == Unmasked(rows[j])
    ensures Listed(MergeRow(rows, s), s.scanId)
  {
    match FirstMatch(rows, s.scanId)
    case Some(i) =>
      assert Unmasked(MergeRow(rows, s)[i]) == Unmasked(rows[i]);
    case None =>
      var out := MergeRow(rows, s);
      assert out[|rows|].scanId == s.scanId;
      assert PyEq(s.scanId, s.scanId);
  }

  /** The segmentation loop succeeds iff every entry can be read. */
  lemma {:induction false} SegmentationOk(r: Report, items: seq<Json>)
    ensures ApplySegmentations(r, items).Ok? <==>
            forall k :: 0 <= k < |items| ==> ReadSegmentation(items[k]).Ok?
    decreases |items|
  {
    if items != [] {
      var init := items[..|items| - 1];
      SegmentationOk(r, init);
      assert forall k :: 0 <= k < |init| ==> init[k] == items[k];
    }
  }

  /** After the segmentation loop every row present before is unchanged but
      for its mask, and every segmentation's `scan_id` is listed: each `scan_id`
      seen in either input appears among the rows. */
  lemma {:induction false} SegmentationIds(r: Report, items: seq<Json>)
    requires ApplySegmentations(r, items).Ok?
    ensures forall k :: 0 <= k < |items| ==> ReadSegmentation(items[k]).Ok?
    ensures var out := ApplySegmentations(r, items).value;
            |r.scans| <= |out.scans| &&
            (forall j :: 0 <= j < |r.scans| ==> Unmasked(out.scans[j]) == Unmasked(r.scans[j])) &&
            forall k :: 0 <= k < |items| ==> Listed(out.scans, ReadSegmentation(items[k]).value.scanId)
    decreases |items|
  {
    SegmentationOk(r, items);
    if items != [] {
      var init := items[..|items| - 1];
      var prev := ApplySegmentations(r, init);
      SegmentationIds(r, init);
      assert forall k :: 0 <= k < |init| ==> init[k] == items[k];
      var s := ReadSegmentation(items[|items| - 1]).value;
      var out := ApplySegmentations(r, items).value;
      assert out.scans == MergeRow(prev.value.scans, s);
      MergeKeepsRows(prev.value.scans, s);
      forall k | 0 <= k < |init|
        ensures Listed(out.scans, ReadSegmentation(items[k]).value.scanId)
      {
        var sid := ReadSegmentation(items[k]).value.scanId;
        var j :| 0 <= j < |prev.value.scans| && PyEq(prev.value.scans[j].scanId, sid);
        assert Unmasked(out.scans[j]) == Unmasked(prev.value.scans[j]);
      }
    }
  }

  /** `r` with the fields the segmentation loop sets blanked out. */
  function OtherThanSegmenter(r: Report): Report {
    r.(inputSlice := JNull, maskFile := JNull, overlayFile := JNull, zonaAfectada := JNull,
       volumenCc := JNull, scans := [])
  }

  /** The top-level image fields come from the last entry, and stay as they
      were when there is none; `zona_afectada` and `volumen_cc` are only ever
      reset to `"NO DISPONIBLE"` and None; nothing else changes. */
  lemma {:induction false} SegmentationFields(r: Report, items: seq<Json>)
    requires ApplySegmentations(r, items).Ok?
    ensures var out := ApplySegmentations(r, items).value;
            OtherThanSegmenter(out) == OtherThanSegmenter(r) &&
            (items == [] ==> out == r) &&
            (items != [] ==>
               var last := ReadSegmentation(items[|items| - 1]).value;
               out.inputSlice == last.inputSlice && out.maskFile == last.maskFile &&
               out.overlayFile == last.overlayFile &&
               out.zonaAfectada == NotAvailable && out.volumenCc == JNull)
    decreases |items|
  {
    if items != [] {
      SegmentationFields(r, items[..|items| - 1]);
    }
  }

  /** The inner search loop with its `found` flag. */
  method FindRow(rows: seq<ScanRow>, sid: Json) returns (found: bool, index: nat)
    ensures found <==> FirstMatch(rows, sid).Some?
    ensures found ==> index == FirstMatch(rows, sid).value
  {
    found := false;
    index := 0;
    var i := 0;
    while i < |rows|
      invariant 0 <= i <= |rows|
      invariant forall j :: 0 <= j < i ==> !PyEq(rows[j].scanId, sid)
    {
      if PyEq(rows[i].scanId, sid) {
        found := true;
        index := i;
        break;
      }
      i := i + 1;
    }
  }

  /** The search with its `found` flag and the append when nothing matched,
      proved to compute `MergeRow`. */
  method MergeLoop(rows: seq<ScanRow>, seg: Segmented) returns (merged: seq<ScanRow>)
    ensures merged == MergeRow(rows, seg)
  {
    var found, index := FindRow(rows, seg.scanId);
    if found {
      merged := rows[index := rows[index].(maskFile := seg.maskFile)];
    } else {
      merged := rows + [SegRow(seg)];
    }
  }

  /** The segmentation loop, proved to compute `ApplySegmentations`. */
  method SegmentationLoop(r: Report, items: seq<Json>) returns (res: Result<Report>)
    ensures res == ApplySegmentations(r, items)
  {
    var report := r;
    var i := 0;
    while i < |items|
      invariant 0 <= i <= |items|
      invariant Fold(r, items[..i], AddSegmentation) == Ok(report)
    {
      FoldStep(r, items, AddSegmentation, i, report);
      var s := ReadSegmentation(items[i]);
      if s.Raise? {
        FoldRaiseStops(r, items, AddSegmentation, i + 1);
        return Raise(s.message);
      }
      var seg := s.value;
      report := report.(inputSlice := seg.inputSlice, maskFile := seg.maskFile, overlayFile := seg.overlayFile,
                        zonaAfectada := NotAvailable, volumenCc := JNull);
      var scans := MergeLoop(report.scans, seg);
      report := report.(scans := scans);
      i := i + 1;
    }
    assert items[..|items|] == items;
    return Ok(report);
  }

  // ---------------------------------------------------------------------
  // The whole agent.

  /** The four decoded arguments. */
  datatype Inputs = Inputs(classification: Json, segmentation: Json, knowledge: Json, triage: Json)

  /** `json.loads(x) if x else {}`. */
  function LoadOptional(t: Text): Result<Json> {
    if t.raw == "" then Ok(JObj([])) else Loads(t.loaded)
  }

  function LoadInputs(c: Text, s: Text, k: Text, t: Text): Result<Inputs> {
    var cdata :- Loads(c.loaded);
    var sdata :- Loads(s.loaded);
    var kdata :- LoadOptional(k);
    var tdata :- LoadOptional(t);
    Ok(Inputs(cdata, sdata, kdata, tdata))
  }

  /** `report_data` after both loops, or the exception raised on the way. */
  function Build(pid: string, inputs: Inputs, fmt: Formatter): Result<Report> {
    var cItems :- ItemsIfPresent(inputs.classification, "classifications");
    var _ :- Lines(cItems, cls => ClassSummaryLine(cls, fmt));
    var sItems :- ItemsIfPresent(inputs.segmentation, "segmentations");
    var _ :- Lines(sItems, seg => SegSummaryLine(seg, fmt));
    var summary :- Get(inputs.knowledge, "content", JStr(NoHistory));
    var risk :- Get(inputs.triage, "riesgo", JStr(Undetermined));
    var justification :- Get(inputs.triage, "justificación_triaje", JStr(NoJustification));
    var withClassifications :- ApplyClassifications(Initial(pid, summary, risk, justification), cItems, fmt);
    ApplySegmentations(withClassifications, sItems)
  }

  function Prepare(pid: string, c: Text, s: Text, k: Text, t: Text, fmt: Formatter): Result<Report> {
    var inputs :- LoadInputs(c, s, k, t);
    Build(pid, inputs, fmt)
  }

  /** The answer built from the renderer's reply. */
  function PdfStep(reply: Reply, fmt: Formatter): Result<Json> {
    var pdf :- Loads(reply);
    var failed :- In("error", pdf);
    if failed then
      var e :- Index(pdf, "error");
      Ok(ErrorDoc("PDF generation failed: " + Str(e, fmt)))
    else
      var path :- Index(pdf, "pdf_path");
      Ok(JObj([("report_path", path)]))
  }

  /** The answer after an exception: the arguments echoed with the message. */
  function Echo(pid: string, c: Text, s: Text, k: Text, t: Text, message: string): Json {
    JObj([("patient_identifier", JStr(pid)), ("classification", JStr(c.raw)), ("segmentation", JStr(s.raw)),
          ("knowledge", JStr(k.raw)), ("triage", JStr(t.raw)), ("error", JStr(message))])
  }

  /** The answer, and the report written (path and document), if any. */
  datatype ReportRun = ReportRun(out: Json, written: Option<(string, Json)>)

  function Compose(pid: string, c: Text, s: Text, k: Text, t: Text, svc: Services): ReportRun {
    match Prepare(pid, c, s, k, t, svc.fmt)
    case Raise(m) => ReportRun(Echo(pid, c, s, k, t, m), None)
    case Ok(r) =>
      var path := ReportPath(pid);
      var doc := ReportDoc(r);
      var out := match PdfStep(svc.renderPdf(path, doc), svc.fmt)
                 case Ok(o) => o
                 case Raise(m) => Echo(pid, c, s, k, t, m);
      ReportRun(out, Some((path, doc)))
  }

  /** The agent, proved to compute `Compose` and to write the report it renders. */
  method Run(pid: string, c: Text, s: Text, k: Text, t: Text, svc: Services, store: FileStore.Store)
    returns (out: Json)
    modifies store
    ensures out == Compose(pid, c, s, k, t, svc).out
    ensures Compose(pid, c, s, k, t, svc).written.None? ==> store.docs == old(store.docs)
    ensures Compose(pid, c, s, k, t, svc).written.Some? ==>
              var w := Compose(pid, c, s, k, t, svc).written.value;
              store.docs == old(store.docs)[w.0 := w.1]
  {
    var fmt := svc.fmt;
    var inputs := LoadInputs(c, s, k, t);
    if inputs.Raise? {
      return Echo(pid, c, s, k, t, inputs.message);
    }
    var data := inputs.value;
    var cItems := ItemsIfPresent(data.classification, "classifications");
    if cItems.Raise? {
      return Echo(pid, c, s, k, t, cItems.message);
    }
    var classLines := SummaryLoop(cItems.value, cls => ClassSummaryLine(cls, fmt));
    if classLines.Raise? {
      return Echo(pid, c, s, k, t, classLines.message);
    }
    var sItems := ItemsIfPresent(data.segmentation, "segmentations");
    if sItems.Raise? {
      return Echo(pid, c, s, k, t, sItems.message);
    }
    var segLines := SummaryLoop(sItems.value, seg => SegSummaryLine(seg, fmt));
    if segLines.Raise? {
      return Echo(pid, c, s, k, t, segLines.message);
    }
    var summary := Get(data.knowledge, "content", JStr(NoHistory));
    if summary.Raise? {
      return Echo(pid, c, s, k, t, summary.message);
    }
    var risk := Get(data.triage, "riesgo", JStr(Undetermined));
    if risk.Raise? {
      return Echo(pid, c, s, k, t, risk.message);
    }
    var justification := Get(data.triage, "justificación_triaje", JStr(NoJustification));
    if justification.Raise? {
      return Echo(pid, c, s, k, t, justification.message);
    }
    var report := Initial(pid, summary.value, risk.value, justification.value);
    var classified := ClassificationLoop(report, cItems.value, fmt);
    if classified.Raise? {
      return Echo(pid, c, s, k, t, classified.message);
    }
    var segmented := SegmentationLoop(classified.value, sItems.value);
    if segmented.Raise? {
      return Echo(pid, c, s, k, t, segmented.message);
    }
    var path := ReportPath(pid);
    var doc := ReportDoc(segmented.value);
    store.Write(path, doc);
    var answer := PdfStep(svc.renderPdf(path, doc), fmt);
    if answer.Raise? {
      return Echo(pid, c, s, k, t, answer.message);
    }
    return answer.value;
  }

  // ---------------------------------------------------------------------
  // Properties of the whole agent.

  /** The fields no input can fill are always `"NO DISPONIBLE"` (and
      `volumen_cc` is always None), whatever the inputs; the identifier and the
      name are those of the argument. */
  lemma ConstantFields(pid: string, c: Text, s: Text, k: Text, t: Text, fmt: Formatter)
    requires Prepare(pid, c, s, k, t, fmt).Ok?
    ensures var r := Prepare(pid, c, s, k, t, fmt).value;
            r.fecha == NotAvailable && r.edad == NotAvailable && r.motivoConsulta == NotAvailable &&
            r.zonaAfectada == NotAvailable && r.comentarioFinal == NotAvailable && r.volumenCc == JNull &&
            r.pacienteId == pid && r.nombre == PatientName(pid)
  {
    var inputs := LoadInputs(c, s, k, t).value;
    var cItems := ItemsIfPresent(inputs.classification, "classifications").value;
    var sItems := ItemsIfPresent(inputs.segmentation, "segmentations").value;
    var summary := Get(inputs.knowledge, "content", JStr(NoHistory)).value;
    var risk := Get(inputs.triage, "riesgo", JStr(Undetermined)).value;
    var justification := Get(inputs.triage, "justificación_triaje", JStr(NoJustification)).value;
    var r0 := Initial(pid, summary, risk, justification);
    ClassificationFields(r0, cItems, fmt);
    var r1 := ApplyClassifications(r0, cItems, fmt).value;
    SegmentationFields(r1, sItems);
  }

  /** Without knowledge the history summary is the fixed no-history text;
      without triage the risk is `"NO DETERMINADO"` with the fixed
      justification. */
  lemma MissingKnowledgeAndTriage(pid: string, c: Text, s: Text, k: Text, t: Text, fmt: Formatter)
    requires Prepare(pid, c, s, k, t, fmt).Ok?
    ensures k.raw == "" ==> Prepare(pid, c, s, k, t, fmt).value.resumenHistorial == JStr(NoHistory)
    ensures t.raw == "" ==>
              Prepare(pid, c, s, k, t, fmt).value.riesgo == JStr(Undetermined) &&
              Prepare(pid, c, s, k, t, fmt).value.justificacionTriaje == JStr(NoJustification)
  {
    var inputs := LoadInputs(c, s, k, t).value;
    var cItems := ItemsIfPresent(inputs.classification, "classifications").value;
    var sItems := ItemsIfPresent(inputs.segmentation, "segmentations").value;
    var summary := Get(inputs.knowledge, "content", JStr(NoHistory)).value;
    var risk := Get(inputs.triage, "riesgo", JStr(Undetermined)).value;
    var justification := Get(inputs.triage, "justificación_triaje", JStr(NoJustification)).value;
    var r0 := Initial(pid, summary, risk, justification);
    ClassificationFields(r0, cItems, fmt);
    var r1 := ApplyClassifications(r0, cItems, fmt).value;
    SegmentationFields(r1, sItems);
  }

  /** `rows` starts with one row per classification entry, in order, with its
      `scan_id` and `p_tumor` and unknown paths, and lists every
      segmentation's `scan_id`. */
  predicate RowsJoined(rows: seq<ScanRow>, cItems: seq<Json>, sItems: seq<Json>, fmt: Formatter)
    requires forall i :: 0 <= i < |cItems| ==> ReadClassification(cItems[i], fmt).Ok?
    requires forall i :: 0 <= i < |sItems| ==> ReadSegmentation(sItems[i]).Ok?
  {
    |cItems| <= |rows| &&
    (forall i :: 0 <= i < |cItems| ==>
       rows[i].scanId == ReadClassification(cItems[i], fmt).value.scanId &&
       rows[i].pTumor == ReadClassification(cItems[i], fmt).value.tumorProb &&
       rows[i].flairPath == NotAvailable && rows[i].t1cePath == NotAvailable) &&
    forall i :: 0 <= i < |sItems| ==> Listed(rows, ReadSegmentation(sItems[i]).value.scanId)
  }

  /** The two loops, run from a report without rows, join the rows as
      `RowsJoined` says. */
  lemma BothLoopsJoin(r0: Report, cItems: seq<Json>, sItems: seq<Json>, fmt: Formatter)
    requires r0.scans == []
    requires ApplyClassifications(r0, cItems, fmt).Ok?
    requires ApplySegmentations(ApplyClassifications(r0, cItems, fmt).value, sItems).Ok?
    ensures forall i :: 0 <= i < |cItems| ==> ReadClassification(cItems[i], fmt).Ok?
    ensures forall i :: 0 <= i < |sItems| ==> ReadSegmentation(sItems[i]).Ok?
    ensures RowsJoined(ApplySegmentations(ApplyClassifications(r0, cItems, fmt).value, sItems).value.scans,
                       cItems, sItems, fmt)
  {
    ClassificationRows(r0, cItems, fmt);
    var r1 := ApplyClassifications(r0, cItems, fmt).value;
    SegmentationIds(r1, sItems);
    var rows := ApplySegmentations(r1, sItems).value.scans;
    forall i | 0 <= i < |cItems|
      ensures rows[i].scanId == ReadClassification(cItems[i], fmt).value.scanId &&
              rows[i].pTumor == ReadClassification(cItems[i], fmt).value.tumorProb &&
              rows[i].flairPath == NotAvailable && rows[i].t1cePath == NotAvailable
    {
      assert r1.scans[i] == ClassRow(ReadClassification(cItems[i], fmt).value);
      assert Unmasked(rows[i]) == Unmasked(r1.scans[i]);
    }
  }

  /** The rows of the report are joined from the classification and
      segmentation entries as `RowsJoined` says. */
  lemma ReportRows(pid: string, c: Text, s: Text, k: Text, t: Text, fmt: Formatter)
    requires Prepare(pid, c, s, k, t, fmt).Ok?
    ensures var inputs := LoadInputs(c, s, k, t).value;
            var cItems := ItemsIfPresent(inputs.classification, "classifications").value;
            var sItems := ItemsIfPresent(inputs.segmentation, "segmentations").value;
            (forall i :: 0 <= i < |cItems| ==> ReadClassification(cItems[i], fmt).Ok?) &&
            (forall i :: 0 <= i < |sItems| ==> ReadSegmentation(sItems[i]).Ok?) &&
            RowsJoined(Prepare(pid, c, s, k, t, fmt).value.scans, cItems, sItems, fmt)
  {
    var inputs := LoadInputs(c, s, k, t).value;
    var cItems := ItemsIfPresent(inputs.classification, "classifications").value;
    var sItems := ItemsIfPresent(inputs.segmentation, "segmentations").value;
    var summary := Get(inputs.knowledge, "content", JStr(NoHistory)).value;
    var risk := Get(inputs.triage, "riesgo", JStr(Undetermined)).value;
    var justification := Get(inputs.triage, "justificación_triaje", JStr(NoJustification)).value;
    BothLoopsJoin(Initial(pid, summary, risk, justification), cItems, sItems, fmt);
  }

  /** The report is written, to `data/temp/reporte_<lower(id)>.json`, iff
      nothing raised before the write; an exception before it writes nothing
      and echoes the arguments with its message. */
  lemma WriteAndEcho(pid: string, c: Text, s: Text, k: Text, t: Text, svc: Services)
    ensures Compose(pid, c, s, k, t, svc).written.Some? <==> Prepare(pid, c, s, k, t, svc.fmt).Ok?
    ensures Prepare(pid, c, s, k, t, svc.fmt).Ok? ==>
              Compose(pid, c, s, k, t, svc).written ==
              Some((ReportPath(pid), ReportDoc(Prepare(pid, c, s, k, t, svc.fmt).value)))
    ensures Prepare(pid, c, s, k, t, svc.fmt).Raise? ==>
              Compose(pid, c, s, k, t, svc).out == Echo(pid, c, s, k, t, Prepare(pid, c, s, k, t, svc.fmt).message)
  {
  }

  /** A renderer reply carrying `error` gives the PDF-failure document; one
      carrying `pdf_path` and no `error` gives `{"report_path": ...}`; a reply
      with neither raises the `KeyError` for `pdf_path`. */
  lemma PdfOutcomes(fields: seq<(string, Json)>, fmt: Formatter)
    ensures Lookup(fields, "error").Some? ==>
              PdfStep(Doc(JObj(fields)), fmt) ==
              Ok(ErrorDoc("PDF generation failed: " + Str(Lookup(fields, "error").value, fmt)))
    ensures Lookup(fields, "error").None? && Lookup(fields, "pdf_path").Some? ==>
              PdfStep(Doc(JObj(fields)), fmt) == Ok(JObj([("report_path", Lookup(fields, "pdf_path").value)]))
    ensures Lookup(fields, "error").None? && Lookup(fields, "pdf_path").None? ==>
              PdfStep(Doc(JObj(fields)), fmt) == Raise("'pdf_path'")
  {
  }

  /** The name is the identifier position by position: each `_` becomes a
      space and every other character is kept up to case, so no `_` is left.
      The JSON path does not depend on the identifier's case. */
  lemma NameAndPath(pid: string)
    ensures |PatientName(pid)| == |pid|
    ensures forall i :: 0 <= i < |pid| && pid[i] == '_' ==> PatientName(pid)[i] == ' '
    ensures forall i :: 0 <= i < |pid| && pid[i] != '_' ==> ToLower(PatientName(pid)[i]) == ToLower(pid[i])
    ensures '_' !in PatientName(pid)
    ensures ReportPath(Lower(pid)) == ReportPath(pid)
  {
    var spaced := Replace(pid, "_", " ");
    ReplaceCharByChar(pid, '_', ' ');
    ReplaceCharRemoves(pid, '_', " ");
    TitleAfterKeepsOthers(spaced, false);
    TitleAfterKeepsLetters(spaced, false);
    assert Lower(Lower(pid)) == Lower(pid);
  }

  /** The report names the mask `mask_file`; it has no
      `nombre_archivo_segmentado`, the key the PDF template reads the mask
      from. */
  lemma ReportMaskKey(r: Report)
    ensures HasKey(ReportDoc(r), "mask_file")
    ensures !HasKey(ReportDoc(r), "nombre_archivo_segmentado")
  {
    var fields := ReportDoc(r).fields;
    assert fields[11] == ("mask_file", r.maskFile);
    LookupLiteral(fields, "mask_file", r.maskFile);
    LookupAbsent(fields, "nombre_archivo_segmentado");
  }
}
