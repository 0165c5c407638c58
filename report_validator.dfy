/** `report_validator_agent`: reads the rendered report back as text and checks
    that two section headings are present: the diagnosis heading when some
    classification predicts `"Tumor"`, and the segmentation heading when some
    segmentation has a truthy `result.saved_mask`. The segmentation check runs
    only when the diagnosis check passed. The agent only answers with a
    verdict and the unchanged report path; it never writes a corrected
    report. */
module ReportValidator {
  import opened Wrappers
  import opened Folds
  import opened Strings
  import opened PyJson
  import opened FileStore
  import ScanWorker
  import SegmenterTool

  const DiagnosisHeading := "Diagnóstico preliminar (IA)"
  const SegmentationHeading := "Segmentación de imagen"
  const Approved := "VALIDACIÓN APROBADA: El informe es fiel a los datos proporcionados."
  const TumorRejected := "VALIDACIÓN RECHAZADA: El informe no menciona el diagnóstico de tumor."
  const MaskRejected := "VALIDACIÓN RECHAZADA: El informe no menciona la segmentación de imagen."

  /** `json.loads(read_file_from_local(path)).get("content", "")`: the text of
      the file, or `""` when it could not be read. */
  function Content(reply: ReadReply): string {
    match reply
    case ReadOk(text) => text
    case ReadErr(_) => ""
  }

  /** `cls.get("result", {}).get("prediction")` */
  function Prediction(cls: Json): Result<Json> {
    var result :- Get(cls, "result", JObj([]));
    Get(result, "prediction", JNull)
  }

  /** `seg.get("result", {}).get("saved_mask")` */
  function SavedMask(seg: Json): Result<Json> {
    var result :- Get(seg, "result", JObj([]));
    Get(result, "saved_mask", JNull)
  }

  /** The condition that rejects a report because of one classification entry. */
  function TumorUnmentioned(content: string, cls: Json): Result<bool> {
    var prediction :- Prediction(cls);
    Ok(prediction == JStr("Tumor") && !Contains(content, DiagnosisHeading))
  }

  /** The condition that rejects a report because of one segmentation entry. */
  function MaskUnmentioned(content: string, seg: Json): Result<bool> {
    var savedMask :- SavedMask(seg);
    Ok(Truthy(savedMask) && !Contains(content, SegmentationHeading))
  }

  /** The verdict message from the report text and the decoded inputs. */
  function Verdict(content: string, cdata: Json, sdata: Json): Result<string> {
    var cItems :- ItemsIfPresent(cdata, "classifications");
    var tumorMissing :- Found(cItems, cls => TumorUnmentioned(content, cls));
    if tumorMissing then Ok(TumorRejected)
    else
      var sItems :- ItemsIfPresent(sdata, "segmentations");
      var maskMissing :- Found(sItems, seg => MaskUnmentioned(content, seg));
      Ok(if maskMissing then MaskRejected else Approved)
  }

  function Check(reportPath: Json, classification: Reply, segmentation: Reply, readFile: Json -> ReadReply): Result<string> {
    var content := Content(readFile(reportPath));
    var cdata :- Loads(classification);
    var sdata :- Loads(segmentation);
    Verdict(content, cdata, sdata)
  }

  /** The answer of the agent. */
  function ValidateSpec(reportPath: Json, classification: Reply, segmentation: Reply, readFile: Json -> ReadReply): Json {
    match Check(reportPath, classification, segmentation, readFile)
    case Ok(message) => JObj([("validation_status", JStr(message)), ("report_path", reportPath)])
    case Raise(m) => JObj([("report_path", reportPath), ("error", JStr(m))])
  }

  /** The agent with its `is_valid` flag, proved to compute `ValidateSpec`. */
  method Validate(reportPath: Json, classification: Reply, segmentation: Reply, readFile: Json -> ReadReply)
    returns (out: Json)
    ensures out == ValidateSpec(reportPath, classification, segmentation, readFile)
  {
    var content := Content(readFile(reportPath));
    var cdata := Loads(classification);
    if cdata.Raise? {
      return JObj([("report_path", reportPath), ("error", JStr(cdata.message))]);
    }
    var sdata := Loads(segmentation);
    if sdata.Raise? {
      return JObj([("report_path", reportPath), ("error", JStr(sdata.message))]);
    }
    var isValid := true;
    var message := Approved;
    var cItems := ItemsIfPresent(cdata.value, "classifications");
    if cItems.Raise? {
      return JObj([("report_path", reportPath), ("error", JStr(cItems.message))]);
    }
    var tumorMissing := FoundLoop(cItems.value, cls => TumorUnmentioned(content, cls));
    if tumorMissing.Raise? {
      return JObj([("report_path", reportPath), ("error", JStr(tumorMissing.message))]);
    }
    if tumorMissing.value {
      isValid := false;
      message := TumorRejected;
    }
    if isValid {
      var sItems := ItemsIfPresent(sdata.value, "segmentations");
      if sItems.Raise? {
        return JObj([("report_path", reportPath), ("error", JStr(sItems.message))]);
      }
      var maskMissing := FoundLoop(sItems.value, seg => MaskUnmentioned(content, seg));
      if maskMissing.Raise? {
        return JObj([("report_path", reportPath), ("error", JStr(maskMissing.message))]);
      }
      if maskMissing.value {
        isValid := false;
        message := MaskRejected;
      }
    }
    return JObj([("validation_status", JStr(message)), ("report_path", reportPath)]);
  }

  /** On well-formed entries the verdict is the tumour rejection iff some
      classification predicts `"Tumor"` while the text lacks the diagnosis
      heading; otherwise it is the segmentation rejection iff some
      segmentation has a truthy `saved_mask` while the text lacks the
      segmentation heading; otherwise approval. Classifications that do not
      predict `"Tumor"` never cause a rejection. */
  lemma VerdictCases(content: string, cdata: Json, sdata: Json, cItems: seq<Json>, sItems: seq<Json>)
    requires ItemsIfPresent(cdata, "classifications") == Ok(cItems)
    requires ItemsIfPresent(sdata, "segmentations") == Ok(sItems)
    requires forall k :: 0 <= k < |cItems| ==> Prediction(cItems[k]).Ok?
    requires forall k :: 0 <= k < |sItems| ==> SavedMask(sItems[k]).Ok?
    ensures var tumor := exists k :: 0 <= k < |cItems| && Prediction(cItems[k]) == Ok(JStr("Tumor"));
            var mask := exists k :: 0 <= k < |sItems| && Truthy(SavedMask(sItems[k]).value);
            (Verdict(content, cdata, sdata) == Ok(TumorRejected) <==> tumor && !Contains(content, DiagnosisHeading)) &&
            (Verdict(content, cdata, sdata) == Ok(MaskRejected) <==>
               !(tumor && !Contains(content, DiagnosisHeading)) && mask && !Contains(content, SegmentationHeading)) &&
            (Verdict(content, cdata, sdata) == Ok(Approved) <==>
               !(tumor && !Contains(content, DiagnosisHeading)) && !(mask && !Contains(content, SegmentationHeading)))
  {
    var tumorFlag := cls => TumorUnmentioned(content, cls);
    var maskFlag := seg => MaskUnmentioned(content, seg);
    FoundExists(cItems, tumorFlag);
    FoundExists(sItems, maskFlag);
  }

  /** The path is echoed unchanged in every outcome, next to either a verdict
      or an error, and nothing else is answered. */
  lemma PathEchoed(reportPath: Json, classification: Reply, segmentation: Reply, readFile: Json -> ReadReply)
    ensures var out := ValidateSpec(reportPath, classification, segmentation, readFile);
            out.JObj? && |out.fields| == 2 && ("report_path", reportPath) in out.fields &&
            (out.fields[0].0 == "validation_status" || out.fields[1].0 == "error")
  {
  }

  /** A report that cannot be read as text has content `""`, so a Tumor
      classification anywhere in the list rejects it, provided no entry
      before it raises. */
  lemma UnreadableReportRejected(reportPath: Json, classification: Reply, segmentation: Reply,
                                 readFile: Json -> ReadReply, cItems: seq<Json>, k: nat)
    requires readFile(reportPath).ReadErr?
    requires classification.Doc? && segmentation.Doc?
    requires ItemsIfPresent(classification.doc, "classifications") == Ok(cItems)
    requires k < |cItems| && Prediction(cItems[k]) == Ok(JStr("Tumor"))
    requires forall j :: 0 <= j < k ==> Prediction(cItems[j]).Ok?
    ensures ValidateSpec(reportPath, classification, segmentation, readFile) ==
            JObj([("validation_status", JStr(TumorRejected)), ("report_path", reportPath)])
  {
    assert !OccursAt("", DiagnosisHeading, 0);
    assert !Contains("", DiagnosisHeading);
    var tumorFlag := cls => TumorUnmentioned("", cls);
    assert forall j :: 0 <= j < k ==> tumorFlag(cItems[j]).Ok?;
    FoundHit(cItems, tumorFlag, k);
  }

  /** An entry whose result is a dict without `saved_mask` never triggers the
      segmentation check. */
  lemma EntryWithoutMask(content: string, scanId: Json, result: Json)
    requires result.JObj? && !HasKey(result, "saved_mask")
    ensures MaskUnmentioned(content, ScanWorker.EntryDoc(scanId, result)) == Ok(false)
  {
    assert SavedMask(ScanWorker.EntryDoc(scanId, result)) == Ok(JNull);
  }

  /** The segmentation agent records the segmenter's answer under `result`,
      and that answer has no `saved_mask`: entries produced by the pipeline
      never trigger the segmentation check. */
  lemma SegmenterEntriesNeverChecked(content: string, scanId: Json, flairPath: string, t1cePath: string,
                                     isFile: string -> bool, failure: Option<string>)
    ensures var answer := SegmenterTool.SegmentSpec(flairPath, t1cePath, isFile, failure);
            MaskUnmentioned(content, ScanWorker.EntryDoc(scanId, answer)) == Ok(false)
    ensures MaskUnmentioned(content, ScanWorker.EntryDoc(scanId, ErrorDoc(ScanWorker.IncompletePaths))) == Ok(false)
  {
    var answer := SegmenterTool.SegmentSpec(flairPath, t1cePath, isFile, failure);
    SegmenterTool.NoSavedMaskKey(flairPath, t1cePath, isFile, failure);
    EntryWithoutMask(content, scanId, answer);
    assert Lookup(ErrorDoc(ScanWorker.IncompletePaths).fields, "saved_mask") == None;
    EntryWithoutMask(content, scanId, ErrorDoc(ScanWorker.IncompletePaths));
  }
}
