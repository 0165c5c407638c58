/** `segmentator_agent`: the per-scan worker run with `segmenter_tumor_from_image`
    as its tool, listing its entries under `"segmentations"` and writing them
    to `data/temp/segmentation.json`. */
module SegmentationAgent {
  import opened PyJson
  import opened ScanWorker
  import FileStore

  const NoScansMessage := "No se encontraron imágenes para segmentar."
  const OutputPath := "data/temp/segmentation.json"
  const Segmentation := Worker("segmentations", NoScansMessage, OutputPath)

  /** One run of the agent on the decoded patient document. */
  method Run(data: Json, segment: Tool, store: FileStore.Store)
    returns (out: Json, ghost calls: seq<(Json, Json)>)
    modifies store
    ensures out == Agent(Segmentation, data, segment).out
    ensures calls == Agent(Segmentation, data, segment).calls
    ensures Agent(Segmentation, data, segment).written.Some? ==>
              store.docs == old(store.docs)[OutputPath := out]
    ensures Agent(Segmentation, data, segment).written.None? ==> store.docs == old(store.docs)
  {
    out, calls := RunAgent(Segmentation, data, segment, store);
  }
}
