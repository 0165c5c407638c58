/** `clasificacion_agent`: the per-scan worker run with `classify_tumor_from_image`
    as its tool, listing its entries under `"classifications"` and writing them
    to `data/temp/classification.json`. */
module ClassificationAgent {
  import opened PyJson
  import opened ScanWorker
  import FileStore

  const NoScansMessage := "No se encontraron imágenes para clasificar."
  const OutputPath := "data/temp/classification.json"
  const Classification := Worker("classifications", NoScansMessage, OutputPath)

  /** One run of the agent on the decoded patient document. */
  method Run(data: Json, classify: Tool, store: FileStore.Store)
    returns (out: Json, ghost calls: seq<(Json, Json)>)
    modifies store
    ensures out == Agent(Classification, data, classify).out
    ensures calls == Agent(Classification, data, classify).calls
    ensures Agent(Classification, data, classify).written.Some? ==>
              store.docs == old(store.docs)[OutputPath := out]
    ensures Agent(Classification, data, classify).written.None? ==> store.docs == old(store.docs)
  {
    out, calls := RunAgent(Classification, data, classify, store);
  }
}
