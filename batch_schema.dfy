/** Row-batch encodings: whether a batch carries a selection vector, and its width. */
module BatchSchema {

  /** `NoVector` is a dense batch (no selection vector); the others select rows by a 2- or 4-byte index vector. */
  datatype SelectionVectorMode = NoVector | TwoByte | FourByte

  /** Whether batches in this mode carry a selection vector. */
  predicate HasSelectionVector(mode: SelectionVectorMode)
  {
    mode != NoVector
  }

  /** The default set of accepted input encodings: dense batches only. */
  const DefaultModes: seq<SelectionVectorMode> := [NoVector]
}
