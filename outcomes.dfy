/** The outcome of the classifier's operations: a value, or one of the
    exceptions the classifier raises itself. */
module Outcomes {

  /** The exceptions the classifier raises itself. */
  datatype Error =
    | ModelNotFound     // `__init__`: no ONNX model file at the given path
    | LabelsNotFound    // `__init__`: no labels file at the given path
    | EmptyLogits       // `logits.max()` of a zero-size array raises
    | LabelIndexError   // `self.labels[idx]` with idx past the end raises

  datatype Result<T> = Ok(value: T) | Err(error: Error)
}
