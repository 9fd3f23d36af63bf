/** The ways an operation of a dense layer can fail, and the results that carry them.
    In the Java code these failures are exceptions: a NullPointerException on a field that
    was never assigned, an Nd4j exception on incompatible shapes, and an index error from
    the layer container. */
module Results {

  datatype LayerError =
    | NullReference   // a field (or a neighbour's field) read before it was ever assigned
    | ShapeMismatch   // Nd4j refuses the shapes of a matrix operation
    | NoSuchLayer     // the container has no layer at the requested index

  datatype Result<T> = Ok(value: T) | Err(error: LayerError)

  /** The outcome of an operation that returns nothing in Java. */
  datatype Outcome = Pass | Fail(error: LayerError)
}
