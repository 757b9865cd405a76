/** Key names the converter writes into datapoints and properties. */
module RenderKeys {

  /** The synthesised 0-based index used as x when no x field is configured. */
  const STEP: string := "step"
  /** Provenance: the revision the datapoint comes from. */
  const REVISION: string := "rev"
  /** Provenance: the source file the datapoint comes from. */
  const FILENAME: string := "filename"
  /** Provenance: the y field this datapoint plots. */
  const FIELD: string := "field"
  /** The x value when several distinct x fields are plotted together. */
  const INFERRED_X: string := "dvc_inferred_x_value"
  /** The y value when several distinct y fields are plotted together. */
  const INFERRED_Y: string := "dvc_inferred_y_value"

  /** Every key the converter may add to a record. */
  function Reserved(): set<string>
  {
    {STEP, REVISION, FILENAME, FIELD, INFERRED_X, INFERRED_Y}
  }
}
