/** The contract between the drawing client and the service: the vector
    the canvas exports (client/src/stores/pixelStore.ts, pixelsToString)
    is a sample the service's validate_sample accepts, as long as the
    canvas holds pixel values. */
module Interop {
  import Canvas
  import Validator

  lemma CanvasExportAccepted(g: Canvas.Grid)
    requires Canvas.Covers(g, Canvas.Dim) && Canvas.GridInRange(g)
    ensures Validator.ValidateSample(Canvas.Flattened(Canvas.Inverted(g))).Pass?
  {
    Canvas.ExportInRange(g);
  }

  /** A freshly reset canvas exports a valid sample */
  lemma BlankCanvasAccepted()
    ensures Validator.ValidateSample(Canvas.Flattened(Canvas.Inverted(Canvas.Filled(Canvas.Dim, Canvas.White)))).Pass?
  {
    Canvas.BlankExportIsZeros();
  }
}
