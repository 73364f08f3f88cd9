/** Error and optional values shared by the validator, the renderer and the assembler.
    The source raises exceptions; the model returns them as values. */
module Results {

  datatype Option<+T> = None | Some(value: T)

  /** The exceptions the core raises or lets escape. The source declares PdfException twice
      (the second declaration shadows the first); the model keeps one. */
  datatype PdfError =
    | PdfException(message: string)
    /** PageException derives from PdfException in the source. */
    | PageException(message: string)
    /** Python's AttributeError, raised by `url.encode` when the url is not a str. */
    | AttributeError(message: string)
    /** A failure reported by the document renderer itself. */
    | RendererError(message: string)
  {
    /** True when an `except PdfException` handler would catch this error. */
    predicate IsPdfException() {
      PdfException? || PageException?
    }
  }

  /** The result of an operation that returns nothing in the source but may raise. */
  datatype Outcome = Pass | Fail(error: PdfError)
}
