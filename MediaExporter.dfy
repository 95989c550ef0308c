/** The exporter protocol's error family (`MediaExportError`, `MediaExportSystemError`),
    the classification `exporterErrorWith`, and the export values the exporters produce. */
module MediaExporter {
  import opened Wrappers
  import opened Foundation
  import opened ImageExportError

  /** An error from outside the exporters (Foundation, Core Data, the file system): what it
      bridges to as an `NSError`, and its `String(describing:)` text. */
  datatype ForeignError = ForeignError(bridged: NSError, describing: string)

  /** The closed family of known export errors: the image exporter's own failures, and
      `MediaExportSystemError.failedWith(systemError:)` around a foreign error. */
  datatype MediaExportError =
    | ImageExportFailed(kind: ExportError)
    | FailedWith(systemError: ForeignError)
  {
    /** `description`: the image exporter's message, or the wrapped error's own text. */
    function Description(): (s: string)
      ensures FailedWith? ==> s == systemError.describing
      ensures ImageExportFailed? ==> s == ImageNotAddedMessage
    {
      match this
      case ImageExportFailed(k) => k.Description()
      case FailedWith(f) => f.describing
    }

    /** `toNSError()`: a wrapped system error is handed back as the `NSError` it is. */
    function ToNSError(): (e: NSError)
      ensures FailedWith? ==> e == systemError.bridged
      ensures ImageExportFailed? ==> FromNSError(e) == Some(kind)
    {
      match this
      case ImageExportFailed(k) => k.ToNSError()
      case FailedWith(f) => f.bridged
    }
  }

  /** Any Swift `Error`: one of the known family, or anything else. */
  datatype AnyError = Known(error: MediaExportError) | System(foreign: ForeignError)

  /** `exporterErrorWith(error:)`: a known error passes through, anything else is wrapped. */
  function ExporterErrorWith(error: AnyError): (r: MediaExportError)
    ensures error.Known? ==> r == error.error
    ensures error.System? ==> r == FailedWith(error.foreign) && r.ToNSError() == error.foreign.bridged
  {
    match error
    case Known(e) => e
    case System(f) => FailedWith(f)
  }

  /** A known error comes back unchanged, with the same case. */
  lemma ClassifyKnownIsIdentity(e: MediaExportError)
    ensures ExporterErrorWith(Known(e)) == e
  {
  }

  /** Classifying an already classified error changes nothing. */
  lemma ClassifyIdempotent(error: AnyError)
    ensures ExporterErrorWith(Known(ExporterErrorWith(error))) == ExporterErrorWith(error)
  {
  }

  /** A wrapped foreign error keeps its text as description and its `NSError` (and so its
      localized description) unchanged. */
  lemma WrappedErrorRoundTrip(f: ForeignError)
    ensures ExporterErrorWith(System(f)).Description() == f.describing
    ensures ExporterErrorWith(System(f)).ToNSError() == f.bridged
    ensures ExporterErrorWith(System(f)).ToNSError().localizedDescription == f.bridged.localizedDescription
  {
  }

  // Export values.

  /** What every export carries (`MediaExport`): where the file was written, its size. */
  datatype MediaExport = MediaExport(url: URL, fileSize: Option<int>)

  /** `MediaImageExport`; width and height are pixel counts. */
  datatype MediaImageExport = MediaImageExport(url: URL, width: Option<int>, height: Option<int>, fileSize: Option<int>)
  {
    function AsMediaExport(): MediaExport { MediaExport(url, fileSize) }
  }

  /** `MediaVideoExport`; the duration is carried, never computed with. */
  datatype MediaVideoExport = MediaVideoExport(url: URL, fileSize: Option<int>, duration: Option<real>)
  {
    function AsMediaExport(): MediaExport { MediaExport(url, fileSize) }
  }

  /** `MediaGIFExport` */
  datatype MediaGIFExport = MediaGIFExport(url: URL, fileSize: Option<int>)
  {
    function AsMediaExport(): MediaExport { MediaExport(url, fileSize) }
  }
}
