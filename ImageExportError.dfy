/** `MediaImageExporter.ExportError`: the failures the image exporter raises itself. */
module ImageExportError {
  import opened Wrappers
  import opened Foundation

  /** The domain Swift gives the `NSError` bridged from a value of this enum: the enum's
      fully qualified type name. */
  const ExportErrorDomain := "WordPress.MediaImageExporter.ExportError"

  /** The text (in the development language) every case describes itself with. */
  const ImageNotAddedMessage := "The image could not be added to the Media Library."

  datatype ExportError =
    | ImageJPEGDataRepresentationFailed
    | ImageSourceCreationWithDataFailed
    | ImageSourceCreationWithURLFailed
    | ImageSourceIsAnUnknownType
    | ImageSourceExpectedJPEGImageType
    | ImageSourceDestinationWithURLFailed
    | ImageSourceDestinationWriteFailed
  {
    /** `description`: one message shared by every case. */
    function Description(): (s: string)
      ensures s == ImageNotAddedMessage
    {
      match this
      case ImageJPEGDataRepresentationFailed => ImageNotAddedMessage
      case ImageSourceCreationWithDataFailed => ImageNotAddedMessage
      case ImageSourceCreationWithURLFailed => ImageNotAddedMessage
      case ImageSourceIsAnUnknownType => ImageNotAddedMessage
      case ImageSourceExpectedJPEGImageType => ImageNotAddedMessage
      case ImageSourceDestinationWithURLFailed => ImageNotAddedMessage
      case ImageSourceDestinationWriteFailed => ImageNotAddedMessage
    }

    /** `_code`: Swift numbers the cases of a payload-free error enum in declaration order. */
    function Code(): (c: nat)
      ensures c < 7
    {
      match this
      case ImageJPEGDataRepresentationFailed => 0
      case ImageSourceCreationWithDataFailed => 1
      case ImageSourceCreationWithURLFailed => 2
      case ImageSourceIsAnUnknownType => 3
      case ImageSourceExpectedJPEGImageType => 4
      case ImageSourceDestinationWithURLFailed => 5
      case ImageSourceDestinationWriteFailed => 6
    }

    /** `toNSError()`: `_domain`, `_code`, and `String(describing: self)` (which is
        `description`) as the localized description. */
    function ToNSError(): (e: NSError)
      ensures e.domain == ExportErrorDomain
      ensures e.localizedDescription == Description()
      ensures FromNSError(e) == Some(this)
    {
      NSError(ExportErrorDomain, Code(), Description())
    }
  }

  /** The case an `NSError` of this domain stands for, if any: the inverse of `ToNSError`. */
  function FromNSError(e: NSError): (r: Option<ExportError>)
    ensures r.Some? ==> e.domain == ExportErrorDomain && r.value.Code() == e.code
  {
    if e.domain != ExportErrorDomain then None
    else if e.code == 0 then Some(ImageJPEGDataRepresentationFailed)
    else if e.code == 1 then Some(ImageSourceCreationWithDataFailed)
    else if e.code == 2 then Some(ImageSourceCreationWithURLFailed)
    else if e.code == 3 then Some(ImageSourceIsAnUnknownType)
    else if e.code == 4 then Some(ImageSourceExpectedJPEGImageType)
    else if e.code == 5 then Some(ImageSourceDestinationWithURLFailed)
    else if e.code == 6 then Some(ImageSourceDestinationWriteFailed)
    else None
  }

  /** Distinct cases give distinct `NSError`s, and each one keeps its description as the
      localized description. */
  lemma NSErrorKeepsCase(a: ExportError, b: ExportError)
    ensures a.ToNSError().localizedDescription == a.Description()
    ensures a.ToNSError() == b.ToNSError() <==> a == b
  {
    assert FromNSError(a.ToNSError()) == Some(a);
    assert FromNSError(b.ToNSError()) == Some(b);
  }
}
