/** `MediaImageExporter`: exports a `UIImage`, JPEG data, or an image file at a URL as an
    image file in the local Media directory, configuring an `ImageSourceWriter` from the
    exporter's flags and the user's `MediaSettings`.

    ImageIO, UTType and the Media directory are not modelled: what they answer is given as
    a `Platform` value. The completion and error callbacks become one returned outcome. */
module MediaImageExporter {
  import opened Wrappers
  import opened Foundation
  import opened ImageExportError
  import opened MediaExporter

  /** Swift's `Int.max` on a 64-bit platform, and the values of a Swift `Int`. */
  const IntMax: int := 0x7fff_ffff_ffff_ffff
  type Int64 = x: int | -0x8000_0000_0000_0000 <= x <= IntMax

  /** `defaultImageFilename` */
  const DefaultImageFilename := "image"

  /** `kUTTypeJPEG` */
  const JPEGType := "public.jpeg"

  /** ImageIO dictionary keys: `kCGImagePropertyPixelWidth`, `kCGImagePropertyPixelHeight`,
      `kCGImagePropertyFileSize`, `kCGImagePropertyGPSDictionary` and
      `kCGImageDestinationLossyCompressionQuality`. */
  const PixelWidthKey := "PixelWidth"
  const PixelHeightKey := "PixelHeight"
  const FileSizeKey := "FileSize"
  const GPSDictionaryKey := "{GPS}"
  const LossyCompressionQualityKey := "kCGImageDestinationLossyCompressionQuality"

  /** A value in an ImageIO property dictionary; `NullValue` is `kCFNull`. */
  datatype PropertyValue = IntegerValue(i: int) | RealValue(r: real) | NullValue | OtherValue

  type Properties = map<string, PropertyValue>

  /** The snapshot of `MediaSettings()` the exporter reads. */
  datatype MediaSettings = MediaSettings(removeLocationSetting: bool, imageSizeForUpload: Int64)

  /** A `CGImageSource`: `CGImageSourceGetType`, and `CGImageSourceCopyPropertiesAtIndex(source, 0, nil)`
      read as a dictionary (None when that fails). */
  datatype ImageSource = ImageSource(utType: Option<string>, propertiesAtIndex0: Option<Properties>)

  /** A `UIImage`, observed only through `UIImageJPEGRepresentation(image, 1.0)`. */
  datatype UIImage = UIImage(jpegRepresentation: Option<Bytes>)

  /** What the platform answers during an export:
      `CGImageSourceCreateWithData` and `CGImageSourceCreateWithURL` (with the JPEG type hint),
      `fileExtensionForUTType`, `MediaLibrary.makeLocalMediaURL` (which may throw),
      the `MediaSettings` snapshot, whether `CGImageDestinationCreateWithURL` gives a
      destination, and whether `CGImageDestinationFinalize` reports success. */
  datatype Platform = Platform(
    imageSourceWithData: Bytes -> Option<ImageSource>,
    imageSourceWithURL: URL -> Option<ImageSource>,
    fileExtensionForUTType: string -> Option<string>,
    makeLocalMediaURL: (string, Option<string>) -> Result<URL, AnyError>,
    settings: MediaSettings,
    destinationCreatable: bool,
    finalizeSucceeds: bool)

  /** `WriteResultProperties` */
  datatype WriteResultProperties = WriteResultProperties(width: Option<int>, height: Option<int>, fileSize: Option<int>)

  /** The image handed to the destination by `CGImageDestinationAddImageFromSource` and
      written by a successful `CGImageDestinationFinalize`: the file, its type, the index of
      the source image used, the destination properties, and the maximum pixel size of the
      thumbnail requested from the source (None when no thumbnail was requested). */
  datatype ImageWrite = ImageWrite(url: URL, utType: string, sourceIndex: nat, properties: Properties,
                                   thumbnailMaxPixelSize: Option<Int64>)

  /** A successful write: what was written, and the properties reported back. */
  datatype WriteOutcome = WriteOutcome(written: ImageWrite, reported: WriteResultProperties)

  /** One export: the value passed to `onCompletion` (Success) or to `onError` (Failure),
      and the image file written, if any. */
  datatype ImageExportOutcome = ImageExportOutcome(result: Result<MediaImageExport, MediaExportError>, written: Option<ImageWrite>)

  /** `ImageSourceWriter`, a value type configured field by field. */
  datatype ImageSourceWriter = ImageSourceWriter(
    url: URL,
    sourceUTType: string,
    lossyCompressionQuality: real,
    nullifyGPSData: bool,
    maximumSize: Option<Int64>)
  {
    /** `writeImageSource(_:)`: builds the destination properties and the source index in
        place, adds the image, finalizes, and reads the result from the source. */
    method WriteImageSource(source: ImageSource, p: Platform) returns (r: Result<WriteOutcome, ExportError>)
      ensures r == Written(this, source, p)
    {
      if !p.destinationCreatable {
        return Failure(ImageSourceDestinationWithURLFailed);
      }
      var imageProperties: Properties := map[];
      imageProperties := imageProperties[LossyCompressionQualityKey := RealValue(lossyCompressionQuality)];
      if nullifyGPSData {
        imageProperties := imageProperties[GPSDictionaryKey := NullValue];
      }
      var sourceImageIndex := 0;
      var thumbnailMaxPixelSize: Option<Int64> := None;
      if maximumSize.Some? {
        // The thumbnail is requested and its result dropped; index 1 of the source is used.
        thumbnailMaxPixelSize := Some(maximumSize.value);
        sourceImageIndex := 1;
      }
      var added := ImageWrite(url, sourceUTType, sourceImageIndex, imageProperties, thumbnailMaxPixelSize);
      if !p.finalizeSucceeds {
        return Failure(ImageSourceDestinationWriteFailed);
      }
      var sourceProperties := source.propertiesAtIndex0;
      var width := IntegerProperty(sourceProperties, PixelWidthKey);
      var height := IntegerProperty(sourceProperties, PixelHeightKey);
      var fileSize := IntegerProperty(sourceProperties, FileSizeKey);
      r := Success(WriteOutcome(added, WriteResultProperties(width, height, fileSize)));
    }
  }

  /** `ImageSourceWriter(url:sourceUTType:)`: full quality, GPS kept, no maximum size. */
  function NewImageSourceWriter(url: URL, utType: string): (w: ImageSourceWriter)
    ensures w.url == url && w.sourceUTType == utType
    ensures w.lossyCompressionQuality == 1.0 && !w.nullifyGPSData && w.maximumSize.None?
  {
    ImageSourceWriter(url, utType, 1.0, false, None)
  }

  /** `sourceProperties?[key] as? <integer>`: present only when the dictionary was read and
      holds an integer under `key`. */
  function IntegerProperty(properties: Option<Properties>, key: string): (r: Option<int>)
    ensures r.Some? <==> properties.Some? && key in properties.value && properties.value[key].IntegerValue?
    ensures r.Some? ==> r.value == properties.value[key].i
  {
    if properties.Some? && key in properties.value && properties.value[key].IntegerValue? then
      Some(properties.value[key].i)
    else
      None
  }

  /** The destination properties `writeImageSource` builds. */
  function DestinationProperties(w: ImageSourceWriter): (props: Properties)
    ensures LossyCompressionQualityKey in props && props[LossyCompressionQualityKey] == RealValue(w.lossyCompressionQuality)
    ensures GPSDictionaryKey in props <==> w.nullifyGPSData
    ensures GPSDictionaryKey in props ==> props[GPSDictionaryKey] == NullValue
    ensures props.Keys <= {LossyCompressionQualityKey, GPSDictionaryKey}
  {
    var props := map[LossyCompressionQualityKey := RealValue(w.lossyCompressionQuality)];
    if w.nullifyGPSData then props[GPSDictionaryKey := NullValue] else props
  }

  /** The source image `writeImageSource` adds: index 1 when a maximum size is set. */
  function SourceImageIndex(w: ImageSourceWriter): (i: nat)
    ensures i == 1 <==> w.maximumSize.Some?
    ensures i == 0 <==> w.maximumSize.None?
  {
    if w.maximumSize.Some? then 1 else 0
  }

  /** What `writeImageSource` produces for a writer, a source and the platform's answers. */
  function Written(w: ImageSourceWriter, source: ImageSource, p: Platform): (r: Result<WriteOutcome, ExportError>)
    ensures r.Success? <==> p.destinationCreatable && p.finalizeSucceeds
    ensures r.Failure? ==>
      (r.error == ImageSourceDestinationWithURLFailed <==> !p.destinationCreatable)
      && (r.error == ImageSourceDestinationWriteFailed <==> p.destinationCreatable)
    ensures r.Success? ==>
      var write := r.value.written;
      && write.url == w.url && write.utType == w.sourceUTType
      && (write.sourceIndex == 1 <==> w.maximumSize.Some?)
      && write.thumbnailMaxPixelSize == w.maximumSize
      && (GPSDictionaryKey in write.properties <==> w.nullifyGPSData)
      && LossyCompressionQualityKey in write.properties
      && write.properties[LossyCompressionQualityKey] == RealValue(w.lossyCompressionQuality)
      && r.value.reported.width == IntegerProperty(source.propertiesAtIndex0, PixelWidthKey)
      && r.value.reported.height == IntegerProperty(source.propertiesAtIndex0, PixelHeightKey)
      && r.value.reported.fileSize == IntegerProperty(source.propertiesAtIndex0, FileSizeKey)
  {
    if !p.destinationCreatable then Failure(ImageSourceDestinationWithURLFailed)
    else if !p.finalizeSucceeds then Failure(ImageSourceDestinationWriteFailed)
    else
      var props := source.propertiesAtIndex0;
      Success(WriteOutcome(
        ImageWrite(w.url, w.sourceUTType, SourceImageIndex(w), DestinationProperties(w), w.maximumSize),
        WriteResultProperties(IntegerProperty(props, PixelWidthKey), IntegerProperty(props, PixelHeightKey),
                              IntegerProperty(props, FileSizeKey))))
  }

  /** The writer `exportImageSource` configures from the exporter's flags and the settings. */
  function ConfiguredWriter(url: URL, utType: string, resizes: bool, strips: bool, settings: MediaSettings): (w: ImageSourceWriter)
    ensures w.url == url && w.sourceUTType == utType && w.lossyCompressionQuality == 1.0
    ensures w.nullifyGPSData <==> strips && settings.removeLocationSetting
    ensures w.maximumSize.Some? <==> resizes && settings.imageSizeForUpload < IntMax
    ensures w.maximumSize.Some? ==> w.maximumSize.value == settings.imageSizeForUpload
  {
    var w := NewImageSourceWriter(url, utType);
    var w := if strips then w.(nullifyGPSData := settings.removeLocationSetting) else w;
    if resizes && settings.imageSizeForUpload < IntMax then w.(maximumSize := Some(settings.imageSizeForUpload)) else w
  }

  /** The `catch` clause of every entry point: the error is classified and goes to `onError`. */
  function Caught(error: AnyError): ImageExportOutcome {
    ImageExportOutcome(Failure(ExporterErrorWith(error)), None)
  }

  /** A failure the exporter throws itself. */
  function Thrown(e: ExportError): ImageExportOutcome {
    Caught(Known(ImageExportFailed(e)))
  }

  /** `exportImageSource(_:filename:type:...)` */
  function SourceExport(source: ImageSource, filename: Option<string>, utType: string,
                        resizes: bool, strips: bool, p: Platform): (o: ImageExportOutcome)
    ensures o.result.Success? <==> o.written.Some?
  {
    match p.makeLocalMediaURL(filename.GetOr(DefaultImageFilename), p.fileExtensionForUTType(utType))
    case Failure(e) => Caught(e)
    case Success(url) =>
      match Written(ConfiguredWriter(url, utType, resizes, strips, p.settings), source, p)
      case Failure(e) => Thrown(e)
      case Success(w) =>
        ImageExportOutcome(Success(MediaImageExport(url, w.reported.width, w.reported.height, w.reported.fileSize)),
                           Some(w.written))
  }

  /** `exportImage(withJPEGData:fileName:...)` */
  function JPEGDataExport(data: Bytes, fileName: Option<string>, resizes: bool, strips: bool, p: Platform): (o: ImageExportOutcome)
    ensures o.result.Success? <==> o.written.Some?
  {
    match p.imageSourceWithData(data)
    case None => Thrown(ImageSourceCreationWithDataFailed)
    case Some(source) =>
      match source.utType
      case None => Thrown(ImageSourceIsAnUnknownType)
      case Some(utType) =>
        if utType != JPEGType then Thrown(ImageSourceExpectedJPEGImageType)
        else SourceExport(source, fileName, utType, resizes, strips, p)
  }

  /** `exportImage(atURL:...)` */
  function URLImageExport(url: URL, resizes: bool, strips: bool, p: Platform): (o: ImageExportOutcome)
    ensures o.result.Success? <==> o.written.Some?
  {
    match p.imageSourceWithURL(url)
    case None => Thrown(ImageSourceCreationWithURLFailed)
    case Some(source) =>
      match source.utType
      case None => Thrown(ImageSourceIsAnUnknownType)
      case Some(utType) => SourceExport(source, Some(FilenameWithoutExtension(url)), utType, resizes, strips, p)
  }

  /** `exportImage(_:fileName:...)` for a `UIImage` */
  function UIImageExport(image: UIImage, fileName: Option<string>, resizes: bool, strips: bool, p: Platform): (o: ImageExportOutcome)
    ensures o.result.Success? <==> o.written.Some?
  {
    match image.jpegRepresentation
    case None => Thrown(ImageJPEGDataRepresentationFailed)
    case Some(data) => JPEGDataExport(data, fileName, resizes, strips, p)
  }

  // Properties of the export path.

  /** A missing filename is the default filename "image". */
  lemma MissingFilenameIsImage(source: ImageSource, utType: string, resizes: bool, strips: bool, p: Platform)
    ensures SourceExport(source, None, utType, resizes, strips, p)
         == SourceExport(source, Some(DefaultImageFilename), utType, resizes, strips, p)
  {
  }

  /** An export reaches `onCompletion` exactly when the URL is allocated, the destination is
      created and the write is finalized. */
  lemma SourceExportSucceedsIff(source: ImageSource, filename: Option<string>, utType: string,
                                resizes: bool, strips: bool, p: Platform)
    ensures var o := SourceExport(source, filename, utType, resizes, strips, p);
      o.result.Success? <==>
        && p.makeLocalMediaURL(filename.GetOr(DefaultImageFilename), p.fileExtensionForUTType(utType)).Success?
        && p.destinationCreatable && p.finalizeSucceeds
  {
  }

  /** Each failure of `exportImageSource` reaches `onError` as the matching error: a thrown
      allocation error through `exporterErrorWith`, the writer's own failures unchanged. */
  lemma SourceExportFailures(source: ImageSource, filename: Option<string>, utType: string,
                             resizes: bool, strips: bool, p: Platform)
    ensures var o := SourceExport(source, filename, utType, resizes, strips, p);
      match p.makeLocalMediaURL(filename.GetOr(DefaultImageFilename), p.fileExtensionForUTType(utType))
      case Failure(e) => o == ImageExportOutcome(Failure(ExporterErrorWith(e)), None)
      case Success(_) =>
        && (!p.destinationCreatable ==>
              o == ImageExportOutcome(Failure(ImageExportFailed(ImageSourceDestinationWithURLFailed)), None))
        && (p.destinationCreatable && !p.finalizeSucceeds ==>
              o == ImageExportOutcome(Failure(ImageExportFailed(ImageSourceDestinationWriteFailed)), None))
  {
  }

  /** On success the export's URL is the allocated one; width, height and file size are read
      from the source's properties at index 0 (not from the file written); the file is
      written at that URL with the source's type, at full quality, with the GPS dictionary
      nulled exactly when both the exporter and the settings ask to strip the location, and
      from source index 1 exactly when resizing applies. */
  lemma SourceExportReport(source: ImageSource, filename: Option<string>, utType: string,
                           resizes: bool, strips: bool, p: Platform)
    requires SourceExport(source, filename, utType, resizes, strips, p).result.Success?
    ensures var o := SourceExport(source, filename, utType, resizes, strips, p);
      var e := o.result.value;
      var props := source.propertiesAtIndex0;
      && p.makeLocalMediaURL(filename.GetOr(DefaultImageFilename), p.fileExtensionForUTType(utType)) == Success(e.url)
      && e.width == IntegerProperty(props, PixelWidthKey)
      && e.height == IntegerProperty(props, PixelHeightKey)
      && e.fileSize == IntegerProperty(props, FileSizeKey)
      && o.written.Some?
      && o.written.value.url == e.url
      && o.written.value.utType == utType
      && o.written.value.properties[LossyCompressionQualityKey] == RealValue(1.0)
      && (GPSDictionaryKey in o.written.value.properties <==> strips && p.settings.removeLocationSetting)
      && (o.written.value.sourceIndex == 1 <==> resizes && p.settings.imageSizeForUpload < IntMax)
      && (o.written.value.sourceIndex == 0 <==> !(resizes && p.settings.imageSizeForUpload < IntMax))
      && o.written.value.thumbnailMaxPixelSize
           == (if resizes && p.settings.imageSizeForUpload < IntMax then Some(p.settings.imageSizeForUpload) else None)
  {
  }

  /** The JPEG-data path checks, in this order, that a source was created, that it has a
      type, and that the type is JPEG; only then does it export the source. */
  lemma JPEGDataGuards(data: Bytes, fileName: Option<string>, resizes: bool, strips: bool, p: Platform)
    ensures var o := JPEGDataExport(data, fileName, resizes, strips, p);
      var source := p.imageSourceWithData(data);
      && (source.None? ==> o == ImageExportOutcome(Failure(ImageExportFailed(ImageSourceCreationWithDataFailed)), None))
      && (source.Some? && source.value.utType.None? ==>
            o == ImageExportOutcome(Failure(ImageExportFailed(ImageSourceIsAnUnknownType)), None))
      && (source.Some? && source.value.utType.Some? && source.value.utType.value != JPEGType ==>
            o == ImageExportOutcome(Failure(ImageExportFailed(ImageSourceExpectedJPEGImageType)), None))
      && (source.Some? && source.value.utType == Some(JPEGType) ==>
            o == SourceExport(source.value, fileName, JPEGType, resizes, strips, p))
  {
  }

  /** Only a JPEG-typed source is ever written from JPEG data. */
  lemma OnlyJPEGWrittenFromData(data: Bytes, fileName: Option<string>, resizes: bool, strips: bool, p: Platform)
    requires JPEGDataExport(data, fileName, resizes, strips, p).written.Some?
    ensures p.imageSourceWithData(data).Some? && p.imageSourceWithData(data).value.utType == Some(JPEGType)
    ensures JPEGDataExport(data, fileName, resizes, strips, p).written.value.utType == JPEGType
  {
  }

  /** The URL path has no JPEG requirement: a source of any type is exported under the URL's
      last path component without its extension. */
  lemma URLExportAnyType(url: URL, resizes: bool, strips: bool, p: Platform)
    ensures var o := URLImageExport(url, resizes, strips, p);
      var source := p.imageSourceWithURL(url);
      && (source.None? ==> o == ImageExportOutcome(Failure(ImageExportFailed(ImageSourceCreationWithURLFailed)), None))
      && (source.Some? && source.value.utType.None? ==>
            o == ImageExportOutcome(Failure(ImageExportFailed(ImageSourceIsAnUnknownType)), None))
      && (source.Some? && source.value.utType.Some? ==>
            o == SourceExport(source.value, Some(FilenameWithoutExtension(url)), source.value.utType.value, resizes, strips, p))
  {
  }

  /** Exporting `…/stem.ext` asks the Media directory for a file named `stem`. */
  lemma URLExportNamesFileByStem(url: URL, stem: string, ext: string, resizes: bool, strips: bool, p: Platform)
    requires url.lastPathComponent == stem + "." + ext && stem != "" && '.' !in ext
    requires p.imageSourceWithURL(url).Some? && p.imageSourceWithURL(url).value.utType.Some?
    ensures var source := p.imageSourceWithURL(url).value;
      URLImageExport(url, resizes, strips, p)
        == SourceExport(source, Some(stem), source.utType.value, resizes, strips, p)
  {
    DeletingAppendedExtension(stem, ext);
  }

  /** A `UIImage` export fails only when no JPEG representation exists, and otherwise is the
      JPEG-data export with the same filename. */
  lemma UIImageExportForwards(image: UIImage, fileName: Option<string>, resizes: bool, strips: bool, p: Platform)
    ensures var o := UIImageExport(image, fileName, resizes, strips, p);
      && (image.jpegRepresentation.None? ==>
            o == ImageExportOutcome(Failure(ImageExportFailed(ImageJPEGDataRepresentationFailed)), None))
      && (image.jpegRepresentation.Some? ==> o == JPEGDataExport(image.jpegRepresentation.value, fileName, resizes, strips, p))
  {
  }

  class MediaImageExporter {
    var resizesIfNeeded: bool
    var stripsGeoLocationIfNeeded: bool

    constructor ()
      ensures resizesIfNeeded && stripsGeoLocationIfNeeded
    {
      resizesIfNeeded := true;
      stripsGeoLocationIfNeeded := true;
    }

    /** `exportImage(_:fileName:onCompletion:onError:)` */
    method ExportImage(image: UIImage, fileName: Option<string>, p: Platform) returns (o: ImageExportOutcome)
      ensures o == UIImageExport(image, fileName, resizesIfNeeded, stripsGeoLocationIfNeeded, p)
    {
      if image.jpegRepresentation.None? {
        var thrown := Known(ImageExportFailed(ImageJPEGDataRepresentationFailed));
        return Caught(thrown);
      }
      o := ExportImageWithJPEGData(image.jpegRepresentation.value, fileName, p);
    }

    /** `exportImage(withJPEGData:fileName:onCompletion:onError:)` */
    method ExportImageWithJPEGData(data: Bytes, fileName: Option<string>, p: Platform) returns (o: ImageExportOutcome)
      ensures o == JPEGDataExport(data, fileName, resizesIfNeeded, stripsGeoLocationIfNeeded, p)
    {
      var source := p.imageSourceWithData(data);
      if source.None? {
        return Caught(Known(ImageExportFailed(ImageSourceCreationWithDataFailed)));
      }
      var utType := source.value.utType;
      if utType.None? {
        return Caught(Known(ImageExportFailed(ImageSourceIsAnUnknownType)));
      }
      if utType.value != JPEGType {
        return Caught(Known(ImageExportFailed(ImageSourceExpectedJPEGImageType)));
      }
      o := ExportImageSource(source.value, fileName, utType.value, p);
    }

    /** `exportImage(atURL:onCompletion:onError:)` */
    method ExportImageAtURL(url: URL, p: Platform) returns (o: ImageExportOutcome)
      ensures o == URLImageExport(url, resizesIfNeeded, stripsGeoLocationIfNeeded, p)
    {
      var source := p.imageSourceWithURL(url);
      if source.None? {
        return Caught(Known(ImageExportFailed(ImageSourceCreationWithURLFailed)));
      }
      var utType := source.value.utType;
      if utType.None? {
        return Caught(Known(ImageExportFailed(ImageSourceIsAnUnknownType)));
      }
      o := ExportImageSource(source.value, Some(FilenameWithoutExtension(url)), utType.value, p);
    }

    /** The writer set-up inside `exportImageSource`: a default writer, then the GPS switch
        when the exporter strips location, then the maximum size when it resizes and the
        upload size is below `Int.max`. */
    method ConfigureWriter(url: URL, utType: string, mediaSettings: MediaSettings) returns (writer: ImageSourceWriter)
      ensures writer == ConfiguredWriter(url, utType, resizesIfNeeded, stripsGeoLocationIfNeeded, mediaSettings)
    {
      writer := NewImageSourceWriter(url, utType);
      if stripsGeoLocationIfNeeded {
        writer := writer.(nullifyGPSData := mediaSettings.removeLocationSetting);
      }
      if resizesIfNeeded {
        var mediaSettingsUploadSize := mediaSettings.imageSizeForUpload;
        if mediaSettingsUploadSize < IntMax {
          writer := writer.(maximumSize := Some(mediaSettingsUploadSize));
        }
      }
    }

    /** `exportImageSource(_:filename:type:onCompletion:onError:)`: allocates the file URL,
        configures the writer step by step, writes, and reports. */
    method ExportImageSource(source: ImageSource, filename: Option<string>, utType: string, p: Platform)
      returns (o: ImageExportOutcome)
      ensures o == SourceExport(source, filename, utType, resizesIfNeeded, stripsGeoLocationIfNeeded, p)
    {
      var name := if filename.Some? then filename.value else DefaultImageFilename;
      var allocation := p.makeLocalMediaURL(name, p.fileExtensionForUTType(utType));
      if allocation.Failure? {
        return Caught(allocation.error);
      }
      var url := allocation.value;
      var writer := ConfigureWriter(url, utType, p.settings);
      var result := writer.WriteImageSource(source, p);
      if result.Failure? {
        return Caught(Known(ImageExportFailed(result.error)));
      }
      var reported := result.value.reported;
      o := ImageExportOutcome(Success(MediaImageExport(url, reported.width, reported.height, reported.fileSize)),
                              Some(result.value.written));
    }
  }
}
