/** `MediaLibrary`: creates `Media` objects from the result of an export and configures them
    from the export's variant. The exporters' callbacks and the managed object context's
    queue are replaced by a synchronous call that returns which callback ran. */
module MediaLibrary {
  import opened Wrappers
  import opened Foundation
  import opened MediaExporter
  import opened MediaEntity
  import MediaImageExporter

  /** `MediaAssetExporter.AssetExport` */
  datatype AssetExport =
    | ExportedImage(image: MediaImageExport)
    | ExportedVideo(video: MediaVideoExport)
    | ExportedGIF(gif: MediaGIFExport)
  {
    /** The general `MediaExport` the variant carries. */
    function AsMediaExport(): MediaExport {
      match this
      case ExportedImage(i) => i.AsMediaExport()
      case ExportedVideo(v) => v.AsMediaExport()
      case ExportedGIF(g) => g.AsMediaExport()
    }
  }

  /** `MediaURLExporter.URLExport` */
  datatype URLExport =
    | ExportedImageURL(image: MediaImageExport)
    | ExportedVideoURL(video: MediaVideoExport)
    | ExportedGIFURL(gif: MediaGIFExport)
  {
    /** The general `MediaExport` the variant carries. */
    function AsMediaExport(): MediaExport {
      match this
      case ExportedImageURL(i) => i.AsMediaExport()
      case ExportedVideoURL(v) => v.AsMediaExport()
      case ExportedGIFURL(g) => g.AsMediaExport()
    }
  }

  /** `if let x = value { field = x }`: the field takes the value only when there is one. */
  function IfPresent<T>(value: Option<T>, current: Option<T>): Option<T> {
    if value.Some? then value else current
  }

  // The configuration steps, on the value of a Media object's fields.

  /** `configureMedia(_:withExport: MediaExport)`: the file size when known, and always the
      local URL. */
  function ApplyExport(m: MediaRecord, e: MediaExport): (r: MediaRecord)
    ensures r.absoluteLocalURL == Some(e.url)
    ensures e.fileSize.Some? ==> r.filesize == e.fileSize
    ensures e.fileSize.None? ==> r.filesize == m.filesize
    ensures r.blog == m.blog && r.mediaType == m.mediaType && r.length == m.length
    ensures r.width == m.width && r.height == m.height
  {
    m.(filesize := IfPresent(e.fileSize, m.filesize), absoluteLocalURL := Some(e.url))
  }

  /** `configureMedia(_:withExport: MediaImageExport)`, ending in the general step. */
  function ApplyImageExport(m: MediaRecord, e: MediaImageExport): (r: MediaRecord)
    ensures r.mediaType == MediaType.Image
    ensures r.width == IfPresent(e.width, m.width) && r.height == IfPresent(e.height, m.height)
    ensures r.filesize == IfPresent(e.fileSize, m.filesize) && r.absoluteLocalURL == Some(e.url)
    ensures r.blog == m.blog && r.length == m.length
  {
    ApplyExport(m.(width := IfPresent(e.width, m.width), height := IfPresent(e.height, m.height),
                   mediaType := MediaType.Image),
                e.AsMediaExport())
  }

  /** `configureMedia(_:withExport: MediaVideoExport)`, ending in the general step. */
  function ApplyVideoExport(m: MediaRecord, e: MediaVideoExport): (r: MediaRecord)
    ensures r.mediaType == MediaType.Video
    ensures r.length == IfPresent(e.duration, m.length)
    ensures r.filesize == IfPresent(e.fileSize, m.filesize) && r.absoluteLocalURL == Some(e.url)
    ensures r.blog == m.blog && r.width == m.width && r.height == m.height
  {
    ApplyExport(m.(length := IfPresent(e.duration, m.length), mediaType := MediaType.Video), e.AsMediaExport())
  }

  /** `configureMedia(_:withExport: MediaGIFExport)`, ending in the general step. */
  function ApplyGIFExport(m: MediaRecord, e: MediaGIFExport): (r: MediaRecord)
    ensures r.mediaType == MediaType.Image
    ensures r.filesize == IfPresent(e.fileSize, m.filesize) && r.absoluteLocalURL == Some(e.url)
    ensures r.blog == m.blog && r.width == m.width && r.height == m.height && r.length == m.length
  {
    ApplyExport(m.(mediaType := MediaType.Image), e.AsMediaExport())
  }

  /** `configureMedia(_:withExport: AssetExport)`: each variant goes to its own step. */
  function ApplyAssetExport(m: MediaRecord, e: AssetExport): (r: MediaRecord)
    ensures r.blog == m.blog
    ensures r.mediaType == if e.ExportedVideo? then MediaType.Video else MediaType.Image
    ensures e.ExportedImage? ==>
      r.width == IfPresent(e.image.width, m.width) && r.height == IfPresent(e.image.height, m.height)
    ensures !e.ExportedImage? ==> r.width == m.width && r.height == m.height
    ensures e.ExportedVideo? ==> r.length == IfPresent(e.video.duration, m.length)
    ensures !e.ExportedVideo? ==> r.length == m.length
    ensures r.filesize == IfPresent(e.AsMediaExport().fileSize, m.filesize)
    ensures r.absoluteLocalURL == Some(e.AsMediaExport().url)
  {
    match e
    case ExportedImage(i) => ApplyImageExport(m, i)
    case ExportedVideo(v) => ApplyVideoExport(m, v)
    case ExportedGIF(g) => ApplyGIFExport(m, g)
  }

  /** `configureMedia(_:withExport: URLExport)`: each variant goes to its own step. */
  function ApplyURLExport(m: MediaRecord, e: URLExport): (r: MediaRecord)
    ensures r.blog == m.blog
    ensures r.mediaType == if e.ExportedVideoURL? then MediaType.Video else MediaType.Image
    ensures e.ExportedImageURL? ==>
      r.width == IfPresent(e.image.width, m.width) && r.height == IfPresent(e.image.height, m.height)
    ensures !e.ExportedImageURL? ==> r.width == m.width && r.height == m.height
    ensures e.ExportedVideoURL? ==> r.length == IfPresent(e.video.duration, m.length)
    ensures !e.ExportedVideoURL? ==> r.length == m.length
    ensures r.filesize == IfPresent(e.AsMediaExport().fileSize, m.filesize)
    ensures r.absoluteLocalURL == Some(e.AsMediaExport().url)
  {
    match e
    case ExportedImageURL(i) => ApplyImageExport(m, i)
    case ExportedVideoURL(v) => ApplyVideoExport(m, v)
    case ExportedGIFURL(g) => ApplyGIFExport(m, g)
  }

  // The image, video and GIF steps as the source writes them. Each one ends with
  // `configureMedia(media, withExport: export)` where `export` has the step's own concrete
  // type, so overload resolution picks the same step again: the call re-enters itself with
  // the same arguments and never reaches the general step. `depth` is the number of
  // stack frames still available; None is the stack running out.

  function ApplyImageExportAsWritten(m: MediaRecord, e: MediaImageExport, depth: nat): (r: Option<MediaRecord>)
    ensures r == None
    decreases depth
  {
    var m' := m.(width := IfPresent(e.width, m.width), height := IfPresent(e.height, m.height),
                 mediaType := MediaType.Image);
    if depth == 0 then None else ApplyImageExportAsWritten(m', e, depth - 1)
  }

  function ApplyVideoExportAsWritten(m: MediaRecord, e: MediaVideoExport, depth: nat): (r: Option<MediaRecord>)
    ensures r == None
    decreases depth
  {
    var m' := m.(length := IfPresent(e.duration, m.length), mediaType := MediaType.Video);
    if depth == 0 then None else ApplyVideoExportAsWritten(m', e, depth - 1)
  }

  function ApplyGIFExportAsWritten(m: MediaRecord, e: MediaGIFExport, depth: nat): (r: Option<MediaRecord>)
    ensures r == None
    decreases depth
  {
    var m' := m.(mediaType := MediaType.Image);
    if depth == 0 then None else ApplyGIFExportAsWritten(m', e, depth - 1)
  }

  /** As written, the image step returns for no stack depth, so it never produces what the
      corrected step produces (the export's file size and local URL applied by the general step). */
  lemma ImageStepAsWrittenNeverReturns(m: MediaRecord, e: MediaImageExport, depth: nat)
    ensures ApplyImageExportAsWritten(m, e, depth) != Some(ApplyImageExport(m, e))
    ensures ApplyImageExport(m, e).absoluteLocalURL == Some(e.url)
  {
  }

  /** As written, the video step returns for no stack depth, so it never produces what the
      corrected step produces (the export's file size and local URL applied by the general step). */
  lemma VideoStepAsWrittenNeverReturns(m: MediaRecord, e: MediaVideoExport, depth: nat)
    ensures ApplyVideoExportAsWritten(m, e, depth) != Some(ApplyVideoExport(m, e))
    ensures ApplyVideoExport(m, e).absoluteLocalURL == Some(e.url)
  {
  }

  /** As written, the GIF step returns for no stack depth, so it never produces what the
      corrected step produces (the export's file size and local URL applied by the general step). */
  lemma GIFStepAsWrittenNeverReturns(m: MediaRecord, e: MediaGIFExport, depth: nat)
    ensures ApplyGIFExportAsWritten(m, e, depth) != Some(ApplyGIFExport(m, e))
    ensures ApplyGIFExport(m, e).absoluteLocalURL == Some(e.url)
  {
  }

  // The configuration methods, on a Media object.

  /** `configureMedia(_:withExport: MediaExport)` */
  method ConfigureMediaWithExport(media: Media, e: MediaExport)
    modifies media`filesize, media`absoluteLocalURL
    ensures media.Record() == ApplyExport(old(media.Record()), e)
  {
    if e.fileSize.Some? {
      media.filesize := e.fileSize;
    }
    media.absoluteLocalURL := Some(e.url);
  }

  /** `configureMedia(_:withExport: MediaImageExport)`, delegating to the general step. */
  method ConfigureMediaWithImageExport(media: Media, e: MediaImageExport)
    modifies media`width, media`height, media`mediaType, media`filesize, media`absoluteLocalURL
    ensures media.Record() == ApplyImageExport(old(media.Record()), e)
  {
    if e.width.Some? {
      media.width := e.width;
    }
    if e.height.Some? {
      media.height := e.height;
    }
    media.mediaType := MediaType.Image;
    ConfigureMediaWithExport(media, e.AsMediaExport());
  }

  /** `configureMedia(_:withExport: MediaVideoExport)`, delegating to the general step. */
  method ConfigureMediaWithVideoExport(media: Media, e: MediaVideoExport)
    modifies media`length, media`mediaType, media`filesize, media`absoluteLocalURL
    ensures media.Record() == ApplyVideoExport(old(media.Record()), e)
  {
    if e.duration.Some? {
      media.length := e.duration;
    }
    media.mediaType := MediaType.Video;
    ConfigureMediaWithExport(media, e.AsMediaExport());
  }

  /** `configureMedia(_:withExport: MediaGIFExport)`, delegating to the general step. */
  method ConfigureMediaWithGIFExport(media: Media, e: MediaGIFExport)
    modifies media`mediaType, media`filesize, media`absoluteLocalURL
    ensures media.Record() == ApplyGIFExport(old(media.Record()), e)
  {
    media.mediaType := MediaType.Image;
    ConfigureMediaWithExport(media, e.AsMediaExport());
  }

  /** `configureMedia(_:withExport: AssetExport)` */
  method ConfigureMediaWithAssetExport(media: Media, e: AssetExport)
    modifies media`width, media`height, media`length, media`mediaType, media`filesize, media`absoluteLocalURL
    ensures media.Record() == ApplyAssetExport(old(media.Record()), e)
  {
    match e
    case ExportedImage(imageExport) => ConfigureMediaWithImageExport(media, imageExport);
    case ExportedVideo(videoExport) => ConfigureMediaWithVideoExport(media, videoExport);
    case ExportedGIF(gifExport) => ConfigureMediaWithGIFExport(media, gifExport);
  }

  /** `configureMedia(_:withExport: URLExport)` */
  method ConfigureMediaWithURLExport(media: Media, e: URLExport)
    modifies media`width, media`height, media`length, media`mediaType, media`filesize, media`absoluteLocalURL
    ensures media.Record() == ApplyURLExport(old(media.Record()), e)
  {
    match e
    case ExportedImageURL(imageExport) => ConfigureMediaWithImageExport(media, imageExport);
    case ExportedVideoURL(videoExport) => ConfigureMediaWithVideoExport(media, videoExport);
    case ExportedGIFURL(gifExport) => ConfigureMediaWithGIFExport(media, gifExport);
  }

  // Creating media from an export.

  /** Which of the caller's callbacks ran: `onMedia` with the new object, `onError` with the
      error as an `NSError`, or none (an error and no `onError` given). */
  datatype Delivery = OnMedia(media: Media) | OnError(error: NSError) | NoCallback

  /** The error half shared by the three `makeMedia` methods. */
  function ErrorDelivery(error: MediaExportError, hasErrorHandler: bool): Delivery {
    if hasErrorHandler then OnError(error.ToNSError()) else NoCallback
  }

  /** `makeMediaWith(blog:asset:onMedia:onError:)`, given what `MediaAssetExporter` reported. */
  method MakeMediaWithAsset(blog: Blog, exported: Result<AssetExport, MediaExportError>, hasErrorHandler: bool)
    returns (delivered: Delivery)
    ensures exported.Success? ==>
      && delivered.OnMedia? && fresh(delivered.media)
      && delivered.media.Record() == ApplyAssetExport(NewRecord(blog), exported.value)
    ensures exported.Failure? ==> delivered == ErrorDelivery(exported.error, hasErrorHandler)
  {
    if exported.Success? {
      var media := new Media.MakeMedia(blog);
      ConfigureMediaWithAssetExport(media, exported.value);
      delivered := OnMedia(media);
    } else if hasErrorHandler {
      delivered := OnError(exported.error.ToNSError());
    } else {
      delivered := NoCallback;
    }
  }

  /** `makeMediaWith(blog:url:onMedia:onError:)`, given what `MediaURLExporter` reported. */
  method MakeMediaWithURL(blog: Blog, exported: Result<URLExport, MediaExportError>, hasErrorHandler: bool)
    returns (delivered: Delivery)
    ensures exported.Success? ==>
      && delivered.OnMedia? && fresh(delivered.media)
      && delivered.media.Record() == ApplyURLExport(NewRecord(blog), exported.value)
    ensures exported.Failure? ==> delivered == ErrorDelivery(exported.error, hasErrorHandler)
  {
    if exported.Success? {
      var media := new Media.MakeMedia(blog);
      ConfigureMediaWithURLExport(media, exported.value);
      delivered := OnMedia(media);
    } else if hasErrorHandler {
      delivered := OnError(exported.error.ToNSError());
    } else {
      delivered := NoCallback;
    }
  }

  /** `makeMedia(blog:image:onMedia:onError:)`: a new `MediaImageExporter` (both flags set)
      exports the image with no filename. */
  method MakeMediaWithImage(blog: Blog, image: MediaImageExporter.UIImage, p: MediaImageExporter.Platform,
                            hasErrorHandler: bool)
    returns (delivered: Delivery)
    ensures var o := MediaImageExporter.UIImageExport(image, None, true, true, p);
      match o.result
      case Success(e) =>
        && delivered.OnMedia? && fresh(delivered.media)
        && delivered.media.Record() == ApplyImageExport(NewRecord(blog), e)
      case Failure(error) => delivered == ErrorDelivery(error, hasErrorHandler)
  {
    var exporter := new MediaImageExporter.MediaImageExporter();
    var o := exporter.ExportImage(image, None, p);
    if o.result.Success? {
      var media := new Media.MakeMedia(blog);
      ConfigureMediaWithImageExport(media, o.result.value);
      delivered := OnMedia(media);
    } else if hasErrorHandler {
      delivered := OnError(o.result.error.ToNSError());
    } else {
      delivered := NoCallback;
    }
  }

  /** An image added from a `UIImage` is a JPEG file named "image" in the Media directory
      (before the directory makes the name unique), and its media item points at it. */
  lemma ImageFromUIImageIsNamedImage(blog: Blog, image: MediaImageExporter.UIImage, p: MediaImageExporter.Platform)
    requires MediaImageExporter.UIImageExport(image, None, true, true, p).result.Success?
    ensures var e := MediaImageExporter.UIImageExport(image, None, true, true, p).result.value;
      && p.makeLocalMediaURL(MediaImageExporter.DefaultImageFilename,
                             p.fileExtensionForUTType(MediaImageExporter.JPEGType)) == Success(e.url)
      && ApplyImageExport(NewRecord(blog), e).absoluteLocalURL == Some(e.url)
      && ApplyImageExport(NewRecord(blog), e).mediaType == MediaType.Image
  {
    var data := image.jpegRepresentation.value;
    var source := p.imageSourceWithData(data).value;
    MediaImageExporter.SourceExportReport(source, None, MediaImageExporter.JPEGType, true, true, p);
  }
}
