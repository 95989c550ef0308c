/** The `Media` record the library configures, and its `PHAsset` factory
    (`Media+PHAsset`). */
module MediaEntity {
  import opened Wrappers
  import opened Foundation

  /** The blog a media item belongs to. */
  datatype Blog = Blog(blogID: int)

  /** `MediaType` */
  datatype MediaType = Image | Video | Document | Powerpoint | Audio

  /** `PHAssetMediaType` */
  datatype PHAssetMediaType = Unknown | Image | Video | Audio

  /** The parts of a `PHAsset` the factory reads. */
  datatype PHAsset = PHAsset(mediaType: PHAssetMediaType, pixelWidth: int, pixelHeight: int)

  /** The value of every field of a `Media` object that the export path touches or keeps. */
  datatype MediaRecord = MediaRecord(
    blog: Blog,
    mediaType: MediaType,
    width: Option<int>,
    height: Option<int>,
    length: Option<real>,
    filesize: Option<int>,
    absoluteLocalURL: Option<URL>)

  /** A new `Media` for `blog`: no dimensions, length, size or local file yet. Its type is
      set to `document` here; every path that configures a new object overwrites it. */
  function NewRecord(blog: Blog): MediaRecord {
    MediaRecord(blog, MediaType.Document, None, None, None, None, None)
  }

  /** The media type an asset kind maps to: images and videos keep their kind, anything else
      is a document. */
  function MediaTypeFor(assetType: PHAssetMediaType): (t: MediaType)
    ensures t == MediaType.Image <==> assetType == PHAssetMediaType.Image
    ensures t == MediaType.Video <==> assetType == PHAssetMediaType.Video
    ensures t == MediaType.Document <==> assetType != PHAssetMediaType.Image && assetType != PHAssetMediaType.Video
  {
    match assetType
    case Image => MediaType.Image
    case Video => MediaType.Video
    case _ => MediaType.Document
  }

  class Media {
    var blog: Blog
    var mediaType: MediaType
    var width: Option<int>
    var height: Option<int>
    var length: Option<real>
    var filesize: Option<int>
    var absoluteLocalURL: Option<URL>

    function Record(): MediaRecord
      reads this
    {
      MediaRecord(blog, mediaType, width, height, length, filesize, absoluteLocalURL)
    }

    /** `Media.makeMedia(blog:)` */
    constructor MakeMedia(blog: Blog)
      ensures Record() == NewRecord(blog)
    {
      this.blog := blog;
      mediaType := MediaType.Document;
      width, height, length, filesize, absoluteLocalURL := None, None, None, None, None;
    }

    /** `setMediaTypeWith(_:)` */
    method SetMediaTypeWith(assetType: PHAssetMediaType)
      modifies this`mediaType
      ensures Record() == old(Record()).(mediaType := MediaTypeFor(assetType))
    {
      match assetType
      case Image => mediaType := MediaType.Image;
      case Video => mediaType := MediaType.Video;
      case _ => mediaType := MediaType.Document;
    }

    /** `Media.makeMedia(withAsset:blog:)`: a new media item for `blog`, typed from the asset's
        kind, with the asset's pixel size. */
    static method MakeMediaWithAsset(asset: PHAsset, blog: Blog) returns (media: Media)
      ensures fresh(media)
      ensures media.Record() == NewRecord(blog).(mediaType := MediaTypeFor(asset.mediaType),
                                                  width := Some(asset.pixelWidth),
                                                  height := Some(asset.pixelHeight))
    {
      media := new Media.MakeMedia(blog);
      media.SetMediaTypeWith(asset.mediaType);
      media.width := Some(asset.pixelWidth);
      media.height := Some(asset.pixelHeight);
    }
  }
}
