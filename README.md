# Media export decision logic (WordPress for iOS)

A Dafny model of the part of WordPress for iOS that turns a photo, an image, or a file into a
local Media file and a `Media` record. It covers three things:

- **The export error taxonomy.** `MediaExportError` is a closed family. It holds the image
  exporter's own failures (`MediaImageExporter.ExportError`) and `MediaExportSystemError.failedWith`,
  which wraps a foreign error. `exporterErrorWith` classifies any Swift `Error`: a known error passes
  through and anything else is wrapped. Descriptions and `toNSError()` are modelled too.
- **The image exporter.** `MediaImageExporter` is a class with the two mutable flags
  `resizesIfNeeded` and `stripsGeoLocationIfNeeded`. Its three entry points (a `UIImage`, JPEG data,
  a file URL) are guard chains that end in `exportImageSource`. That method allocates the file URL,
  configures an `ImageSourceWriter` step by step from the flags and a `MediaSettings` snapshot, and
  writes. `writeImageSource` builds the destination properties and the source image index in place.
  Each method is proved equal to a pure specification function: the entry points to `UIImageExport`,
  `JPEGDataExport`, `URLImageExport` and `SourceExport`, the writer set-up (`ConfigureWriter`) to
  `ConfiguredWriter`, and `writeImageSource` to `Written`. Lemmas state what those functions
  promise: the guard order, the filename rules, the writer configuration, the destination properties
  and where the reported width, height and size come from.
- **Media configuration.** `Media` is a class whose fields the `configureMedia` overloads assign.
  Each method has a field-level `modifies` frame. Each is proved to change the object's fields
  exactly as a pure step on `MediaRecord` says (`ApplyImageExport`, `ApplyVideoExport`, ...). The
  three `makeMedia…` methods route an export's outcome to `onMedia` (a fresh, configured `Media` for
  the blog) or to `onError` (the error's `NSError`), or to no callback when `onError` is nil.
  `Media+PHAsset` maps asset kinds to media types.

ImageIO, UTType, the Media directory (`MediaLibrary.makeLocalMediaURL`) and the settings store are
outside the model. Their answers are inputs, bundled in `MediaImageExporter.Platform`. Callbacks are a
returned value, so each export ends in exactly one of `onCompletion` and `onError` by construction.
The file written is reported as an `ImageWrite` value: its URL, type, source index, destination
properties, and the maximum pixel size of the thumbnail requested from the source.

The reported width, height and file size come from the source's properties at index 0, not from the
file written. `exportImage(_:fileName:)` forwards the caller's filename; the `nil` filename comes only
from `makeMedia(blog:image:)`.

Files: `Wrappers.dfy` (Option, Result), `Foundation.dfy` (NSError, file URLs, removing a path
extension), `ImageExportError.dfy`, `MediaExporter.dfy`, `MediaImageExporter.dfy`, `Media.dfy`
(module `MediaEntity`), `MediaLibrary.dfy`.

## Model

| member | source | states |
|---|---|---|
| `ImageExportError.ExportError.Description` | WordPress/Classes/Utility/Media/MediaImageExporter.swift:23-34 | every case describes itself with the same message, "The image could not be added to the Media Library." |
| `ImageExportError.ExportError.Code` | WordPress/Classes/Utility/Media/MediaImageExporter.swift:35-37 | the bridged error code is one of the seven case numbers |
| `ImageExportError.ExportError.ToNSError` | WordPress/Classes/Utility/Media/MediaImageExporter.swift:35-37 | the NSError has the enum's domain, its localized description is the case's description, and the case can be recovered from it |
| `ImageExportError.FromNSError` | WordPress/Classes/Utility/Media/MediaImageExporter.swift:35-37 | the source never turns an NSError back into a case; this is the inverse of the bridging, used to state that `toNSError()` keeps the case. An NSError maps back to a case only if it has the enum's domain and that case's code |
| `ImageExportError.NSErrorKeepsCase` | WordPress/Classes/Utility/Media/MediaImageExporter.swift:35-37 | `toNSError().localizedDescription == description`; two cases give the same NSError iff they are the same case |
| `MediaExporter.MediaExportError.Description` | WordPress/Classes/Utility/Media/MediaExporter.swift:16-21 | a wrapped system error is described by the wrapped error's own text; an image exporter error by its shared message |
| `MediaExporter.MediaExportError.ToNSError` | WordPress/Classes/Utility/Media/MediaExporter.swift:22-27 | a wrapped system error gives back the NSError it is; an image exporter error gives an NSError that identifies its case |
| `MediaExporter.ExporterErrorWith` | WordPress/Classes/Utility/Media/MediaExporter.swift:47-54 | a known error is returned unchanged; any other error is wrapped as `failedWith`, whose NSError is the original one |
| `MediaExporter.ClassifyKnownIsIdentity` | WordPress/Classes/Utility/Media/MediaExporter.swift:48-50 | classifying a known export error returns it with the same case |
| `MediaExporter.ClassifyIdempotent` | WordPress/Classes/Utility/Media/MediaExporter.swift:47-54 | classifying the classification's own output changes nothing |
| `MediaExporter.WrappedErrorRoundTrip` | WordPress/Classes/Utility/Media/MediaExporter.swift:14-27 | a wrapped foreign error keeps its description text, its NSError and its localized description |
| `Foundation.DeletingPathExtension` | WordPress/Classes/Utility/Media/MediaImageExporter.swift:101 | the stem is a prefix of the name; when shorter, it is nonempty and followed by the last '.' of the name |
| `Foundation.LastIndexOf` | WordPress/Classes/Utility/Media/MediaImageExporter.swift:101 | the index found holds the character and no later position does; None means the character does not occur |
| `Foundation.DeletingAppendedExtension` | WordPress/Classes/Utility/Media/MediaImageExporter.swift:101 | removing the extension of `stem.ext` gives back `stem` (nonempty stem, extension without '.') |
| `MediaImageExporter.IntegerProperty` | WordPress/Classes/Utility/Media/MediaImageExporter.swift:202-208 | a property is present exactly when the dictionary was read and holds an integer under the key, and then it is that integer |
| `MediaImageExporter.DestinationProperties` | WordPress/Classes/Utility/Media/MediaImageExporter.swift:178-184 | the compression quality is always set; the GPS dictionary key is present, as null, iff `nullifyGPSData`; no other key |
| `MediaImageExporter.SourceImageIndex` | WordPress/Classes/Utility/Media/MediaImageExporter.swift:186-192 | the source index is 1 iff a maximum size is set, otherwise 0 |
| `MediaImageExporter.ConfiguredWriter` | WordPress/Classes/Utility/Media/MediaImageExporter.swift:120-131 | quality 1.0; `nullifyGPSData` iff the exporter strips location and the setting removes it; a maximum size, equal to the upload size, iff resizing is on and the size is below `Int.max` |
| `MediaImageExporter.NewImageSourceWriter` | WordPress/Classes/Utility/Media/MediaImageExporter.swift:152-161 | a new writer has the given URL and type, full quality 1.0, GPS data kept, and no maximum size |
| `MediaImageExporter.Written` | WordPress/Classes/Utility/Media/MediaImageExporter.swift:171-209 | the write succeeds iff the destination is created and finalized; otherwise the matching error (URL failure iff no destination). On success the file is at the writer's URL with its type, from source index 1 iff a maximum size is set, with a thumbnail requested at exactly that size, the GPS key iff `nullifyGPSData`, the writer's quality, and width, height and size read from the source's index-0 properties |
| `MediaImageExporter.ImageSourceWriter.WriteImageSource` | WordPress/Classes/Utility/Media/MediaImageExporter.swift:171-209 | building the properties and the index in place yields exactly the write `Written` specifies |
| `MediaImageExporter.SourceExport` | WordPress/Classes/Utility/Media/MediaImageExporter.swift:113-140 | the export completes iff a file is written |
| `MediaImageExporter.JPEGDataExport` | WordPress/Classes/Utility/Media/MediaImageExporter.swift:66-82 | the export completes iff a file is written |
| `MediaImageExporter.URLImageExport` | WordPress/Classes/Utility/Media/MediaImageExporter.swift:92-105 | the export completes iff a file is written |
| `MediaImageExporter.UIImageExport` | WordPress/Classes/Utility/Media/MediaImageExporter.swift:49-58 | the export completes iff a file is written |
| `MediaImageExporter.MissingFilenameIsImage` | WordPress/Classes/Utility/Media/MediaImageExporter.swift:115 | exporting with no filename is exporting with the filename "image" |
| `MediaImageExporter.SourceExportSucceedsIff` | WordPress/Classes/Utility/Media/MediaImageExporter.swift:113-140 | `onCompletion` is reached iff the URL is allocated, the destination is created and finalizing succeeds |
| `MediaImageExporter.SourceExportFailures` | WordPress/Classes/Utility/Media/MediaImageExporter.swift:113-209 | an allocation error reaches `onError` through `exporterErrorWith`; no destination gives `imageSourceDestinationWithURLFailed`; a failed finalize gives `imageSourceDestinationWriteFailed`; no file in each case |
| `MediaImageExporter.SourceExportReport` | WordPress/Classes/Utility/Media/MediaImageExporter.swift:113-209 | on success the URL is the allocated one; width, height and size are the source's index-0 properties; the file has the source type, quality 1.0, the GPS key iff both strip switches are on, source index 1 iff resizing applies, and a thumbnail requested at the upload size exactly when resizing applies |
| `MediaImageExporter.JPEGDataGuards` | WordPress/Classes/Utility/Media/MediaImageExporter.swift:66-82 | guards in order: no source, then no type, then a non-JPEG type, each with its error; a JPEG source goes to `exportImageSource` |
| `MediaImageExporter.OnlyJPEGWrittenFromData` | WordPress/Classes/Utility/Media/MediaImageExporter.swift:69-78 | a file written from JPEG data always comes from a JPEG-typed source |
| `MediaImageExporter.URLExportAnyType` | WordPress/Classes/Utility/Media/MediaImageExporter.swift:92-105 | the URL path fails only for no source or no type; a source of any type is exported under the URL's name without its extension |
| `MediaImageExporter.URLExportNamesFileByStem` | WordPress/Classes/Utility/Media/MediaImageExporter.swift:101 | exporting `…/stem.ext` is exporting the source with the filename `stem` |
| `MediaImageExporter.UIImageExportForwards` | WordPress/Classes/Utility/Media/MediaImageExporter.swift:49-58 | no JPEG representation gives `imageJPEGDataRepresentationFailed`; otherwise the JPEG-data export runs with the same filename |
| `MediaImageExporter.MediaImageExporter.constructor` | WordPress/Classes/Utility/Media/MediaImageExporter.swift:12-13 | a new exporter resizes and strips location |
| `MediaImageExporter.MediaImageExporter.ExportImage` | WordPress/Classes/Utility/Media/MediaImageExporter.swift:49-58 | the method's outcome is `UIImageExport` for the exporter's current flags |
| `MediaImageExporter.MediaImageExporter.ExportImageWithJPEGData` | WordPress/Classes/Utility/Media/MediaImageExporter.swift:66-82 | the method's outcome is `JPEGDataExport` for the exporter's current flags |
| `MediaImageExporter.MediaImageExporter.ExportImageAtURL` | WordPress/Classes/Utility/Media/MediaImageExporter.swift:92-105 | the method's outcome is `URLImageExport` for the exporter's current flags |
| `MediaImageExporter.MediaImageExporter.ConfigureWriter` | WordPress/Classes/Utility/Media/MediaImageExporter.swift:120-131 | the writer configured step by step from the exporter's current flags and the settings is `ConfiguredWriter` of them |
| `MediaImageExporter.MediaImageExporter.ExportImageSource` | WordPress/Classes/Utility/Media/MediaImageExporter.swift:113-140 | allocating the URL, configuring the writer with `ConfigureWriter`, writing and reporting yields `SourceExport` for the exporter's current flags |
| `MediaEntity.MediaTypeFor` | WordPress/Classes/Extensions/Media+PHAsset.swift:17-26 | image ↦ image and video ↦ video, each iff; every other kind (audio, unknown) ↦ document |
| `MediaEntity.Media.MakeMedia` | WordPress/Classes/Extensions/Media+PHAsset.swift:8 | a new media item belongs to the blog and has no dimensions, length, size or local URL |
| `MediaEntity.Media.SetMediaTypeWith` | WordPress/Classes/Extensions/Media+PHAsset.swift:17-26 | only `mediaType` changes, to the mapped type |
| `MediaEntity.Media.MakeMediaWithAsset` | WordPress/Classes/Extensions/Media+PHAsset.swift:7-13 | a fresh media item for the blog, typed by the mapping, with the asset's pixel width and height |
| `MediaLibrary.ApplyExport` | WordPress/Classes/Services/MediaLibrary.swift:161-166 | the file size is copied only when present; the local URL is always the export's URL; nothing else changes |
| `MediaLibrary.ApplyImageExport` | WordPress/Classes/Services/MediaLibrary.swift:131-140 | type image; width and height copied only when present; then the general step; blog and length kept |
| `MediaLibrary.ApplyVideoExport` | WordPress/Classes/Services/MediaLibrary.swift:144-150 | type video; duration copied into length only when present; then the general step; dimensions kept |
| `MediaLibrary.ApplyGIFExport` | WordPress/Classes/Services/MediaLibrary.swift:154-157 | type image; no dimension or length touched; then the general step |
| `MediaLibrary.ApplyAssetExport` | WordPress/Classes/Services/MediaLibrary.swift:105-114 | each variant is configured by its own step: type video only for a video export, image otherwise; width and height copied (when present) only from an image export; duration copied into length (when present) only from a video export; the variant's file size when present; always the variant's local URL; blog kept |
| `MediaLibrary.ApplyURLExport` | WordPress/Classes/Services/MediaLibrary.swift:118-127 | the same dispatch for URL exports: type, dimensions from an image export, length from a video export, the variant's file size when present and always its local URL; blog kept |
| `MediaLibrary.ApplyImageExportAsWritten` | WordPress/Classes/Services/MediaLibrary.swift:131-140 | the image step as written, which re-enters itself with the same export, bounded by a stack depth: it returns nothing at every depth |
| `MediaLibrary.ImageStepAsWrittenNeverReturns` | WordPress/Classes/Services/MediaLibrary.swift:131-140 | as written, no stack depth yields the corrected step's result, which always sets the export's local URL |
| `MediaLibrary.ApplyVideoExportAsWritten` | WordPress/Classes/Services/MediaLibrary.swift:144-150 | the video step as written, which re-enters itself with the same export, bounded by a stack depth: it returns nothing at every depth |
| `MediaLibrary.VideoStepAsWrittenNeverReturns` | WordPress/Classes/Services/MediaLibrary.swift:144-150 | as written, no stack depth yields the corrected step's result, which always sets the export's local URL |
| `MediaLibrary.ApplyGIFExportAsWritten` | WordPress/Classes/Services/MediaLibrary.swift:154-157 | the GIF step as written, which re-enters itself with the same export, bounded by a stack depth: it returns nothing at every depth |
| `MediaLibrary.GIFStepAsWrittenNeverReturns` | WordPress/Classes/Services/MediaLibrary.swift:154-157 | as written, no stack depth yields the corrected step's result, which always sets the export's local URL |
| `MediaLibrary.ConfigureMediaWithExport` | WordPress/Classes/Services/MediaLibrary.swift:161-166 | may change only `filesize` and `absoluteLocalURL`; the object's fields become `ApplyExport` of the old ones |
| `MediaLibrary.ConfigureMediaWithImageExport` | WordPress/Classes/Services/MediaLibrary.swift:131-140 | may change only width, height, type, size and URL; the fields become `ApplyImageExport` of the old ones |
| `MediaLibrary.ConfigureMediaWithVideoExport` | WordPress/Classes/Services/MediaLibrary.swift:144-150 | may change only length, type, size and URL; the fields become `ApplyVideoExport` of the old ones |
| `MediaLibrary.ConfigureMediaWithGIFExport` | WordPress/Classes/Services/MediaLibrary.swift:154-157 | may change only type, size and URL; the fields become `ApplyGIFExport` of the old ones |
| `MediaLibrary.ConfigureMediaWithAssetExport` | WordPress/Classes/Services/MediaLibrary.swift:105-114 | the fields become `ApplyAssetExport` of the old ones |
| `MediaLibrary.ConfigureMediaWithURLExport` | WordPress/Classes/Services/MediaLibrary.swift:118-127 | the fields become `ApplyURLExport` of the old ones |
| `MediaLibrary.MakeMediaWithAsset` | WordPress/Classes/Services/MediaLibrary.swift:17-38 | on success `onMedia` gets a fresh media item for the blog, configured from the export; on error `onError` gets the error's NSError, or nothing runs when `onError` is nil |
| `MediaLibrary.MakeMediaWithImage` | WordPress/Classes/Services/MediaLibrary.swift:47-68 | a new exporter exports the image with no filename; success and error are routed as above |
| `MediaLibrary.MakeMediaWithURL` | WordPress/Classes/Services/MediaLibrary.swift:77-98 | success and error of the URL export are routed as above |
| `MediaLibrary.ImageFromUIImageIsNamedImage` | WordPress/Classes/Services/MediaLibrary.swift:47-56 | an image added from a `UIImage` is allocated under the name "image" with the JPEG type's extension, and its media item points at that file |

## Findings

| source | as written | input that shows it | evidently intended | confidence | as-written member | corrected member |
|---|---|---|---|---|---|---|
| WordPress/Classes/Services/MediaLibrary.swift:139 | the image step ends with `configureMedia(media, withExport: export)` where `export: MediaImageExport`, so overload resolution picks the image step again | any image export, e.g. `AssetExport.exportedImage` from a photo | delegate to the general `MediaExport` step at line 161 (file size, local URL) | high; not executed | `MediaLibrary.ImageStepAsWrittenNeverReturns` | `MediaLibrary.ApplyImageExport` |
| WordPress/Classes/Services/MediaLibrary.swift:149 | the video step ends with the same call on a `MediaVideoExport`, which re-enters the video step | any video export | delegate to the general step at line 161 | high; not executed | `MediaLibrary.VideoStepAsWrittenNeverReturns` | `MediaLibrary.ApplyVideoExport` |
| WordPress/Classes/Services/MediaLibrary.swift:156 | the GIF step ends with the same call on a `MediaGIFExport`, which re-enters the GIF step | any GIF export | delegate to the general step at line 161 | high; not executed | `MediaLibrary.GIFStepAsWrittenNeverReturns` | `MediaLibrary.ApplyGIFExport` |

As written, each step never returns: the call stack runs out, and the general step never runs. The
as-written functions bound the recursion by a stack depth, and their contracts state that they return
nothing at every depth. Their lemmas show that no depth yields the corrected result. The configuration methods and the `makeMedia…` methods use the corrected steps.

## Left out

- ImageIO and CoreGraphics (`CGImageSourceCreate…`, `CGImageDestination…`, `UIImageJPEGRepresentation`): their answers are inputs (`Platform`, `UIImage.jpegRepresentation`). Pixel resizing and the GPS content of real files are not modelled.
- The thumbnail request at MediaImageExporter.swift:189-190: its result is discarded. The model records only that it was made and its maximum pixel size, and the source index used with it.
- `fileExtensionForUTType`: an input function. The single known value, JPEG ↦ "jpeg", is not imposed.
- `UTTypeEqual` is modelled as equality of type identifiers.
- `MediaLibrary.makeLocalMediaURL`: an input that returns a URL or throws. Collision-free naming is not part of this model.
- The `MediaSettings` store: a snapshot value (`removeLocationSetting`, `imageSizeForUpload`).
- `MediaAssetExporter` and `MediaURLExporter` are not part of this model. Their reported outcome is an input to `MakeMediaWithAsset` and `MakeMediaWithURL`. Their own error types are not in the modelled error family.
- `Media.makeMedia(blog:)` is not part of this model. `MediaEntity.Media.MakeMedia` gives a new record no dimensions, length, size or local URL, and the type document. Every configuration path overwrites that type.
- `DispatchQueue`, `managedObjectContext.perform` and `DDLogSwift`: threading, Core Data and logging. Callbacks run synchronously, and their result is returned.
- `NSLocalizedString`: the message is the development-language text.
- The text of `String(describing:)` for a foreign error cannot be computed. A foreign error carries it as data (`ForeignError.describing`).
- The NSError bridged from `ExportError` is taken to carry the type's qualified name as domain and the case's ordinal as code. That is Swift's runtime convention for enums without payloads.
- `MediaExporter.MediaExportError`: `failedWith` holds only a foreign error. Wrapping a known export error by hand is not representable, and nothing in the modelled code does it.
- `MediaImageExporter.IntegerProperty`: widths, heights and sizes are integers. A non-integral number under those keys reads as absent, where `as? CGFloat` would accept it. Durations are carried as `real` and never computed with.
- `Foundation.DeletingPathExtension`: Foundation's rule is taken as "strip from the last '.', unless it is the first character". A name ending in '.' loses only that dot (`foo.` gives `foo`; `Foundation.DeletingAppendedExtension` with an empty extension states it), and Foundation implementations differ on that input. Other Foundation edge cases (trailing slashes, empty paths) are not modelled.
- `Media+UIImage.swift`, `Media+URL.swift` and `LoginButton.swift` are not part of this model. The first two are one-line Core Data factories, and the third is UI styling.
