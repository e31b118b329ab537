/** The `/resize` and `/crop` handlers of the transformation router: the
    query-parameter guards, the choice of resize mode, the shape of the JSON
    reply and the mapping of exceptions to HTTP statuses.

    Everything a handler does besides deciding is abstract: the upload's
    bytes, the decoder, the resize and crop operations, the image writer,
    the generated file id and the current time are parameters. A handler
    returns the effects it performed (reading the upload, writing an output
    file) together with its reply, so that the order of checks and effects
    can be stated. */
module Transformations {
  import opened Wrappers
  import opened ImageProcessor

  // ---------------------------------------------------------------------
  // Query parameters
  // ---------------------------------------------------------------------

  /** An optional integer query parameter (`Query(None)`). */
  type IntParam = Option<int>

  /** Python truthiness of an optional integer: `None` and `0` are false. */
  predicate Truthy(p: IntParam)
    ensures p == None || p == Some(0) ==> !Truthy(p)
    ensures Truthy(p) ==> p.Some?
  {
    p.Some? && p.value != 0
  }

  const NotBothMessage: string := "Provide either percentage OR (width, height), not both"
  const NeitherMessage: string := "Provide either percentage OR both width and height"

  /** The two guards of `/resize`, run before the upload is read: a truthy
      percentage with a truthy width or height is refused, and so is a falsy
      percentage without both a truthy width and a truthy height. The sign of
      a value plays no part. */
  function ResizeGuard(width: IntParam, height: IntParam, percentage: IntParam): (e: Option<Exception>)
    ensures e == None <==>
      (Truthy(percentage) && !Truthy(width) && !Truthy(height)) ||
      (!Truthy(percentage) && Truthy(width) && Truthy(height))
    ensures Truthy(percentage) && (Truthy(width) || Truthy(height)) ==>
      e == Some(ValueError(NotBothMessage))
    ensures !Truthy(percentage) && !(Truthy(width) && Truthy(height)) ==>
      e == Some(ValueError(NeitherMessage))
  {
    if Truthy(percentage) && (Truthy(width) || Truthy(height)) then
      Some(ValueError(NotBothMessage))
    else if !Truthy(percentage) && (!Truthy(width) || !Truthy(height)) then
      Some(ValueError(NeitherMessage))
    else
      None
  }

  /** Whether the guard lets a request through depends only on which
      parameters are truthy. */
  lemma GuardDependsOnlyOnTruthiness(w1: IntParam, h1: IntParam, p1: IntParam,
                                     w2: IntParam, h2: IntParam, p2: IntParam)
    requires Truthy(w1) == Truthy(w2) && Truthy(h1) == Truthy(h2) && Truthy(p1) == Truthy(p2)
    ensures ResizeGuard(w1, h1, p1) == ResizeGuard(w2, h2, p2)
  {
  }

  /** Negative values are not rejected: negative dimensions without a
      percentage, and a negative percentage alone, both pass the guard. */
  lemma NegativeParametersAccepted()
    ensures exists w: int, h: int :: w < 0 && h < 0 && ResizeGuard(Some(w), Some(h), None) == None
    ensures exists p: int :: p < 0 && ResizeGuard(None, None, Some(p)) == None
  {
    assert ResizeGuard(Some(-1), Some(-1), None) == None;
    assert ResizeGuard(None, None, Some(-1)) == None;
  }

  /** Zero counts as absent: an explicit zero width with a percentage is
      accepted, and explicit zero dimensions alone are refused. */
  lemma ZeroIsAbsent()
    ensures ResizeGuard(Some(0), Some(0), Some(50)) == None
    ensures ResizeGuard(Some(0), Some(100), None) == Some(ValueError(NeitherMessage))
  {
  }

  datatype ResizeMode = ByPercentage(percentage: int) | ToSize(width: int, height: int)

  /** The mode branch of `/resize`, reached only once the guard has passed:
      percentage mode exactly when the percentage is truthy, otherwise the
      requested width and height, both of which are then truthy. */
  function ResizeModeOf(width: IntParam, height: IntParam, percentage: IntParam): (m: ResizeMode)
    requires ResizeGuard(width, height, percentage) == None
    ensures m.ByPercentage? <==> Truthy(percentage)
    ensures m.ByPercentage? ==> m.percentage == percentage.value && m.percentage != 0
    ensures m.ToSize? ==> Truthy(width) && Truthy(height)
    ensures m.ToSize? ==> m == ToSize(width.value, height.value)
  {
    if Truthy(percentage) then ByPercentage(percentage.value)
    else ToSize(width.value, height.value)
  }

  // ---------------------------------------------------------------------
  // Errors
  // ---------------------------------------------------------------------

  datatype HttpError = HttpError(status: int, detail: string)

  const ResizeFailedDetail: string := "Image resize failed"
  const CropFailedDetail: string := "Image crop failed"

  /** The handlers' two `except` clauses: a ValueError is a 400 carrying its
      message; anything else is a 500 carrying only the handler's fixed
      detail. */
  function ToHttpError(e: Exception, failedDetail: string): (h: HttpError)
    ensures h.status == 400 <==> e.ValueError?
    ensures h.status == 400 || h.status == 500
    ensures h.status == 400 ==> h.detail == e.message
    ensures h.status == 500 ==> h.detail == failedDetail
  {
    match e
    case ValueError(message) => HttpError(400, message)
    case OtherError(_) => HttpError(500, failedDetail)
  }

  /** A 500 reveals nothing about the exception behind it. */
  lemma ServerErrorHidesDetail(e1: Exception, e2: Exception, failedDetail: string)
    requires e1.OtherError? && e2.OtherError?
    ensures ToHttpError(e1, failedDetail) == ToHttpError(e2, failedDetail)
  {
  }

  // ---------------------------------------------------------------------
  // Handlers
  // ---------------------------------------------------------------------

  /** An uploaded file: its client-side name and its bytes. */
  datatype Upload = Upload(filename: string, content: seq<bv8>)

  /** An image size as the replies report it (`shape[1]`, `shape[0]`). */
  datatype Size = Size(width: int, height: int)

  function SizeOf(image: Image): Size
  {
    Size(image.width, image.height)
  }

  datatype Region = Region(x: int, y: int, width: int, height: int)

  datatype Effect = ReadUpload | WriteFile(path: string)

  /** What a handler did and what it answered. */
  datatype Reply<T> = Reply(effects: seq<Effect>, result: Result<T, HttpError>)

  datatype ResizeResponse = ResizeResponse(
    filename: string, timestamp: string, originalSize: Size, newSize: Size,
    transformation: string, downloadUrl: string)

  datatype CropResponse = CropResponse(
    filename: string, timestamp: string, originalSize: Size, cropRegion: Region,
    croppedSize: Size, transformation: string, downloadUrl: string)

  /** Abstract image operations; each may raise. */
  type Resizer = (Image, int, int) -> Result<Image, Exception>
  type PercentageResizer = (Image, int) -> Result<Image, Exception>
  type Cropper = (Image, int, int, int, int) -> Result<Image, Exception>
  /** Writes an image to a path; `Some(e)` when the write raised. */
  type Writer = (string, Image) -> Option<Exception>

  /** The upload directory configured by the application. */
  const UploadDir: string := "uploads"

  /** The stored file name for an operation: `{file_id}_{operation}.jpg`. */
  function OutputName(fileId: string, operation: string): string
  {
    fileId + "_" + operation + ".jpg"
  }

  predicate StartsWith(s: string, prefix: string)
  {
    |prefix| <= |s| && s[..|prefix|] == prefix
  }

  predicate EndsWith(s: string, suffix: string)
  {
    |suffix| <= |s| && s[|s| - |suffix|..] == suffix
  }

  /** Where the output file is written: the stored name inside the upload
      directory. */
  function OutputPath(fileId: string, operation: string): (path: string)
    ensures StartsWith(path, UploadDir + "/")
    ensures EndsWith(path, OutputName(fileId, operation))
  {
    var dir, name := UploadDir + "/", OutputName(fileId, operation);
    assert (dir + name)[..|dir|] == dir;
    assert (dir + name)[|dir + name| - |name|..] == name;
    dir + name
  }

  /** The download URL reported for the output file: it names the same
      stored file the handler wrote. */
  function DownloadUrl(fileId: string, operation: string): (url: string)
    ensures StartsWith(url, "/download/")
    ensures EndsWith(url, OutputName(fileId, operation))
  {
    var route, name := "/download/", OutputName(fileId, operation);
    assert (route + name)[..|route|] == route;
    assert (route + name)[|route + name| - |name|..] == name;
    route + name
  }

  /** The `/resize` handler. */
  function Resize(upload: Upload, width: IntParam, height: IntParam, percentage: IntParam,
                  decode: Decoder, resizeTo: Resizer, resizeByPercentage: PercentageResizer,
                  write: Writer, fileId: string, now: string): (reply: Reply<ResizeResponse>)
    // a refused request fails with 400 before the upload is read
    ensures ResizeGuard(width, height, percentage).Some? ==>
      reply == Reply([], Failure(HttpError(400, ResizeGuard(width, height, percentage).value.message)))
    // an upload that yields no image fails after the read and before any write
    ensures ResizeGuard(width, height, percentage).None? && !decode(upload.content).Decoded? ==>
      reply == Reply([ReadUpload], Failure(ToHttpError(ReadImage(decode, upload.content).error,
                                                       ResizeFailedDetail)))
    ensures ResizeGuard(width, height, percentage).None? && decode(upload.content).NotAnImage? ==>
      reply.result == Failure(HttpError(400, InvalidImageFormat))
    // otherwise the reply follows the one resize operation the mode selects,
    // then the write
    ensures ResizeGuard(width, height, percentage).None? && decode(upload.content).Decoded? ==>
      var image := decode(upload.content).image;
      var resized := if Truthy(percentage) then resizeByPercentage(image, percentage.value)
                     else resizeTo(image, width.value, height.value);
      (resized.Failure? ==>
         reply == Reply([ReadUpload], Failure(ToHttpError(resized.error, ResizeFailedDetail)))) &&
      (resized.Success? ==>
         var path := OutputPath(fileId, "resized");
         var written := write(path, resized.value);
         reply.effects == [ReadUpload, WriteFile(path)] &&
         (written.Some? ==> reply.result == Failure(ToHttpError(written.value, ResizeFailedDetail))) &&
         (written.None? ==>
            reply.result == Success(ResizeResponse(
              upload.filename, now, SizeOf(image),
              // the requested size, or the resized image's in percentage mode
              if Truthy(percentage) then SizeOf(resized.value) else Size(width.value, height.value),
              "resize", DownloadUrl(fileId, "resized")))))
    // every failure is a 400 or a 500 with the fixed detail
    ensures reply.result.Failure? ==>
      reply.result.error.status == 400 ||
      reply.result.error == HttpError(500, ResizeFailedDetail)
  {
    match ResizeGuard(width, height, percentage)
    case Some(e) => Reply([], Failure(ToHttpError(e, ResizeFailedDetail)))
    case None =>
      match ReadImage(decode, upload.content)
      case Failure(e) => Reply([ReadUpload], Failure(ToHttpError(e, ResizeFailedDetail)))
      case Success(image) =>
        var mode := ResizeModeOf(width, height, percentage);
        var resized := match mode
          case ByPercentage(p) => resizeByPercentage(image, p)
          case ToSize(w, h) => resizeTo(image, w, h);
        match resized
        case Failure(e) => Reply([ReadUpload], Failure(ToHttpError(e, ResizeFailedDetail)))
        case Success(output) =>
          var newSize := match mode
            case ByPercentage(_) => SizeOf(output)
            case ToSize(w, h) => Size(w, h);
          var path := OutputPath(fileId, "resized");
          match write(path, output)
          case Some(e) => Reply([ReadUpload, WriteFile(path)], Failure(ToHttpError(e, ResizeFailedDetail)))
          case None =>
            Reply([ReadUpload, WriteFile(path)],
                  Success(ResizeResponse(upload.filename, now, SizeOf(image), newSize,
                                         "resize", DownloadUrl(fileId, "resized"))))
  }

  /** The `/crop` handler. It has no guard of its own: the crop operation
      decides which regions it accepts. */
  function Crop(upload: Upload, x: int, y: int, width: int, height: int,
                decode: Decoder, crop: Cropper, write: Writer,
                fileId: string, now: string): (reply: Reply<CropResponse>)
    // the upload is read first; one that yields no image fails before any write
    ensures !decode(upload.content).Decoded? ==>
      reply == Reply([ReadUpload], Failure(ToHttpError(ReadImage(decode, upload.content).error,
                                                       CropFailedDetail)))
    ensures decode(upload.content).NotAnImage? ==>
      reply.result == Failure(HttpError(400, InvalidImageFormat))
    // otherwise the reply follows the crop operation, then the write
    ensures decode(upload.content).Decoded? ==>
      var image := decode(upload.content).image;
      var cropped := crop(image, x, y, width, height);
      (cropped.Failure? ==>
         reply == Reply([ReadUpload], Failure(ToHttpError(cropped.error, CropFailedDetail)))) &&
      (cropped.Success? ==>
         var path := OutputPath(fileId, "cropped");
         var written := write(path, cropped.value);
         reply.effects == [ReadUpload, WriteFile(path)] &&
         (written.Some? ==> reply.result == Failure(ToHttpError(written.value, CropFailedDetail))) &&
         (written.None? ==>
            reply.result == Success(CropResponse(
              upload.filename, now, SizeOf(image),
              Region(x, y, width, height),   // the request's region, echoed
              SizeOf(cropped.value), "crop", DownloadUrl(fileId, "cropped")))))
    // every failure is a 400 or a 500 with the fixed detail
    ensures reply.result.Failure? ==>
      reply.result.error.status == 400 ||
      reply.result.error == HttpError(500, CropFailedDetail)
  {
    match ReadImage(decode, upload.content)
    case Failure(e) => Reply([ReadUpload], Failure(ToHttpError(e, CropFailedDetail)))
    case Success(image) =>
      match crop(image, x, y, width, height)
      case Failure(e) => Reply([ReadUpload], Failure(ToHttpError(e, CropFailedDetail)))
      case Success(cropped) =>
        var path := OutputPath(fileId, "cropped");
        match write(path, cropped)
        case Some(e) => Reply([ReadUpload, WriteFile(path)], Failure(ToHttpError(e, CropFailedDetail)))
        case None =>
          Reply([ReadUpload, WriteFile(path)],
                Success(CropResponse(upload.filename, now, SizeOf(image),
                                     Region(x, y, width, height), SizeOf(cropped),
                                     "crop", DownloadUrl(fileId, "cropped"))))
  }

  // ---------------------------------------------------------------------
  // Properties of the handlers
  // ---------------------------------------------------------------------

  /** A request the guard refuses gets the same reply whatever was uploaded
      and whatever the image operations would do: the upload is never read. */
  lemma RefusedResizeIgnoresUpload(
    u1: Upload, u2: Upload, width: IntParam, height: IntParam, percentage: IntParam,
    d1: Decoder, d2: Decoder, r1: Resizer, r2: Resizer,
    p1: PercentageResizer, p2: PercentageResizer, w1: Writer, w2: Writer,
    fileId: string, now: string)
    requires ResizeGuard(width, height, percentage).Some?
    ensures Resize(u1, width, height, percentage, d1, r1, p1, w1, fileId, now)
         == Resize(u2, width, height, percentage, d2, r2, p2, w2, fileId, now)
    ensures ReadUpload !in Resize(u1, width, height, percentage, d1, r1, p1, w1, fileId, now).effects
  {
  }

  /** A successful crop reports back exactly the region it was asked for,
      whatever the crop operation made of it. */
  lemma CropEchoesRegion(upload: Upload, x: int, y: int, width: int, height: int,
                         decode: Decoder, crop: Cropper, write: Writer, fileId: string, now: string)
    requires Crop(upload, x, y, width, height, decode, crop, write, fileId, now).result.Success?
    ensures Crop(upload, x, y, width, height, decode, crop, write, fileId, now).result.value.cropRegion
         == Region(x, y, width, height)
  {
  }

  /** The two resize operations of the image helpers only raise
      NotImplementedError. */
  function StubResizeTo(image: Image, width: int, height: int): (r: Result<Image, Exception>)
    ensures r.Failure? && r.error.OtherError?
  {
    Failure(OtherError("Resize logic not yet implemented"))
  }

  function StubResizeByPercentage(image: Image, percentage: int): (r: Result<Image, Exception>)
    ensures r.Failure? && r.error.OtherError?
  {
    Failure(OtherError("Percentage resize logic not yet implemented"))
  }

  /** With those stubs no resize request succeeds: a request that passes the
      guard with a decodable upload ends in 500 "Image resize failed", and
      nothing is written. */
  lemma ResizeWithStubsNeverSucceeds(
    upload: Upload, width: IntParam, height: IntParam, percentage: IntParam,
    decode: Decoder, write: Writer, fileId: string, now: string)
    ensures
      var reply := Resize(upload, width, height, percentage, decode,
                          StubResizeTo, StubResizeByPercentage, write, fileId, now);
      reply.result.Failure? &&
      (forall path :: WriteFile(path) !in reply.effects) &&
      (ResizeGuard(width, height, percentage).None? && decode(upload.content).Decoded? ==>
         reply.result.error == HttpError(500, ResizeFailedDetail))
  {
  }
}
