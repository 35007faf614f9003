/** `POST /api/image/upload`: validate the upload, then run the image
    service on it. The decoded image is an input (`None`: the saved file
    cannot be read as an image), as is the second the result is saved at. */
module ImageRoute {
  import opened Base
  import opened Text
  import opened Yolo
  import opened Uploads
  import opened ImageService

  const ImageExtensions: set<string> := {"jpg", "jpeg", "png", "bmp", "webp"}

  /** The multipart field that carries the file. */
  const ImagePart := "image"

  function UploadImage(verb: Method, files: map<string, string>, cfg: Config, img: Option<Frame>,
                       timestamp: int): (r: Reply<ImageResult>)
    ensures r.NoContent? <==> verb.Options?
    ensures r == BadRequest(MissingPart) <==> verb.Post? && ImagePart !in files
    ensures r == BadRequest(InvalidFile) <==>
      verb.Post? && ImagePart in files && !HasAllowedExtension(files[ImagePart], ImageExtensions)
    ensures r.ServerError? <==> Validate(verb, files, ImagePart, ImageExtensions).Accept? && img.None?
    ensures r.ServerError? ==> r.error == "Could not open image file"
    ensures r.Processed? ==>
      && img.Some? && r.result.url == ImageUrl(timestamp)
      && r.result.width == img.value.width && r.result.height == img.value.height
  {
    match Validate(verb, files, ImagePart, ImageExtensions)
    case Preflight => NoContent
    case Reject(why) => BadRequest(why)
    case Accept(_) =>
      match ProcessImage(cfg, img, timestamp)
      case Ok(result) => Processed(result)
      case Err(e) => ServerError(e.Message())
  }

  /** A POST without the file part gets a 400 whose error names the part. */
  lemma MissingImageReply(files: map<string, string>, cfg: Config, img: Option<Frame>, timestamp: int)
    requires ImagePart !in files
    ensures var r := UploadImage(Post, files, cfg, img, timestamp);
      r.Status() == 400 && r.ErrorText(ImagePart) == Some("No image file in request")
  {
    assert "No " + ImagePart + " file in request" == "No image file in request";
  }
}
