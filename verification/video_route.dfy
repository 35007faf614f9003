/** `POST /api/video/upload`: validate the upload, then run the video
    service on it with an interval of 30 frames. The decoded content of
    the saved upload is an input (`None`: it cannot be opened as a video). */
module VideoRoute {
  import opened Base
  import opened Text
  import opened Yolo
  import opened Uploads
  import opened VideoService

  const VideoExtensions: set<string> := {"mp4", "avi", "mov", "mkv", "webm"}

  /** The multipart field that carries the file. */
  const VideoPart := "video"

  /** The `frame_interval` the route passes to the service. */
  const RouteInterval := 30

  function UploadVideo(verb: Method, files: map<string, string>, cfg: Config, video: Option<seq<Frame>>,
                       clock: nat, stamp: nat -> string, reportedFrames: int): (r: Reply<VideoResult>)
    ensures r.NoContent? <==> verb.Options?
    ensures r == BadRequest(MissingPart) <==> verb.Post? && VideoPart !in files
    ensures r == BadRequest(InvalidFile) <==>
      verb.Post? && VideoPart in files && !HasAllowedExtension(files[VideoPart], VideoExtensions)
    ensures r.ServerError? <==> Validate(verb, files, VideoPart, VideoExtensions).Accept? && video.None?
    ensures r.ServerError? ==> r.error == "Could not open video file"
    ensures r.Processed? ==> video.Some? && r.result.framesProcessed == (|video.value| + RouteInterval - 1) / RouteInterval
  {
    match Validate(verb, files, VideoPart, VideoExtensions)
    case Preflight => NoContent
    case Reject(why) => BadRequest(why)
    case Accept(_) =>
      if video.Some? then
        SummaryCountsSampledFrames(cfg, video.value, clock, stamp, reportedFrames, RouteInterval);
        match ProcessVideo(cfg, video, RouteInterval, clock, stamp, reportedFrames)
        case Ok(result) => Processed(result)
        case Err(e) => ServerError(e.Message())
      else ServerError(CannotOpen.Message())
  }

  /** A POST without the file part gets a 400 whose error names the part. */
  lemma MissingVideoReply(files: map<string, string>, cfg: Config, video: Option<seq<Frame>>,
                             clock: nat, stamp: nat -> string, reportedFrames: int)
    requires VideoPart !in files
    ensures var r := UploadVideo(Post, files, cfg, video, clock, stamp, reportedFrames);
      r.Status() == 400 && r.ErrorText(VideoPart) == Some("No video file in request")
  {
    assert "No " + VideoPart + " file in request" == "No video file in request";
  }

  /** Only the last extension counts, and a name without a dot is refused. */
  lemma InnerExtensionIgnored()
    ensures !AllowedFile("clip.mp4.zip", VideoExtensions)
  {
    var z := "clip.mp4.zip";
    assert z[8] == '.' && NoDotAfter(z, 8);
    LastIndexOfIsLast(z, '.', 8);
    assert z[9..] == "zip";
    PyLowerUnchanged("zip");
  }

  lemma DotlessNameRefused()
    ensures !AllowedFile("mp4", VideoExtensions)
  {
    var m := "mp4";
    assert forall j :: 0 <= j < |m| ==> m[j] != '.';
  }
}
