/** The object-detection screen: the camera poller with its status line,
    the normalisation of each detection reply, the overlay, and the
    video and image uploads, which write the same status line. Camera
    access, timers, file dialogs and requests are events; a reply is
    `None` when the request failed (network error, non-2xx status or
    unreadable body). */
module ObjectScreen {
  import opened Base
  import opened Text
  import opened Detections
  import opened Poller
  import opened StatusText
  import opened Overlay

  /** The three characters the screen's source holds where an ellipsis
      was meant (the UTF-8 bytes of U+2026 read as Windows-1252); the
      status lines show them as they are. */
  const Ellipsis := "\U{E2}\U{20AC}\U{A6}"

  const CameraIdle := "Camera idle"
  const CameraReadyText := "Camera ready. Scanning for objects" + Ellipsis
  const AnalyzingText := "Analyzing frame" + Ellipsis
  const RetryingText := "Detection failed. Retrying" + Ellipsis
  const DeniedText := "Camera permission denied"

  /** A `/detect_frame` reply as parsed JSON; `None` marks a missing or
      falsy field. */
  datatype Reply = Reply(
    objects: Option<seq<Detection>>,
    persons: Option<seq<Detection>>,
    signs: Option<seq<Detection>>,
    personCount: Option<int>,
    frameHeight: Option<int>,
    frameWidth: Option<int>)

  /** The result the screen shows. */
  datatype Shown = Shown(
    objects: seq<Detection>,
    persons: seq<Detection>,
    signs: seq<Detection>,
    personCount: int,
    frameHeight: int,
    frameWidth: int)

  /** JavaScript `x || fallback` on a number that may be missing. */
  function OrDefault(x: Option<int>, fallback: int): (r: int)
    ensures x.Some? && x.value != 0 ==> r == x.value
    ensures x.None? || x.value == 0 ==> r == fallback
  {
    if x.Some? && x.value != 0 then x.value else fallback
  }

  /** Missing lists become empty, a missing count 0, and a missing or zero
      frame size the size the frame was captured at. */
  function Normalize(raw: Reply, c: Capture): (r: Shown)
    ensures r.objects == raw.objects.GetOr([]) && r.persons == raw.persons.GetOr([])
    ensures r.signs == raw.signs.GetOr([])
    ensures r.personCount == raw.personCount.GetOr(0)
    ensures r.frameHeight == OrDefault(raw.frameHeight, c.height)
    ensures r.frameWidth == OrDefault(raw.frameWidth, c.width)
    ensures 0 < c.height && 0 < c.width ==> r.frameHeight != 0 && r.frameWidth != 0
  {
    Shown(raw.objects.GetOr([]), raw.persons.GetOr([]), raw.signs.GetOr([]),
          OrDefault(raw.personCount, 0), OrDefault(raw.frameHeight, c.height),
          OrDefault(raw.frameWidth, c.width))
  }

  /** The reply that sends a shown result with every field present. */
  function Complete(r: Shown): Reply {
    Reply(Some(r.objects), Some(r.persons), Some(r.signs), Some(r.personCount),
          Some(r.frameHeight), Some(r.frameWidth))
  }

  /** Normalising a complete reply with non-zero sizes loses nothing,
      whatever frame it answers. */
  lemma NormalizeComplete(r: Shown, c: Capture)
    requires r.frameHeight != 0 && r.frameWidth != 0
    ensures Normalize(Complete(r), c) == r
  {
  }

  /** The status line for a shown result. */
  function ShownStatus(r: Shown): string {
    DetectionStatus(|r.objects|, r.personCount, |r.signs|)
  }

  /** The screen's state. `status` is the one status line that detection
      and both uploads write; `videoUploading` and `imageUploading` are
      the two upload panels' busy flags. */
  datatype Screen = Screen(
    loop: Loop,
    detecting: bool,
    shown: Option<Shown>,
    status: string,
    lastUpdated: Option<int>,
    videoUploading: bool,
    imageUploading: bool)

  const Initial := Screen(Idle, false, None, CameraIdle, None, false, false)

  /** Whether a detection attempt now sends a request. */
  predicate Sends(l: Loop, src: Source) {
    !l.busy && CaptureFrame(src).Some?
  }

  /** A detection attempt (`detectFrame`) with its status update. */
  function Detect(s: Screen, src: Source): (r: Screen)
    ensures r.loop == Tick(s.loop, src)
    ensures !Sends(s.loop, src) ==> r == s
    ensures Sends(s.loop, src) ==> r == s.(loop := r.loop, status := AnalyzingText)
  {
    if Sends(s.loop, src) then s.(loop := Tick(s.loop, src), status := AnalyzingText) else s
  }

  datatype Event =
    | CameraReady(src: Source)
    | CameraDenied
    | TimerFired(src: Source)
    | Response(k: nat, reply: Option<Reply>, now: int)
    | StopCamera
    | Picked(kind: Kind, file: Option<FileInfo>)
    | Uploaded(kind: Kind, outcome: Option<Totals>)

  /** The video's metadata loaded: detection is on and the loop starts. */
  function OnCameraReady(s: Screen, src: Source): (r: Screen)
    ensures r.detecting && r.loop == Start(s.loop, src)
    ensures r.status == if !s.loop.timer && Sends(s.loop, src) then AnalyzingText else CameraReadyText
    ensures r.shown == s.shown && r.lastUpdated == s.lastUpdated
  {
    var ready := s.(detecting := true, status := CameraReadyText);
    if s.loop.timer then ready else Detect(ready, src).(loop := Start(s.loop, src))
  }

  /** Request `k` finished with `reply`. */
  function OnResponse(s: Screen, k: nat, reply: Option<Reply>, now: int): (r: Screen)
    ensures k >= |s.loop.pending| ==> r == s
    ensures k < |s.loop.pending| ==> r.loop == Settle(s.loop, k) && r.detecting == s.detecting
    ensures k < |s.loop.pending| && reply.Some? ==>
      var shown := Normalize(reply.value, s.loop.pending[k]);
      && r.shown == Some(shown) && r.lastUpdated == Some(now) && r.status == ShownStatus(shown)
    ensures k < |s.loop.pending| && reply.None? ==>
      r.shown == s.shown && r.lastUpdated == s.lastUpdated && r.status == RetryingText
  {
    if k >= |s.loop.pending| then s
    else
      var c := s.loop.pending[k];
      var settled := s.(loop := Settle(s.loop, k));
      match reply
      case None => settled.(status := RetryingText)
      case Some(raw) =>
        var shown := Normalize(raw, c);
        settled.(shown := Some(shown), lastUpdated := Some(now), status := ShownStatus(shown))
  }

  /** `stopCamera`: the loop stops and the camera part of the screen
      returns to idle; uploads in progress go on. */
  function OnStopCamera(s: Screen): (r: Screen)
    ensures r.loop == Stop(s.loop) && !r.loop.timer && !r.loop.busy
    ensures !r.detecting && r.shown.None? && r.lastUpdated.None? && r.status == CameraIdle
    ensures r.videoUploading == s.videoUploading && r.imageUploading == s.imageUploading
  {
    s.(loop := Stop(s.loop), detecting := false, shown := None, status := CameraIdle, lastUpdated := None)
  }

  function Step(s: Screen, e: Event): Screen {
    match e
    case CameraReady(src) => OnCameraReady(s, src)
    case CameraDenied => s.(status := DeniedText)
    case TimerFired(src) => if s.loop.timer then Detect(s, src) else s
    case Response(k, reply, now) => OnResponse(s, k, reply, now)
    case StopCamera => OnStopCamera(s)
    case Picked(kind, file) =>
      if !OpensPicker(s, kind) then s
      else
        var p := PickFor(kind, file);
        if p.Send? then BeginUpload(s, kind, p.file) else s
    case Uploaded(kind, outcome) => EndUpload(s, kind, outcome)
  }

  function RunScreen(s: Screen, events: seq<Event>): Screen
    decreases |events|
  {
    if |events| == 0 then s else RunScreen(Step(s, events[0]), events[1..])
  }

  /** The poller events a screen trace drives. */
  function LoopEvents(events: seq<Event>): (r: seq<LoopEvent>)
    decreases |events|
  {
    if |events| == 0 then []
    else
      var rest := LoopEvents(events[1..]);
      match events[0]
      case CameraReady(src) => [Started(src)] + rest
      case CameraDenied => rest
      case TimerFired(src) => [Fired(src)] + rest
      case Response(k, _, _) => [Settled(k)] + rest
      case StopCamera => [Stopped] + rest
      case Picked(_, _) => rest
      case Uploaded(_, _) => rest
  }

  /** The screen's loop is exactly the poller run on the projected
      events, so the poller's guarantees hold for the screen. */
  lemma {:induction false} ScreenRunsPoller(s: Screen, events: seq<Event>)
    ensures RunScreen(s, events).loop == Run(s.loop, LoopEvents(events))
    decreases |events|
  {
    if |events| > 0 {
      var e := events[0];
      var next := Step(s, e);
      ScreenRunsPoller(next, events[1..]);
      match e
      case CameraDenied =>
        assert next.loop == s.loop;
      case CameraReady(src) =>
        assert next.loop == Poller.Step(s.loop, Started(src));
        assert LoopEvents(events)[1..] == LoopEvents(events[1..]);
      case TimerFired(src) =>
        assert next.loop == Poller.Step(s.loop, Fired(src));
        assert LoopEvents(events)[1..] == LoopEvents(events[1..]);
      case Response(k, _, _) =>
        assert next.loop == Poller.Step(s.loop, Settled(k));
        assert LoopEvents(events)[1..] == LoopEvents(events[1..]);
      case StopCamera =>
        assert next.loop == Poller.Step(s.loop, Stopped);
        assert LoopEvents(events)[1..] == LoopEvents(events[1..]);
      case Picked(_, _) =>
        assert next.loop == s.loop;
      case Uploaded(_, _) =>
        assert next.loop == s.loop;
    }
  }

  /** From a fresh screen, unless the camera is stopped while a request
      is pending, at most one detection request is in flight. */
  lemma ScreenAtMostOneInFlight(events: seq<Event>)
    requires StopsWhenQuiet(Idle, LoopEvents(events))
    ensures |RunScreen(Initial, events).loop.pending| <= 1
  {
    ScreenRunsPoller(Initial, events);
    FromIdleAtMostOneInFlight(LoopEvents(events));
  }

  /** The overlay of a box over the shown result, when the video element
      has rendered size `view`. */
  function BoxOverlay(s: Screen, view: Option<Dims>, box: Box): (st: Style)
    ensures st.NoStyle? <==> s.shown.None? || view.None?
  {
    var frame := if s.shown.Some? then Some(Dims(s.shown.value.frameWidth as real, s.shown.value.frameHeight as real)) else None;
    OverlayStyle(frame, view, box)
  }

  // Uploads

  /** A picked file: its name and the MIME type the browser reports. */
  datatype FileInfo = FileInfo(name: string, mime: string)

  /** What the change handler does: nothing without a file, refuse it
      with a notice, or send it. */
  datatype Pick = NoFile | Refused | Send(file: FileInfo)

  const VideoMimes: seq<string> := ["video/mp4", "video/avi", "video/quicktime", "video/x-matroska", "video/webm"]
  const VideoEndings: seq<string> := ["mp4", "avi", "mov", "mkv", "webm"]
  const ImageMimes: seq<string> := ["image/jpeg", "image/png", "image/webp", "image/bmp"]

  /** `name` ends in `suffix` (lower case) under the ASCII case folding
      of a `/i` regular expression. */
  predicate EndsWithFolded(name: string, suffix: string) {
    |suffix| <= |name| && AsciiLowerString(name[|name| - |suffix|..]) == suffix
  }

  /** `/\.(mp4|avi|mov|mkv|webm)$/i` matches the name. */
  predicate VideoNameMatches(name: string) {
    exists e :: e in VideoEndings && EndsWithFolded(name, "." + e)
  }

  function PickVideo(file: Option<FileInfo>): (p: Pick)
    ensures p.NoFile? <==> file.None?
    ensures p.Send? <==> file.Some? && (file.value.mime in VideoMimes || VideoNameMatches(file.value.name))
    ensures p.Send? ==> p.file == file.value
  {
    match file
    case None => NoFile
    case Some(f) => if f.mime !in VideoMimes && !VideoNameMatches(f.name) then Refused else Send(f)
  }

  function PickImage(file: Option<FileInfo>): (p: Pick)
    ensures p.NoFile? <==> file.None?
    ensures p.Send? <==> file.Some? && file.value.mime in ImageMimes
    ensures p.Send? ==> p.file == file.value
  {
    match file
    case None => NoFile
    case Some(f) => if f.mime !in ImageMimes then Refused else Send(f)
  }

  /** The image check reads the MIME type only. */
  lemma ImagePickIgnoresName(a: string, b: string, mime: string)
    ensures PickImage(Some(FileInfo(a, mime))).Send? == PickImage(Some(FileInfo(b, mime))).Send?
  {
  }

  /** The two upload panels. */
  datatype Kind = Video | Image {
    /** The word in "Processing video: …". */
    function Noun(): string {
      match this
      case Video => "video"
      case Image => "image"
    }

    /** The word that starts "Video processed: …" and "Video processing
        failed". */
    function Title(): string {
      match this
      case Video => "Video"
      case Image => "Image"
    }
  }

  function PickFor(kind: Kind, file: Option<FileInfo>): Pick {
    match kind
    case Video => PickVideo(file)
    case Image => PickImage(file)
  }

  /** Whether an upload of `kind` is running. */
  predicate Uploading(s: Screen, kind: Kind) {
    match kind
    case Video => s.videoUploading
    case Image => s.imageUploading
  }

  /** The file dialog opens only while no upload of that kind runs. */
  predicate OpensPicker(s: Screen, kind: Kind) {
    !Uploading(s, kind)
  }

  function SetUploading(s: Screen, kind: Kind, busy: bool): (r: Screen)
    ensures Uploading(r, kind) == busy
    ensures forall k: Kind :: k != kind ==> Uploading(r, k) == Uploading(s, k)
    ensures r.loop == s.loop && r.detecting == s.detecting && r.shown == s.shown
    ensures r.status == s.status && r.lastUpdated == s.lastUpdated
  {
    match kind
    case Video => s.(videoUploading := busy)
    case Image => s.(imageUploading := busy)
  }

  /** Summary counts of a processed upload, as the reply reports them. */
  datatype Totals = Totals(objects: nat, persons: nat, signs: nat)

  function TotalsText(kind: Kind, t: Totals): string {
    kind.Title() + " processed: " + NatToString(t.objects) + " objects, " + NatToString(t.persons) + " persons, "
    + NatToString(t.signs) + " signs"
  }

  function ProcessingText(kind: Kind, f: FileInfo): string {
    "Processing " + kind.Noun() + ": " + f.name + Ellipsis
  }

  function FailedText(kind: Kind): string {
    kind.Title() + " processing failed"
  }

  /** The status line an upload ends with. */
  function EndText(kind: Kind, outcome: Option<Totals>): string {
    match outcome
    case None => FailedText(kind)
    case Some(t) => TotalsText(kind, t)
  }

  /** A picked file was sent: that panel is busy and the screen's status
      line names the file; the camera part and the other panel are
      untouched. */
  function BeginUpload(s: Screen, kind: Kind, f: FileInfo): (r: Screen)
    ensures Uploading(r, kind) && !OpensPicker(r, kind)
    ensures forall k: Kind :: k != kind ==> Uploading(r, k) == Uploading(s, k)
    ensures r.status == ProcessingText(kind, f)
    ensures r.loop == s.loop && r.detecting == s.detecting && r.shown == s.shown && r.lastUpdated == s.lastUpdated
  {
    SetUploading(s, kind, true).(status := ProcessingText(kind, f))
  }

  /** The upload finished (`None`: it failed); the panel is free again on
      both paths and the status line reports the totals or the failure. */
  function EndUpload(s: Screen, kind: Kind, outcome: Option<Totals>): (r: Screen)
    ensures !Uploading(r, kind) && OpensPicker(r, kind)
    ensures forall k: Kind :: k != kind ==> Uploading(r, k) == Uploading(s, k)
    ensures outcome.None? ==> r.status == FailedText(kind)
    ensures outcome.Some? ==> r.status == TotalsText(kind, outcome.value)
    ensures r.loop == s.loop && r.detecting == s.detecting && r.shown == s.shown && r.lastUpdated == s.lastUpdated
  {
    SetUploading(s, kind, false).(status := EndText(kind, outcome))
  }

  /** An upload started from a free panel and then finished leaves the
      screen as it was except for the status line, which reports the
      outcome. */
  lemma UploadRoundTrip(s: Screen, kind: Kind, f: FileInfo, outcome: Option<Totals>)
    requires OpensPicker(s, kind)
    ensures EndUpload(BeginUpload(s, kind, f), kind, outcome) == s.(status := EndText(kind, outcome))
  {
  }

  /** Detection and the uploads share the status line: a detection reply
      that arrives while an upload runs replaces "Processing …" with the
      detection summary, and the upload goes on. */
  lemma DetectionOverwritesUploadStatus(s: Screen, kind: Kind, f: FileInfo, k: nat, reply: Reply, now: int)
    requires k < |s.loop.pending|
    ensures var r := OnResponse(BeginUpload(s, kind, f), k, Some(reply), now);
      && Uploading(r, kind)
      && r.status == ShownStatus(Normalize(reply, s.loop.pending[k]))
  {
  }
}
