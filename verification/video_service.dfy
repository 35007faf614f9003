/** `VideoService.process_video`: read frames until the capture is
    exhausted, run the YOLO post-processing on every `frame_interval`-th
    frame, and collect one annotated screenshot record per analysed frame
    plus the summary totals. The decoded frames are an input (`None`: the
    file could not be opened); drawing and writing the JPEGs are not
    modelled. */
module VideoService {
  import opened Base
  import opened Text
  import opened Detections
  import opened Yolo
  import opened Arith

  datatype Summary = Summary(totalObjects: nat, totalPersons: nat, totalSigns: nat)

  datatype Screenshot = Screenshot(
    filename: string,
    url: string,
    frameNumber: nat,
    timestamp: string,
    objectsCount: nat,
    personsCount: nat,
    signsCount: nat,
    objects: seq<Detection>,
    persons: seq<Detection>,
    signs: seq<Detection>)

  /** The response without `fps`, a floating-point value. */
  datatype VideoResult = VideoResult(
    framesProcessed: nat,
    videoFrames: int,
    summary: Summary,
    screenshots: seq<Screenshot>)

  /** `CannotOpen`: the `ValueError` raised for an unreadable file;
      `ModuloByZero`: the `ZeroDivisionError` of `frame_idx % 0`. */
  datatype VideoError = CannotOpen | ModuloByZero {
    function Message(): string {
      match this
      case CannotOpen => "Could not open video file"
      case ModuloByZero => "integer modulo by zero"
    }
  }

  /** Where every screenshot of run `runId` is served from. */
  function ScreenshotUrl(runId: string, filename: string): string {
    "/static/video_results/" + runId + "/" + filename
  }

  /** The record of frame `idx`, the `processed`-th analysed frame.
      `stamp(idx)` is the text of `round(idx / fps, 1)`, a floating-point
      rendering left abstract. */
  function Shot(cfg: Config, frame: Frame, idx: nat, processed: nat, runId: string,
                stamp: nat -> string): Screenshot
  {
    var r := DetectObjects(cfg, frame);
    var filename := "frame_" + ZeroPad4(processed) + "_t" + stamp(idx) + "s.jpg";
    Screenshot(filename, ScreenshotUrl(runId, filename), idx, stamp(idx) + "s",
               |r.objects|, r.personCount, |r.signs|, r.objects, r.persons, r.signs)
  }

  /** The screenshots collected from the first `n` frames. */
  function Shots(cfg: Config, frames: seq<Frame>, interval: int, runId: string,
                 stamp: nat -> string, n: nat): seq<Screenshot>
    requires n <= |frames| && interval != 0
    decreases n
  {
    if n == 0 then []
    else
      var prev := Shots(cfg, frames, interval, runId, stamp, n - 1);
      if (n - 1) % interval == 0
      then prev + [Shot(cfg, frames[n - 1], n - 1, |prev|, runId, stamp)]
      else prev
  }

  /** Sum of the per-screenshot counts. */
  function Total(shots: seq<Screenshot>): Summary
    decreases |shots|
  {
    if |shots| == 0 then Summary(0, 0, 0)
    else
      var t := Total(shots[..|shots| - 1]);
      var s := shots[|shots| - 1];
      Summary(t.totalObjects + s.objectsCount, t.totalPersons + s.personsCount,
              t.totalSigns + s.signsCount)
  }

  /** Frame m appends its screenshot exactly when the interval divides
      m. */
  lemma ShotsNext(cfg: Config, frames: seq<Frame>, interval: int, runId: string,
                  stamp: nat -> string, m: nat)
    requires m < |frames| && interval != 0
    ensures var prev := Shots(cfg, frames, interval, runId, stamp, m);
      Shots(cfg, frames, interval, runId, stamp, m + 1)
      == if m % interval == 0 then prev + [Shot(cfg, frames[m], m, |prev|, runId, stamp)] else prev
  {
  }

  /** Appending a screenshot adds its counts to the totals. */
  lemma TotalSnoc(shots: seq<Screenshot>, s: Screenshot)
    ensures Total(shots + [s]) == Summary(Total(shots).totalObjects + s.objectsCount,
                                          Total(shots).totalPersons + s.personsCount,
                                          Total(shots).totalSigns + s.signsCount)
  {
    assert (shots + [s])[..|shots|] == shots;
  }

  /** `process_video(path, frame_interval)`, with the run id taken from
      the clock reading `clock` and `reportedFrames` the container's
      frame count. */
  function ProcessVideo(cfg: Config, video: Option<seq<Frame>>, interval: int, clock: nat,
                        stamp: nat -> string, reportedFrames: int): (r: Result<VideoResult, VideoError>)
    ensures video.None? ==> r == Err(CannotOpen)
    ensures r.Ok? ==> |r.value.screenshots| == r.value.framesProcessed
    ensures r.Ok? ==> r.value.summary == Total(r.value.screenshots)
    ensures r.Ok? ==> r.value.videoFrames == reportedFrames
    ensures r == Err(ModuloByZero) <==> video.Some? && interval == 0 && |video.value| > 0
  {
    match video
    case None => Err(CannotOpen)
    case Some(frames) =>
      if interval == 0 && |frames| > 0 then Err(ModuloByZero)
      else
        var shots := if interval == 0 then [] else Shots(cfg, frames, interval, NatToString(clock), stamp, |frames|);
        Ok(VideoResult(|shots|, reportedFrames, Total(shots), shots))
  }

  /** For a positive interval k, the first n frames give ceil(n / k)
      screenshots. */
  lemma {:induction false} ShotsCount(cfg: Config, frames: seq<Frame>, k: int, runId: string,
                                      stamp: nat -> string, n: nat)
    requires n <= |frames| && k > 0
    ensures |Shots(cfg, frames, k, runId, stamp, n)| == (n + k - 1) / k
    decreases n
  {
    if n == 0 {
      DivModUnique(k - 1, k, 0, k - 1);
    } else {
      var m := n - 1;
      ShotsCount(cfg, frames, k, runId, stamp, m);
      ShotsNext(cfg, frames, k, runId, stamp, m);
      CeilStep(m, k);
    }
  }

  /** Screenshot i of the first n frames is frame i * k, analysed as the
      i-th. */
  lemma {:induction false} ShotAt(cfg: Config, frames: seq<Frame>, k: int, runId: string,
                                  stamp: nat -> string, n: nat, i: nat)
    requires n <= |frames| && k > 0 && i < |Shots(cfg, frames, k, runId, stamp, n)|
    ensures 0 <= i * k < n
    ensures Shots(cfg, frames, k, runId, stamp, n)[i] == Shot(cfg, frames[i * k], i * k, i, runId, stamp)
    decreases n
  {
    var m := n - 1;
    var prev := Shots(cfg, frames, k, runId, stamp, m);
    var cur := Shots(cfg, frames, k, runId, stamp, n);
    ShotsNext(cfg, frames, k, runId, stamp, m);
    if i < |prev| {
      ShotAt(cfg, frames, k, runId, stamp, m, i);
      assert cur[i] == prev[i];
    } else {
      assert m % k == 0 && i == |prev|;
      ShotsCount(cfg, frames, k, runId, stamp, m);
      IndexOfMultiple(m, k, i);
      assert cur[i] == Shot(cfg, frames[m], m, i, runId, stamp);
    }
  }

  /** Together: ceil(n / k) screenshots, the i-th being frame i * k. */
  lemma ShotsAreSampledFrames(cfg: Config, frames: seq<Frame>, k: int, runId: string,
                              stamp: nat -> string, n: nat)
    requires n <= |frames| && k > 0
    ensures var shots := Shots(cfg, frames, k, runId, stamp, n);
      && |shots| == (n + k - 1) / k
      && forall i: nat :: i < |shots| ==>
           0 <= i * k < n && shots[i] == Shot(cfg, frames[i * k], i * k, i, runId, stamp)
  {
    ShotsCount(cfg, frames, k, runId, stamp, n);
    var shots := Shots(cfg, frames, k, runId, stamp, n);
    forall i: nat | i < |shots|
      ensures 0 <= i * k < n && shots[i] == Shot(cfg, frames[i * k], i * k, i, runId, stamp)
    {
      ShotAt(cfg, frames, k, runId, stamp, n, i);
    }
  }

  /** Screenshot frame numbers are strictly increasing multiples of the
      interval. */
  lemma FrameNumbersIncreasing(cfg: Config, frames: seq<Frame>, k: int, runId: string,
                               stamp: nat -> string, n: nat)
    requires n <= |frames| && k > 0
    ensures var shots := Shots(cfg, frames, k, runId, stamp, n);
      && (forall i :: 0 <= i < |shots| ==> shots[i].frameNumber % k == 0)
      && (forall i, j :: 0 <= i < j < |shots| ==> shots[i].frameNumber < shots[j].frameNumber)
  {
    var shots := Shots(cfg, frames, k, runId, stamp, n);
    forall i | 0 <= i < |shots| ensures shots[i].frameNumber % k == 0 {
      ShotAt(cfg, frames, k, runId, stamp, n, i);
      MultipleMod(i, k);
    }
    forall i, j | 0 <= i < j < |shots| ensures shots[i].frameNumber < shots[j].frameNumber {
      ShotAt(cfg, frames, k, runId, stamp, n, i);
      ShotAt(cfg, frames, k, runId, stamp, n, j);
      MulStrictMono(i, j, k);
    }
  }

  /** Every screenshot's name carries its zero-padded analysed-frame
      index and the stamp of its frame, and its url is the run's
      directory plus that name. */
  lemma {:induction false} ScreenshotNames(cfg: Config, frames: seq<Frame>, k: int, runId: string,
                        stamp: nat -> string, n: nat)
    requires n <= |frames| && k > 0
    ensures var shots := Shots(cfg, frames, k, runId, stamp, n);
      forall i :: 0 <= i < |shots| ==>
        && shots[i].filename == "frame_" + ZeroPad4(i) + "_t" + stamp(shots[i].frameNumber) + "s.jpg"
        && shots[i].url == "/static/video_results/" + runId + "/" + shots[i].filename
  {
    var shots := Shots(cfg, frames, k, runId, stamp, n);
    forall i | 0 <= i < |shots|
      ensures shots[i].filename == "frame_" + ZeroPad4(i) + "_t" + stamp(shots[i].frameNumber) + "s.jpg"
      ensures shots[i].url == "/static/video_results/" + runId + "/" + shots[i].filename
    {
      ShotAt(cfg, frames, k, runId, stamp, n, i);
    }
  }

  /** For a positive interval k the run succeeds, analyses ceil(n / k)
      frames, and screenshot i counts the objects, persons and signs that
      detection finds in frame i * k; the summary adds these up. */
  lemma SummaryCountsSampledFrames(cfg: Config, frames: seq<Frame>, clock: nat,
                                   stamp: nat -> string, reportedFrames: int, k: int)
    requires k > 0
    ensures var r := ProcessVideo(cfg, Some(frames), k, clock, stamp, reportedFrames);
      && r.Ok?
      && r.value.framesProcessed == (|frames| + k - 1) / k
      && forall i :: 0 <= i < |r.value.screenshots| ==>
           && 0 <= i * k < |frames|
           && var d := DetectObjects(cfg, frames[i * k]);
           && r.value.screenshots[i].objectsCount == |d.objects|
           && r.value.screenshots[i].personsCount == d.personCount
           && r.value.screenshots[i].signsCount == |d.signs|
  {
    var runId := NatToString(clock);
    var shots := Shots(cfg, frames, k, runId, stamp, |frames|);
    ShotsCount(cfg, frames, k, runId, stamp, |frames|);
    ProcessVideoShots(cfg, frames, k, clock, stamp, reportedFrames);
    forall i | 0 <= i < |shots|
      ensures 0 <= i * k < |frames|
      ensures var d := DetectObjects(cfg, frames[i * k]);
        && shots[i].objectsCount == |d.objects| && shots[i].personsCount == d.personCount
        && shots[i].signsCount == |d.signs|
    {
      ShotCounts(cfg, frames, k, runId, stamp, |frames|, i);
    }
  }

  /** For a positive interval the run succeeds with the sampled
      screenshots. */
  lemma ProcessVideoShots(cfg: Config, frames: seq<Frame>, k: int, clock: nat,
                          stamp: nat -> string, reportedFrames: int)
    requires k > 0
    ensures var shots := Shots(cfg, frames, k, NatToString(clock), stamp, |frames|);
      ProcessVideo(cfg, Some(frames), k, clock, stamp, reportedFrames)
      == Ok(VideoResult(|shots|, reportedFrames, Total(shots), shots))
  {
  }

  /** Screenshot i counts what detection finds in frame i * k. */
  lemma ShotCounts(cfg: Config, frames: seq<Frame>, k: int, runId: string,
                   stamp: nat -> string, n: nat, i: nat)
    requires n <= |frames| && k > 0 && i < |Shots(cfg, frames, k, runId, stamp, n)|
    ensures 0 <= i * k < n
    ensures var sh := Shots(cfg, frames, k, runId, stamp, n)[i];
      var d := DetectObjects(cfg, frames[i * k]);
      && sh.objectsCount == |d.objects| && sh.personsCount == d.personCount && sh.signsCount == |d.signs|
  {
    ShotAt(cfg, frames, k, runId, stamp, n, i);
  }

  /** The loop of `process_video`, statement by statement. */
  method RunVideo(cfg: Config, video: Option<seq<Frame>>, interval: int, clock: nat,
                  stamp: nat -> string, reportedFrames: int) returns (r: Result<VideoResult, VideoError>)
    ensures r == ProcessVideo(cfg, video, interval, clock, stamp, reportedFrames)
  {
    if video.None? {
      return Err(CannotOpen);
    }
    var frames := video.value;
    var runId := NatToString(clock);
    var screenshots: seq<Screenshot> := [];
    var totalObjects: nat, totalPersons: nat, totalSigns: nat := 0, 0, 0;
    var frameIdx := 0;
    var processed := 0;
    while frameIdx < |frames|
      invariant 0 <= frameIdx <= |frames|
      invariant interval == 0 ==> frameIdx == 0 && screenshots == []
      invariant interval != 0 ==> screenshots == Shots(cfg, frames, interval, runId, stamp, frameIdx)
      invariant processed == |screenshots|
      invariant Summary(totalObjects, totalPersons, totalSigns) == Total(screenshots)
    {
      if interval == 0 {
        return Err(ModuloByZero);
      }
      ShotsNext(cfg, frames, interval, runId, stamp, frameIdx);
      if frameIdx % interval == 0 {
        var shot := Shot(cfg, frames[frameIdx], frameIdx, processed, runId, stamp);
        TotalSnoc(screenshots, shot);
        totalObjects := totalObjects + shot.objectsCount;
        totalPersons := totalPersons + shot.personsCount;
        totalSigns := totalSigns + shot.signsCount;
        screenshots := screenshots + [shot];
        processed := processed + 1;
      }
      frameIdx := frameIdx + 1;
    }
    return Ok(VideoResult(processed, reportedFrames, Summary(totalObjects, totalPersons, totalSigns), screenshots));
  }
}
