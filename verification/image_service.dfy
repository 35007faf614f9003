/** `ImageService.process_image`: one YOLO pass over an uploaded image and
    the response built from it. The decoded image is an input (`None`:
    `cv2.imread` returned nothing); drawing and saving the annotated copy
    are not modelled. */
module ImageService {
  import opened Base
  import opened Text
  import opened Detections
  import opened Yolo

  datatype ImageSummary = ImageSummary(totalObjects: nat, totalPersons: nat, totalSigns: nat)

  datatype ImageResult = ImageResult(
    url: string,
    width: nat,
    height: nat,
    summary: ImageSummary,
    objects: seq<Detection>,
    persons: seq<Detection>,
    signs: seq<Detection>)

  /** The `ValueError` raised for an unreadable image. */
  datatype ImageError = CannotOpen {
    function Message(): string { "Could not open image file" }
  }

  const ResultsPrefix := "/static/image_results/detected_"

  /** Where the annotated copy saved at second `timestamp` is served. */
  function ImageUrl(timestamp: int): string {
    ResultsPrefix + IntToString(timestamp) + ".jpg"
  }

  /** `process_image(path)` with `timestamp` the `int(time.time())` reading. */
  function ProcessImage(cfg: Config, img: Option<Frame>, timestamp: int): (r: Result<ImageResult, ImageError>)
    ensures r.Err? <==> img.None?
    ensures r.Ok? ==> r.value.url == ImageUrl(timestamp)
    ensures r.Ok? ==> r.value.summary.totalObjects == |r.value.objects|
    ensures r.Ok? ==> r.value.summary.totalPersons == |r.value.persons|
    ensures r.Ok? ==> r.value.summary.totalSigns == |r.value.signs|
  {
    match img
    case None => Err(CannotOpen)
    case Some(frame) =>
      var d := DetectObjects(cfg, frame);
      Ok(ImageResult(ImageUrl(timestamp), d.frameWidth, d.frameHeight,
                     ImageSummary(|d.objects|, d.personCount, |d.signs|),
                     d.objects, d.persons, d.signs))
  }

  /** A readable image's response passes the detector's lists through
      unchanged, reports its frame size as width and height, and counts
      the detector's persons by its `person_count`. */
  lemma ImagePassesDetectionsThrough(cfg: Config, frame: Frame, timestamp: int)
    ensures var r := ProcessImage(cfg, Some(frame), timestamp);
      var d := DetectObjects(cfg, frame);
      && r.Ok?
      && r.value.objects == d.objects && r.value.persons == d.persons && r.value.signs == d.signs
      && r.value.width == frame.width && r.value.height == frame.height
      && r.value.summary.totalPersons == d.personCount
  {
  }

  /** The url names the saving second: the text between the prefix and
      ".jpg" reads back as the timestamp. */
  lemma ImageUrlNamesTimestamp(timestamp: int)
    ensures var u := ImageUrl(timestamp);
      && |ResultsPrefix| + 4 <= |u|
      && u[..|ResultsPrefix|] == ResultsPrefix
      && EndsWith(u, ".jpg")
      && IsIntText(u[|ResultsPrefix|..|u| - 4])
      && ParseInt(u[|ResultsPrefix|..|u| - 4]) == timestamp
  {
    var u := ImageUrl(timestamp);
    var t := IntToString(timestamp);
    assert u[|ResultsPrefix|..|u| - 4] == t;
    assert u[|u| - 4..] == ".jpg";
    ParseIntToString(timestamp);
  }
}
