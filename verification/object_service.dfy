/** Post-processing of the SSD detector in `ObjectService.detect_objects`:
    label lookup by 1-based class id, `(x, y, w, h)` to corner boxes, and
    the left-edge position rule. The network and its non-maximum
    suppression are inputs: a frame carries the boxes NMS kept, in order. */
module ObjectService {
  import opened Base
  import opened Text
  import opened Detections
  import Yolo

  /** One kept SSD box in `(x, y, w, h)` form. */
  datatype SsdBox = SsdBox(x: int, y: int, w: int, h: int, classId: int, confidence: real)

  datatype SsdFrame = SsdFrame(height: nat, width: nat, kept: seq<SsdBox>)

  datatype ObjectResult = ObjectResult(objects: seq<Detection>, frameHeight: nat, frameWidth: nat)

  /** The one way `detect_objects` raises: `classNames[class_id - 1]`
      outside the list. */
  datatype ObjectError = IndexError

  /** `get_position(frame_width, box)`: the box's LEFT EDGE `x` against
      `w // 3` and `2 * (w // 3)`. */
  function EdgePosition(frameWidth: nat, x: int): (p: Position)
    ensures p == Left <==> x < frameWidth / 3
    ensures p == Center <==> frameWidth / 3 <= x < 2 * (frameWidth / 3)
    ensures p == Right <==> 2 * (frameWidth / 3) <= x
  {
    if x < frameWidth / 3 then Left
    else if x < 2 * (frameWidth / 3) then Center
    else Right
  }

  /** Judging by the left edge never places a box of non-negative width
      further right than judging by its centre, as the YOLO service does. */
  lemma EdgeNotRightOfCentre(frameWidth: nat, b: SsdBox)
    requires 0 <= b.w
    ensures EdgePosition(frameWidth, b.x).Rank() <= Yolo.PositionOf(frameWidth, b.x, b.x + b.w).Rank()
  {
  }

  /** `[x, y, x + w, y + h]`. */
  function ToCorners(b: SsdBox): Box {
    Box(b.x, b.y, b.x + b.w, b.y + b.h)
  }

  /** Corners back to origin and extent. */
  function ToExtent(c: Box): (int, int, int, int) {
    (c.x1, c.y1, c.x2 - c.x1, c.y2 - c.y1)
  }

  /** The corner box keeps all of `(x, y, w, h)`: converting back gives
      the input, and converting a box's extent again gives the box. */
  lemma CornersRoundTrip(b: SsdBox, c: Box)
    ensures ToExtent(ToCorners(b)) == (b.x, b.y, b.w, b.h)
    ensures var (x, y, w, h) := ToExtent(c); ToCorners(SsdBox(x, y, w, h, 0, 0.0)) == c
  {
  }

  /** `classNames[class_id - 1].lower()`: ids are 1-based, and Python's
      negative indexing makes id 0 name the last class. */
  function LabelOf(cat: Catalog, classId: int): (r: Option<string>)
    ensures r.Some? <==> 1 - |cat.classNames| <= classId <= |cat.classNames|
    ensures 1 <= classId <= |cat.classNames| ==> r == Some(PyLower(cat.classNames[classId - 1]))
    ensures classId == 0 && |cat.classNames| > 0 ==>
      r == Some(PyLower(cat.classNames[|cat.classNames| - 1]))
  {
    match PyIndex(cat.classNames, classId - 1)
    case None => None
    case Some(n) => Some(PyLower(n))
  }

  function SsdDetection(cat: Catalog, width: nat, b: SsdBox): Detection
    requires LabelOf(cat, b.classId).Some?
  {
    var lbl := LabelOf(cat, b.classId).value;
    Detection(lbl, b.confidence, EdgePosition(width, b.x), DistanceFor(cat, lbl, b.w), ToCorners(b), Untyped)
  }

  /** The loop over the kept boxes; it raises on the first unknown id. */
  function DescribeAll(cat: Catalog, width: nat, boxes: seq<SsdBox>): (r: Result<seq<Detection>, ObjectError>)
    ensures r.Ok? <==> forall i :: 0 <= i < |boxes| ==> LabelOf(cat, boxes[i].classId).Some?
    ensures r.Ok? ==> |r.value| == |boxes|
    ensures r.Ok? ==> forall i :: 0 <= i < |boxes| ==> r.value[i] == SsdDetection(cat, width, boxes[i])
    decreases |boxes|
  {
    if |boxes| == 0 then Ok([])
    else if LabelOf(cat, boxes[0].classId).None? then Err(IndexError)
    else
      match DescribeAll(cat, width, boxes[1..])
      case Err(e) => Err(e)
      case Ok(rest) => Ok([SsdDetection(cat, width, boxes[0])] + rest)
  }

  /** `detect_objects`: no kept boxes give no objects; the frame shape is
      passed through. */
  function DetectObjects(cat: Catalog, frame: SsdFrame): (r: Result<ObjectResult, ObjectError>)
    ensures r.Ok? ==> r.value.frameHeight == frame.height && r.value.frameWidth == frame.width
    ensures |frame.kept| == 0 ==> r == Ok(ObjectResult([], frame.height, frame.width))
    ensures r.Ok? <==> forall i :: 0 <= i < |frame.kept| ==> LabelOf(cat, frame.kept[i].classId).Some?
    ensures r.Ok? ==> |r.value.objects| == |frame.kept| && forall i :: 0 <= i < |frame.kept| ==>
      && r.value.objects[i].box == ToCorners(frame.kept[i])
      && r.value.objects[i].position == EdgePosition(frame.width, frame.kept[i].x)
      && (r.value.objects[i].distance.None? <==>
            r.value.objects[i].name !in cat.averageSizes || cat.averageSizes[r.value.objects[i].name] == 0.0)
  {
    match DescribeAll(cat, frame.width, frame.kept)
    case Err(e) => Err(e)
    case Ok(objects) => Ok(ObjectResult(objects, frame.height, frame.width))
  }
}
