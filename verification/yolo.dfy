/** Post-processing of the two YOLO models' raw boxes into the
    objects / persons / traffic-sign buckets of `YOLOService.detect_objects`.
    The models themselves are inputs: each frame carries the boxes they
    returned, or `None` when the call raised. */
module Yolo {
  import opened Base
  import opened Text
  import opened Detections

  /** COCO ids of traffic light, stop sign, parking meter and fire hydrant. */
  const TrafficCocoIds: set<int> := {9, 11, 12, 13}

  /** Real-world width (metres) taken for every sign of the traffic model. */
  const TrafficSignWidth: real := 0.6

  /** One box of a model's output, already truncated to integer pixels. */
  datatype RawBox = RawBox(x1: int, y1: int, x2: int, y2: int, classId: int, confidence: real)

  /** What the service loads at start-up: the COCO catalog and the names
      table of the optional traffic-sign model (`None` when that model is
      not loaded). */
  datatype Config = Config(catalog: Catalog, trafficNames: Option<map<int, string>>)

  /** A frame as the detectors see it: its shape and what each model
      returned for it (`None`: the model call raised). */
  datatype Frame = Frame(
    height: nat,
    width: nat,
    general: Option<seq<RawBox>>,
    traffic: Option<seq<RawBox>>)

  datatype YoloResult = YoloResult(
    objects: seq<Detection>,
    persons: seq<Detection>,
    signs: seq<Detection>,
    personCount: nat,
    frameHeight: nat,
    frameWidth: nat)

  /** `get_position(frame_width, (x1 + x2) / 2)`: the box centre against
      the floor-divided thirds `w // 3` and `2 * (w // 3)`. */
  function PositionOf(frameWidth: nat, x1: int, x2: int): (p: Position)
    ensures p == Left <==> ((x1 + x2) as real) / 2.0 < (frameWidth / 3) as real
    ensures p == Center <==>
      (frameWidth / 3) as real <= ((x1 + x2) as real) / 2.0 < (2 * (frameWidth / 3)) as real
    ensures p == Right <==> (2 * (frameWidth / 3)) as real <= ((x1 + x2) as real) / 2.0
  {
    var third := frameWidth / 3;
    if x1 + x2 < 2 * third then Left
    else if x1 + x2 < 4 * third then Center
    else Right
  }

  /** A box further right never gets a position further left. */
  lemma PositionMonotone(frameWidth: nat, x1: int, x2: int, x1': int, x2': int)
    requires x1 + x2 <= x1' + x2'
    ensures PositionOf(frameWidth, x1, x2).Rank() <= PositionOf(frameWidth, x1', x2').Rank()
  {
  }

  /** Which list a kept general detection goes to. */
  datatype Bucket = Persons | Signs | Objects

  function BucketOf(classId: int): Bucket {
    if classId == 0 then Persons
    else if classId in TrafficCocoIds then Signs
    else Objects
  }

  /** A general box is skipped when its id is not below `len(classNames)`. */
  predicate Kept(cat: Catalog, b: RawBox) {
    b.classId < |cat.classNames|
  }

  /** Python indexing of the names fails only below `-len(classNames)`. */
  predicate Indexable(cat: Catalog, b: RawBox) {
    -|cat.classNames| <= b.classId
  }

  /** The record built for a kept general box, before bucketing. */
  function Describe(cat: Catalog, width: nat, b: RawBox): Detection
    requires Indexable(cat, b) && Kept(cat, b)
  {
    var lbl := PyLower(PyIndex(cat.classNames, b.classId).value);
    Detection(lbl, b.confidence, PositionOf(width, b.x1, b.x2),
              DistanceFor(cat, lbl, b.x2 - b.x1), Box(b.x1, b.y1, b.x2, b.y2), Untyped)
  }

  /** The three lists and the person counter of the general pass;
      `aborted` records that an `IndexError` ended the loop early. */
  datatype Buckets = Buckets(
    objects: seq<Detection>,
    persons: seq<Detection>,
    signs: seq<Detection>,
    personCount: nat,
    aborted: bool)

  const NoBuckets := Buckets([], [], [], 0, false)

  /** One iteration of the general-model loop. */
  function AddGeneral(cat: Catalog, width: nat, acc: Buckets, b: RawBox): Buckets {
    if acc.aborted || !Kept(cat, b) then acc
    else if !Indexable(cat, b) then acc.(aborted := true)
    else
      var d := Describe(cat, width, b);
      match BucketOf(b.classId)
      case Persons =>
        var count := acc.personCount + 1;
        acc.(personCount := count, persons := acc.persons + [d.(name := PersonLabel(count))])
      case Signs => acc.(signs := acc.signs + [d.(kind := TrafficSign)])
      case Objects => acc.(objects := acc.objects + [d])
  }

  /** The general-model loop over all boxes, in order. */
  function GeneralPass(cat: Catalog, width: nat, boxes: seq<RawBox>): (r: Buckets)
    ensures r.personCount == |r.persons|
    ensures forall i :: 0 <= i < |r.persons| ==> r.persons[i].name == PersonLabel(i + 1)
    ensures forall i :: 0 <= i < |r.signs| ==> r.signs[i].kind == TrafficSign
    ensures r.aborted <==> exists i :: 0 <= i < |boxes| && !Indexable(cat, boxes[i])
    decreases |boxes|
  {
    if |boxes| == 0 then NoBuckets
    else
      var init := boxes[..|boxes| - 1];
      var acc := GeneralPass(cat, width, init);
      assert forall i :: 0 <= i < |init| ==> init[i] == boxes[i];
      AddGeneral(cat, width, acc, boxes[|boxes| - 1])
  }

  /** Reference selection: the kept boxes of one bucket, in input order. */
  function Select(cat: Catalog, boxes: seq<RawBox>, k: Bucket): (r: seq<RawBox>)
    ensures forall i :: 0 <= i < |r| ==> Kept(cat, r[i]) && BucketOf(r[i].classId) == k
    ensures forall i :: 0 <= i < |r| ==> r[i] in boxes
    decreases |boxes|
  {
    if |boxes| == 0 then []
    else
      var init := boxes[..|boxes| - 1];
      var last := boxes[|boxes| - 1];
      Select(cat, init, k) + (if Kept(cat, last) && BucketOf(last.classId) == k then [last] else [])
  }

  /** The boxes the general pass keeps, whatever their bucket. */
  function KeptBoxes(cat: Catalog, boxes: seq<RawBox>): seq<RawBox>
    decreases |boxes|
  {
    if |boxes| == 0 then []
    else
      var init := boxes[..|boxes| - 1];
      var last := boxes[|boxes| - 1];
      KeptBoxes(cat, init) + (if Kept(cat, last) then [last] else [])
  }

  predicate NoIndexError(cat: Catalog, boxes: seq<RawBox>) {
    forall i :: 0 <= i < |boxes| ==> Indexable(cat, boxes[i])
  }

  /** Without an `IndexError`, each bucket holds exactly the described
      kept boxes of its class, in input order; persons are renamed
      "Person 1" .. "Person k" and COCO signs are tagged. */
  lemma {:induction false} GeneralPassBuckets(cat: Catalog, width: nat, boxes: seq<RawBox>)
    requires NoIndexError(cat, boxes)
    ensures var r := GeneralPass(cat, width, boxes);
      && |r.objects| == |Select(cat, boxes, Objects)|
      && |r.persons| == |Select(cat, boxes, Persons)|
      && |r.signs| == |Select(cat, boxes, Signs)|
      && (forall i :: 0 <= i < |r.objects| ==>
            r.objects[i] == Describe(cat, width, Select(cat, boxes, Objects)[i]))
      && (forall i :: 0 <= i < |r.persons| ==>
            r.persons[i] == Describe(cat, width, Select(cat, boxes, Persons)[i]).(name := PersonLabel(i + 1)))
      && (forall i :: 0 <= i < |r.signs| ==>
            r.signs[i] == Describe(cat, width, Select(cat, boxes, Signs)[i]).(kind := TrafficSign))
  {
    ObjectsBucket(cat, width, boxes);
    PersonsBucket(cat, width, boxes);
    SignsBucket(cat, width, boxes);
  }

  lemma NoIndexErrorInit(cat: Catalog, boxes: seq<RawBox>)
    requires NoIndexError(cat, boxes) && 0 < |boxes|
    ensures NoIndexError(cat, boxes[..|boxes| - 1]) && Indexable(cat, boxes[|boxes| - 1])
  {
    var init := boxes[..|boxes| - 1];
    forall i | 0 <= i < |init| ensures Indexable(cat, init[i]) {
      assert init[i] == boxes[i];
    }
  }

  lemma {:induction false} ObjectsBucket(cat: Catalog, width: nat, boxes: seq<RawBox>)
    requires NoIndexError(cat, boxes)
    ensures var r := GeneralPass(cat, width, boxes);
      && |r.objects| == |Select(cat, boxes, Objects)|
      && forall i :: 0 <= i < |r.objects| ==>
           r.objects[i] == Describe(cat, width, Select(cat, boxes, Objects)[i])
    decreases |boxes|
  {
    if |boxes| > 0 {
      NoIndexErrorInit(cat, boxes);
      ObjectsBucket(cat, width, boxes[..|boxes| - 1]);
    }
  }

  lemma {:induction false} PersonsBucket(cat: Catalog, width: nat, boxes: seq<RawBox>)
    requires NoIndexError(cat, boxes)
    ensures var r := GeneralPass(cat, width, boxes);
      && |r.persons| == |Select(cat, boxes, Persons)|
      && forall i :: 0 <= i < |r.persons| ==>
           r.persons[i] == Describe(cat, width, Select(cat, boxes, Persons)[i]).(name := PersonLabel(i + 1))
    decreases |boxes|
  {
    if |boxes| > 0 {
      NoIndexErrorInit(cat, boxes);
      PersonsBucket(cat, width, boxes[..|boxes| - 1]);
    }
  }

  lemma {:induction false} SignsBucket(cat: Catalog, width: nat, boxes: seq<RawBox>)
    requires NoIndexError(cat, boxes)
    ensures var r := GeneralPass(cat, width, boxes);
      && |r.signs| == |Select(cat, boxes, Signs)|
      && forall i :: 0 <= i < |r.signs| ==>
           r.signs[i] == Describe(cat, width, Select(cat, boxes, Signs)[i]).(kind := TrafficSign)
    decreases |boxes|
  {
    if |boxes| > 0 {
      NoIndexErrorInit(cat, boxes);
      SignsBucket(cat, width, boxes[..|boxes| - 1]);
    }
  }

  /** Each kept box lands in exactly one bucket: the bucket sizes add up
      to the number of kept boxes. */
  lemma {:induction false} BucketsPartitionKept(cat: Catalog, boxes: seq<RawBox>)
    ensures |Select(cat, boxes, Objects)| + |Select(cat, boxes, Persons)| + |Select(cat, boxes, Signs)|
            == |KeptBoxes(cat, boxes)|
    decreases |boxes|
  {
    if |boxes| > 0 {
      BucketsPartitionKept(cat, boxes[..|boxes| - 1]);
    }
  }

  /** A box whose class id is not below `len(classNames)` is dropped. */
  lemma {:induction false} DroppedBoxesAbsent(cat: Catalog, boxes: seq<RawBox>, b: RawBox)
    requires !Kept(cat, b)
    ensures b !in KeptBoxes(cat, boxes)
    decreases |boxes|
  {
    if |boxes| > 0 {
      DroppedBoxesAbsent(cat, boxes[..|boxes| - 1], b);
    }
  }

  /** Label of a traffic-model box: its lower-cased name when the model's
      names table has the id, `traffic_sign_<id>` otherwise. */
  function TrafficLabel(names: map<int, string>, classId: int): string {
    if classId in names then PyLower(names[classId]) else "traffic_sign_" + IntToString(classId)
  }

  function TrafficDetection(names: map<int, string>, width: nat, b: RawBox): Detection {
    Detection(TrafficLabel(names, b.classId), b.confidence, PositionOf(width, b.x1, b.x2),
              Some(Estimate(TrafficSignWidth, b.x2 - b.x1)), Box(b.x1, b.y1, b.x2, b.y2), TrafficSign)
  }

  /** The traffic-model loop: one tagged record per box, in order. */
  function TrafficPass(names: map<int, string>, width: nat, boxes: seq<RawBox>): (r: seq<Detection>)
    ensures |r| == |boxes|
    ensures forall i :: 0 <= i < |r| ==> r[i] == TrafficDetection(names, width, boxes[i])
  {
    seq(|boxes|, i requires 0 <= i < |boxes| => TrafficDetection(names, width, boxes[i]))
  }

  /** `detect_objects`: the general pass, then the traffic model's signs
      appended after the COCO ones. */
  function DetectObjects(cfg: Config, frame: Frame): (r: YoloResult)
    ensures r.frameHeight == frame.height && r.frameWidth == frame.width
    ensures r.personCount == |r.persons|
    ensures forall i :: 0 <= i < |r.persons| ==> r.persons[i].name == PersonLabel(i + 1)
    ensures forall i :: 0 <= i < |r.signs| ==> r.signs[i].kind == TrafficSign
  {
    var g := GeneralPass(cfg.catalog, frame.width, frame.general.GetOr([]));
    var extra :=
      if cfg.trafficNames.Some? && frame.traffic.Some?
      then TrafficPass(cfg.trafficNames.value, frame.width, frame.traffic.value)
      else [];
    YoloResult(g.objects, g.persons, g.signs + extra, g.personCount, frame.height, frame.width)
  }

  /** The traffic model only appends signs: objects, persons and the
      person count are those of a service without it, and the COCO signs
      come first, followed by one record per traffic-model box. */
  lemma TrafficModelOnlyAppendsSigns(cfg: Config, frame: Frame)
    requires cfg.trafficNames.Some? && frame.traffic.Some?
    ensures var withModel := DetectObjects(cfg, frame);
      var without := DetectObjects(cfg.(trafficNames := None), frame);
      && withModel.objects == without.objects
      && withModel.persons == without.persons
      && withModel.personCount == without.personCount
      && withModel.signs[..|without.signs|] == without.signs
      && |withModel.signs| == |without.signs| + |frame.traffic.value|
      && forall i :: 0 <= i < |frame.traffic.value| ==>
           withModel.signs[|without.signs| + i]
           == TrafficDetection(cfg.trafficNames.value, frame.width, frame.traffic.value[i])
  {
  }
}
