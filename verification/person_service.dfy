/** Post-processing of the Faster R-CNN person detector in
    `PersonService.detect_persons`. The network is an input: a frame
    carries its predictions (integer box, COCO label, score) in order. */
module PersonService {
  import opened Base
  import opened Text
  import opened Detections
  import Yolo

  /** COCO label of a person in torchvision's numbering. */
  const PersonClassId := 1

  /** A prediction is kept only when its score is strictly above this. */
  const ScoreThreshold: real := 0.6

  /** Average person height (metres) behind the distance estimate. */
  const KnownHeight: real := 1.7

  datatype Prediction = Prediction(box: Box, classLabel: int, score: real)

  datatype PersonFrame = PersonFrame(height: nat, width: nat, predictions: seq<Prediction>)

  /** The response; `objects` repeats `persons` for older clients. */
  datatype PersonResult = PersonResult(
    persons: seq<Detection>,
    personCount: nat,
    frameHeight: nat,
    frameWidth: nat,
    objects: seq<Detection>)

  predicate IsPerson(p: Prediction) {
    p.classLabel == PersonClassId && p.score > ScoreThreshold
  }

  /** The position rule of this service: the box centre against the
      true-division thirds `w / 3` and `2 * w / 3`. */
  function ThirdsPosition(frameWidth: nat, x1: int, x2: int): (p: Position)
    ensures p == Left <==> ((x1 + x2) as real) / 2.0 < (frameWidth as real) / 3.0
    ensures p == Center <==>
      (frameWidth as real) / 3.0 <= ((x1 + x2) as real) / 2.0 < 2.0 * (frameWidth as real) / 3.0
    ensures p == Right <==> 2.0 * (frameWidth as real) / 3.0 <= ((x1 + x2) as real) / 2.0
  {
    if 3 * (x1 + x2) < 2 * frameWidth then Left
    else if 3 * (x1 + x2) < 4 * frameWidth then Center
    else Right
  }

  /** The record of the k-th kept person. */
  function PersonDetection(width: nat, p: Prediction, k: nat): Detection {
    Detection(PersonLabel(k), p.score, ThirdsPosition(width, p.box.x1, p.box.x2),
              Some(Estimate(KnownHeight, p.box.y2 - p.box.y1)), p.box, Untyped)
  }

  /** Reference filter: the kept predictions, in input order. */
  function Kept(preds: seq<Prediction>): (r: seq<Prediction>)
    ensures forall i :: 0 <= i < |r| ==> IsPerson(r[i]) && r[i] in preds
    ensures |r| <= |preds|
    decreases |preds|
  {
    if |preds| == 0 then []
    else
      var init := preds[..|preds| - 1];
      var last := preds[|preds| - 1];
      Kept(init) + (if IsPerson(last) then [last] else [])
  }

  /** The loop: the kept list and the counter it increments. */
  function Collect(width: nat, preds: seq<Prediction>): (r: (seq<Detection>, nat))
    ensures r.1 == |r.0| == |Kept(preds)|
    ensures forall i :: 0 <= i < |r.0| ==> r.0[i] == PersonDetection(width, Kept(preds)[i], i + 1)
    decreases |preds|
  {
    if |preds| == 0 then ([], 0)
    else
      var (persons, count) := Collect(width, preds[..|preds| - 1]);
      var last := preds[|preds| - 1];
      if IsPerson(last) then
        var count' := count + 1;
        (persons + [PersonDetection(width, last, count')], count')
      else (persons, count)
  }

  /** `detect_persons`. */
  function DetectPersons(frame: PersonFrame): (r: PersonResult)
    ensures r.personCount == |r.persons| == |Kept(frame.predictions)|
    ensures forall i :: 0 <= i < |r.persons| ==> r.persons[i].name == PersonLabel(i + 1)
    ensures forall i :: 0 <= i < |r.persons| ==>
      var p := Kept(frame.predictions)[i];
      r.persons[i].box == p.box && r.persons[i].confidence == p.score
      && r.persons[i].position == ThirdsPosition(frame.width, p.box.x1, p.box.x2)
    ensures r.objects == r.persons
    ensures r.frameHeight == frame.height && r.frameWidth == frame.width
  {
    var (persons, count) := Collect(frame.width, frame.predictions);
    PersonResult(persons, count, frame.height, frame.width, persons)
  }

  /** A prediction is among the persons iff it has label 1 and a score
      strictly above 0.6; a score of exactly 0.6 is dropped. */
  lemma {:induction false} KeptIff(preds: seq<Prediction>, p: Prediction)
    ensures p in Kept(preds) <==> p in preds && IsPerson(p)
    decreases |preds|
  {
    if |preds| > 0 {
      var init := preds[..|preds| - 1];
      KeptIff(init, p);
      assert preds == init + [preds[|preds| - 1]];
    }
  }

  /** The true-division rule and the YOLO service's floor-division rule
      agree whenever the frame width is a multiple of 3. */
  lemma ThirdsAgreeOnMultiplesOfThree(frameWidth: nat, x1: int, x2: int)
    requires frameWidth % 3 == 0
    ensures ThirdsPosition(frameWidth, x1, x2) == Yolo.PositionOf(frameWidth, x1, x2)
  {
    var q := frameWidth / 3;
    assert frameWidth == 3 * q;
  }

  /** They differ otherwise: in an 11-pixel-wide frame a box centred at
      3.5 is in the centre third for the YOLO service (3 <= 3.5) and in
      the left third here (3.5 < 11 / 3). */
  lemma ThirdsRulesDiffer()
    ensures Yolo.PositionOf(11, 3, 4) == Center
    ensures ThirdsPosition(11, 3, 4) == Left
  {
  }
}
