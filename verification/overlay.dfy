/** `getOverlayStyles`, the same on both camera screens: a detection box
    in source-frame pixels is scaled onto the displayed video. Sizes are
    real numbers; the `px` strings are not modelled. */
module Overlay {
  import opened Base
  import opened Detections

  /** A width and a height. */
  datatype Dims = Dims(width: real, height: real)

  /** JavaScript `x || 1` on a size. */
  function OrOne(x: real): (r: real)
    ensures r != 0.0
    ensures x != 0.0 ==> r == x
  {
    if x == 0.0 then 1.0 else x
  }

  /** The CSS placement of one box; `NoStyle` is the empty style object. */
  datatype Style = NoStyle | Placed(left: real, top: real, width: real, height: real)

  /** `frame`: the shown result's frame size (`None` without a result);
      `view`: the video element's rendered size (`None` without one). */
  function OverlayStyle(frame: Option<Dims>, view: Option<Dims>, box: Box): (s: Style)
    ensures s.NoStyle? <==> frame.None? || view.None?
  {
    if frame.None? || view.None? then NoStyle
    else
      var scaleX := OrOne(view.value.width) / OrOne(frame.value.width);
      var scaleY := OrOne(view.value.height) / OrOne(frame.value.height);
      Placed(box.x1 as real * scaleX, box.y1 as real * scaleY,
             (box.x2 - box.x1) as real * scaleX, (box.y2 - box.y1) as real * scaleY)
  }

  /** The placement is the box scaled: mapping it back through the inverse
      scale gives the box's corners again. */
  lemma OverlayInvertible(frame: Dims, view: Dims, box: Box)
    ensures var s := OverlayStyle(Some(frame), Some(view), box);
      var back := OrOne(frame.width) / OrOne(view.width);
      var backY := OrOne(frame.height) / OrOne(view.height);
      && s.Placed?
      && s.left * back == box.x1 as real
      && (s.left + s.width) * back == box.x2 as real
      && s.top * backY == box.y1 as real
      && (s.top + s.height) * backY == box.y2 as real
  {
    HorizontalInvertible(frame, view, box);
    VerticalInvertible(frame, view, box);
  }

  lemma HorizontalInvertible(frame: Dims, view: Dims, box: Box)
    ensures var s := OverlayStyle(Some(frame), Some(view), box);
      var back := OrOne(frame.width) / OrOne(view.width);
      && s.Placed?
      && s.left * back == box.x1 as real
      && (s.left + s.width) * back == box.x2 as real
  {
    var s := OverlayStyle(Some(frame), Some(view), box);
    PlacedScaled(frame, view, box);
    ScaleBack(box.x1 as real, box.x2 as real, OrOne(view.width), OrOne(frame.width), s.left, s.width);
  }

  lemma VerticalInvertible(frame: Dims, view: Dims, box: Box)
    ensures var s := OverlayStyle(Some(frame), Some(view), box);
      var back := OrOne(frame.height) / OrOne(view.height);
      && s.Placed?
      && s.top * back == box.y1 as real
      && (s.top + s.height) * back == box.y2 as real
  {
    var s := OverlayStyle(Some(frame), Some(view), box);
    PlacedScaled(frame, view, box);
    ScaleBack(box.y1 as real, box.y2 as real, OrOne(view.height), OrOne(frame.height), s.top, s.height);
  }

  /** The placement's fields, in terms of the two scale factors. */
  lemma PlacedScaled(frame: Dims, view: Dims, box: Box)
    ensures var sx := OrOne(view.width) / OrOne(frame.width);
      var sy := OrOne(view.height) / OrOne(frame.height);
      OverlayStyle(Some(frame), Some(view), box)
      == Placed(box.x1 as real * sx, box.y1 as real * sy,
                (box.x2 as real - box.x1 as real) * sx, (box.y2 as real - box.y1 as real) * sy)
  {
  }

  /** An offset a and a length b - a scaled by v / f map back through
      f / v to a and b. */
  lemma ScaleBack(a: real, b: real, v: real, f: real, offset: real, length: real)
    requires v != 0.0 && f != 0.0
    requires offset == a * (v / f) && length == (b - a) * (v / f)
    ensures offset * (f / v) == a && (offset + length) * (f / v) == b
  {
    var k, back := v / f, f / v;
    assert k * back == 1.0;
    assert a * k + (b - a) * k == b * k;
    assert a * k * back == a * (k * back);
    assert b * k * back == b * (k * back);
  }

  /** With the video shown at its frame's size the boxes are not moved. */
  lemma SameSizeIsIdentity(frame: Dims, box: Box)
    requires frame.width != 0.0 && frame.height != 0.0
    ensures OverlayStyle(Some(frame), Some(frame), box)
            == Placed(box.x1 as real, box.y1 as real, (box.x2 - box.x1) as real, (box.y2 - box.y1) as real)
  {
  }

  /** A box inside a frame of positive size stays inside the displayed
      video. */
  lemma OverlayInsideView(frame: Dims, view: Dims, box: Box)
    requires 0.0 < frame.width && 0.0 < frame.height && 0.0 < view.width && 0.0 < view.height
    requires 0 <= box.x1 <= box.x2 && box.x2 as real <= frame.width
    requires 0 <= box.y1 <= box.y2 && box.y2 as real <= frame.height
    ensures var s := OverlayStyle(Some(frame), Some(view), box);
      && s.Placed?
      && 0.0 <= s.left && 0.0 <= s.width && s.left + s.width <= view.width
      && 0.0 <= s.top && 0.0 <= s.height && s.top + s.height <= view.height
  {
    var sx := view.width / frame.width;
    var sy := view.height / frame.height;
    assert 0.0 < sx && 0.0 < sy;
    Within(box.x1 as real, box.x2 as real, frame.width, view.width);
    Within(box.y1 as real, box.y2 as real, frame.height, view.height);
  }

  lemma Within(a: real, b: real, f: real, v: real)
    requires 0.0 < f && 0.0 < v && 0.0 <= a <= b <= f
    ensures 0.0 <= a * (v / f) && 0.0 <= (b - a) * (v / f)
    ensures a * (v / f) + (b - a) * (v / f) <= v
  {
    var k := v / f;
    assert 0.0 < k;
    assert a * k + (b - a) * k == b * k;
    assert b * k <= f * k;
    assert f * k == v;
  }

  /** A 640x480 frame shown at 320x240: the box [100, 100, 200, 200]
      is drawn at 50, 50 with size 50 x 50. */
  lemma HalfSizeExample()
    ensures OverlayStyle(Some(Dims(640.0, 480.0)), Some(Dims(320.0, 240.0)), Box(100, 100, 200, 200))
            == Placed(50.0, 50.0, 50.0, 50.0)
  {
  }
}
