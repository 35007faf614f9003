/** The person-counting screen: the same poller as the object screen, a
    start/stop toggle, the person-count status line, and the overlay. The
    reply is stored as received, without normalisation. */
module PersonScreen {
  import opened Base
  import opened Detections
  import opened Poller
  import opened StatusText
  import opened Overlay
  import ObjectScreen

  const IdleText := "Idle"
  const ReadyText := "Camera ready. Starting detection..."
  const AnalyzingText := "Analyzing people\U{2026}"
  const FailedText := "Detection failed"
  const StoppedText := "Camera stopped"
  const DeniedText := "Camera access denied"

  /** A `/detect_persons` reply as parsed JSON; `None` marks a missing
      field. */
  datatype Reply = Reply(
    persons: seq<Detection>,
    personCount: Option<int>,
    frameHeight: Option<int>,
    frameWidth: Option<int>)

  datatype Screen = Screen(
    loop: Loop,
    active: bool,
    result: Option<Reply>,
    status: string,
    lastUpdated: Option<int>)

  const Initial := Screen(Idle, false, None, IdleText, None)

  /** One `runDetection` attempt up to its request. */
  function Detect(s: Screen, src: Source): (r: Screen)
    ensures r.loop == Tick(s.loop, src)
    ensures s.loop.busy || CaptureFrame(src).None? ==> r == s
    ensures !s.loop.busy && CaptureFrame(src).Some? ==> r == s.(loop := r.loop, status := AnalyzingText)
  {
    if !s.loop.busy && CaptureFrame(src).Some? then s.(loop := Tick(s.loop, src), status := AnalyzingText)
    else s
  }

  /** The camera's metadata loaded: the screen is active and the loop
      starts; the status says the camera is ready unless the loop's first
      attempt already sent a frame. The shown result is kept. */
  function OnCameraReady(s: Screen, src: Source): (r: Screen)
    ensures r.active && r.loop == Start(s.loop, src)
    ensures r.status == if !s.loop.timer && !s.loop.busy && CaptureFrame(src).Some? then AnalyzingText else ReadyText
    ensures r.result == s.result && r.lastUpdated == s.lastUpdated
  {
    var ready := s.(active := true, status := ReadyText);
    if s.loop.timer then ready else Detect(ready, src).(loop := Start(s.loop, src))
  }

  /** Request `k` finished with `reply` (`None`: it failed). */
  function OnResponse(s: Screen, k: nat, reply: Option<Reply>, now: int): (r: Screen)
    ensures k >= |s.loop.pending| ==> r == s
    ensures k < |s.loop.pending| ==> r.loop == Settle(s.loop, k) && r.active == s.active
    ensures k < |s.loop.pending| && reply.Some? ==>
      && r.result == reply && r.lastUpdated == Some(now)
      && r.status == PersonStatus(reply.value.personCount)
    ensures k < |s.loop.pending| && reply.None? ==>
      r.result == s.result && r.lastUpdated == s.lastUpdated && r.status == FailedText
  {
    if k >= |s.loop.pending| then s
    else
      var settled := s.(loop := Settle(s.loop, k));
      match reply
      case None => settled.(status := FailedText)
      case Some(raw) => settled.(result := Some(raw), lastUpdated := Some(now), status := PersonStatus(raw.personCount))
  }

  /** `stopCamera`: whatever the screen was doing, it ends inactive with
      no result, no timestamp and the stopped status. */
  function StopCamera(s: Screen): (r: Screen)
    ensures !r.active && r.result.None? && r.lastUpdated.None? && r.status == StoppedText
    ensures !r.loop.timer && !r.loop.busy && r.loop.pending == s.loop.pending
  {
    Screen(Stop(s.loop), false, None, StoppedText, None)
  }

  /** Stopping twice is stopping once. */
  lemma StopCameraIdempotent(s: Screen)
    ensures StopCamera(StopCamera(s)) == StopCamera(s)
  {
  }

  /** `handleToggleCounting`: stop when active; otherwise ask for the
      camera (the returned flag), which later yields a ready or denied
      event. */
  function Toggle(s: Screen): (r: (Screen, bool))
    ensures s.active ==> r == (StopCamera(s), false)
    ensures !s.active ==> r == (s, true)
  {
    if s.active then (StopCamera(s), false) else (s, true)
  }

  datatype Event =
    | ToggleCounting
    | CameraReady(src: Source)
    | CameraDenied
    | TimerFired(src: Source)
    | Response(k: nat, reply: Option<Reply>, now: int)

  function Step(s: Screen, e: Event): Screen {
    match e
    case ToggleCounting => Toggle(s).0
    case CameraReady(src) => OnCameraReady(s, src)
    case CameraDenied => s.(status := DeniedText)
    case TimerFired(src) => if s.loop.timer then Detect(s, src) else s
    case Response(k, reply, now) => OnResponse(s, k, reply, now)
  }

  function RunScreen(s: Screen, events: seq<Event>): Screen
    decreases |events|
  {
    if |events| == 0 then s else RunScreen(Step(s, events[0]), events[1..])
  }

  /** The poller event of one screen event, if any: a toggle that stops
      the camera stops the loop. */
  function LoopEventOf(s: Screen, e: Event): Option<LoopEvent> {
    match e
    case ToggleCounting => if s.active then Some(Stopped) else None
    case CameraReady(src) => Some(Started(src))
    case CameraDenied => None
    case TimerFired(src) => Some(Fired(src))
    case Response(k, _, _) => Some(Settled(k))
  }

  function LoopEvents(s: Screen, events: seq<Event>): seq<LoopEvent>
    decreases |events|
  {
    if |events| == 0 then []
    else
      var head := LoopEventOf(s, events[0]);
      (if head.Some? then [head.value] else []) + LoopEvents(Step(s, events[0]), events[1..])
  }

  lemma {:induction false} ScreenRunsPoller(s: Screen, events: seq<Event>)
    ensures RunScreen(s, events).loop == Run(s.loop, LoopEvents(s, events))
    decreases |events|
  {
    if |events| > 0 {
      var e := events[0];
      var next := Step(s, e);
      ScreenRunsPoller(next, events[1..]);
      var head := LoopEventOf(s, e);
      if head.Some? {
        assert next.loop == Poller.Step(s.loop, head.value);
        assert LoopEvents(s, events)[1..] == LoopEvents(next, events[1..]);
      } else {
        assert next.loop == s.loop;
        assert LoopEvents(s, events) == LoopEvents(next, events[1..]);
      }
    }
  }

  /** From a fresh screen, unless counting is stopped while a request is
      pending, at most one request is in flight. */
  lemma ScreenAtMostOneInFlight(events: seq<Event>)
    requires StopsWhenQuiet(Idle, LoopEvents(Initial, events))
    ensures |RunScreen(Initial, events).loop.pending| <= 1
  {
    ScreenRunsPoller(Initial, events);
    FromIdleAtMostOneInFlight(LoopEvents(Initial, events));
  }

  /** The overlay of a box over the stored reply; a missing frame size
      reads as 0 and so, like a zero one, as 1. */
  function BoxOverlay(s: Screen, view: Option<Dims>, box: Box): (st: Style)
    ensures st.NoStyle? <==> s.result.None? || view.None?
  {
    var frame :=
      if s.result.Some?
      then Some(Dims(s.result.value.frameWidth.GetOr(0) as real, s.result.value.frameHeight.GetOr(0) as real))
      else None;
    OverlayStyle(frame, view, box)
  }

  /** The two screens place a box alike: for a reply that reports its
      frame size, this screen's overlay equals the object screen's over
      the same sizes. */
  lemma OverlayMatchesObjectScreen(s: Screen, o: ObjectScreen.Screen, view: Option<Dims>, box: Box)
    requires s.result.Some? && o.shown.Some?
    requires s.result.value.frameWidth == Some(o.shown.value.frameWidth)
    requires s.result.value.frameHeight == Some(o.shown.value.frameHeight)
    ensures BoxOverlay(s, view, box) == ObjectScreen.BoxOverlay(o, view, box)
  {
  }
}
