/** The frame poller both camera screens run: a repeating timer that
    captures the current video frame and posts it, guarded by a busy flag
    so that a tick arriving while a request is pending does nothing.
    Timers and requests are events: a tick is the timer firing, a
    settlement is a pending request finishing (successfully or not; both
    paths clear the flag in a `finally`). */
module Poller {
  import opened Base

  /** What a tick can see of the page: whether the video and canvas
      elements exist, the video's intrinsic and rendered sizes, and
      whether the canvas yields a 2-D context. */
  datatype Source = Source(
    hasVideo: bool,
    hasCanvas: bool,
    videoWidth: nat,
    videoHeight: nat,
    clientWidth: nat,
    clientHeight: nat,
    hasContext: bool)

  /** A captured frame, known by the size it was drawn at. */
  datatype Capture = Capture(width: nat, height: nat)

  /** JavaScript `a || b` on sizes: `b` when `a` is 0. */
  function OrElse(a: nat, b: nat): (r: nat)
    ensures r == 0 <==> a == 0 && b == 0
    ensures a != 0 ==> r == a
  {
    if a != 0 then a else b
  }

  /** The capture step of a tick: nothing when an element is missing,
      either size is 0, or there is no 2-D context. */
  function CaptureFrame(src: Source): (r: Option<Capture>)
    ensures r.None? <==>
      || !src.hasVideo || !src.hasCanvas
      || (src.videoWidth == 0 && src.clientWidth == 0)
      || (src.videoHeight == 0 && src.clientHeight == 0)
      || !src.hasContext
    ensures r.Some? ==>
      && 0 < r.value.width && 0 < r.value.height
      && r.value.width == OrElse(src.videoWidth, src.clientWidth)
      && r.value.height == OrElse(src.videoHeight, src.clientHeight)
  {
    if !src.hasVideo || !src.hasCanvas then None
    else
      var w := OrElse(src.videoWidth, src.clientWidth);
      var h := OrElse(src.videoHeight, src.clientHeight);
      if w == 0 || h == 0 then None
      else if !src.hasContext then None
      else Some(Capture(w, h))
  }

  /** The poller: whether the repeating timer exists, the busy flag, and
      the frames whose requests have not finished yet, oldest first. */
  datatype Loop = Loop(timer: bool, busy: bool, pending: seq<Capture>)

  const Idle := Loop(false, false, [])

  /** One detection attempt (`detectFrame` / `runDetection`) up to its
      request being sent. */
  function Tick(l: Loop, src: Source): (r: Loop)
    ensures l.busy ==> r == l
    ensures CaptureFrame(src).None? ==> r == l
    ensures !l.busy && CaptureFrame(src).Some? ==>
      r == Loop(l.timer, true, l.pending + [CaptureFrame(src).value])
  {
    if l.busy then l
    else match CaptureFrame(src)
      case None => l
      case Some(c) => l.(busy := true, pending := l.pending + [c])
  }

  /** `startDetectionLoop`: nothing when the timer exists; otherwise one
      immediate attempt, then the timer. */
  function Start(l: Loop, src: Source): (r: Loop)
    ensures l.timer ==> r == l
    ensures !l.timer ==> r == Tick(l, src).(timer := true)
    ensures r.timer
  {
    if l.timer then l else Tick(l, src).(timer := true)
  }

  /** `stopDetectionLoop` / `clearDetectionLoop`: clear the timer and the
      busy flag. Requests already sent are not cancelled. */
  function Stop(l: Loop): (r: Loop)
    ensures !r.timer && !r.busy && r.pending == l.pending
  {
    Loop(false, false, l.pending)
  }

  /** Request `k` finished; its `finally` clears the busy flag. */
  function Settle(l: Loop, k: nat): (r: Loop)
    requires k < |l.pending|
    ensures !r.busy && r.timer == l.timer
    ensures |r.pending| == |l.pending| - 1
    ensures r.pending == l.pending[..k] + l.pending[k + 1..]
  {
    Loop(l.timer, false, l.pending[..k] + l.pending[k + 1..])
  }

  datatype LoopEvent = Started(src: Source) | Fired(src: Source) | Settled(k: nat) | Stopped

  /** One event; a timer that does not exist does not fire, and only a
      pending request can finish. */
  function Step(l: Loop, e: LoopEvent): Loop {
    match e
    case Started(src) => Start(l, src)
    case Fired(src) => if l.timer then Tick(l, src) else l
    case Settled(k) => if k < |l.pending| then Settle(l, k) else l
    case Stopped => Stop(l)
  }

  function Run(l: Loop, events: seq<LoopEvent>): Loop
    decreases |events|
  {
    if |events| == 0 then l else Run(Step(l, events[0]), events[1..])
  }

  /** The busy flag tracks the single pending request. */
  predicate Guarded(l: Loop) {
    |l.pending| <= 1 && (l.busy <==> |l.pending| == 1)
  }

  /** The traces in which the loop is never stopped while a request is
      pending. */
  predicate StopsWhenQuiet(l: Loop, events: seq<LoopEvent>)
    decreases |events|
  {
    |events| == 0
    || ((events[0].Stopped? ==> l.pending == []) && StopsWhenQuiet(Step(l, events[0]), events[1..]))
  }

  lemma StepKeepsGuard(l: Loop, e: LoopEvent)
    requires Guarded(l)
    requires e.Stopped? ==> l.pending == []
    ensures Guarded(Step(l, e))
  {
  }

  /** While the loop is not stopped with a request pending, at most one
      request is ever in flight and the busy flag says whether one is. */
  lemma {:induction false} AtMostOneInFlight(l: Loop, events: seq<LoopEvent>)
    requires Guarded(l) && StopsWhenQuiet(l, events)
    ensures Guarded(Run(l, events))
    decreases |events|
  {
    if |events| > 0 {
      StepKeepsGuard(l, events[0]);
      AtMostOneInFlight(Step(l, events[0]), events[1..]);
    }
  }

  /** The poller's guarantee from a fresh screen. */
  lemma FromIdleAtMostOneInFlight(events: seq<LoopEvent>)
    requires StopsWhenQuiet(Idle, events)
    ensures |Run(Idle, events).pending| <= 1
  {
    AtMostOneInFlight(Idle, events);
  }

  /** Stopping clears the flag without waiting for the pending request,
      so stopping and restarting at once puts a second request in flight. */
  lemma RestartDuringRequestDoublesInFlight(src: Source)
    requires CaptureFrame(src).Some?
    ensures |Run(Idle, [Started(src), Stopped, Started(src)]).pending| == 2
  {
    var l1 := Step(Idle, Started(src));
    assert |l1.pending| == 1;
    var l2 := Step(l1, Stopped);
    var l3 := Step(l2, Started(src));
    assert |l3.pending| == 2;
    assert Run(Idle, [Started(src), Stopped, Started(src)]) == Run(l1, [Stopped, Started(src)]);
    assert Run(l1, [Stopped, Started(src)]) == Run(l2, [Started(src)]);
    assert Run(l2, [Started(src)]) == Run(l3, []);
  }
}
