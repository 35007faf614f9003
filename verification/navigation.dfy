/** The navigation page's two flags: Start while not navigating,
    pause/resume and Stop while navigating, and the banner they select. */
module Navigation {
  import opened Base

  datatype Nav = Nav(navigating: bool, paused: bool)

  const Initial := Nav(false, false)

  datatype Control = StartNav | TogglePause | StopNav

  /** The buttons rendered in a state. */
  function Offered(n: Nav): (r: set<Control>)
    ensures StartNav in r <==> !n.navigating
    ensures TogglePause in r <==> n.navigating
    ensures StopNav in r <==> n.navigating
  {
    if n.navigating then {TogglePause, StopNav} else {StartNav}
  }

  /** Pressing a button; a button that is not rendered cannot be pressed,
      so it changes nothing. */
  function Press(n: Nav, c: Control): (r: Nav)
    ensures c !in Offered(n) ==> r == n
    ensures c == StartNav && !n.navigating ==> r == n.(navigating := true)
    ensures c == TogglePause && n.navigating ==> r == n.(paused := !n.paused)
    ensures c == StopNav && n.navigating ==> r == Initial
  {
    if c !in Offered(n) then n
    else
      match c
      case StartNav => n.(navigating := true)
      case TogglePause => n.(paused := !n.paused)
      case StopNav => Nav(false, false)
  }

  function Run(n: Nav, presses: seq<Control>): Nav
    decreases |presses|
  {
    if |presses| == 0 then n else Run(Press(n, presses[0]), presses[1..])
  }

  predicate Consistent(n: Nav) {
    n.paused ==> n.navigating
  }

  /** Every press keeps "paused only while navigating". */
  lemma PressKeepsConsistent(n: Nav, c: Control)
    requires Consistent(n)
    ensures Consistent(Press(n, c))
  {
  }

  /** Whatever buttons are pressed from the first render, the page is
      never paused without navigating. */
  lemma {:induction false} ReachableIsConsistent(n: Nav, presses: seq<Control>)
    requires Consistent(n)
    ensures Consistent(Run(n, presses))
    decreases |presses|
  {
    if |presses| > 0 {
      PressKeepsConsistent(n, presses[0]);
      ReachableIsConsistent(Press(n, presses[0]), presses[1..]);
    }
  }

  /** Stopping returns to the first render, whatever came before. */
  lemma StopResets(presses: seq<Control>)
    requires Run(Initial, presses).navigating
    ensures Press(Run(Initial, presses), StopNav) == Initial
  {
  }

  const PausedText := "Navigation Paused"
  const GuidanceText := "Continue straight for 5 meters"

  /** The banner over the camera view. */
  function Banner(n: Nav): (r: Option<string>)
    ensures r.None? <==> !n.navigating
    ensures r == Some(PausedText) <==> n.navigating && n.paused
    ensures r == Some(GuidanceText) <==> n.navigating && !n.paused
  {
    if !n.navigating then None
    else if n.paused then Some(PausedText)
    else Some(GuidanceText)
  }

  /** In every state, not only the reachable ones, the banner agrees with
      the buttons: it is shown iff Stop is offered, it reads "Navigation
      Paused" iff pause/resume would bring the guidance back, and Stop
      always removes it. */
  lemma BannerMatchesButtons(n: Nav)
    ensures Banner(n).Some? <==> StopNav in Offered(n)
    ensures Banner(n) == Some(PausedText) <==> Banner(Press(n, TogglePause)) == Some(GuidanceText)
    ensures Banner(Press(n, StopNav)).None?
  {
  }
}
