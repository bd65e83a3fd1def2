/**
 * `minimize_window.py`: the first window whose title contains the
 * argument is minimized, unless it already is.
 */
module MinimizeWindow {
  import opened Wrappers
  import opened Desktop

  /** The desktop after minimizing the first window whose title contains `title`; nothing changes when none does. */
  function Minimized(ws: seq<Window>, title: string): (r: seq<Window>)
    ensures |r| == |ws| && forall i :: 0 <= i < |ws| ==> r[i].title == ws[i].title
    ensures FirstTitleMatch(ws, title).None? ==> r == ws
    ensures FirstTitleMatch(ws, title).Some? ==>
      var k := FirstTitleMatch(ws, title).value;
      r[k].minimized && forall i :: 0 <= i < |ws| && i != k ==> r[i] == ws[i]
    ensures forall i :: 0 <= i < |ws| && ws[i].minimized ==> r[i] == ws[i]
  {
    match FirstTitleMatch(ws, title)
    case None => ws
    case Some(k) =>
      if ws[k].minimized then ws else ws[k := ws[k].(minimized := true)]
  }

  /** Minimizing twice is minimizing once. */
  lemma MinimizeIdempotent(ws: seq<Window>, title: string)
    ensures Minimized(Minimized(ws, title), title) == Minimized(ws, title)
  {
    SameTitlesSameMatch(ws, Minimized(ws, title), title);
  }

  /**
   * A run: usage and exit 1 without an argument; exit 1 when no title
   * contains the argument; otherwise the first such window is minimized
   * (or reported as already minimized) and the run exits 0.
   */
  method Run(screen: Screen, argv: Argv) returns (exit: int, message: string)
    modifies screen
    ensures |argv| < 2 ==> exit == 1 && screen.windows == old(screen.windows)
    ensures |argv| >= 2 ==> screen.windows == Minimized(old(screen.windows), argv[1])
    ensures |argv| >= 2 ==> (exit == 0 <==> FirstTitleMatch(old(screen.windows), argv[1]).Some?)
    ensures exit == 0 || exit == 1
    ensures screen.focused == old(screen.focused)
  {
    if |argv| < 2 {
      return 1, "Usage: py minimize_window.py \"Window Title\"";
    }
    var found := FindWindow(screen.windows, argv[1]);
    if found.None? {
      return 1, "Error: Window containing '" + argv[1] + "' not found";
    }
    var k := found.value;
    var w := screen.windows[k];
    if !w.minimized {
      screen.windows := screen.windows[k := w.(minimized := true)];
      message := "Minimized: " + w.title;
    } else {
      message := "Already minimized: " + w.title;
    }
    exit := 0;
  }
}
