/**
 * `maximize_window.py`: the first window whose title contains the
 * argument is maximized, unless it already is.
 */
module MaximizeWindow {
  import opened Wrappers
  import opened Desktop

  /**
   * The desktop after maximizing the first window whose title contains
   * `title`, unless it reports itself maximized; maximizing also brings a
   * minimized window back. Nothing changes when no title matches.
   */
  function Maximized(ws: seq<Window>, title: string): (r: seq<Window>)
    ensures |r| == |ws| && forall i :: 0 <= i < |ws| ==> r[i].title == ws[i].title
    ensures FirstTitleMatch(ws, title).None? ==> r == ws
    ensures FirstTitleMatch(ws, title).Some? ==>
      var k := FirstTitleMatch(ws, title).value;
      r[k].maximized && (!ws[k].maximized ==> !r[k].minimized) && forall i :: 0 <= i < |ws| && i != k ==> r[i] == ws[i]
    ensures forall i :: 0 <= i < |ws| && ws[i].maximized ==> r[i] == ws[i]
  {
    match FirstTitleMatch(ws, title)
    case None => ws
    case Some(k) =>
      if ws[k].maximized then ws
      else ws[k := ws[k].(maximized := true, minimized := false)]
  }

  /** Maximizing twice is maximizing once: the second run finds the same window already maximized. */
  lemma MaximizeIdempotent(ws: seq<Window>, title: string)
    ensures Maximized(Maximized(ws, title), title) == Maximized(ws, title)
  {
    SameTitlesSameMatch(ws, Maximized(ws, title), title);
  }

  /**
   * A run: usage and exit 1 without an argument; exit 1 when no title
   * contains the argument; otherwise the first such window is maximized
   * (or reported as already maximized) and the run exits 0.
   */
  method Run(screen: Screen, argv: Argv) returns (exit: int, message: string)
    modifies screen
    ensures |argv| < 2 ==> exit == 1 && screen.windows == old(screen.windows)
    ensures |argv| >= 2 ==> screen.windows == Maximized(old(screen.windows), argv[1])
    ensures |argv| >= 2 ==> (exit == 0 <==> FirstTitleMatch(old(screen.windows), argv[1]).Some?)
    ensures exit == 0 || exit == 1
    ensures screen.focused == old(screen.focused)
  {
    if |argv| < 2 {
      return 1, "Usage: py maximize_window.py \"Window Title\"";
    }
    var found := FindWindow(screen.windows, argv[1]);
    if found.None? {
      return 1, "Error: Window containing '" + argv[1] + "' not found";
    }
    var k := found.value;
    var w := screen.windows[k];
    if !w.maximized {
      screen.windows := screen.windows[k := w.(maximized := true, minimized := false)];
      message := "Maximized: " + w.title;
    } else {
      message := "Already maximized: " + w.title;
    }
    exit := 0;
  }
}
