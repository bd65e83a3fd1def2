/**
 * `focus_window.py`: the first window whose title contains the argument
 * is restored when minimized and then given the focus.
 */
module FocusWindow {
  import opened Wrappers
  import opened Desktop

  /** The windows after restoring the first match, when it is minimized; a restored window keeps its maximized state. */
  function Restored(ws: seq<Window>, title: string): (r: seq<Window>)
    ensures |r| == |ws| && forall i :: 0 <= i < |ws| ==> r[i].title == ws[i].title
    ensures forall i :: 0 <= i < |ws| && !ws[i].minimized ==> r[i] == ws[i]
    ensures FirstTitleMatch(ws, title).Some? ==>
      var k := FirstTitleMatch(ws, title).value;
      !r[k].minimized && r[k].maximized == ws[k].maximized && forall i :: 0 <= i < |ws| && i != k ==> r[i] == ws[i]
    ensures FirstTitleMatch(ws, title).None? ==> r == ws
  {
    match FirstTitleMatch(ws, title)
    case None => ws
    case Some(k) => if ws[k].minimized then ws[k := ws[k].(minimized := false)] else ws
  }

  /** Focusing again changes nothing more: the window is no longer minimized. */
  lemma RestoreIdempotent(ws: seq<Window>, title: string)
    ensures Restored(Restored(ws, title), title) == Restored(ws, title)
  {
    SameTitlesSameMatch(ws, Restored(ws, title), title);
  }

  /**
   * A run: usage and exit 1 without an argument; exit 1 with the focus
   * unchanged when no title contains the argument; otherwise the first
   * such window is restored if minimized, takes the focus, and the run
   * exits 0.
   */
  method Run(screen: Screen, argv: Argv) returns (exit: int, message: string)
    modifies screen
    ensures |argv| < 2 ==> exit == 1 && screen.windows == old(screen.windows) && screen.focused == old(screen.focused)
    ensures |argv| >= 2 ==> screen.windows == Restored(old(screen.windows), argv[1])
    ensures |argv| >= 2 ==> var m := FirstTitleMatch(old(screen.windows), argv[1]);
      (m.Some? ==> exit == 0 && screen.focused == m) &&
      (m.None? ==> exit == 1 && screen.focused == old(screen.focused))
  {
    if |argv| < 2 {
      return 1, "Usage: py focus_window.py \"Window Title\"";
    }
    var found := FindWindow(screen.windows, argv[1]);
    if found.None? {
      return 1, "Error: Window containing '" + argv[1] + "' not found";
    }
    var k := found.value;
    var w := screen.windows[k];
    if w.minimized {
      screen.windows := screen.windows[k := w.(minimized := false)];
    }
    screen.focused := Some(k);
    return 0, "Focused: " + w.title;
  }
}
