/**
 * `scroll.py`: scroll the mouse wheel up or down by a number of notches,
 * 120 wheel units to the notch.
 */
module Scroll {
  import opened Wrappers
  import Text
  import opened Desktop

  const UnitsPerNotch := 120

  /** What a run did: its exit status, the wheel units scrolled (none when it did not scroll), and the line it printed on standard output (none for the traceback of an uncaught error). */
  datatype Outcome = Outcome(exit: int, scrolled: Option<int>, message: string)

  /**
   * A run with arguments `argv` (the script's name first): usage and exit 1
   * with fewer than two arguments; exit 1 when the amount is not an
   * integer (the uncaught `ValueError`); "up" scrolls `amount * 120`,
   * "down" `-amount * 120`, and any other direction scrolls nothing and
   * exits 1.
   */
  function Scroll(argv: Argv): (r: Outcome)
    ensures |argv| < 3 ==> r == Outcome(1, None, "Usage: py scroll.py [up|down] amount")
    ensures r.scrolled.Some? <==> r.exit == 0
    ensures r.exit == 0 <==> |argv| >= 3 && PyInt(argv[2]).Some? && (argv[1] == "up" || argv[1] == "down")
    ensures r.exit == 0 && argv[1] == "up" ==> r.scrolled.value == PyInt(argv[2]).value * UnitsPerNotch
    ensures r.exit == 0 && argv[1] == "down" ==> r.scrolled.value == -PyInt(argv[2]).value * UnitsPerNotch
    ensures r.exit == 0 ==> r.message == "Scrolled " + argv[1] + " " + Text.IntToString(PyInt(argv[2]).value) + " notches"
    ensures r.exit != 0 ==> r.exit == 1
  {
    if |argv| < 3 then Outcome(1, None, "Usage: py scroll.py [up|down] amount")
    else
      var direction := argv[1];
      var amount := PyInt(argv[2]);
      if amount.None? then Outcome(1, None, "")
      else if direction == "up" then
        Outcome(0, Some(amount.value * UnitsPerNotch), "Scrolled " + direction + " " + Text.IntToString(amount.value) + " notches")
      else if direction == "down" then
        Outcome(0, Some(-amount.value * UnitsPerNotch), "Scrolled " + direction + " " + Text.IntToString(amount.value) + " notches")
      else Outcome(1, None, "Direction must be 'up' or 'down'")
  }

  /** The same amount up and down scrolls by opposite distances, a whole number of notches. */
  lemma UpUndoesDown(amount: int)
    ensures var up := Scroll(["scroll.py", "up", Text.IntToString(amount)]);
      var down := Scroll(["scroll.py", "down", Text.IntToString(amount)]);
      up.scrolled == Some(amount * UnitsPerNotch) && down.scrolled == Some(-amount * UnitsPerNotch)
  {
    PyIntRoundTrip(amount);
  }

  /** Any other direction, however it is cased, scrolls nothing. */
  lemma OtherDirectionScrollsNothing(argv: Argv)
    requires |argv| >= 3 && argv[1] != "up" && argv[1] != "down"
    ensures Scroll(argv).scrolled.None? && Scroll(argv).exit == 1
  {
  }
}
