/**
 * `read_window.py`: the texts of the first window whose title contains the
 * argument, stripped, blank ones dropped, repeats removed.
 */
module ReadWindow {
  import opened Wrappers
  import Text
  import Seqs
  import opened Desktop

  /** The stripped, non-blank texts of the controls, in tree order. */
  function Texts(controls: seq<Control>): (r: seq<string>)
    ensures |r| <= |controls|
    ensures forall t :: t in r ==> t != ""
    ensures forall t :: t in r <==> exists c :: c in controls && Strip(c.text) == t && t != ""
  {
    if |controls| == 0 then []
    else
      var front := controls[..|controls| - 1];
      var c := controls[|controls| - 1];
      assert forall d :: d in controls <==> d in front || d == c;
      Texts(front) + (if Strip(c.text) != "" then [Strip(c.text)] else [])
  }

  /** The collecting loop: `if text and text.strip(): texts.append(text.strip())`. */
  method CollectTexts(controls: seq<Control>) returns (texts: seq<string>)
    ensures texts == Texts(controls)
  {
    texts := [];
    var i := 0;
    while i < |controls|
      invariant 0 <= i <= |controls|
      invariant texts == Texts(controls[..i])
    {
      assert controls[..i + 1][..i] == controls[..i];
      var t := Strip(controls[i].text);
      if controls[i].text != "" && t != "" {
        texts := texts + [t];
      }
      i := i + 1;
    }
    assert controls[..i] == controls;
  }

  /** Every text reported has no space at either end. */
  lemma TextsStripped(controls: seq<Control>)
    ensures forall t :: t in Texts(controls) ==> !IsPySpace(t[0]) && !IsPySpace(t[|t| - 1])
  {
    forall t | t in Texts(controls)
      ensures !IsPySpace(t[0]) && !IsPySpace(t[|t| - 1])
    {
      var c :| c in controls && Strip(c.text) == t && t != "";
      var _ := StripIsInfix(c.text);
    }
  }

  /**
   * A run: what it prints, one entry per `print`, and its exit status.
   * Usage and exit 1 without an argument; with no matching window the
   * error and the titled windows, exit 1; otherwise the distinct texts
   * joined by newlines, or "No text found" when there is none, exit 0.
   */
  method Run(argv: Argv, windows: seq<Window>) returns (exit: int, printed: seq<string>)
    ensures |argv| < 2 ==> exit == 1 && printed == ["Usage: py read_window.py \"Window Title\""]
    ensures |argv| >= 2 && FirstTitleMatch(windows, argv[1]).None? ==>
      exit == 1 && printed == ["Error: Window containing '" + argv[1] + "' not found", "\nAvailable windows:"] + TitleListing(windows)
    ensures |argv| >= 2 && FirstTitleMatch(windows, argv[1]).Some? ==>
      var w := windows[FirstTitleMatch(windows, argv[1]).value];
      exit == 0 &&
      (Texts(w.controls) != [] ==> printed == [Text.Join(Seqs.Dedup(Texts(w.controls)), "\n")]) &&
      (Texts(w.controls) == [] ==> printed == ["No text found in window: " + w.title])
  {
    if |argv| < 2 {
      return 1, ["Usage: py read_window.py \"Window Title\""];
    }
    var found := FindWindow(windows, argv[1]);
    if found.None? {
      var listing := ListTitles(windows);
      return 1, ["Error: Window containing '" + argv[1] + "' not found", "\nAvailable windows:"] + listing;
    }
    var w := windows[found.value];
    var texts := CollectTexts(w.controls);
    if |texts| > 0 {
      var unique := Seqs.DedupSeen(texts);
      printed := [Text.Join(unique, "\n")];
    } else {
      printed := ["No text found in window: " + w.title];
    }
    exit := 0;
  }

  /** The lines printed hold every stripped text once, in the order of first appearance. */
  lemma UniqueTextsInOrder(controls: seq<Control>)
    ensures var u := Seqs.Dedup(Texts(controls));
      (forall t :: t in u <==> t in Texts(controls)) &&
      (forall i, j :: 0 <= i < j < |u| ==> u[i] != u[j]) &&
      (forall i, j :: 0 <= i < j < |u| ==> Seqs.FirstPos(Texts(controls), u[i]) < Seqs.FirstPos(Texts(controls), u[j]))
  {
    Seqs.DedupKeepsFirstOrder(Texts(controls));
  }
}
