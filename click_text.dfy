/**
 * `click_text.py`: the same search as `find_text.py`, run with a `found`
 * flag and `break`s, clicking the centre of the first control hit.
 */
module ClickText {
  import opened Wrappers
  import opened Desktop
  import opened FindText

  /** The points a click run produces on windows `ws`: the centre of the first hit, or none. */
  function ClicksFor(ws: seq<Window>, query: string): (clicks: seq<(int, int)>)
    ensures |clicks| <= 1
    ensures |clicks| == 1 <==> FirstTextHit(ws, query, true, 0).Some?
  {
    var h := FirstTextHit(ws, query, true, 0);
    if h.Some? then [Center(ws[h.value.0].controls[h.value.1].rect)] else []
  }

  /** Control `control` of window `window`, in the order the search visits them. */
  datatype Slot = Slot(window: nat, control: nat)

  /**
   * The windows as the click search sees them: `clickOk(Slot(a, b))` says
   * whether clicking control `b` of window `a` goes through, and a control
   * whose click raises is passed over by the bare `except`, exactly as a
   * control without text is.
   */
  function Masked(ws: seq<Window>, clickOk: Slot -> bool): (r: seq<Window>)
    ensures |r| == |ws|
    ensures forall a :: 0 <= a < |ws| ==> r[a].title == ws[a].title && |r[a].controls| == |ws[a].controls|
    ensures forall a, b :: 0 <= a < |ws| && 0 <= b < |ws[a].controls| ==>
      r[a].controls[b] == (if clickOk(Slot(a, b)) then ws[a].controls[b] else ws[a].controls[b].(text := ""))
  {
    seq(|ws|, a requires 0 <= a < |ws| =>
      ws[a].(controls := seq(|ws[a].controls|, b requires 0 <= b < |ws[a].controls| =>
        if clickOk(Slot(a, b)) then ws[a].controls[b] else ws[a].controls[b].(text := ""))))
  }

  /** When every click goes through, the search sees the windows as they are. */
  lemma CleanClicksUnmasked(ws: seq<Window>, clickOk: Slot -> bool)
    requires forall a, b :: 0 <= a < |ws| && 0 <= b < |ws[a].controls| ==> clickOk(Slot(a, b))
    ensures Masked(ws, clickOk) == ws
  {
    var m := Masked(ws, clickOk);
    forall a | 0 <= a < |ws|
      ensures m[a] == ws[a]
    {
      assert m[a].controls == ws[a].controls;
    }
  }

  /** A raising click on the first hit moves the click on to the next hit. */
  lemma RaisingClickMovesOn(w: Window, query: string, clickOk: Slot -> bool)
    requires w.title != "" && |w.controls| == 2
    requires TextHit(w.controls[0], query) && TextHit(w.controls[1], query)
    requires !clickOk(Slot(0, 0)) && clickOk(Slot(0, 1))
    ensures ClicksFor(Masked([w], clickOk), query) == [Center(w.controls[1].rect)]
  {
    var m := Masked([w], clickOk);
    assert !TextHit(m[0].controls[0], query);
    assert TextHit(m[0].controls[1], query);
    FirstTextHitAt(m, query, true, 0, 1);
  }

  /** A control is a hit of the click search exactly when it is a text hit whose click goes through. */
  lemma MaskedHit(ws: seq<Window>, clickOk: Slot -> bool, query: string, i: nat, j: nat)
    requires i < |ws| && j < |ws[i].controls|
    ensures j < |Masked(ws, clickOk)[i].controls|
    ensures TextHit(Masked(ws, clickOk)[i].controls[j], query) <==> TextHit(ws[i].controls[j], query) && clickOk(Slot(i, j))
  {
  }

  /** A window skipped or without hits extends the stretch of windows without hits. */
  lemma NoHitExtend(ws: seq<Window>, query: string, i: nat)
    requires i < |ws| && NoHitFrom(ws, query, true, 0, i)
    requires ws[i].title != "" ==> forall b :: 0 <= b < |ws[i].controls| ==> !TextHit(ws[i].controls[b], query)
    ensures NoHitFrom(ws, query, true, 0, i + 1)
  {
  }

  /** The nested loops with the `found` flag: the first hit whose click goes through is clicked, and both loops left. */
  method ClickFirst(ws: seq<Window>, query: string, clickOk: Slot -> bool) returns (found: bool, clicks: seq<(int, int)>)
    ensures found <==> FirstTextHit(Masked(ws, clickOk), query, true, 0).Some?
    ensures clicks == ClicksFor(Masked(ws, clickOk), query)
  {
    ghost var m := Masked(ws, clickOk);
    clicks := [];
    found := false;
    var i := 0;
    while i < |ws|
      invariant 0 <= i <= |ws|
      invariant !found && clicks == [] && NoHitFrom(m, query, true, 0, i)
    {
      if ws[i].title != "" {
        var controls := ws[i].controls;
        var j := 0;
        while j < |controls|
          invariant 0 <= j <= |controls| == |m[i].controls|
          invariant !found && clicks == [] && forall b :: 0 <= b < j ==> !TextHit(m[i].controls[b], query)
        {
          MaskedHit(ws, clickOk, query, i, j);
          if TextHit(controls[j], query) && clickOk(Slot(i, j)) {
            FirstTextHitAt(m, query, true, i, j);
            assert m[i].controls[j].rect == controls[j].rect;
            clicks := clicks + [Center(controls[j].rect)];
            found := true;
            break;
          }
          j := j + 1;
        }
        if found {
          break;
        }
      }
      NoHitExtend(m, query, i);
      i := i + 1;
    }
  }

  /**
   * A run: usage and exit 1 without a query; otherwise exactly one click,
   * at the centre of the first hit whose click goes through, with exit 0,
   * or no click and exit 1 when no such hit exists. `clicks` lists the
   * points clicked.
   */
  method Run(argv: Argv, windows: seq<Window>, clickOk: Slot -> bool) returns (exit: int, clicks: seq<(int, int)>)
    ensures |argv| < 2 ==> exit == 1 && clicks == []
    ensures |argv| >= 2 ==> clicks == ClicksFor(Masked(SearchWindows(windows, FilterArg(argv)), clickOk), argv[1])
    ensures |argv| >= 2 ==>
      (exit == 0 <==> FirstTextHit(Masked(SearchWindows(windows, FilterArg(argv)), clickOk), argv[1], true, 0).Some?)
    ensures exit == 0 || exit == 1
  {
    if |argv| < 2 {
      return 1, [];
    }
    var filter := FilterArg(argv);
    var ws := windows;
    if filter != "" {
      ws := MatchingWindows(windows, filter);
    }
    var found;
    found, clicks := ClickFirst(ws, argv[1], clickOk);
    exit := if found then 0 else 1;
  }
}
