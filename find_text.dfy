/**
 * `find_text.py`: the first control, in window order and then tree order,
 * whose text contains the query case-insensitively, and the centre of its
 * rectangle.
 */
module FindText {
  import opened Wrappers
  import Text
  import opened Desktop

  /** `text and search_text.lower() in text.lower()`: a non-empty text containing the query. */
  predicate TextHit(c: Control, query: string)
  {
    c.text != "" && Text.ContainsCI(c.text, query)
  }

  /** A window the search looks into: any, or only a titled one when untitled windows are skipped. */
  predicate Searched(w: Window, skipUntitled: bool)
  {
    !skipUntitled || w.title != ""
  }

  /** The first control at or after `j` that the query hits. */
  function FirstHitFrom(controls: seq<Control>, query: string, j: nat): (r: Option<nat>)
    requires j <= |controls|
    ensures r.Some? ==> j <= r.value < |controls| && TextHit(controls[r.value], query)
    ensures r.Some? ==> forall b :: j <= b < r.value ==> !TextHit(controls[b], query)
    ensures r.None? <==> forall b :: j <= b < |controls| ==> !TextHit(controls[b], query)
    decreases |controls| - j
  {
    if j == |controls| then None
    else if TextHit(controls[j], query) then Some(j)
    else FirstHitFrom(controls, query, j + 1)
  }

  /** No searched window from `i` on holds a control the query hits. */
  predicate NoHitFrom(ws: seq<Window>, query: string, skipUntitled: bool, i: nat, upTo: nat)
    requires upTo <= |ws|
  {
    forall a :: i <= a < upTo && Searched(ws[a], skipUntitled) ==>
      forall b :: 0 <= b < |ws[a].controls| ==> !TextHit(ws[a].controls[b], query)
  }

  /**
   * The first hit at or after window `i`: the window's index and the
   * control's index in it; windows skipped as untitled are not looked into.
   */
  function FirstTextHit(ws: seq<Window>, query: string, skipUntitled: bool, i: nat): (r: Option<(nat, nat)>)
    requires i <= |ws|
    ensures r.Some? ==> i <= r.value.0 < |ws| && Searched(ws[r.value.0], skipUntitled)
    ensures r.Some? ==> r.value.1 < |ws[r.value.0].controls| && TextHit(ws[r.value.0].controls[r.value.1], query)
    ensures r.Some? ==> forall b :: 0 <= b < r.value.1 ==> !TextHit(ws[r.value.0].controls[b], query)
    ensures r.Some? ==> NoHitFrom(ws, query, skipUntitled, i, r.value.0)
    ensures r.None? <==> NoHitFrom(ws, query, skipUntitled, i, |ws|)
    decreases |ws| - i
  {
    if i == |ws| then None
    else if !Searched(ws[i], skipUntitled) then
      var r := FirstTextHit(ws, query, skipUntitled, i + 1);
      NoHitFromStep(ws, query, skipUntitled, i, if r.Some? then r.value.0 else |ws|);
      NoHitFromStep(ws, query, skipUntitled, i, |ws|);
      r
    else
      var h := FirstHitFrom(ws[i].controls, query, 0);
      if h.Some? then Some((i, h.value))
      else
        var r := FirstTextHit(ws, query, skipUntitled, i + 1);
        NoHitFromStep(ws, query, skipUntitled, i, if r.Some? then r.value.0 else |ws|);
        NoHitFromStep(ws, query, skipUntitled, i, |ws|);
        r
  }

  /** Window `i` adds nothing to find before `upTo` exactly when it is skipped or holds no hit. */
  lemma NoHitFromStep(ws: seq<Window>, query: string, skipUntitled: bool, i: nat, upTo: nat)
    requires i < upTo <= |ws|
    ensures NoHitFrom(ws, query, skipUntitled, i, upTo) <==>
      NoHitFrom(ws, query, skipUntitled, i + 1, upTo) &&
      (Searched(ws[i], skipUntitled) ==> forall b :: 0 <= b < |ws[i].controls| ==> !TextHit(ws[i].controls[b], query))
  {
  }

  /** A hit with no hit before it, in window order and then tree order, is the first hit. */
  lemma FirstTextHitAt(ws: seq<Window>, query: string, skipUntitled: bool, i: nat, j: nat)
    requires i < |ws| && Searched(ws[i], skipUntitled) && j < |ws[i].controls| && TextHit(ws[i].controls[j], query)
    requires NoHitFrom(ws, query, skipUntitled, 0, i)
    requires forall b :: 0 <= b < j ==> !TextHit(ws[i].controls[b], query)
    ensures FirstTextHit(ws, query, skipUntitled, 0) == Some((i, j))
  {
    var r := FirstTextHit(ws, query, skipUntitled, 0);
    assert r.Some?;
    assert r.value.0 == i;
  }

  /** The empty query hits every control with text: the search then stops at the first text of the first searched window that has one. */
  lemma EmptyQueryHitsAnyText(c: Control)
    requires c.text != ""
    ensures TextHit(c, "")
  {
    assert Text.OccursAt(Text.Lower(c.text), Text.Lower(""), 0);
  }

  /** The nested scan over windows and their controls, leaving at the first hit. */
  method Search(ws: seq<Window>, query: string, skipUntitled: bool) returns (hit: Option<(nat, nat)>)
    ensures hit == FirstTextHit(ws, query, skipUntitled, 0)
  {
    var i := 0;
    while i < |ws|
      invariant 0 <= i <= |ws|
      invariant NoHitFrom(ws, query, skipUntitled, 0, i)
    {
      if Searched(ws[i], skipUntitled) {
        var controls := ws[i].controls;
        var j := 0;
        while j < |controls|
          invariant 0 <= j <= |controls|
          invariant forall b :: 0 <= b < j ==> !TextHit(controls[b], query)
        {
          if controls[j].text != "" && Text.ContainsCI(controls[j].text, query) {
            FirstTextHitAt(ws, query, skipUntitled, i, j);
            return Some((i, j));
          }
          j := j + 1;
        }
      }
      i := i + 1;
    }
    return None;
  }

  /** The window filter, `sys.argv[2]` when given. */
  function FilterArg(argv: Argv): string
  {
    if |argv| > 2 then argv[2] else ""
  }

  /**
   * A run as intended, leaving at the first hit (`RunAsWritten` below is the
   * run the script performs): usage and exit 1 without a query; otherwise
   * the windows whose titles contain the filter (all when there is none)
   * are searched, untitled ones skipped, and the first hit's centre is
   * reported with exit 0, or "Not found" with exit 1.
   */
  method Run(argv: Argv, windows: seq<Window>) returns (exit: int, at: Option<(int, int)>, message: string)
    ensures |argv| < 2 ==> exit == 1 && at.None?
    ensures |argv| >= 2 ==>
      var ws := SearchWindows(windows, FilterArg(argv));
      var h := FirstTextHit(ws, argv[1], true, 0);
      (exit == 0 <==> h.Some?) && (exit != 0 ==> exit == 1 && at.None? && message == "Not found: '" + argv[1] + "'") &&
      (h.Some? ==> at == Some(Center(ws[h.value.0].controls[h.value.1].rect)))
  {
    if |argv| < 2 {
      return 1, None, "Usage: py find_text.py \"text\" [\"window\"]";
    }
    var filter := FilterArg(argv);
    var ws := windows;
    if filter != "" {
      ws := MatchingWindows(windows, filter);
    }
    var hit := Search(ws, argv[1], true);
    if hit.None? {
      return 1, None, "Not found: '" + argv[1] + "'";
    }
    var c := ws[hit.value.0].controls[hit.value.1];
    return 0, Some(Center(c.rect)), "Found: '" + c.text + "'";
  }

  /** The centres of the controls at or after `j` that the query hits, in tree order. */
  function ControlHits(controls: seq<Control>, query: string, j: nat): (r: seq<(int, int)>)
    requires j <= |controls|
    ensures |r| <= |controls| - j
    decreases |controls| - j
  {
    if j == |controls| then []
    else (if TextHit(controls[j], query) then [Center(controls[j].rect)] else []) + ControlHits(controls, query, j + 1)
  }

  /** The centres of every control hit in the searched windows at or after `i`, in window order and then tree order. */
  function HitCentres(ws: seq<Window>, query: string, skipUntitled: bool, i: nat): (r: seq<(int, int)>)
    requires i <= |ws|
    decreases |ws| - i
  {
    if i == |ws| then []
    else (if Searched(ws[i], skipUntitled) then ControlHits(ws[i].controls, query, 0) else [])
         + HitCentres(ws, query, skipUntitled, i + 1)
  }

  /** The controls hit from `j` on are listed from the first of them. */
  lemma {:induction false} ControlHitsFirst(controls: seq<Control>, query: string, j: nat)
    requires j <= |controls|
    ensures ControlHits(controls, query, j) == [] <==> FirstHitFrom(controls, query, j).None?
    ensures FirstHitFrom(controls, query, j).Some? ==>
      ControlHits(controls, query, j)[0] == Center(controls[FirstHitFrom(controls, query, j).value].rect)
    decreases |controls| - j
  {
    if j < |controls| {
      ControlHitsFirst(controls, query, j + 1);
    }
  }

  /** The hits are listed from the first hit on: there are some exactly when there is a first one, and it leads. */
  lemma {:induction false} HitCentresFirst(ws: seq<Window>, query: string, skipUntitled: bool, i: nat)
    requires i <= |ws|
    ensures HitCentres(ws, query, skipUntitled, i) == [] <==> FirstTextHit(ws, query, skipUntitled, i).None?
    ensures var h := FirstTextHit(ws, query, skipUntitled, i);
      h.Some? ==> HitCentres(ws, query, skipUntitled, i)[0] == Center(ws[h.value.0].controls[h.value.1].rect)
    decreases |ws| - i
  {
    if i < |ws| {
      HitCentresFirst(ws, query, skipUntitled, i + 1);
      ControlHitsFirst(ws[i].controls, query, 0);
    }
  }

  /** The inner loop as written: every control of the window hit, none skipped after the first. */
  method WindowHits(controls: seq<Control>, query: string) returns (hits: seq<(int, int)>)
    ensures hits == ControlHits(controls, query, 0)
  {
    hits := [];
    var j := 0;
    while j < |controls|
      invariant 0 <= j <= |controls|
      invariant hits + ControlHits(controls, query, j) == ControlHits(controls, query, 0)
    {
      if TextHit(controls[j], query) {
        hits := hits + [Center(controls[j].rect)];
      }
      j := j + 1;
    }
  }

  /** The outer loop as written: every searched window scanned to its end. */
  method AllHits(ws: seq<Window>, query: string) returns (reported: seq<(int, int)>)
    ensures reported == HitCentres(ws, query, true, 0)
  {
    reported := [];
    var i := 0;
    while i < |ws|
      invariant 0 <= i <= |ws|
      invariant reported + HitCentres(ws, query, true, i) == HitCentres(ws, query, true, 0)
    {
      var hits: seq<(int, int)> := [];
      if Searched(ws[i], true) {
        hits := WindowHits(ws[i].controls, query);
      }
      ghost var rest := HitCentres(ws, query, true, i + 1);
      assert HitCentres(ws, query, true, i) == hits + rest;
      assert (reported + hits) + rest == reported + (hits + rest);
      reported := reported + hits;
      i := i + 1;
    }
  }

  /**
   * The script as written: `sys.exit(0)` after a hit raises `SystemExit`
   * inside a bare `except:`, which swallows it, so the scan goes on. Every
   * hit is reported, in order, and the run still ends in "Not found" with
   * exit 1.
   */
  method RunAsWritten(argv: Argv, windows: seq<Window>) returns (exit: int, reported: seq<(int, int)>, message: string)
    ensures |argv| < 2 ==> reported == []
    ensures |argv| >= 2 ==> reported == HitCentres(SearchWindows(windows, FilterArg(argv)), argv[1], true, 0)
    ensures |argv| >= 2 ==> message == "Not found: '" + argv[1] + "'"
    ensures exit == 1
  {
    if |argv| < 2 {
      return 1, [], "Usage: py find_text.py \"text\" [\"window\"]";
    }
    var query, filter := argv[1], FilterArg(argv);
    var ws := windows;
    if filter != "" {
      ws := MatchingWindows(windows, filter);
    }
    reported := AllHits(ws, query);
    return 1, reported, "Not found: '" + query + "'";
  }

  /** A desktop with one window, Notepad, holding a Save button. */
  function NotepadWithSave(): seq<Window>
  {
    [Window("Notepad", WindowType, "Notepad", Rect(0, 0, 100, 100),
            [Control("Save", Button, true, Rect(10, 20, 30, 41), None, None, "")], false, false)]
  }

  /**
   * Searching that desktop for "save" hits the button, so the intended run
   * reports its centre and exits 0, while the run as written reports the
   * same centre and then exits 1.
   */
  lemma SaveFoundYetNotFound()
    ensures FirstTextHit(SearchWindows(NotepadWithSave(), ""), "save", true, 0) == Some((0, 0))
    ensures HitCentres(SearchWindows(NotepadWithSave(), ""), "save", true, 0) == [(20, 30)]
  {
    var ws := NotepadWithSave();
    var c := ws[0].controls[0];
    assert Text.Lower("Save") == "save";
    assert Text.OccursAt(Text.Lower(c.text), Text.Lower("save"), 0);
    assert TextHit(c, "save");
    assert FirstHitFrom(ws[0].controls, "save", 0) == Some(0);
    assert ControlHits(ws[0].controls, "save", 0) == [(20, 30)];
  }
}
