/**
 * `click_element.py`: click a clickable control (a button, link, menu item
 * and so on) found by its name, preferring a control whose name equals the
 * one asked for, case-insensitively; or list the clickable controls.
 */
module ClickElement {
  import opened Wrappers
  import Text
  import Seqs
  import opened Desktop

  /** `CLICKABLE_TYPES`, compared by the type's name. */
  const ClickableTypes: seq<string> :=
    ["Button", "Hyperlink", "MenuItem", "TabItem", "ListItem", "CheckBox", "RadioButton", "TreeItem", "DataItem"]

  predicate Clickable(t: ControlType)
  {
    TypeName(t) in ClickableTypes
  }

  /**
   * What to click: the element's name, the window filter and the control
   * type filter ("" when the option is not given, or given empty, since
   * either is falsy) and whether the name must match exactly.
   */
  datatype Query = Query(element: string, windowTitle: string, controlType: string, exact: bool)

  /** The name test: equality in exact mode, else containment ignoring case. */
  predicate NameMatches(name: string, element: string, exact: bool)
  {
    if exact then name == element else Text.ContainsCI(name, element)
  }

  /** A control `find_and_click` collects: of the requested type, clickable, matching by name, and enabled. */
  predicate IsCandidate(c: Control, q: Query)
  {
    (q.controlType == "" || TypeName(c.controlType) == q.controlType)
    && Clickable(c.controlType) && NameMatches(Name(c), q.element, q.exact) && c.enabled
  }

  /** A control `list_clickable` lists: clickable, named, and enabled. */
  predicate IsListed(c: Control)
  {
    Clickable(c.controlType) && Name(c) != "" && c.enabled
  }

  /** One collected entry: the control, its stripped name, its type's name, its window's title and its centre. */
  datatype Entry = Entry(control: Control, name: string, typeName: string, window: string, center: (int, int))

  function EntryOf(w: Window, c: Control): Entry
  {
    Entry(c, Name(c), TypeName(c.controlType), w.title, Center(c.rect))
  }

  /** The entries for the controls of window `w` among `controls` that `keep` accepts, in tree order. */
  function WindowEntries(w: Window, controls: seq<Control>, keep: Control -> bool): (r: seq<Entry>)
    ensures forall x :: x in r ==> keep(x.control) && x.control in controls && x == EntryOf(w, x.control)
    ensures forall c :: c in controls && keep(c) ==> EntryOf(w, c) in r
  {
    if |controls| == 0 then []
    else
      var front := controls[..|controls| - 1];
      var c := controls[|controls| - 1];
      assert forall d :: d in controls <==> d in front || d == c;
      WindowEntries(w, front, keep) + (if keep(c) then [EntryOf(w, c)] else [])
  }

  /** The entries of all windows `ws`, window after window. */
  function Entries(ws: seq<Window>, keep: Control -> bool): (r: seq<Entry>)
    ensures forall x :: x in r ==> keep(x.control) && x.name == Name(x.control)
    ensures forall x :: x in r ==> exists w :: w in ws && x.control in w.controls && x == EntryOf(w, x.control)
    ensures forall w, c :: w in ws && c in w.controls && keep(c) ==> EntryOf(w, c) in r
  {
    if |ws| == 0 then []
    else
      var front := ws[..|ws| - 1];
      var w := ws[|ws| - 1];
      assert forall v :: v in ws <==> v in front || v == w;
      Entries(front, keep) + WindowEntries(w, w.controls, keep)
  }

  /** The candidates of `find_and_click` on the windows searched. */
  function Candidates(ws: seq<Window>, q: Query): (r: seq<Entry>)
    ensures forall x :: x in r <==> x in Entries(ws, (c: Control) => IsCandidate(c, q))
  {
    Entries(ws, (c: Control) => IsCandidate(c, q))
  }

  /** `c['name'].lower() == element_name_lower`. */
  function IsExactFor(element: string): Entry -> bool
  {
    (x: Entry) => Text.Lower(x.name) == Text.Lower(element)
  }

  /** The candidate clicked: the first whose name equals the element ignoring case, or failing that the first of all. */
  function Target(cands: seq<Entry>, element: string): (r: Option<Entry>)
    ensures r.None? <==> cands == []
    ensures r.Some? ==> r.value in cands
  {
    var exactMatches := Seqs.Filter(cands, IsExactFor(element));
    if |exactMatches| > 0 then
      assert exactMatches[0] in exactMatches;
      Some(exactMatches[0])
    else if |cands| > 0 then Some(cands[0])
    else None
  }

  /** A candidate whose name equals the element ignoring case wins over every candidate before it, and the first such is clicked. */
  lemma TargetPrefersExact(cands: seq<Entry>, element: string, i: nat)
    requires i < |cands| && Text.Lower(cands[i].name) == Text.Lower(element)
    requires forall j :: 0 <= j < i ==> Text.Lower(cands[j].name) != Text.Lower(element)
    ensures Target(cands, element) == Some(cands[i])
  {
    Seqs.FilterHead(cands, IsExactFor(element), i);
  }

  /** With no candidate named exactly so, the first candidate is clicked. */
  lemma TargetFallsBack(cands: seq<Entry>, element: string)
    requires |cands| > 0
    requires forall j :: 0 <= j < |cands| ==> Text.Lower(cands[j].name) != Text.Lower(element)
    ensures Target(cands, element) == Some(cands[0])
  {
    Seqs.FilterNone(cands, IsExactFor(element));
  }

  /** In exact mode every candidate bears the very name asked for, so the first candidate is the one clicked. */
  lemma ExactModeClicksFirst(ws: seq<Window>, q: Query)
    requires q.exact && |Candidates(ws, q)| > 0
    ensures Target(Candidates(ws, q), q.element) == Some(Candidates(ws, q)[0])
    ensures Candidates(ws, q)[0].name == q.element
  {
    var cands := Candidates(ws, q);
    assert cands[0] in cands;
    TargetPrefersExact(cands, q.element, 0);
  }

  /** `f"... @ {target['center']}"`: a tuple printed as `(x, y)`. */
  function PointText(p: (int, int)): string
  {
    "(" + Text.IntToString(p.0) + ", " + Text.IntToString(p.1) + ")"
  }

  /** The entries of one window's controls, collected by the `for ctrl in window.descendants()` loop. */
  method CollectWindow(w: Window, keep: Control -> bool) returns (r: seq<Entry>)
    ensures r == WindowEntries(w, w.controls, keep)
  {
    r := [];
    var j := 0;
    while j < |w.controls|
      invariant 0 <= j <= |w.controls|
      invariant r == WindowEntries(w, w.controls[..j], keep)
    {
      assert w.controls[..j + 1][..j] == w.controls[..j];
      var c := w.controls[j];
      if keep(c) {
        r := r + [EntryOf(w, c)];
      }
      j := j + 1;
    }
    assert w.controls[..j] == w.controls;
  }

  /** The `for window in windows` loop gathering the entries of every window. */
  method Collect(ws: seq<Window>, keep: Control -> bool) returns (r: seq<Entry>)
    ensures r == Entries(ws, keep)
  {
    r := [];
    var i := 0;
    while i < |ws|
      invariant 0 <= i <= |ws|
      invariant r == Entries(ws[..i], keep)
    {
      assert ws[..i + 1][..i] == ws[..i];
      var more := CollectWindow(ws[i], keep);
      r := r + more;
      i := i + 1;
    }
    assert ws[..i] == ws;
  }

  /**
   * `find_and_click`: with a window filter that no title contains, the
   * window is not found; with no candidate in the windows searched, the
   * element is not found; otherwise the target is clicked, and the run
   * succeeds unless the click raises `clickError`.
   */
  method FindAndClick(windows: seq<Window>, q: Query, clickError: Option<string>)
    returns (success: bool, message: string, target: Option<Entry>)
    ensures q.windowTitle != "" && WindowsMatching(windows, q.windowTitle) == [] ==>
      !success && target.None? && message == "Window '" + q.windowTitle + "' not found"
    ensures !(q.windowTitle != "" && WindowsMatching(windows, q.windowTitle) == []) ==>
      target == Target(Candidates(SearchWindows(windows, q.windowTitle), q), q.element)
    ensures !(q.windowTitle != "" && WindowsMatching(windows, q.windowTitle) == []) && target.None? ==>
      message == "Element '" + q.element + "' not found"
    ensures success <==> target.Some? && clickError.None?
    ensures target.Some? ==> IsCandidate(target.value.control, q)
    ensures success ==> message == "Clicked [" + target.value.typeName + "] '" + target.value.name + "' in "
                                   + target.value.window + " @ " + PointText(target.value.center)
    ensures target.Some? && clickError.Some? ==> message == "Click failed: " + clickError.value
  {
    var ws := windows;
    if q.windowTitle != "" {
      ws := MatchingWindows(windows, q.windowTitle);
      if ws == [] {
        return false, "Window '" + q.windowTitle + "' not found", None;
      }
    }
    var cands := Collect(ws, (c: Control) => IsCandidate(c, q));
    if cands == [] {
      return false, "Element '" + q.element + "' not found", None;
    }
    target := Target(cands, q.element);
    var t := target.value;
    if clickError.Some? {
      return false, "Click failed: " + clickError.value, target;
    }
    success := true;
    message := "Clicked [" + t.typeName + "] '" + t.name + "' in " + t.window + " @ " + PointText(t.center);
  }

  /** The windows `list_clickable` covers: those whose titles contain the filter, or without one the first five. */
  function ListedWindows(windows: seq<Window>, windowTitle: string): (r: seq<Window>)
    ensures windowTitle != "" ==> r == WindowsMatching(windows, windowTitle)
    ensures windowTitle == "" ==> r == windows[..if |windows| < 5 then |windows| else 5]
  {
    if windowTitle != "" then WindowsMatching(windows, windowTitle)
    else windows[..if |windows| < 5 then |windows| else 5]
  }

  /** `list_clickable`. */
  method ListClickable(windows: seq<Window>, windowTitle: string) returns (elements: seq<Entry>)
    ensures elements == Entries(ListedWindows(windows, windowTitle), IsListed)
  {
    var ws;
    if windowTitle != "" {
      ws := MatchingWindows(windows, windowTitle);
    } else {
      ws := windows[..if |windows| < 5 then |windows| else 5];
    }
    elements := Collect(ws, IsListed);
  }

  /** Every element listed is a named, enabled, clickable control of one of the first five windows when no filter is given. */
  lemma ListedAreClickable(windows: seq<Window>, x: Entry)
    requires x in Entries(ListedWindows(windows, ""), IsListed)
    ensures IsListed(x.control) && x.name != ""
    ensures exists k :: 0 <= k < 5 && k < |windows| && x.control in windows[k].controls && x.window == windows[k].title
  {
    var ws := ListedWindows(windows, "");
    var w :| w in ws && x.control in w.controls && x == EntryOf(w, x.control);
    var k :| 0 <= k < |ws| && ws[k] == w;
    assert windows[k] == w;
  }

  /**
   * A listed element is found again: clicking its name exactly, in a window
   * filtered by that window's title, has a candidate, so it does not fail
   * with "not found".
   */
  lemma ListedCanBeClicked(windows: seq<Window>, windowTitle: string, x: Entry)
    requires windowTitle != "" && x in Entries(ListedWindows(windows, windowTitle), IsListed)
    ensures var q := Query(x.name, windowTitle, "", true);
      WindowsMatching(windows, windowTitle) != [] && Target(Candidates(SearchWindows(windows, windowTitle), q), x.name).Some?
  {
    var ws := WindowsMatching(windows, windowTitle);
    var q := Query(x.name, windowTitle, "", true);
    var w :| w in ws && x.control in w.controls && x == EntryOf(w, x.control);
    assert IsCandidate(x.control, q);
    assert EntryOf(w, x.control) in Entries(ws, (c: Control) => IsCandidate(c, q));
  }

  /** The command line, `args.element` "" when not given. */
  datatype Options = Options(element: string, window: string, controlType: string, exact: bool, list: bool)

  /**
   * `main`: `--list` lists the clickable controls and exits 0; without an
   * element name it fails with exit 1; otherwise it prints what
   * `find_and_click` says and exits 0 exactly when it succeeded. The
   * `--delay` sleep is not modelled.
   */
  method Run(o: Options, windows: seq<Window>, clickError: Option<string>)
    returns (exit: int, message: string, target: Option<Entry>, listed: seq<Entry>)
    ensures o.list ==> exit == 0 && target.None? && listed == Entries(ListedWindows(windows, o.window), IsListed)
    ensures o.list && listed == [] ==> message == "No clickable elements found"
    ensures o.list && listed != [] ==> message == "Found " + Text.NatToString(|listed|) + " clickable elements:\n"
    ensures !o.list && o.element == "" ==> exit == 1 && target.None? && message == "Error: Element name required (or use --list)"
    ensures !o.list ==> listed == []
    ensures !o.list && o.element != "" ==> (exit == 0 <==> target.Some? && clickError.None?)
    ensures target.Some? ==> IsCandidate(target.value.control, Query(o.element, o.window, o.controlType, o.exact))
    ensures exit == 0 || exit == 1
  {
    listed := [];
    target := None;
    if o.list {
      listed := ListClickable(windows, o.window);
      message := if listed == [] then "No clickable elements found"
                 else "Found " + Text.NatToString(|listed|) + " clickable elements:\n";
      return 0, message, target, listed;
    }
    if o.element == "" {
      return 1, "Error: Element name required (or use --list)", target, listed;
    }
    var success;
    success, message, target := FindAndClick(windows, Query(o.element, o.window, o.controlType, o.exact), clickError);
    exit := if success then 0 else 1;
  }
}
