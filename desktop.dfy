/**
 * The desktop as the Windows UI-automation scripts see it: a snapshot of
 * the top-level windows in the order the accessibility API lists them,
 * each with its controls in tree (descendant) order. Reading a control
 * never fails here, so the scripts' per-control `except: continue` around
 * a read is not modelled; the scripts that act take whether each click,
 * typing or key press raises as an input.
 */
module Desktop {
  import opened Wrappers
  import Text
  import Seqs

  datatype Rect = Rect(left: int, top: int, right: int, bottom: int)

  /**
   * The UI Automation control types the scripts name (`TextType`,
   * `WindowType` and `DialogType` stand for `Text`, `Window` and `Dialog`),
   * and any other type by its name.
   */
  datatype ControlType =
    | Button | Hyperlink | Link | MenuItem | TabItem | ListItem | CheckBox | RadioButton | TreeItem | DataItem
    | TextType | Static | Edit | ComboBox | Document | Image | WindowType | DialogType | Pane
    | OtherType(typeName: string)

  /** The name `element_info.control_type` reports for a type. */
  function TypeName(t: ControlType): string
  {
    match t
    case Button => "Button"
    case Hyperlink => "Hyperlink"
    case Link => "Link"
    case MenuItem => "MenuItem"
    case TabItem => "TabItem"
    case ListItem => "ListItem"
    case CheckBox => "CheckBox"
    case RadioButton => "RadioButton"
    case TreeItem => "TreeItem"
    case DataItem => "DataItem"
    case TextType => "Text"
    case Static => "Static"
    case Edit => "Edit"
    case ComboBox => "ComboBox"
    case Document => "Document"
    case Image => "Image"
    case WindowType => "Window"
    case DialogType => "Dialog"
    case Pane => "Pane"
    case OtherType(n) => n
  }

  /**
   * A control: its window text, control type, whether it is enabled, its
   * rectangle, what `get_value` answers (none when the control has no
   * value pattern), its toggle state when it has one, and its automation id.
   */
  datatype Control = Control(text: string, controlType: ControlType, enabled: bool, rect: Rect,
                             value: Option<string>, toggleState: Option<int>, automationId: string)

  /** A top-level window and its controls. */
  datatype Window = Window(title: string, controlType: ControlType, className: string, rect: Rect,
                           controls: seq<Control>, maximized: bool, minimized: bool)

  /** `((left + right) // 2, (top + bottom) // 2)`: the floor midpoint, also for negative coordinates. */
  function Center(r: Rect): (c: (int, int))
    ensures 2 * c.0 <= r.left + r.right <= 2 * c.0 + 1
    ensures 2 * c.1 <= r.top + r.bottom <= 2 * c.1 + 1
  {
    ((r.left + r.right) / 2, (r.top + r.bottom) / 2)
  }

  /** The centre of a well-formed rectangle lies inside it. */
  lemma CenterInside(r: Rect)
    requires r.left <= r.right && r.top <= r.bottom
    ensures r.left <= Center(r).0 <= r.right && r.top <= Center(r).1 <= r.bottom
  {
  }

  /** Python's `str.isspace` for one character: the separators and the Unicode spaces. */
  predicate IsPySpace(c: char)
  {
    ('\t' <= c <= '\r') || ('\U{001C}' <= c <= ' ') || c == '\U{0085}' || c == '\U{00A0}' || c == '\U{1680}' ||
    ('\U{2000}' <= c <= '\U{200A}') || c == '\U{2028}' || c == '\U{2029}' || c == '\U{202F}' || c == '\U{205F}' || c == '\U{3000}'
  }

  /** `s.lstrip()`. */
  function StripStart(s: string): string
  {
    if |s| > 0 && IsPySpace(s[0]) then StripStart(s[1..]) else s
  }

  /** `s.rstrip()`. */
  function StripEnd(s: string): string
  {
    if |s| > 0 && IsPySpace(s[|s| - 1]) then StripEnd(s[..|s| - 1]) else s
  }

  /** `s.strip()`. */
  function Strip(s: string): string
  {
    StripEnd(StripStart(s))
  }

  /** Stripping keeps a middle part of the text, starting at `a`, and leaves no space at either end. */
  lemma {:induction false} StripIsInfix(s: string) returns (a: nat)
    ensures a + |Strip(s)| <= |s| && s[a..a + |Strip(s)|] == Strip(s)
    ensures var t := Strip(s); |t| > 0 ==> !IsPySpace(t[0]) && !IsPySpace(t[|t| - 1])
  {
    a := StripStartSuffix(s);
    var u := StripStart(s);
    StripEndPrefix(u);
    var t := StripEnd(u);
    assert s[a..a + |t|] == t by {
      assert u == s[a..];
      assert t == u[..|t|];
    }
  }

  lemma {:induction false} StripStartSuffix(s: string) returns (a: nat)
    ensures a <= |s| && StripStart(s) == s[a..]
    ensures |StripStart(s)| > 0 ==> !IsPySpace(StripStart(s)[0])
  {
    if |s| > 0 && IsPySpace(s[0]) {
      var b := StripStartSuffix(s[1..]);
      a := b + 1;
      assert s[1..][b..] == s[a..];
    } else {
      a := 0;
    }
  }

  lemma {:induction false} StripEndPrefix(s: string)
    ensures |StripEnd(s)| <= |s| && StripEnd(s) == s[..|StripEnd(s)|]
    ensures |StripEnd(s)| > 0 ==> !IsPySpace(StripEnd(s)[|StripEnd(s)| - 1])
    ensures |StripEnd(s)| > 0 ==> !IsPySpace(StripEnd(s)[0]) || (|s| > 0 && IsPySpace(s[0]))
  {
    if |s| > 0 && IsPySpace(s[|s| - 1]) {
      StripEndPrefix(s[..|s| - 1]);
      assert s[..|s| - 1][..|StripEnd(s)|] == s[..|StripEnd(s)|];
    }
  }

  /** `ctrl.window_text().strip() if ctrl.window_text() else ""`. */
  function Name(c: Control): string
  {
    Strip(c.text)
  }

  /** `filter.lower() in title.lower()`. */
  predicate TitleMatches(title: string, filter: string)
  {
    Text.ContainsCI(title, filter)
  }

  /** The index of the first window whose title contains the filter case-insensitively. */
  function FirstTitleMatch(windows: seq<Window>, filter: string): (r: Option<nat>)
    ensures r.Some? ==> r.value < |windows| && TitleMatches(windows[r.value].title, filter)
    ensures r.Some? ==> forall j :: 0 <= j < r.value ==> !TitleMatches(windows[j].title, filter)
    ensures r.None? <==> forall j :: 0 <= j < |windows| ==> !TitleMatches(windows[j].title, filter)
  {
    if |windows| == 0 then None
    else if TitleMatches(windows[0].title, filter) then Some(0)
    else
      var rest := FirstTitleMatch(windows[1..], filter);
      assert forall j :: 1 <= j < |windows| ==> windows[j] == windows[1..][j - 1];
      if rest.Some? then Some(rest.value + 1) else None
  }

  /** Windows with the same titles, position by position, give the same first match. */
  lemma {:induction false} SameTitlesSameMatch(ws: seq<Window>, ws': seq<Window>, filter: string)
    requires |ws| == |ws'| && forall i :: 0 <= i < |ws| ==> ws[i].title == ws'[i].title
    ensures FirstTitleMatch(ws', filter) == FirstTitleMatch(ws, filter)
  {
    if |ws| > 0 {
      SameTitlesSameMatch(ws[1..], ws'[1..], filter);
    }
  }

  /** The `for window in windows: if ... in title.lower(): ... break` scan. */
  method FindWindow(windows: seq<Window>, filter: string) returns (found: Option<nat>)
    ensures found == FirstTitleMatch(windows, filter)
  {
    var i := 0;
    while i < |windows|
      invariant 0 <= i <= |windows|
      invariant forall j :: 0 <= j < i ==> !TitleMatches(windows[j].title, filter)
    {
      if TitleMatches(windows[i].title, filter) {
        FirstMatchAt(windows, filter, i);
        return Some(i);
      }
      i := i + 1;
    }
    return None;
  }

  /** A matching window with no match before it is the first match. */
  lemma FirstMatchAt(windows: seq<Window>, filter: string, i: nat)
    requires i < |windows| && TitleMatches(windows[i].title, filter)
    requires forall j :: 0 <= j < i ==> !TitleMatches(windows[j].title, filter)
    ensures FirstTitleMatch(windows, filter) == Some(i)
  {
  }

  /** The windows whose titles contain the filter, in order: `[w for w in windows if filter.lower() in w.window_text().lower()]`. */
  function WindowsMatching(windows: seq<Window>, filter: string): (r: seq<Window>)
    ensures |r| <= |windows|
    ensures forall w :: w in r <==> w in windows && TitleMatches(w.title, filter)
  {
    if |windows| == 0 then []
    else
      var front := WindowsMatching(windows[..|windows| - 1], filter);
      var w := windows[|windows| - 1];
      assert forall v :: v in windows <==> v in windows[..|windows| - 1] || v == w;
      front + (if TitleMatches(w.title, filter) then [w] else [])
  }

  /** The filter's test on one window, as a predicate value. */
  function KeptBy(filter: string): Window -> bool
  {
    (w: Window) => TitleMatches(w.title, filter)
  }

  /** The comprehension is the order-preserving filter of the window list: no window is added, dropped or moved. */
  lemma {:induction false} WindowsMatchingIsFilter(windows: seq<Window>, filter: string)
    ensures WindowsMatching(windows, filter) == Seqs.Filter(windows, KeptBy(filter))
  {
    if |windows| > 0 {
      WindowsMatchingIsFilter(windows[..|windows| - 1], filter);
    }
  }

  /** The kept windows keep their order: the first kept window is the first match, and nothing is kept exactly when nothing matches. */
  lemma WindowsMatchingFirst(windows: seq<Window>, filter: string)
    ensures FirstTitleMatch(windows, filter).None? <==> WindowsMatching(windows, filter) == []
    ensures FirstTitleMatch(windows, filter).Some? ==>
      WindowsMatching(windows, filter)[0] == windows[FirstTitleMatch(windows, filter).value]
  {
    WindowsMatchingIsFilter(windows, filter);
    var m := FirstTitleMatch(windows, filter);
    if m.Some? {
      Seqs.FilterHead(windows, KeptBy(filter), m.value);
    } else {
      Seqs.FilterNone(windows, KeptBy(filter));
    }
  }

  /** Matching a concatenation matches each part, so the kept windows follow the listing order. */
  lemma WindowsMatchingAppend(a: seq<Window>, b: seq<Window>, filter: string)
    ensures WindowsMatching(a + b, filter) == WindowsMatching(a, filter) + WindowsMatching(b, filter)
  {
    WindowsMatchingIsFilter(a, filter);
    WindowsMatchingIsFilter(b, filter);
    WindowsMatchingIsFilter(a + b, filter);
    Seqs.FilterAppend(a, b, KeptBy(filter));
  }

  /** The empty filter matches every title, so it keeps every window. */
  lemma {:induction false} EmptyFilterKeepsAll(windows: seq<Window>)
    ensures WindowsMatching(windows, "") == windows
  {
    if |windows| > 0 {
      var front, w := windows[..|windows| - 1], windows[|windows| - 1];
      EmptyFilterKeepsAll(front);
      EmptyFilterMatches(w.title);
      assert WindowsMatching(windows, "") == WindowsMatching(front, "") + [w];
      assert front + [w] == windows;
    }
  }

  /** Every title contains the empty filter. */
  lemma EmptyFilterMatches(title: string)
    ensures TitleMatches(title, "")
  {
    assert Text.OccursAt(Text.Lower(title), Text.Lower(""), 0);
  }

  /** The windows a search covers: all of them when the filter is empty (falsy), else those whose titles contain it. */
  function SearchWindows(windows: seq<Window>, filter: string): (r: seq<Window>)
    ensures filter == "" ==> r == windows
    ensures filter != "" ==> r == WindowsMatching(windows, filter)
  {
    if filter == "" then windows else WindowsMatching(windows, filter)
  }

  /** Skipping the filter when it is empty changes nothing: the empty filter matches every title anyway. */
  lemma SearchWindowsIsMatching(windows: seq<Window>, filter: string)
    ensures SearchWindows(windows, filter) == WindowsMatching(windows, filter)
  {
    if filter == "" {
      EmptyFilterKeepsAll(windows);
    }
  }

  /** The list comprehension keeping the windows whose titles contain the filter. */
  method MatchingWindows(windows: seq<Window>, filter: string) returns (r: seq<Window>)
    ensures r == WindowsMatching(windows, filter)
  {
    r := [];
    var i := 0;
    while i < |windows|
      invariant 0 <= i <= |windows|
      invariant r == WindowsMatching(windows[..i], filter)
    {
      assert windows[..i + 1][..i] == windows[..i];
      if TitleMatches(windows[i].title, filter) {
        r := r + [windows[i]];
      }
      i := i + 1;
    }
    assert windows[..i] == windows;
  }

  /** The "Available windows" lines printed when no window matches: one `  - title` line per titled window, in order. */
  function TitleListing(windows: seq<Window>): (r: seq<string>)
    ensures |r| <= |windows|
    ensures forall i :: 0 <= i < |r| ==> Text.StartsWith(r[i], "  - ") && |r[i]| > 4
    ensures var titled := Seqs.Filter(windows, IsTitled);
      |r| == |titled| && forall i :: 0 <= i < |r| ==> r[i] == "  - " + titled[i].title
  {
    if |windows| == 0 then []
    else
      var w := windows[|windows| - 1];
      TitleListing(windows[..|windows| - 1]) + (if w.title != "" then ["  - " + w.title] else [])
  }

  /** A window with a non-empty title, as a predicate value. */
  function IsTitled(w: Window): bool
  {
    w.title != ""
  }

  /** The loop printing the titled windows. */
  method ListTitles(windows: seq<Window>) returns (lines: seq<string>)
    ensures lines == TitleListing(windows)
  {
    lines := [];
    var i := 0;
    while i < |windows|
      invariant 0 <= i <= |windows|
      invariant lines == TitleListing(windows[..i])
    {
      assert windows[..i + 1][..i] == windows[..i];
      if windows[i].title != "" {
        lines := lines + ["  - " + windows[i].title];
      }
      i := i + 1;
    }
    assert windows[..i] == windows;
  }

  /**
   * Python's `int(s)` on a decimal literal: surrounding whitespace
   * stripped, an optional sign, then one or more ASCII digits; `None` for
   * anything else, where `int` raises `ValueError`.
   */
  function PyInt(s: string): (r: Option<int>)
    ensures r.Some? ==> |Strip(s)| > 0
  {
    var t := Strip(s);
    if |t| > 0 && (t[0] == '-' || t[0] == '+') then
      if |t| > 1 && Text.AllDigits(t[1..]) then
        var v: int := Text.DigitsValue(t[1..]);
        Some(if t[0] == '-' then -v else v)
      else None
    else if |t| > 0 && Text.AllDigits(t) then Some(Text.DigitsValue(t))
    else None
  }

  /** A string with no space at either end is its own strip. */
  lemma StripUnspaced(s: string)
    requires |s| > 0 && !IsPySpace(s[0]) && !IsPySpace(s[|s| - 1])
    ensures Strip(s) == s
  {
  }

  /** Reading back the decimal rendering of any integer gives the integer. */
  lemma PyIntRoundTrip(n: int)
    ensures PyInt(Text.IntToString(n)) == Some(n)
  {
    var s := Text.IntToString(n);
    var d := Text.NatToString(if n < 0 then -n else n);
    assert Text.IsDigit(d[0]) && Text.IsDigit(d[|d| - 1]);
    if n < 0 {
      assert s == "-" + d && s[1..] == d;
    }
    StripUnspaced(s);
  }

  /** Text that is blank after stripping is no integer. */
  lemma PyIntBlank(s: string)
    requires Strip(s) == ""
    ensures PyInt(s).None?
  {
  }

  /** The timeout of the waiting scripts when none is given, in seconds. */
  const DefaultTimeoutS := 30

  /** `int(sys.argv[at]) if len(sys.argv) > at else 30`: `None` when the argument is given and is no integer. */
  function TimeoutArg(argv: Argv, at: nat): (r: Option<int>)
    ensures |argv| <= at ==> r == Some(DefaultTimeoutS)
    ensures |argv| > at ==> r == PyInt(argv[at])
  {
    if |argv| > at then PyInt(argv[at]) else Some(DefaultTimeoutS)
  }

  /** The polling scripts sleep half a second between scans. */
  const PollMs := 500

  /**
   * A clock for a polling loop: `clock(k)` is the milliseconds elapsed when
   * the loop tests its condition for the `k`-th time. The first test comes
   * at no negative time, and each scan is followed by a sleep of at least
   * half a second.
   */
  ghost predicate PollingClock(clock: nat -> int)
  {
    0 <= clock(0) && forall k: nat :: PollStep(clock, k)
  }

  /** The `k`-th scan and its sleep take at least half a second. */
  ghost predicate PollStep(clock: nat -> int, k: nat)
  {
    clock(k) + PollMs <= clock(k + 1)
  }

  /** Elapsed time grows by at least half a second per poll. */
  lemma {:induction false} ClockGrows(clock: nat -> int, k: nat)
    requires PollingClock(clock)
    ensures clock(k) >= k * PollMs
  {
    if k > 0 {
      ClockGrows(clock, k - 1);
      assert PollStep(clock, k - 1);
    }
  }

  /** A polling loop with a timeout of `timeoutMs` tests its condition at most `timeoutMs / 500 + 1` times. */
  lemma PollsBounded(clock: nat -> int, timeoutMs: int, k: nat)
    requires PollingClock(clock) && clock(k) < timeoutMs
    ensures k * PollMs < timeoutMs
  {
    ClockGrows(clock, k);
  }

  /** The program's arguments, `sys.argv`, with the script's own name first. */
  type Argv = seq<string>

  /** The desktop the window-state scripts act on: its windows and the one holding the focus. */
  class Screen {
    var windows: seq<Window>
    var focused: Option<nat>

    constructor(windows0: seq<Window>)
      ensures windows == windows0 && focused == None
    {
      windows := windows0;
      focused := None;
    }
  }
}
