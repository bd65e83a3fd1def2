/**
 * `read_ui_elements.py`: the interactive controls of the first window whose
 * title contains the argument, sorted into ten categories.
 */
module ReadUiElements {
  import opened Wrappers
  import Text
  import Seqs
  import opened Desktop

  /** A reported control: its stripped name, type, enabled flag, rectangle with centre, and, for a text field, its value. */
  datatype UiElem = UiElem(name: string, controlType: ControlType, enabled: bool, rect: Rect, center: (int, int),
                           value: Option<string>)

  /** The ten categories, in the order the result dictionary lists them. */
  datatype Elements = Elements(buttons: seq<UiElem>, links: seq<UiElem>, menuItems: seq<UiElem>, listItems: seq<UiElem>,
                               tabs: seq<UiElem>, checkboxes: seq<UiElem>, radioButtons: seq<UiElem>,
                               textFields: seq<UiElem>, dropdowns: seq<UiElem>, other: seq<UiElem>)

  datatype Category = Buttons | Links | MenuItems | ListItems | Tabs | Checkboxes | RadioButtons | TextFields | Dropdowns | Other

  const NoElements := Elements([], [], [], [], [], [], [], [], [], [])

  /** A control the scan keeps: a named one, or an `Edit` or `Document` even without a name. */
  predicate Kept(c: Control)
  {
    Name(c) != "" || c.controlType == Edit || c.controlType == Document
  }

  /** The category of a kept control, by the first type test it passes; a named control of any other type is "other". */
  function CategoryOf(c: Control): (k: Category)
    requires Kept(c)
    ensures k == TextFields <==> c.controlType == Edit || c.controlType == Document
    ensures k == Other ==> Name(c) != ""
    ensures k == Buttons <==> c.controlType == Button
    ensures k == Links <==> c.controlType == Hyperlink
  {
    match c.controlType
    case Button => Buttons
    case Hyperlink => Links
    case MenuItem => MenuItems
    case ListItem => ListItems
    case TabItem => Tabs
    case CheckBox => Checkboxes
    case RadioButton => RadioButtons
    case Edit => TextFields
    case Document => TextFields
    case ComboBox => Dropdowns
    case _ => Other
  }

  /** The element recorded for a kept control; a text field's value is the first 100 characters of its name. */
  function ElemOf(c: Control): (e: UiElem)
    ensures e.value.Some? <==> c.controlType == Edit || c.controlType == Document
    ensures e.value.Some? ==> |e.value.value| <= 100 && Text.StartsWith(Name(c), e.value.value)
    ensures e.value.Some? && |Name(c)| <= 100 ==> e.value.value == Name(c)
  {
    var n := Name(c);
    UiElem(n, c.controlType, c.enabled, c.rect, Center(c.rect),
           if c.controlType == Edit || c.controlType == Document then Some(if |n| <= 100 then n else n[..100]) else None)
  }

  /** The element added to its category. */
  function Add(e: Elements, k: Category, x: UiElem): Elements
  {
    match k
    case Buttons => e.(buttons := e.buttons + [x])
    case Links => e.(links := e.links + [x])
    case MenuItems => e.(menuItems := e.menuItems + [x])
    case ListItems => e.(listItems := e.listItems + [x])
    case Tabs => e.(tabs := e.tabs + [x])
    case Checkboxes => e.(checkboxes := e.checkboxes + [x])
    case RadioButtons => e.(radioButtons := e.radioButtons + [x])
    case TextFields => e.(textFields := e.textFields + [x])
    case Dropdowns => e.(dropdowns := e.dropdowns + [x])
    case Other => e.(other := e.other + [x])
  }

  /** The categories after scanning the controls in tree order. */
  function Scan(controls: seq<Control>): (r: Elements)
    ensures Total(r) <= |controls|
  {
    if |controls| == 0 then NoElements
    else
      var e := Scan(controls[..|controls| - 1]);
      var c := controls[|controls| - 1];
      if Kept(c) then Add(e, CategoryOf(c), ElemOf(c)) else e
  }

  /** The scan after one more control is that control added, when kept, to the scan before it. */
  lemma ScanStep(controls: seq<Control>, i: nat)
    requires i < |controls|
    ensures Scan(controls[..i + 1]) ==
      (if Kept(controls[i]) then Add(Scan(controls[..i]), CategoryOf(controls[i]), ElemOf(controls[i])) else Scan(controls[..i]))
  {
    assert controls[..i + 1][..i] == controls[..i];
  }

  /** How many elements the categories hold in all. */
  function Total(e: Elements): nat
  {
    |e.buttons| + |e.links| + |e.menuItems| + |e.listItems| + |e.tabs| + |e.checkboxes| + |e.radioButtons| +
    |e.textFields| + |e.dropdowns| + |e.other|
  }

  /** Every kept control lands in exactly one category, and no skipped one in any. */
  lemma {:induction false} ScanCountsKept(controls: seq<Control>)
    ensures Total(Scan(controls)) == |Seqs.Filter(controls, (c: Control) => Kept(c))|
  {
    if |controls| > 0 {
      ScanCountsKept(controls[..|controls| - 1]);
    }
  }

  /** Buttons, links and text fields hold only controls of their own types. */
  lemma {:induction false} ScanKinds(controls: seq<Control>)
    ensures var e := Scan(controls);
      (forall x :: x in e.buttons ==> x.controlType == Button) &&
      (forall x :: x in e.links ==> x.controlType == Hyperlink) &&
      (forall x :: x in e.textFields ==> x.controlType == Edit || x.controlType == Document)
  {
    if |controls| > 0 {
      ScanKinds(controls[..|controls| - 1]);
    }
  }

  /** Each text field holds the truncated name of an `Edit` or `Document`. */
  predicate FieldsTruncated(e: Elements)
  {
    forall x :: x in e.textFields ==> x.value.Some? && |x.value.value| <= 100 && Text.StartsWith(x.name, x.value.value)
  }

  lemma {:induction false} ScanFieldsTruncated(controls: seq<Control>)
    ensures FieldsTruncated(Scan(controls))
  {
    if |controls| > 0 {
      var front := controls[..|controls| - 1];
      var c := controls[|controls| - 1];
      ScanFieldsTruncated(front);
      if Kept(c) && CategoryOf(c) == TextFields {
        assert Scan(controls).textFields == Scan(front).textFields + [ElemOf(c)];
      }
    }
  }

  /** The categories as the dictionary lists them: name and items. */
  function Pairs(e: Elements): seq<(string, seq<UiElem>)>
  {
    [("buttons", e.buttons), ("links", e.links), ("menu_items", e.menuItems), ("list_items", e.listItems),
     ("tabs", e.tabs), ("checkboxes", e.checkboxes), ("radio_buttons", e.radioButtons),
     ("text_fields", e.textFields), ("dropdowns", e.dropdowns), ("other", e.other)]
  }

  /**
   * The returned dictionary: only the buttons with `buttons_only`, whatever
   * else is asked; only the links with `links_only`; otherwise every
   * category that is not empty, in order.
   */
  function Report(e: Elements, buttonsOnly: bool, linksOnly: bool): (r: seq<(string, seq<UiElem>)>)
    ensures buttonsOnly ==> r == [("buttons", e.buttons)]
    ensures !buttonsOnly && linksOnly ==> r == [("links", e.links)]
    ensures !buttonsOnly && !linksOnly ==> forall p :: p in r <==> p in Pairs(e) && |p.1| > 0
  {
    if buttonsOnly then [("buttons", e.buttons)]
    else if linksOnly then [("links", e.links)]
    else Seqs.Filter(Pairs(e), (p: (string, seq<UiElem>)) => |p.1| > 0)
  }

  /** One pass of the loop body: the `if`/`elif` chain on the control type. */
  method Categorise(e: Elements, c: Control) returns (r: Elements)
    ensures r == (if Kept(c) then Add(e, CategoryOf(c), ElemOf(c)) else e)
  {
    r := e;
    var name := Name(c);
    if name != "" || c.controlType == Edit || c.controlType == Document {
      var x := ElemOf(c);
      if c.controlType == Button {
        r := e.(buttons := e.buttons + [x]);
      } else if c.controlType == Hyperlink {
        r := e.(links := e.links + [x]);
      } else if c.controlType == MenuItem {
        r := e.(menuItems := e.menuItems + [x]);
      } else if c.controlType == ListItem {
        r := e.(listItems := e.listItems + [x]);
      } else if c.controlType == TabItem {
        r := e.(tabs := e.tabs + [x]);
      } else if c.controlType == CheckBox {
        r := e.(checkboxes := e.checkboxes + [x]);
      } else if c.controlType == RadioButton {
        r := e.(radioButtons := e.radioButtons + [x]);
      } else if c.controlType == Edit || c.controlType == Document {
        r := e.(textFields := e.textFields + [x]);
      } else if c.controlType == ComboBox {
        r := e.(dropdowns := e.dropdowns + [x]);
      } else if name != "" {
        r := e.(other := e.other + [x]);
      }
    }
  }

  /** `get_ui_elements`: the controls visited in tree order, each kept one appended to its category. */
  method GetUiElements(w: Window, buttonsOnly: bool, linksOnly: bool) returns (r: seq<(string, seq<UiElem>)>)
    ensures r == Report(Scan(w.controls), buttonsOnly, linksOnly)
  {
    var e := NoElements;
    var i := 0;
    while i < |w.controls|
      invariant 0 <= i <= |w.controls|
      invariant e == Scan(w.controls[..i])
    {
      ScanStep(w.controls, i);
      e := Categorise(e, w.controls[i]);
      i := i + 1;
    }
    assert w.controls[..i] == w.controls;
    r := Report(e, buttonsOnly, linksOnly);
  }

  /** The parsed arguments: the title to look for and the two filters. */
  datatype Args = Args(windowTitle: string, buttonsOnly: bool, linksOnly: bool)

  /**
   * A run: the first window whose title contains the argument is read, exit
   * 0; with none, the titled windows are listed and the run exits 1.
   */
  method Run(args: Args, windows: seq<Window>) returns (exit: int, result: Option<seq<(string, seq<UiElem>)>>, listing: seq<string>)
    ensures FirstTitleMatch(windows, args.windowTitle).None? ==> exit == 1 && result.None? && listing == TitleListing(windows)
    ensures FirstTitleMatch(windows, args.windowTitle).Some? ==>
      exit == 0 && listing == [] &&
      result == Some(Report(Scan(windows[FirstTitleMatch(windows, args.windowTitle).value].controls), args.buttonsOnly, args.linksOnly))
  {
    var found := FindWindow(windows, args.windowTitle);
    if found.None? {
      listing := ListTitles(windows);
      return 1, None, listing;
    }
    var r := GetUiElements(windows[found.value], args.buttonsOnly, args.linksOnly);
    return 0, Some(r), [];
  }
}
