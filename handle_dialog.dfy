/**
 * `handle_dialog.py`: which windows count as dialogs, what a dialog's
 * contents read as, clicking a button by name, typing into the n-th text
 * field, dismissing with the first common button that works, choosing the
 * target dialog, and waiting for a dialog to appear.
 */
module HandleDialog {
  import opened Wrappers
  import Text
  import Seqs
  import opened Desktop

  const DialogClasses: seq<string> := ["#32770", "Dialog", "MessageBox", "Alert", "Popup"]
  const DialogTypes: seq<ControlType> := [WindowType, DialogType, Pane]
  const TitleKeywords: seq<string> := ["dialog", "save", "open", "confirm", "warning", "error", "alert"]
  const DismissButtons: seq<string> := ["OK", "Close", "Cancel", "Yes", "No", "Dismiss", "Got it", "Accept", "Done"]

  /** A window is dialog-like by its type, by its class name, or by a keyword in its lower-cased title. */
  predicate IsDialog(w: Window)
  {
    w.controlType in DialogTypes ||
    (exists dc :: dc in DialogClasses && Text.Contains(w.className, dc)) ||
    (exists kw :: kw in TitleKeywords && Text.Contains(Text.Lower(w.title), kw))
  }

  /** A window `find_dialogs` lists: dialog-like and titled. */
  predicate Listed(w: Window)
  {
    IsDialog(w) && w.title != ""
  }

  /** The dialogs of a desktop, in window order. */
  function Dialogs(windows: seq<Window>): (r: seq<Window>)
    ensures |r| <= |windows|
    ensures forall w :: w in r <==> w in windows && IsDialog(w) && w.title != ""
  {
    Seqs.Filter(windows, (w: Window) => Listed(w))
  }

  /** `find_dialogs`: the windows scanned in order, the titled dialog-like ones kept. */
  method FindDialogs(windows: seq<Window>) returns (dialogs: seq<Window>)
    ensures dialogs == Dialogs(windows)
  {
    dialogs := [];
    var i := 0;
    while i < |windows|
      invariant 0 <= i <= |windows|
      invariant dialogs == Dialogs(windows[..i])
    {
      assert windows[..i + 1][..i] == windows[..i];
      if IsDialog(windows[i]) && windows[i].title != "" {
        dialogs := dialogs + [windows[i]];
      }
      i := i + 1;
    }
    assert windows[..i] == windows;
  }

  /** An untitled window is never listed, whatever its type; a titled `Pane` always is. */
  lemma DialogTitles(w: Window)
    ensures w.title == "" ==> w !in Dialogs([w])
    ensures w.title != "" && w.controlType == Pane ==> w in Dialogs([w])
  {
    assert [w][..0] == [];
  }

  /** A control as `read_dialog` reports it. */
  datatype Elem = Elem(name: string, controlType: ControlType, enabled: bool, center: (int, int),
                       value: Option<string>, checked: Option<bool>)

  /** The buckets of `read_dialog`; `dropdowns` is declared but never filled. */
  datatype DialogContent = DialogContent(title: string, message: seq<string>, buttons: seq<Elem>,
                                         textFields: seq<Elem>, checkboxes: seq<Elem>,
                                         dropdowns: seq<Elem>, listItems: seq<Elem>)

  datatype Bucket = ButtonBucket | MessageBucket | FieldBucket | CheckboxBucket | ListItemBucket | NoBucket

  /** The first branch of the classification chain a control takes. */
  function BucketOf(c: Control): (b: Bucket)
    ensures b == ButtonBucket ==> c.controlType == Button && Name(c) != ""
    ensures b == MessageBucket ==> (c.controlType == TextType || c.controlType == Static) && Name(c) != ""
    ensures b == FieldBucket <==> c.controlType == Edit || c.controlType == ComboBox
    ensures b == CheckboxBucket <==> c.controlType == CheckBox
    ensures b == ListItemBucket <==> c.controlType == ListItem && Name(c) != ""
  {
    var n := Name(c);
    if c.controlType == Button && n != "" then ButtonBucket
    else if (c.controlType == TextType || c.controlType == Static) && n != "" then MessageBucket
    else if c.controlType == Edit || c.controlType == ComboBox then FieldBucket
    else if c.controlType == CheckBox then CheckboxBucket
    else if c.controlType == ListItem && n != "" then ListItemBucket
    else NoBucket
  }

  /**
   * The element recorded for a control: a text field's value is what
   * `get_value` answers, or the name when it cannot; a checkbox is checked
   * when its toggle state is 1.
   */
  function ElemOf(c: Control): Elem
  {
    var n := Name(c);
    Elem(n, c.controlType, c.enabled, Center(c.rect),
         if c.controlType == Edit || c.controlType == ComboBox then Some(c.value.GetOr(n)) else None,
         if c.controlType == CheckBox && c.toggleState.Some? then Some(c.toggleState.value == 1) else None)
  }

  /** One control added to the buckets. */
  function AddControl(d: DialogContent, c: Control): DialogContent
  {
    match BucketOf(c)
    case ButtonBucket => d.(buttons := d.buttons + [ElemOf(c)])
    case MessageBucket => d.(message := d.message + [Name(c)])
    case FieldBucket => d.(textFields := d.textFields + [ElemOf(c)])
    case CheckboxBucket => d.(checkboxes := d.checkboxes + [ElemOf(c)])
    case ListItemBucket => d.(listItems := d.listItems + [ElemOf(c)])
    case NoBucket => d
  }

  /** The number of controls taking one of the five buckets. */
  function Bucketed(controls: seq<Control>): nat
  {
    if |controls| == 0 then 0
    else Bucketed(controls[..|controls| - 1]) + (if BucketOf(controls[|controls| - 1]) == NoBucket then 0 else 1)
  }

  /** The contents of a dialog with the given controls: every bucketed control in exactly one bucket, and nothing ever in `dropdowns`. */
  function Content(title: string, controls: seq<Control>): (d: DialogContent)
    ensures d.title == title && d.dropdowns == []
    ensures |d.message| + |d.buttons| + |d.textFields| + |d.checkboxes| + |d.listItems| == Bucketed(controls)
  {
    if |controls| == 0 then DialogContent(title, [], [], [], [], [], [])
    else AddControl(Content(title, controls[..|controls| - 1]), controls[|controls| - 1])
  }

  /** Each bucket holds only its own kind of control, named where the bucket requires a name. */
  predicate KindsRespected(d: DialogContent)
  {
    (forall e :: e in d.buttons ==> e.controlType == Button && e.name != "") &&
    (forall m :: m in d.message ==> m != "") &&
    (forall e :: e in d.textFields ==> (e.controlType == Edit || e.controlType == ComboBox) && e.value.Some?) &&
    (forall e :: e in d.checkboxes ==> e.controlType == CheckBox) &&
    (forall e :: e in d.listItems ==> e.controlType == ListItem && e.name != "")
  }

  /** Adding a control keeps every bucket to its own kind. */
  lemma AddControlKinds(d: DialogContent, c: Control)
    requires KindsRespected(d)
    ensures KindsRespected(AddControl(d, c))
  {
    match BucketOf(c)
    case ButtonBucket =>
      assert AddControl(d, c).buttons == d.buttons + [ElemOf(c)];
    case MessageBucket =>
      assert AddControl(d, c).message == d.message + [Name(c)];
    case FieldBucket =>
      assert AddControl(d, c).textFields == d.textFields + [ElemOf(c)];
    case CheckboxBucket =>
    case ListItemBucket =>
      assert AddControl(d, c).listItems == d.listItems + [ElemOf(c)];
    case NoBucket =>
  }

  /** Adding a control keeps what the buttons and text fields held. */
  lemma AddControlPrefix(d: DialogContent, c: Control)
    ensures AddControl(d, c).buttons[..|d.buttons|] == d.buttons
    ensures AddControl(d, c).textFields[..|d.textFields|] == d.textFields
  {
  }

  /** The buckets hold only their own kinds. */
  lemma {:induction false} ContentKinds(title: string, controls: seq<Control>)
    ensures KindsRespected(Content(title, controls))
  {
    if |controls| > 0 {
      ContentKinds(title, controls[..|controls| - 1]);
      AddControlKinds(Content(title, controls[..|controls| - 1]), controls[|controls| - 1]);
    }
  }

  /** Every named button and every text field of the dialog is reported. */
  lemma {:induction false} ContentReports(title: string, controls: seq<Control>)
    ensures forall c :: c in controls && BucketOf(c) == ButtonBucket ==> ElemOf(c) in Content(title, controls).buttons
    ensures forall c :: c in controls && BucketOf(c) == FieldBucket ==> ElemOf(c) in Content(title, controls).textFields
  {
    if |controls| > 0 {
      var front := controls[..|controls| - 1];
      var c := controls[|controls| - 1];
      var d := Content(title, front);
      ContentReports(title, front);
      AddControlPrefix(d, c);
      var d' := Content(title, controls);
      assert d' == AddControl(d, c);
      forall x | x in controls && BucketOf(x) == ButtonBucket
        ensures ElemOf(x) in d'.buttons
      {
        if x in front {
          assert ElemOf(x) in d'.buttons[..|d.buttons|];
        } else {
          assert x == c;
          assert d'.buttons == d.buttons + [ElemOf(c)];
        }
      }
      forall x | x in controls && BucketOf(x) == FieldBucket
        ensures ElemOf(x) in d'.textFields
      {
        if x in front {
          assert ElemOf(x) in d'.textFields[..|d.textFields|];
        } else {
          assert x == c;
          assert d'.textFields == d.textFields + [ElemOf(c)];
        }
      }
    }
  }

  /** `read_dialog`: the controls visited in tree order, each appended to its bucket. */
  method ReadDialog(w: Window) returns (d: DialogContent)
    ensures d == Content(w.title, w.controls)
  {
    d := DialogContent(w.title, [], [], [], [], [], []);
    var i := 0;
    while i < |w.controls|
      invariant 0 <= i <= |w.controls|
      invariant d == Content(w.title, w.controls[..i])
    {
      var c := w.controls[i];
      var n := Name(c);
      ContentStep(w.title, w.controls, i);
      ghost var next := AddControl(d, c);
      if c.controlType == Button && n != "" {
        d := d.(buttons := d.buttons + [ElemOf(c)]);
      } else if (c.controlType == TextType || c.controlType == Static) && n != "" {
        d := d.(message := d.message + [n]);
      } else if c.controlType == Edit || c.controlType == ComboBox {
        d := d.(textFields := d.textFields + [ElemOf(c)]);
      } else if c.controlType == CheckBox {
        d := d.(checkboxes := d.checkboxes + [ElemOf(c)]);
      } else if c.controlType == ListItem && n != "" {
        d := d.(listItems := d.listItems + [ElemOf(c)]);
      }
      assert d == next;
      i := i + 1;
    }
    assert w.controls[..i] == w.controls;
  }

  /** The contents after one more control are that control added to the contents before it. */
  lemma ContentStep(title: string, controls: seq<Control>, i: nat)
    requires i < |controls|
    ensures Content(title, controls[..i + 1]) == AddControl(Content(title, controls[..i]), controls[i])
  {
    assert controls[..i + 1][..i] == controls[..i];
  }

  /** The keys of the dictionary `read` prints. */
  datatype DialogKey = TitleKey | MessageKey | ButtonsKey | TextFieldsKey | CheckboxesKey | DropdownsKey | ListItemsKey

  /** The name a key has in the printed JSON. */
  function KeyName(k: DialogKey): string
  {
    match k
    case TitleKey => "title"
    case MessageKey => "message"
    case ButtonsKey => "buttons"
    case TextFieldsKey => "text_fields"
    case CheckboxesKey => "checkboxes"
    case DropdownsKey => "dropdowns"
    case ListItemsKey => "list_items"
  }

  /** The keys the cleaned-up dictionary keeps: those whose value is not empty. */
  function PresentKeys(d: DialogContent): (keys: set<DialogKey>)
    ensures TitleKey in keys <==> d.title != ""
    ensures MessageKey in keys <==> |d.message| > 0
    ensures ButtonsKey in keys <==> |d.buttons| > 0
    ensures TextFieldsKey in keys <==> |d.textFields| > 0
    ensures CheckboxesKey in keys <==> |d.checkboxes| > 0
    ensures DropdownsKey in keys <==> |d.dropdowns| > 0
    ensures ListItemsKey in keys <==> |d.listItems| > 0
  {
    (if d.title != "" then {TitleKey} else {}) +
    (if |d.message| > 0 then {MessageKey} else {}) +
    (if |d.buttons| > 0 then {ButtonsKey} else {}) +
    (if |d.textFields| > 0 then {TextFieldsKey} else {}) +
    (if |d.checkboxes| > 0 then {CheckboxesKey} else {}) +
    (if |d.dropdowns| > 0 then {DropdownsKey} else {}) +
    (if |d.listItems| > 0 then {ListItemsKey} else {})
  }

  /** A read dialog never reports `dropdowns`: combo boxes are taken as text fields first. */
  lemma NoDropdownsReported(w: Window)
    ensures DropdownsKey !in PresentKeys(Content(w.title, w.controls))
  {
  }

  /** A button whose stripped name contains the query, case-insensitively. */
  predicate ButtonMatches(c: Control, query: string)
  {
    c.controlType == Button && Text.ContainsCI(Name(c), query)
  }

  /** The first button in tree order matching the query. */
  function FirstButton(controls: seq<Control>, query: string): (r: Option<nat>)
    ensures r.Some? ==> r.value < |controls| && ButtonMatches(controls[r.value], query)
    ensures r.Some? ==> forall j :: 0 <= j < r.value ==> !ButtonMatches(controls[j], query)
    ensures r.None? <==> forall j :: 0 <= j < |controls| ==> !ButtonMatches(controls[j], query)
  {
    FirstButtonFrom(controls, query, 0)
  }

  function FirstButtonFrom(controls: seq<Control>, query: string, k: nat): (r: Option<nat>)
    requires k <= |controls|
    ensures r.Some? ==> k <= r.value < |controls| && ButtonMatches(controls[r.value], query)
    ensures r.Some? ==> forall j :: k <= j < r.value ==> !ButtonMatches(controls[j], query)
    ensures r.None? <==> forall j :: k <= j < |controls| ==> !ButtonMatches(controls[j], query)
    decreases |controls| - k
  {
    if k == |controls| then None
    else if ButtonMatches(controls[k], query) then Some(k)
    else FirstButtonFrom(controls, query, k + 1)
  }

  /**
   * A matching button that ends the search: a disabled one fails the call,
   * and an enabled one whose click does not raise succeeds. `clickOk(k)`
   * says whether clicking the control at position `k` goes through; an
   * enabled match whose click raises is skipped by the bare `except`.
   */
  predicate Decides(controls: seq<Control>, query: string, clickOk: nat -> bool, k: nat)
    requires k < |controls|
  {
    ButtonMatches(controls[k], query) && (!controls[k].enabled || clickOk(k))
  }

  /** The first matching button from position `k` on that ends the search. */
  function FirstDecisiveFrom(controls: seq<Control>, query: string, clickOk: nat -> bool, k: nat): (r: Option<nat>)
    requires k <= |controls|
    ensures r.Some? ==> k <= r.value < |controls| && Decides(controls, query, clickOk, r.value)
    ensures r.Some? ==> forall j :: k <= j < r.value ==> !Decides(controls, query, clickOk, j)
    ensures r.None? <==> forall j :: k <= j < |controls| ==> !Decides(controls, query, clickOk, j)
    decreases |controls| - k
  {
    if k == |controls| then None
    else if Decides(controls, query, clickOk, k) then Some(k)
    else FirstDecisiveFrom(controls, query, clickOk, k + 1)
  }

  /** The first matching button that ends the search. */
  function FirstDecisive(controls: seq<Control>, query: string, clickOk: nat -> bool): (r: Option<nat>)
    ensures r.Some? ==> r.value < |controls| && Decides(controls, query, clickOk, r.value)
    ensures r.Some? ==> forall j :: 0 <= j < r.value ==> !Decides(controls, query, clickOk, j)
    ensures r.None? <==> forall j :: 0 <= j < |controls| ==> !Decides(controls, query, clickOk, j)
  {
    FirstDecisiveFrom(controls, query, clickOk, 0)
  }

  /** Clicking by this query succeeds: the button that ends the search is enabled, so its click went through. */
  predicate ClickSucceeds(controls: seq<Control>, query: string, clickOk: nat -> bool)
  {
    ClickFrom(controls, query, clickOk, 0)
  }

  /** Whether the search from position `k` on ends with a click that goes through. */
  predicate ClickFrom(controls: seq<Control>, query: string, clickOk: nat -> bool, k: nat)
    requires k <= |controls|
    decreases |controls| - k
  {
    if k == |controls| then false
    else if ButtonMatches(controls[k], query) && !controls[k].enabled then false
    else if ButtonMatches(controls[k], query) && clickOk(k) then true
    else ClickFrom(controls, query, clickOk, k + 1)
  }

  lemma {:induction false} ClickFromFirst(controls: seq<Control>, query: string, clickOk: nat -> bool, k: nat)
    requires k <= |controls|
    ensures var f := FirstDecisiveFrom(controls, query, clickOk, k);
      ClickFrom(controls, query, clickOk, k) <==> f.Some? && controls[f.value].enabled
    decreases |controls| - k
  {
    if k < |controls| && !Decides(controls, query, clickOk, k) {
      ClickFromFirst(controls, query, clickOk, k + 1);
    }
  }

  /** A click succeeds exactly when the button that ends the search exists and is enabled. */
  lemma ClickSucceedsFirst(controls: seq<Control>, query: string, clickOk: nat -> bool)
    ensures var f := FirstDecisive(controls, query, clickOk);
      ClickSucceeds(controls, query, clickOk) <==> f.Some? && controls[f.value].enabled
  {
    ClickFromFirst(controls, query, clickOk, 0);
  }

  /** When no click raises, the search ends at the first matching button, which is clicked exactly when enabled. */
  lemma {:induction false} CleanClicksFirstButton(controls: seq<Control>, query: string, clickOk: nat -> bool, k: nat)
    requires k <= |controls|
    requires forall j :: k <= j < |controls| ==> clickOk(j)
    ensures FirstDecisiveFrom(controls, query, clickOk, k) == FirstButtonFrom(controls, query, k)
    decreases |controls| - k
  {
    if k < |controls| && !ButtonMatches(controls[k], query) {
      CleanClicksFirstButton(controls, query, clickOk, k + 1);
    }
  }

  /** An enabled match whose click raises is passed over: the outcome is that of the later controls. */
  lemma RaisingClickSkipped(controls: seq<Control>, query: string, clickOk: nat -> bool, k: nat)
    requires k < |controls| && ButtonMatches(controls[k], query) && controls[k].enabled && !clickOk(k)
    ensures ClickFrom(controls, query, clickOk, k) == ClickFrom(controls, query, clickOk, k + 1)
    ensures FirstDecisiveFrom(controls, query, clickOk, k) == FirstDecisiveFrom(controls, query, clickOk, k + 1)
  {
  }

  /**
   * `click_button`: the matching buttons are tried in tree order. An
   * enabled one is clicked and the call succeeds, unless the click raises
   * and the search goes on; a disabled one fails the call without looking
   * further; with none left it reports the button missing.
   */
  method ClickButton(controls: seq<Control>, query: string, clickOk: nat -> bool) returns (ok: bool, clicked: Option<nat>, message: string)
    ensures ok <==> ClickSucceeds(controls, query, clickOk)
    ensures clicked == (if ok then FirstDecisive(controls, query, clickOk) else None)
    ensures ok ==> clicked.Some?
    ensures FirstDecisive(controls, query, clickOk).None? ==> message == "Button '" + query + "' not found"
    ensures var f := FirstDecisive(controls, query, clickOk);
      f.Some? && !controls[f.value].enabled ==> message == "Button '" + Name(controls[f.value]) + "' is disabled"
    ensures clicked.Some? ==> clicked.value < |controls| && message == "Clicked button: " + Name(controls[clicked.value])
  {
    var i := 0;
    while i < |controls|
      invariant 0 <= i <= |controls|
      invariant forall j :: 0 <= j < i ==> !Decides(controls, query, clickOk, j)
    {
      var c := controls[i];
      if c.controlType == Button && Text.ContainsCI(Name(c), query) {
        assert ButtonMatches(c, query);
        if !c.enabled {
          assert Decides(controls, query, clickOk, i);
          assert FirstDecisive(controls, query, clickOk) == Some(i);
          ClickSucceedsFirst(controls, query, clickOk);
          return false, None, "Button '" + Name(c) + "' is disabled";
        }
        if clickOk(i) {
          assert Decides(controls, query, clickOk, i);
          assert FirstDecisive(controls, query, clickOk) == Some(i);
          ClickSucceedsFirst(controls, query, clickOk);
          return true, Some(i), "Clicked button: " + Name(c);
        }
      }
      i := i + 1;
    }
    ClickSucceedsFirst(controls, query, clickOk);
    return false, None, "Button '" + query + "' not found";
  }

  /** A disabled first match hides every later matching button, enabled or not, whatever the clicks do. */
  lemma DisabledFirstMatchBlocks(controls: seq<Control>, query: string, clickOk: nat -> bool, k: nat)
    requires k < |controls| && ButtonMatches(controls[k], query) && !controls[k].enabled
    requires forall j :: 0 <= j < k ==> !ButtonMatches(controls[j], query)
    ensures !ClickSucceeds(controls, query, clickOk)
  {
    ClickSucceedsFirst(controls, query, clickOk);
    assert Decides(controls, query, clickOk, k);
    assert forall j :: 0 <= j < k ==> !Decides(controls, query, clickOk, j);
    assert FirstDecisive(controls, query, clickOk) == Some(k);
  }

  /** The enabled text fields, as control indices in tree order. */
  function EnabledFields(controls: seq<Control>): (r: seq<nat>)
    ensures forall i :: 0 <= i < |r| ==> r[i] < |controls|
    ensures forall k :: 0 <= k < |controls| ==>
      (k in r <==> (controls[k].controlType == Edit || controls[k].controlType == ComboBox) && controls[k].enabled)
    ensures forall i, j :: 0 <= i < j < |r| ==> r[i] < r[j]
  {
    if |controls| == 0 then []
    else
      var front := EnabledFields(controls[..|controls| - 1]);
      var k := |controls| - 1;
      var c := controls[k];
      front + (if (c.controlType == Edit || c.controlType == ComboBox) && c.enabled then [k] else [])
  }

  /**
   * `type_in_field`: no enabled field, or an index past the last one, fails
   * with a message; a negative index counts from the end as Python's list
   * indexing does, and one before the first field fails as the caught
   * `IndexError`. `typeOk` says whether focusing the field and typing into
   * it go through; when they raise the call fails with the error.
   */
  method TypeInField(controls: seq<Control>, fieldIndex: int, typeOk: bool, typeError: string)
    returns (ok: bool, typedInto: Option<nat>, message: string)
    ensures var fs := EnabledFields(controls);
      ok <==> |fs| > 0 && -|fs| <= fieldIndex < |fs| && typeOk
    ensures var fs := EnabledFields(controls);
      typedInto == (if ok then Some(if fieldIndex >= 0 then fs[fieldIndex] else fs[|fs| + fieldIndex]) else None)
    ensures |EnabledFields(controls)| == 0 ==> message == "No text fields found in dialog"
    ensures var fs := EnabledFields(controls);
      |fs| > 0 && -|fs| <= fieldIndex < |fs| && !typeOk ==> message == "Failed to type: " + typeError
    ensures ok ==> message == "Typed into field " + Text.IntToString(fieldIndex)
  {
    var fields: seq<nat> := [];
    var i := 0;
    while i < |controls|
      invariant 0 <= i <= |controls|
      invariant fields == EnabledFields(controls[..i])
    {
      assert controls[..i + 1][..i] == controls[..i];
      if (controls[i].controlType == Edit || controls[i].controlType == ComboBox) && controls[i].enabled {
        fields := fields + [i];
      }
      i := i + 1;
    }
    assert controls[..i] == controls;
    if |fields| == 0 {
      return false, None, "No text fields found in dialog";
    }
    if fieldIndex >= |fields| {
      return false, None, "Field index " + Text.IntToString(fieldIndex) + " out of range (found " + Text.NatToString(|fields|) + " fields)";
    }
    if fieldIndex < -|fields| {
      return false, None, "Failed to type: list index out of range";
    }
    if !typeOk {
      return false, None, "Failed to type: " + typeError;
    }
    var target := if fieldIndex >= 0 then fields[fieldIndex] else fields[|fields| + fieldIndex];
    return true, Some(target), "Typed into field " + Text.IntToString(fieldIndex);
  }

  /** The position in a list of names of the first name whose click succeeds. */
  function FirstDismiss(controls: seq<Control>, names: seq<string>, clickOk: nat -> bool): (r: Option<nat>)
    ensures r.Some? ==> r.value < |names| && ClickSucceeds(controls, names[r.value], clickOk)
    ensures r.Some? ==> forall j :: 0 <= j < r.value ==> !ClickSucceeds(controls, names[j], clickOk)
    ensures r.None? <==> forall j :: 0 <= j < |names| ==> !ClickSucceeds(controls, names[j], clickOk)
  {
    Seqs.FirstIndex(names, Clicks(controls, clickOk))
  }

  /** Whether clicking by a name succeeds on these controls. */
  function Clicks(controls: seq<Control>, clickOk: nat -> bool): string -> bool
  {
    name => ClickSucceeds(controls, name, clickOk)
  }

  /** The first name that clicks is the first one whose click succeeds after all earlier ones failed. */
  lemma FirstDismissAt(controls: seq<Control>, names: seq<string>, clickOk: nat -> bool, k: nat)
    requires k < |names| && ClickSucceeds(controls, names[k], clickOk)
    requires forall j :: 0 <= j < k ==> !ClickSucceeds(controls, names[j], clickOk)
    ensures FirstDismiss(controls, names, clickOk) == Some(k)
  {
  }

  /** How a dismissal ended: a button clicked, Escape sent, or nothing worked. */
  datatype Dismissal = ByButton(name: string, control: nat) | ByEscape | NotDismissed

  /**
   * What `dismiss_dialog` ends with: the first name whose click succeeds,
   * with the button that took the click; otherwise Escape, which
   * `escapeOk` says goes through.
   */
  function Dismissed(controls: seq<Control>, names: seq<string>, clickOk: nat -> bool, escapeOk: bool): (r: Dismissal)
    ensures var k := FirstDismiss(controls, names, clickOk);
      k.Some? ==> (r.ByButton? && r.name == names[k.value] &&
        FirstDecisive(controls, names[k.value], clickOk) == Some(r.control) && controls[r.control].enabled)
    ensures FirstDismiss(controls, names, clickOk).None? ==> r == (if escapeOk then ByEscape else NotDismissed)
  {
    var k := FirstDismiss(controls, names, clickOk);
    if k.Some? then
      ClickSucceedsFirst(controls, names[k.value], clickOk);
      var f := FirstDecisive(controls, names[k.value], clickOk);
      ByButton(names[k.value], f.value)
    else if escapeOk then ByEscape
    else NotDismissed
  }

  /**
   * `dismiss_dialog`: the names tried in their order, the first successful
   * click ending the attempt; otherwise Escape is sent. The script passes
   * `DismissButtons`.
   */
  method DismissDialog(controls: seq<Control>, names: seq<string>, clickOk: nat -> bool, escapeOk: bool) returns (r: Dismissal)
    ensures r == Dismissed(controls, names, clickOk, escapeOk)
  {
    ghost var clicks := Clicks(controls, clickOk);
    var k := 0;
    while k < |names|
      invariant 0 <= k <= |names|
      invariant forall j :: 0 <= j < k ==> !clicks(names[j])
    {
      var ok, clicked, _ := ClickButton(controls, names[k], clickOk);
      if ok {
        Seqs.FirstIndexAt(names, clicks, k);
        return ByButton(names[k], clicked.value);
      }
      k := k + 1;
    }
    r := if escapeOk then ByEscape else NotDismissed;
  }

  /** An "OK"-matching button whose click goes through is always the one a dismissal clicks. */
  lemma OkComesFirst(controls: seq<Control>, clickOk: nat -> bool)
    requires ClickSucceeds(controls, "OK", clickOk)
    ensures FirstDismiss(controls, DismissButtons, clickOk) == Some(0)
  {
    assert DismissButtons[0] == "OK";
  }

  /**
   * The dialog `read`, `click` and `type` act on: with a filter, the first
   * dialog whose title contains it (none when no title does); without one,
   * the first dialog. The empty filter counts as none.
   */
  function FilteredTarget(dialogs: seq<Window>, filter: string): (r: Option<nat>)
    ensures filter != "" ==> r == FirstTitleMatch(dialogs, filter)
    ensures filter == "" ==> r == (if |dialogs| > 0 then Some(0) else None)
  {
    if filter != "" then FirstTitleMatch(dialogs, filter)
    else if |dialogs| > 0 then Some(0)
    else None
  }

  /** The window `click` and `type` act on: the filtered dialog, or the active window when there is no dialog and no filter. */
  datatype Target = DialogAt(index: nat) | ActiveWindow | NoTarget

  function ActionTarget(dialogs: seq<Window>, filter: string): (t: Target)
    ensures filter == "" && |dialogs| == 0 ==> t == ActiveWindow
    ensures t.DialogAt? ==> FilteredTarget(dialogs, filter) == Some(t.index)
    ensures t == NoTarget <==> filter != "" && FirstTitleMatch(dialogs, filter).None?
  {
    if filter == "" && |dialogs| == 0 then ActiveWindow
    else
      var f := FilteredTarget(dialogs, filter);
      if f.Some? then DialogAt(f.value) else NoTarget
  }

  /** `dismiss` targets the first matching dialog, falling back to the first dialog when the filter matches none. */
  function DismissTarget(dialogs: seq<Window>, filter: string): (i: nat)
    requires |dialogs| > 0
    ensures i < |dialogs|
    ensures filter != "" && FirstTitleMatch(dialogs, filter).Some? ==> i == FirstTitleMatch(dialogs, filter).value
    ensures filter == "" || FirstTitleMatch(dialogs, filter).None? ==> i == 0
  {
    if filter != "" && FirstTitleMatch(dialogs, filter).Some? then FirstTitleMatch(dialogs, filter).value else 0
  }

  /** The `dismiss` action: with no dialogs there is nothing to do and it succeeds. */
  method Dismiss(windows: seq<Window>, filter: string, clickOk: nat -> bool, escapeOk: bool) returns (exit: int, r: Dismissal)
    ensures Dialogs(windows) == [] ==> exit == 0 && r == NotDismissed
    ensures Dialogs(windows) != [] ==>
      var d := Dialogs(windows)[DismissTarget(Dialogs(windows), filter)];
      r == Dismissed(d.controls, DismissButtons, clickOk, escapeOk) &&
      exit == (if r == NotDismissed then 1 else 0)
  {
    var dialogs := FindDialogs(windows);
    if |dialogs| == 0 {
      return 0, NotDismissed;
    }
    var target := DismissTarget(dialogs, filter);
    r := DismissDialog(dialogs[target].controls, DismissButtons, clickOk, escapeOk);
    exit := if r == NotDismissed then 1 else 0;
  }

  /** The dialog `wait` looks for: one whose title contains the value, or any dialog when the value is empty. */
  predicate WaitHit(windows: seq<Window>, title: string)
  {
    var ds := Dialogs(windows);
    if title != "" then FirstTitleMatch(ds, title).Some? else |ds| > 0
  }

  /** One scan of the `wait` action: the dialogs listed, then searched by title when one is given. */
  method ScanForDialog(windows: seq<Window>, title: string) returns (hit: bool)
    ensures hit == WaitHit(windows, title)
  {
    var dialogs := FindDialogs(windows);
    hit := |dialogs| > 0;
    if title != "" {
      var found := FindWindow(dialogs, title);
      hit := found.Some?;
    }
  }

  /** Whether the `k`-th scan of `wait` finds a wanted dialog. */
  function WaitAt(desktop: nat -> seq<Window>, title: string): nat -> bool
  {
    (k: nat) => WaitHit(desktop(k), title)
  }

  /**
   * The `wait` action: the desktop re-scanned until a wanted dialog shows or
   * the elapsed time reaches the timeout. `desktop(k)` is the desktop at the
   * `k`-th scan and `clock(k)` the elapsed milliseconds before it.
   */
  method Wait(desktop: nat -> seq<Window>, clock: nat -> int, timeoutS: int, title: string) returns (exit: int, polls: nat)
    requires PollingClock(clock)
    ensures forall k :: 0 <= k < polls ==> clock(k) < timeoutS * 1000 && !WaitAt(desktop, title)(k)
    ensures exit == 0 <==> clock(polls) < timeoutS * 1000
    ensures exit == 0 ==> WaitHit(desktop(polls), title)
    ensures exit == 1 || exit == 0
  {
    var limit := timeoutS * 1000;
    ghost var hits := WaitAt(desktop, title);
    polls := 0;
    while clock(polls) < limit
      invariant forall k :: 0 <= k < polls ==> clock(k) < limit && !hits(k)
      decreases limit - clock(polls)
    {
      var hit := ScanForDialog(desktop(polls), title);
      if hit {
        return 0, polls;
      }
      assert PollStep(clock, polls);
      polls := polls + 1;
    }
    return 1, polls;
  }
}
