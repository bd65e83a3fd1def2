/**
 * `read_webpage.py`: pick a browser window and read its page through the
 * accessibility tree: texts and headings always, buttons, links, inputs
 * and images when asked for.
 */
module ReadWebpage {
  import opened Wrappers
  import Text
  import Seqs
  import opened Desktop

  const BrowserNames: seq<string> := ["chrome", "firefox", "edge", "brave", "opera", "vivaldi", "arc"]

  /** `is_browser_window`: the lower-cased title contains a browser's name. */
  predicate IsBrowserTitle(title: string)
  {
    exists b :: b in BrowserNames && Text.Contains(Text.Lower(title), b)
  }

  /** The first window whose title names a browser. */
  function FirstBrowser(windows: seq<Window>, i: nat): (r: Option<nat>)
    requires i <= |windows|
    ensures r.Some? ==> i <= r.value < |windows| && IsBrowserTitle(windows[r.value].title)
    ensures r.Some? ==> forall j :: i <= j < r.value ==> !IsBrowserTitle(windows[j].title)
    ensures r.None? <==> forall j :: i <= j < |windows| ==> !IsBrowserTitle(windows[j].title)
    decreases |windows| - i
  {
    if i == |windows| then None
    else if IsBrowserTitle(windows[i].title) then Some(i)
    else FirstBrowser(windows, i + 1)
  }

  /** The window to read: with a hint, the first title containing it; without one (or an empty one), the first browser title. */
  function BrowserWindow(windows: seq<Window>, hint: string): (r: Option<nat>)
    ensures hint != "" ==> r == FirstTitleMatch(windows, hint)
    ensures hint == "" ==> r == FirstBrowser(windows, 0)
  {
    if hint != "" then FirstTitleMatch(windows, hint) else FirstBrowser(windows, 0)
  }

  /** `find_browser_window`: the windows scanned in order for the first that qualifies. */
  method FindBrowserWindow(windows: seq<Window>, hint: string) returns (r: Option<nat>)
    ensures r == BrowserWindow(windows, hint)
  {
    var i := 0;
    while i < |windows|
      invariant 0 <= i <= |windows|
      invariant hint != "" ==> forall j :: 0 <= j < i ==> !TitleMatches(windows[j].title, hint)
      invariant hint == "" ==> FirstBrowser(windows, 0) == FirstBrowser(windows, i)
    {
      if hint != "" {
        if TitleMatches(windows[i].title, hint) {
          return Some(i);
        }
      } else if IsBrowserTitle(windows[i].title) {
        return Some(i);
      }
      i := i + 1;
    }
    return None;
  }

  const MaxName := 1000

  /** The name a control is reported under: stripped, and cut to 1000 characters followed by "..." when longer. */
  function ShownName(c: Control): (n: string)
    ensures |Name(c)| <= MaxName ==> n == Name(c)
    ensures |Name(c)| > MaxName ==> |n| == MaxName + 3 && n[..MaxName] == Name(c)[..MaxName] && n[MaxName..] == "..."
  {
    var n := Name(c);
    if |n| > MaxName then n[..MaxName] + "..." else n
  }

  /** Python's `isupper` on ASCII: some upper-case letter and no lower-case one. */
  predicate IsUpper(s: string)
  {
    (exists i :: 0 <= i < |s| && 'A' <= s[i] <= 'Z') && forall i :: 0 <= i < |s| ==> !('a' <= s[i] <= 'z')
  }

  /** A text looks like a heading: short and all capitals, or ending in a colon. */
  predicate IsHeading(name: string)
  {
    (|name| < 100 && IsUpper(name)) || Text.EndsWith(name, ":")
  }

  /** A reported element: its name and type, a centre for buttons and links, a url for links, a value for inputs. */
  datatype WebElem = WebElem(name: string, controlType: ControlType, center: Option<(int, int)>,
                             url: Option<string>, value: Option<string>)

  predicate IsLinkType(t: ControlType)
  {
    t == Hyperlink || t == Link
  }

  /** The element of a named control; a link's url is its automation id when that starts with "http". */
  function WebElemOf(c: Control): (e: WebElem)
    ensures e.name == ShownName(c)
    ensures e.center.Some? <==> c.controlType == Button || IsLinkType(c.controlType)
    ensures e.url.Some? <==> IsLinkType(c.controlType) && Text.StartsWith(c.automationId, "http")
    ensures e.url.Some? ==> e.url.value == c.automationId
  {
    WebElem(ShownName(c), c.controlType,
            if c.controlType == Button || IsLinkType(c.controlType) then Some(Center(c.rect)) else None,
            if IsLinkType(c.controlType) && Text.StartsWith(c.automationId, "http") then Some(c.automationId) else None,
            if c.controlType == Edit || c.controlType == ComboBox then Some(c.value.GetOr("")) else None)
  }

  /** The extraction switches: `--buttons`, `--links` and `--full`. */
  datatype Options = Options(includeButtons: bool, includeLinks: bool, full: bool)

  /** The page as read, before duplicates are removed from the texts. */
  datatype Page = Page(title: string, text: seq<string>, headings: seq<string>, buttons: seq<WebElem>,
                       links: seq<WebElem>, inputs: seq<WebElem>, images: seq<WebElem>)

  /** One control added to the page by the categorising chain; unnamed controls are skipped. */
  function AddControl(p: Page, c: Control, o: Options): Page
  {
    var n := ShownName(c);
    var t := c.controlType;
    if Name(c) == "" then p
    else if t == TextType || t == Static then
      if IsHeading(n) then p.(headings := p.headings + [n]) else p.(text := p.text + [n])
    else if t == Button && (o.includeButtons || o.full) then p.(buttons := p.buttons + [WebElemOf(c)])
    else if IsLinkType(t) && (o.includeLinks || o.full) then p.(links := p.links + [WebElemOf(c)])
    else if (t == Edit || t == ComboBox) && o.full then p.(inputs := p.inputs + [WebElemOf(c)])
    else if t == Image && o.full then p.(images := p.images + [WebElemOf(c)])
    else p
  }

  /** The page after scanning the controls in tree order. */
  function Scan(title: string, controls: seq<Control>, o: Options): (r: Page)
    ensures r.title == title
    ensures |r.text| + |r.headings| + |r.buttons| + |r.links| + |r.inputs| + |r.images| <= |controls|
    ensures forall e :: e in r.buttons ==> e.controlType == Button
    ensures forall e :: e in r.inputs ==> e.controlType == Edit || e.controlType == ComboBox
    ensures forall e :: e in r.images ==> e.controlType == Image
  {
    if |controls| == 0 then Page(title, [], [], [], [], [], [])
    else AddControl(Scan(title, controls[..|controls| - 1], o), controls[|controls| - 1], o)
  }

  /** The scan after one more control is that control added to the scan before it. */
  lemma ScanStep(title: string, controls: seq<Control>, o: Options, i: nat)
    requires i < |controls|
    ensures Scan(title, controls[..i + 1], o) == AddControl(Scan(title, controls[..i], o), controls[i], o)
  {
    assert controls[..i + 1][..i] == controls[..i];
  }

  /** The extracted content: the scan, with repeated texts removed. */
  function Extract(w: Window, o: Options): Page
  {
    var p := Scan(w.title, w.controls, o);
    p.(text := Seqs.Dedup(p.text))
  }

  /** Buttons need `--buttons` or `--full`, links `--links` or `--full`, inputs and images `--full`. */
  lemma {:induction false} ScanGates(title: string, controls: seq<Control>, o: Options)
    ensures !(o.includeButtons || o.full) ==> Scan(title, controls, o).buttons == []
    ensures !(o.includeLinks || o.full) ==> Scan(title, controls, o).links == []
    ensures !o.full ==> Scan(title, controls, o).inputs == [] && Scan(title, controls, o).images == []
  {
    if |controls| > 0 {
      ScanGates(title, controls[..|controls| - 1], o);
    }
  }

  /** Headings all look like headings and texts do not; every name is at most 1003 characters. */
  predicate Categorised(p: Page)
  {
    (forall h :: h in p.headings ==> IsHeading(h) && h != "") &&
    (forall t :: t in p.text ==> !IsHeading(t) && t != "") &&
    (forall e :: e in p.links ==> IsLinkType(e.controlType) && |e.name| <= MaxName + 3)
  }

  lemma {:induction false} ScanCategorised(title: string, controls: seq<Control>, o: Options)
    ensures Categorised(Scan(title, controls, o))
  {
    if |controls| > 0 {
      var front := controls[..|controls| - 1];
      var c := controls[|controls| - 1];
      var p := Scan(title, front, o);
      ScanCategorised(title, front, o);
      var n := ShownName(c);
      assert n != "" || Name(c) == "";
      if Name(c) != "" && (c.controlType == TextType || c.controlType == Static) {
        if IsHeading(n) {
          assert Scan(title, controls, o).headings == p.headings + [n];
        } else {
          assert Scan(title, controls, o).text == p.text + [n];
        }
      } else if Name(c) != "" && IsLinkType(c.controlType) && (o.includeLinks || o.full) && !(c.controlType == Button && (o.includeButtons || o.full)) {
        assert Scan(title, controls, o).links == p.links + [WebElemOf(c)];
      }
    }
  }

  /** The reported texts are distinct, each text read is reported, and they keep the order of their first appearance. */
  lemma ExtractTextsDistinct(w: Window, o: Options)
    ensures var e := Extract(w, o); var raw := Scan(w.title, w.controls, o).text;
      (forall i, j :: 0 <= i < j < |e.text| ==> e.text[i] != e.text[j]) &&
      (forall t :: t in e.text <==> t in raw) &&
      (forall i, j :: 0 <= i < j < |e.text| ==> Seqs.FirstPos(raw, e.text[i]) < Seqs.FirstPos(raw, e.text[j]))
  {
    Seqs.DedupKeepsFirstOrder(Scan(w.title, w.controls, o).text);
  }

  /** `extract_webpage_content`: the controls visited in tree order, then the `seen` set loop over the texts. */
  method ExtractWebpageContent(w: Window, o: Options) returns (p: Page)
    ensures p == Extract(w, o)
  {
    p := Page(w.title, [], [], [], [], [], []);
    var i := 0;
    while i < |w.controls|
      invariant 0 <= i <= |w.controls|
      invariant p == Scan(w.title, w.controls[..i], o)
    {
      var c := w.controls[i];
      ScanStep(w.title, w.controls, o, i);
      ghost var next := AddControl(p, c, o);
      var name := Name(c);
      if name != "" {
        var n := ShownName(c);
        var t := c.controlType;
        if t == TextType || t == Static {
          if IsHeading(n) {
            p := p.(headings := p.headings + [n]);
          } else {
            p := p.(text := p.text + [n]);
          }
        } else if t == Button && (o.includeButtons || o.full) {
          p := p.(buttons := p.buttons + [WebElemOf(c)]);
        } else if IsLinkType(t) && (o.includeLinks || o.full) {
          p := p.(links := p.links + [WebElemOf(c)]);
        } else if (t == Edit || t == ComboBox) && o.full {
          p := p.(inputs := p.inputs + [WebElemOf(c)]);
        } else if t == Image && o.full {
          p := p.(images := p.images + [WebElemOf(c)]);
        }
      }
      assert p == next;
      i := i + 1;
    }
    assert w.controls[..i] == w.controls;
    var unique := Seqs.DedupSeen(p.text);
    p := p.(text := unique);
  }

  /** The keys of the dictionary `extract_content` returns. */
  datatype PageKey = TitleKey | TextKey | HeadingsKey | ButtonsKey | LinksKey | InputsKey | ImagesKey

  /** The name a key has in the printed JSON. */
  function KeyName(k: PageKey): string
  {
    match k
    case TitleKey => "title"
    case TextKey => "text"
    case HeadingsKey => "headings"
    case ButtonsKey => "buttons"
    case LinksKey => "links"
    case InputsKey => "inputs"
    case ImagesKey => "images"
  }

  /** The keys the cleaned-up dictionary keeps: those whose value is not empty. */
  function PresentKeys(p: Page): (keys: set<PageKey>)
    ensures TitleKey in keys <==> p.title != ""
    ensures TextKey in keys <==> |p.text| > 0
    ensures HeadingsKey in keys <==> |p.headings| > 0
    ensures ButtonsKey in keys <==> |p.buttons| > 0
    ensures LinksKey in keys <==> |p.links| > 0
    ensures InputsKey in keys <==> |p.inputs| > 0
    ensures ImagesKey in keys <==> |p.images| > 0
  {
    (if p.title != "" then {TitleKey} else {}) +
    (if |p.text| > 0 then {TextKey} else {}) +
    (if |p.headings| > 0 then {HeadingsKey} else {}) +
    (if |p.buttons| > 0 then {ButtonsKey} else {}) +
    (if |p.links| > 0 then {LinksKey} else {}) +
    (if |p.inputs| > 0 then {InputsKey} else {}) +
    (if |p.images| > 0 then {ImagesKey} else {})
  }

  /** Without `--full` the cleaned-up result never lists inputs or images. */
  lemma NoInputsWithoutFull(w: Window, o: Options)
    requires !o.full
    ensures InputsKey !in PresentKeys(Extract(w, o)) && ImagesKey !in PresentKeys(Extract(w, o))
  {
    ScanGates(w.title, w.controls, o);
  }

  /**
   * A run: with no browser window found, the titled windows are listed and
   * the run exits 1; otherwise the chosen window's content is extracted.
   */
  method Run(hint: string, o: Options, windows: seq<Window>) returns (exit: int, content: Option<Page>, listing: seq<string>)
    ensures BrowserWindow(windows, hint).None? ==> exit == 1 && content.None? && listing == TitleListing(windows)
    ensures BrowserWindow(windows, hint).Some? ==>
      exit == 0 && listing == [] && content == Some(Extract(windows[BrowserWindow(windows, hint).value], o))
  {
    var found := FindBrowserWindow(windows, hint);
    if found.None? {
      listing := ListTitles(windows);
      return 1, None, listing;
    }
    var p := ExtractWebpageContent(windows[found.value], o);
    return 0, Some(p), [];
  }
}
