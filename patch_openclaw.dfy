/**
 * The build-time patcher of the bundled gateway: three text rewrites of
 * the gateway's JavaScript (injecting the gateway token into the control
 * page, correcting the local-storage key, keeping operator scopes when
 * device authentication is bypassed), the choice of files to rewrite, and
 * a run that writes back only the files whose text changed, counting the
 * patches applied.
 *
 * Only the literal-pattern paths are modelled; the regular-expression
 * fallbacks are taken as not matching.
 */
module PatchOpenclaw {
  import opened Wrappers
  import Text

  const SettingsKey := "openclaw.control.settings.v1"
  const WrongKey := "clawdbot.control.settings.v1"
  const TokenWord := "gatewayToken"

  const SingleLineOld := "function injectControlUiConfig(html, opts) {\n\tconst { basePath, assistantName, assistantAvatar } = opts;\n"
  const SingleLineNew := "function injectControlUiConfig(html, opts) {\n\tconst { basePath, assistantName, assistantAvatar, gatewayToken } = opts;\n"
  const MultiLineOld := "function injectControlUiConfig(html, opts) {\n    const { basePath, assistantName, assistantAvatar } = opts;\n"
  const MultiLineNew := "function injectControlUiConfig(html, opts) {\n    const { basePath, assistantName, assistantAvatar, gatewayToken } = opts;\n"

  /** The statement declaring the script that stores the token in the control page's settings. */
  const TokenScriptCode := "\tconst tokenScript = gatewayToken ? `<script>(function(){try{var k=\"" + SettingsKey +
    "\";var raw=localStorage.getItem(k);var s=raw?JSON.parse(raw):{};if(!s.token){s.token=${JSON.stringify(gatewayToken)};localStorage.setItem(k,JSON.stringify(s))}}catch(e){}})()<\\/script>` : '';"

  const TabMarker := "\tif (html.includes(\"__OPENCLAW_ASSISTANT_NAME__\"))"
  const SpaceMarker := "    if (html.includes(\"__OPENCLAW_ASSISTANT_NAME__\"))"

  const SliceReturn := "${script}${html.slice(headClose)}"
  const SliceReturnNew := "${script}${tokenScript}${html.slice(headClose)}"
  const HtmlReturn := "return `${script}${html}`;"
  const HtmlReturnNew := "return `${script}${tokenScript}${html}`;"

  /** The outcome of one patch function: the new text and the patches it counted. */
  datatype Patched = Patched(content: string, count: nat)

  /**
   * The token script inserted before the assistant-name marker (the
   * tab-indented one when present, else the space-indented one), and added
   * to both return forms; nothing when the text already mentions it.
   */
  function AddTokenScript(c: string): (r: string)
    ensures Text.Contains(c, "tokenScript") ==> r == c
  {
    if Text.Contains(c, "tokenScript") then c
    else
      var marker := if Text.Contains(c, TabMarker) then TabMarker else SpaceMarker;
      var c2 := Text.ReplaceFirst(c, marker, TokenScriptCode + "\n" + marker);
      Text.ReplaceAll(Text.ReplaceAll(c2, SliceReturn, SliceReturnNew), HtmlReturn, HtmlReturnNew)
  }

  /**
   * `patchInjectControlUiConfig`: the first of the two declaration layouts
   * found gains the token parameter, then the token script is added; text
   * that already mentions the token, or has neither layout, is returned
   * unchanged and uncounted.
   */
  function InjectControlUiConfig(content: string): (r: Patched)
    ensures Text.Contains(content, TokenWord) ==> r == Patched(content, 0)
    ensures r.count == 1 <==>
      (!Text.Contains(content, TokenWord) && (Text.Contains(content, SingleLineOld) || Text.Contains(content, MultiLineOld)))
    ensures r.count == 0 ==> r.content == content
    ensures r.count <= 1
  {
    if Text.Contains(content, SingleLineOld) && !Text.Contains(content, TokenWord) then
      Patched(AddTokenScript(Text.ReplaceFirst(content, SingleLineOld, SingleLineNew)), 1)
    else if Text.Contains(content, MultiLineOld) && !Text.Contains(content, TokenWord) then
      Patched(AddTokenScript(Text.ReplaceFirst(content, MultiLineOld, MultiLineNew)), 1)
    else Patched(content, 0)
  }

  /** The tab-indented layout wins over the space-indented one, and the declaration then names the token. */
  lemma InjectPrefersSingleLine(content: string)
    requires !Text.Contains(content, TokenWord) && Text.Contains(content, SingleLineOld)
    ensures InjectControlUiConfig(content).content == AddTokenScript(Text.ReplaceFirst(content, SingleLineOld, SingleLineNew))
    ensures Text.Contains(Text.ReplaceFirst(content, SingleLineOld, SingleLineNew), SingleLineNew)
  {
  }

  /** `patchLocalStorageKey`: every wrong key replaced by the right one, counted once per file. */
  function LocalStorageKey(content: string): (r: Patched)
    ensures !Text.Contains(content, WrongKey) ==> r == Patched(content, 0)
    ensures Text.Contains(content, WrongKey) ==> r == Patched(Text.ReplaceAll(content, WrongKey, SettingsKey), 1)
  {
    if Text.Contains(content, WrongKey) then Patched(Text.ReplaceAll(content, WrongKey, SettingsKey), 1)
    else Patched(content, 0)
  }

  /** The right key cannot help spell the wrong one, whatever surrounds it. */
  lemma RightKeyCannotReformWrong()
    ensures Text.CannotReform(WrongKey, SettingsKey, 4)
  {
    var p, r := WrongKey, SettingsKey;
    assert p[4] == 'd';
    assert forall t :: 0 <= t < |r| ==> r[t] != 'd';
    assert r[24..] == "s.v1";
    assert forall k :: 4 < k < |p| && p[k] == 'o' ==> k == 6 || k == 10 || k == 14;
  }

  /** After the key patch no wrong key is left, so a second run changes nothing and counts nothing. */
  lemma LocalStorageKeyIdempotent(content: string)
    ensures !Text.Contains(LocalStorageKey(content).content, WrongKey)
    ensures LocalStorageKey(LocalStorageKey(content).content) == Patched(LocalStorageKey(content).content, 0)
  {
    if Text.Contains(content, WrongKey) {
      RightKeyCannotReformWrong();
      Text.ReplaceAllRemoves(content, WrongKey, SettingsKey, 4);
    }
  }

  const ScopeTabOld := "if (!device) {\n\t\t\t\t\tif (scopes.length > 0) {\n\t\t\t\t\t\tscopes = [];\n\t\t\t\t\t\tconnectParams.scopes = scopes;\n\t\t\t\t\t}"
  const ScopeTabNew := "if (!device) {\n\t\t\t\t\tif (scopes.length > 0 && !(allowControlUiBypass && sharedAuthOk)) {\n\t\t\t\t\t\tscopes = [];\n\t\t\t\t\t\tconnectParams.scopes = scopes;\n\t\t\t\t\t}"
  const ScopeSpaceOld := "if (!device) {\n                    if (scopes.length > 0) {\n                        scopes = [];\n                        connectParams.scopes = scopes;\n                    }"
  const ScopeSpaceNew := "if (!device) {\n                    if (scopes.length > 0 && !(allowControlUiBypass && sharedAuthOk)) {\n                        scopes = [];\n                        connectParams.scopes = scopes;\n                    }"
  const BypassGuard := "allowControlUiBypass && sharedAuthOk"

  /** The two layouts of the scope-clearing block, tab-indented first, each with its rewrite. */
  const ScopePatterns: seq<(string, string)> := [(ScopeTabOld, ScopeTabNew), (ScopeSpaceOld, ScopeSpaceNew)]

  /** The index of the first layout present in the text, or `|patterns|` when none is. */
  function FirstPresent(content: string, patterns: seq<(string, string)>): (i: nat)
    ensures i <= |patterns|
    ensures i < |patterns| ==> Text.Contains(content, patterns[i].0)
    ensures forall j :: 0 <= j < i ==> !Text.Contains(content, patterns[j].0)
  {
    if |patterns| == 0 then 0
    else if Text.Contains(content, patterns[0].0) then 0
    else 1 + FirstPresent(content, patterns[1..])
  }

  /**
   * `patchScopeClearing`: the first layout found is rewritten once and
   * counted; with none found the text is returned unchanged.
   */
  function ScopeClearing(content: string): (r: Patched)
    ensures var i := FirstPresent(content, ScopePatterns);
      i < |ScopePatterns| ==> r == Patched(Text.ReplaceFirst(content, ScopePatterns[i].0, ScopePatterns[i].1), 1)
    ensures FirstPresent(content, ScopePatterns) == |ScopePatterns| ==> r == Patched(content, 0)
  {
    var i := FirstPresent(content, ScopePatterns);
    if i < |ScopePatterns| then Patched(Text.ReplaceFirst(content, ScopePatterns[i].0, ScopePatterns[i].1), 1)
    else Patched(content, 0)
  }

  /** Text holding neither layout, already guarded or not, is left alone. */
  lemma ScopeClearingLeavesPatched(content: string)
    requires !Text.Contains(content, ScopeTabOld) && !Text.Contains(content, ScopeSpaceOld)
    ensures ScopeClearing(content) == Patched(content, 0)
  {
    assert ScopePatterns[1..][1..] == [];
  }

  /** A rewritten block carries the bypass guard. */
  lemma ScopeClearingAddsGuard(content: string)
    requires Text.Contains(content, ScopeTabOld)
    ensures ScopeClearing(content).count == 1
    ensures ScopeClearing(content).content == Text.ReplaceFirst(content, ScopeTabOld, ScopeTabNew)
    ensures Text.Contains(ScopeClearing(content).content, ScopeTabNew)
  {
  }

  /** The three patches applied to one file's text, in order, with the patches counted. */
  function PatchText(content: string): (r: Patched)
    ensures r.count <= 3
    ensures r.count == 0 ==> r.content == content
  {
    var a := InjectControlUiConfig(content);
    var b := LocalStorageKey(a.content);
    var c := ScopeClearing(b.content);
    Patched(c.content, a.count + b.count + c.count)
  }

  /** Text with the token, without the wrong key and without either scope layout comes through all three patches unchanged and uncounted. */
  lemma FullyPatchedUnchanged(content: string)
    requires Text.Contains(content, TokenWord) && !Text.Contains(content, WrongKey)
    requires !Text.Contains(content, ScopeTabOld) && !Text.Contains(content, ScopeSpaceOld)
    ensures PatchText(content) == Patched(content, 0)
  {
    ScopeClearingLeavesPatched(content);
  }

  /** A bundled gateway directory: whether it exists, its `dist` listing (none when missing), and which of the two fixed files exist. */
  datatype Dir = Dir(base: string, present: bool, dist: Option<seq<string>>, controlUiExists: bool, messageHandlerExists: bool)

  predicate IsGatewayCli(f: string)
  {
    Text.StartsWith(f, "gateway-cli-") && Text.EndsWith(f, ".js")
  }

  function DistPath(base: string, f: string): string
  {
    base + "/dist/" + f
  }

  function ControlUiPath(base: string): string
  {
    base + "/dist/gateway/control-ui.js"
  }

  function MessageHandlerPath(base: string): string
  {
    base + "/dist/gateway/server/ws-connection/message-handler.js"
  }

  /** The `gateway-cli-*.js` files of a listing, in listing order. */
  function GatewayCliFiles(base: string, listing: seq<string>): (r: seq<string>)
    ensures |r| <= |listing|
    ensures forall f :: f in listing && IsGatewayCli(f) ==> DistPath(base, f) in r
    ensures forall x :: x in r ==> exists f :: f in listing && IsGatewayCli(f) && x == DistPath(base, f)
  {
    if |listing| == 0 then []
    else
      var front := GatewayCliFiles(base, listing[..|listing| - 1]);
      var f := listing[|listing| - 1];
      assert forall g :: g in listing ==> g in listing[..|listing| - 1] || g == f;
      front + (if IsGatewayCli(f) then [DistPath(base, f)] else [])
  }

  /** What `findFilesToPatch` returns: the gateway files of `dist`, then `control-ui.js`, then `message-handler.js`, each only when present. */
  function FilesToPatch(d: Dir): (r: seq<string>)
    ensures d.dist.Some? ==> forall f :: f in d.dist.value && IsGatewayCli(f) ==> DistPath(d.base, f) in r
    ensures d.controlUiExists ==> ControlUiPath(d.base) in r
    ensures d.messageHandlerExists ==> |r| > 0 && r[|r| - 1] == MessageHandlerPath(d.base)
    ensures d.dist.None? && !d.controlUiExists && !d.messageHandlerExists ==> r == []
  {
    (if d.dist.Some? then GatewayCliFiles(d.base, d.dist.value) else []) +
    (if d.controlUiExists then [ControlUiPath(d.base)] else []) +
    (if d.messageHandlerExists then [MessageHandlerPath(d.base)] else [])
  }

  /** `findFilesToPatch`: the listing scanned in order, then the two fixed files checked. */
  method FindFilesToPatch(d: Dir) returns (files: seq<string>)
    ensures files == FilesToPatch(d)
  {
    files := [];
    if d.dist.Some? {
      var listing := d.dist.value;
      var i := 0;
      while i < |listing|
        invariant 0 <= i <= |listing|
        invariant files == GatewayCliFiles(d.base, listing[..i])
      {
        if Text.StartsWith(listing[i], "gateway-cli-") && Text.EndsWith(listing[i], ".js") {
          files := files + [DistPath(d.base, listing[i])];
        }
        assert listing[..i + 1][..i] == listing[..i];
        i := i + 1;
      }
      assert listing[..i] == listing;
    }
    if d.controlUiExists {
      files := files + [ControlUiPath(d.base)];
    }
    if d.messageHandlerExists {
      files := files + [MessageHandlerPath(d.base)];
    }
  }

  /** The control page's file is in the list exactly when it exists, after every gateway file. */
  lemma ControlUiAfterGatewayFiles(d: Dir)
    requires d.controlUiExists
    ensures var fs := FilesToPatch(d);
      var k := |(if d.dist.Some? then GatewayCliFiles(d.base, d.dist.value) else [])|;
      k < |fs| && fs[k] == ControlUiPath(d.base)
  {
  }

  /** The files after patching some paths in order, the paths written, and the patches counted. */
  datatype RunState = RunState(disk: map<string, string>, written: seq<string>, count: nat)

  /** One file patched: its patches counted, and the file written back only when its text changed. */
  function PatchStep(s: RunState, p: string): (r: RunState)
    requires p in s.disk
    ensures r.disk.Keys == s.disk.Keys
  {
    var patched := PatchText(s.disk[p]);
    if patched.content != s.disk[p] then
      RunState(s.disk[p := patched.content], s.written + [p], s.count + patched.count)
    else RunState(s.disk, s.written, s.count + patched.count)
  }

  function PatchPaths(s: RunState, paths: seq<string>): (r: RunState)
    requires forall p :: p in paths ==> p in s.disk
    ensures r.disk.Keys == s.disk.Keys
  {
    if |paths| == 0 then s
    else
      assert paths[|paths| - 1] in paths;
      PatchStep(PatchPaths(s, paths[..|paths| - 1]), paths[|paths| - 1])
  }

  /** A file is written only when its patched text differs: text already fully patched is never written back. */
  lemma {:induction false} WrittenOnlyWhenChanged(s: RunState, paths: seq<string>)
    requires forall p :: p in paths ==> p in s.disk
    requires forall p :: p in paths ==> PatchText(s.disk[p]).content == s.disk[p]
    ensures PatchPaths(s, paths).disk == s.disk && PatchPaths(s, paths).written == s.written
  {
    if |paths| > 0 {
      WrittenOnlyWhenChanged(s, paths[..|paths| - 1]);
      assert paths[|paths| - 1] in paths;
    }
  }

  /** Every present directory's files patched in turn; a missing directory is skipped. */
  function RunDirs(s: RunState, dirs: seq<Dir>): (r: RunState)
    requires forall k, p :: 0 <= k < |dirs| && dirs[k].present && p in FilesToPatch(dirs[k]) ==> p in s.disk
    ensures r.disk.Keys == s.disk.Keys
  {
    if |dirs| == 0 then s
    else
      var before := RunDirs(s, dirs[..|dirs| - 1]);
      var d := dirs[|dirs| - 1];
      if d.present then PatchPaths(before, FilesToPatch(d)) else before
  }

  /** Directories that are all missing leave every file as it was. */
  lemma {:induction false} MissingDirsChangeNothing(s: RunState, dirs: seq<Dir>)
    requires forall k :: 0 <= k < |dirs| ==> !dirs[k].present
    ensures RunDirs(s, dirs) == s
  {
    if |dirs| > 0 {
      MissingDirsChangeNothing(s, dirs[..|dirs| - 1]);
    }
  }

  /** The patcher's run: the files on disk, the files written, and the running patch total. */
  class Patcher {
    var disk: map<string, string>
    var written: seq<string>
    var totalPatches: nat

    constructor(disk0: map<string, string>)
      ensures disk == disk0 && written == [] && totalPatches == 0
    {
      disk := disk0;
      written := [];
      totalPatches := 0;
    }

    function State(): RunState
      reads this
    {
      RunState(disk, written, totalPatches)
    }

    /** One file: its text patched three times over, written back only when it changed. */
    method PatchFile(path: string)
      requires path in disk
      modifies this
      ensures State() == PatchStep(old(State()), path)
    {
      var original := disk[path];
      var patched := PatchText(original);
      ghost var next := PatchStep(State(), path);
      assert next.count == totalPatches + patched.count;
      var content := patched.content;
      totalPatches := totalPatches + patched.count;
      if content != original {
        disk := disk[path := content];
        written := written + [path];
      }
      assert State() == next;
    }

    /** The files of one directory, patched in order. */
    method PatchAll(paths: seq<string>)
      requires forall p :: p in paths ==> p in disk
      modifies this
      ensures State() == PatchPaths(old(State()), paths)
    {
      var i := 0;
      while i < |paths|
        invariant 0 <= i <= |paths|
        invariant disk.Keys == old(disk.Keys)
        invariant State() == PatchPaths(old(State()), paths[..i])
      {
        assert paths[i] in paths;
        PatchFile(paths[i]);
        assert paths[..i + 1][..i] == paths[..i];
        i := i + 1;
      }
      assert paths[..i] == paths;
    }

    /** `main`: every existing directory's files found and patched; a missing directory is skipped. */
    method Run(dirs: seq<Dir>)
      requires forall k, p :: 0 <= k < |dirs| && dirs[k].present && p in FilesToPatch(dirs[k]) ==> p in disk
      modifies this
      ensures State() == RunDirs(old(State()), dirs)
    {
      var k := 0;
      while k < |dirs|
        invariant 0 <= k <= |dirs|
        invariant disk.Keys == old(disk.Keys)
        invariant State() == RunDirs(old(State()), dirs[..k])
      {
        assert dirs[..k + 1][..k] == dirs[..k];
        if dirs[k].present {
          var files := FindFilesToPatch(dirs[k]);
          if |files| > 0 {
            PatchAll(files);
          }
        }
        k := k + 1;
      }
      assert dirs[..k] == dirs;
    }
  }
}
