/**
 * The renderer's setup-wizard state: the wizard step, the partial
 * configuration gathered so far, the generated gateway token, and saving
 * the configuration through the main process.
 *
 * The random token bytes, the answers of the main process and the clock
 * are inputs. The partial configuration is a map from the configuration's
 * field names to their values; an unset field is an absent key.
 */
module SetupHook {
  import opened Wrappers
  import opened Json
  import Text
  import DeviceIdentity

  type byte = DeviceIdentity.byte

  /** A lowercase hex digit. */
  predicate IsHexDigit(c: char)
  {
    '0' <= c <= '9' || 'a' <= c <= 'f'
  }

  /** The lowercase hex digit of `d`. */
  function HexDigit(d: nat): (c: char)
    requires d < 16
    ensures IsHexDigit(c)
  {
    if d < 10 then ('0' as int + d) as char else ('a' as int + d - 10) as char
  }

  /** `n.toString(16)`. */
  function ToHex(n: nat): (r: string)
    ensures |r| >= 1 && forall i :: 0 <= i < |r| ==> IsHexDigit(r[i])
  {
    if n < 16 then [HexDigit(n)] else ToHex(n / 16) + [HexDigit(n % 16)]
  }

  /** `s.padStart(width, c)`. */
  function PadStart(s: string, width: nat, c: char): (r: string)
    ensures |r| == if |s| >= width then |s| else width
    ensures Text.EndsWith(r, s)
    ensures forall i :: 0 <= i < |r| - |s| ==> r[i] == c
  {
    if |s| >= width then s else seq(width - |s|, _ => c) + s
  }

  /** Padding the hex form of a number below 256 to two places gives its two hex digits, high then low. */
  lemma PaddedHexDigits(n: nat)
    requires n < 256
    ensures PadStart(ToHex(n), 2, '0') == [HexDigit(n / 16), HexDigit(n % 16)]
  {
    var hi, lo := n / 16, n % 16;
    assert n == hi * 16 + lo && hi < 16;
    if hi == 0 {
      assert ToHex(n) == [HexDigit(lo)];
      assert HexDigit(0) == '0';
    } else {
      assert ToHex(hi) == [HexDigit(hi)];
      assert ToHex(n) == [HexDigit(hi), HexDigit(lo)];
    }
  }

  /** One byte as the token writes it, `b.toString(16).padStart(2, '0')`: always its two hex digits. */
  function ByteHex(b: byte): (h: string)
    ensures h == [HexDigit(b as nat / 16), HexDigit(b as nat % 16)]
  {
    PaddedHexDigits(b as nat);
    PadStart(ToHex(b as nat), 2, '0')
  }

  /** `generateGatewayToken` for the given random bytes: each byte's two hex digits, in byte order. */
  function Token(bytes: seq<byte>): (t: string)
    ensures |t| == 2 * |bytes|
  {
    if |bytes| == 0 then [] else ByteHex(bytes[0]) + Token(bytes[1..])
  }

  /** The value of a lowercase hex digit. */
  function HexValue(c: char): nat
  {
    if '0' <= c <= '9' then (c as int - '0' as int) as nat
    else if 'a' <= c <= 'f' then (c as int - 'a' as int + 10) as nat
    else 0
  }

  /** Reading a token back: every two hex digits are one byte. */
  function Decode(s: string): (r: seq<byte>)
    ensures 2 * |r| <= |s| < 2 * |r| + 2
    decreases |s|
  {
    if |s| < 2 then []
    else
      var v := HexValue(s[0]) * 16 + HexValue(s[1]);
      (if v < 256 then [v as byte] else [0]) + Decode(s[2..])
  }

  /** The token is 48 lowercase hex characters for the 24 bytes it is made from, and decodes back to them. */
  lemma {:induction false} TokenRoundTrip(bytes: seq<byte>)
    ensures Decode(Token(bytes)) == bytes
    ensures forall i :: 0 <= i < |Token(bytes)| ==> IsHexDigit(Token(bytes)[i])
    ensures |bytes| == 24 ==> |Token(bytes)| == 48
  {
    if |bytes| > 0 {
      var n := bytes[0] as nat;
      var hi, lo := n / 16, n % 16;
      assert n == hi * 16 + lo && hi < 16;
      TokenRoundTrip(bytes[1..]);
      var t := Token(bytes);
      var rest := Token(bytes[1..]);
      assert t == [HexDigit(hi), HexDigit(lo)] + rest;
      assert t[2..] == rest;
      assert HexValue(t[0]) == hi && HexValue(t[1]) == lo;
      assert forall i :: 2 <= i < |t| ==> t[i] == rest[i - 2];
    }
  }

  const InitialPort := 39527
  const FallbackWorkspace := "C:/Users/User/openclaw"

  /** The configuration the hook starts with: the default port and a fresh token. */
  function InitialConfig(tokenBytes: seq<byte>): (c: map<string, Json>)
    ensures c.Keys == {"gatewayPort", "gatewayToken"}
    ensures c["gatewayPort"] == JNum(InitialPort)
    ensures c["gatewayToken"].JStr? && Decode(c["gatewayToken"].s) == tokenBytes
  {
    TokenRoundTrip(tokenBytes);
    map["gatewayPort" := JNum(InitialPort), "gatewayToken" := JStr(Token(tokenBytes))]
  }

  /** `prev.workspace ?? defaultWorkspace`: a set workspace stays, an unset or null one takes the default. */
  function WithDefaultWorkspace(prev: map<string, Json>, defaultWorkspace: string): (c: map<string, Json>)
    ensures "workspace" in prev && prev["workspace"] != JNull ==> c == prev
    ensures !("workspace" in prev && prev["workspace"] != JNull) ==> c == prev["workspace" := JStr(defaultWorkspace)]
    ensures c.Keys == prev.Keys + {"workspace"}
  {
    if "workspace" in prev && prev["workspace"] != JNull then prev else prev["workspace" := JStr(defaultWorkspace)]
  }

  /** `updateConfig`: `{ ...prev, ...partial }`. */
  function Merge(prev: map<string, Json>, partial: map<string, Json>): (c: map<string, Json>)
    ensures c.Keys == prev.Keys + partial.Keys
    ensures forall k :: k in partial ==> c[k] == partial[k]
    ensures forall k :: k in prev && k !in partial ==> c[k] == prev[k]
  {
    prev + partial
  }

  /** Applying the same update twice is applying it once; of two updates to a key, the later wins. */
  lemma MergeLaterWins(prev: map<string, Json>, a: map<string, Json>, b: map<string, Json>)
    ensures Merge(Merge(prev, a), a) == Merge(prev, a)
    ensures a.Keys <= b.Keys ==> Merge(Merge(prev, a), b) == Merge(prev, b)
  {
    assert Merge(Merge(prev, a), a) == Merge(prev, a) by {
      assert forall k :: k in Merge(prev, a) ==> Merge(Merge(prev, a), a)[k] == Merge(prev, a)[k];
    }
    if a.Keys <= b.Keys {
      assert forall k :: k in Merge(prev, b) ==> Merge(Merge(prev, a), b)[k] == Merge(prev, b)[k];
    }
  }

  /** The fields a save needs, and how the error message names each. */
  const RequiredFields: seq<string> := ["provider", "modelId", "modelName", "apiKey"]
  const RequiredLabels: seq<string> := ["服务提供商", "模型", "模型名称", "API Key"]

  /** The field is set to a truthy value. */
  predicate Filled(cfg: map<string, Json>, key: string)
  {
    key in cfg && Truthy(cfg[key])
  }

  /** The labels name the required fields one-to-one. */
  lemma LabelsDistinct()
    ensures forall j, k :: 0 <= j < k < |RequiredLabels| ==> RequiredLabels[j] != RequiredLabels[k]
  {
  }

  /** The positions from `i` on of the fields that are unset or falsy: increasing, and exactly those. */
  function MissingAt(cfg: map<string, Json>, fields: seq<string>, i: nat): (r: seq<nat>)
    requires i <= |fields|
    decreases |fields| - i
    ensures forall a :: 0 <= a < |r| ==> i <= r[a] < |fields| && !Filled(cfg, fields[r[a]])
    ensures forall a, b :: 0 <= a < b < |r| ==> r[a] < r[b]
    ensures forall j :: i <= j < |fields| && !Filled(cfg, fields[j]) ==> j in r
  {
    if i == |fields| then []
    else if Filled(cfg, fields[i]) then MissingAt(cfg, fields, i + 1)
    else [i] + MissingAt(cfg, fields, i + 1)
  }

  /** Among `fields[i..]`, the labels of the fields that are unset or falsy, in the fields' order. */
  function MissingFrom(cfg: map<string, Json>, fields: seq<string>, labels: seq<string>, i: nat): (r: seq<string>)
    requires |labels| == |fields| && i <= |fields|
    decreases |fields| - i
    ensures var at := MissingAt(cfg, fields, i);
      |r| == |at| && forall a :: 0 <= a < |r| ==> r[a] == labels[at[a]]
  {
    if i == |fields| then []
    else
      var rest := MissingFrom(cfg, fields, labels, i + 1);
      if Filled(cfg, fields[i]) then rest else [labels[i]] + rest
  }

  /** With distinct labels, a label is listed exactly when its field is unset or falsy. */
  lemma MissingFromMembers(cfg: map<string, Json>, fields: seq<string>, labels: seq<string>, j: nat)
    requires |labels| == |fields| && j < |fields|
    requires forall a, b :: 0 <= a < b < |labels| ==> labels[a] != labels[b]
    ensures labels[j] in MissingFrom(cfg, fields, labels, 0) <==> !Filled(cfg, fields[j])
  {
    var r := MissingFrom(cfg, fields, labels, 0);
    var at := MissingAt(cfg, fields, 0);
    if !Filled(cfg, fields[j]) {
      var a :| 0 <= a < |at| && at[a] == j;
      assert r[a] == labels[j];
    }
    if labels[j] in r {
      var a :| 0 <= a < |r| && r[a] == labels[j];
      assert labels[at[a]] == labels[j];
      assert at[a] == j;
    }
  }

  /** When every field from `i` on is unset, every label from `i` on is listed, in order. */
  lemma {:induction false} MissingFromNoneFilled(cfg: map<string, Json>, fields: seq<string>, labels: seq<string>, i: nat)
    requires |labels| == |fields| && i <= |fields|
    requires forall j :: i <= j < |fields| ==> !Filled(cfg, fields[j])
    ensures MissingFrom(cfg, fields, labels, i) == labels[i..]
    decreases |fields| - i
  {
    if i < |fields| {
      var tail := labels[i + 1..];
      assert labels[i..] == [labels[i]] + tail;
      MissingFromNoneFilled(cfg, fields, labels, i + 1);
      MissingFromUnset(cfg, fields, labels, i);
    }
  }

  lemma MissingFromUnset(cfg: map<string, Json>, fields: seq<string>, labels: seq<string>, i: nat)
    requires |labels| == |fields| && i < |fields|
    requires !Filled(cfg, fields[i])
    ensures MissingFrom(cfg, fields, labels, i) == [labels[i]] + MissingFrom(cfg, fields, labels, i + 1)
  {
  }

  /** When every field from `i` on is set except the last, only the last label is listed. */
  lemma {:induction false} MissingFromOnlyLast(cfg: map<string, Json>, fields: seq<string>, labels: seq<string>, i: nat)
    requires |labels| == |fields| && i < |fields|
    requires forall j :: i <= j < |fields| - 1 ==> Filled(cfg, fields[j])
    requires !Filled(cfg, fields[|fields| - 1])
    ensures MissingFrom(cfg, fields, labels, i) == [labels[|fields| - 1]]
    decreases |fields| - i
  {
    if i < |fields| - 1 {
      MissingFromOnlyLast(cfg, fields, labels, i + 1);
    } else {
      assert MissingFrom(cfg, fields, labels, i + 1) == [];
    }
  }

  /** Nothing is listed exactly when every field is set to a truthy value. */
  lemma MissingFromEmpty(cfg: map<string, Json>, fields: seq<string>, labels: seq<string>)
    requires |labels| == |fields|
    ensures MissingFrom(cfg, fields, labels, 0) == [] <==> forall j :: 0 <= j < |fields| ==> Filled(cfg, fields[j])
  {
    var at := MissingAt(cfg, fields, 0);
    if exists j :: 0 <= j < |fields| && !Filled(cfg, fields[j]) {
      var j :| 0 <= j < |fields| && !Filled(cfg, fields[j]);
      assert j in at;
    }
    if at != [] {
      assert !Filled(cfg, fields[at[0]]);
    }
  }

  /** With distinct labels, each label is listed exactly when its field is unset or falsy. */
  lemma MissingFromAllMembers(cfg: map<string, Json>, fields: seq<string>, labels: seq<string>)
    requires |labels| == |fields|
    requires forall a, b :: 0 <= a < b < |labels| ==> labels[a] != labels[b]
    ensures forall j :: 0 <= j < |fields| ==> (labels[j] in MissingFrom(cfg, fields, labels, 0) <==> !Filled(cfg, fields[j]))
  {
    forall j | 0 <= j < |fields|
      ensures labels[j] in MissingFrom(cfg, fields, labels, 0) <==> !Filled(cfg, fields[j])
    {
      MissingFromMembers(cfg, fields, labels, j);
    }
  }

  /** `saveConfig`'s `missing` list: the labels of the required fields that are unset or falsy. */
  function Missing(cfg: map<string, Json>): (r: seq<string>)
    ensures r == [] <==> forall j :: 0 <= j < |RequiredFields| ==> Filled(cfg, RequiredFields[j])
    ensures forall j :: 0 <= j < |RequiredFields| ==> (RequiredLabels[j] in r <==> !Filled(cfg, RequiredFields[j]))
  {
    LabelsDistinct();
    MissingFromEmpty(cfg, RequiredFields, RequiredLabels);
    MissingFromAllMembers(cfg, RequiredFields, RequiredLabels);
    MissingFrom(cfg, RequiredFields, RequiredLabels, 0)
  }

  /** The missing list follows the fixed order of the required fields: its labels are those of the unset fields, by increasing position. */
  lemma MissingInOrder(cfg: map<string, Json>)
    ensures var at := MissingAt(cfg, RequiredFields, 0);
      |Missing(cfg)| == |at| && forall a :: 0 <= a < |at| ==> Missing(cfg)[a] == RequiredLabels[at[a]]
  {
    var r := MissingFrom(cfg, RequiredFields, RequiredLabels, 0);
    assert Missing(cfg) == r;
  }

  /** With nothing filled in, every required field is listed, in the fixed order. */
  lemma NothingFilledListsAll()
    ensures Missing(map[]) == RequiredLabels
  {
    MissingFromNoneFilled(map[], RequiredFields, RequiredLabels, 0);
  }

  /** The message listing the missing fields. */
  function IncompleteMessage(missing: seq<string>): (m: string)
    ensures Text.StartsWith(m, IncompletePrefix)
  {
    IncompletePrefix + Text.Join(missing, ", ")
  }

  const IncompletePrefix := "配置信息不完整，缺少: "
  const SaveFailedFallback := "保存配置失败，请检查文件写入权限后重试"
  const SaveThrewPrefix := "保存配置时发生错误: "

  /** The fields passed through to the main process as they are. */
  const PassedFields: set<string> := {"provider", "modelId", "modelName", "apiKey", "baseUrl", "apiFormat",
    "reasoning", "contextWindow", "maxTokens", "workspace", "gatewayPort", "gatewayToken", "channels", "skills"}

  /** `provider/modelId`, the key the saved configuration uses for the chosen model. */
  function ProviderModelKey(cfg: map<string, Json>): (k: string)
    requires Filled(cfg, "provider") && Filled(cfg, "modelId")
    ensures cfg["provider"].JStr? && cfg["modelId"].JStr? ==> k == cfg["provider"].s + "/" + cfg["modelId"].s
  {
    Rendered(cfg["provider"]) + "/" + Rendered(cfg["modelId"])
  }

  /** The payload of a save: the configuration's own fields, the model key and the time of saving. */
  function SavePayload(cfg: map<string, Json>, now: string): (p: Json)
    requires Filled(cfg, "provider") && Filled(cfg, "modelId")
    ensures p.JObj? && p.fields.Keys == (cfg.Keys * PassedFields) + {"_providerModelKey", "_now"}
    ensures forall k :: k in cfg && k in PassedFields ==> p.fields[k] == cfg[k]
    ensures p.fields["_providerModelKey"] == JStr(ProviderModelKey(cfg)) && p.fields["_now"] == JStr(now)
  {
    var own := map k | k in cfg.Keys * PassedFields :: cfg[k];
    JObj(own["_providerModelKey" := JStr(ProviderModelKey(cfg))]["_now" := JStr(now)])
  }

  /** How the save request to the main process ended. */
  datatype SaveOutcome = Answered(ok: bool, error: Option<string>) | Threw(message: string)

  /** The hook's state. */
  class SetupState {
    var step: string
    var config: map<string, Json>
    var isFirstRun: bool
    var isLoading: bool
    var isSaving: bool
    var saveError: Option<string>

    constructor(tokenBytes: seq<byte>)
      ensures step == "welcome" && config == InitialConfig(tokenBytes)
      ensures !isFirstRun && isLoading && !isSaving && saveError.None?
    {
      step := "welcome";
      config := InitialConfig(tokenBytes);
      isFirstRun := false;
      isLoading := true;
      isSaving := false;
      saveError := None;
    }

    /**
     * The first load: `firstRun` is the main process's answer (`None` when
     * the query failed) and `defaultWorkspace` its default workspace
     * (`None` when that query failed). A failed first-run query leaves the
     * configuration alone.
     */
    method Load(firstRun: Option<bool>, defaultWorkspace: Option<string>)
      modifies this`isFirstRun, this`isLoading, this`config
      ensures !isLoading
      ensures firstRun.None? ==> !isFirstRun && config == old(config)
      ensures firstRun.Some? ==>
        isFirstRun == firstRun.value && config == WithDefaultWorkspace(old(config), defaultWorkspace.GetOr(FallbackWorkspace))
    {
      if firstRun.None? {
        isFirstRun := false;
        isLoading := false;
        return;
      }
      isFirstRun := firstRun.value;
      config := WithDefaultWorkspace(config, defaultWorkspace.GetOr(FallbackWorkspace));
      isLoading := false;
    }

    method SetStep(s: string)
      modifies this`step
      ensures step == s
    {
      step := s;
    }

    method UpdateConfig(partial: map<string, Json>)
      modifies this`config
      ensures config == Merge(old(config), partial)
    {
      config := Merge(config, partial);
    }

    method ClearError()
      modifies this`saveError
      ensures saveError.None?
    {
      saveError := None;
    }

    /**
     * `saveConfig`. An incomplete configuration is not sent: the error
     * lists the missing fields and the answer is false. Otherwise the
     * payload is sent; the answer is the main process's `ok`, with its
     * error (or a fallback) on failure, and a thrown error's message when
     * the request threw. Saving is over afterwards whatever happened.
     */
    method SaveConfig(now: string, outcome: SaveOutcome) returns (ok: bool, sent: Option<Json>)
      modifies this`isSaving, this`saveError
      ensures !isSaving
      ensures Missing(config) != [] ==>
        !ok && sent.None? && saveError == Some(IncompleteMessage(Missing(config)))
      ensures Missing(config) == [] ==>
        sent == Some(SavePayload(config, now)) && ok == (outcome.Answered? && outcome.ok)
      ensures Missing(config) == [] && outcome.Answered? && outcome.ok ==> saveError.None?
      ensures Missing(config) == [] && outcome.Answered? && !outcome.ok ==>
        saveError == Some(if Text.Filled(outcome.error) then outcome.error.value else SaveFailedFallback)
      ensures Missing(config) == [] && outcome.Threw? ==> saveError == Some(SaveThrewPrefix + outcome.message)
    {
      saveError := None;
      isSaving := true;
      var missing := Missing(config);
      if missing != [] {
        saveError := Some(IncompleteMessage(missing));
        ok, sent := false, None;
      } else {
        assert Filled(config, RequiredFields[0]) && Filled(config, RequiredFields[1]);
        sent := Some(SavePayload(config, now));
        match outcome
        case Answered(answerOk, error) =>
          if !answerOk {
            saveError := Some(if Text.Filled(error) then error.value else SaveFailedFallback);
          }
          ok := answerOk;
        case Threw(message) =>
          saveError := Some(SaveThrewPrefix + message);
          ok := false;
      }
      isSaving := false;
    }
  }

  /**
   * A wizard that chose provider and model but no API key cannot save: the
   * error names exactly the API key.
   */
  method SaveWithoutKey(tokenBytes: seq<byte>, now: string) returns (ok: bool, error: Option<string>)
    ensures !ok && error == Some(IncompletePrefix + "API Key")
  {
    var s := new SetupState(tokenBytes);
    s.UpdateConfig(map["provider" := JStr("deepseek"), "modelId" := JStr("deepseek-chat"), "modelName" := JStr("DeepSeek V3")]);
    var cfg := s.config;
    assert Filled(cfg, "provider") && Filled(cfg, "modelId") && Filled(cfg, "modelName") && !Filled(cfg, "apiKey");
    assert Missing(cfg) == ["API Key"] by {
      MissingFromOnlyLast(cfg, RequiredFields, RequiredLabels, 0);
    }
    var sent;
    ok, sent := s.SaveConfig(now, Answered(true, None));
    error := s.saveError;
  }
}
