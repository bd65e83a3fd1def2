/**
 * The skills settings page: searching the scanned skills, grouping them by
 * where they come from, switching a skill on or off, typing its API key,
 * and the configuration saved from the page.
 */
module SkillSettings {
  import opened Wrappers
  import opened SkillTypes
  import Text

  /** The skills a predicate keeps, in their order. */
  function Keep(xs: seq<SkillInfo>, p: SkillInfo -> bool): (r: seq<SkillInfo>)
    ensures |r| <= |xs|
    ensures forall x :: x in r <==> x in xs && p(x)
  {
    if |xs| == 0 then [] else Keep(xs[..|xs| - 1], p) + (if p(xs[|xs| - 1]) then [xs[|xs| - 1]] else [])
  }

  /** Keeping distributes over concatenation, so the kept skills stay in their order. */
  lemma {:induction false} KeepAppend(xs: seq<SkillInfo>, ys: seq<SkillInfo>, p: SkillInfo -> bool)
    ensures Keep(xs + ys, p) == Keep(xs, p) + Keep(ys, p)
  {
    if |ys| > 0 {
      var front := ys[..|ys| - 1];
      assert (xs + ys)[..|xs + ys| - 1] == xs + front;
      KeepAppend(xs, front, p);
    } else {
      assert xs + ys == xs;
    }
  }

  /** The search matches the skill: an empty search matches all; otherwise the name or the description contains it, ignoring case. */
  function Matches(search: string, s: SkillInfo): (r: bool)
    ensures search == "" ==> r
    ensures Text.ContainsCI(s.name, search) || Text.ContainsCI(s.description, search) ==> r
    ensures r && search != "" ==> Text.ContainsCI(s.name, search) || Text.ContainsCI(s.description, search)
  {
    search == "" || Text.ContainsCI(s.name, search) || Text.ContainsCI(s.description, search)
  }

  /** The skills shown for a search. */
  function Filtered(skills: seq<SkillInfo>, search: string): (r: seq<SkillInfo>)
    ensures search == "" ==> r == skills
    ensures forall s :: s in r <==> s in skills && Matches(search, s)
  {
    var r := Keep(skills, (s: SkillInfo) => Matches(search, s));
    if search == "" then KeepAll(skills, (s: SkillInfo) => Matches(search, s)); r else r
  }

  /** A predicate that holds everywhere keeps the whole list. */
  lemma {:induction false} KeepAll(xs: seq<SkillInfo>, p: SkillInfo -> bool)
    requires forall x :: x in xs ==> p(x)
    ensures Keep(xs, p) == xs
  {
    if |xs| > 0 {
      var front, last := xs[..|xs| - 1], xs[|xs| - 1];
      assert xs == front + [last];
      assert p(last);
      assert Keep(xs, p) == Keep(front, p) + [last];
      KeepAll(front, p);
    }
  }

  const SourceOrder: seq<Source> := [Bundled, Local, Workspace]

  /** Where a source appears in the page. */
  function Rank(src: Source): nat
  {
    match src
    case Bundled => 0
    case Local => 1
    case Workspace => 2
  }

  function FromSource(src: Source): SkillInfo -> bool
  {
    (s: SkillInfo) => s.source == src
  }

  /** The group of one source: the source's skills in filtered order, or nothing when it has none. */
  function Group(filtered: seq<SkillInfo>, src: Source): (g: seq<(Source, seq<SkillInfo>)>)
    ensures |g| <= 1
    ensures |g| == 1 <==> Keep(filtered, FromSource(src)) != []
    ensures |g| == 1 ==> g[0] == (src, Keep(filtered, FromSource(src)))
  {
    var items := Keep(filtered, FromSource(src));
    if |items| > 0 then [(src, items)] else []
  }

  /** The groups shown: bundled, then local, then workspace skills, each in filtered order, empty groups dropped. */
  function Grouped(filtered: seq<SkillInfo>): (g: seq<(Source, seq<SkillInfo>)>)
    ensures forall i :: 0 <= i < |g| ==> |g[i].1| > 0 && g[i].1 == Keep(filtered, FromSource(g[i].0))
    ensures forall i, j :: 0 <= i < j < |g| ==> Rank(g[i].0) < Rank(g[j].0)
  {
    var b, l, w := Group(filtered, Bundled), Group(filtered, Local), Group(filtered, Workspace);
    var g := b + l + w;
    assert forall i :: 0 <= i < |b| ==> g[i] == b[0] && Rank(g[i].0) == 0;
    assert forall i :: |b| <= i < |b| + |l| ==> g[i] == l[0] && Rank(g[i].0) == 1;
    assert forall i :: |b| + |l| <= i < |g| ==> g[i] == w[0] && Rank(g[i].0) == 2;
    g
  }

  /** Every source with a matching skill has its group. */
  lemma GroupedShowsEverySource(filtered: seq<SkillInfo>, src: Source)
    ensures Keep(filtered, FromSource(src)) != [] <==> exists i :: 0 <= i < |Grouped(filtered)| && Grouped(filtered)[i].0 == src
  {
    var b, l := Group(filtered, Bundled), Group(filtered, Local);
    var g := Grouped(filtered);
    if Keep(filtered, FromSource(src)) != [] {
      match src
      case Bundled => assert g[0].0 == src;
      case Local => assert g[|b|].0 == src;
      case Workspace => assert g[|b| + |l|].0 == src;
    }
  }

  /** Every filtered skill is in exactly one group: the group sizes add up to the filtered count. */
  lemma {:induction false} GroupsPartition(xs: seq<SkillInfo>)
    ensures |Keep(xs, FromSource(Bundled))| + |Keep(xs, FromSource(Local))| + |Keep(xs, FromSource(Workspace))| == |xs|
  {
    if |xs| > 0 {
      GroupsPartition(xs[..|xs| - 1]);
    }
  }

  /** `handleToggle`: the skills with the name flip their switch; all others stay as they were. */
  function Toggle(skills: seq<SkillInfo>, name: string): (r: seq<SkillInfo>)
    ensures |r| == |skills|
    ensures forall i :: 0 <= i < |skills| && skills[i].name != name ==> r[i] == skills[i]
    ensures forall i :: 0 <= i < |skills| && skills[i].name == name ==>
      r[i].enabled == !skills[i].enabled && r[i].(enabled := skills[i].enabled) == skills[i]
  {
    seq(|skills|, i requires 0 <= i < |skills| =>
      if skills[i].name == name then skills[i].(enabled := !skills[i].enabled) else skills[i])
  }

  /** Toggling twice restores the list. */
  lemma ToggleTwice(skills: seq<SkillInfo>, name: string)
    ensures Toggle(Toggle(skills, name), name) == skills
  {
    assert forall i :: 0 <= i < |skills| ==> Toggle(Toggle(skills, name), name)[i] == skills[i];
  }

  /** `handleApiKeyChange`: the skills with the name take the typed key; all others stay as they were. */
  function SetApiKey(skills: seq<SkillInfo>, name: string, value: string): (r: seq<SkillInfo>)
    ensures |r| == |skills|
    ensures forall i :: 0 <= i < |skills| && skills[i].name != name ==> r[i] == skills[i]
    ensures forall i :: 0 <= i < |skills| && skills[i].name == name ==>
      r[i].apiKey == Some(value) && r[i].(apiKey := skills[i].apiKey) == skills[i]
  {
    seq(|skills|, i requires 0 <= i < |skills| =>
      if skills[i].name == name then skills[i].(apiKey := Some(value)) else skills[i])
  }

  /** Of two keys typed for a skill, the later is kept. */
  lemma ApiKeyLaterWins(skills: seq<SkillInfo>, name: string, a: string, b: string)
    ensures SetApiKey(SetApiKey(skills, name, a), name, b) == SetApiKey(skills, name, b)
  {
    assert forall i :: 0 <= i < |skills| ==>
      SetApiKey(SetApiKey(skills, name, a), name, b)[i] == SetApiKey(skills, name, b)[i];
  }

  /** The saved entry of a skill: its switch, and its key only when the key is non-empty. */
  function EntryFor(s: SkillInfo): (e: SkillEntryConfig)
    ensures e.enabled == Some(s.enabled) && e.env.None? && e.config.None?
    ensures e.apiKey.Some? <==> Text.Filled(s.apiKey)
    ensures e.apiKey.Some? ==> e.apiKey == s.apiKey
  {
    SkillEntryConfig(Some(s.enabled), if Text.Filled(s.apiKey) then s.apiKey else None, None, None)
  }

  /** The saved configuration of a list, a later skill of the same name overwriting an earlier one. */
  function ConfigOf(skills: seq<SkillInfo>): (r: map<string, SkillEntryConfig>)
    ensures |skills| > 0 ==> skills[|skills| - 1].name in r && r[skills[|skills| - 1].name] == EntryFor(skills[|skills| - 1])
  {
    if |skills| == 0 then map[]
    else ConfigOf(skills[..|skills| - 1])[skills[|skills| - 1].name := EntryFor(skills[|skills| - 1])]
  }

  /** The configuration has an entry for exactly the names of the list. */
  lemma {:induction false} ConfigOfKeys(skills: seq<SkillInfo>)
    ensures ConfigOf(skills).Keys == set s | s in skills :: s.name
  {
    if |skills| > 0 {
      var front := skills[..|skills| - 1];
      ConfigOfKeys(front);
      assert forall s :: s in skills <==> s in front || s == skills[|skills| - 1];
    }
  }

  /** With distinct names, each skill's entry is its own. */
  lemma {:induction false} ConfigOfDistinct(skills: seq<SkillInfo>)
    requires forall i, j :: 0 <= i < j < |skills| ==> skills[i].name != skills[j].name
    ensures forall i :: 0 <= i < |skills| ==> skills[i].name in ConfigOf(skills) && ConfigOf(skills)[skills[i].name] == EntryFor(skills[i])
  {
    if |skills| > 0 {
      var front := skills[..|skills| - 1];
      assert forall i :: 0 <= i < |front| ==> front[i] == skills[i];
      ConfigOfDistinct(front);
    }
  }

  /** One entry per skill name; with distinct names each skill has its own entry. */
  lemma ConfigOfEntries(skills: seq<SkillInfo>)
    ensures ConfigOf(skills).Keys == set s | s in skills :: s.name
    ensures (forall i, j :: 0 <= i < j < |skills| ==> skills[i].name != skills[j].name) ==>
      forall i :: 0 <= i < |skills| ==> ConfigOf(skills)[skills[i].name] == EntryFor(skills[i])
  {
    ConfigOfKeys(skills);
    if forall i, j :: 0 <= i < j < |skills| ==> skills[i].name != skills[j].name {
      ConfigOfDistinct(skills);
    }
  }

  /** `handleSave` building the configuration, one skill after the other. */
  method BuildConfig(skills: seq<SkillInfo>) returns (config: map<string, SkillEntryConfig>)
    ensures config == ConfigOf(skills)
  {
    config := map[];
    var i := 0;
    while i < |skills|
      invariant 0 <= i <= |skills|
      invariant config == ConfigOf(skills[..i])
    {
      var s := skills[i];
      config := config[s.name := SkillEntryConfig(Some(s.enabled), None, None, None)];
      if Text.Filled(s.apiKey) {
        config := config[s.name := config[s.name].(apiKey := s.apiKey)];
      }
      assert skills[..i + 1][..i] == skills[..i];
      i := i + 1;
    }
    assert skills[..i] == skills;
  }

  datatype StatusKind = Success | Failure

  /** How the save request ended. */
  datatype SaveOutcome = Answered(ok: bool, error: Option<string>) | Threw

  /** The status line left after saving, whether the gateway restart was requested and whether the page closed. */
  datatype SaveView = SaveView(kind: StatusKind, message: string, restarts: bool, closes: bool)

  const SavedMessage := "技能配置已保存，正在重启服务..."
  const SaveThrewMessage := "保存技能配置时出错"

  /**
   * `handleSave` after the save request ended with `outcome`; `restartRejects`
   * says whether the gateway restart that follows an `ok` save rejects, in
   * which case the shared `catch` replaces the success line and the page stays
   * open.
   */
  function SaveStatus(outcome: SaveOutcome, restartRejects: bool): (r: SaveView)
    ensures r.restarts <==> outcome.Answered? && outcome.ok
    ensures r.closes <==> r.restarts && !restartRejects
    ensures r.kind == Success <==> r.closes
    ensures r.closes ==> r.message == SavedMessage
    ensures outcome.Answered? && !outcome.ok ==> r.message == outcome.error.GetOr("保存失败")
    ensures outcome.Threw? || (r.restarts && restartRejects) ==> r.message == SaveThrewMessage
  {
    match outcome
    case Answered(ok, error) =>
      if !ok then SaveView(Failure, error.GetOr("保存失败"), false, false)
      else if restartRejects then SaveView(Failure, SaveThrewMessage, true, false)
      else SaveView(Success, SavedMessage, true, true)
    case Threw => SaveView(Failure, SaveThrewMessage, false, false)
  }

  /** The label of a skill's status; a missing skill shows why, or a generic word. */
  function StatusLabel(s: SkillInfo): (l: string)
    ensures s.status == Missing ==> l == s.missingReason.GetOr("缺失")
    ensures s.status != Missing ==> l in {"就绪", "已禁用", "不可用"}
  {
    match s.status
    case Ready => "就绪"
    case Disabled => "已禁用"
    case Blocked => "不可用"
    case Missing => s.missingReason.GetOr("缺失")
  }
}
