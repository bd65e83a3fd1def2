/**
 * The skill scanner of the main process (electron/skills-scanner.ts):
 * reading the YAML frontmatter of a SKILL.md, assembling a skill record from
 * it and from a built-in table of fallback requirements, resolving each
 * skill's status against the user's configuration, the platform and the
 * installed binaries, and writing the user's entries back to the
 * configuration file.
 *
 * File reads and directory listings are inputs: a directory is the sequence
 * of its entries, each with the text of its SKILL.md when that file exists
 * and is readable. `JSON.parse` of the metadata block followed by the
 * `.openclaw` lookup is the parameter `decode`; whether a command-line tool
 * is installed is the parameter `probe`.
 */
module SkillsScanner {
  import opened Wrappers
  import opened Text
  import opened SkillTypes
  import Json
  import Seqs

  // ---------------------------------------------------------------------
  // Frontmatter: /^---\r?\n([\s\S]*?)\r?\n---/ and the key lines inside it
  // ---------------------------------------------------------------------

  /** The line terminators of JavaScript regular expressions. */
  predicate IsLineTerminator(c: char)
  {
    c == '\n' || c == '\r' || c == '\U{2028}' || c == '\U{2029}'
  }

  /** Where the YAML body begins: after an opening `---` line, or -1 when the content has none. */
  function BodyStart(content: string): int
  {
    if StartsWith(content, "---\r\n") then 5
    else if StartsWith(content, "---\n") then 4
    else -1
  }

  /** A closing `\r\n---` or `\n---` begins at position `j`. */
  predicate ClosingAt(content: string, j: int)
  {
    0 <= j <= |content| && (StartsWith(content[j..], "\r\n---") || StartsWith(content[j..], "\n---"))
  }

  /** The first position at or after `k` where a closing delimiter begins, or -1. */
  function BodyEnd(content: string, k: nat): (e: int)
    decreases |content| - k
    ensures e == -1 || (k <= e < |content| && ClosingAt(content, e))
    ensures e == -1 ==> forall j :: k <= j < |content| ==> !ClosingAt(content, j)
    ensures e != -1 ==> forall j :: k <= j < e ==> !ClosingAt(content, j)
  {
    if k >= |content| then -1
    else if ClosingAt(content, k) then k
    else BodyEnd(content, k + 1)
  }

  /**
   * The YAML text between the opening `---` line and the first closing
   * delimiter after it, or `None` when the content is not delimited so.
   */
  function Yaml(content: string): (r: Option<string>)
    ensures r.Some? ==>
      StartsWith(content, "---\n" + r.value + "\n---") || StartsWith(content, "---\n" + r.value + "\r\n---") ||
      StartsWith(content, "---\r\n" + r.value + "\n---") || StartsWith(content, "---\r\n" + r.value + "\r\n---")
    ensures !StartsWith(content, "---\n") && !StartsWith(content, "---\r\n") ==> r.None?
  {
    var b := BodyStart(content);
    if b == -1 then None
    else
      var e := BodyEnd(content, b);
      if e == -1 then None
      else
        var y := content[b..e];
        var open := content[..b];
        var close := if StartsWith(content[e..], "\r\n---") then "\r\n---" else "\n---";
        assert content[..b + |y| + |close|] == open + y + close;
        Some(y)
  }

  /** First index at or after `q` that is not whitespace, or `|s|`. */
  function SpaceRunEnd(s: string, q: nat): (w: nat)
    requires q <= |s|
    decreases |s| - q
    ensures q <= w <= |s| && AllSpace(s[q..w])
    ensures w < |s| ==> !IsSpace(s[w])
  {
    if q == |s| || !IsSpace(s[q]) then q
    else
      var w := SpaceRunEnd(s, q + 1);
      assert s[q..w] == [s[q]] + s[q + 1..w];
      w
  }

  /** First index at or after `w` holding a line terminator, or `|s|`. */
  function LineEnd(s: string, w: nat): (e: nat)
    requires w <= |s|
    decreases |s| - w
    ensures w <= e <= |s|
    ensures forall j :: w <= j < e ==> !IsLineTerminator(s[j])
    ensures e < |s| ==> IsLineTerminator(s[e])
  {
    if w == |s| || IsLineTerminator(s[w]) then w else LineEnd(s, w + 1)
  }

  /** The last index in `[q, e)` that is not a line terminator, or -1. */
  function LastNonTerminator(s: string, q: nat, e: nat): (j: int)
    requires q <= e <= |s|
    decreases e - q
    ensures j == -1 || (q <= j < e && !IsLineTerminator(s[j]))
    ensures j == -1 ==> forall i :: q <= i < e ==> IsLineTerminator(s[i])
  {
    if e == q then -1
    else if !IsLineTerminator(s[e - 1]) then e - 1
    else LastNonTerminator(s, q, e - 1)
  }

  /**
   * What `\s*(.+)$` captures when it starts at position `q`: the rest of the
   * line after any whitespace (which may cross line breaks), or, when only
   * whitespace is left, one whitespace character given back by `\s*`.
   */
  function CaptureAfter(s: string, q: nat): (r: Option<string>)
    requires q <= |s|
    ensures r.Some? ==> |r.value| > 0 && forall i :: 0 <= i < |r.value| ==> !IsLineTerminator(r.value[i])
  {
    var w := SpaceRunEnd(s, q);
    if w < |s| then
      Some(s[w..LineEnd(s, w)])
    else
      var j := LastNonTerminator(s, q, |s|);
      if j == -1 then None else Some([s[j]])
  }

  /** Position `p` is the start of a line: `^` of a multiline regular expression. */
  predicate LineStart(s: string, p: int)
  {
    p == 0 || (0 < p <= |s| && IsLineTerminator(s[p - 1]))
  }

  /** `key:` begins at line start `p` and `\s*(.+)$` matches after it. */
  predicate KeyLineAt(s: string, key: string, p: nat)
  {
    p <= |s| && LineStart(s, p) && StartsWith(s[p..], key + ":") && CaptureAfter(s, p + |key| + 1).Some?
  }

  /** The group captured by `/^key:\s*(.+)$/m`, trying line starts from `k` on. */
  function KeyCapture(s: string, key: string, k: nat): Option<string>
    decreases |s| + 1 - k
  {
    if k > |s| then None
    else if KeyLineAt(s, key, k) then CaptureAfter(s, k + |key| + 1)
    else KeyCapture(s, key, k + 1)
  }

  predicate IsQuote(c: char)
  {
    c == '"' || c == '\''
  }

  /** `.replace(/^["']|["']$/g, '')`: one leading and one trailing quote character removed. */
  function StripQuotes(s: string): (r: string)
    ensures |r| <= |s|
    ensures |s| >= 2 ==> r == s[(if IsQuote(s[0]) then 1 else 0)..(if IsQuote(s[|s| - 1]) then |s| - 1 else |s|)]
    ensures |s| <= 1 ==> r == (if |s| == 1 && IsQuote(s[0]) then "" else s)
  {
    var a := if |s| > 0 && IsQuote(s[0]) then 1 else 0;
    var b := if |s| > a && IsQuote(s[|s| - 1]) then |s| - 1 else |s|;
    s[a..b]
  }

  /** The value of field `key`: captured, trimmed, quotes stripped. */
  function FieldValue(yaml: string, key: string): Option<string>
  {
    match KeyCapture(yaml, key, 0)
    case None => None
    case Some(c) => Some(StripQuotes(Trim(c)))
  }

  /**
   * When the first line that starts with `key:` holds a non-blank value on
   * that same line, that value (trimmed, quotes stripped) is the field.
   */
  lemma FirstKeyLineValue(s: string, key: string, p: nat)
    requires p <= |s| && LineStart(s, p) && StartsWith(s[p..], key + ":")
    requires forall q :: 0 <= q < p && LineStart(s, q) ==> !StartsWith(s[q..], key + ":")
    requires SpaceRunEnd(s, p + |key| + 1) < |s|
    ensures FieldValue(s, key) ==
      var w := SpaceRunEnd(s, p + |key| + 1);
      Some(StripQuotes(Trim(s[w..LineEnd(s, w)])))
  {
    FirstKeyLineFrom(s, key, p, 0);
  }

  lemma {:induction false} FirstKeyLineFrom(s: string, key: string, p: nat, k: nat)
    requires k <= p <= |s| && LineStart(s, p) && StartsWith(s[p..], key + ":")
    requires forall q :: k <= q < p && LineStart(s, q) ==> !StartsWith(s[q..], key + ":")
    requires SpaceRunEnd(s, p + |key| + 1) < |s|
    ensures KeyCapture(s, key, k) == CaptureAfter(s, p + |key| + 1)
    decreases p - k
  {
    if k < p {
      assert !KeyLineAt(s, key, k);
      FirstKeyLineFrom(s, key, p, k + 1);
    }
  }

  // ---------------------------------------------------------------------
  // The metadata block: brace depth from the first '{' after `metadata:`
  // ---------------------------------------------------------------------

  /** Opening braces minus closing braces in `t`. */
  function BraceDepth(t: string): int
  {
    if t == [] then 0
    else BraceDepth(t[..|t| - 1]) + (if t[|t| - 1] == '{' then 1 else if t[|t| - 1] == '}' then -1 else 0)
  }

  /** The first `j >= i` at which the depth counted from `start` is back to zero, or -1. */
  function FirstZeroDepth(s: string, start: nat, i: nat): (e: int)
    requires start <= i <= |s|
    decreases |s| - i
    ensures e == -1 || (i <= e < |s| && BraceDepth(s[start..e + 1]) == 0)
    ensures e == -1 ==> forall j :: i < j <= |s| ==> BraceDepth(s[start..j]) != 0
    ensures e != -1 ==> forall j :: i < j <= e ==> BraceDepth(s[start..j]) != 0
  {
    if i == |s| then -1
    else if BraceDepth(s[start..i + 1]) == 0 then i
    else FirstZeroDepth(s, start, i + 1)
  }

  /**
   * The loop of the source: walk from the brace at `start`, counting depth,
   * and stop at the brace that brings it back to zero. It finds the first
   * point where the depth of `s[start..]` is zero, which is a closing brace.
   */
  method MatchingBrace(s: string, start: nat) returns (braceEnd: int)
    requires start < |s| && s[start] == '{'
    ensures braceEnd == FirstZeroDepth(s, start, start)
    ensures braceEnd != -1 ==> start < braceEnd && s[braceEnd] == '}'
  {
    var depth := 0;
    braceEnd := -1;
    var i := start;
    while i < |s|
      invariant start <= i <= |s|
      invariant depth == BraceDepth(s[start..i])
      invariant i > start ==> depth >= 1
      invariant FirstZeroDepth(s, start, start) == FirstZeroDepth(s, start, i)
      invariant braceEnd == -1
    {
      assert s[start..i + 1][..i - start] == s[start..i];
      if s[i] == '{' {
        depth := depth + 1;
      } else if s[i] == '}' {
        depth := depth - 1;
        if depth == 0 {
          braceEnd := i;
          return;
        }
      }
      i := i + 1;
    }
  }

  /** The text of the metadata object: from the first '{' after `metadata:` to its matching '}'. */
  function MetadataText(yaml: string): (r: Option<string>)
    ensures r.Some? ==> |r.value| >= 2 && r.value[0] == '{' && BraceDepth(r.value) == 0
  {
    var m := IndexOf(yaml, "metadata:");
    if m == -1 then None
    else
      var after := yaml[m + 9..];
      var b := IndexOf(after, "{");
      if b == -1 then None
      else
        assert after[b..b + 1] == "{";
        var e := FirstZeroDepth(after, b, b);
        if e == -1 then None
        else
          assert e != b by { assert after[b..b + 1] == [after[b]]; assert BraceDepth([after[b]]) == 1; }
          Some(after[b..e + 1])
  }

  /** The four fields the scanner reads from the frontmatter. */
  datatype Frontmatter = Frontmatter(
    name: Option<string>,
    description: Option<string>,
    homepage: Option<string>,
    metadataText: Option<string>)

  const NoFields := Frontmatter(None, None, None, None)

  /** The frontmatter of a SKILL.md text. */
  function FrontmatterOf(content: string): (fm: Frontmatter)
    ensures Yaml(content).None? ==> fm == NoFields
    ensures Yaml(content).Some? ==> fm.name == FieldValue(Yaml(content).value, "name")
  {
    match Yaml(content)
    case None => NoFields
    case Some(y) =>
      Frontmatter(FieldValue(y, "name"), FieldValue(y, "description"), FieldValue(y, "homepage"), MetadataText(y))
  }

  /** `parseFrontmatter`, with the brace-depth walk done by the loop of the source. */
  method ParseFrontmatter(content: string) returns (fm: Frontmatter)
    ensures fm == FrontmatterOf(content)
  {
    var yaml := Yaml(content);
    if yaml.None? {
      return NoFields;
    }
    var y := yaml.value;
    var metadata: Option<string> := None;
    var metaIdx := IndexOf(y, "metadata:");
    if metaIdx != -1 {
      var afterMeta := y[metaIdx + 9..];
      var braceStart := IndexOf(afterMeta, "{");
      if braceStart != -1 {
        assert afterMeta[braceStart..braceStart + 1] == "{";
        var braceEnd := MatchingBrace(afterMeta, braceStart);
        if braceEnd != -1 {
          metadata := Some(afterMeta[braceStart..braceEnd + 1]);
        }
      }
    }
    assert metadata == MetadataText(y);
    fm := Frontmatter(FieldValue(y, "name"), FieldValue(y, "description"), FieldValue(y, "homepage"), metadata);
  }

  // ---------------------------------------------------------------------
  // Skill assembly
  // ---------------------------------------------------------------------

  /** `requires` inside the openclaw metadata; a field that is not an array is `None`. */
  datatype Requires = Requires(env: Option<seq<string>>, bins: Option<seq<string>>, anyBins: Option<seq<string>>)

  /** `metadata.openclaw`; a field of the wrong JSON type is `None`. */
  datatype OpenclawMeta = OpenclawMeta(
    emoji: Option<string>,
    os: Option<seq<string>>,
    primaryEnv: Option<string>,
    requirements: Option<Requires>)

  /** One row of the fallback requirement table. */
  datatype Fallback = Fallback(
    os: Option<seq<string>> := None,
    bins: Option<seq<string>> := None,
    anyBins: Option<seq<string>> := None,
    envs: Option<seq<string>> := None,
    needsConfig: bool := false)

  /** Requirements the scanner adds for skills whose metadata under-declares them. */
  const FallbackRequirements: seq<(string, Fallback)> := [
    ("1password", Fallback(bins := Some(["op"]))),
    ("apple-notes", Fallback(os := Some(["darwin"]), bins := Some(["memo"]))),
    ("apple-reminders", Fallback(os := Some(["darwin"]), bins := Some(["remindctl"]))),
    ("bear-notes", Fallback(os := Some(["darwin"]), bins := Some(["grizzly"]))),
    ("blucli", Fallback(bins := Some(["blu"]))),
    ("bluebubbles", Fallback(needsConfig := true)),
    ("blogwatcher", Fallback(bins := Some(["blogwatcher"]))),
    ("camsnap", Fallback(bins := Some(["camsnap", "ffmpeg"]))),
    ("clawhub", Fallback(bins := Some(["clawhub"]))),
    ("coding-agent", Fallback(anyBins := Some(["claude", "codex", "opencode", "pi"]))),
    ("discord", Fallback(needsConfig := true)),
    ("eightctl", Fallback(bins := Some(["eightctl"]))),
    ("food-order", Fallback(bins := Some(["ordercli"]))),
    ("gemini", Fallback(bins := Some(["gemini"]))),
    ("gifgrep", Fallback(bins := Some(["gifgrep"]))),
    ("github", Fallback(bins := Some(["gh"]))),
    ("gog", Fallback(bins := Some(["gog"]))),
    ("goplaces", Fallback(bins := Some(["goplaces"]), envs := Some(["GOOGLE_PLACES_API_KEY"]))),
    ("himalaya", Fallback(bins := Some(["himalaya"]))),
    ("imsg", Fallback(os := Some(["darwin"]), bins := Some(["imsg"]))),
    ("mcporter", Fallback(bins := Some(["mcporter"]))),
    ("model-usage", Fallback(os := Some(["darwin"]), bins := Some(["codexbar"]))),
    ("nano-banana-pro", Fallback(bins := Some(["uv"]), envs := Some(["GEMINI_API_KEY"]))),
    ("nano-pdf", Fallback(bins := Some(["nano-pdf"]))),
    ("notion", Fallback(envs := Some(["NOTION_API_KEY"]))),
    ("obsidian", Fallback(bins := Some(["obsidian-cli"]))),
    ("openai-image-gen", Fallback(bins := Some(["python3"]), envs := Some(["OPENAI_API_KEY"]))),
    ("openai-whisper", Fallback(bins := Some(["whisper"]))),
    ("openai-whisper-api", Fallback(bins := Some(["curl"]), envs := Some(["OPENAI_API_KEY"]))),
    ("openhue", Fallback(bins := Some(["openhue"]))),
    ("oracle", Fallback(bins := Some(["oracle"]))),
    ("ordercli", Fallback(bins := Some(["ordercli"]))),
    ("peekaboo", Fallback(os := Some(["darwin"]), bins := Some(["peekaboo"]))),
    ("sag", Fallback(bins := Some(["sag"]), envs := Some(["ELEVENLABS_API_KEY"]))),
    ("session-logs", Fallback(bins := Some(["jq", "rg"]))),
    ("sherpa-onnx-tts", Fallback(envs := Some(["SHERPA_ONNX_RUNTIME_DIR", "SHERPA_ONNX_MODEL_DIR"]))),
    ("skill-creator", Fallback()),
    ("slack", Fallback(needsConfig := true)),
    ("songsee", Fallback(bins := Some(["songsee"]))),
    ("sonoscli", Fallback(bins := Some(["sonos"]))),
    ("spotify-player", Fallback(anyBins := Some(["spogo", "spotify_player"]))),
    ("summarize", Fallback(bins := Some(["summarize"]))),
    ("things-mac", Fallback(os := Some(["darwin"]), bins := Some(["things"]))),
    ("tmux", Fallback(os := Some(["darwin", "linux"]), bins := Some(["tmux"]))),
    ("trello", Fallback(bins := Some(["jq"]), envs := Some(["TRELLO_API_KEY", "TRELLO_TOKEN"]))),
    ("video-frames", Fallback(bins := Some(["ffmpeg"]))),
    ("voice-call", Fallback(needsConfig := true)),
    ("wacli", Fallback(bins := Some(["wacli"]))),
    ("weather", Fallback())
  ]

  /** `FALLBACK_REQUIREMENTS[name]`: the first row of `rows` for `name`, if there is one. */
  function FindRow(rows: seq<(string, Fallback)>, name: string): (r: Option<Fallback>)
    ensures r.Some? <==> exists i :: 0 <= i < |rows| && rows[i].0 == name
    ensures r.Some? ==> exists i :: 0 <= i < |rows| && rows[i] == (name, r.value)
  {
    if rows == [] then None
    else if rows[0].0 == name then Some(rows[0].1)
    else
      var r := FindRow(rows[1..], name);
      assert forall i :: 0 < i < |rows| ==> rows[i] == rows[1..][i - 1];
      r
  }

  /** The label used as primary env for skills that need channel configuration. */
  const ChannelConfigEnv := "频道配置"

  /** The record a named frontmatter starts from. */
  function BaseSkill(fm: Frontmatter, source: Source): (s: SkillInfo)
    requires Filled(fm.name)
    ensures s.name == fm.name.value && s.source == source
    ensures !s.enabled && s.status == Ready && !s.requiresApiKey
    ensures s.description == (if Filled(fm.description) then fm.description.value else "")
  {
    SkillInfo(
      fm.name.value,
      if Filled(fm.description) then fm.description.value else "",
      None, fm.homepage, source, false, Ready, None, None, None, false, None, false, None)
  }

  /** `primaryEnv` kept when truthy, else replaced by `dflt`. */
  function PrimaryOr(p: Option<string>, dflt: string): Option<string>
  {
    if Filled(p) then p else Some(dflt)
  }

  /** No requirement list yet, or an empty one: `!requiresBins || requiresBins.length === 0`. */
  predicate BinsUnset(s: SkillInfo)
  {
    s.requiresBins.None? || |s.requiresBins.value| == 0
  }

  /** Every skill needing a key knows which variable, and the any-of flag comes with a list. */
  predicate WellFormed(s: SkillInfo)
  {
    (s.requiresApiKey ==> s.primaryEnv.Some?) && (s.requiresAnyBin ==> s.requiresBins.Some?)
  }

  /** `requires` of the metadata, with every list absent when it is missing. */
  function RequirementsOf(meta: OpenclawMeta): Requires
  {
    meta.requirements.GetOr(Requires(None, None, None))
  }

  /** The fields the openclaw metadata sets. */
  function ApplyMeta(s: SkillInfo, meta: OpenclawMeta): (r: SkillInfo)
    requires WellFormed(s)
    ensures WellFormed(r)
    ensures r.name == s.name && r.description == s.description && r.source == s.source
    ensures r.homepage == s.homepage && r.enabled == s.enabled && r.status == s.status
    ensures meta.emoji.Some? ==> r.emoji == meta.emoji
    ensures meta.os.Some? ==> r.os == meta.os
    ensures meta.primaryEnv.Some? ==> r.requiresApiKey
    ensures Filled(meta.primaryEnv) ==> r.primaryEnv == meta.primaryEnv
    ensures var req := RequirementsOf(meta);
      (req.anyBins.Some? ==> r.requiresBins == req.anyBins && r.requiresAnyBin) &&
      (req.anyBins.None? && req.bins.Some? ==> r.requiresBins == req.bins) &&
      (req.env.Some? && |req.env.value| > 0 ==> r.requiresApiKey)
  {
    var req := RequirementsOf(meta);
    var envs := req.env.Some? && |req.env.value| > 0;
    var declaredEnv := if meta.primaryEnv.Some? then meta.primaryEnv else s.primaryEnv;
    var declaredBins := if req.bins.Some? then req.bins else s.requiresBins;
    s.(emoji := if meta.emoji.Some? then meta.emoji else s.emoji,
       os := if meta.os.Some? then meta.os else s.os,
       primaryEnv := if envs then PrimaryOr(declaredEnv, req.env.value[0]) else declaredEnv,
       requiresApiKey := s.requiresApiKey || meta.primaryEnv.Some? || envs,
       requiresBins := if req.anyBins.Some? then req.anyBins else declaredBins,
       requiresAnyBin := s.requiresAnyBin || req.anyBins.Some?)
  }

  /** The fallback row fills only what the metadata left unset. */
  function ApplyFallback(s: SkillInfo, f: Fallback): (r: SkillInfo)
    requires WellFormed(s)
    ensures WellFormed(r)
    ensures r.name == s.name && r.description == s.description && r.source == s.source
    ensures r.homepage == s.homepage && r.emoji == s.emoji && r.enabled == s.enabled && r.status == s.status
    ensures s.os.Some? ==> r.os == s.os
    ensures !BinsUnset(s) ==> r.requiresBins == s.requiresBins && r.requiresAnyBin == s.requiresAnyBin
    ensures Filled(s.primaryEnv) ==> r.primaryEnv == s.primaryEnv
    ensures s.requiresApiKey ==> r.requiresApiKey
    ensures (f.needsConfig || (f.envs.Some? && |f.envs.value| > 0)) ==> r.requiresApiKey
  {
    var binsFromTable := f.bins.Some? && BinsUnset(s);
    var bins := if binsFromTable then f.bins else s.requiresBins;
    var anyFromTable := f.anyBins.Some? && (bins.None? || |bins.value| == 0);
    var envs := f.envs.Some? && |f.envs.value| > 0;
    var envDefault := if envs then PrimaryOr(s.primaryEnv, f.envs.value[0]) else s.primaryEnv;
    s.(os := if s.os.None? then f.os else s.os,
       requiresBins := if anyFromTable then f.anyBins else bins,
       requiresAnyBin := s.requiresAnyBin || anyFromTable,
       requiresApiKey := s.requiresApiKey || envs || f.needsConfig,
       primaryEnv := if f.needsConfig then PrimaryOr(envDefault, ChannelConfigEnv) else envDefault)
  }

  /** The skill a SKILL.md text yields, or `None` when its frontmatter has no name. */
  function SkillOf(content: string, source: Source, decode: string -> Option<OpenclawMeta>, table: seq<(string, Fallback)>): (r: Option<SkillInfo>)
    ensures r.None? <==> !Filled(FrontmatterOf(content).name)
    ensures r.Some? ==> WellFormed(r.value) && r.value.name == FrontmatterOf(content).name.value
    ensures r.Some? ==> r.value.source == source && !r.value.enabled && r.value.status == Ready
    ensures r.Some? ==> r.value.missingReason.None? && r.value.apiKey.None?
  {
    var fm := FrontmatterOf(content);
    if !Filled(fm.name) then None
    else
      var base := BaseSkill(fm, source);
      var meta := if fm.metadataText.Some? then decode(fm.metadataText.value) else None;
      var withMeta := if meta.Some? then ApplyMeta(base, meta.value) else base;
      var name := withMeta.name;
      var fallback := FindRow(table, name);
      Some(if fallback.Some? then ApplyFallback(withMeta, fallback.value) else withMeta)
  }

  /** One directory entry: its name and the text of its SKILL.md when present and readable. */
  datatype DirEntry = DirEntry(name: string, skillMd: Option<string>)

  /** The skills of a directory listing, in listing order. */
  function SkillsIn(entries: seq<DirEntry>, source: Source, decode: string -> Option<OpenclawMeta>, table: seq<(string, Fallback)>): seq<SkillInfo>
  {
    if entries == [] then []
    else
      var prefix := SkillsIn(entries[..|entries| - 1], source, decode, table);
      var last := entries[|entries| - 1];
      if last.skillMd.None? then prefix
      else
        match SkillOf(last.skillMd.value, source, decode, table)
        case None => prefix
        case Some(s) => prefix + [s]
  }

  /** Every scanned skill is named, comes from the scanned directory and starts disabled and ready. */
  lemma {:induction false} SkillsInShape(entries: seq<DirEntry>, source: Source, decode: string -> Option<OpenclawMeta>, table: seq<(string, Fallback)>)
    ensures |SkillsIn(entries, source, decode, table)| <= |entries|
    ensures forall s :: s in SkillsIn(entries, source, decode, table) ==>
      s.source == source && !s.enabled && s.status == Ready && s.name != "" && WellFormed(s)
  {
    if entries != [] {
      SkillsInShape(entries[..|entries| - 1], source, decode, table);
    }
  }

  /** `scanDirectory`: one skill per entry whose SKILL.md has a named frontmatter, in order. */
  method ScanDirectory(entries: seq<DirEntry>, source: Source, decode: string -> Option<OpenclawMeta>, table: seq<(string, Fallback)>)
    returns (skills: seq<SkillInfo>)
    ensures skills == SkillsIn(entries, source, decode, table)
  {
    skills := [];
    var i := 0;
    while i < |entries|
      invariant 0 <= i <= |entries|
      invariant skills == SkillsIn(entries[..i], source, decode, table)
    {
      SkillsInStep(entries, i, source, decode, table);
      var found := SkillFrom(entries[i], source, decode, table);
      skills := skills + found;
      i := i + 1;
    }
    assert entries[..|entries|] == entries;
  }

  /** One pass of the scan loop: an entry adds its skill when its SKILL.md has a named frontmatter. */
  method SkillFrom(entry: DirEntry, source: Source, decode: string -> Option<OpenclawMeta>, table: seq<(string, Fallback)>)
    returns (found: seq<SkillInfo>)
    ensures found == SkillsIn([entry], source, decode, table)
  {
    assert [entry][..0] == [];
    found := [];
    if entry.skillMd.Some? {
      var fm := ParseFrontmatter(entry.skillMd.value);
      if Filled(fm.name) {
        var skill := SkillOf(entry.skillMd.value, source, decode, table).value;
        found := [skill];
      }
    }
  }

  lemma SkillsInStep(entries: seq<DirEntry>, i: nat, source: Source, decode: string -> Option<OpenclawMeta>, table: seq<(string, Fallback)>)
    requires i < |entries|
    ensures SkillsIn(entries[..i + 1], source, decode, table)
      == SkillsIn(entries[..i], source, decode, table) + SkillsIn([entries[i]], source, decode, table)
  {
    assert entries[..i + 1][..i] == entries[..i];
    assert [entries[i]][..0] == [];
  }

  // ---------------------------------------------------------------------
  // Status resolution
  // ---------------------------------------------------------------------

  /** `entry?.apiKey` is truthy. */
  predicate HasKey(entry: Option<SkillEntryConfig>)
  {
    entry.Some? && Filled(entry.value.apiKey)
  }

  /** `entry?.env?.[name]` is truthy. */
  predicate HasEnv(entry: Option<SkillEntryConfig>, name: string)
  {
    entry.Some? && entry.value.env.Some? && name in entry.value.env.value && entry.value.env.value[name] != ""
  }

  predicate ExplicitlyDisabled(entry: Option<SkillEntryConfig>)
  {
    entry.Some? && entry.value.enabled == Some(false)
  }

  predicate OsBlocked(s: SkillInfo, platform: string)
  {
    s.os.Some? && |s.os.value| > 0 && platform !in s.os.value
  }

  /** A binary the probe does not find, as a predicate value. */
  function Absent(probe: string -> bool): string -> bool
  {
    b => !probe(b)
  }

  /** The binaries of `bins` that `probe` does not find, in list order. */
  function MissingBins(bins: seq<string>, probe: string -> bool): (m: seq<string>)
    ensures forall b :: b in m <==> b in bins && !probe(b)
    ensures |m| <= |bins|
  {
    if bins == [] then []
    else MissingBins(bins[..|bins| - 1], probe) + (if probe(bins[|bins| - 1]) then [] else [bins[|bins| - 1]])
  }

  /** The missing binaries keep the order of the list: they are its filter by absence. */
  lemma {:induction false} MissingBinsIsFilter(bins: seq<string>, probe: string -> bool)
    ensures MissingBins(bins, probe) == Seqs.Filter(bins, Absent(probe))
  {
    if bins != [] {
      MissingBinsIsFilter(bins[..|bins| - 1], probe);
    }
  }

  predicate AnyPresent(bins: seq<string>, probe: string -> bool)
  {
    exists b :: b in bins && probe(b)
  }

  /** A requirement list is declared and some needed binary is absent. */
  predicate BinsMissing(s: SkillInfo, probe: string -> bool)
  {
    s.requiresBins.Some? && |s.requiresBins.value| > 0 &&
      if s.requiresAnyBin then !AnyPresent(s.requiresBins.value, probe)
      else |MissingBins(s.requiresBins.value, probe)| > 0
  }

  predicate KeyMissing(s: SkillInfo, entry: Option<SkillEntryConfig>)
  {
    s.requiresApiKey && !HasKey(entry) && !HasEnv(entry, s.primaryEnv.GetOr(""))
  }

  /** Why a missing binary blocks the skill. */
  function BinsReason(s: SkillInfo, probe: string -> bool): string
    requires s.requiresBins.Some?
  {
    if s.requiresAnyBin then "需安装其一: " + Join(s.requiresBins.value, " / ")
    else "需安装: " + Join(MissingBins(s.requiresBins.value, probe), ", ")
  }

  /**
   * The status of one skill, by rules tried in order: explicit disable, then
   * platform, then binaries, then API key; the first that fires wins, and a
   * skill none of them stops is enabled and ready.
   */
  function Resolve(s: SkillInfo, entry: Option<SkillEntryConfig>, platform: string, probe: string -> bool): (r: SkillInfo)
    ensures r.enabled <==> r.status == Ready
    ensures r.name == s.name && r.source == s.source && r.requiresBins == s.requiresBins && r.os == s.os
    ensures r.apiKey == (if HasKey(entry) then entry.value.apiKey else s.apiKey)
    ensures r.status == Disabled <==> ExplicitlyDisabled(entry)
    ensures r.status == Blocked <==> !ExplicitlyDisabled(entry) && OsBlocked(s, platform)
    ensures r.status == Missing <==>
      !ExplicitlyDisabled(entry) && !OsBlocked(s, platform) && (BinsMissing(s, probe) || KeyMissing(s, entry))
    ensures r.status == Blocked ==> r.missingReason == Some("仅支持 " + Join(s.os.value, "/"))
    ensures r.status == Missing && BinsMissing(s, probe) ==> r.missingReason == Some(BinsReason(s, probe))
    ensures r.status == Missing && !BinsMissing(s, probe) ==>
      r.missingReason == Some("需要 " + s.primaryEnv.GetOr("API Key"))
  {
    var s1 := if HasKey(entry) then s.(apiKey := entry.value.apiKey) else s;
    if ExplicitlyDisabled(entry) then
      s1.(enabled := false, status := Disabled)
    else if OsBlocked(s, platform) then
      s1.(enabled := false, status := Blocked, missingReason := Some("仅支持 " + Join(s.os.value, "/")))
    else if BinsMissing(s, probe) then
      s1.(enabled := false, status := Missing, missingReason := Some(BinsReason(s, probe)))
    else if KeyMissing(s, entry) then
      s1.(enabled := false, status := Missing, missingReason := Some("需要 " + s.primaryEnv.GetOr("API Key")))
    else
      s1.(enabled := true, status := Ready)
  }

  /** `entries[skill.name]` of the configuration. */
  function EntryFor(entries: map<string, SkillEntryConfig>, name: string): Option<SkillEntryConfig>
  {
    if name in entries then Some(entries[name]) else None
  }

  /**
   * The skills of the bundled, local and workspace directories, in that
   * order; there is no workspace directory when none is configured.
   */
  function Scanned(bundled: seq<DirEntry>, local: seq<DirEntry>, workspace: Option<seq<DirEntry>>,
                   decode: string -> Option<OpenclawMeta>, table: seq<(string, Fallback)>): seq<SkillInfo>
  {
    SkillsIn(bundled, Bundled, decode, table) +
    SkillsIn(local, Local, decode, table) +
    (if workspace.Some? then SkillsIn(workspace.value, Workspace, decode, table) else [])
  }

  /** Each skill resolved against its configuration entry. */
  function ResolveEach(skills: seq<SkillInfo>, entries: map<string, SkillEntryConfig>, platform: string,
                       probe: string -> bool): (r: seq<SkillInfo>)
    ensures |r| == |skills|
    ensures forall k :: 0 <= k < |r| ==> r[k] == Resolve(skills[k], EntryFor(entries, skills[k].name), platform, probe)
  {
    seq(|skills|, k requires 0 <= k < |skills| => Resolve(skills[k], EntryFor(entries, skills[k].name), platform, probe))
  }

  /**
   * The scan lists bundled skills first, then local, then workspace ones;
   * every listed skill is named, and enabled exactly when ready.
   */
  lemma ScanOrder(bundled: seq<DirEntry>, local: seq<DirEntry>, workspace: Option<seq<DirEntry>>,
                  decode: string -> Option<OpenclawMeta>, table: seq<(string, Fallback)>, entries: map<string, SkillEntryConfig>,
                  platform: string, probe: string -> bool, k: nat)
    requires k < |Scanned(bundled, local, workspace, decode, table)|
    ensures var r := ResolveEach(Scanned(bundled, local, workspace, decode, table), entries, platform, probe)[k];
      var nb := |SkillsIn(bundled, Bundled, decode, table)|;
      var nl := |SkillsIn(local, Local, decode, table)|;
      r.name != "" && (r.enabled <==> r.status == Ready) &&
      r.source == (if k < nb then Bundled else if k < nb + nl then Local else Workspace)
  {
    var b := SkillsIn(bundled, Bundled, decode, table);
    var l := SkillsIn(local, Local, decode, table);
    var w := if workspace.Some? then SkillsIn(workspace.value, Workspace, decode, table) else [];
    SkillsInShape(bundled, Bundled, decode, table);
    SkillsInShape(local, Local, decode, table);
    if workspace.Some? {
      SkillsInShape(workspace.value, Workspace, decode, table);
    }
    ConcatSource(b, l, w, k);
  }

  /** Where an index of a three-part concatenation falls decides which part's source its element has. */
  lemma ConcatSource(b: seq<SkillInfo>, l: seq<SkillInfo>, w: seq<SkillInfo>, k: nat)
    requires forall s :: s in b ==> s.source == Bundled && s.name != ""
    requires forall s :: s in l ==> s.source == Local && s.name != ""
    requires forall s :: s in w ==> s.source == Workspace && s.name != ""
    requires k < |b + l + w|
    ensures (b + l + w)[k].name != ""
    ensures (b + l + w)[k].source == (if k < |b| then Bundled else if k < |b| + |l| then Local else Workspace)
  {
    var all := b + l + w;
    if k < |b| {
      assert all[k] == b[k];
    } else if k < |b| + |l| {
      assert all[k] == l[k - |b|];
    } else {
      assert all[k] == w[k - |b| - |l|];
    }
  }

  /**
   * The mutable parts of the scanner: the memo of binary lookups, kept for
   * the lifetime of the process.
   */
  class Scanner {
    var binCache: map<string, bool>

    /** Every cached answer is what the probe says. */
    predicate CacheAgrees(probe: string -> bool)
      reads this
    {
      forall n :: n in binCache ==> binCache[n] == probe(n)
    }

    constructor ()
      ensures binCache == map[]
    {
      binCache := map[];
    }

    /** `binExists`: a cached answer is returned as is; otherwise the probe runs and its answer is cached. */
    method BinExists(name: string, probe: string -> bool) returns (found: bool)
      modifies this
      ensures name in old(binCache) ==> found == old(binCache)[name] && binCache == old(binCache)
      ensures name !in old(binCache) ==> found == probe(name) && binCache == old(binCache)[name := found]
    {
      if name in binCache {
        return binCache[name];
      }
      found := probe(name);
      binCache := binCache[name := found];
    }

    /** `.some(b => binExists(b))`, stopping at the first binary found. */
    method AnyBinExists(bins: seq<string>, probe: string -> bool) returns (any: bool)
      requires CacheAgrees(probe)
      modifies this
      ensures CacheAgrees(probe)
      ensures any == AnyPresent(bins, probe)
    {
      var i := 0;
      while i < |bins|
        invariant 0 <= i <= |bins|
        invariant CacheAgrees(probe)
        invariant forall j :: 0 <= j < i ==> !probe(bins[j])
      {
        var found := BinExists(bins[i], probe);
        if found {
          return true;
        }
        i := i + 1;
      }
      return false;
    }

    /** `.filter(b => !binExists(b))`. */
    method MissingBinsOf(bins: seq<string>, probe: string -> bool) returns (missing: seq<string>)
      requires CacheAgrees(probe)
      modifies this
      ensures CacheAgrees(probe)
      ensures missing == MissingBins(bins, probe)
    {
      missing := [];
      var i := 0;
      while i < |bins|
        invariant 0 <= i <= |bins|
        invariant CacheAgrees(probe)
        invariant missing == MissingBins(bins[..i], probe)
      {
        assert bins[..i + 1][..i] == bins[..i];
        var found := BinExists(bins[i], probe);
        if !found {
          missing := missing + [bins[i]];
        }
        i := i + 1;
      }
      assert bins[..|bins|] == bins;
    }

    /** The loop of `scanSkills`: each skill's status worked out in turn, binaries looked up through the memo. */
    method ResolveAll(input: seq<SkillInfo>, entries: map<string, SkillEntryConfig>, platform: string,
                      probe: string -> bool)
      returns (all: seq<SkillInfo>)
      requires CacheAgrees(probe)
      modifies this
      ensures CacheAgrees(probe)
      ensures all == ResolveEach(input, entries, platform, probe)
    {
      all := [];
      var i := 0;
      while i < |input|
        invariant 0 <= i <= |input|
        invariant CacheAgrees(probe)
        invariant |all| == i
        invariant forall k :: 0 <= k < i ==> all[k] == Resolve(input[k], EntryFor(entries, input[k].name), platform, probe)
      {
        var skill := input[i];
        var entry := EntryFor(entries, skill.name);
        var r := if HasKey(entry) then skill.(apiKey := entry.value.apiKey) else skill;
        if ExplicitlyDisabled(entry) {
          r := r.(enabled := false, status := Disabled);
        } else if OsBlocked(skill, platform) {
          r := r.(enabled := false, status := Blocked, missingReason := Some("仅支持 " + Join(skill.os.value, "/")));
        } else {
          var binsMissing := false;
          if skill.requiresBins.Some? && |skill.requiresBins.value| > 0 {
            if skill.requiresAnyBin {
              var any := AnyBinExists(skill.requiresBins.value, probe);
              if !any {
                binsMissing := true;
                r := r.(enabled := false, status := Missing,
                        missingReason := Some("需安装其一: " + Join(skill.requiresBins.value, " / ")));
              }
            } else {
              var missing := MissingBinsOf(skill.requiresBins.value, probe);
              if |missing| > 0 {
                binsMissing := true;
                r := r.(enabled := false, status := Missing, missingReason := Some("需安装: " + Join(missing, ", ")));
              }
            }
          }
          assert binsMissing == BinsMissing(skill, probe);
          if !binsMissing {
            if KeyMissing(skill, entry) {
              r := r.(enabled := false, status := Missing,
                      missingReason := Some("需要 " + skill.primaryEnv.GetOr("API Key")));
            } else {
              r := r.(enabled := true, status := Ready);
            }
          }
        }
        all := all + [r];
        i := i + 1;
      }
    }

    /**
     * `scanSkills`: the bundled, local and (when configured) workspace
     * directories scanned in that order, then every skill resolved.
     */
    method ScanSkills(bundled: seq<DirEntry>, local: seq<DirEntry>, workspace: Option<seq<DirEntry>>,
                      decode: string -> Option<OpenclawMeta>, entries: map<string, SkillEntryConfig>,
                      platform: string, probe: string -> bool)
      returns (all: seq<SkillInfo>)
      requires CacheAgrees(probe)
      modifies this
      ensures CacheAgrees(probe)
      ensures all == ResolveEach(Scanned(bundled, local, workspace, decode, FallbackRequirements), entries, platform, probe)
    {
      var bundledSkills := ScanDirectory(bundled, Bundled, decode, FallbackRequirements);
      var localSkills := ScanDirectory(local, Local, decode, FallbackRequirements);
      var workspaceSkills: seq<SkillInfo> := [];
      if workspace.Some? {
        workspaceSkills := ScanDirectory(workspace.value, Workspace, decode, FallbackRequirements);
      }
      all := ResolveAll(bundledSkills + localSkills + workspaceSkills, entries, platform, probe);
    }
  }

  // ---------------------------------------------------------------------
  // Writing the entries back
  // ---------------------------------------------------------------------

  /**
   * `obj[key] = value` as the written file shows it: set on an object; on an
   * array the named property is dropped by `JSON.stringify`, so the array is
   * written as it was.
   */
  function SetUnlessArray(v: Json.Json, key: string, value: Json.Json): (r: Json.Json)
    requires v.JObj? || v.JArr?
    ensures v.JArr? ==> r == v
    ensures v.JObj? ==> r.JObj? && r.fields == v.fields[key := value]
  {
    if v.JArr? then v else Json.Set(v, key, value)
  }

  /** A value JavaScript can set a named property on: an object or an array. */
  predicate Settable(v: Json.Json)
  {
    v.JObj? || v.JArr?
  }

  /**
   * `saveSkillsConfig` on the parsed configuration: `skills.entries` is
   * replaced and `meta.lastTouchedAt` set, everything else kept. A part that
   * is an array takes the property without error, and the written file drops
   * it again, so the array is kept as it was (a whole configuration that is an
   * array is written back unchanged). `null`, or a truthy `skills` or `meta`
   * that is a string, number or `true`, makes the source throw (in strict
   * code a property cannot be set on a primitive), which it reports as
   * `{ok: false}`.
   */
  function SaveSkillsConfig(existing: Json.Json, entries: Json.Json, now: string): (r: Result<Json.Json, string>)
    ensures r.Ok? <==> (existing.JArr? ||
                        (existing.JObj? && (!Json.HasTruthy(existing, "skills") || Settable(existing.fields["skills"])) &&
                         (!Json.HasTruthy(existing, "meta") || Settable(existing.fields["meta"]))))
    ensures existing.JArr? ==> r == Ok(existing)
    ensures r.Ok? && existing.JObj? ==> r.value.JObj?
    ensures r.Ok? && existing.JObj? ==> forall k :: k in existing.fields && k != "skills" && k != "meta" ==>
      k in r.value.fields && r.value.fields[k] == existing.fields[k]
    ensures r.Ok? && existing.JObj? && !(Json.HasTruthy(existing, "skills") && existing.fields["skills"].JArr?) ==>
      "skills" in r.value.fields && Json.Get(r.value.fields["skills"], "entries") == Some(entries)
    ensures r.Ok? && Json.HasTruthy(existing, "skills") && existing.fields["skills"].JArr? ==>
      r.value.JObj? && "skills" in r.value.fields && r.value.fields["skills"] == existing.fields["skills"]
    ensures r.Ok? && existing.JObj? && !(Json.HasTruthy(existing, "meta") && existing.fields["meta"].JArr?) ==>
      "meta" in r.value.fields && Json.Get(r.value.fields["meta"], "lastTouchedAt") == Some(Json.JStr(now))
    ensures r.Ok? && Json.HasTruthy(existing, "meta") && existing.fields["meta"].JArr? ==>
      r.value.JObj? && "meta" in r.value.fields && r.value.fields["meta"] == existing.fields["meta"]
    ensures r.Ok? && Json.HasTruthy(existing, "skills") && existing.fields["skills"].JObj? ==>
      forall k :: k in existing.fields["skills"].fields && k != "entries" ==>
        Json.Get(r.value.fields["skills"], k) == Some(existing.fields["skills"].fields[k])
    ensures r.Ok? && Json.HasTruthy(existing, "meta") && existing.fields["meta"].JObj? ==>
      forall k :: k in existing.fields["meta"].fields && k != "lastTouchedAt" ==>
        Json.Get(r.value.fields["meta"], k) == Some(existing.fields["meta"].fields[k])
  {
    if existing.JArr? then Ok(existing)
    else if !existing.JObj? then Err("config is not an object")
    else
      var skills := Json.ChildOrEmpty(existing, "skills");
      var meta := Json.ChildOrEmpty(existing, "meta");
      if !Settable(skills) || !Settable(meta) then Err("cannot set a property on a primitive")
      else
        var withSkills := Json.Set(existing, "skills", SetUnlessArray(skills, "entries", entries));
        Ok(Json.Set(withSkills, "meta", SetUnlessArray(meta, "lastTouchedAt", Json.JStr(now))))
  }

  /** Saving the same entries at the same time again leaves the file as the first save wrote it. */
  lemma SaveSkillsConfigIdempotent(existing: Json.Json, entries: Json.Json, now: string)
    requires SaveSkillsConfig(existing, entries, now).Ok?
    ensures var once := SaveSkillsConfig(existing, entries, now).value;
      SaveSkillsConfig(once, entries, now) == Ok(once)
  {
    if existing.JObj? {
      var skills := SetUnlessArray(Json.ChildOrEmpty(existing, "skills"), "entries", entries);
      var meta := SetUnlessArray(Json.ChildOrEmpty(existing, "meta"), "lastTouchedAt", Json.JStr(now));
      var once := Json.Set(Json.Set(existing, "skills", skills), "meta", meta);
      assert SaveSkillsConfig(existing, entries, now).value == once;
      assert Json.ChildOrEmpty(once, "skills") == skills;
      assert Json.ChildOrEmpty(once, "meta") == meta;
      assert SetUnlessArray(skills, "entries", entries) == skills;
      assert SetUnlessArray(meta, "lastTouchedAt", Json.JStr(now)) == meta;
      assert once.fields["skills" := skills]["meta" := meta] == once.fields;
    }
  }
}
