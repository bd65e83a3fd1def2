/**
 * The CLAUDE.md generator of the main process (electron/claude-md-generator.ts):
 * the environment section framed by two HTML-comment markers, merged into the
 * workspace's CLAUDE.md so that text outside the markers is kept; the
 * per-tool detection memo; and the Windows release naming.
 *
 * Commands the generator runs are the parameter `run`: the standard output
 * of a command line, or `None` when the command fails. The clock reading,
 * the shell description and the scanned skills are inputs.
 */
module ClaudeMd {
  import opened Wrappers
  import opened Text
  import opened SkillTypes
  import opened Json

  const MarkerStart := "<!-- CLAWWIN-AUTO-START -->"
  const MarkerEnd := "<!-- CLAWWIN-AUTO-END -->"

  // ---------------------------------------------------------------------
  // Merging the section into an existing file. The merge is stated for any
  // pair of markers whose first character does not recur inside them; the
  // generator's own markers are such a pair (MarkersLeadOnly).
  // ---------------------------------------------------------------------

  /** `p` occurs nowhere in `s` at or after position `k`. */
  ghost predicate NoneFrom(s: string, p: string, k: int)
  {
    forall i :: k <= i ==> !OccursAt(s, p, i)
  }

  /** The first character of `p` occurs in `p` only at its start, so no two occurrences of `p` overlap. */
  predicate LeadOnly(p: string)
  {
    |p| > 0 && forall i :: 0 < i < |p| ==> p[i] != p[0]
  }

  lemma MarkersLeadOnly()
    ensures LeadOnly(MarkerStart) && LeadOnly(MarkerEnd)
  {
  }

  /**
   * A generated section: it begins with the start marker, ends with the end
   * marker, and holds neither marker anywhere else.
   */
  ghost predicate SectionShape(a: string, open: string, close: string)
  {
    |a| >= |open| + |close| && StartsWith(a, open) && EndsWith(a, close) &&
    (forall i :: OccursAt(a, open, i) ==> i == 0) &&
    (forall i :: OccursAt(a, close, i) ==> i == |a| - |close|)
  }

  /** The text has a start marker with an end marker somewhere after it. */
  ghost predicate HasMarkerPair(existing: string, open: string, close: string)
  {
    exists i, j :: OccursAt(existing, open, i) && OccursAt(existing, close, j) && i + |open| <= j
  }

  /**
   * `mergeWithExisting` as the source writes it: the end marker is looked up
   * from the start of the text, wherever the start marker is.
   */
  function MergeAsWritten(existing: string, section: string, open: string, close: string): (r: string)
    ensures IndexOf(existing, open) == -1 || IndexOf(existing, close) == -1 ==>
      r == section + "\n\n" + existing
    ensures IndexOf(existing, open) != -1 && IndexOf(existing, close) != -1 ==>
      r == existing[..IndexOf(existing, open)] + section + existing[IndexOf(existing, close) + |close|..]
  {
    var startIdx := IndexOf(existing, open);
    var endIdx := IndexOf(existing, close);
    if startIdx != -1 && endIdx != -1 then
      existing[..startIdx] + section + existing[endIdx + |close|..]
    else
      section + "\n\n" + existing
  }

  /**
   * Merging once more is not a no-op for the source's merge: for markers
   * where the end marker is the shorter one, a text holding the end marker
   * before the start marker gains another copy of the section on every run.
   */
  lemma MergeAsWrittenDuplicates(open: string, close: string)
    requires LeadOnly(open) && |close| < |open|
    ensures var existing := close + open;
      var section := open + close;
      var once := MergeAsWritten(existing, section, open, close);
      once == close + section + open &&
      MergeAsWritten(once, section, open, close) == close + section + section + open
  {
    var section := open + close;
    assert StartsWith(open, open);
    EndFirstStartAfter(close, open, open);
    var once := MergeAsWritten(close + open, section, open, close);
    assert once == close + section + open;
    assert StartsWith(section + open, open) by {
      assert (section + open)[..|open|] == open;
    }
    EndFirstStartAfter(close, section + open, open);
    assert once == close + (section + open);
    assert MergeAsWritten(once, section, open, close) == close + section + (section + open);
  }

  /**
   * In `close + rest`, where `rest` starts with `open`, the source's merge
   * finds the end marker at 0 and the start marker right after it.
   */
  lemma EndFirstStartAfter(close: string, rest: string, open: string)
    requires LeadOnly(open) && |close| < |open| && StartsWith(rest, open)
    ensures var t := close + rest;
      IndexOf(t, close) == 0 && IndexOf(t, open) == |close| &&
      t[..IndexOf(t, open)] == close && t[IndexOf(t, close) + |close|..] == rest
  {
    var t := close + rest;
    FirstOccurrenceAtJoin(close, rest, open, 0);
    assert t[0..|close|] == close;
  }

  /** With the generator's own markers, the second run of the source's merge lengthens the file. */
  lemma MergeAsWrittenNotIdempotent()
    ensures var existing := MarkerEnd + MarkerStart;
      var section := MarkerStart + MarkerEnd;
      var once := MergeAsWritten(existing, section, MarkerStart, MarkerEnd);
      var twice := MergeAsWritten(once, section, MarkerStart, MarkerEnd);
      twice != once && |twice| == |once| + |section|
  {
    MarkersLeadOnly();
    assert |MarkerEnd| < |MarkerStart|;
    MergeAsWrittenDuplicates(MarkerStart, MarkerEnd);
  }

  /**
   * `i` is the first start marker of `s`, and `j` the first end marker that
   * begins after that start marker ends.
   */
  ghost predicate FirstPair(s: string, open: string, close: string, i: int, j: int)
  {
    OccursAt(s, open, i) && (forall k :: 0 <= k < i ==> !OccursAt(s, open, k)) &&
    i + |open| <= j && OccursAt(s, close, j) && (forall k :: i + |open| <= k < j ==> !OccursAt(s, close, k))
  }

  /**
   * The merge with the end marker looked up after the start marker: the text
   * from the first start marker through the first end marker after it is
   * replaced by the section; without such a pair the section is put in front.
   */
  function Merge(existing: string, section: string, open: string, close: string): (r: string)
    requires |open| > 0 && |close| > 0
    ensures !HasMarkerPair(existing, open, close) ==> r == section + "\n\n" + existing
    ensures HasMarkerPair(existing, open, close) ==>
      exists i, j :: FirstPair(existing, open, close, i, j) && r == existing[..i] + section + existing[j + |close|..]
  {
    var startIdx := IndexOf(existing, open);
    var endIdx := if startIdx == -1 then -1 else IndexFrom(existing, close, startIdx + |open|);
    PairFound(existing, open, close);
    if endIdx != -1 then
      assert FirstPair(existing, open, close, startIdx, endIdx);
      existing[..startIdx] + section + existing[endIdx + |close|..]
    else
      section + "\n\n" + existing
  }

  /** The lookups of `Merge` find a pair exactly when the text has one. */
  lemma PairFound(existing: string, open: string, close: string)
    requires |open| > 0 && |close| > 0
    ensures var startIdx := IndexOf(existing, open);
      (startIdx != -1 && IndexFrom(existing, close, startIdx + |open|) != -1) <==> HasMarkerPair(existing, open, close)
  {
    var startIdx := IndexOf(existing, open);
    if HasMarkerPair(existing, open, close) {
      var i, j :| OccursAt(existing, open, i) && OccursAt(existing, close, j) && i + |open| <= j;
      assert startIdx != -1 && startIdx <= i;
      assert IndexFrom(existing, close, startIdx + |open|) != -1;
    }
  }

  /** An occurrence inside a slice is an occurrence in the whole text, shifted by the slice's start. */
  lemma OccursInSlice(s: string, p: string, a: nat, b: nat, i: int)
    requires a <= b <= |s| && OccursAt(s[a..b], p, i)
    ensures OccursAt(s, p, a + i)
  {
    assert a + i + |p| <= b;
    forall j | 0 <= j < |p|
      ensures s[a + i + j] == p[j]
    {
      assert s[a..b][i..i + |p|][j] == p[j];
    }
  }

  /** An occurrence past a prefix is an occurrence in the rest, shifted back by the prefix's length. */
  lemma OccursPastPrefix(before: string, t: string, p: string, i: int)
    requires |before| <= i && OccursAt(before + t, p, i)
    ensures OccursAt(t, p, i - |before|)
  {
    assert (before + t)[i..i + |p|] == t[i - |before|..i - |before| + |p|];
  }

  /** A slice of a text in which `p` begins nowhere holds no occurrence of `p`. */
  lemma NoneInSlice(s: string, p: string, a: nat, b: nat)
    requires |p| > 0 && a <= b <= |s|
    requires forall k :: a <= k < b ==> !OccursAt(s, p, k)
    ensures NoneFrom(s[a..b], p, 0)
  {
    forall i | 0 <= i && OccursAt(s[a..b], p, i)
      ensures false
    {
      OccursInSlice(s, p, a, b, i);
    }
  }

  /** `Merge` when its lookups find the pair `i`, `j`. */
  lemma MergeFound(existing: string, section: string, open: string, close: string, i: int, j: int)
    requires |open| > 0 && |close| > 0
    requires i == IndexOf(existing, open) != -1 && j == IndexFrom(existing, close, i + |open|) != -1
    ensures 0 <= i && i + |open| <= j && j + |close| <= |existing|
    ensures Merge(existing, section, open, close) == existing[..i] + section + existing[j + |close|..]
  {
    FoundBounds(existing, open, close, i, j);
  }

  /** Both lookups that succeed find their markers inside the text, the end marker after the start marker. */
  lemma FoundBounds(existing: string, open: string, close: string, i: int, j: int)
    requires i == IndexOf(existing, open) != -1 && j == IndexFrom(existing, close, i + |open|) != -1
    ensures 0 <= i && i + |open| <= j && j + |close| <= |existing|
  {
    assert OccursAt(existing, open, i) && OccursAt(existing, close, j);
  }

  /** When the first end marker already follows the first start marker, both merges agree. */
  lemma MergeAgreesWhenOrdered(existing: string, section: string, open: string, close: string)
    requires |open| > 0 && |close| > 0
    requires IndexOf(existing, open) != -1
    requires IndexOf(existing, close) >= IndexOf(existing, open) + |open|
    ensures Merge(existing, section, open, close) == MergeAsWritten(existing, section, open, close)
  {
    var startIdx := IndexOf(existing, open);
    var endIdx := IndexOf(existing, close);
    FirstFromBefore(existing, close, startIdx + |open|);
    MergeFound(existing, section, open, close, startIdx, endIdx);
  }

  /** Looking up from `k` finds the first occurrence when that lies at or after `k`. */
  lemma FirstFromBefore(s: string, p: string, k: nat)
    requires IndexOf(s, p) >= k
    ensures IndexFrom(s, p, k) == IndexOf(s, p)
  {
    var e := IndexFrom(s, p, 0);
    assert OccursAt(s, p, e);
  }

  /**
   * The first occurrence of `p` at or after `k` in `x + y` is where `y`
   * begins, when `y` starts with `p` and `x` holds no occurrence from `k` on.
   */
  lemma FirstOccurrenceAtJoin(x: string, y: string, p: string, k: nat)
    requires LeadOnly(p) && StartsWith(y, p) && k <= |x|
    requires NoneFrom(x, p, k)
    ensures IndexFrom(x + y, p, k) == |x|
  {
    var s := x + y;
    assert OccursAt(s, p, |x|) by { assert s[|x|..|x| + |p|] == y[..|p|]; }
    forall i | k <= i < |x|
      ensures !OccursAt(s, p, i)
    {
      if i + |p| <= |x| {
        assert !OccursAt(x, p, i);
        assert s[i..i + |p|] == x[i..i + |p|];
      } else {
        var d := |x| - i;
        assert s[|x|] == p[0];
        assert s[i + d] == s[|x|];
        assert p[d] != p[0];
      }
    }
  }

  /** Merging a section into a text that already holds it, after a marker-free prefix, changes nothing. */
  lemma MergeAgain(before: string, section: string, after: string, open: string, close: string)
    requires LeadOnly(open) && LeadOnly(close)
    requires SectionShape(section, open, close) && NoneFrom(before, open, 0)
    ensures Merge(before + section + after, section, open, close) == before + section + after
  {
    var s := before + section + after;
    var m := |section| - |close|;
    OpenAtSection(before, section, after, open, close);
    CloseAtSectionEnd(before, section, after, open, close);
    MergeFound(s, section, open, close, |before|, |before| + m);
    assert s[..|before|] == before;
    assert s[|before| + m + |close|..] == after;
  }

  /** Within `before` and the section without its end marker, no end marker starts after the start marker. */
  lemma NoCloseBeforeEnd(before: string, section: string, open: string, close: string)
    requires |close| > 0 && SectionShape(section, open, close)
    ensures NoneFrom(before + section[..|section| - |close|], close, |before| + |open|)
  {
    var m := |section| - |close|;
    var x := before + section[..m];
    forall i | |before| + |open| <= i
      ensures !OccursAt(x, close, i)
    {
      if OccursAt(x, close, i) {
        OccursPastPrefix(before, section[..m], close, i);
        assert section[..m] == section[0..m];
        OccursInSlice(section, close, 0, m, i - |before|);
      }
    }
  }

  lemma Regroup(a: string, b: string, c: string, d: string)
    ensures a + (b + c) + d == (a + b) + (c + d)
  {
  }

  /** The first start marker of `before + section + after` is where the section begins. */
  lemma OpenAtSection(before: string, section: string, after: string, open: string, close: string)
    requires LeadOnly(open)
    requires SectionShape(section, open, close) && NoneFrom(before, open, 0)
    ensures IndexOf(before + section + after, open) == |before|
  {
    assert before + section + after == before + (section + after);
    assert StartsWith(section + after, open) by {
      assert (section + after)[..|open|] == section[..|open|];
    }
    FirstOccurrenceAtJoin(before, section + after, open, 0);
  }

  /** After the section's start marker, the first end marker is the one that ends the section. */
  lemma CloseAtSectionEnd(before: string, section: string, after: string, open: string, close: string)
    requires LeadOnly(close)
    requires SectionShape(section, open, close)
    ensures IndexFrom(before + section + after, close, |before| + |open|) == |before| + |section| - |close|
  {
    var m := |section| - |close|;
    var x := before + section[..m];
    var y := close + after;
    assert section == section[..m] + close;
    Regroup(before, section[..m], close, after);
    assert before + section + after == x + y;
    NoCloseBeforeEnd(before, section, open, close);
    FirstOccurrenceAtJoin(x, y, close, |before| + |open|);
    assert |x| == |before| + |section| - |close|;
  }

  /** Merging the same generated section twice gives the text of merging it once. */
  lemma MergeIdempotent(existing: string, section: string, open: string, close: string)
    requires LeadOnly(open) && LeadOnly(close) && SectionShape(section, open, close)
    ensures var once := Merge(existing, section, open, close);
      Merge(once, section, open, close) == once
  {
    var once := Merge(existing, section, open, close);
    if HasMarkerPair(existing, open, close) {
      var i, j :| FirstPair(existing, open, close, i, j) && once == existing[..i] + section + existing[j + |close|..];
      NoneInSlice(existing, open, 0, i);
      assert existing[..i] == existing[0..i];
      MergeAgain(existing[..i], section, existing[j + |close|..], open, close);
    } else {
      assert section + "\n\n" + existing == "" + section + ("\n\n" + existing);
      MergeAgain("", section, "\n\n" + existing, open, close);
    }
  }

  /**
   * `generateClaudeMd`'s content with the corrected merge: the merge for an
   * existing file, else the section and a newline. The program merges with
   * `MergeAsWritten`; `ContentAsWrittenWhenOrdered` says where the two agree.
   */
  function ClaudeMdContent(existing: Option<string>, section: string): (r: string)
    ensures existing.None? ==> r == section + "\n"
    ensures existing.Some? ==> r == Merge(existing.value, section, MarkerStart, MarkerEnd)
  {
    match existing
    case None => section + "\n"
    case Some(e) => Merge(e, section, MarkerStart, MarkerEnd)
  }

  /**
   * `generateClaudeMd`: nothing is written when the workspace directory is
   * missing; otherwise the content written to CLAUDE.md, merged with the
   * corrected merge.
   */
  function GenerateClaudeMd(workspaceExists: bool, existing: Option<string>, section: string): (written: Option<string>)
    ensures !workspaceExists <==> written.None?
    ensures workspaceExists && existing.None? ==> written == Some(section + "\n")
    ensures workspaceExists && existing.Some? ==> written == Some(Merge(existing.value, section, MarkerStart, MarkerEnd))
  {
    if workspaceExists then Some(ClaudeMdContent(existing, section)) else None
  }

  /** Without a start marker the two merges agree: the section goes in front. */
  lemma MergeAgreesWithoutStart(existing: string, section: string, open: string, close: string)
    requires |open| > 0 && |close| > 0
    requires IndexOf(existing, open) == -1
    ensures Merge(existing, section, open, close) == MergeAsWritten(existing, section, open, close)
  {
    PairFound(existing, open, close);
  }

  /**
   * The content the program writes for an existing file is the corrected
   * content whenever the file has no start marker, or its first end marker
   * follows its first start marker.
   */
  lemma ContentAsWrittenWhenOrdered(existing: string, section: string)
    requires IndexOf(existing, MarkerStart) == -1 || IndexOf(existing, MarkerEnd) >= IndexOf(existing, MarkerStart) + |MarkerStart|
    ensures ClaudeMdContent(Some(existing), section) == MergeAsWritten(existing, section, MarkerStart, MarkerEnd)
  {
    if IndexOf(existing, MarkerStart) == -1 {
      MergeAgreesWithoutStart(existing, section, MarkerStart, MarkerEnd);
    } else {
      MergeAgreesWhenOrdered(existing, section, MarkerStart, MarkerEnd);
    }
  }

  /**
   * `getWorkspacePath`: the configured `agents.defaults.workspace` when it is
   * a string, with a leading `~` replaced by the home directory; otherwise
   * the directory `openclaw` in the home directory.
   */
  function WorkspacePath(config: Option<Json>, home: string, sep: string): (path: string)
    ensures config.Some? && ConfiguredWorkspace(config.value).Some? ==>
      var w := ConfiguredWorkspace(config.value).value;
      path == (if |w| > 0 && w[0] == '~' then home + w[1..] else w)
    ensures (config.None? || ConfiguredWorkspace(config.value).None?) ==> path == home + sep + "openclaw"
  {
    match config
    case Some(c) =>
      (match ConfiguredWorkspace(c)
       case Some(w) => if |w| > 0 && w[0] == '~' then home + w[1..] else w
       case None => home + sep + "openclaw")
    case None => home + sep + "openclaw"
  }

  /** `config?.agents?.defaults?.workspace` when it is a string. */
  function ConfiguredWorkspace(config: Json): Option<string>
  {
    match Get(config, "agents")
    case Some(agents) =>
      (match Get(agents, "defaults")
       case Some(defaults) =>
         (match Get(defaults, "workspace")
          case Some(JStr(w)) => Some(w)
          case _ => None)
       case None => None)
    case None => None
  }

  /**
   * Regenerating the file with the same section leaves it as it is, whether
   * the first run created the file or merged into an existing one.
   */
  lemma RegenerateStable(existing: Option<string>, section: string)
    requires SectionShape(section, MarkerStart, MarkerEnd)
    ensures var content := ClaudeMdContent(existing, section);
      ClaudeMdContent(Some(content), section) == content
  {
    MarkersLeadOnly();
    if existing.Some? {
      MergeIdempotent(existing.value, section, MarkerStart, MarkerEnd);
    } else {
      assert section + "\n" == "" + section + "\n";
      MergeAgain("", section, "\n", MarkerStart, MarkerEnd);
    }
  }

  // ---------------------------------------------------------------------
  // Building the section
  // ---------------------------------------------------------------------

  datatype ShellInfo = ShellInfo(name: string, syntaxGuide: string)

  datatype ToolInfo = ToolInfo(displayName: string, version: string, binPath: string)

  /** The fixed lines that open the section. */
  function HeaderLines(now: string, osInfo: string, shell: ShellInfo): seq<string>
  {
    [MarkerStart,
     "# 系统环境（自动生成，请勿编辑此区域）",
     "",
     "> 上次更新: " + now,
     "",
     "## 平台",
     "",
     "- " + osInfo,
     "",
     "## Shell 与命令语法",
     "",
     "- 默认 Shell: **" + shell.name + "**",
     "",
     shell.syntaxGuide,
     ""]
  }

  const ToolsHeading := "## 已安装工具"
  const SkillsHeading := "## 已就绪技能"
  const TableHeader := "| 工具 | 版本 | 路径 |"
  const TableRule := "|------|------|------|"

  function ToolRow(t: ToolInfo): string
  {
    "| " + t.displayName + " | " + t.version + " | " + t.binPath + " |"
  }

  function ToolRows(tools: seq<ToolInfo>): (rows: seq<string>)
    ensures |rows| == |tools|
    ensures forall i :: 0 <= i < |tools| ==> rows[i] == ToolRow(tools[i])
  {
    seq(|tools|, i requires 0 <= i < |tools| => ToolRow(tools[i]))
  }

  /** The tools table, present only when some tool was found. */
  function ToolsPart(tools: seq<ToolInfo>): seq<string>
  {
    if |tools| > 0 then [ToolsHeading, "", TableHeader, TableRule] + ToolRows(tools) + [""]
    else []
  }

  function SkillLine(name: string): string
  {
    "- **" + name + "**"
  }

  /** The skills list, present only when some skill is ready. */
  function SkillsPart(names: seq<string>): seq<string>
  {
    if |names| > 0 then [SkillsHeading, ""] + SkillLines(names) + [""]
    else []
  }

  /** The lines of the section, in order. */
  function SectionLines(now: string, osInfo: string, shell: ShellInfo, tools: seq<ToolInfo>, names: seq<string>): seq<string>
  {
    HeaderLines(now, osInfo, shell) + ToolsPart(tools) + SkillsPart(names) + [MarkerEnd]
  }

  /**
   * The layout of the section: fifteen header lines opened by the start
   * marker; the tool table (heading, blank, header, rule, one row per tool,
   * blank) only when some tool was found; the skills list (heading, blank,
   * one line per skill, blank) only when some skill is listed; the end marker.
   */
  lemma SectionLayout(now: string, osInfo: string, shell: ShellInfo, tools: seq<ToolInfo>, names: seq<string>)
    ensures var lines := SectionLines(now, osInfo, shell, tools, names);
      var toolCount := if |tools| > 0 then |tools| + 5 else 0;
      var skillCount := if |names| > 0 then |names| + 3 else 0;
      |lines| == 16 + toolCount + skillCount &&
      lines[0] == MarkerStart && lines[|lines| - 1] == MarkerEnd &&
      (|tools| > 0 ==> lines[15] == ToolsHeading && forall i :: 0 <= i < |tools| ==> lines[19 + i] == ToolRow(tools[i])) &&
      (|names| > 0 ==>
         lines[15 + toolCount] == SkillsHeading &&
         forall i :: 0 <= i < |names| ==> lines[17 + toolCount + i] == SkillLine(names[i]))
  {
    var header := HeaderLines(now, osInfo, shell);
    HeaderLayout(now, osInfo, shell);
    ToolsPartLayout(tools);
    SkillsPartLayout(names);
    PartsAt(header, ToolsPart(tools), SkillsPart(names), MarkerEnd);
  }

  /** The header is fifteen lines, opened by the start marker. */
  lemma HeaderLayout(now: string, osInfo: string, shell: ShellInfo)
    ensures |HeaderLines(now, osInfo, shell)| == 15 && HeaderLines(now, osInfo, shell)[0] == MarkerStart
  {
  }

  /** The tools table: heading, blank, header, rule, one row per tool, blank; nothing without tools. */
  lemma ToolsPartLayout(tools: seq<ToolInfo>)
    ensures |ToolsPart(tools)| == if |tools| > 0 then |tools| + 5 else 0
    ensures |tools| > 0 ==> (ToolsPart(tools)[0] == ToolsHeading &&
      forall i :: 0 <= i < |tools| ==> ToolsPart(tools)[4 + i] == ToolRow(tools[i]))
  {
  }

  /** The skills list: heading, blank, one line per skill, blank; nothing without skills. */
  lemma SkillsPartLayout(names: seq<string>)
    ensures |SkillsPart(names)| == if |names| > 0 then |names| + 3 else 0
    ensures |names| > 0 ==> (SkillsPart(names)[0] == SkillsHeading &&
      forall i :: 0 <= i < |names| ==> SkillsPart(names)[2 + i] == SkillLine(names[i]))
  {
  }

  /** Where the parts of `h + t + k + [e]` sit. */
  lemma PartsAt(h: seq<string>, t: seq<string>, k: seq<string>, e: string)
    ensures var all := h + t + k + [e];
      |all| == |h| + |t| + |k| + 1 && all[|all| - 1] == e &&
      (forall i :: 0 <= i < |h| ==> all[i] == h[i]) &&
      (forall i :: 0 <= i < |t| ==> all[|h| + i] == t[i]) &&
      (forall i :: 0 <= i < |k| ==> all[|h| + |t| + i] == k[i])
  {
  }

  /** `status === 'ready'`. */
  function ReadySkills(skills: seq<SkillInfo>): seq<SkillInfo>
  {
    if skills == [] then []
    else (if skills[0].status == Ready then [skills[0]] else []) + ReadySkills(skills[1..])
  }

  /** The ready skills are exactly the input's skills whose status is ready. */
  lemma {:induction false} ReadySkillsMembers(skills: seq<SkillInfo>)
    ensures forall s :: s in ReadySkills(skills) <==> s in skills && s.status == Ready
  {
    if skills != [] {
      ReadySkillsMembers(skills[1..]);
      assert skills == [skills[0]] + skills[1..];
    }
  }

  /** The lower-cased names of the skills in `xs`: the `seen` set after visiting them. */
  function Keys(xs: seq<SkillInfo>): (keys: set<string>)
    ensures forall i :: 0 <= i < |xs| ==> Lower(xs[i].name) in keys
  {
    if xs == [] then {}
    else
      var keys := Keys(xs[..|xs| - 1]) + {Lower(xs[|xs| - 1].name)};
      assert forall i :: 0 <= i < |xs| - 1 ==> xs[..|xs| - 1][i] == xs[i];
      keys
  }

  /** A key of the first `n` skills is the lower-cased name of one of them. */
  lemma {:induction false} KeyHasSkill(xs: seq<SkillInfo>, n: nat, k: string)
    requires n <= |xs| && k in Keys(xs[..n])
    ensures exists i :: 0 <= i < n && Lower(xs[i].name) == k
  {
    assert xs[..n][..n - 1] == xs[..n - 1];
    if k != Lower(xs[n - 1].name) {
      KeyHasSkill(xs, n - 1, k);
    }
  }

  /**
   * The skills of `xs` that are listed, visiting them in order: a skill is
   * listed unless an earlier one has the same lower-cased name.
   */
  function Listed(xs: seq<SkillInfo>): (r: seq<SkillInfo>)
    ensures |r| <= |xs|
    ensures |xs| > 0 ==> |r| > 0 && r[0] == xs[0]
  {
    if xs == [] then []
    else
      var init := xs[..|xs| - 1];
      var x := xs[|xs| - 1];
      Listed(init) + (if Lower(x.name) in Keys(init) then [] else [x])
  }

  /** Every listed skill comes from the input, and its name is among the input's names. */
  lemma {:induction false} ListedFromInput(xs: seq<SkillInfo>)
    ensures forall x :: x in Listed(xs) ==> x in xs && Lower(x.name) in Keys(xs)
  {
    if xs != [] {
      var init := xs[..|xs| - 1];
      ListedFromInput(init);
      assert forall x :: x in init ==> x in xs;
    }
  }

  /** No two skills of `r` share a lower-cased name. */
  predicate DistinctNames(r: seq<SkillInfo>)
  {
    forall k, l :: 0 <= k < l < |r| ==> Lower(r[k].name) != Lower(r[l].name)
  }

  /** No two listed skills share a lower-cased name. */
  lemma {:induction false} ListedDistinct(xs: seq<SkillInfo>)
    ensures DistinctNames(Listed(xs))
  {
    if xs != [] {
      var init := xs[..|xs| - 1];
      var x := xs[|xs| - 1];
      ListedDistinct(init);
      ListedFromInput(init);
      var prev := Listed(init);
      if Lower(x.name) !in Keys(init) {
        var r := prev + [x];
        forall k, l | 0 <= k < l < |r|
          ensures Lower(r[k].name) != Lower(r[l].name)
        {
          assert r[k] == prev[k];
          if l == |prev| {
            assert prev[k] in prev;
          } else {
            assert r[l] == prev[l];
          }
        }
      }
    }
  }

  /** The first skill carrying each lower-cased name is listed. */
  lemma ListedKeepsFirst(xs: seq<SkillInfo>)
    ensures forall i ::
      (0 <= i < |xs| && forall j :: 0 <= j < i ==> Lower(xs[j].name) != Lower(xs[i].name))
      ==> xs[i] in Listed(xs)
  {
    forall i | 0 <= i < |xs| && forall j :: 0 <= j < i ==> Lower(xs[j].name) != Lower(xs[i].name)
      ensures xs[i] in Listed(xs)
    {
      FirstIsListed(xs, i);
    }
  }

  lemma {:induction false} FirstIsListed(xs: seq<SkillInfo>, i: nat)
    requires i < |xs| && forall j :: 0 <= j < i ==> Lower(xs[j].name) != Lower(xs[i].name)
    ensures xs[i] in Listed(xs)
    decreases |xs|
  {
    var init := xs[..|xs| - 1];
    if i == |xs| - 1 {
      if Lower(xs[i].name) in Keys(init) {
        KeyHasSkill(xs, i, Lower(xs[i].name));
        assert false;
      }
    } else {
      assert init[i] == xs[i];
      FirstIsListed(init, i);
    }
  }

  /** The names listed in the skills part: ready skills, one per lower-cased name, first occurrence kept. */
  function ListedNames(skills: seq<SkillInfo>): seq<string>
  {
    NamesOf(Listed(ReadySkills(skills)))
  }

  /** The lines listing the given skill names. */
  function SkillLines(names: seq<string>): (lines: seq<string>)
    ensures |lines| == |names| && forall i :: 0 <= i < |names| ==> lines[i] == SkillLine(names[i])
  {
    seq(|names|, i requires 0 <= i < |names| => SkillLine(names[i]))
  }

  function NamesOf(xs: seq<SkillInfo>): seq<string>
  {
    seq(|xs|, i requires 0 <= i < |xs| => xs[i].name)
  }

  lemma ListedSnoc(xs: seq<SkillInfo>, x: SkillInfo)
    ensures SkillLines(NamesOf(xs + [x])) == SkillLines(NamesOf(xs)) + [SkillLine(x.name)]
  {
    assert NamesOf(xs + [x]) == NamesOf(xs) + [x.name];
  }

  /** One more skill of a prefix adds its key, and is listed exactly when its key is new. */
  lemma PrefixStep(xs: seq<SkillInfo>, i: nat)
    requires i < |xs|
    ensures Keys(xs[..i + 1]) == Keys(xs[..i]) + {Lower(xs[i].name)}
    ensures Listed(xs[..i + 1]) == Listed(xs[..i]) + (if Lower(xs[i].name) in Keys(xs[..i]) then [] else [xs[i]])
  {
    assert xs[..i + 1][..i] == xs[..i];
  }

  /** The lines of a prefix one skill longer: that skill's line is added exactly when its key is new. */
  lemma ListedLinesStep(xs: seq<SkillInfo>, i: nat)
    requires i < |xs|
    ensures Keys(xs[..i + 1]) == Keys(xs[..i]) + {Lower(xs[i].name)}
    ensures SkillLines(NamesOf(Listed(xs[..i + 1]))) ==
      SkillLines(NamesOf(Listed(xs[..i]))) + (if Lower(xs[i].name) in Keys(xs[..i]) then [] else [SkillLine(xs[i].name)])
  {
    PrefixStep(xs, i);
    if Lower(xs[i].name) !in Keys(xs[..i]) {
      ListedSnoc(Listed(xs[..i]), xs[i]);
    } else {
      assert Listed(xs[..i + 1]) == Listed(xs[..i]);
    }
  }

  /**
   * The skills loop of `buildAutoSection`: the ready skills in order, each
   * listed unless a skill with the same lower-cased name was listed before.
   */
  method ReadySkillLines(skills: seq<SkillInfo>) returns (skillLines: seq<string>)
    ensures skillLines == SkillLines(ListedNames(skills))
  {
    var ready := ReadySkills(skills);
    var seen: set<string> := {};
    skillLines := [];
    var i := 0;
    while i < |ready|
      invariant 0 <= i <= |ready|
      invariant seen == Keys(ready[..i])
      invariant skillLines == SkillLines(NamesOf(Listed(ready[..i])))
    {
      var key := Lower(ready[i].name);
      ListedLinesStep(ready, i);
      if key !in seen {
        skillLines := skillLines + [SkillLine(ready[i].name)];
      }
      seen := seen + {key};
      i := i + 1;
    }
    assert ready[..i] == ready;
  }

  /** The tool rows of the table, one per tool found. */
  method ToolTableRows(tools: seq<ToolInfo>) returns (rows: seq<string>)
    ensures rows == ToolRows(tools)
  {
    rows := [];
    var t := 0;
    while t < |tools|
      invariant 0 <= t <= |tools|
      invariant rows == ToolRows(tools[..t])
    {
      rows := rows + [ToolRow(tools[t])];
      t := t + 1;
    }
    assert tools[..|tools|] == tools;
  }

  /**
   * `buildAutoSection`: the header lines, the tool table when some tool was
   * found, the skills list when some skill is ready, the end marker; the
   * lines joined with newlines.
   */
  method BuildAutoSection(now: string, osInfo: string, shell: ShellInfo, tools: seq<ToolInfo>, skills: seq<SkillInfo>)
    returns (section: string)
    ensures section == Join(SectionLines(now, osInfo, shell, tools, ListedNames(skills)), "\n")
    ensures StartsWith(section, MarkerStart) && EndsWith(section, MarkerEnd)
  {
    var skillLines := ReadySkillLines(skills);
    var lines := HeaderLines(now, osInfo, shell);
    var toolLines: seq<string> := [];
    if |tools| > 0 {
      var rows := ToolTableRows(tools);
      toolLines := [ToolsHeading, "", TableHeader, TableRule] + rows + [""];
    }
    var skillPart: seq<string> := [];
    if |skillLines| > 0 {
      skillPart := [SkillsHeading, ""] + skillLines + [""];
    }
    lines := lines + toolLines + skillPart + [MarkerEnd];
    section := Join(lines, "\n");
    JoinEnds(lines, "\n");
  }

  // ---------------------------------------------------------------------
  // Operating system name
  // ---------------------------------------------------------------------

  /** `parseInt(release.split('.')[2] || '0') >= 22000`: a build number from 22000 on is Windows 11. */
  function WindowsName(release: string): string
  {
    var parts := Split(release, '.');
    var third := if |parts| > 2 && parts[2] != "" then parts[2] else "0";
    var build := ParseInt(third);
    if build.Some? && build.value >= 22000 then "Windows 11" else "Windows 10"
  }

  /** For a release `major.minor.build` the name is decided by the build number against 22000. */
  lemma WindowsBuildThreshold(major: string, minor: string, build: string)
    requires '.' !in major && '.' !in minor
    requires build != [] && AllDigits(build)
    ensures WindowsName(major + "." + minor + "." + build) ==
      (if DigitsValue(build) >= 22000 then "Windows 11" else "Windows 10")
  {
    assert '.' !in build;
    SplitWhole(build, '.');
    SplitAfterPart(minor, build, '.');
    assert major + "." + minor + "." + build == major + ['.'] + (minor + ['.'] + build);
    SplitAfterPart(major, minor + ['.'] + build, '.');
    ParseIntDigits(build);
  }

  /**
   * `getOsPrettyName`: `swVers` is the trimmed output of `sw_vers`, and
   * `prettyName` the quoted value of the PRETTY_NAME line, when available.
   */
  function OsPrettyName(platform: string, release: string, arch: string,
                        swVers: Option<string>, prettyName: Option<string>): (r: string)
    ensures platform == "win32" ==> StartsWith(r, WindowsName(release)) && EndsWith(r, ") " + release)
    ensures platform == "darwin" ==> StartsWith(r, "macOS ") && EndsWith(r, "(" + arch + ")")
    ensures platform == "darwin" && swVers.Some? ==> r == "macOS " + swVers.value + " (" + arch + ")"
    ensures platform != "win32" && platform != "darwin" ==>
      r == (if prettyName.Some? then prettyName.value else "Linux") + " (" + arch + ")"
  {
    if platform == "win32" then
      var name := WindowsName(release);
      var tail := ") " + release;
      var s := name + (" (" + platform + " " + arch) + tail;
      assert s[..|name|] == name;
      assert s[|s| - |tail|..] == tail;
      s
    else if platform == "darwin" then
      var tail := "(" + arch + ")";
      var s := if swVers.Some? then "macOS " + swVers.value + " " + tail else "macOS " + tail;
      assert s[..6] == "macOS ";
      assert s[|s| - |tail|..] == tail;
      s
    else
      match prettyName
      case Some(p) => p + " (" + arch + ")"
      case None => "Linux (" + arch + ")"
  }

  // ---------------------------------------------------------------------
  // Tool detection
  // ---------------------------------------------------------------------

  /** One tool to look for; `platforms` absent means every platform. */
  datatype ToolCheckDef = ToolCheckDef(name: string, displayName: string, versionCmd: Option<string>, platforms: Option<seq<string>>)

  const ToolsToCheck: seq<ToolCheckDef> := [
    ToolCheckDef("python", "Python", None, Some(["win32"])),
    ToolCheckDef("python3", "Python", None, Some(["darwin", "linux"])),
    ToolCheckDef("node", "Node.js", None, None),
    ToolCheckDef("npm", "npm", None, None),
    ToolCheckDef("git", "Git", None, None),
    ToolCheckDef("pip", "pip", None, Some(["win32"])),
    ToolCheckDef("pip3", "pip", None, Some(["darwin", "linux"])),
    ToolCheckDef("gh", "GitHub CLI", None, None),
    ToolCheckDef("docker", "Docker", None, None),
    ToolCheckDef("curl", "curl", None, None),
    ToolCheckDef("ffmpeg", "FFmpeg", Some("ffmpeg -version"), None)
  ]

  /** A cached detection: whether the tool exists, and its version and path when it does. */
  datatype CacheEntry = CacheEntry(present: bool, version: string, binPath: string)

  const Absent := CacheEntry(false, "", "")

  /** `s.split(/\r?\n/)[0]`. */
  function FirstLine(s: string): (r: string)
    ensures StartsWith(s, r) && '\n' !in r
  {
    var k := IndexOf(s, "\n");
    if k == -1 then
      assert '\n' !in s by {
        if '\n' in s {
          var i :| 0 <= i < |s| && s[i] == '\n';
          assert OccursAt(s, "\n", i);
        }
      }
      assert s[..|s|] == s;
      s
    else
      var e := if k > 0 && s[k - 1] == '\r' then k - 1 else k;
      assert '\n' !in s[..e] by {
        if '\n' in s[..e] {
          var i :| 0 <= i < e && s[..e][i] == '\n';
          assert OccursAt(s, "\n", i);
        }
      }
      s[..e]
  }

  predicate IsVersionChar(c: char)
  {
    IsDigit(c) || c == '.'
  }

  /** The end of the run of characters satisfying digits-or-dots (or only digits) starting at `i`. */
  function RunEnd(s: string, i: nat, dots: bool): (e: nat)
    requires i <= |s|
    decreases |s| - i
    ensures i <= e <= |s|
    ensures forall j :: i <= j < e ==> IsDigit(s[j]) || (dots && s[j] == '.')
    ensures e < |s| ==> !(IsDigit(s[e]) || (dots && s[e] == '.'))
  {
    if i < |s| && (IsDigit(s[i]) || (dots && s[i] == '.')) then RunEnd(s, i + 1, dots) else i
  }

  /** `/(\d+\.\d+[\.\d]*)/` can match starting at `i`: digits, a dot, a digit. */
  predicate VersionAt(s: string, i: nat)
  {
    i < |s| && IsDigit(s[i]) &&
    var k := RunEnd(s, i, false);
    k + 1 < |s| && s[k] == '.' && IsDigit(s[k + 1])
  }

  /**
   * The first match of `/(\d+\.\d+[\.\d]*)/` at or after `i`: it starts at
   * the first position where the pattern can match, and extends over every
   * following digit and dot.
   */
  function FindVersion(s: string, i: nat): (r: Option<string>)
    requires i <= |s|
    decreases |s| - i
    ensures r.Some? ==> exists p :: i <= p && VersionAt(s, p) && r.value == s[p..RunEnd(s, p, true)] &&
                                    forall q :: i <= q < p ==> !VersionAt(s, q)
    ensures r.None? ==> forall q :: i <= q ==> !VersionAt(s, q)
  {
    if i == |s| then None
    else if VersionAt(s, i) then Some(s[i..RunEnd(s, i, true)])
    else FindVersion(s, i + 1)
  }

  /** A found version is digits and dots only, begins with a digit and holds a dot. */
  lemma VersionShape(s: string)
    requires FindVersion(s, 0).Some?
    ensures var v := FindVersion(s, 0).value;
      |v| >= 3 && IsDigit(v[0]) && '.' in v && forall j :: 0 <= j < |v| ==> IsVersionChar(v[j])
  {
    var p :| 0 <= p && VersionAt(s, p) && FindVersion(s, 0).value == s[p..RunEnd(s, p, true)];
    MatchShape(s, p);
  }

  /** The text matched from a position where the pattern can match has the shape of a version. */
  lemma MatchShape(s: string, p: nat)
    requires VersionAt(s, p)
    ensures var v := s[p..RunEnd(s, p, true)];
      |v| >= 3 && IsDigit(v[0]) && '.' in v && forall j :: 0 <= j < |v| ==> IsVersionChar(v[j])
  {
    var k := RunEnd(s, p, false);
    var e := RunEnd(s, p, true);
    DigitRunWithinVersionRun(s, p, k);
    assert s[p..e][k - p] == '.';
  }

  /** The run of digits and dots from `p` reaches past a dot and the digit after it. */
  lemma {:induction false} DigitRunWithinVersionRun(s: string, p: nat, k: nat)
    requires p <= |s| && k == RunEnd(s, p, false) && k + 1 < |s| && s[k] == '.' && IsDigit(s[k + 1])
    ensures RunEnd(s, p, true) > k + 1
    decreases |s| - p
  {
    if p < k {
      DigitRunWithinVersionRun(s, p + 1, k);
    }
  }

  /** The version reported for a command's output: the matched number, else the whole first line. */
  function VersionOf(raw: string): string
  {
    var firstLine := FirstLine(Trim(raw));
    FindVersion(firstLine, 0).GetOr(firstLine)
  }

  /** The command line that locates a tool. */
  function WhichCommand(platform: string, name: string): string
  {
    (if platform == "win32" then "where " else "which ") + name
  }

  /** The command line that prints a tool's version. */
  function VersionCommand(def: ToolCheckDef): string
  {
    if Filled(def.versionCmd) then def.versionCmd.value else def.name + " --version"
  }

  /**
   * What a fresh detection finds: nothing for a tool restricted to other
   * platforms or one the locator does not find; otherwise the first line of
   * the locator's output as path, and the version when that command succeeds.
   */
  function Probe(def: ToolCheckDef, platform: string, run: string -> Option<string>): (c: CacheEntry)
    ensures def.platforms.Some? && platform !in def.platforms.value ==> c == Absent
    ensures c.present <==> (def.platforms.None? || platform in def.platforms.value) && run(WhichCommand(platform, def.name)).Some?
  {
    if def.platforms.Some? && platform !in def.platforms.value then Absent
    else match run(WhichCommand(platform, def.name))
      case None => Absent
      case Some(out) =>
        var version := match run(VersionCommand(def)) case None => "" case Some(raw) => VersionOf(raw);
        CacheEntry(true, version, FirstLine(Trim(out)))
  }

  /** The tool record for a cache entry. */
  function InfoOf(def: ToolCheckDef, c: CacheEntry): Option<ToolInfo>
  {
    if c.present then Some(ToolInfo(def.displayName, c.version, c.binPath)) else None
  }

  /** Every entry of `cache` for a tool of `defs` is what a fresh detection of that tool would find. */
  predicate CacheConsistent(cache: map<string, CacheEntry>, defs: seq<ToolCheckDef>, platform: string, run: string -> Option<string>)
  {
    forall d :: d in defs && d.name in cache ==> cache[d.name] == Probe(d, platform, run)
  }

  /** Caching a fresh detection of one tool keeps a consistent cache consistent when no two tools share a name. */
  lemma ProbeKeepsConsistent(cache: map<string, CacheEntry>, defs: seq<ToolCheckDef>, platform: string, run: string -> Option<string>, i: nat)
    requires forall a, b :: 0 <= a < b < |defs| ==> defs[a].name != defs[b].name
    requires i < |defs| && CacheConsistent(cache, defs, platform, run)
    ensures CacheConsistent(cache[defs[i].name := Probe(defs[i], platform, run)], defs, platform, run)
  {
    var next := cache[defs[i].name := Probe(defs[i], platform, run)];
    forall d | d in defs && d.name in next
      ensures next[d.name] == Probe(d, platform, run)
    {
      if d.name == defs[i].name {
        var a :| 0 <= a < |defs| && defs[a] == d;
        assert a == i;
      }
    }
  }

  /** The tools found among one more definition: the new one's record added when it is found. */
  lemma FoundStep(defs: seq<ToolCheckDef>, platform: string, run: string -> Option<string>, i: nat)
    requires i < |defs|
    ensures var t := InfoOf(defs[i], Probe(defs[i], platform, run));
      Found(defs[..i + 1], platform, run) == Found(defs[..i], platform, run) + (if t.Some? then [t.value] else [])
  {
    assert defs[..i + 1][..i] == defs[..i];
  }

  /** The detection memo, kept for the lifetime of the process and keyed by tool name. */
  class ToolDetector {
    var toolCache: map<string, CacheEntry>

    constructor ()
      ensures toolCache == map[]
    {
      toolCache := map[];
    }

    /** Every cached entry is what a fresh detection of that tool would find. */
    predicate Consistent(defs: seq<ToolCheckDef>, platform: string, run: string -> Option<string>)
      reads this
    {
      CacheConsistent(toolCache, defs, platform, run)
    }

    /** `detectTool`: a cached entry answers without running anything; otherwise the tool is probed and cached. */
    method DetectTool(def: ToolCheckDef, platform: string, run: string -> Option<string>) returns (t: Option<ToolInfo>)
      modifies this
      ensures def.name in old(toolCache) ==> t == InfoOf(def, old(toolCache)[def.name]) && toolCache == old(toolCache)
      ensures def.name !in old(toolCache) ==>
        t == InfoOf(def, Probe(def, platform, run)) && toolCache == old(toolCache)[def.name := Probe(def, platform, run)]
    {
      if def.name in toolCache {
        var cached := toolCache[def.name];
        return InfoOf(def, cached);
      }
      if def.platforms.Some? && platform !in def.platforms.value {
        toolCache := toolCache[def.name := Absent];
        return None;
      }
      var located := run(WhichCommand(platform, def.name));
      if located.None? {
        toolCache := toolCache[def.name := Absent];
        return None;
      }
      var binPath := FirstLine(Trim(located.value));
      var version := "";
      var raw := run(VersionCommand(def));
      if raw.Some? {
        var firstLine := FirstLine(Trim(raw.value));
        var verMatch := FindVersion(firstLine, 0);
        version := if verMatch.Some? then verMatch.value else firstLine;
      }
      toolCache := toolCache[def.name := CacheEntry(true, version, binPath)];
      t := Some(ToolInfo(def.displayName, version, binPath));
    }

    /** The loop of `buildAutoSection` over the tool table: the tools found, in table order. */
    method DetectAll(defs: seq<ToolCheckDef>, platform: string, run: string -> Option<string>) returns (tools: seq<ToolInfo>)
      requires forall i, j :: 0 <= i < j < |defs| ==> defs[i].name != defs[j].name
      requires Consistent(defs, platform, run)
      modifies this
      ensures Consistent(defs, platform, run)
      ensures tools == Found(defs, platform, run)
    {
      tools := [];
      var i := 0;
      while i < |defs|
        invariant 0 <= i <= |defs|
        invariant Consistent(defs, platform, run)
        invariant tools == Found(defs[..i], platform, run)
      {
        FoundStep(defs, platform, run, i);
        ProbeKeepsConsistent(toolCache, defs, platform, run, i);
        var t := DetectTool(defs[i], platform, run);
        assert t == InfoOf(defs[i], Probe(defs[i], platform, run));
        if t.Some? {
          tools := tools + [t.value];
        }
        i := i + 1;
      }
      assert defs[..|defs|] == defs;
    }
  }

  /** The tools of `defs` that a fresh detection finds, in order. */
  function Found(defs: seq<ToolCheckDef>, platform: string, run: string -> Option<string>): seq<ToolInfo>
  {
    if defs == [] then []
    else
      var t := InfoOf(defs[|defs| - 1], Probe(defs[|defs| - 1], platform, run));
      Found(defs[..|defs| - 1], platform, run) + (if t.Some? then [t.value] else [])
  }
}
