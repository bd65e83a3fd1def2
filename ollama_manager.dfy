/**
 * The decision procedures of the local-model manager: the line splitting and
 * settling of an Ollama `/api/pull` response stream, the ordered fallback
 * over download mirrors when installing Ollama, the rename-with-retry used
 * after a download, the configuration upsert that selects a local model,
 * and the GPU line picked out of `wmic` CSV output.
 *
 * HTTP, processes and the filesystem are inputs: JSON parsing is a function
 * parameter, a download or rename attempt is a function from the attempt to
 * its error.
 */
module OllamaManager {
  import opened Wrappers
  import opened Text
  import opened Json
  import opened Seqs

  // ---------------------------------------------------------------------------
  // Pull stream (`downloadModel`)
  // ---------------------------------------------------------------------------

  /** How a pull ends. */
  datatype Pulled =
    | Ready
    | Failed(error: Json)          // a line carrying a truthy `error`
    | Rejected(message: string)    // HTTP status 400 or above
    | Broken(message: string)      // the request or the response stream failed

  /**
   * What one line of the NDJSON stream decides: `Ready` for `status: "success"`,
   * `Failed` for a truthy `error`, nothing for a blank, unparsable or progress line.
   */
  function LineVerdict(line: string, parse: string -> Option<Json>): (v: Option<Pulled>)
    ensures v.Some? ==> Trim(line) != "" && parse(line).Some?
    ensures v.Some? ==> v.value == Ready || (v.value.Failed? && HasTruthy(parse(line).value, "error"))
  {
    if Trim(line) == "" then None
    else
      match parse(line)
      case None => None
      case Some(data) =>
        if Get(data, "status") == Some(JStr("success")) then Some(Ready)
        else if HasTruthy(data, "error") then Some(Failed(Get(data, "error").value))
        else None
  }

  /** `LineVerdict` for a fixed parser. */
  function VerdictOf(parse: string -> Option<Json>): string -> Option<Pulled>
  {
    line => LineVerdict(line, parse)
  }

  /** The verdict of the first line that settles the pull, if any. */
  function FirstVerdict(lines: seq<string>, parse: string -> Option<Json>): Option<Pulled>
  {
    FirstSome(lines, VerdictOf(parse))
  }

  /** The lines each followed by `d`: the text they were cut from. */
  function Terminated(lines: seq<string>, d: char): string
  {
    if |lines| == 0 then "" else lines[0] + [d] + Terminated(lines[1..], d)
  }

  lemma {:induction false} TerminatedAppend(a: seq<string>, b: seq<string>, d: char)
    ensures Terminated(a + b, d) == Terminated(a, d) + Terminated(b, d)
  {
    if |a| > 0 {
      TerminatedAppend(a[1..], b, d);
      assert (a + b)[1..] == a[1..] + b;
    } else {
      assert a + b == b;
    }
  }

  /** The complete lines, each with its newline, then the unterminated tail, give the text back. */
  lemma {:induction false} TerminatedThenTail(parts: seq<string>, d: char)
    requires |parts| >= 1
    ensures Terminated(parts[..|parts| - 1], d) + parts[|parts| - 1] == Join(parts, [d])
  {
    if |parts| > 1 {
      TerminatedThenTail(parts[1..], d);
      assert parts[1..][..|parts[1..]| - 1] == parts[..|parts| - 1][1..];
    }
  }

  /** Cutting the buffer plus a chunk into lines and a tail loses and adds nothing. */
  lemma ChunkAccounted(processed: seq<string>, buffer: string, chunk: string, parts: seq<string>)
    requires parts == Split(buffer + chunk, '\n')
    ensures Terminated(processed + parts[..|parts| - 1], '\n') + parts[|parts| - 1] ==
      Terminated(processed, '\n') + buffer + chunk
  {
    var lines, tail := parts[..|parts| - 1], parts[|parts| - 1];
    TerminatedThenTail(parts, '\n');
    TerminatedAppend(processed, lines, '\n');
    calc {
      Terminated(processed + lines, '\n') + tail;
      Terminated(processed, '\n') + Terminated(lines, '\n') + tail;
      Terminated(processed, '\n') + (Terminated(lines, '\n') + tail);
      Terminated(processed, '\n') + Join(parts, "\n");
      Terminated(processed, '\n') + (buffer + chunk);
    }
  }

  /** Cutting at every newline leaves complete lines and a tail without a newline. */
  lemma CompleteLines(processed: seq<string>, parts: seq<string>)
    requires forall l :: l in processed ==> '\n' !in l
    requires |parts| >= 1 && forall i :: 0 <= i < |parts| ==> '\n' !in parts[i]
    ensures forall l :: l in processed + parts[..|parts| - 1] ==> '\n' !in l
    ensures '\n' !in parts[|parts| - 1]
  {
    forall l | l in processed + parts[..|parts| - 1]
      ensures '\n' !in l
    {
      if l !in processed {
        var i :| 0 <= i < |parts| - 1 && parts[..|parts| - 1][i] == l;
        assert parts[i] == l;
      }
    }
  }

  /** A line that settles right after unsettling lines gives the verdict of all the lines. */
  lemma SettlesAt(lines: seq<string>, i: nat, parse: string -> Option<Json>)
    requires i < |lines| && FirstVerdict(lines[..i], parse).None? && LineVerdict(lines[i], parse).Some?
    ensures FirstVerdict(lines, parse) == LineVerdict(lines[i], parse)
  {
    assert lines == lines[..i] + lines[i..];
    FirstSomeAppend(lines[..i], lines[i..], VerdictOf(parse));
    assert lines[i..][0] == lines[i];
  }

  /** A line that does not settle keeps the prefix unsettled. */
  lemma NotSettledThrough(lines: seq<string>, i: nat, parse: string -> Option<Json>)
    requires i < |lines| && FirstVerdict(lines[..i], parse).None?
    requires Trim(lines[i]) == "" || LineVerdict(lines[i], parse).None?
    ensures FirstVerdict(lines[..i + 1], parse).None?
  {
    assert lines[..i + 1] == lines[..i] + [lines[i]];
    FirstSomeAppend(lines[..i], [lines[i]], VerdictOf(parse));
  }

  /**
   * The state of one pull: the HTTP status, the error body collected for a
   * failed status, the unterminated tail of the stream, and the verdict once
   * settled. `received` is the text taken in while unsettled and `processed`
   * the complete lines cut from it.
   */
  class PullStream {
    const status: int
    const parse: string -> Option<Json>
    var body: string
    var buffer: string
    var settled: Option<Pulled>
    ghost var received: string
    ghost var processed: seq<string>

    /**
     * Every byte taken in is in a processed line or in the buffer; the
     * processed lines are complete lines and the buffer the only partial
     * one; nothing unsettled has been seen.
     */
    ghost predicate Valid()
      reads this
    {
      Terminated(processed, '\n') + buffer == received &&
      (forall l :: l in processed ==> '\n' !in l) && '\n' !in buffer &&
      (settled.None? ==> FirstVerdict(processed, parse).None?)
    }

    constructor(status: int, parse: string -> Option<Json>)
      ensures Valid() && this.status == status && this.parse == parse
      ensures body == "" && buffer == "" && settled.None? && processed == []
    {
      this.status := status;
      this.parse := parse;
      body := "";
      buffer := "";
      settled := None;
      received := "";
      processed := [];
    }

    /**
     * A chunk of the response. A failed status only collects the body.
     * Otherwise, until settled, the complete lines are taken in order and the
     * unterminated tail stays in the buffer; the first settling line settles
     * the pull and the rest of the chunk is ignored. Once settled, data is ignored.
     */
    method OnData(chunk: string)
      requires Valid()
      modifies this
      ensures Valid()
      ensures status >= 400 ==> body == old(body) + chunk && buffer == old(buffer) && settled == old(settled)
      ensures status < 400 ==> body == old(body)
      ensures status < 400 && old(settled).Some? ==>
        settled == old(settled) && buffer == old(buffer) && processed == old(processed) && received == old(received)
      ensures status < 400 && old(settled).None? ==>
        received == old(received) + chunk &&
        |processed| >= |old(processed)| && processed[..|old(processed)|] == old(processed) &&
        '\n' !in buffer &&
        settled == FirstVerdict(processed, parse)
    {
      if status >= 400 {
        body := body + chunk;
        return;
      }
      if settled.Some? {
        return;
      }
      var parts := Split(buffer + chunk, '\n');
      var lines := parts[..|parts| - 1];
      ChunkTaken(processed, buffer, chunk, received, parse, parts);
      received := received + chunk;
      processed := processed + lines;
      buffer := parts[|parts| - 1];
      SettleOnFirst(lines);
    }

    /**
     * Taking in a chunk while unsettled: the complete lines of buffer and
     * chunk join the processed lines and the tail becomes the buffer, which
     * keeps every byte accounted for and every processed line complete.
     */
    static lemma ChunkTaken(processed: seq<string>, buffer: string, chunk: string, received: string,
                            parse: string -> Option<Json>, parts: seq<string>)
      requires parts == Split(buffer + chunk, '\n')
      requires Terminated(processed, '\n') + buffer == received
      requires forall l :: l in processed ==> '\n' !in l
      requires FirstVerdict(processed, parse).None?
      ensures |parts| >= 1
      ensures var taken := processed + parts[..|parts| - 1];
        Terminated(taken, '\n') + parts[|parts| - 1] == received + chunk &&
        (forall l :: l in taken ==> '\n' !in l) && '\n' !in parts[|parts| - 1] &&
        FirstVerdict(taken, parse) == FirstVerdict(parts[..|parts| - 1], parse) &&
        |taken| >= |processed| && taken[..|processed|] == processed
    {
      var lines := parts[..|parts| - 1];
      ChunkAccounted(processed, buffer, chunk, parts);
      FirstSomeAppend(processed, lines, VerdictOf(parse));
      CompleteLines(processed, parts);
      assert (processed + lines)[..|processed|] == processed;
    }

    /** Takes the lines in order and settles on the first one that settles, skipping the rest. */
    method SettleOnFirst(lines: seq<string>)
      requires settled.None?
      modifies this
      ensures settled == FirstVerdict(lines, parse)
      ensures body == old(body) && buffer == old(buffer) && received == old(received) && processed == old(processed)
    {
      var i := 0;
      while i < |lines|
        invariant 0 <= i <= |lines|
        invariant settled.None? && FirstVerdict(lines[..i], parse).None?
        invariant body == old(body) && buffer == old(buffer) && received == old(received) && processed == old(processed)
      {
        if Trim(lines[i]) != "" {
          var verdict := LineVerdict(lines[i], parse);
          if verdict.Some? {
            settled := verdict;
            SettlesAt(lines, i, parse);
            return;
          }
        }
        NotSettledThrough(lines, i, parse);
        i := i + 1;
      }
      assert lines[..i] == lines;
    }

    /**
     * The end of the response. A failed status settles as `Rejected` with the
     * body, or `HTTP <status>` when the body is empty. Otherwise, if still
     * unsettled, a settling tail decides, and anything else is `Ready`.
     */
    method OnEnd()
      requires Valid()
      modifies this
      ensures body == old(body) && buffer == old(buffer) && received == old(received) && processed == old(processed)
      ensures status >= 400 ==> settled == Some(Rejected(if body != "" then body else "HTTP " + IntToString(status)))
      ensures status < 400 && old(settled).Some? ==> settled == old(settled)
      ensures status < 400 && old(settled).None? ==>
        settled == Some(if LineVerdict(buffer, parse).Some? then LineVerdict(buffer, parse).value else Ready)
    {
      if status >= 400 {
        settled := Some(Rejected(if body != "" then body else "HTTP " + IntToString(status)));
        return;
      }
      if settled.Some? {
        return;
      }
      var verdict := LineVerdict(buffer, parse);
      settled := Some(if verdict.Some? then verdict.value else Ready);
    }

    /** A failed request or response: settles as `Broken` unless already settled. */
    method OnError(message: string)
      requires Valid()
      modifies this
      ensures Valid()
      ensures body == old(body) && buffer == old(buffer) && received == old(received) && processed == old(processed)
      ensures settled == if old(settled).Some? then old(settled) else Some(Broken(message))
    {
      if settled.None? {
        settled := Some(Broken(message));
      }
    }
  }

  /**
   * A stream with an acceptable status that ends without failing settles as
   * `Ready` unless a line, the tail included, carried a truthy `error` before
   * any line reporting success.
   */
  lemma EndedStreamVerdict(lines: seq<string>, tail: string, parse: string -> Option<Json>)
    requires FirstVerdict(lines, parse).None?
    ensures var v := if LineVerdict(tail, parse).Some? then LineVerdict(tail, parse).value else Ready;
      (v.Failed? <==> FirstVerdict(lines + [tail], parse).Some? && FirstVerdict(lines + [tail], parse).value.Failed?) &&
      (v == Ready <==> !(FirstVerdict(lines + [tail], parse).Some? && FirstVerdict(lines + [tail], parse).value.Failed?))
  {
    FirstSomeAppend(lines, [tail], VerdictOf(parse));
    assert FirstVerdict([tail], parse) == LineVerdict(tail, parse) by {
      assert [tail][1..] == [];
    }
  }

  // ---------------------------------------------------------------------------
  // Installing Ollama
  // ---------------------------------------------------------------------------

  const OllamaDownloadUrls: seq<string> := [
    "https://ollama.com/download/ollama-windows-amd64.zip",
    "https://github.moeyy.xyz/https://github.com/ollama/ollama/releases/latest/download/ollama-windows-amd64.zip",
    "https://github.com/ollama/ollama/releases/latest/download/ollama-windows-amd64.zip"]

  const AllSourcesFailedPrefix := "所有下载源均失败: "

  /**
   * The download step of `install`: tries the URLs in order (`download` gives
   * a URL's error, `None` on success) and stops at the first success.
   * Returns how many URLs were tried and, when every one failed, the error
   * carrying the last URL's message.
   */
  method DownloadFirstWorking(urls: seq<string>, download: string -> Option<string>)
    returns (tried: nat, error: Option<string>)
    ensures tried <= |urls|
    ensures forall i :: 0 <= i < tried - 1 ==> download(urls[i]).Some?
    ensures error.None? && |urls| > 0 ==> tried >= 1 && download(urls[tried - 1]).None?
    ensures error.None? <==> |urls| == 0 || exists i :: 0 <= i < |urls| && download(urls[i]).None?
    ensures error.Some? ==> tried == |urls| && error == Some(AllSourcesFailedPrefix + download(urls[|urls| - 1]).value)
  {
    var lastError: Option<string> := None;
    tried := 0;
    while tried < |urls|
      invariant tried <= |urls|
      invariant forall i :: 0 <= i < tried ==> download(urls[i]).Some?
      invariant lastError.None? <==> tried == 0
      invariant tried > 0 ==> lastError == download(urls[tried - 1])
    {
      var outcome := download(urls[tried]);
      tried := tried + 1;
      if outcome.None? {
        return tried, None;
      }
      lastError := outcome;
    }
    if lastError.Some? {
      error := Some(AllSourcesFailedPrefix + lastError.value);
    } else {
      error := None;
    }
  }

  // ---------------------------------------------------------------------------
  // renameWithRetry
  // ---------------------------------------------------------------------------

  datatype RenameError = EPerm | OtherError

  /** How a rename ended: by a rename on some attempt, by copying, or with the copy's error. */
  datatype RenameOutcome =
    | Renamed(attempts: nat)
    | Copied(attempts: nat)
    | CopyFailed(attempts: nat, message: string)

  const RenameFailedPrefix := "文件重命名失败: "

  /**
   * `renameWithRetry`: up to `retries` rename attempts (`rename(k)` is the
   * error of attempt `k`, `None` on success); an error other than EPERM, or
   * an error on the last attempt, switches to copy-then-delete, whose error
   * is `copy`.
   */
  method RenameWithRetry(retries: int, rename: nat -> Option<RenameError>, copy: Option<string>)
    returns (outcome: RenameOutcome)
    ensures outcome.attempts <= (if retries < 0 then 0 else retries)
    ensures forall k :: 1 <= k < outcome.attempts ==> rename(k) == Some(EPerm)
    ensures outcome.Renamed? ==> outcome.attempts >= 1 && rename(outcome.attempts).None?
    ensures !outcome.Renamed? && outcome.attempts >= 1 ==> rename(outcome.attempts).Some?
    ensures !outcome.Renamed? && outcome.attempts < retries ==>
      outcome.attempts >= 1 && rename(outcome.attempts) == Some(OtherError)
    ensures !outcome.Renamed? ==> outcome == Fallback(outcome.attempts, copy)
  {
    var attempt := 1;
    while attempt <= retries
      invariant 1 <= attempt <= (if retries < 0 then 0 else retries) + 1
      invariant forall k :: 1 <= k < attempt ==> rename(k) == Some(EPerm)
    {
      var error := rename(attempt);
      if error.None? {
        return Renamed(attempt);
      }
      if error != Some(EPerm) || attempt == retries {
        assert error.value.EPerm? || error.value.OtherError?;
        return Fallback(attempt, copy);
      }
      attempt := attempt + 1;
    }
    outcome := Fallback(attempt - 1, copy);
  }

  /** The copy-then-delete fallback after `attempts` failed renames. */
  function Fallback(attempts: nat, copy: Option<string>): (r: RenameOutcome)
    ensures r.attempts == attempts && !r.Renamed?
  {
    if copy.None? then Copied(attempts) else CopyFailed(attempts, RenameFailedPrefix + copy.value)
  }

  // ---------------------------------------------------------------------------
  // applyModel
  // ---------------------------------------------------------------------------

  /** A catalogue entry: model id and display name. */
  datatype CatalogueModel = CatalogueModel(id: string, name: string)

  /** The name of the first catalogue entry with the id, else the id itself. */
  function DisplayName(catalogue: seq<CatalogueModel>, modelId: string): (name: string)
    ensures (forall i :: 0 <= i < |catalogue| ==> catalogue[i].id != modelId) ==> name == modelId
    ensures (exists i :: 0 <= i < |catalogue| && catalogue[i].id == modelId) ==>
      exists i :: 0 <= i < |catalogue| && catalogue[i].id == modelId && name == catalogue[i].name &&
        forall j :: 0 <= j < i ==> catalogue[j].id != modelId
  {
    if |catalogue| == 0 then modelId
    else if catalogue[0].id == modelId then catalogue[0].name
    else
      var rest := DisplayName(catalogue[1..], modelId);
      assert forall i :: 1 <= i < |catalogue| ==> catalogue[i] == catalogue[1..][i - 1];
      rest
  }

  /** The local model is treated as a reasoning model when its id contains `r1`. */
  predicate Reasoning(modelId: string)
  {
    Contains(modelId, "r1")
  }

  /**
   * `if (!obj[key]) obj[key] = dflt`, then the child's fields: `dflt` for a
   * falsy or missing child, the child's own fields for an object, `None` for
   * a truthy non-object (through which the source cannot set a property).
   */
  function Child(m: map<string, Json>, key: string, dflt: map<string, Json>): (r: Option<map<string, Json>>)
    ensures (key !in m || !Truthy(m[key])) ==> r == Some(dflt)
    ensures key in m && m[key].JObj? ==> r == Some(m[key].fields)
    ensures r.None? <==> key in m && Truthy(m[key]) && !m[key].JObj?
  {
    if key !in m || !Truthy(m[key]) then Some(dflt)
    else if m[key].JObj? then Some(m[key].fields)
    else None
  }

  function OllamaProvider(modelId: string, displayName: string): Json
  {
    JObj(map[
      "baseUrl" := JStr("http://127.0.0.1:11434/v1"),
      "api" := JStr("openai-completions"),
      "models" := JArr([JObj(map[
        "id" := JStr(modelId),
        "name" := JStr(displayName),
        "reasoning" := JBool(Reasoning(modelId)),
        "input" := JArr([JStr("text")]),
        "contextWindow" := JNum(32768),
        "maxTokens" := JNum(8192)])])])
  }

  const OllamaProfile := JObj(map["provider" := JStr("ollama"), "mode" := JStr("api_key")])
  const SessionMemoryOff := JObj(map["enabled" := JBool(false)])
  const DefaultInternalHooks: map<string, Json> := map["enabled" := JBool(true), "entries" := JObj(map[])]

  /** `agents` with `defaults.model.primary` and the alias entry set. */
  function AgentsWith(c: map<string, Json>, key: string, displayName: string): Option<Json>
  {
    var agents := Child(c, "agents", map[]);
    if agents.None? then None
    else
      var defaults := Child(agents.value, "defaults", map[]);
      if defaults.None? then None
      else
        var model := Child(defaults.value, "model", map[]);
        var models := Child(defaults.value, "models", map[]);
        if model.None? || models.None? then None
        else
          Some(JObj(agents.value["defaults" := JObj(defaults.value
            ["model" := JObj(model.value["primary" := JStr(key)])]
            ["models" := JObj(models.value[key := JObj(map["alias" := JStr(displayName)])])])]))
  }

  /** `models` with `providers.ollama` replaced. */
  function ModelsWith(c: map<string, Json>, provider: Json): Option<Json>
  {
    var models := Child(c, "models", map["mode" := JStr("merge")]);
    if models.None? then None
    else
      var providers := Child(models.value, "providers", map[]);
      if providers.None? then None
      else Some(JObj(models.value["providers" := JObj(providers.value["ollama" := provider])]))
  }

  /** `auth` with `profiles["ollama:default"]` set. */
  function AuthWith(c: map<string, Json>): Option<Json>
  {
    var auth := Child(c, "auth", map[]);
    if auth.None? then None
    else
      var profiles := Child(auth.value, "profiles", map[]);
      if profiles.None? then None
      else Some(JObj(auth.value["profiles" := JObj(profiles.value["ollama:default" := OllamaProfile])]))
  }

  /** `meta` with `lastTouchedAt` set. */
  function MetaWith(c: map<string, Json>, now: string): Option<Json>
  {
    var meta := Child(c, "meta", map[]);
    if meta.None? then None else Some(JObj(meta.value["lastTouchedAt" := JStr(now)]))
  }

  /** `hooks` with the `session-memory` internal hook disabled. */
  function HooksWith(c: map<string, Json>): Option<Json>
  {
    var hooks := Child(c, "hooks", map[]);
    if hooks.None? then None
    else
      var internal := Child(hooks.value, "internal", DefaultInternalHooks);
      if internal.None? then None
      else
        var entries := Child(internal.value, "entries", map[]);
        if entries.None? then None
        else Some(JObj(hooks.value["internal" := JObj(internal.value
          ["entries" := JObj(entries.value["session-memory" := SessionMemoryOff])])]))
  }

  /** The five top-level sections `applyModel` rewrites. */
  datatype Sections = Sections(agents: Json, models: Json, auth: Json, meta: Json, hooks: Json)

  /** The rewritten sections, or `None` when one of them cannot be rewritten. */
  function SectionsFor(c: map<string, Json>, modelId: string, displayName: string, now: string): Option<Sections>
  {
    var agents := AgentsWith(c, "ollama/" + modelId, displayName);
    var models := ModelsWith(c, OllamaProvider(modelId, displayName));
    var auth := AuthWith(c);
    var meta := MetaWith(c, now);
    var hooks := HooksWith(c);
    if agents.None? || models.None? || auth.None? || meta.None? || hooks.None? then None
    else Some(Sections(agents.value, models.value, auth.value, meta.value, hooks.value))
  }

  function Upsert(c: map<string, Json>, s: Sections): map<string, Json>
  {
    c["agents" := s.agents]["models" := s.models]["auth" := s.auth]["meta" := s.meta]["hooks" := s.hooks]
  }

  /**
   * The configuration `applyModel` writes for a parsed configuration, or
   * `None` when the source would fail (a configuration that is neither an
   * object nor an array, or a truthy non-object where it has to set a
   * property). An array configuration takes the new sections as named
   * properties, which `JSON.stringify` does not write: the array is written
   * back as it was.
   */
  function ApplyToConfig(config: Json, modelId: string, displayName: string, now: string): (r: Option<Json>)
    ensures r.Some? <==> config.JArr? || (config.JObj? && SectionsFor(config.fields, modelId, displayName, now).Some?)
    ensures config.JArr? ==> r == Some(config)
    ensures r.Some? && config.JObj? ==> r.value.JObj?
    ensures r.Some? && config.JObj? ==>
      forall k :: k in config.fields && !Touched(k) ==> k in r.value.fields && r.value.fields[k] == config.fields[k]
  {
    if config.JArr? then Some(config)
    else if !config.JObj? then None
    else
      match SectionsFor(config.fields, modelId, displayName, now)
      case None => None
      case Some(s) =>
        UpsertKeeps(config.fields, s);
        Some(JObj(Upsert(config.fields, s)))
  }

  /** The five top-level keys `applyModel` touches. */
  predicate Touched(k: string)
  {
    k == "agents" || k == "models" || k == "auth" || k == "meta" || k == "hooks"
  }

  /**
   * `applyModel` rewrites the five sections and keeps every other top-level
   * key; the sections then hold what the lemmas below describe.
   */
  lemma ApplyModelSets(config: Json, modelId: string, displayName: string, now: string)
    requires ApplyToConfig(config, modelId, displayName, now).Some?
    ensures config.JArr? ==> ApplyToConfig(config, modelId, displayName, now).value == config
    ensures !config.JArr? ==> config.JObj? && SectionsFor(config.fields, modelId, displayName, now).Some?
    ensures config.JObj? ==>
      var r := ApplyToConfig(config, modelId, displayName, now).value;
      var s := SectionsFor(config.fields, modelId, displayName, now).value;
      r.JObj? &&
      r.fields["agents"] == AgentsWith(config.fields, "ollama/" + modelId, displayName).value &&
      r.fields["models"] == ModelsWith(config.fields, OllamaProvider(modelId, displayName)).value &&
      r.fields["auth"] == AuthWith(config.fields).value &&
      r.fields["meta"] == MetaWith(config.fields, now).value &&
      r.fields["hooks"] == HooksWith(config.fields).value &&
      (forall k :: k in config.fields && !Touched(k) ==> k in r.fields && r.fields[k] == config.fields[k]) &&
      (forall k :: k in r.fields ==> k in config.fields || Touched(k))
  {
    if config.JObj? {
      UpsertKeeps(config.fields, SectionsFor(config.fields, modelId, displayName, now).value);
    }
  }

  lemma UpsertKeeps(c: map<string, Json>, s: Sections)
    ensures var r := Upsert(c, s);
      r["agents"] == s.agents && r["models"] == s.models && r["auth"] == s.auth &&
      r["meta"] == s.meta && r["hooks"] == s.hooks &&
      (forall k :: k in c && !Touched(k) ==> k in r && r[k] == c[k]) &&
      (forall k :: k in r ==> k in c || Touched(k))
  {
  }

  /** Setting the primary model and its alias keeps the other defaults. */
  lemma AgentsSetPrimary(c: map<string, Json>, key: string, displayName: string)
    requires AgentsWith(c, key, displayName).Some?
    ensures var d := Get(AgentsWith(c, key, displayName).value, "defaults");
      d.Some? && d.value.JObj? &&
      Get(d.value, "model").Some? && Get(Get(d.value, "model").value, "primary") == Some(JStr(key)) &&
      Get(d.value, "models").Some? && Get(Get(d.value, "models").value, key) == Some(JObj(map["alias" := JStr(displayName)]))
  {
  }

  /** The Ollama provider describes the chosen model, reasoning exactly when its id contains `r1`. */
  lemma ProviderListsModel(c: map<string, Json>, modelId: string, displayName: string)
    requires ModelsWith(c, OllamaProvider(modelId, displayName)).Some?
    ensures var p := Get(ModelsWith(c, OllamaProvider(modelId, displayName)).value, "providers");
      p.Some? && Get(p.value, "ollama") == Some(OllamaProvider(modelId, displayName))
    ensures var m := Get(OllamaProvider(modelId, displayName), "models");
      m == Some(JArr([JObj(map[
        "id" := JStr(modelId), "name" := JStr(displayName), "reasoning" := JBool(Contains(modelId, "r1")),
        "input" := JArr([JStr("text")]), "contextWindow" := JNum(32768), "maxTokens" := JNum(8192)])]))
  {
  }

  /** `session-memory` is disabled and the other hook entries are kept. */
  lemma HooksDisableSessionMemory(c: map<string, Json>)
    requires HooksWith(c).Some?
    ensures var internal := Get(HooksWith(c).value, "internal");
      internal.Some? && internal.value.JObj? &&
      var entries := Get(internal.value, "entries");
      entries.Some? && entries.value.JObj? &&
      Get(entries.value, "session-memory") == Some(SessionMemoryOff) &&
      var old_ := Child(Child(Child(c, "hooks", map[]).value, "internal", DefaultInternalHooks).value, "entries", map[]).value;
      forall k :: k in old_ && k != "session-memory" ==> k in entries.value.fields && entries.value.fields[k] == old_[k]
  {
  }

  /** Applying the same model twice at the same time writes what applying it once did. */
  lemma ApplyModelIdempotent(config: Json, modelId: string, displayName: string, now: string)
    requires ApplyToConfig(config, modelId, displayName, now).Some?
    ensures var once := ApplyToConfig(config, modelId, displayName, now).value;
      ApplyToConfig(once, modelId, displayName, now) == Some(once)
  {
    if config.JArr? {
      return;
    }
    var c := config.fields;
    var s := SectionsFor(c, modelId, displayName, now).value;
    var d := Upsert(c, s);
    AgentsStable(c, d, "ollama/" + modelId, displayName);
    ModelsStable(c, d, OllamaProvider(modelId, displayName));
    AuthStable(c, d);
    MetaStable(c, d, now);
    HooksStable(c, d);
    assert SectionsFor(d, modelId, displayName, now) == Some(s);
    UpsertTwice(c, s);
  }

  lemma UpsertTwice(c: map<string, Json>, s: Sections)
    ensures Upsert(Upsert(c, s), s) == Upsert(c, s)
  {
  }

  lemma AgentsStable(c: map<string, Json>, d: map<string, Json>, key: string, displayName: string)
    requires AgentsWith(c, key, displayName).Some?
    requires "agents" in d && d["agents"] == AgentsWith(c, key, displayName).value
    ensures AgentsWith(d, key, displayName) == Some(d["agents"])
  {
    var agents := Child(c, "agents", map[]).value;
    var defaults := Child(agents, "defaults", map[]).value;
    var model := Child(defaults, "model", map[]).value["primary" := JStr(key)];
    var models := Child(defaults, "models", map[]).value[key := JObj(map["alias" := JStr(displayName)])];
    var defaults2 := defaults["model" := JObj(model)]["models" := JObj(models)];
    var agents2 := agents["defaults" := JObj(defaults2)];
    assert d["agents"] == JObj(agents2);
    assert Child(d, "agents", map[]) == Some(agents2);
    assert Child(agents2, "defaults", map[]) == Some(defaults2);
    assert Child(defaults2, "model", map[]) == Some(model);
    assert Child(defaults2, "models", map[]) == Some(models);
    assert model["primary" := JStr(key)] == model;
    assert models[key := JObj(map["alias" := JStr(displayName)])] == models;
    assert defaults2["model" := JObj(model)]["models" := JObj(models)] == defaults2;
    assert agents2["defaults" := JObj(defaults2)] == agents2;
  }

  lemma ModelsStable(c: map<string, Json>, d: map<string, Json>, provider: Json)
    requires ModelsWith(c, provider).Some?
    requires "models" in d && d["models"] == ModelsWith(c, provider).value
    ensures ModelsWith(d, provider) == Some(d["models"])
  {
    var models := Child(c, "models", map["mode" := JStr("merge")]).value;
    var providers := Child(models, "providers", map[]).value["ollama" := provider];
    var models2 := models["providers" := JObj(providers)];
    assert Child(d, "models", map["mode" := JStr("merge")]) == Some(models2);
    assert Child(models2, "providers", map[]) == Some(providers);
    assert providers["ollama" := provider] == providers;
    assert models2["providers" := JObj(providers)] == models2;
  }

  lemma AuthStable(c: map<string, Json>, d: map<string, Json>)
    requires AuthWith(c).Some?
    requires "auth" in d && d["auth"] == AuthWith(c).value
    ensures AuthWith(d) == Some(d["auth"])
  {
    var auth := Child(c, "auth", map[]).value;
    var profiles := Child(auth, "profiles", map[]).value["ollama:default" := OllamaProfile];
    var auth2 := auth["profiles" := JObj(profiles)];
    assert Child(d, "auth", map[]) == Some(auth2);
    assert Child(auth2, "profiles", map[]) == Some(profiles);
    assert profiles["ollama:default" := OllamaProfile] == profiles;
    assert auth2["profiles" := JObj(profiles)] == auth2;
  }

  lemma MetaStable(c: map<string, Json>, d: map<string, Json>, now: string)
    requires MetaWith(c, now).Some?
    requires "meta" in d && d["meta"] == MetaWith(c, now).value
    ensures MetaWith(d, now) == Some(d["meta"])
  {
    var meta := Child(c, "meta", map[]).value["lastTouchedAt" := JStr(now)];
    assert Child(d, "meta", map[]) == Some(meta);
    assert meta["lastTouchedAt" := JStr(now)] == meta;
  }

  lemma HooksStable(c: map<string, Json>, d: map<string, Json>)
    requires HooksWith(c).Some?
    requires "hooks" in d && d["hooks"] == HooksWith(c).value
    ensures HooksWith(d) == Some(d["hooks"])
  {
    var hooks := Child(c, "hooks", map[]).value;
    var internal := Child(hooks, "internal", DefaultInternalHooks).value;
    var entries := Child(internal, "entries", map[]).value["session-memory" := SessionMemoryOff];
    var internal2 := internal["entries" := JObj(entries)];
    var hooks2 := hooks["internal" := JObj(internal2)];
    assert Child(d, "hooks", map[]) == Some(hooks2);
    assert Child(hooks2, "internal", DefaultInternalHooks) == Some(internal2);
    assert Child(internal2, "entries", map[]) == Some(entries);
    assert entries["session-memory" := SessionMemoryOff] == entries;
    assert internal2["entries" := JObj(entries)] == internal2;
    assert hooks2["internal" := JObj(internal2)] == hooks2;
  }

  /** A configuration or profiles file as read. */
  datatype ConfigFile = Missing | Unparsable | Parsed(value: Json)

  /**
   * The `auth-profiles.json` content after adding the Ollama profile: a
   * missing or unparsable file starts from `{profiles: {}}`; a `profiles`
   * that is not an object (or array) is replaced; a parsed array takes the
   * profiles as a named property that `JSON.stringify` does not write, so it
   * is written back as it was; `None` for a parsed file that is neither.
   */
  function AuthProfilesWith(existing: ConfigFile): (r: Option<Json>)
    ensures r.None? <==> existing.Parsed? && !existing.value.JObj? && !existing.value.JArr?
    ensures existing.Parsed? && existing.value.JArr? ==> r == Some(existing.value)
    ensures r.Some? && !(existing.Parsed? && existing.value.JArr?) ==>
      r.value.JObj? && "profiles" in r.value.fields &&
      (r.value.fields["profiles"].JArr? ||
       (r.value.fields["profiles"].JObj? && "ollama:default" in r.value.fields["profiles"].fields))
  {
    var base := if existing.Parsed? then existing.value else JObj(map["profiles" := JObj(map[])]);
    if base.JArr? then Some(base)
    else if !base.JObj? then None
    else
      var m := base.fields;
      var entry := JObj(map["provider" := JStr("ollama"), "type" := JStr("api_key"), "key" := JStr("ollama")]);
      if "profiles" in m && m["profiles"].JObj? then
        Some(JObj(m["profiles" := JObj(m["profiles"].fields["ollama:default" := entry])]))
      else if "profiles" in m && m["profiles"].JArr? then
        Some(base)
      else
        Some(JObj(m["profiles" := JObj(map["ollama:default" := entry])]))
  }

  /** The files `applyModel` reads and writes. */
  class OllamaHome {
    var config: ConfigFile
    var authProfiles: ConfigFile
    var agentAuthProfiles: ConfigFile

    constructor(config: ConfigFile, authProfiles: ConfigFile, agentAuthProfiles: ConfigFile)
      ensures this.config == config && this.authProfiles == authProfiles && this.agentAuthProfiles == agentAuthProfiles
    {
      this.config := config;
      this.authProfiles := authProfiles;
      this.agentAuthProfiles := agentAuthProfiles;
    }

    /**
     * `applyModel`: writes the updated configuration, then adds the Ollama
     * profile to `auth-profiles.json` and copies it to the agent directory.
     * Returns false, having written nothing further, at the first step the
     * source would throw.
     */
    method ApplyModel(modelId: string, catalogue: seq<CatalogueModel>, now: string) returns (ok: bool)
      modifies this
      ensures var start := if old(config).Parsed? then old(config).value else JObj(map[]);
        var written := if old(config).Unparsable? then None
                       else ApplyToConfig(start, modelId, DisplayName(catalogue, modelId), now);
        var auth := AuthProfilesWith(old(authProfiles));
        (written.None? ==> !ok && config == old(config) && authProfiles == old(authProfiles) &&
                           agentAuthProfiles == old(agentAuthProfiles)) &&
        (written.Some? ==> config == Parsed(written.value)) &&
        (written.Some? && auth.None? ==> !ok && authProfiles == old(authProfiles) &&
                                         agentAuthProfiles == old(agentAuthProfiles)) &&
        (written.Some? && auth.Some? ==> ok && authProfiles == Parsed(auth.value) && agentAuthProfiles == authProfiles)
    {
      if config.Unparsable? {
        return false;
      }
      var start := if config.Parsed? then config.value else JObj(map[]);
      var displayName := DisplayName(catalogue, modelId);
      var written := ApplyToConfig(start, modelId, displayName, now);
      if written.None? {
        return false;
      }
      config := Parsed(written.value);
      var auth := AuthProfilesWith(authProfiles);
      if auth.None? {
        return false;
      }
      authProfiles := Parsed(auth.value);
      agentAuthProfiles := Parsed(auth.value);
      ok := true;
    }
  }

  // ---------------------------------------------------------------------------
  // GPU detection (`getHardwareInfo`)
  // ---------------------------------------------------------------------------

  datatype Gpu = Gpu(name: string, memory: int)

  /** A CSV line describes a GPU when it has at least three fields, a usable name and positive RAM. */
  function GpuOf(line: string): (g: Option<Gpu>)
    ensures g.Some? ==>
      |Split(line, ',')| >= 3 && g.value.name == Trim(Split(line, ',')[2]) &&
      g.value.name != "" && g.value.name != "Name" && g.value.memory > 0 &&
      ParseInt(Split(line, ',')[1]) == Some(g.value.memory)
  {
    var parts := Split(line, ',');
    if |parts| < 3 then None
    else
      var ram := ParseInt(parts[1]);
      var name := Trim(parts[2]);
      if name != "" && name != "Name" && ram.Some? && ram.value > 0 then Some(Gpu(name, ram.value)) else None
  }

  /** The first line describing a GPU. */
  function FirstGpu(lines: seq<string>): (g: Option<Gpu>)
    ensures g.None? <==> forall i :: 0 <= i < |lines| ==> GpuOf(lines[i]).None?
    ensures g.Some? ==> exists i :: 0 <= i < |lines| && GpuOf(lines[i]) == g && forall j :: 0 <= j < i ==> GpuOf(lines[j]).None?
  {
    FirstSomeIsFirst(lines, GpuOf);
    FirstSome(lines, GpuOf)
  }

  /** Blank lines carry no GPU. */
  lemma BlankLineNoGpu(line: string)
    requires Trim(line) == ""
    ensures GpuOf(line).None?
  {
    TrimEmptyIffAllSpace(line);
    assert ',' !in line by {
      forall i | 0 <= i < |line|
        ensures line[i] != ','
      {
        assert IsSpace(line[i]);
      }
    }
    SplitWhole(line, ',');
  }

  /**
   * The GPU scan of `getHardwareInfo` over the `wmic` CSV output: the first
   * non-blank line describing a GPU, if any.
   */
  method DetectGpu(output: string) returns (gpu: Option<Gpu>)
    ensures gpu == FirstGpu(Split(output, '\n'))
  {
    var lines := Split(output, '\n');
    var i := 0;
    while i < |lines|
      invariant 0 <= i <= |lines|
      invariant FirstGpu(lines) == FirstGpu(lines[i..])
    {
      if Trim(lines[i]) != "" {
        var g := GpuOf(lines[i]);
        if g.Some? {
          assert lines[i..][0] == lines[i];
          return g;
        }
      } else {
        BlankLineNoGpu(lines[i]);
      }
      FirstSomeSkip(lines, i, GpuOf);
      i := i + 1;
    }
    return None;
  }

  /**
   * What the scan finds: nothing when no line describes a GPU, else the GPU
   * of the first line that does, with its name trimmed and its RAM positive.
   */
  lemma GpuDetection(output: string)
    ensures var lines := Split(output, '\n');
      (FirstGpu(lines).None? <==> forall i :: 0 <= i < |lines| ==> GpuOf(lines[i]).None?) &&
      (FirstGpu(lines).Some? ==>
        FirstGpu(lines).value.name != "" && FirstGpu(lines).value.name != "Name" && FirstGpu(lines).value.memory > 0 &&
        exists i :: 0 <= i < |lines| && GpuOf(lines[i]) == FirstGpu(lines) && forall j :: 0 <= j < i ==> GpuOf(lines[j]).None?)
  {
    FirstSomeIsFirst(Split(output, '\n'), GpuOf);
  }
}
