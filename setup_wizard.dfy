/**
 * The first-run setup of the main process: deciding whether the wizard has
 * run, writing `~/.openclaw/openclaw.json` from the wizard's answers
 * together with the API-key profiles and the workspace seed files, and
 * classifying the answer of the test request that validates an API key.
 *
 * The clock, the random gateway token, `path.resolve` and the HTTP answer
 * are inputs; a failing filesystem is an input naming the operation that
 * raises and its error message.
 */
module SetupWizard {
  import opened Wrappers
  import opened Text
  import opened Json

  /**
   * `isFirstRun`: true unless the configuration file parses and has a truthy
   * `wizard.lastRunAt` (`config` is `None` when the file is missing or not JSON).
   */
  function IsFirstRun(config: Option<Json>): (first: bool)
    ensures config.None? ==> first
  {
    if config.None? then true
    else
      var wizard := Get(config.value, "wizard");
      !(wizard.Some? && HasTruthy(wizard.value, "lastRunAt"))
  }

  /** `v[a][b]`, `None` as soon as a key is missing. */
  function Get2(v: Json, a: string, b: string): Option<Json>
  {
    match Get(v, a)
    case None => None
    case Some(child) => Get(child, b)
  }

  const DefaultGatewayPort := 39527
  const DefaultApiFormat := "openai-completions"
  const DefaultContextWindow := 200000
  const DefaultMaxTokens := 8192
  const AppVersion := "2.0.0"

  /** The wizard's answers; optional ones are `None` when not given. */
  datatype SetupConfig = SetupConfig(
    provider: string,
    modelId: string,
    modelName: string,
    apiKey: string,
    baseUrl: Option<string>,
    apiFormat: Option<string>,
    reasoning: Option<bool>,
    contextWindow: Option<int>,
    maxTokens: Option<int>,
    workspace: Option<string>,
    gatewayPort: Option<int>,
    gatewayToken: Option<string>,
    channels: Option<map<string, map<string, string>>>,
    skills: Option<map<string, Json>>,
    now: Option<string>)

  /**
   * `resolveWorkspace`: `home/openclaw` when nothing usable is given;
   * otherwise a leading `~` becomes the home directory and the result goes
   * through `path.resolve` (given as `resolve`).
   */
  function ResolveWorkspace(raw: Option<string>, home: string, sep: string, resolve: string -> string): (w: string)
    ensures !Filled(raw) ==> w == home + sep + "openclaw"
    ensures Filled(raw) && raw.value[0] == '~' ==> w == resolve(home + raw.value[1..])
    ensures Filled(raw) && raw.value[0] != '~' ==> w == resolve(raw.value)
  {
    if !Filled(raw) then home + sep + "openclaw"
    else
      var expanded := if raw.value[0] == '~' then home + raw.value[1..] else raw.value;
      resolve(expanded)
  }

  /** `a || b` for numbers: zero and absent both fall back. */
  function PortOr(port: Option<int>, default: int): int
  {
    if port.Some? && port.value != 0 then port.value else default
  }

  function StrObj(m: map<string, string>): Json
  {
    JObj(map k | k in m :: JStr(m[k]))
  }

  function ChannelsJson(channels: map<string, map<string, string>>): Json
  {
    JObj(map k | k in channels :: StrObj(channels[k]))
  }

  function Bool(b: bool): Json { JBool(b) }

  /** The key naming the primary model: `provider/modelId`. */
  function ProviderModelKey(s: SetupConfig): string
  {
    s.provider + "/" + s.modelId
  }

  /** The single model listed under the provider. */
  function ModelEntry(s: SetupConfig): Json
  {
    JObj(map[
      "id" := JStr(s.modelId),
      "name" := JStr(s.modelName),
      "reasoning" := Bool(s.reasoning.GetOr(false)),
      "input" := JArr([JStr("text")]),
      "contextWindow" := JNum(s.contextWindow.GetOr(DefaultContextWindow)),
      "maxTokens" := JNum(s.maxTokens.GetOr(DefaultMaxTokens))])
  }

  /** The `models.providers[provider]` entry. */
  function ProviderEntry(s: SetupConfig): Json
  {
    var api := JStr(if Filled(s.apiFormat) then s.apiFormat.value else DefaultApiFormat);
    var base := map["api" := api, "models" := JArr([ModelEntry(s)])];
    JObj(if s.baseUrl.Some? then base["baseUrl" := JStr(s.baseUrl.value)] else base)
  }

  function DefaultsEntry(s: SetupConfig, workspace: string): Json
  {
    var key := ProviderModelKey(s);
    JObj(map[
      "workspace" := JStr(workspace),
      "maxConcurrent" := JNum(4),
      "subagents" := JObj(map["maxConcurrent" := JNum(8)]),
      "compaction" := JObj(map["mode" := JStr("safeguard")]),
      "model" := JObj(map["primary" := JStr(key)]),
      "models" := JObj(map[key := JObj(map["alias" := JStr(s.modelName)])])])
  }

  function GatewaySection(s: SetupConfig, token: string): Json
  {
    JObj(map[
      "mode" := JStr("local"),
      "port" := JNum(PortOr(s.gatewayPort, DefaultGatewayPort)),
      "bind" := JStr("loopback"),
      "auth" := JObj(map["mode" := JStr("token"), "token" := JStr(token)]),
      "controlUi" := JObj(map["dangerouslyDisableDeviceAuth" := JBool(true), "allowInsecureAuth" := JBool(true)])])
  }

  function SkillsSection(s: SetupConfig): Json
  {
    var base := map[
      "load" := JObj(map["watch" := JBool(true), "watchDebounceMs" := JNum(250)]),
      "install" := JObj(map["nodeManager" := JStr("npm")])];
    JObj(if s.skills.Some? && |s.skills.value| > 0 then base["entries" := JObj(s.skills.value)] else base)
  }

  function HooksSection(): Json
  {
    JObj(map["internal" := JObj(map[
      "enabled" := JBool(true),
      "entries" := JObj(map[
        "boot-md" := JObj(map["enabled" := JBool(true)]),
        "command-logger" := JObj(map["enabled" := JBool(true)]),
        "session-memory" := JObj(map["enabled" := JBool(true)])])])])
  }

  function WizardSection(now: string): Json
  {
    JObj(map[
      "lastRunAt" := JStr(now), "lastRunVersion" := JStr(AppVersion),
      "lastRunCommand" := JStr("gui-onboard"), "lastRunMode" := JStr("local")])
  }

  /** The top-level object of `openclaw.json`, from its sections; `channels` only when given. */
  function Assemble(meta: Json, wizard: Json, agents: Json, gateway: Json, auth: Json, models: Json,
                    skills: Json, hooks: Json, channels: Option<Json>): (c: Json)
    ensures Get(c, "meta") == Some(meta) && Get(c, "wizard") == Some(wizard) && Get(c, "agents") == Some(agents)
    ensures Get(c, "gateway") == Some(gateway) && Get(c, "auth") == Some(auth) && Get(c, "models") == Some(models)
    ensures Get(c, "skills") == Some(skills) && Get(c, "hooks") == Some(hooks) && Get(c, "channels") == channels
  {
    var base := map[
      "meta" := meta, "wizard" := wizard, "agents" := agents, "gateway" := gateway,
      "auth" := auth, "models" := models, "skills" := skills, "hooks" := hooks];
    JObj(if channels.Some? then base["channels" := channels.value] else base)
  }

  /** The content `writeSetupConfig` gives `openclaw.json`. */
  function OpenclawConfig(s: SetupConfig, now: string, token: string, workspace: string): (c: Json)
    ensures c.JObj?
    ensures Get(c, "hooks") == Some(HooksSection()) && Get(c, "skills") == Some(SkillsSection(s))
    ensures Get(c, "channels").Some? <==> s.channels.Some? && |s.channels.value| > 0
  {
    Assemble(
      JObj(map["lastTouchedVersion" := JStr(AppVersion), "lastTouchedAt" := JStr(now)]),
      WizardSection(now),
      JObj(map["defaults" := DefaultsEntry(s, workspace)]),
      GatewaySection(s, token),
      JObj(map["profiles" := JObj(map[s.provider + ":default" :=
        JObj(map["provider" := JStr(s.provider), "mode" := JStr("api_key")])])]),
      JObj(map["mode" := JStr("merge"), "providers" := JObj(map[s.provider := ProviderEntry(s)])]),
      SkillsSection(s),
      HooksSection(),
      if s.channels.Some? && |s.channels.value| > 0 then Some(ChannelsJson(s.channels.value)) else None)
  }

  /** Where the sections land in `openclaw.json`; `channels` is written only when non-empty. */
  lemma SectionsPlaced(s: SetupConfig, now: string, token: string, workspace: string)
    ensures var c := OpenclawConfig(s, now, token, workspace);
      Get(c, "wizard") == Some(WizardSection(now)) &&
      Get2(c, "agents", "defaults") == Some(DefaultsEntry(s, workspace)) &&
      Get(c, "gateway") == Some(GatewaySection(s, token)) &&
      Get2(c, "models", "providers") == Some(JObj(map[s.provider := ProviderEntry(s)])) &&
      Get(c, "skills") == Some(SkillsSection(s)) &&
      (Get(c, "channels").Some? <==> s.channels.Some? && |s.channels.value| > 0)
  {
  }

  /** A zero or missing gateway port falls back to 39527; the token is the one given. */
  lemma GatewayDefaults(s: SetupConfig, token: string)
    ensures Get(GatewaySection(s, token), "port") ==
      Some(JNum(if s.gatewayPort.Some? && s.gatewayPort.value != 0 then s.gatewayPort.value else 39527))
    ensures Get2(GatewaySection(s, token), "auth", "token") == Some(JStr(token))
  {
  }

  /**
   * A missing or empty API format becomes `openai-completions`; a base URL is
   * written only when given; the model's reasoning flag, context window and
   * token limit default to false, 200000 and 8192.
   */
  lemma ProviderDefaults(s: SetupConfig)
    ensures Get(ProviderEntry(s), "api") ==
      Some(JStr(if s.apiFormat.None? || s.apiFormat.value == "" then "openai-completions" else s.apiFormat.value))
    ensures Get(ProviderEntry(s), "baseUrl").Some? <==> s.baseUrl.Some?
    ensures Get(ProviderEntry(s), "models") == Some(JArr([ModelEntry(s)]))
    ensures Get(ModelEntry(s), "reasoning") == Some(JBool(s.reasoning.Some? && s.reasoning.value))
    ensures Get(ModelEntry(s), "contextWindow") == Some(JNum(if s.contextWindow.Some? then s.contextWindow.value else 200000))
    ensures Get(ModelEntry(s), "maxTokens") == Some(JNum(if s.maxTokens.Some? then s.maxTokens.value else 8192))
  {
  }

  /** The primary model is `provider/modelId`, and that key is aliased to the model's name. */
  lemma PrimaryModelAliased(s: SetupConfig, workspace: string)
    ensures Get2(DefaultsEntry(s, workspace), "model", "primary") == Some(JStr(s.provider + "/" + s.modelId))
    ensures Get2(DefaultsEntry(s, workspace), "models", s.provider + "/" + s.modelId) ==
      Some(JObj(map["alias" := JStr(s.modelName)]))
    ensures Get(DefaultsEntry(s, workspace), "workspace") == Some(JStr(workspace))
  {
  }

  /** `skills.entries` is written exactly when the wizard chose skill settings. */
  lemma SkillEntriesOnlyWhenNonEmpty(s: SetupConfig)
    ensures Get(SkillsSection(s), "entries").Some? <==> s.skills.Some? && |s.skills.value| > 0
  {
  }

  /** Once the wizard has written its configuration, the next start is not a first run. */
  lemma WrittenConfigIsNotFirstRun(s: SetupConfig, now: string, token: string, workspace: string)
    requires now != ""
    ensures !IsFirstRun(Some(OpenclawConfig(s, now, token, workspace)))
  {
    var c := OpenclawConfig(s, now, token, workspace);
    assert Get(c, "wizard") == Some(WizardSection(now));
    WizardStamped(now);
  }

  lemma WizardStamped(now: string)
    ensures HasTruthy(WizardSection(now), "lastRunAt") <==> now != ""
  {
  }

  /** The `auth-profiles.json` content for a key. */
  function AuthProfiles(s: SetupConfig): Json
  {
    JObj(map["profiles" := JObj(map[s.provider + ":default" :=
      JObj(map["provider" := JStr(s.provider), "type" := JStr("api_key"), "key" := JStr(s.apiKey)])])])
  }

  /** The outcome of `writeSetupConfig`. */
  datatype WriteResult = WriteResult(ok: bool, error: Option<string>)

  /**
   * The filesystem operation of `writeSetupConfig` that raises, in the order
   * they run: creating `~/.openclaw` or writing `openclaw.json`; writing
   * `auth-profiles.json`; creating the agent directory or writing the agent's
   * copy; creating the workspace directories; writing seed file `index`. An
   * operation the run does not perform (no API key, a seed already present)
   * raises nothing.
   */
  datatype WriteStep = ConfigWrite | AuthWrite | AgentAuthWrite | WorkspaceDirs | SeedWrite(index: nat)

  /**
   * `files` is `before` with the first `n` seeds in place under `dir`: each
   * of those whose file was absent now holds the seed's content, every file
   * already there is kept as it was, and nothing else is added.
   */
  predicate Seeded(dir: string, seeds: seq<(string, string)>, n: nat, before: map<string, string>, files: map<string, string>)
    requires n <= |seeds|
  {
    (forall p :: p in before ==> p in files && files[p] == before[p]) &&
    (forall i :: 0 <= i < n ==> dir + seeds[i].0 in files) &&
    (forall i :: 0 <= i < n && dir + seeds[i].0 !in before ==> files[dir + seeds[i].0] == seeds[i].1) &&
    (forall p :: p in files ==> p in before || exists i :: 0 <= i < n && p == dir + seeds[i].0)
  }

  /**
   * Whether a run with API key `apiKey` gets as far as the seed files: no
   * earlier operation that the run performs raises.
   */
  predicate SeedsReached(apiKey: string, failAt: Option<WriteStep>)
  {
    failAt != Some(ConfigWrite) && failAt != Some(WorkspaceDirs) &&
    (apiKey != "" ==> failAt != Some(AuthWrite) && failAt != Some(AgentAuthWrite))
  }

  /** The index of the seed whose write raises, if any. */
  function SeedFailure(failAt: Option<WriteStep>): Option<nat>
  {
    if failAt.Some? && failAt.value.SeedWrite? then Some(failAt.value.index) else None
  }

  /**
   * How many seeds are handled before a write raises: all of them, unless the
   * failing seed is one the run writes because its file is absent.
   */
  function SeedsHandled(dir: string, seeds: seq<(string, string)>, files: map<string, string>, failIndex: Option<nat>): (n: nat)
    ensures n <= |seeds|
    ensures n < |seeds| <==> failIndex.Some? && failIndex.value < |seeds| && dir + seeds[failIndex.value].0 !in files
  {
    if failIndex.Some? && failIndex.value < |seeds| && dir + seeds[failIndex.value].0 !in files then failIndex.value
    else |seeds|
  }

  predicate DistinctNames(seeds: seq<(string, string)>)
  {
    forall i, j :: 0 <= i < j < |seeds| ==> seeds[i].0 != seeds[j].0
  }

  /** The time stamp written: the given `_now` when truthy, else the clock. */
  function Stamp(s: SetupConfig, clockIso: string): string
  {
    if Filled(s.now) then s.now.value else clockIso
  }

  /**
   * The files under `~/.openclaw` that setup writes, and the files of the
   * workspace directories by full path.
   */
  class OpenclawHome {
    var configFile: Option<Json>
    var authProfiles: Option<Json>
    var agentAuthProfiles: Option<Json>
    var workspaceFiles: map<string, string>

    constructor(config: Option<Json>, files: map<string, string>)
      ensures configFile == config && workspaceFiles == files
      ensures authProfiles.None? && agentAuthProfiles.None?
    {
      configFile := config;
      authProfiles := None;
      agentAuthProfiles := None;
      workspaceFiles := files;
    }

    /**
     * `writeSetupConfig`. `seeds` holds the seed files (name, content);
     * `failAt` names the filesystem operation that raises, with message
     * `ioError`. The steps before it stay on disk: a failure after
     * `openclaw.json` is written returns `{ok: false}` with the new
     * configuration already in place.
     */
    method WriteSetupConfig(
      s: SetupConfig, clockIso: string, generatedToken: string,
      home: string, sep: string, resolve: string -> string,
      seeds: seq<(string, string)>, failAt: Option<WriteStep>, ioError: string) returns (result: WriteResult)
      requires DistinctNames(seeds)
      modifies this
      ensures var workspace := ResolveWorkspace(s.workspace, home, sep, resolve);
        result == (if !SeedsReached(s.apiKey, failAt) || SeedsHandled(workspace + sep, seeds, old(workspaceFiles), SeedFailure(failAt)) < |seeds|
                   then WriteResult(false, Some(ioError)) else WriteResult(true, None))
      ensures failAt == Some(ConfigWrite) ==> configFile == old(configFile)
      ensures failAt != Some(ConfigWrite) ==>
        var token := if Filled(s.gatewayToken) then s.gatewayToken.value else generatedToken;
        var workspace := ResolveWorkspace(s.workspace, home, sep, resolve);
        configFile == Some(OpenclawConfig(s, Stamp(s, clockIso), token, workspace))
      ensures s.apiKey != "" && failAt != Some(ConfigWrite) && failAt != Some(AuthWrite) ==>
        authProfiles == Some(AuthProfiles(s))
      ensures s.apiKey == "" || failAt == Some(ConfigWrite) || failAt == Some(AuthWrite) ==>
        authProfiles == old(authProfiles)
      ensures s.apiKey != "" && failAt != Some(ConfigWrite) && failAt != Some(AuthWrite) && failAt != Some(AgentAuthWrite) ==>
        agentAuthProfiles == Some(AuthProfiles(s))
      ensures s.apiKey == "" || failAt == Some(ConfigWrite) || failAt == Some(AuthWrite) || failAt == Some(AgentAuthWrite) ==>
        agentAuthProfiles == old(agentAuthProfiles)
      ensures !SeedsReached(s.apiKey, failAt) ==> workspaceFiles == old(workspaceFiles)
      ensures var workspace := ResolveWorkspace(s.workspace, home, sep, resolve);
        SeedsReached(s.apiKey, failAt) ==>
        Seeded(workspace + sep, seeds, SeedsHandled(workspace + sep, seeds, old(workspaceFiles), SeedFailure(failAt)),
               old(workspaceFiles), workspaceFiles)
    {
      // Each filesystem operation runs only when none before it raised.
      var raised := failAt == Some(ConfigWrite);
      var workspace := ResolveWorkspace(s.workspace, home, sep, resolve);
      if !raised {
        var gatewayToken := if Filled(s.gatewayToken) then s.gatewayToken.value else generatedToken;
        configFile := Some(OpenclawConfig(s, Stamp(s, clockIso), gatewayToken, workspace));
        if s.apiKey != "" {
          raised := failAt == Some(AuthWrite);
          if !raised {
            authProfiles := Some(AuthProfiles(s));
            raised := failAt == Some(AgentAuthWrite);
            if !raised {
              agentAuthProfiles := Some(AuthProfiles(s));
            }
          }
        }
      }
      if !raised {
        raised := failAt == Some(WorkspaceDirs);
      }
      if !raised {
        raised := SeedWorkspace(workspace + sep, seeds, SeedFailure(failAt));
      }
      result := if raised then WriteResult(false, Some(ioError)) else WriteResult(true, None);
    }

    /**
     * Writes each seed file into the workspace directory `dir` unless a file
     * of that name is already there; the write of seed `failIndex`, when it
     * happens, raises and ends the loop.
     */
    method SeedWorkspace(dir: string, seeds: seq<(string, string)>, failIndex: Option<nat>) returns (raised: bool)
      requires DistinctNames(seeds)
      modifies this
      ensures var n := SeedsHandled(dir, seeds, old(workspaceFiles), failIndex);
        raised <==> n < |seeds|
      ensures Seeded(dir, seeds, SeedsHandled(dir, seeds, old(workspaceFiles), failIndex), old(workspaceFiles), workspaceFiles)
      ensures configFile == old(configFile) && authProfiles == old(authProfiles) && agentAuthProfiles == old(agentAuthProfiles)
    {
      var i := 0;
      while i < |seeds|
        invariant 0 <= i <= |seeds|
        invariant configFile == old(configFile) && authProfiles == old(authProfiles) && agentAuthProfiles == old(agentAuthProfiles)
        invariant Seeded(dir, seeds, i, old(workspaceFiles), workspaceFiles)
        invariant failIndex.Some? && failIndex.value < i ==> dir + seeds[failIndex.value].0 in old(workspaceFiles)
      {
        var filePath := dir + seeds[i].0;
        SeedStep(dir, seeds, i, old(workspaceFiles), workspaceFiles);
        if filePath !in workspaceFiles {
          if failIndex == Some(i) {
            assert SeedsHandled(dir, seeds, old(workspaceFiles), failIndex) == i;
            return true;
          }
          workspaceFiles := workspaceFiles[filePath := seeds[i].1];
        }
        assert Seeded(dir, seeds, i + 1, old(workspaceFiles), workspaceFiles);
        i := i + 1;
      }
      assert SeedsHandled(dir, seeds, old(workspaceFiles), failIndex) == |seeds|;
      return false;
    }
  }

  /**
   * One pass of the seed loop: the file of seed `i` is present exactly when it
   * was there before the loop, and writing it where absent extends the
   * seeded prefix by one.
   */
  lemma SeedStep(dir: string, seeds: seq<(string, string)>, i: nat, before: map<string, string>, files: map<string, string>)
    requires DistinctNames(seeds) && i < |seeds| && Seeded(dir, seeds, i, before, files)
    ensures dir + seeds[i].0 in files <==> dir + seeds[i].0 in before
    ensures Seeded(dir, seeds, i + 1, before,
                   if dir + seeds[i].0 in files then files else files[dir + seeds[i].0 := seeds[i].1])
  {
    var path := dir + seeds[i].0;
    forall k | 0 <= k < i
      ensures dir + seeds[k].0 != path
    {
      SamePrefixDistinct(dir, seeds[k].0, seeds[i].0);
    }
    if path !in files {
      var next := files[path := seeds[i].1];
      forall p | p in next
        ensures p in before || exists k :: 0 <= k < i + 1 && p == dir + seeds[k].0
      {
        if p != path {
          assert p in files;
        }
      }
      assert Seeded(dir, seeds, i + 1, before, next);
    }
  }

  /** Different names under one directory are different paths. */
  lemma SamePrefixDistinct(dir: string, a: string, b: string)
    requires a != b
    ensures dir + a != dir + b
  {
    assert a == (dir + a)[|dir|..];
  }

  // ---------------------------------------------------------------------------
  // API-key validation
  // ---------------------------------------------------------------------------

  /** `s.replace(/\/+$/, '')`. */
  function StripTrailingSlashes(s: string): (r: string)
    ensures !EndsWith(r, "/")
    ensures |r| <= |s| && s[..|r|] == r
    ensures forall k :: |r| <= k < |s| ==> s[k] == '/'
  {
    if |s| > 0 && s[|s| - 1] == '/' then StripTrailingSlashes(s[..|s| - 1]) else s
  }

  /** The test endpoint: Anthropic's messages endpoint, else the OpenAI chat completions one. */
  function ValidationUrl(baseUrl: string, apiFormat: string): string
  {
    StripTrailingSlashes(baseUrl) + (if apiFormat == "anthropic-messages" then "/v1/messages" else "/chat/completions")
  }

  /** How the test request ended: an HTTP answer (body `None` when unreadable), or a thrown error. */
  datatype Outcome = Answered(status: int, body: Option<string>) | Threw(message: string)

  datatype Check = Check(ok: bool, error: Option<string>)

  const UnauthorizedMessage := "API Key 无效（认证失败）"
  const ForbiddenMessage := "API Key 无权限访问该模型"
  const TimeoutMessage := "连接超时，请检查网络或 API 地址是否正确"

  /** At most the first `n` characters: `substring(0, n)`. */
  function Take(s: string, n: nat): (r: string)
    ensures |r| <= n && |r| <= |s| && s[..|r|] == r
    ensures |s| <= n ==> r == s
  {
    if |s| <= n then s else s[..n]
  }

  /** `validateApiKey`'s classification of the test request's outcome. */
  function ValidateApiKey(outcome: Outcome): (r: Check)
    ensures r.ok <==> outcome.Answered? && (200 <= outcome.status < 300 || outcome.status == 429)
    ensures r.ok <==> r.error.None?
    ensures outcome.Answered? && !r.ok && outcome.status == 401 ==> r.error == Some(UnauthorizedMessage)
    ensures outcome.Answered? && !r.ok && outcome.status == 403 ==> r.error == Some(ForbiddenMessage)
    ensures outcome.Answered? && !r.ok && outcome.status != 401 && outcome.status != 403 ==>
      exists shown :: |shown| <= 200 &&
        r.error == Some("API 返回错误 (" + IntToString(outcome.status) + "): " + shown) &&
        shown == Take(outcome.body.GetOr(""), 200)
    ensures outcome.Threw? ==>
      r.error == Some(if Contains(outcome.message, "abort") || Contains(outcome.message, "timeout")
                      then TimeoutMessage else "连接失败: " + outcome.message)
  {
    match outcome
    case Answered(status, body) =>
      if 200 <= status < 300 then Check(true, None)
      else
        var text := body.GetOr("");
        if status == 401 then Check(false, Some(UnauthorizedMessage))
        else if status == 403 then Check(false, Some(ForbiddenMessage))
        else if status == 429 then Check(true, None)
        else Check(false, Some("API 返回错误 (" + IntToString(status) + "): " + Take(text, 200)))
    case Threw(message) =>
      if Contains(message, "abort") || Contains(message, "timeout") then Check(false, Some(TimeoutMessage))
      else Check(false, Some("连接失败: " + message))
  }
}
