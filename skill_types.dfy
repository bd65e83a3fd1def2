/**
 * The skill records shared by the main process and the renderer: what a
 * scanned skill looks like, and the per-skill user configuration stored
 * under `skills.entries` of the configuration file.
 */
module SkillTypes {
  import opened Wrappers

  datatype Source = Bundled | Local | Workspace

  datatype Status = Ready | Disabled | Blocked | Missing

  /** One scanned skill; absent optional fields are `None`, `requiresAnyBin` absent is `false`. */
  datatype SkillInfo = SkillInfo(
    name: string,
    description: string,
    emoji: Option<string>,
    homepage: Option<string>,
    source: Source,
    enabled: bool,
    status: Status,
    missingReason: Option<string>,
    os: Option<seq<string>>,
    primaryEnv: Option<string>,
    requiresApiKey: bool,
    requiresBins: Option<seq<string>>,
    requiresAnyBin: bool,
    apiKey: Option<string>)

  /** The user's settings for one skill. */
  datatype SkillEntryConfig = SkillEntryConfig(
    enabled: Option<bool>,
    apiKey: Option<string>,
    env: Option<map<string, string>>,
    config: Option<map<string, string>>)

  /** An entry with no field set: `{}`. */
  const EmptyEntry := SkillEntryConfig(None, None, None, None)
}
