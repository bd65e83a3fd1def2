/**
 * The skills step of the setup wizard: which skills are on, given the
 * user's per-skill entries and each skill's default, and how the switch,
 * the API key field and the card click change those entries.
 */
module SkillsSetup {
  import opened Wrappers
  import opened SkillTypes

  type SkillsConfig = map<string, SkillEntryConfig>

  /** `getEntry`: the skill's entry, or the empty entry. */
  function GetEntry(config: SkillsConfig, name: string): (e: SkillEntryConfig)
    ensures name in config ==> e == config[name]
    ensures name !in config ==> e == EmptyEntry
  {
    if name in config then config[name] else EmptyEntry
  }

  /** `isEnabled`: the entry's explicit choice, else the skill's default. */
  function IsEnabled(config: SkillsConfig, skill: SkillInfo): (r: bool)
    ensures skill.name !in config ==> r == skill.enabled
    ensures skill.name in config && config[skill.name].enabled.Some? ==> r == config[skill.name].enabled.value
    ensures skill.name in config && config[skill.name].enabled.None? ==> r == skill.enabled
  {
    GetEntry(config, skill.name).enabled.GetOr(skill.enabled)
  }

  /** `isPlatformBlocked`: the skill cannot run here. */
  function IsPlatformBlocked(skill: SkillInfo): (r: bool)
    ensures skill.status == Ready || skill.status == Disabled ==> !r
    ensures skill.status == Blocked || skill.status == Missing ==> r
  {
    skill.status == Blocked || skill.status == Missing
  }

  /** `handleToggle`: flips the skill's effective switch, recording the choice in its entry. */
  function Toggle(config: SkillsConfig, skill: SkillInfo): (r: SkillsConfig)
    ensures IsPlatformBlocked(skill) ==> r == config
    ensures !IsPlatformBlocked(skill) ==>
      r.Keys == config.Keys + {skill.name} &&
      r[skill.name] == GetEntry(config, skill.name).(enabled := Some(!IsEnabled(config, skill))) &&
      forall n :: n in config && n != skill.name ==> r[n] == config[n]
  {
    if IsPlatformBlocked(skill) then config
    else config[skill.name := GetEntry(config, skill.name).(enabled := Some(!IsEnabled(config, skill)))]
  }

  /** A toggle turns the skill's effective switch over, and leaves every other skill's switch alone. */
  lemma ToggleFlips(config: SkillsConfig, skill: SkillInfo, other: SkillInfo)
    requires !IsPlatformBlocked(skill) && other.name != skill.name
    ensures IsEnabled(Toggle(config, skill), skill) == !IsEnabled(config, skill)
    ensures IsEnabled(Toggle(config, skill), other) == IsEnabled(config, other)
  {
  }

  /** Two toggles bring the switch back; the entry now records the choice explicitly. */
  lemma ToggleTwice(config: SkillsConfig, skill: SkillInfo)
    requires !IsPlatformBlocked(skill)
    ensures var r := Toggle(Toggle(config, skill), skill);
      IsEnabled(r, skill) == IsEnabled(config, skill) &&
      r[skill.name] == GetEntry(config, skill.name).(enabled := Some(IsEnabled(config, skill)))
  {
  }

  /** `handleApiKeyChange`: the typed key goes into the skill's entry; an empty key removes it. */
  function ApiKeyChange(config: SkillsConfig, name: string, value: string): (r: SkillsConfig)
    ensures r.Keys == config.Keys + {name}
    ensures r[name].apiKey == (if value == "" then None else Some(value))
    ensures r[name].(apiKey := GetEntry(config, name).apiKey) == GetEntry(config, name)
    ensures forall n :: n in config && n != name ==> r[n] == config[n]
  {
    config[name := GetEntry(config, name).(apiKey := if value == "" then None else Some(value))]
  }

  /** Typing a key does not switch the skill on or off. */
  lemma ApiKeyKeepsSwitch(config: SkillsConfig, skill: SkillInfo, value: string)
    ensures IsEnabled(ApiKeyChange(config, skill.name, value), skill) == IsEnabled(config, skill)
  {
  }

  /** Clearing the field after typing leaves the entry without a key. */
  lemma ClearedKeyIsAbsent(config: SkillsConfig, name: string, value: string)
    ensures ApiKeyChange(ApiKeyChange(config, name, value), name, "")[name].apiKey.None?
  {
  }

  /** `handleCardClick`: for an available skill that needs a key, expands its key field, or collapses it when it was the expanded one. */
  function CardClick(expanded: Option<string>, skill: SkillInfo): (r: Option<string>)
    ensures IsPlatformBlocked(skill) || !skill.requiresApiKey ==> r == expanded
    ensures !IsPlatformBlocked(skill) && skill.requiresApiKey ==>
      (r == Some(skill.name) <==> expanded != Some(skill.name)) && (r.Some? ==> r == Some(skill.name))
  {
    if IsPlatformBlocked(skill) || !skill.requiresApiKey then expanded
    else if expanded == Some(skill.name) then None
    else Some(skill.name)
  }

  /** The key field shows for the expanded skill, and only when it needs a key. */
  predicate KeyFieldShown(expanded: Option<string>, skill: SkillInfo)
  {
    expanded == Some(skill.name) && skill.requiresApiKey
  }

  /** A card click shows the key field of an available skill that needs one, and a second click hides it. */
  lemma ClickShowsThenHides(expanded: Option<string>, skill: SkillInfo)
    requires !IsPlatformBlocked(skill) && skill.requiresApiKey && expanded != Some(skill.name)
    ensures KeyFieldShown(CardClick(expanded, skill), skill)
    ensures !KeyFieldShown(CardClick(CardClick(expanded, skill), skill), skill)
  {
  }

  /** A skill that does not need a key never shows the field, however it is clicked. */
  lemma NoKeyNoField(expanded: Option<string>, skill: SkillInfo)
    requires !skill.requiresApiKey
    ensures !KeyFieldShown(CardClick(expanded, skill), skill)
  {
  }
}
