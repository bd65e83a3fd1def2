/**
 * The channel settings page: which messaging channels are switched on (a
 * channel is on exactly when the configuration map has an entry for it),
 * and the dialog that collects a channel's fields before switching it on.
 */
module ChannelSettings {
  import opened Wrappers

  type Fields = map<string, string>

  /** A channel the page offers: its id, how many fields it asks for, and whether it is unavailable on this platform. */
  datatype ChannelDef = ChannelDef(id: string, fieldCount: nat, disabled: bool)

  /** The page's state: the configuration map, the channel whose dialog is open, the dialog's fields, and whether a status line shows. */
  datatype Page = Page(configs: map<string, Fields>, editing: Option<string>, dialogFields: Fields, statusShown: bool)

  /** `isEnabled`: the channel has an entry. */
  function IsEnabled(p: Page, id: string): (r: bool)
    ensures r <==> id in p.configs.Keys
    ensures !r ==> Existing(p.configs, id) == map[]
  {
    id in p.configs
  }

  /** `configs[id] ?? {}`: the channel's entry, or no fields. */
  function Existing(configs: map<string, Fields>, id: string): (f: Fields)
    ensures id in configs ==> f == configs[id]
    ensures id !in configs ==> f == map[]
  {
    if id in configs then configs[id] else map[]
  }

  /**
   * `handleCardClick`: an unavailable channel ignores the click; an enabled
   * one is switched off; a channel with fields opens its dialog; one
   * without fields is switched on with no settings.
   */
  function CardClick(p: Page, ch: ChannelDef): (r: Page)
    ensures ch.disabled ==> r == p
    ensures !ch.disabled ==> !r.statusShown
    ensures !ch.disabled && IsEnabled(p, ch.id) ==>
      r.configs == p.configs - {ch.id} && r.editing == p.editing && r.dialogFields == p.dialogFields
    ensures !ch.disabled && !IsEnabled(p, ch.id) && ch.fieldCount > 0 ==>
      r.configs == p.configs && r.editing == Some(ch.id) && r.dialogFields == Existing(p.configs, ch.id)
    ensures !ch.disabled && !IsEnabled(p, ch.id) && ch.fieldCount == 0 ==>
      r.configs == p.configs[ch.id := map[]] && r.editing == p.editing && r.dialogFields == p.dialogFields
  {
    if ch.disabled then p
    else if ch.id in p.configs then p.(configs := p.configs - {ch.id}, statusShown := false)
    else if ch.fieldCount > 0 then
      p.(dialogFields := Existing(p.configs, ch.id), editing := Some(ch.id), statusShown := false)
    else p.(configs := p.configs[ch.id := map[]], statusShown := false)
  }

  /** Switching a channel off keeps every other channel's entry as it was. */
  lemma SwitchOffOnlyThatChannel(p: Page, ch: ChannelDef, other: string)
    requires !ch.disabled && IsEnabled(p, ch.id) && other != ch.id
    ensures !IsEnabled(CardClick(p, ch), ch.id)
    ensures IsEnabled(CardClick(p, ch), other) <==> IsEnabled(p, other)
    ensures other in p.configs ==> CardClick(p, ch).configs[other] == p.configs[other]
  {
  }

  /** The dialog only opens for a channel that has no entry, so it always opens empty. */
  lemma DialogOpensEmpty(p: Page, ch: ChannelDef)
    requires !ch.disabled && !IsEnabled(p, ch.id) && ch.fieldCount > 0
    ensures CardClick(p, ch).dialogFields == map[]
  {
  }

  /** `handleDialogSave`: the dialog's fields become the edited channel's entry and the dialog closes; without an edited channel nothing happens. */
  function DialogSave(p: Page): (r: Page)
    ensures (p.editing.None? || p.editing == Some("")) ==> r == p
    ensures p.editing.Some? && p.editing.value != "" ==>
      r.configs == p.configs[p.editing.value := p.dialogFields] && r.editing.None? && r.dialogFields == map[]
    ensures r.statusShown == p.statusShown
  {
    if p.editing.None? || p.editing.value == "" then p
    else p.(configs := p.configs[p.editing.value := p.dialogFields], editing := None, dialogFields := map[])
  }

  /** `handleDialogCancel`: the dialog closes and the map is untouched. */
  function DialogCancel(p: Page): (r: Page)
    ensures r.configs == p.configs && r.editing.None? && r.dialogFields == map[] && r.statusShown == p.statusShown
  {
    p.(editing := None, dialogFields := map[])
  }

  /** Typing into the dialog. */
  function SetDialogField(p: Page, key: string, value: string): (r: Page)
    ensures r.dialogFields == p.dialogFields[key := value] && r.configs == p.configs && r.editing == p.editing
  {
    p.(dialogFields := p.dialogFields[key := value])
  }

  /** The edit button of an enabled channel: the dialog opens on the channel's saved fields; the status line stays. */
  function EditClick(p: Page, id: string): (r: Page)
    ensures r.configs == p.configs && r.editing == Some(id) && r.dialogFields == Existing(p.configs, id)
    ensures r.statusShown == p.statusShown
  {
    p.(dialogFields := Existing(p.configs, id), editing := Some(id))
  }

  /** Editing an enabled channel and confirming without typing keeps every entry as it was. */
  lemma EditConfirmKeeps(p: Page, id: string)
    requires IsEnabled(p, id) && id != ""
    ensures DialogSave(EditClick(p, id)).configs == p.configs
  {
  }

  /** Editing a channel's saved field replaces that field alone and keeps the channel on. */
  lemma EditOneField(p: Page, id: string, key: string, value: string)
    requires IsEnabled(p, id) && id != ""
    ensures var r := DialogSave(SetDialogField(EditClick(p, id), key, value));
      IsEnabled(r, id) && r.configs[id] == p.configs[id][key := value] &&
      forall other :: other in p.configs && other != id ==> other in r.configs && r.configs[other] == p.configs[other]
  {
  }

  /** Opening a channel's dialog, filling it, and confirming switches the channel on with exactly the typed fields. */
  lemma OpenFillConfirm(p: Page, ch: ChannelDef, key: string, value: string)
    requires !ch.disabled && !IsEnabled(p, ch.id) && ch.fieldCount > 0 && ch.id != ""
    ensures var r := DialogSave(SetDialogField(CardClick(p, ch), key, value));
      r.configs == p.configs[ch.id := map[key := value]] && r.editing.None?
  {
  }

  /** Opening a channel's dialog and cancelling leaves the channel off and every entry as it was. */
  lemma OpenCancel(p: Page, ch: ChannelDef, key: string, value: string)
    requires !ch.disabled && !IsEnabled(p, ch.id) && ch.fieldCount > 0
    ensures var r := DialogCancel(SetDialogField(CardClick(p, ch), key, value));
      r.configs == p.configs && !IsEnabled(r, ch.id)
  {
  }

  /** Clicking a channel without fields twice switches it on and off again. */
  lemma ClickTwiceRestores(p: Page, ch: ChannelDef)
    requires !ch.disabled && !IsEnabled(p, ch.id) && ch.fieldCount == 0
    ensures IsEnabled(CardClick(p, ch), ch.id)
    ensures CardClick(CardClick(p, ch), ch).configs == p.configs
  {
    assert p.configs[ch.id := map[]] - {ch.id} == p.configs;
  }

  datatype SaveOutcome = Answered(ok: bool, error: Option<string>) | Threw

  /** `handleSave`'s status line, and whether the page reports the save to its owner. */
  function SaveStatus(outcome: SaveOutcome): (r: (bool, string, bool))
    ensures r.0 <==> outcome.Answered? && outcome.ok
    ensures r.2 == r.0
    ensures outcome.Answered? && !outcome.ok ==> r.1 == outcome.error.GetOr("保存失败")
  {
    match outcome
    case Answered(ok, error) => if ok then (true, "渠道配置已保存", true) else (false, error.GetOr("保存失败"), false)
    case Threw => (false, "保存渠道配置时出错", false)
  }
}
