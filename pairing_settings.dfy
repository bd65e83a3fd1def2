/**
 * The pairing settings page: how old a request looks, how many requests
 * wait in all, and the manual form that approves a typed pairing code for
 * a chosen channel.
 */
module PairingSettings {
  import opened Wrappers
  import Text
  import PairingManager

  const MinuteMs := 60000
  const HourMs := 3600000

  /**
   * `timeAgo`, given the milliseconds elapsed since the request was made:
   * under a minute (a request from the future included) "just now", under
   * an hour whole minutes, otherwise whole hours.
   */
  function TimeAgo(elapsedMs: int): (r: string)
    ensures elapsedMs < MinuteMs ==> r == "刚刚"
    ensures MinuteMs <= elapsedMs < HourMs ==> r == Text.NatToString(elapsedMs / MinuteMs) + " 分钟前"
    ensures HourMs <= elapsedMs ==> r == Text.NatToString(elapsedMs / HourMs) + " 小时前"
  {
    if elapsedMs < MinuteMs then "刚刚"
    else if elapsedMs < HourMs then Text.NatToString(elapsedMs / MinuteMs) + " 分钟前"
    else Text.NatToString(elapsedMs / HourMs) + " 小时前"
  }

  /** The minutes shown run from 1 to 59 and the hours from 1 up: a label never reads "0 minutes" or "60 minutes". */
  lemma TimeAgoCounts(elapsedMs: int)
    ensures MinuteMs <= elapsedMs < HourMs ==> 1 <= elapsedMs / MinuteMs <= 59
    ensures HourMs <= elapsedMs ==> elapsedMs / HourMs >= 1 && elapsedMs / HourMs * HourMs <= elapsedMs < (elapsedMs / HourMs + 1) * HourMs
  {
  }

  /** `totalRequests`: the requests of all groups, counted. */
  function TotalRequests(groups: seq<PairingManager.ChannelPairingGroup>): (n: nat)
    ensures |groups| == 0 ==> n == 0
  {
    if |groups| == 0 then 0 else TotalRequests(groups[..|groups| - 1]) + |groups[|groups| - 1].requests|
  }

  /** The count over two runs of groups is the sum of their counts; one group counts its own requests. */
  lemma {:induction false} TotalRequestsAppend(a: seq<PairingManager.ChannelPairingGroup>, b: seq<PairingManager.ChannelPairingGroup>)
    ensures TotalRequests(a + b) == TotalRequests(a) + TotalRequests(b)
    decreases |b|
  {
    if |b| == 0 {
      assert a + b == a;
    } else {
      TotalRequestsAppend(a, b[..|b| - 1]);
      assert (a + b)[..|a + b| - 1] == a + b[..|b| - 1];
    }
  }

  /** The total is zero exactly when no group holds a request. */
  lemma {:induction false} TotalRequestsZero(groups: seq<PairingManager.ChannelPairingGroup>)
    ensures TotalRequests(groups) == 0 <==> forall i :: 0 <= i < |groups| ==> |groups[i].requests| == 0
  {
    if |groups| > 0 {
      TotalRequestsZero(groups[..|groups| - 1]);
    }
  }

  /** The code field upper-cases what is typed. */
  function TypeCode(typed: string): (code: string)
    ensures |code| == |typed|
    ensures forall i :: 0 <= i < |typed| && 'a' <= typed[i] <= 'z' ==>
      'A' <= code[i] <= 'Z' && code[i] as int - 'A' as int == typed[i] as int - 'a' as int
    ensures forall i :: 0 <= i < |typed| && !('a' <= typed[i] <= 'z') ==> code[i] == typed[i]
    ensures forall i :: 0 <= i < |code| ==> !('a' <= code[i] <= 'z')
  {
    Text.Upper(typed)
  }

  /** After loading, the channel choice falls to the first channel only when none was chosen. */
  function ChannelAfterLoad(manualChannel: string, channels: seq<string>): (c: string)
    ensures manualChannel != "" ==> c == manualChannel
    ensures manualChannel == "" && |channels| > 0 ==> c == channels[0]
    ensures manualChannel == "" && |channels| == 0 ==> c == ""
  {
    if manualChannel == "" && |channels| > 0 then channels[0] else manualChannel
  }

  /** The key marking the approval in progress: `channel:code`. */
  function ApprovingKey(channel: string, code: string): (k: string)
    ensures |k| == |channel| + 1 + |code| && k[|channel|] == ':'
    ensures k[..|channel|] == channel && k[|channel| + 1..] == code
  {
    channel + ":" + code
  }

  /** A channel name without ':' can be read back from the key. */
  lemma ApprovingKeyChannel(channel: string, code: string)
    requires ':' !in channel
    ensures Text.IndexOf(ApprovingKey(channel, code), ":") == |channel|
  {
    var k := ApprovingKey(channel, code);
    assert Text.OccursAt(k, ":", |channel|);
    forall j | 0 <= j < |channel|
      ensures !Text.OccursAt(k, ":", j)
    {
      assert k[j] == channel[j];
    }
  }

  /**
   * `handleManualApprove`: nothing happens when the trimmed code is blank or
   * no channel is chosen; otherwise the trimmed code is approved for the
   * channel and the field is cleared.
   */
  function ManualApprove(manualCode: string, manualChannel: string): (r: (Option<(string, string)>, string))
    ensures r.0.None? <==> Text.Trim(manualCode) == "" || manualChannel == ""
    ensures r.0.Some? ==> r.0.value == (manualChannel, Text.Trim(manualCode)) && r.1 == ""
    ensures r.0.None? ==> r.1 == manualCode
  {
    if Text.Trim(manualCode) == "" || manualChannel == "" then (None, manualCode)
    else (Some((manualChannel, Text.Trim(manualCode))), "")
  }

  /** A code of only spaces is never sent. */
  lemma BlankCodeNotSent(manualCode: string, manualChannel: string)
    requires Text.AllSpace(manualCode)
    ensures ManualApprove(manualCode, manualChannel).0.None?
  {
    Text.TrimEmptyIffAllSpace(manualCode);
  }

  /** The approve button is disabled exactly when the manual approval would do nothing, or an approval is in progress. */
  predicate ApproveDisabled(manualCode: string, manualChannel: string, approving: Option<string>)
  {
    Text.Trim(manualCode) == "" || manualChannel == "" || approving.Some?
  }

  lemma EnabledButtonSends(manualCode: string, manualChannel: string, approving: Option<string>)
    requires !ApproveDisabled(manualCode, manualChannel, approving)
    ensures ManualApprove(manualCode, manualChannel).0.Some?
  {
  }

  /** The status line of an approval: the approved id, no match, or a failure. */
  datatype ApproveOutcome = Approved(id: string) | NoMatch | Failed

  function ApproveStatus(outcome: ApproveOutcome): (r: (bool, string))
    ensures r.0 <==> outcome.Approved?
    ensures outcome.Approved? ==> r.1 == "已批准 " + outcome.id
  {
    match outcome
    case Approved(id) => (true, "已批准 " + id)
    case NoMatch => (false, "未找到匹配的配对请求，可能已过期")
    case Failed => (false, "批准失败")
  }
}
