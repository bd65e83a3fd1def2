/**
 * Channel pairing requests kept under `~/.openclaw/oauth`: a
 * `<channel>-pairing.json` file holds the pending requests of a channel and a
 * `<channel>-allowFrom.json` file the ids already allowed. Requests expire
 * an hour after creation; approving a code moves the matching request's id
 * from the first file to the second.
 *
 * File contents are given already parsed: `None` stands for a file that
 * `JSON.parse` rejects, and a timestamp that `Date` cannot parse is `None`.
 */
module PairingManager {
  import opened Wrappers
  import opened Text
  import Seqs

  /** A pending request lives for one hour. */
  const PendingTtlMs: int := 60 * 60 * 1000

  datatype PairingRequest = PairingRequest(
    id: string,
    code: string,
    createdAtMs: Option<int>,
    lastSeenAt: string)

  datatype ChannelPairingGroup = ChannelPairingGroup(channel: string, requests: seq<PairingRequest>)

  /** An unparsable creation time counts as expired; otherwise more than an hour old is expired. */
  function IsExpired(entry: PairingRequest, nowMs: int): (r: bool)
    ensures entry.createdAtMs.None? ==> r
    ensures entry.createdAtMs.Some? ==> (r <==> entry.createdAtMs.value + PendingTtlMs < nowMs)
  {
    match entry.createdAtMs
    case None => true
    case Some(created) => nowMs - created > PendingTtlMs
  }

  /** The expiry test at a moment, as a predicate value. */
  function Unexpired(nowMs: int): PairingRequest -> bool
  {
    (x: PairingRequest) => !IsExpired(x, nowMs)
  }

  /** The requests that have not expired, in their original order. */
  function Live(reqs: seq<PairingRequest>, nowMs: int): (r: seq<PairingRequest>)
    ensures |r| <= |reqs|
    ensures forall x :: x in r <==> x in reqs && !IsExpired(x, nowMs)
    ensures r == Seqs.Filter(reqs, Unexpired(nowMs))
  {
    if reqs == [] then []
    else
      var rest := Live(reqs[..|reqs| - 1], nowMs);
      var last := reqs[|reqs| - 1];
      assert reqs == reqs[..|reqs| - 1] + [last];
      if IsExpired(last, nowMs) then rest else rest + [last]
  }

  // ---------------------------------------------------------------------------
  // Listing
  // ---------------------------------------------------------------------------

  const PairingSuffix := "-pairing.json"

  /** One directory entry: its file name and its parsed `requests` (`[]` when the key is absent). */
  datatype DirFile = DirFile(name: string, content: Option<seq<PairingRequest>>)

  /** The channel a pairing file belongs to: its name without the suffix. */
  function ChannelOf(name: string): (channel: string)
    requires EndsWith(name, PairingSuffix)
    ensures channel + PairingSuffix == name
  {
    name[..|name| - |PairingSuffix|]
  }

  /** An entry whose name ends with the pairing suffix. */
  function IsPairingFile(f: DirFile): bool
  {
    EndsWith(f.name, PairingSuffix)
  }

  /** The directory entries that are pairing files, in listing order. */
  function PairingFiles(entries: seq<DirFile>): (r: seq<DirFile>)
    ensures forall f :: f in r <==> f in entries && EndsWith(f.name, PairingSuffix)
    ensures r == Seqs.Filter(entries, IsPairingFile)
  {
    if entries == [] then []
    else
      var rest := PairingFiles(entries[..|entries| - 1]);
      var last := entries[|entries| - 1];
      assert entries == entries[..|entries| - 1] + [last];
      if EndsWith(last.name, PairingSuffix) then rest + [last] else rest
  }

  /** The group one pairing file contributes: none when corrupt or when nothing is live. */
  function GroupOf(f: DirFile, nowMs: int): seq<ChannelPairingGroup>
    requires EndsWith(f.name, PairingSuffix)
  {
    match f.content
    case None => []
    case Some(reqs) =>
      var live := Live(reqs, nowMs);
      if |live| > 0 then [ChannelPairingGroup(ChannelOf(f.name), live)] else []
  }

  predicate AllPairingFiles(files: seq<DirFile>)
  {
    forall i :: 0 <= i < |files| ==> EndsWith(files[i].name, PairingSuffix)
  }

  /** The groups of a sequence of pairing files, in file order. */
  function Groups(files: seq<DirFile>, nowMs: int): seq<ChannelPairingGroup>
    requires AllPairingFiles(files)
  {
    if files == [] then []
    else Groups(files[..|files| - 1], nowMs) + GroupOf(files[|files| - 1], nowMs)
  }

  /** What `listAllChannelPairings` returns for a directory snapshot (`None`: no directory). */
  function Listing(dir: Option<seq<DirFile>>, nowMs: int): seq<ChannelPairingGroup>
  {
    match dir
    case None => []
    case Some(entries) => Groups(PairingFiles(entries), nowMs)
  }

  /** Every listed group is non-empty, holds only live requests, and comes from a pairing file. */
  lemma {:induction false} GroupsSound(files: seq<DirFile>, nowMs: int)
    requires AllPairingFiles(files)
    ensures forall g :: g in Groups(files, nowMs) ==>
      |g.requests| > 0 &&
      (forall x :: x in g.requests ==> !IsExpired(x, nowMs)) &&
      exists f :: f in files && f.name == g.channel + PairingSuffix
  {
    if files != [] {
      var init := files[..|files| - 1];
      var last := files[|files| - 1];
      GroupsSound(init, nowMs);
      forall g | g in Groups(files, nowMs)
        ensures exists f :: f in files && f.name == g.channel + PairingSuffix
      {
        if g in Groups(init, nowMs) {
          var f :| f in init && f.name == g.channel + PairingSuffix;
          assert f in files;
        } else {
          assert g in GroupOf(last, nowMs);
          assert last in files;
        }
      }
    }
  }

  /** Every pairing file with a live request is listed, with exactly its live requests. */
  lemma {:induction false} GroupsComplete(files: seq<DirFile>, nowMs: int, i: int)
    requires AllPairingFiles(files)
    requires 0 <= i < |files| && files[i].content.Some?
    requires |Live(files[i].content.value, nowMs)| > 0
    ensures ChannelPairingGroup(ChannelOf(files[i].name), Live(files[i].content.value, nowMs)) in Groups(files, nowMs)
  {
    if i < |files| - 1 {
      GroupsComplete(files[..|files| - 1], nowMs, i);
    }
  }

  /** `listAllChannelPairings`: one group per pairing file with live requests, in listing order. */
  method ListAllChannelPairings(dir: Option<seq<DirFile>>, nowMs: int) returns (result: seq<ChannelPairingGroup>)
    ensures result == Listing(dir, nowMs)
  {
    if dir.None? {
      return [];
    }
    var files := PairingFiles(dir.value);
    result := [];
    var i := 0;
    while i < |files|
      invariant 0 <= i <= |files|
      invariant result == Groups(files[..i], nowMs)
    {
      GroupsStep(files, i, nowMs);
      var group := GroupFrom(files[i], nowMs);
      result := result + group;
      i := i + 1;
    }
    assert files[..i] == files;
  }

  /** One pass of the listing loop: a corrupt file or one with nothing live adds no group. */
  method GroupFrom(file: DirFile, nowMs: int) returns (group: seq<ChannelPairingGroup>)
    requires EndsWith(file.name, PairingSuffix)
    ensures group == GroupOf(file, nowMs)
  {
    group := [];
    var channel := ChannelOf(file.name);
    if file.content.Some? {
      var requests := Live(file.content.value, nowMs);
      if |requests| > 0 {
        group := [ChannelPairingGroup(channel, requests)];
      }
    }
  }

  lemma GroupsStep(files: seq<DirFile>, i: nat, nowMs: int)
    requires i < |files| && AllPairingFiles(files)
    ensures AllPairingFiles(files[..i]) && AllPairingFiles(files[..i + 1])
    ensures Groups(files[..i + 1], nowMs) == Groups(files[..i], nowMs) + GroupOf(files[i], nowMs)
  {
    assert files[..i + 1][..i] == files[..i];
  }

  // ---------------------------------------------------------------------------
  // Approval
  // ---------------------------------------------------------------------------

  /** A request answers to an upper-cased code: same code ignoring case, and not expired. */
  predicate Answers(r: PairingRequest, key: string, nowMs: int)
  {
    Upper(r.code) == key && !IsExpired(r, nowMs)
  }

  /** `findIndex`: the first request answering to the key, or -1. */
  function MatchIndex(reqs: seq<PairingRequest>, key: string, nowMs: int): (i: int)
    ensures -1 <= i < |reqs|
    ensures i >= 0 ==> Answers(reqs[i], key, nowMs)
    ensures forall j :: 0 <= j < |reqs| && (i == -1 || j < i) ==> !Answers(reqs[j], key, nowMs)
  {
    if reqs == [] then -1
    else if Answers(reqs[0], key, nowMs) then 0
    else
      var k := MatchIndex(reqs[1..], key, nowMs);
      if k == -1 then -1 else k + 1
  }

  /** `splice(i, 1)`: the element at `i` removed. */
  function RemoveAt<T>(s: seq<T>, i: int): (r: seq<T>)
    requires 0 <= i < |s|
    ensures |r| == |s| - 1
    ensures multiset(r) + multiset{s[i]} == multiset(s)
    ensures forall j :: 0 <= j < |r| ==> r[j] == if j < i then s[j] else s[j + 1]
  {
    assert s == s[..i] + [s[i]] + s[i + 1..];
    s[..i] + s[i + 1..]
  }

  /** The allow file as stored; `AllowList(None)` is one whose `allowFrom` is not an array. */
  datatype AllowFile = Unreadable | AllowList(allowFrom: Option<seq<string>>)

  /** The ids an allow file contributes: none when it is missing, unreadable or has no array. */
  function AllowedIds(allow: map<string, AllowFile>, channel: string): seq<string>
  {
    if channel in allow && allow[channel].AllowList? && allow[channel].allowFrom.Some?
    then allow[channel].allowFrom.value
    else []
  }

  /** An id is added only when it is non-empty and not yet present. */
  predicate Adds(ids: seq<string>, id: string)
  {
    id != "" && id !in ids
  }

  predicate Distinct(ids: seq<string>)
  {
    forall i, j :: 0 <= i < j < |ids| ==> ids[i] != ids[j]
  }

  /** Approval state: the pairing files (by channel) and allow files (by channel) that exist. */
  datatype Approval = Approval(
    id: Option<string>,
    pairing: map<string, Option<seq<PairingRequest>>>,
    allow: map<string, AllowFile>)

  /** What `approvePairingCode` returns and leaves on disk. */
  function Approve(
    pairing: map<string, Option<seq<PairingRequest>>>,
    allow: map<string, AllowFile>,
    channel: string, code: string, nowMs: int): (r: Approval)
    ensures r.id.Some? && r.id.value != "" ==> r.id.value in AllowedIds(r.allow, channel)
    ensures forall ch :: ch != channel ==> (ch in r.allow <==> ch in allow) && (ch in allow ==> r.allow[ch] == allow[ch])
  {
    var key := Upper(Trim(code));
    if channel !in pairing || key == "" || pairing[channel].None? then Approval(None, pairing, allow)
    else
      var reqs := pairing[channel].value;
      var m := MatchIndex(reqs, key, nowMs);
      if m == -1 then Approval(None, pairing, allow)
      else
        var id := Trim(reqs[m].id);
        var ids := AllowedIds(allow, channel);
        var allow' := if Adds(ids, id) then allow[channel := AllowList(Some(ids + [id]))] else allow;
        Approval(Some(id), pairing[channel := Some(RemoveAt(reqs, m))], allow')
  }

  /** No approval means nothing was written. */
  lemma ApproveFailsCleanly(
    pairing: map<string, Option<seq<PairingRequest>>>, allow: map<string, AllowFile>,
    channel: string, code: string, nowMs: int)
    ensures var a := Approve(pairing, allow, channel, code, nowMs);
      a.id.None? ==> a.pairing == pairing && a.allow == allow
    ensures var a := Approve(pairing, allow, channel, code, nowMs);
      a.id.None? <==>
        (channel !in pairing || Upper(Trim(code)) == "" || pairing[channel].None? ||
         forall r :: r in pairing[channel].value ==> !Answers(r, Upper(Trim(code)), nowMs))
  {
    var key := Upper(Trim(code));
    if channel in pairing && key != "" && pairing[channel].Some? {
      var reqs := pairing[channel].value;
      var m := MatchIndex(reqs, key, nowMs);
      if m == -1 {
        forall r | r in reqs ensures !Answers(r, key, nowMs) {
          var j :| 0 <= j < |reqs| && reqs[j] == r;
        }
      }
    }
  }

  /**
   * A successful approval removes exactly one live request whose code matches
   * ignoring case, the first such; the others keep their order; the returned
   * id is that request's id trimmed; other channels' files are untouched.
   */
  lemma ApproveRemovesFirstMatch(
    pairing: map<string, Option<seq<PairingRequest>>>, allow: map<string, AllowFile>,
    channel: string, code: string, nowMs: int)
    requires Approve(pairing, allow, channel, code, nowMs).id.Some?
    ensures channel in pairing && pairing[channel].Some?
    ensures var a := Approve(pairing, allow, channel, code, nowMs);
      var reqs := pairing[channel].value;
      var key := Upper(Trim(code));
      exists m :: 0 <= m < |reqs| &&
        Answers(reqs[m], key, nowMs) &&
        (forall j :: 0 <= j < m ==> !Answers(reqs[j], key, nowMs)) &&
        a.id == Some(Trim(reqs[m].id)) &&
        a.pairing == pairing[channel := Some(reqs[..m] + reqs[m + 1..])]
    ensures var a := Approve(pairing, allow, channel, code, nowMs);
      forall c :: c != channel ==> (c in a.pairing <==> c in pairing) && (c in pairing ==> a.pairing[c] == pairing[c])
  {
    var reqs := pairing[channel].value;
    var key := Upper(Trim(code));
    var m := MatchIndex(reqs, key, nowMs);
    assert RemoveAt(reqs, m) == reqs[..m] + reqs[m + 1..];
  }

  /**
   * After approval the allow list holds the returned id (when non-empty),
   * gains nothing else, and stays free of duplicates; the file is rewritten
   * only when the id was new.
   */
  lemma ApproveAllowList(
    pairing: map<string, Option<seq<PairingRequest>>>, allow: map<string, AllowFile>,
    channel: string, code: string, nowMs: int)
    requires Approve(pairing, allow, channel, code, nowMs).id.Some?
    ensures var a := Approve(pairing, allow, channel, code, nowMs);
      var id := a.id.value;
      var before := AllowedIds(allow, channel);
      var after := AllowedIds(a.allow, channel);
      (id != "" ==> id in after) &&
      (forall x :: x in after <==> x in before || (x == id && id != "")) &&
      (Distinct(before) ==> Distinct(after)) &&
      (a.allow != allow <==> Adds(before, id)) &&
      (forall c :: c != channel ==> (c in a.allow <==> c in allow) && (c in allow ==> a.allow[c] == allow[c]))
  {
    var a := Approve(pairing, allow, channel, code, nowMs);
    var id := a.id.value;
    var before := AllowedIds(allow, channel);
    if Adds(before, id) {
      assert AllowedIds(a.allow, channel) == before + [id];
      if channel in allow {
        assert |before + [id]| != |before|;
        assert a.allow[channel] != allow[channel];
      } else {
        assert channel in a.allow;
      }
    }
  }

  /**
   * The oauth directory's pairing and allow files, by channel (a key is
   * present exactly when the file exists).
   */
  class OauthDir {
    var pairingFiles: map<string, Option<seq<PairingRequest>>>
    var allowFiles: map<string, AllowFile>

    constructor(pairing: map<string, Option<seq<PairingRequest>>>, allow: map<string, AllowFile>)
      ensures pairingFiles == pairing && allowFiles == allow
    {
      pairingFiles := pairing;
      allowFiles := allow;
    }

    /** `approvePairingCode`: the trimmed id of the approved request, or `None`. */
    method ApprovePairingCode(channel: string, code: string, nowMs: int) returns (approved: Option<string>)
      modifies this
      ensures Approve(old(pairingFiles), old(allowFiles), channel, code, nowMs)
        == Approval(approved, pairingFiles, allowFiles)
    {
      if channel !in pairingFiles {
        return None;
      }
      var trimmedCode := Upper(Trim(code));
      if trimmedCode == "" {
        return None;
      }
      if pairingFiles[channel].None? {
        return None;
      }
      var requests := pairingFiles[channel].value;
      var matchIdx := MatchIndex(requests, trimmedCode, nowMs);
      if matchIdx == -1 {
        return None;
      }
      var matched := requests[matchIdx];
      requests := RemoveAt(requests, matchIdx);
      pairingFiles := pairingFiles[channel := Some(requests)];

      var allowFrom := AllowedIds(allowFiles, channel);
      var normalizedId := Trim(matched.id);
      if normalizedId != "" && normalizedId !in allowFrom {
        allowFrom := allowFrom + [normalizedId];
        allowFiles := allowFiles[channel := AllowList(Some(allowFrom))];
      }
      return Some(normalizedId);
    }
  }
}
