/**
 * The application updater: comparing release versions, the candidate
 * download URLs and their order, choosing the installer asset of the latest
 * GitHub release, and the byte accounting of a resumable download (HTTP
 * range requests, RFC 9110 sections 14.2 and 15.3.7).
 *
 * The HTTP exchanges themselves are inputs: the winning response of the
 * mirror race (or none when every mirror failed) and the body chunks.
 */
module UpdateChecker {
  import opened Wrappers
  import opened Text
  import opened Json

  // ---------------------------------------------------------------------------
  // Version comparison
  // ---------------------------------------------------------------------------

  /** `v.replace(/^v/, '')`. */
  function StripV(v: string): (r: string)
    ensures r == v || (|v| > 0 && v[0] == 'v' && r == v[1..])
  {
    if |v| > 0 && v[0] == 'v' then v[1..] else v
  }

  /**
   * `Number(s)` on a version component: surrounding whitespace is ignored,
   * the empty string is 0, an optionally signed run of decimal digits is its
   * value. Every other string is `None`, which stands for NaN; the forms
   * `Number` also reads as numbers (`0x1f`, `1e3`, `Infinity`) are among them.
   */
  function NumberOf(s: string): Option<int>
  {
    var t := Trim(s);
    if t == "" then Some(0)
    else if AllDigits(t) then Some(DigitsValue(t))
    else if |t| > 1 && (t[0] == '-' || t[0] == '+') && AllDigits(t[1..]) then
      var v: int := DigitsValue(t[1..]);
      Some(if t[0] == '-' then -v else v)
    else None
  }

  /** A plain digit string converts to its decimal value. */
  lemma NumberOfDigits(s: string)
    requires s != [] && AllDigits(s)
    ensures NumberOf(s) == Some(DigitsValue(s))
  {
    assert !IsSpace(s[0]);
    assert TrimStart(s) == s;
    assert !IsSpace(s[|s| - 1]);
  }

  /** The `i`-th numeric component of a version; a missing one counts as 0. */
  function Component(v: string, i: nat): Option<int>
  {
    var parts := Split(StripV(v), '.');
    if i < |parts| then NumberOf(parts[i]) else Some(0)
  }

  /** `x > y` on numbers: false whenever either side is NaN. */
  predicate Greater(x: Option<int>, y: Option<int>)
  {
    x.Some? && y.Some? && x.value > y.value
  }

  /** Comparison from component `i` on: the first component that differs decides. */
  predicate NewerFrom(remote: string, local: string, i: nat)
    decreases 3 - i
  {
    i < 3 &&
    (Greater(Component(remote, i), Component(local, i)) ||
     (!Greater(Component(local, i), Component(remote, i)) && NewerFrom(remote, local, i + 1)))
  }

  /** `remote` is a newer release than `local`. */
  predicate Newer(remote: string, local: string)
  {
    NewerFrom(remote, local, 0)
  }

  /** `isNewer`: compares the first three components in order and stops at the first difference. */
  method IsNewer(remote: string, local: string) returns (newer: bool)
    ensures newer == Newer(remote, local)
  {
    var i := 0;
    while i < 3
      invariant 0 <= i <= 3
      invariant Newer(remote, local) == NewerFrom(remote, local, i)
    {
      var r := Component(remote, i);
      var l := Component(local, i);
      if Greater(r, l) {
        return true;
      }
      if Greater(l, r) {
        return false;
      }
      i := i + 1;
    }
    return false;
  }

  /** No version is newer than itself. */
  lemma {:induction false} NotNewerThanItself(v: string, i: nat)
    decreases 3 - i
    ensures !NewerFrom(v, v, i)
  {
    if i < 3 {
      NotNewerThanItself(v, i + 1);
    }
  }

  /** Two versions are never each newer than the other. */
  lemma {:induction false} NewerAsymmetric(a: string, b: string, i: nat)
    decreases 3 - i
    ensures !(NewerFrom(a, b, i) && NewerFrom(b, a, i))
  {
    if i < 3 {
      NewerAsymmetric(a, b, i + 1);
    }
  }

  /** Versions agreeing on their first three components compare alike against anything. */
  lemma {:induction false} OnlyThreeComponentsCount(a: string, a': string, b: string, i: nat)
    requires forall k :: 0 <= k < 3 ==> Component(a, k) == Component(a', k)
    decreases 3 - i
    ensures NewerFrom(a, b, i) == NewerFrom(a', b, i)
    ensures NewerFrom(b, a, i) == NewerFrom(b, a', i)
  {
    if i < 3 {
      OnlyThreeComponentsCount(a, a', b, i + 1);
    }
  }

  /**
   * A leading `v` and a missing trailing component change nothing: `a.b` and
   * `va.b.0` are not newer than each other.
   */
  lemma PrefixAndPaddingIgnored(a: string, b: string)
    requires a != [] && AllDigits(a) && b != [] && AllDigits(b)
    ensures !Newer(a + "." + b, "v" + a + "." + b + ".0") && !Newer("v" + a + "." + b + ".0", a + "." + b)
  {
    var short := a + "." + b;
    var long := "v" + a + "." + b + ".0";
    DigitsHaveNoDot(a);
    DigitsHaveNoDot(b);
    assert short == a + ['.'] + b;
    SplitAfterPart(a, b, '.');
    SplitWhole(b, '.');
    assert StripV(long) == a + ['.'] + (b + ['.'] + "0");
    SplitAfterPart(a, b + ['.'] + "0", '.');
    SplitAfterPart(b, "0", '.');
    SplitWhole("0", '.');
    assert Split(StripV(short), '.') == [a, b];
    assert Split(StripV(long), '.') == [a, b, "0"];
    NumberOfDigits("0");
    assert Component(short, 2) == Component(long, 2);
    OnlyThreeComponentsCount(short, long, short, 0);
    NotNewerThanItself(short, 0);
  }

  lemma DigitsHaveNoDot(s: string)
    requires AllDigits(s)
    ensures '.' !in s
  {
  }

  // ---------------------------------------------------------------------------
  // Mirrors
  // ---------------------------------------------------------------------------

  /** Built-in GitHub mirror prefixes, tried in this order. */
  const BuiltinMirrors: seq<string> := ["https://mirror.ghproxy.com/", "https://ghgo.xyz/", "https://gh.llkk.cc/"]

  /**
   * `getCustomMirror`: the configured `updateMirrorUrl`, trimmed, when it is a
   * string that is not blank; `config` is `None` when the file is missing or
   * unparsable.
   */
  function CustomMirror(config: Option<Json>): (r: Option<string>)
    ensures r.Some? ==> r.value != "" && !IsSpace(r.value[0]) && !IsSpace(r.value[|r.value| - 1])
    ensures r.Some? <==>
      config.Some? && Get(config.value, "updateMirrorUrl").Some? &&
      Get(config.value, "updateMirrorUrl").value.JStr? &&
      !AllSpace(Get(config.value, "updateMirrorUrl").value.s)
  {
    var url := if config.Some? then Get(config.value, "updateMirrorUrl") else None;
    if url.Some? && url.value.JStr? then
      TrimEmptyIffAllSpace(url.value.s);
      var trimmed := Trim(url.value.s);
      if trimmed != "" then Some(trimmed) else None
    else None
  }

  /** A mirror prefix always ends in `/`. */
  function WithSlash(prefix: string): (r: string)
    ensures EndsWith(r, "/")
    ensures r == prefix || r == prefix + "/"
  {
    if EndsWith(prefix, "/") then prefix else prefix + "/"
  }

  /** URLs that the built-in mirrors can proxy. */
  predicate OnGitHub(url: string)
  {
    Contains(url, "github.com") || Contains(url, "api.github.com")
  }

  /** Each prefix in turn with the URL appended. */
  function Prefixed(prefixes: seq<string>, url: string): (r: seq<string>)
    ensures |r| == |prefixes|
    ensures forall k :: 0 <= k < |prefixes| ==> r[k] == prefixes[k] + url
  {
    if |prefixes| == 0 then [] else Prefixed(prefixes[..|prefixes| - 1], url) + [prefixes[|prefixes| - 1] + url]
  }

  /** The candidate URLs for a download: the custom mirror, the built-in mirrors for GitHub URLs, the direct URL. */
  function MirrorUrls(directUrl: string, custom: Option<string>): seq<string>
  {
    (if custom.Some? then [WithSlash(custom.value) + directUrl] else []) +
    (if OnGitHub(directUrl) then Prefixed(BuiltinMirrors, directUrl) else []) +
    [directUrl]
  }

  /** The custom mirror comes first, then the three built-in mirrors for GitHub URLs, and the direct URL last; each URL ends with the direct one. */
  lemma MirrorUrlsLayout(directUrl: string, custom: Option<string>)
    ensures var urls := MirrorUrls(directUrl, custom);
      var skip := if custom.Some? then 1 else 0;
      |urls| == skip + (if OnGitHub(directUrl) then |BuiltinMirrors| else 0) + 1 &&
      (custom.Some? ==> urls[0] == WithSlash(custom.value) + directUrl) &&
      (OnGitHub(directUrl) ==> forall k :: 0 <= k < |BuiltinMirrors| ==> urls[skip + k] == BuiltinMirrors[k] + directUrl) &&
      urls[|urls| - 1] == directUrl
    ensures forall k :: 0 <= k < |MirrorUrls(directUrl, custom)| ==> EndsWith(MirrorUrls(directUrl, custom)[k], directUrl)
  {
    var first := if custom.Some? then [WithSlash(custom.value)] else [];
    var middle := if OnGitHub(directUrl) then BuiltinMirrors else [];
    var prefixes := first + middle + [""];
    var urls := MirrorUrls(directUrl, custom);
    assert |urls| == |prefixes|;
    forall k | 0 <= k < |urls|
      ensures urls[k] == prefixes[k] + directUrl
    {
      if k == |urls| - 1 {
        assert "" + directUrl == directUrl;
      }
    }
    AllEndWith(urls, prefixes, directUrl);
  }

  /** Strings built by appending one suffix to each of some prefixes all end with it. */
  lemma AllEndWith(urls: seq<string>, prefixes: seq<string>, s: string)
    requires |urls| == |prefixes|
    requires forall k :: 0 <= k < |urls| ==> urls[k] == prefixes[k] + s
    ensures forall k :: 0 <= k < |urls| ==> EndsWith(urls[k], s)
  {
    forall k | 0 <= k < |urls|
      ensures EndsWith(urls[k], s)
    {
      EndsWithAfter(prefixes[k], s);
    }
  }

  /**
   * `buildMirrorUrls`: the custom mirror first, then the built-in mirrors for
   * GitHub URLs, then the direct URL, always last.
   */
  method BuildMirrorUrls(directUrl: string, config: Option<Json>) returns (urls: seq<string>)
    ensures urls == MirrorUrls(directUrl, CustomMirror(config))
  {
    urls := [];
    var custom := CustomMirror(config);
    if custom.Some? {
      var prefix := WithSlash(custom.value);
      urls := urls + [prefix + directUrl];
    }
    if OnGitHub(directUrl) {
      urls := PushEach(urls, BuiltinMirrors, directUrl);
    }
    urls := urls + [directUrl];
  }

  /** `for (const mirror of mirrors) urls.push(mirror + url)`. */
  method PushEach(urls: seq<string>, prefixes: seq<string>, url: string) returns (r: seq<string>)
    ensures r == urls + Prefixed(prefixes, url)
  {
    r := urls;
    var k := 0;
    while k < |prefixes|
      invariant 0 <= k <= |prefixes|
      invariant r == urls + Prefixed(prefixes[..k], url)
    {
      assert prefixes[..k + 1][..k] == prefixes[..k];
      r := r + [prefixes[k] + url];
      k := k + 1;
    }
    assert prefixes[..k] == prefixes;
  }

  /** A string ends with whatever was appended to it. */
  lemma EndsWithAfter(prefix: string, s: string)
    ensures EndsWith(prefix + s, s)
  {
    assert (prefix + s)[|prefix|..] == s;
  }

  // ---------------------------------------------------------------------------
  // Release selection
  // ---------------------------------------------------------------------------

  datatype Asset = Asset(name: string, browserDownloadUrl: Option<string>)

  /** The fields of the latest-release response that are used; absent ones are `None`. */
  datatype Release = Release(tagName: Option<string>, body: Option<string>, assets: Option<seq<Asset>>)

  datatype UpdateInfo = UpdateInfo(version: string, releaseNotes: string, downloadUrl: string, fileName: string)

  /** The first asset whose name ends in `.exe`, or -1. */
  function FirstInstaller(assets: seq<Asset>): (i: int)
    ensures -1 <= i < |assets|
    ensures i >= 0 ==> EndsWith(assets[i].name, ".exe")
    ensures forall j :: 0 <= j < |assets| && (i == -1 || j < i) ==> !EndsWith(assets[j].name, ".exe")
  {
    if assets == [] then -1
    else if EndsWith(assets[0].name, ".exe") then 0
    else
      var k := FirstInstaller(assets[1..]);
      if k == -1 then -1 else k + 1
  }

  predicate IsSeparator(c: char)
  {
    c == '/' || c == '\\'
  }

  /** `path.basename` on Windows: what follows the last `/` or `\`. */
  function Basename(p: string): (r: string)
    ensures EndsWith(p, r)
    ensures forall k :: 0 <= k < |r| ==> !IsSeparator(r[k])
    ensures |r| < |p| ==> IsSeparator(p[|p| - |r| - 1])
  {
    if p == [] || IsSeparator(p[|p| - 1]) then []
    else
      var r := Basename(p[..|p| - 1]) + [p[|p| - 1]];
      assert p[..|p| - 1][|p| - |r|..] + [p[|p| - 1]] == p[|p| - |r|..];
      r
  }

  /** A name ending in `.exe` keeps that ending under `basename`. */
  lemma BasenameKeepsExe(p: string)
    requires EndsWith(p, ".exe")
    ensures EndsWith(Basename(p), ".exe")
  {
    var r := Basename(p);
    assert |r| >= 4;
    assert r[|r| - 4..] == p[|p| - 4..];
  }

  /** The first `.exe` asset of a release, provided it has a download URL. */
  function ChosenAsset(release: Release): (a: Option<Asset>)
    ensures a.Some? ==>
      var assets := release.assets.GetOr([]);
      0 <= FirstInstaller(assets) && a.value == assets[FirstInstaller(assets)] &&
      EndsWith(a.value.name, ".exe") && Filled(a.value.browserDownloadUrl)
  {
    var assets := release.assets.GetOr([]);
    var i := FirstInstaller(assets);
    if i == -1 || !Filled(assets[i].browserDownloadUrl) then None else Some(assets[i])
  }

  /**
   * `checkForUpdate` once the release JSON is in hand: nothing for an empty or
   * not-newer tag; otherwise the first `.exe` asset, which must have a
   * download URL, under its base name.
   */
  function SelectUpdate(currentVersion: string, release: Release): (r: Option<UpdateInfo>)
    ensures r.Some? ==>
      var tag := release.tagName.GetOr("");
      var asset := ChosenAsset(release);
      tag != "" && Newer(tag, currentVersion) && r.value.version == StripV(tag) &&
      asset.Some? && Some(r.value.downloadUrl) == asset.value.browserDownloadUrl && r.value.downloadUrl != "" &&
      r.value.fileName == Basename(asset.value.name) && EndsWith(r.value.fileName, ".exe") &&
      (forall k :: 0 <= k < |r.value.fileName| ==> !IsSeparator(r.value.fileName[k]))
    ensures r.None? <==>
      var tag := release.tagName.GetOr("");
      tag == "" || !Newer(tag, currentVersion) || ChosenAsset(release).None?
  {
    var tag := release.tagName.GetOr("");
    if tag == "" || !Newer(tag, currentVersion) then None
    else
      match ChosenAsset(release)
      case None => None
      case Some(asset) =>
        var safeName := Basename(asset.name);
        BasenameKeepsExe(asset.name);
        if !EndsWith(safeName, ".exe") then None
        else Some(UpdateInfo(StripV(tag), release.body.GetOr(""), asset.browserDownloadUrl.value, safeName))
  }

  // ---------------------------------------------------------------------------
  // Resumable download
  // ---------------------------------------------------------------------------

  /** The winning response of a mirror race: status 206 when `partial`, else 200. */
  datatype Response = Response(partial: bool, contentLength: Option<string>)

  /** How a download proceeds once a response has won. */
  datatype DownloadPlan = DownloadPlan(
    firstRange: Option<string>,
    retried: bool,
    resumed: bool,
    startBytes: nat,
    totalBytes: Option<int>)

  /** The `Range` header asking for everything from byte `n` on. */
  function RangeFrom(n: nat): string
  {
    "bytes=" + NatToString(n) + "-"
  }

  /**
   * `downloadUpdate` up to the first body byte. `existingBytes` is the size of
   * a partial file already on disk (0 when there is none); `first` answers
   * the race made with a `Range` header when that size is positive, `retry`
   * the race made from scratch after a failed ranged race.
   */
  function PlanDownload(existingBytes: nat, first: Option<Response>, retry: Option<Response>): (r: Result<DownloadPlan, string>)
    ensures r.Ok? ==> (r.value.firstRange.Some? <==> existingBytes > 0)
    ensures r.Ok? && existingBytes > 0 ==> r.value.firstRange == Some(RangeFrom(existingBytes))
    ensures r.Err? <==> first.None? && (existingBytes == 0 || retry.None?)
    ensures r.Ok? ==>
      var res := if first.Some? then first.value else retry.value;
      r.value.retried == first.None? &&
      (r.value.resumed <==> res.partial) &&
      r.value.startBytes == (if r.value.resumed && !r.value.retried then existingBytes else 0) &&
      r.value.totalBytes ==
        (match ParseInt(res.contentLength.GetOr("0"))
         case None => None
         case Some(n) => Some(r.value.startBytes + n))
  {
    var range := if existingBytes > 0 then Some(RangeFrom(existingBytes)) else None;
    var (res, start, retried) :=
      if first.Some? then (first, existingBytes, false)
      else if existingBytes > 0 then (retry, 0, true)
      else (None, existingBytes, false);
    if res.None? then Err("all download sources failed")
    else
      var isResume := res.value.partial;
      var existing := if isResume then start else 0;
      var total :=
        match ParseInt(res.value.contentLength.GetOr("0"))
        case None => None
        case Some(n) => Some(existing + n);
      Ok(DownloadPlan(range, retried, isResume, existing, total))
  }

  /** One progress report: bytes of the file so far, and the expected total (`None`: NaN). */
  datatype Progress = Progress(transferredBytes: int, totalBytes: Option<int>)

  function Sum(chunks: seq<nat>): nat
  {
    if chunks == [] then 0 else Sum(chunks[..|chunks| - 1]) + chunks[|chunks| - 1]
  }

  /**
   * The progress reports of a download, one per received chunk: the count
   * starts at the bytes kept and grows by each chunk's length.
   */
  method TrackProgress(plan: DownloadPlan, chunks: seq<nat>) returns (reports: seq<Progress>)
    ensures |reports| == |chunks|
    ensures forall i :: 0 <= i < |chunks| ==>
      reports[i] == Progress(plan.startBytes + Sum(chunks[..i + 1]), plan.totalBytes)
    ensures forall i, j :: 0 <= i <= j < |chunks| ==> reports[i].transferredBytes <= reports[j].transferredBytes
  {
    var transferredBytes := plan.startBytes;
    reports := [];
    var i := 0;
    while i < |chunks|
      invariant 0 <= i <= |chunks|
      invariant |reports| == i
      invariant transferredBytes == plan.startBytes + Sum(chunks[..i])
      invariant forall k :: 0 <= k < i ==> reports[k] == Progress(plan.startBytes + Sum(chunks[..k + 1]), plan.totalBytes)
      invariant forall k, j :: 0 <= k <= j < i ==> reports[k].transferredBytes <= reports[j].transferredBytes
      invariant forall k :: 0 <= k < i ==> reports[k].transferredBytes <= transferredBytes
    {
      assert chunks[..i + 1][..i] == chunks[..i];
      transferredBytes := transferredBytes + chunks[i];
      reports := reports + [Progress(transferredBytes, plan.totalBytes)];
      i := i + 1;
    }
  }

  /** When the server honours the range, the total is the kept bytes plus the announced rest. */
  lemma ResumedTotal(existingBytes: nat, res: Response, contentLength: nat)
    requires existingBytes > 0 && res.partial
    requires res.contentLength == Some(NatToString(contentLength))
    ensures PlanDownload(existingBytes, Some(res), None)
      == Ok(DownloadPlan(Some(RangeFrom(existingBytes)), false, true, existingBytes, Some(existingBytes + contentLength)))
  {
    var digits := NatToString(contentLength);
    ParseIntDigits(digits);
    assert ParseInt(res.contentLength.GetOr("0")) == Some(contentLength);
    var r := PlanDownload(existingBytes, Some(res), None);
    assert r.Ok? && r.value.resumed && !r.value.retried;
    assert r.value.startBytes == existingBytes;
  }
}
