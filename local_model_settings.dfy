/**
 * The local-model settings page: which recommended models are installed
 * and which one is in use, whether the machine has memory enough for a
 * model, the progress events of downloads and of the Ollama install, and
 * when a model's download button is shown and enabled. Every recommended
 * model is listed; one the machine lacks memory for is shown with a warning.
 */
module LocalModelSettings {
  import opened Wrappers
  import Text

  /** A recommended model: its Ollama id and the memory it needs, in bytes. */
  datatype Recommended = Recommended(id: string, minMemoryBytes: nat)

  const GiB: nat := 1_073_741_824

  /** The recommended catalogue, in display order. */
  const RecommendedModels: seq<Recommended> := [
    Recommended("qwen3:8b", 8 * GiB),
    Recommended("qwen3-vl:8b", 8 * GiB),
    Recommended("qwen2.5vl:7b", 8 * GiB),
    Recommended("qwen3:14b", 16 * GiB),
    Recommended("gemma3:12b", 10 * GiB),
    Recommended("mistral-small3.1:24b", 16 * GiB),
    Recommended("qwen3:32b", 24 * GiB),
    Recommended("qwen3:30b-a3b", 24 * GiB),
    Recommended("glm4.7-flash:30b", 24 * GiB),
    Recommended("qwen3-vl:72b", 48 * GiB),
    Recommended("llama3.3:70b", 48 * GiB),
    Recommended("llama4-scout:109b", 80 * GiB),
    Recommended("qwen3:235b-a22b", 192 * GiB),
    Recommended("glm-4.7:358b", 256 * GiB),
    Recommended("glm-5:744b", 512 * GiB),
    Recommended("kimi-k2:1t", 768 * GiB)
  ]

  const LatestTag := ":latest"

  /** `isModelInstalled`: the list holds the id, or the id tagged `:latest`. */
  function IsModelInstalled(installed: seq<string>, modelId: string): (r: bool)
    ensures r <==> modelId in installed || modelId + LatestTag in installed
  {
    exists i :: 0 <= i < |installed| && (installed[i] == modelId || installed[i] == modelId + LatestTag)
  }

  /** Ollama lists a model pulled without a tag as `id:latest`; that counts as installed. */
  lemma LatestCountsAsInstalled(installed: seq<string>, modelId: string)
    requires modelId + LatestTag in installed
    ensures IsModelInstalled(installed, modelId)
  {
    var i :| 0 <= i < |installed| && installed[i] == modelId + LatestTag;
  }

  /** `modelId.replace(/:latest$/, '')`: one trailing `:latest` removed. */
  function StripLatest(modelId: string): (r: string)
    ensures Text.EndsWith(modelId, LatestTag) ==> r + LatestTag == modelId
    ensures !Text.EndsWith(modelId, LatestTag) ==> r == modelId
  {
    if Text.EndsWith(modelId, LatestTag) then modelId[..|modelId| - |LatestTag|] else modelId
  }

  /** `isActiveModel`: the configured primary model names this one, with or without its `:latest` tag. */
  function IsActiveModel(activeModel: string, modelId: string): (r: bool)
    ensures activeModel == "ollama/" + modelId ==> r
    ensures r ==> Text.StartsWith(activeModel, "ollama/")
  {
    activeModel == "ollama/" + StripLatest(modelId) || activeModel == "ollama/" + modelId
  }

  /** A model is in use whether the configuration names it with or without the `:latest` tag. */
  lemma ActiveWithOrWithoutTag(modelId: string)
    ensures IsActiveModel("ollama/" + modelId, modelId)
    ensures IsActiveModel("ollama/" + modelId, modelId + LatestTag)
    ensures IsActiveModel("ollama/" + modelId + LatestTag, modelId + LatestTag)
  {
    var tagged := modelId + LatestTag;
    assert tagged[|tagged| - |LatestTag|..] == LatestTag;
    assert StripLatest(tagged) == modelId;
    assert "ollama/" + modelId + LatestTag == "ollama/" + tagged;
  }

  /** The memory check: an unknown machine passes; otherwise its total memory must reach the model's need. */
  function MemoryOk(totalMemory: Option<nat>, minMemoryBytes: nat): (r: bool)
    ensures totalMemory.None? ==> r
    ensures totalMemory.Some? && totalMemory.value < minMemoryBytes ==> !r
  {
    totalMemory.None? || totalMemory.value >= minMemoryBytes
  }

  /** The ids of the recommended models a machine has memory for, in catalogue order. */
  function Runnable(models: seq<Recommended>, totalMemory: Option<nat>): (r: seq<string>)
    ensures |r| <= |models|
    ensures forall id :: id in r <==> exists i :: 0 <= i < |models| && models[i].id == id && MemoryOk(totalMemory, models[i].minMemoryBytes)
  {
    if |models| == 0 then []
    else
      var rest := Runnable(models[1..], totalMemory);
      assert forall i :: 0 <= i < |models| - 1 ==> models[1..][i] == models[i + 1];
      if MemoryOk(totalMemory, models[0].minMemoryBytes) then [models[0].id] + rest else rest
  }

  /** On a machine of unknown size every recommended model counts as runnable. */
  lemma {:induction false} UnknownMachineRunsAll(models: seq<Recommended>)
    ensures Runnable(models, None) == seq(|models|, i requires 0 <= i < |models| => models[i].id)
  {
    if |models| > 0 {
      UnknownMachineRunsAll(models[1..]);
    }
  }

  /** An 8 GiB machine has memory enough for exactly the first three recommended models. */
  lemma EightGiBMachine()
    ensures Runnable(RecommendedModels, Some(8 * GiB)) == ["qwen3:8b", "qwen3-vl:8b", "qwen2.5vl:7b"]
  {
    var m := RecommendedModels;
    BeyondThirdNeedsMore();
    NoneRunnable(m[3..], 8 * GiB);
    assert m[2..][1..] == m[3..];
    assert Runnable(m[2..], Some(8 * GiB)) == ["qwen2.5vl:7b"];
    assert m[1..][1..] == m[2..];
    assert Runnable(m[1..], Some(8 * GiB)) == ["qwen3-vl:8b", "qwen2.5vl:7b"];
  }

  /** Every recommended model after the third needs more than 8 GiB. */
  lemma BeyondThirdNeedsMore()
    ensures forall i :: 0 <= i < |RecommendedModels[3..]| ==> RecommendedModels[3..][i].minMemoryBytes > 8 * GiB
  {
    var m := RecommendedModels;
    forall i | 0 <= i < |m[3..]|
      ensures m[3..][i].minMemoryBytes > 8 * GiB
    {
      assert m[3..][i] == m[i + 3];
    }
  }

  /** When every model needs more than the machine has, none counts as runnable. */
  lemma {:induction false} NoneRunnable(models: seq<Recommended>, mem: nat)
    requires forall i :: 0 <= i < |models| ==> models[i].minMemoryBytes > mem
    ensures Runnable(models, Some(mem)) == []
  {
    if |models| > 0 {
      NoneRunnable(models[1..], mem);
    }
  }

  datatype ModelStatus = Available | Downloading | Importing | ReadyStatus | ErrorStatus

  /** A progress event: a model's download, or the Ollama install under its reserved id. */
  datatype ProgressEvent = ProgressEvent(id: string, status: ModelStatus)

  const InstallId := "__ollama_install__"

  /** `isDownloading`: a model's download or import is under way. */
  function IsDownloading(downloadState: Option<ProgressEvent>): (r: bool)
    ensures r ==> downloadState.Some?
    ensures downloadState.Some? && downloadState.value.status in {Available, ReadyStatus, ErrorStatus} ==> !r
  {
    downloadState.Some? && (downloadState.value.status == Downloading || downloadState.value.status == Importing)
  }

  /** The page's download view, and the refreshes the events have asked for. */
  datatype View = View(downloadState: Option<ProgressEvent>, installing: bool, statusRefreshes: nat, modelRefreshes: nat)

  /**
   * A progress event: the install's finishing clears the installing flag
   * and refreshes the status; any other event becomes the download state,
   * and a finished download refreshes the installed list.
   */
  function OnProgress(v: View, e: ProgressEvent): (r: View)
    ensures e.id == InstallId ==> r.downloadState == v.downloadState && r.modelRefreshes == v.modelRefreshes
    ensures e.id == InstallId && e.status == ReadyStatus ==> !r.installing && r.statusRefreshes == v.statusRefreshes + 1
    ensures e.id == InstallId && e.status != ReadyStatus ==> r == v
    ensures e.id != InstallId ==> r.downloadState == Some(e) && r.installing == v.installing && r.statusRefreshes == v.statusRefreshes
    ensures e.id != InstallId ==> r.modelRefreshes == v.modelRefreshes + (if e.status == ReadyStatus then 1 else 0)
  {
    if e.id == InstallId then
      if e.status == ReadyStatus then v.(installing := false, statusRefreshes := v.statusRefreshes + 1) else v
    else v.(downloadState := Some(e), modelRefreshes := v.modelRefreshes + (if e.status == ReadyStatus then 1 else 0))
  }

  function ApplyProgress(v: View, events: seq<ProgressEvent>): View
  {
    if |events| == 0 then v else OnProgress(ApplyProgress(v, events[..|events| - 1]), events[|events| - 1])
  }

  /** However many install events arrive, the model download state is the one before them. */
  lemma {:induction false} InstallEventsKeepDownloadState(v: View, events: seq<ProgressEvent>)
    requires forall i :: 0 <= i < |events| ==> events[i].id == InstallId
    ensures ApplyProgress(v, events).downloadState == v.downloadState
    ensures ApplyProgress(v, events).modelRefreshes == v.modelRefreshes
  {
    if |events| > 0 {
      InstallEventsKeepDownloadState(v, events[..|events| - 1]);
    }
  }

  /** The download state is the last model event's, whatever install events come after it. */
  lemma {:induction false} LastModelEventWins(v: View, events: seq<ProgressEvent>, k: nat)
    requires k < |events| && events[k].id != InstallId
    requires forall i :: k < i < |events| ==> events[i].id == InstallId
    ensures ApplyProgress(v, events).downloadState == Some(events[k])
  {
    if |events| - 1 > k {
      LastModelEventWins(v, events[..|events| - 1], k);
    }
  }

  /** What a recommended model's card offers. */
  datatype CardAction = UseButton(busy: bool) | NoAction | DownloadingLabel | DownloadButton(enabled: bool)

  /**
   * An installed model offers "use" unless it is in use; a model being
   * downloaded shows the label; otherwise the download button, enabled only
   * when no download runs and Ollama is running.
   */
  function Action(installed: seq<string>, activeModel: string, applying: Option<string>,
                  downloadState: Option<ProgressEvent>, running: bool, modelId: string): (a: CardAction)
    ensures IsModelInstalled(installed, modelId) && IsActiveModel(activeModel, modelId) ==> a == NoAction
    ensures IsModelInstalled(installed, modelId) && !IsActiveModel(activeModel, modelId) ==> a == UseButton(applying == Some(modelId))
    ensures !IsModelInstalled(installed, modelId) && downloadState.Some? && downloadState.value.id == modelId && IsDownloading(downloadState) ==> a == DownloadingLabel
    ensures a.DownloadButton? ==> !IsModelInstalled(installed, modelId) && (a.enabled <==> !IsDownloading(downloadState) && running)
  {
    if IsModelInstalled(installed, modelId) then
      if IsActiveModel(activeModel, modelId) then NoAction else UseButton(applying == Some(modelId))
    else if downloadState.Some? && downloadState.value.id == modelId && IsDownloading(downloadState) then DownloadingLabel
    else DownloadButton(!IsDownloading(downloadState) && running)
  }

  /** While one download runs, no card offers an enabled download button. */
  lemma OneDownloadAtATime(installed: seq<string>, activeModel: string, applying: Option<string>,
                           downloadState: Option<ProgressEvent>, running: bool, modelId: string)
    requires IsDownloading(downloadState)
    ensures Action(installed, activeModel, applying, downloadState, running, modelId) != DownloadButton(true)
  {
  }
}
