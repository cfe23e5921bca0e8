/**
 * The result folder the workflows of `main.py` write: providers and their
 * names, the `os.path.join` paths of the artifacts, and what it means for a
 * step to write only inside one folder.
 */
module Artifacts {
  import opened Wrappers
  import opened Strings

  datatype Provider = Gemini10Pro | Gemini15Pro | Gpt35Turbo | Gpt4o

  /** The providers every workflow iterates over, in this order. */
  const Providers: seq<Provider> := [Gemini10Pro, Gemini15Pro, Gpt35Turbo, Gpt4o]

  /** `llm_chooser` of `plan_ensembling`: always `GEMINI_1_5_PRO`. */
  const EnsembleChooser: Provider := Gemini15Pro

  /** `get_provider_name`: "Google_" or "OpenAI_" followed by the model name. */
  function ProviderName(p: Provider): string
  {
    match p
    case Gemini10Pro => "Google_gemini-1.0-pro"
    case Gemini15Pro => "Google_gemini-1.5-pro"
    case Gpt35Turbo => "OpenAI_gpt-3.5-turbo"
    case Gpt4o => "OpenAI_gpt-4o"
  }

  lemma ProviderNameInjective(p: Provider, q: Provider)
    ensures ProviderName(p) == ProviderName(q) ==> p == q
  {
    var a, b := ProviderName(p), ProviderName(q);
    if a == b {
      assert a[0] == b[0] && |a| == |b|;
      if a[0] == 'G' {
        assert a[16] == b[16];
      }
    }
  }

  type Path = seq<string>

  /** The ensemble's file for one provider's plan: `f"plan_response_{provider_name}.json"`. */
  function PlanFile(p: Provider): string
  {
    "plan_response_" + ProviderName(p) + ".json"
  }

  /** Each provider's plan has its own file, and none of them is `choice.json`. */
  lemma PlanFileInjective(p: Provider, q: Provider)
    ensures PlanFile(p) == PlanFile(q) ==> p == q
    ensures PlanFile(p) != "choice.json"
  {
    var a, b := PlanFile(p), PlanFile(q);
    assert a[0] == 'p';
    if a == b {
      var n := |ProviderName(p)|;
      assert |ProviderName(q)| == n;
      assert a[14..14 + n] == ProviderName(p);
      assert b[14..14 + n] == ProviderName(q);
      ProviderNameInjective(p, q);
    }
  }

  const LlmResultsFolder: string := "results/llm_results"

  /** The folder of one query's artifacts: `LLM_RESULTS_FOLDER_PATH/mode/method/[provider/]map/str(query_idx)`. */
  function QueryDir(mode: string, methodName: string, provider: Option<Provider>, mapName: string, queryIdx: nat): (dir: Path)
    ensures |dir| >= 5 && dir[..3] == [LlmResultsFolder, mode, methodName]
    ensures provider.Some? <==> |dir| == 6
    ensures provider.Some? ==> dir[3] == ProviderName(provider.value)
    ensures dir[|dir| - 2] == mapName && dir[|dir| - 1] == NatToString(queryIdx)
  {
    [LlmResultsFolder, mode, methodName]
      + (if provider.Some? then [ProviderName(provider.value)] else [])
      + [mapName, NatToString(queryIdx)]
  }

  /** The folder of one provider's artifacts for a method. */
  function ProviderDir(mode: string, methodName: string, p: Provider): Path
  {
    [LlmResultsFolder, mode, methodName, ProviderName(p)]
  }

  /** `os.path.join(LLM_RESULTS_FOLDER_PATH, mode, method, [provider,] map, str(query_idx), file)`. */
  function ArtifactPath(mode: string, methodName: string, provider: Option<Provider>, mapName: string, queryIdx: nat, file: string): (path: Path)
    ensures |path| >= 6 && path[..3] == [LlmResultsFolder, mode, methodName]
    ensures provider.Some? <==> |path| == 7
    ensures provider.Some? ==> path[3] == ProviderName(provider.value)
    ensures path[|path| - 3] == mapName && path[|path| - 2] == NatToString(queryIdx) && path[|path| - 1] == file
  {
    QueryDir(mode, methodName, provider, mapName, queryIdx) + [file]
  }

  /** Artifacts of the same method and map differ unless provider, query index and file name all agree. */
  lemma ArtifactPathInjective(mode: string, methodName: string, p1: Option<Provider>, p2: Option<Provider>,
                              mapName: string, q1: nat, q2: nat, f1: string, f2: string)
    requires p1.Some? == p2.Some?
    requires ArtifactPath(mode, methodName, p1, mapName, q1, f1) == ArtifactPath(mode, methodName, p2, mapName, q2, f2)
    ensures p1 == p2 && q1 == q2 && f1 == f2
  {
    var a := ArtifactPath(mode, methodName, p1, mapName, q1, f1);
    if p1.Some? {
      assert a[3] == ProviderName(p1.value) && a[3] == ProviderName(p2.value);
      ProviderNameInjective(p1.value, p2.value);
    }
    NatToStringInjective(q1, q2);
  }

  /** Another provider's artifact is outside a provider's folder. */
  lemma ArtifactPathOtherProvider(mode: string, methodName: string, p: Provider, q: Provider, mapName: string, queryIdx: nat, file: string)
    requires p != q
    ensures !Under(ArtifactPath(mode, methodName, Some(p), mapName, queryIdx, file), [LlmResultsFolder, mode, methodName, ProviderName(q)])
  {
    ProviderNameInjective(p, q);
  }

  /** `path` lies in the folder `dir`. */
  predicate Under(path: Path, dir: Path)
  {
    |dir| <= |path| && path[..|dir|] == dir
  }

  /** Neither folder lies inside the other, so no path lies in both. */
  predicate Apart(a: Path, b: Path)
  {
    !Under(a, b) && !Under(b, a)
  }

  /** A path in one of two apart folders is not in the other. */
  lemma ApartExcludes(path: Path, a: Path, b: Path)
    requires Apart(a, b) && Under(path, a)
    ensures !Under(path, b)
  {
    if |a| <= |b| && |b| <= |path| {
      assert path[..|b|][..|a|] == path[..|a|];
    } else if |b| < |a| {
      assert path[..|a|][..|b|] == path[..|b|];
    }
  }

  /** A sub-folder of one of two apart folders is apart from the other. */
  lemma ApartInside(sub: Path, a: Path, b: Path)
    requires Apart(a, b) && Under(sub, a)
    ensures Apart(sub, b)
  {
    ApartExcludes(sub, a, b);
    if |sub| <= |b| {
      assert b[..|sub|][..|a|] == b[..|a|];
    }
  }

  /** Two folders that differ at a position both have are apart. */
  lemma ApartAt(a: Path, b: Path, k: nat)
    requires k < |a| && k < |b| && a[k] != b[k]
    ensures Apart(a, b)
  {
    if |b| <= |a| {
      assert a[..|b|][k] == a[k];
    }
    if |a| <= |b| {
      assert b[..|a|][k] == b[k];
    }
  }

  /** Different providers' folders are apart. */
  lemma ProviderDirsApart(mode: string, methodName: string, p: Provider, q: Provider)
    requires p != q
    ensures Apart(ProviderDir(mode, methodName, p), ProviderDir(mode, methodName, q))
  {
    ProviderNameInjective(p, q);
    ApartAt(ProviderDir(mode, methodName, p), ProviderDir(mode, methodName, q), 3);
  }

  /** A query folder lies in its provider's folder. */
  lemma QueryDirInProviderDir(mode: string, methodName: string, p: Provider, mapName: string, queryIdx: nat)
    ensures Under(QueryDir(mode, methodName, Some(p), mapName, queryIdx), ProviderDir(mode, methodName, p))
  {
    assert QueryDir(mode, methodName, Some(p), mapName, queryIdx)[..4] == ProviderDir(mode, methodName, p);
  }

  /** The folders of two different queries are apart. */
  lemma QueryDirsApart(mode: string, methodName: string, provider: Option<Provider>, mapName: string, q1: nat, q2: nat)
    requires q1 != q2
    ensures Apart(QueryDir(mode, methodName, provider, mapName, q1), QueryDir(mode, methodName, provider, mapName, q2))
  {
    NatToStringInjective(q1, q2);
    var a, b := QueryDir(mode, methodName, provider, mapName, q1), QueryDir(mode, methodName, provider, mapName, q2);
    ApartAt(a, b, |a| - 1);
  }

  /** Every path outside `dir` is as it was: same presence, same content. */
  ghost predicate OnlyUnder(before: map<Path, string>, after: map<Path, string>, dir: Path)
  {
    forall path :: !Under(path, dir) ==>
      (path in before <==> path in after) && (path in before ==> before[path] == after[path])
  }

  /** Saving under `dir` keeps everything outside `dir`. */
  lemma OnlyUnderSave(before: map<Path, string>, after: map<Path, string>, dir: Path, path: Path, content: string)
    requires OnlyUnder(before, after, dir) && Under(path, dir)
    ensures OnlyUnder(before, after[path := content], dir)
  {
  }

  /** Two steps that each stay inside `dir` together stay inside `dir`. */
  lemma OnlyUnderTrans(a: map<Path, string>, b: map<Path, string>, c: map<Path, string>, dir: Path)
    requires OnlyUnder(a, b, dir) && OnlyUnder(b, c, dir)
    ensures OnlyUnder(a, c, dir)
  {
  }

  /** A step inside a folder stays inside any folder holding it. */
  lemma OnlyUnderOuter(before: map<Path, string>, after: map<Path, string>, inner: Path, outer: Path)
    requires OnlyUnder(before, after, inner) && Under(inner, outer)
    ensures OnlyUnder(before, after, outer)
  {
    forall path | Under(path, inner)
      ensures Under(path, outer)
    {
      assert path[..|inner|][..|outer|] == path[..|outer|];
    }
  }

  /** Two different files of one folder have different paths. */
  lemma SiblingsDistinct(folder: Path, a: string, b: string)
    requires a != b
    ensures folder + [a] != folder + [b]
  {
    assert (folder + [a])[|folder|] == a;
  }

  /** A file lies in its folder. */
  lemma FileInFolder(folder: Path, file: string)
    ensures Under(folder + [file], folder)
  {
    assert (folder + [file])[..|folder|] == folder;
  }

  /** The method folder `LLM_RESULTS_FOLDER_PATH/mode/method`. */
  function MethodDir(mode: string, methodName: string): Path
  {
    [LlmResultsFolder, mode, methodName]
  }

  /** Provider folders and query folders lie in their method folder. */
  lemma InMethodDir(mode: string, methodName: string, provider: Option<Provider>, mapName: string, queryIdx: nat)
    ensures provider.Some? ==> Under(ProviderDir(mode, methodName, provider.value), MethodDir(mode, methodName))
    ensures Under(QueryDir(mode, methodName, provider, mapName, queryIdx), MethodDir(mode, methodName))
  {
    if provider.Some? {
      assert ProviderDir(mode, methodName, provider.value)[..3] == MethodDir(mode, methodName);
    }
  }

  /** A step inside a sub-folder stays inside the folder. */
  lemma OnlyUnderWiden(before: map<Path, string>, after: map<Path, string>, dir: Path, sub: Path)
    requires OnlyUnder(before, after, dir + sub)
    ensures OnlyUnder(before, after, dir)
  {
    forall path | Under(path, dir + sub)
      ensures Under(path, dir)
    {
      assert path[..|dir|] == (dir + sub)[..|dir|];
    }
  }

  /** The file at `path` holds the successful reply `r`. */
  predicate Holds(files: map<Path, string>, path: Path, r: Result<string, string>)
  {
    r.Ok? && path in files && files[path] == r.value
  }

  /** A file outside the folder a step stays in keeps what it held. */
  lemma HoldsOutside(before: map<Path, string>, after: map<Path, string>, dir: Path, path: Path, r: Result<string, string>)
    requires OnlyUnder(before, after, dir) && !Under(path, dir) && Holds(before, path, r)
    ensures Holds(after, path, r)
  {
  }

  /** A file in a folder apart from the one a step stays in keeps what it held. */
  lemma HoldsApart(before: map<Path, string>, after: map<Path, string>, dir: Path, folder: Path, file: string, r: Result<string, string>)
    requires OnlyUnder(before, after, dir) && Apart(folder, dir) && Holds(before, folder + [file], r)
    ensures Holds(after, folder + [file], r)
  {
    assert (folder + [file])[..|folder|] == folder;
    ApartExcludes(folder + [file], folder, dir);
  }

}
