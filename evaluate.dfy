/**
 * Result loading in `evaluate.py`. The result folder is a `Store`: the
 * files with their text, the folder listings `os.listdir` returns (in its
 * order), and `json.load` of a text (`None` when the text does not parse).
 * Exceptions are named by their class; `load_ai_results` catches
 * `FileNotFoundError`, `KeyError`, `ValueError` (with its subclass
 * `JSONDecodeError`) and `IndexError`, and lets any other propagate.
 */
module Evaluate {
  import opened Wrappers
  import opened Strings
  import opened Artifacts
  import Constants

  /** A value `json.load` returns. */
  datatype Json =
    | Object(members: map<string, Json>)
    | Array(items: seq<Json>)
    | Str(text: string)
    | Int(number: int)
    | Float(x: real)
    | Bool(flag: bool)
    | Null

  datatype Store = Store(files: map<Path, string>, listdir: Path -> Option<seq<string>>, decode: string -> Option<Json>)

  /** The exception classes the `except` clause of `load_ai_results` names, and `JSONDecodeError`, a `ValueError`. */
  predicate Caught(e: string)
  {
    e in {"FileNotFoundError", "KeyError", "ValueError", "IndexError", "JSONDecodeError"}
  }

  /** `os.path.exists`: a file or a folder. */
  predicate Exists(store: Store, path: Path)
  {
    path in store.files || store.listdir(path).Some?
  }

  /** `file_utils.load_json`: open the file and `json.load` it. */
  function LoadJson(store: Store, path: Path): (r: Result<Json, string>)
    ensures r.Ok? ==> path in store.files && store.decode(store.files[path]) == Some(r.value)
    ensures path !in store.files && !Exists(store, path) ==> r == Err("FileNotFoundError")
  {
    if path in store.files then
      match store.decode(store.files[path])
      case None => Err("JSONDecodeError")
      case Some(j) => Ok(j)
    else if store.listdir(path).Some? then Err("IsADirectoryError")
    else Err("FileNotFoundError")
  }

  /** The files among `names` in `folder` whose name `matches`, as full paths, in listing order. */
  function Matching(store: Store, folder: Path, names: seq<string>, matches: string -> bool): (r: seq<Path>)
    ensures forall i :: 0 <= i < |r| ==>
              r[i] in store.files && |r[i]| == |folder| + 1 && r[i][..|folder|] == folder && matches(r[i][|folder|])
    ensures (exists n :: n in names && folder + [n] in store.files && matches(n)) <==> r != []
  {
    if names == [] then []
    else
      var rest := Matching(store, folder, names[1..], matches);
      var path := folder + [names[0]];
      assert names == [names[0]] + names[1..];
      if path in store.files && matches(names[0]) then [path] + rest else rest
  }

  /**
   * `file_utils.find_matching_files`: the files of the listing whose name
   * the pattern matches. Listing a missing folder raises `FileNotFoundError`,
   * listing a file `NotADirectoryError`.
   */
  function FindMatchingFiles(store: Store, folder: Path, matches: string -> bool): (r: Result<seq<Path>, string>)
    ensures r.Ok? ==> store.listdir(folder).Some? && r.value == Matching(store, folder, store.listdir(folder).value, matches)
  {
    match store.listdir(folder)
    case None => if folder in store.files then Err("NotADirectoryError") else Err("FileNotFoundError")
    case Some(names) => Ok(Matching(store, folder, names, matches))
  }

  /** `re.match(r"choice_\d+\.json", name)`: anchored at the start only. */
  predicate ChoiceName(name: string)
  {
    StartsWith(name, "choice_")
    && exists e :: 8 <= e <= |name| && AllDigits(name[7..e]) && StartsWith(name[e..], ".json")
  }

  /** A character of the class `[a-zA-Z0-9\.\-_]`. */
  predicate PlanNameChar(c: char)
  {
    ('a' <= c <= 'z') || ('A' <= c <= 'Z') || ('0' <= c <= '9') || c == '.' || c == '-' || c == '_'
  }

  /** `re.match(fr"plan_[a-zA-Z0-9\.\-_]+_{idx}\.json", name)`. */
  predicate PlanName(name: string, idx: int)
  {
    StartsWith(name, "plan_")
    && exists e :: 6 <= e <= |name| && (forall k :: 5 <= k < e ==> PlanNameChar(name[k]))
                   && StartsWith(name[e..], "_" + IntToString(idx) + ".json")
  }

  /** Python's `int(x)` of a float: truncation toward zero. */
  function Truncate(x: real): int
  {
    if x >= 0.0 then x.Floor else -((-x).Floor)
  }

  /** `int(v)` of a JSON value. */
  function IntOf(v: Json): (r: Result<int, string>)
    ensures v.Int? ==> r == Ok(v.number)
    ensures v.Str? ==> (r.Ok? <==> ParseInt(v.text).Some?)
  {
    match v
    case Int(n) => Ok(n)
    case Bool(b) => Ok(if b then 1 else 0)
    case Float(x) => Ok(Truncate(x))
    case Str(s) => if ParseInt(s).Some? then Ok(ParseInt(s).value) else Err("ValueError")
    case _ => Err("TypeError")
  }

  /** `int(choice["chosen_response"])`: subscripting anything but a dict with a string raises `TypeError`. */
  function ChosenIndex(choice: Json): (r: Result<int, string>)
    ensures r.Ok? ==> choice.Object? && "chosen_response" in choice.members
                      && IntOf(choice.members["chosen_response"]) == r
    ensures choice.Object? && "chosen_response" !in choice.members ==> r == Err("KeyError")
  {
    match choice
    case Object(m) => if "chosen_response" in m then IntOf(m["chosen_response"]) else Err("KeyError")
    case _ => Err("TypeError")
  }

  /** One (mode, method, llm, map) folder of the nested loops. */
  datatype Folder = Folder(mode: string, methodName: string, llm: Provider, mapName: string)

  /** One entry `data[mode][method][llm][map][query_id]`. */
  datatype Cell = Cell(folder: Folder, queryId: string)

  /** `os.path.join(LLM_RESULTS_FOLDER_PATH, mode, method, llm, map, query_id)`. */
  function CellDir(c: Cell): Path
  {
    [LlmResultsFolder, c.folder.mode, c.folder.methodName, ProviderName(c.folder.llm), c.folder.mapName, c.queryId]
  }

  /** The ensemble's final plan: the first `choice_<n>.json` names a response index, and the first matching plan file is it. */
  function EnsemblePlanPath(store: Store, dir: Path): (r: Result<Path, string>)
    ensures r.Ok? ==> |r.value| == |dir| + 1 && r.value[..|dir|] == dir && r.value in store.files
    ensures r.Ok? ==> exists idx :: PlanName(r.value[|dir|], idx)
  {
    match FindMatchingFiles(store, dir, ChoiceName)
    case Err(e) => Err(e)
    case Ok(choices) =>
      if choices == [] then Err("ValueError")
      else
        match LoadJson(store, choices[0])
        case Err(e) => Err(e)
        case Ok(choice) =>
          match ChosenIndex(choice)
          case Err(e) => Err(e)
          case Ok(idx) =>
            match FindMatchingFiles(store, dir, name => PlanName(name, idx))
            case Err(e) => Err(e)
            case Ok(plans) => if plans == [] then Err("ValueError") else Ok(plans[0])
  }

  /**
   * The file `load_ai_results` reads for a cell: `final_plan.json` for
   * `base`, `plan_{reflection_iterations}.json` for the two reflection
   * methods, the chosen plan for the ensemble. Any other method leaves the
   * path unbound.
   */
  function FinalPlanPath(store: Store, reflectionIterations: int, c: Cell): (r: Result<Path, string>)
    ensures c.folder.methodName == Constants.MethodBase ==> r == Ok(CellDir(c) + ["final_plan.json"])
    ensures c.folder.methodName in {Constants.MethodSelfReflection, Constants.MethodMultiagentReflection} ==>
              r == Ok(CellDir(c) + ["plan_" + IntToString(reflectionIterations) + ".json"])
    ensures c.folder.methodName == Constants.MethodEnsemble ==> r == EnsemblePlanPath(store, CellDir(c))
  {
    var dir := CellDir(c);
    var m := c.folder.methodName;
    if m == Constants.MethodBase then Ok(dir + ["final_plan.json"])
    else if m == Constants.MethodSelfReflection || m == Constants.MethodMultiagentReflection then
      Ok(dir + ["plan_" + IntToString(reflectionIterations) + ".json"])
    else if m == Constants.MethodEnsemble then EnsemblePlanPath(store, dir)
    else Err("UnboundLocalError")
  }

  /** The response is accepted only as a dict whose `relevant_objects` is a list; that list is the result. */
  function RelevantObjects(content: Json): (r: Result<seq<Json>, string>)
    ensures r.Ok? <==> content.Object? && "relevant_objects" in content.members && content.members["relevant_objects"].Array?
    ensures r.Ok? ==> r.value == content.members["relevant_objects"].items
    ensures r.Err? ==> r.error == "ValueError"
  {
    match content
    case Object(m) =>
      if "relevant_objects" !in m then Err("ValueError")
      else if m["relevant_objects"].Array? then Ok(m["relevant_objects"].items)
      else Err("ValueError")
    case _ => Err("ValueError")
  }

  /** The body of the `try` for one cell: the objects it stores, or the exception it raises. */
  function CellResult(store: Store, reflectionIterations: int, c: Cell): Result<seq<Json>, string>
  {
    match FinalPlanPath(store, reflectionIterations, c)
    case Err(e) => Err(e)
    case Ok(path) =>
      if !Exists(store, path) then Err("ValueError")
      else
        match LoadJson(store, path)
        case Err(e) => Err(e)
        case Ok(content) => RelevantObjects(content)
  }

  /** A stored result is exactly the `relevant_objects` list of the file the cell's method selects. */
  lemma CellResultAccepted(store: Store, reflectionIterations: int, c: Cell)
    ensures CellResult(store, reflectionIterations, c).Ok? <==>
              FinalPlanPath(store, reflectionIterations, c).Ok?
              && LoadJson(store, FinalPlanPath(store, reflectionIterations, c).value).Ok?
              && RelevantObjects(LoadJson(store, FinalPlanPath(store, reflectionIterations, c).value).value).Ok?
    ensures CellResult(store, reflectionIterations, c).Ok? ==>
              var content := LoadJson(store, FinalPlanPath(store, reflectionIterations, c).value).value;
              content.Object? && content.members["relevant_objects"] == Array(CellResult(store, reflectionIterations, c).value)
  {
  }

  /** A base cell whose `final_plan.json` is missing is skipped with a caught error. */
  lemma MissingBasePlanSkipped(store: Store, reflectionIterations: int, c: Cell)
    requires c.folder.methodName == Constants.MethodBase
    requires !Exists(store, CellDir(c) + ["final_plan.json"])
    ensures CellResult(store, reflectionIterations, c) == Err("ValueError")
  {
  }

  /** An ensemble cell whose folder holds no `choice_<n>.json` file is skipped with a caught `ValueError`. */
  lemma EnsembleWithoutChoiceSkipped(store: Store, reflectionIterations: int, c: Cell)
    requires c.folder.methodName == Constants.MethodEnsemble
    requires store.listdir(CellDir(c)).Some?
    requires forall n :: n in store.listdir(CellDir(c)).value && CellDir(c) + [n] in store.files ==> !ChoiceName(n)
    ensures CellResult(store, reflectionIterations, c) == Err("ValueError")
  {
    var dir := CellDir(c);
    assert FindMatchingFiles(store, dir, ChoiceName) == Ok([]);
  }

  /** An ensemble cell whose chosen index has no plan file is skipped with a caught `ValueError`. */
  lemma EnsembleWithoutChosenPlanSkipped(store: Store, reflectionIterations: int, c: Cell, idx: int)
    requires c.folder.methodName == Constants.MethodEnsemble
    requires FindMatchingFiles(store, CellDir(c), ChoiceName).Ok?
    requires FindMatchingFiles(store, CellDir(c), ChoiceName).value != []
    requires LoadJson(store, FindMatchingFiles(store, CellDir(c), ChoiceName).value[0]).Ok?
    requires ChosenIndex(LoadJson(store, FindMatchingFiles(store, CellDir(c), ChoiceName).value[0]).value) == Ok(idx)
    requires forall n :: n in store.listdir(CellDir(c)).value && CellDir(c) + [n] in store.files ==> !PlanName(n, idx)
    ensures CellResult(store, reflectionIterations, c) == Err("ValueError")
  {
    var dir := CellDir(c);
    assert FindMatchingFiles(store, dir, name => PlanName(name, idx)) == Ok([]);
  }

  /** The body of the `try` as a function of the cell, for a given store and iteration count. */
  function CellLoader(store: Store, reflectionIterations: int): Cell -> Result<seq<Json>, string>
  {
    c => CellResult(store, reflectionIterations, c)
  }

  /** A cell the `try` gives up on: a caught exception, stored as `[]` and counted. */
  predicate Skipped(load: Cell -> Result<seq<Json>, string>, c: Cell)
  {
    load(c).Err? && Caught(load(c).error)
  }

  /** A cell whose exception escapes `load_ai_results`. */
  predicate Raises(load: Cell -> Result<seq<Json>, string>, c: Cell)
  {
    load(c).Err? && !Caught(load(c).error)
  }

  /** What a cell that does not raise stores: the accepted list, or `[]`. */
  function Stored(load: Cell -> Result<seq<Json>, string>, c: Cell): seq<Json>
  {
    if load(c).Ok? then load(c).value else []
  }

  /** How many of the cells are skipped. */
  function Failures(load: Cell -> Result<seq<Json>, string>, cells: seq<Cell>): (n: nat)
    ensures n <= |cells|
  {
    if cells == [] then 0
    else Failures(load, cells[..|cells| - 1]) + (if Skipped(load, cells[|cells| - 1]) then 1 else 0)
  }

  /** A skipped cell among them is counted: the failure count is positive. */
  lemma {:induction false} FailuresCount(load: Cell -> Result<seq<Json>, string>, cells: seq<Cell>, i: nat)
    requires i < |cells| && Skipped(load, cells[i])
    ensures Failures(load, cells) >= 1
  {
    if i < |cells| - 1 {
      assert cells[..|cells| - 1][i] == cells[i];
      FailuresCount(load, cells[..|cells| - 1], i);
    }
  }

  /** `(MODE_CERTAINTY, MODE_UNCERTAINTY)`. */
  const Modes: seq<string> := [Constants.ModeCertainty, Constants.ModeUncertainty]

  /** The four methods `load_ai_results` iterates over. */
  const Methods: seq<string> := [Constants.MethodBase, Constants.MethodSelfReflection,
                                 Constants.MethodMultiagentReflection, Constants.MethodEnsemble]

  /** `LLM_PROVIDERS`. */
  const Llms: seq<Provider> := [Gemini10Pro, Gemini15Pro]

  function MapFolders(mode: string, methodName: string, llm: Provider, maps: seq<string>): (r: seq<Folder>)
    ensures |r| == |maps|
    ensures forall i :: 0 <= i < |maps| ==> r[i] == Folder(mode, methodName, llm, maps[i])
  {
    seq(|maps|, i requires 0 <= i < |maps| => Folder(mode, methodName, llm, maps[i]))
  }

  function LlmFolders(mode: string, methodName: string, maps: seq<string>): (r: seq<Folder>)
    ensures |r| == 2 * |maps|
  {
    MapFolders(mode, methodName, Llms[0], maps) + MapFolders(mode, methodName, Llms[1], maps)
  }

  function MethodFolders(mode: string, maps: seq<string>): (r: seq<Folder>)
    ensures |r| == 8 * |maps|
  {
    LlmFolders(mode, Methods[0], maps) + LlmFolders(mode, Methods[1], maps)
    + LlmFolders(mode, Methods[2], maps) + LlmFolders(mode, Methods[3], maps)
  }

  /** The (mode, method, llm, map) folders in the order of the four outer loops. */
  function Folders(maps: seq<string>): (r: seq<Folder>)
    ensures |r| == 16 * |maps|
  {
    MethodFolders(Modes[0], maps) + MethodFolders(Modes[1], maps)
  }

  /** The cells of one folder, in query order. */
  function QueryCells(f: Folder, queryIds: seq<string>): (r: seq<Cell>)
    ensures |r| == |queryIds|
    ensures forall i :: 0 <= i < |queryIds| ==> r[i] == Cell(f, queryIds[i])
  {
    seq(|queryIds|, i requires 0 <= i < |queryIds| => Cell(f, queryIds[i]))
  }

  /** The cells of the folders, folder by folder. */
  function CellsOf(folders: seq<Folder>, queryIds: seq<string>): (r: seq<Cell>)
    ensures |r| == |folders| * |queryIds|
  {
    if folders == [] then []
    else CellsOf(folders[..|folders| - 1], queryIds) + QueryCells(folders[|folders| - 1], queryIds)
  }

  /** Every folder of the loops meets every query id exactly where the loops reach it. */
  lemma {:induction false} CellsOfCover(folders: seq<Folder>, queryIds: seq<string>, f: Folder, q: string)
    ensures Cell(f, q) in CellsOf(folders, queryIds) <==> f in folders && q in queryIds
  {
    if folders != [] {
      var init := folders[..|folders| - 1];
      var last := folders[|folders| - 1];
      assert folders == init + [last];
      CellsOfCover(init, queryIds, f, q);
      if q in queryIds && f == last {
        var i :| 0 <= i < |queryIds| && queryIds[i] == q;
        assert QueryCells(last, queryIds)[i] == Cell(f, q);
      }
    }
  }

  /** The cells of `load_ai_results`, in the order of its five nested loops. */
  function AiCells(maps: seq<string>, queryIds: seq<string>): (r: seq<Cell>)
    ensures |r| == 16 * |maps| * |queryIds|
  {
    CellsOf(Folders(maps), queryIds)
  }

  lemma MapFoldersCover(mode: string, methodName: string, llm: Provider, maps: seq<string>, f: Folder)
    ensures f in MapFolders(mode, methodName, llm, maps) <==>
              f.mode == mode && f.methodName == methodName && f.llm == llm && f.mapName in maps
  {
    if f.mode == mode && f.methodName == methodName && f.llm == llm && f.mapName in maps {
      var i :| 0 <= i < |maps| && maps[i] == f.mapName;
      assert MapFolders(mode, methodName, llm, maps)[i] == f;
    }
  }

  lemma LlmFoldersCover(mode: string, methodName: string, maps: seq<string>, f: Folder)
    ensures f in LlmFolders(mode, methodName, maps) <==>
              f.mode == mode && f.methodName == methodName && f.llm in Llms && f.mapName in maps
  {
    MapFoldersCover(mode, methodName, Llms[0], maps, f);
    MapFoldersCover(mode, methodName, Llms[1], maps, f);
  }

  lemma MethodFoldersCover(mode: string, maps: seq<string>, f: Folder)
    ensures f in MethodFolders(mode, maps) <==> f.mode == mode && f.methodName in Methods && f.llm in Llms && f.mapName in maps
  {
    LlmFoldersCover(mode, Methods[0], maps, f);
    LlmFoldersCover(mode, Methods[1], maps, f);
    LlmFoldersCover(mode, Methods[2], maps, f);
    LlmFoldersCover(mode, Methods[3], maps, f);
  }

  /** The folders cover every mode, method, llm and map of the loops, and nothing else. */
  lemma FoldersCover(maps: seq<string>, f: Folder)
    ensures f in Folders(maps) <==> f.mode in Modes && f.methodName in Methods && f.llm in Llms && f.mapName in maps
  {
    MethodFoldersCover(Modes[0], maps, f);
    MethodFoldersCover(Modes[1], maps, f);
  }

  /** Every (mode, method, llm, map, query id) combination of the loops is a cell, and no other. */
  lemma AiCellsCover(maps: seq<string>, queryIds: seq<string>, c: Cell)
    ensures c in AiCells(maps, queryIds) <==>
              c.folder.mode in Modes && c.folder.methodName in Methods && c.folder.llm in Llms
              && c.folder.mapName in maps && c.queryId in queryIds
  {
    CellsOfCover(Folders(maps), queryIds, c.folder, c.queryId);
    FoldersCover(maps, c.folder);
  }

  /** With the 10 maps and 30 queries of the experiment the loops visit `n_total_responses` = 2*4*2*10*30 cells. */
  lemma TotalResponses(maps: seq<string>, queryIds: seq<string>)
    requires |maps| == 10 && |queryIds| == 30
    ensures |AiCells(maps, queryIds)| == 2 * 4 * 2 * 10 * 30
  {
  }

  /** The index of the first cell from `i` on whose exception escapes, or `|cells|`. */
  function RaiseFrom(load: Cell -> Result<seq<Json>, string>, cells: seq<Cell>, i: nat): (k: nat)
    requires i <= |cells|
    ensures i <= k <= |cells|
    decreases |cells| - i
  {
    if i == |cells| || Raises(load, cells[i]) then i
    else RaiseFrom(load, cells, i + 1)
  }

  function FirstRaise(load: Cell -> Result<seq<Json>, string>, cells: seq<Cell>): nat
  {
    RaiseFrom(load, cells, 0)
  }

  lemma {:induction false} RaiseFromMeaning(load: Cell -> Result<seq<Json>, string>, cells: seq<Cell>, i: nat)
    requires i <= |cells|
    ensures var k := RaiseFrom(load, cells, i);
            (forall j :: i <= j < k ==> !Raises(load, cells[j]))
            && (k < |cells| ==> Raises(load, cells[k]))
    decreases |cells| - i
  {
    if i < |cells| && !Raises(load, cells[i]) {
      RaiseFromMeaning(load, cells, i + 1);
    }
  }

  /**
   * The first raising cell is the one that decides: no cell before it raises,
   * and it is `|cells|` exactly when no cell raises at all.
   */
  lemma FirstRaiseMeaning(load: Cell -> Result<seq<Json>, string>, cells: seq<Cell>)
    ensures var k := FirstRaise(load, cells);
            k <= |cells|
            && (forall j :: 0 <= j < k ==> !Raises(load, cells[j]))
            && (k < |cells| <==> exists i :: 0 <= i < |cells| && Raises(load, cells[i]))
            && (k < |cells| ==> Raises(load, cells[k]))
  {
    RaiseFromMeaning(load, cells, 0);
  }

  /**
   * The loops of `load_ai_results` over a list of cells, `load` being the
   * body of the `try`: every cell stores its accepted list, or `[]` when a
   * caught exception skipped it; `notLoaded` counts the skipped cells. An
   * exception of another class propagates from the first cell that raises it.
   */
  method LoadCells(load: Cell -> Result<seq<Json>, string>, cells: seq<Cell>)
    returns (r: Result<map<Cell, seq<Json>>, string>, notLoaded: nat)
    ensures r.Err? <==> FirstRaise(load, cells) < |cells|
    ensures r.Err? ==> load(cells[FirstRaise(load, cells)]) == Err(r.error)
    ensures r.Ok? ==> forall c :: c in r.value <==> c in cells
    ensures r.Ok? ==> forall c :: c in r.value ==> r.value[c] == Stored(load, c)
    ensures r.Ok? ==> notLoaded == Failures(load, cells)
  {
    var data: map<Cell, seq<Json>> := map[];
    notLoaded := 0;
    for i := 0 to |cells|
      invariant forall c :: c in data <==> c in cells[..i]
      invariant forall c :: c in data ==> data[c] == Stored(load, c)
      invariant notLoaded == Failures(load, cells[..i])
      invariant RaiseFrom(load, cells, i) == FirstRaise(load, cells)
    {
      var c := cells[i];
      assert cells[..i + 1] == cells[..i] + [c];
      assert cells[..i + 1][..i] == cells[..i];
      var res := load(c);
      if res.Ok? {
        data := data[c := res.value];
      } else if Caught(res.error) {
        data := data[c := []];
        notLoaded := notLoaded + 1;
      } else {
        return Err(res.error), notLoaded;
      }
    }
    assert cells[..|cells|] == cells;
    return Ok(data), notLoaded;
  }

  /** `load_ai_results`: the cells of every mode, method, model, map and query, in the order of its loops. */
  method LoadAiResults(store: Store, reflectionIterations: int, maps: seq<string>, queryIds: seq<string>)
    returns (r: Result<map<Cell, seq<Json>>, string>, notLoaded: nat)
    ensures var load, cells := CellLoader(store, reflectionIterations), AiCells(maps, queryIds);
            r.Err? <==> FirstRaise(load, cells) < |cells|
    ensures var load, cells := CellLoader(store, reflectionIterations), AiCells(maps, queryIds);
            r.Err? ==> CellResult(store, reflectionIterations, cells[FirstRaise(load, cells)]) == Err(r.error)
    ensures r.Ok? ==> forall c :: c in r.value <==> c in AiCells(maps, queryIds)
    ensures r.Ok? ==> forall c :: c in r.value ==> r.value[c] == Stored(CellLoader(store, reflectionIterations), c)
    ensures r.Ok? ==> notLoaded == Failures(CellLoader(store, reflectionIterations), AiCells(maps, queryIds))
  {
    r, notLoaded := LoadCells(CellLoader(store, reflectionIterations), AiCells(maps, queryIds));
  }

  /** With no exception escaping, the failure count never exceeds the number of cells. */
  lemma NotLoadedBound(store: Store, reflectionIterations: int, maps: seq<string>, queryIds: seq<string>)
    ensures Failures(CellLoader(store, reflectionIterations), AiCells(maps, queryIds)) <= 16 * |maps| * |queryIds|
  {
  }

  /** `GROUND_TRUTH_FOLDER_PATH`. */
  const GroundTruthFolder: string := "data/responses"

  /**
   * The `"responses"` dict of a map's ground-truth file. Nothing is caught:
   * a missing file, a missing key or a value without `.items()` raises.
   */
  function HumanResponses(store: Store, mapName: string): (r: Result<map<string, Json>, string>)
    ensures r.Ok? <==> (LoadJson(store, [GroundTruthFolder, mapName + ".json"]).Ok?
                        && LoadJson(store, [GroundTruthFolder, mapName + ".json"]).value.Object?
                        && "responses" in LoadJson(store, [GroundTruthFolder, mapName + ".json"]).value.members
                        && LoadJson(store, [GroundTruthFolder, mapName + ".json"]).value.members["responses"].Object?)
    ensures r.Ok? ==> r.value == LoadJson(store, [GroundTruthFolder, mapName + ".json"]).value.members["responses"].members
  {
    match LoadJson(store, [GroundTruthFolder, mapName + ".json"])
    case Err(e) => Err(e)
    case Ok(Object(m)) =>
      if "responses" !in m then Err("KeyError")
      else if m["responses"].Object? then Ok(m["responses"].members)
      else Err("AttributeError")
    case Ok(_) => Err("TypeError")
  }

  /** Copies the entries of `responses` one by one into a new dict. */
  method CopyResponses(responses: map<string, Json>) returns (entry: map<string, Json>)
    ensures entry == responses
  {
    entry := map[];
    var keys := responses.Keys;
    while keys != {}
      invariant keys <= responses.Keys
      invariant forall k :: k in entry <==> k in responses && k !in keys
      invariant forall k :: k in entry ==> entry[k] == responses[k]
      decreases keys
    {
      var k :| k in keys;
      entry := entry[k := responses[k]];
      keys := keys - {k};
    }
  }

  /**
   * `load_human_results`: per map, the ground-truth `"responses"` entries
   * unchanged; the first map whose file or key is missing raises.
   */
  method LoadHumanResults(store: Store, maps: seq<string>) returns (r: Result<map<string, map<string, Json>>, string>)
    ensures r.Err? <==> exists i :: 0 <= i < |maps| && HumanResponses(store, maps[i]).Err?
    ensures r.Err? ==> exists i :: 0 <= i < |maps| && HumanResponses(store, maps[i]) == Err(r.error)
                                  && forall j :: 0 <= j < i ==> HumanResponses(store, maps[j]).Ok?
    ensures r.Ok? ==> forall m :: m in r.value <==> m in maps
    ensures r.Ok? ==> forall m :: m in r.value ==> r.value[m] == HumanResponses(store, m).value
  {
    var data: map<string, map<string, Json>> := map[];
    for i := 0 to |maps|
      invariant forall m :: m in data <==> m in maps[..i]
      invariant forall m :: m in data ==> HumanResponses(store, m).Ok? && data[m] == HumanResponses(store, m).value
      invariant forall j :: 0 <= j < i ==> HumanResponses(store, maps[j]).Ok?
    {
      var m := maps[i];
      assert maps[..i + 1] == maps[..i] + [m];
      var responses := HumanResponses(store, m);
      if responses.Err? {
        return Err(responses.error);
      }
      var entry := CopyResponses(responses.value);
      data := data[m := entry];
    }
    assert maps[..|maps|] == maps;
    return Ok(data);
  }
}
