/**
 * The experiment driver `main.py`: the four planning workflows and the
 * dispatch in `main`. The LLM providers are one oracle `reply`:
 * `reply(p, messages)(k)` is what provider `p` returns, or raises, on its
 * k-th try at a conversation. `json.loads` is `parses`, `json.dumps` of a map
 * is `dumps`, and the prompt classes' `SYSTEM_PROMPT` texts are `templates`.
 * The result folder is the map `files` from path (a list of path components,
 * as given to `os.path.join`) to content; `calls` records every request sent
 * to a provider with the history it saw.
 */
module Workflows {
  import opened Wrappers
  import opened Strings
  import opened DictUtils
  import opened ConversationHistory
  import LLM = LargeLanguageModel
  import P = Prompt
  import C = ChooserPrompt
  import Constants
  import Preprocess
  import opened Artifacts

  /** The prompt classes whose `SYSTEM_PROMPT` the workflows use. */
  datatype PromptKind = Planner | SelfReflectionSystem | SelfReflectionUser | CorrectionSystem | CorrectionUser | Chooser

  /** The step of a workflow a request belongs to. */
  datatype Step = Plan | Reflect | Correct | Choose(responses: seq<string>)

  /** `generate_json` or a single `generate_text`. */
  datatype CallKind = JsonCall | TextCall

  /** One request: who was asked, how, for which query, and the history sent. */
  datatype Call = Call(provider: Provider, kind: CallKind, step: Step, queryIdx: nat, messages: seq<Dict<string>>)

  /** A workflow either runs to the end or stops at the exception a provider raised. */
  datatype Run = Completed | Aborted(error: string)

  /** A step that returns `r`: it completes exactly when `r` is a value, and aborts with `r`'s exception. */
  function RunOf<T>(r: Result<T, string>): (run: Run)
    ensures run.Completed? <==> r.Ok?
    ensures run.Aborted? ==> run.error == r.error
  {
    if r.Ok? then Completed else Aborted(r.error)
  }

  /**
   * Steps `0 .. n-1` run in order, step `i` ending as `step(i)`; the first
   * exception ends the whole run, as an uncaught exception leaves a loop.
   */
  function FirstAbort(step: nat -> Run, n: nat): Run
  {
    if n == 0 then Completed
    else if FirstAbort(step, n - 1).Aborted? then FirstAbort(step, n - 1)
    else step(n - 1)
  }

  /** A run completes exactly when every step does; otherwise it ends with the first step that aborts. */
  lemma {:induction false} FirstAbortMeaning(step: nat -> Run, n: nat)
    ensures FirstAbort(step, n).Completed? <==> forall i :: 0 <= i < n ==> step(i).Completed?
    ensures FirstAbort(step, n).Aborted? ==>
              exists i :: 0 <= i < n && step(i) == FirstAbort(step, n) && forall j :: 0 <= j < i ==> step(j).Completed?
  {
    if n > 0 {
      FirstAbortMeaning(step, n - 1);
      if FirstAbort(step, n - 1).Completed? && step(n - 1).Aborted? {
        assert step(n - 1) == FirstAbort(step, n);
      }
    }
  }

  /** Once a step aborted, the later steps do not change the outcome. */
  lemma {:induction false} FirstAbortKept(step: nat -> Run, k: nat, n: nat)
    requires k <= n && FirstAbort(step, k).Aborted?
    ensures FirstAbort(step, n) == FirstAbort(step, k)
    decreases n - k
  {
    if k < n {
      FirstAbortKept(step, k, n - 1);
    }
  }

  /** A step that aborts after steps that all completed decides the run. */
  lemma FirstAbortAt(step: nat -> Run, k: nat, n: nat)
    requires k < n && step(k).Aborted?
    requires forall j :: 0 <= j < k ==> step(j).Completed?
    ensures FirstAbort(step, n) == step(k)
  {
    FirstAbortMeaning(step, k);
    FirstAbortKept(step, k + 1, n);
  }

  /** Step `k`, after `k` completed steps, decides the run so far; if it aborts, it decides the whole run. */
  lemma FirstAbortStep(step: nat -> Run, k: nat, n: nat)
    requires k < n && FirstAbort(step, k) == Completed
    ensures FirstAbort(step, k + 1) == step(k)
    ensures step(k).Aborted? ==> FirstAbort(step, n) == step(k)
  {
    if step(k).Aborted? {
      FirstAbortKept(step, k + 1, n);
    }
  }

  /** `{"semantic_map": s}`, the keyword data of the map-carrying prompts. */
  function MapData(mapStr: string): P.PromptData
  {
    [("semantic_map", mapStr)]
  }

  /** The three replies of one reflection round: first plan, self-reflection, corrected plan. */
  datatype Replies = Replies(plan: string, reflection: string, correction: string)

  /** The query folder holds `first_plan.json`, `self_reflection.txt` and `final_plan.json` with the three replies. */
  predicate RepliesSaved(files: map<Path, string>, dir: Path, r: Replies)
  {
    Holds(files, dir + ["first_plan.json"], Ok(r.plan))
    && Holds(files, dir + ["self_reflection.txt"], Ok(r.reflection))
    && Holds(files, dir + ["final_plan.json"], Ok(r.correction))
  }

  /** A step that stays in a folder apart from the query folder keeps its three files. */
  lemma RepliesSavedApart(before: map<Path, string>, after: map<Path, string>, dir: Path, folder: Path, r: Replies)
    requires OnlyUnder(before, after, dir) && Apart(folder, dir) && RepliesSaved(before, folder, r)
    ensures RepliesSaved(after, folder, r)
  {
    HoldsApart(before, after, dir, folder, "first_plan.json", Ok(r.plan));
    HoldsApart(before, after, dir, folder, "self_reflection.txt", Ok(r.reflection));
    HoldsApart(before, after, dir, folder, "final_plan.json", Ok(r.correction));
  }

  /** Every query folder `0 .. |rs|-1` of provider `p` holds that query's replies. */
  predicate AllRepliesSaved(files: map<Path, string>, mode: string, methodName: string, p: Provider, mapName: string, rs: seq<Replies>)
  {
    forall qi :: 0 <= qi < |rs| ==> RepliesSaved(files, QueryDir(mode, methodName, Some(p), mapName, qi), rs[qi])
  }

  /** Saving the next query's replies in its own folder keeps the folders of the queries before it. */
  lemma AllRepliesSavedStep(before: map<Path, string>, after: map<Path, string>, mode: string, methodName: string,
                            p: Provider, mapName: string, rs: seq<Replies>, r: Replies)
    requires AllRepliesSaved(before, mode, methodName, p, mapName, rs)
    requires OnlyUnder(before, after, QueryDir(mode, methodName, Some(p), mapName, |rs|))
    requires RepliesSaved(after, QueryDir(mode, methodName, Some(p), mapName, |rs|), r)
    ensures AllRepliesSaved(after, mode, methodName, p, mapName, rs + [r])
  {
    var dir := QueryDir(mode, methodName, Some(p), mapName, |rs|);
    forall qi | 0 <= qi < |rs| + 1
      ensures RepliesSaved(after, QueryDir(mode, methodName, Some(p), mapName, qi), (rs + [r])[qi])
    {
      if qi < |rs| {
        QueryDirsApart(mode, methodName, Some(p), mapName, qi, |rs|);
        RepliesSavedApart(before, after, dir, QueryDir(mode, methodName, Some(p), mapName, qi), rs[qi]);
      }
    }
  }

  /** Another provider's pass leaves a provider's query folders as they were. */
  lemma AllRepliesSavedOtherProvider(before: map<Path, string>, after: map<Path, string>, mode: string, methodName: string,
                                     p: Provider, q: Provider, mapName: string, rs: seq<Replies>)
    requires q != p
    requires OnlyUnder(before, after, ProviderDir(mode, methodName, p))
    requires AllRepliesSaved(before, mode, methodName, q, mapName, rs)
    ensures AllRepliesSaved(after, mode, methodName, q, mapName, rs)
  {
    ProviderDirsApart(mode, methodName, q, p);
    forall qi | 0 <= qi < |rs|
      ensures RepliesSaved(after, QueryDir(mode, methodName, Some(q), mapName, qi), rs[qi])
    {
      var folder := QueryDir(mode, methodName, Some(q), mapName, qi);
      QueryDirInProviderDir(mode, methodName, q, mapName, qi);
      ApartInside(folder, ProviderDir(mode, methodName, q), ProviderDir(mode, methodName, p));
      RepliesSavedApart(before, after, ProviderDir(mode, methodName, p), folder, rs[qi]);
    }
  }

  /** One request per query and provider: one provider more is `n` requests more. */
  lemma OneProviderMore(pi: nat, n: nat)
    ensures (pi + 1) * n == pi * n + n
  {
  }

  /** Three requests per query and provider: one provider more is `3 * n` requests more. */
  lemma ThreeRoundsMore(pi: nat, n: nat)
    ensures 3 * (pi + 1) * n == 3 * pi * n + 3 * n
  {
  }

  /** The prefix of length `k + 1` is the prefix of length `k` and the `k`-th element. */
  lemma PrefixStep<T>(s: seq<T>, k: nat)
    requires k < |s|
    ensures s[..k + 1][..k] == s[..k] && s[..k + 1][k] == s[k] && |s[..k + 1]| == k + 1
  {
  }

  /** Appending keeps every prefix. */
  /** A request by `p` for query `qi` on a freshly cleared history: its system message and one user message. */
  predicate FreshCall(c: Call, p: Provider, qi: nat)
  {
    c.provider == p && c.queryIdx == qi && |c.messages| == 2
  }

  /** Requests `start..` of `mid` that were fresh stay fresh once `all` extends `mid` with more fresh ones. */
  lemma FreshCallsJoin(start: nat, mid: seq<Call>, all: seq<Call>, p: Provider, qi: nat)
    requires start <= |mid| <= |all| && all[..|mid|] == mid
    requires forall j :: start <= j < |mid| ==> FreshCall(mid[j], p, qi)
    requires forall j :: |mid| <= j < |all| ==> FreshCall(all[j], p, qi)
    ensures all[..start] == mid[..start]
    ensures forall j :: start <= j < |all| ==> FreshCall(all[j], p, qi)
  {
    forall j | start <= j < |mid|
      ensures all[j] == mid[j]
    {
      assert all[j] == all[..|mid|][j];
    }
  }

  /** The same for requests that are only known to be by `p` for query `qi`. */
  lemma QueryCallsJoin(start: nat, mid: seq<Call>, all: seq<Call>, p: Provider, qi: nat)
    requires start <= |mid| <= |all| && all[..|mid|] == mid
    requires forall j :: start <= j < |mid| ==> mid[j].provider == p && mid[j].queryIdx == qi
    requires forall j :: |mid| <= j < |all| ==> all[j].provider == p && all[j].queryIdx == qi
    ensures all[..start] == mid[..start]
    ensures forall j :: start <= j < |all| ==> all[j].provider == p && all[j].queryIdx == qi
  {
    forall j | start <= j < |mid|
      ensures all[j] == mid[j]
    {
      assert all[j] == all[..|mid|][j];
    }
  }

  /** The same for requests that are only known to be by `p`. */
  lemma ProviderCallsJoin(start: nat, mid: seq<Call>, all: seq<Call>, p: Provider)
    requires start <= |mid| <= |all| && all[..|mid|] == mid
    requires forall j :: start <= j < |mid| ==> mid[j].provider == p
    requires forall j :: |mid| <= j < |all| ==> all[j].provider == p
    ensures all[..start] == mid[..start]
    ensures forall j :: start <= j < |all| ==> all[j].provider == p
  {
    forall j | start <= j < |mid|
      ensures all[j] == mid[j]
    {
      assert all[j] == all[..|mid|][j];
    }
  }

  /** The same for requests that are only known to be by `p` on two messages. */
  lemma PairCallsJoin(start: nat, mid: seq<Call>, all: seq<Call>, p: Provider)
    requires start <= |mid| <= |all| && all[..|mid|] == mid
    requires forall j :: start <= j < |mid| ==> mid[j].provider == p && |mid[j].messages| == 2
    requires forall j :: |mid| <= j < |all| ==> all[j].provider == p && |all[j].messages| == 2
    ensures all[..start] == mid[..start]
    ensures forall j :: start <= j < |all| ==> all[j].provider == p && |all[j].messages| == 2
  {
    forall j | start <= j < |mid|
      ensures all[j] == mid[j]
    {
      assert all[j] == all[..|mid|][j];
    }
  }

  lemma AppendAssoc<T>(a: seq<T>, b: seq<T>, x: T)
    ensures (a + b) + [x] == a + (b + [x])
  {
  }

  lemma AppendKeepsPrefix<T>(s: seq<T>, x: T, n: nat)
    requires n <= |s|
    ensures (s + [x])[..n] == s[..n]
  {
  }

  /** A non-empty sequence is its prefix followed by its last element. */
  lemma LastSplit<T>(s: seq<T>, n: nat)
    requires n + 1 == |s|
    ensures s[..n] + [s[n]] == s
  {
  }

  /** The three conversations `plan_multiagent_reflection` keeps for one provider: planner, self-reflector, corrector. */
  datatype Agents = Agents(planner: seq<Dict<string>>, reflector: seq<Dict<string>>, corrector: seq<Dict<string>>)

  /** What one `generate_text` try yields: the text, or the exception raised. */
  function TextOf(answer: LLM.Reply): Result<string, string>
  {
    match answer
    case Text(t) => Ok(t)
    case Raised(e) => Err(e)
  }

  /**
   * One agent's turn, given the replies and the prompts: the history with
   * the user message and the answer appended, and the answer; or the
   * exception.
   */
  function AgentStepOf(json: (Provider, seq<Dict<string>>) -> Result<string, string>,
                       reply: (Provider, seq<Dict<string>>) -> (nat -> LLM.Reply),
                       p: Provider, kind: CallKind, history: seq<Dict<string>>, user: string)
    : Result<(seq<Dict<string>>, string), string>
  {
    var asked := history + [UserMessage(user)];
    match (if kind == JsonCall then json(p, asked) else TextOf(reply(p, asked)(1)))
    case Err(e) => Err(e)
    case Ok(answer) => Ok((asked + [AssistantMessage(answer)], answer))
  }

  /** The rest of a round once the planner answered `plan`: the self-reflector's and the corrector's turns. */
  function ReviewTurnOf(json: (Provider, seq<Dict<string>>) -> Result<string, string>,
                        reply: (Provider, seq<Dict<string>>) -> (nat -> LLM.Reply),
                        prompt: (PromptKind, P.PromptData) -> string,
                        p: Provider, a: Agents, query: string, plan: string): Result<(Agents, Replies), string>
  {
    match AgentStepOf(json, reply, p, TextCall, a.reflector, prompt(SelfReflectionUser, [("query", query), ("preliminary_response", plan)]))
    case Err(e) => Err(e)
    case Ok(reflected) =>
      match AgentStepOf(json, reply, p, JsonCall, a.corrector,
                        prompt(CorrectionUser, [("plan_response", plan), ("self_reflection_response", reflected.1)]))
      case Err(e) => Err(e)
      case Ok(corrected) =>
        Ok((Agents(a.planner, reflected.0, corrected.0), Replies(plan, reflected.1, corrected.1)))
  }

  /** One query's round: the planner's turn, then the review of its plan. */
  function AgentsTurnOf(json: (Provider, seq<Dict<string>>) -> Result<string, string>,
                        reply: (Provider, seq<Dict<string>>) -> (nat -> LLM.Reply),
                        prompt: (PromptKind, P.PromptData) -> string,
                        p: Provider, a: Agents, query: string): Result<(Agents, Replies), string>
  {
    match AgentStepOf(json, reply, p, JsonCall, a.planner, query)
    case Err(e) => Err(e)
    case Ok(planned) => ReviewTurnOf(json, reply, prompt, p, a.(planner := planned.0), query, planned.1)
  }

  /** One query of `plan_ensembling`: the plans of the four providers, in provider order, and the chooser's reply. */
  datatype Round = Round(plans: seq<string>, choice: string)

  /** `plan_responses` after the given rounds: every round's plans, in order, never reset between queries. */
  function Responses(rounds: seq<Round>): seq<string>
  {
    if rounds == [] then [] else Responses(rounds[..|rounds| - 1]) + rounds[|rounds| - 1].plans
  }

  /** One more round appends its plans. */
  lemma ResponsesSnoc(rounds: seq<Round>, r: Round)
    ensures Responses(rounds + [r]) == Responses(rounds) + r.plans
  {
    var s := rounds + [r];
    assert s[..|s| - 1] == rounds && s[|s| - 1] == r;
  }

  /** With four plans a round, plan `k` of query `qj` sits at position `4 * qj + k` of `plan_responses`. */
  lemma {:induction false} ResponsesLayout(rounds: seq<Round>)
    requires forall qi :: 0 <= qi < |rounds| ==> |rounds[qi].plans| == |Providers|
    ensures |Responses(rounds)| == |Providers| * |rounds|
    ensures forall qj, k :: 0 <= qj < |rounds| && 0 <= k < |Providers| ==>
              Responses(rounds)[|Providers| * qj + k] == rounds[qj].plans[k]
  {
    if rounds != [] {
      var init := rounds[..|rounds| - 1];
      ResponsesLayout(init);
      var last := rounds[|rounds| - 1];
      assert rounds == init + [last];
      ResponsesSnoc(init, last);
      forall qj, k | 0 <= qj < |rounds| && 0 <= k < |Providers|
        ensures Responses(rounds)[|Providers| * qj + k] == rounds[qj].plans[k]
      {
        if qj < |init| {
          assert rounds[qj] == init[qj];
        }
      }
    }
  }

  /** The first `|plans|` providers' plan files in `dir` hold their plans. */
  predicate PlansSaved(files: map<Path, string>, dir: Path, plans: seq<string>)
  {
    |plans| <= |Providers|
    && forall k :: 0 <= k < |plans| ==> Holds(files, dir + [PlanFile(Providers[k])], Ok(plans[k]))
  }

  /** The query folder holds the four plan files and `choice.json`. */
  predicate RoundSaved(files: map<Path, string>, dir: Path, r: Round)
  {
    |r.plans| == |Providers| && PlansSaved(files, dir, r.plans) && Holds(files, dir + ["choice.json"], Ok(r.choice))
  }

  /** Every query folder `0 .. |rounds|-1` of the ensemble holds that query's round. */
  predicate AllRoundsSaved(files: map<Path, string>, mode: string, mapName: string, rounds: seq<Round>)
  {
    forall qi :: 0 <= qi < |rounds| ==> RoundSaved(files, QueryDir(mode, Constants.MethodEnsemble, None, mapName, qi), rounds[qi])
  }

  /** Saving the next provider's plan keeps the plans saved before it. */
  lemma PlansSavedStep(files: map<Path, string>, dir: Path, plans: seq<string>, plan: string)
    requires PlansSaved(files, dir, plans) && |plans| < |Providers|
    ensures PlansSaved(files[dir + [PlanFile(Providers[|plans|])] := plan], dir, plans + [plan])
  {
    var path := dir + [PlanFile(Providers[|plans|])];
    forall k | 0 <= k < |plans|
      ensures dir + [PlanFile(Providers[k])] != path
    {
      PlanFileInjective(Providers[k], Providers[|plans|]);
      SiblingsDistinct(dir, PlanFile(Providers[k]), PlanFile(Providers[|plans|]));
    }
  }

  /** Saving `choice.json` keeps the plan files. */
  lemma PlansSavedByChoice(files: map<Path, string>, dir: Path, plans: seq<string>, choice: string)
    requires PlansSaved(files, dir, plans)
    ensures PlansSaved(files[dir + ["choice.json"] := choice], dir, plans)
  {
    forall k | 0 <= k < |plans|
      ensures dir + [PlanFile(Providers[k])] != dir + ["choice.json"]
    {
      PlanFileInjective(Providers[k], Providers[k]);
      SiblingsDistinct(dir, PlanFile(Providers[k]), "choice.json");
    }
  }

  /** A step that stays in a folder apart from the query folder keeps its round. */
  lemma RoundSavedApart(before: map<Path, string>, after: map<Path, string>, dir: Path, folder: Path, r: Round)
    requires OnlyUnder(before, after, dir) && Apart(folder, dir) && RoundSaved(before, folder, r)
    ensures RoundSaved(after, folder, r)
  {
    forall k | 0 <= k < |r.plans|
      ensures Holds(after, folder + [PlanFile(Providers[k])], Ok(r.plans[k]))
    {
      HoldsApart(before, after, dir, folder, PlanFile(Providers[k]), Ok(r.plans[k]));
    }
    HoldsApart(before, after, dir, folder, "choice.json", Ok(r.choice));
  }

  /**
   * The requests one map costs `main` when it runs to the end: one per
   * provider and query for `base`, three for each reflection method, and
   * the four plans plus the chooser per query for `ensemble`; none for a
   * name that selects no planner.
   */
  function CallsPerMap(methodName: string, n: nat): nat
  {
    if methodName == Constants.MethodBase then |Providers| * n
    else if methodName == Constants.MethodSelfReflection || methodName == Constants.MethodMultiagentReflection then 3 * |Providers| * n
    else if methodName == Constants.MethodEnsemble then (|Providers| + 1) * n
    else 0
  }

  /** Saving the next query's round in its own folder keeps the rounds of the queries before it. */
  lemma AllRoundsSavedStep(before: map<Path, string>, after: map<Path, string>, mode: string, mapName: string,
                           rounds: seq<Round>, r: Round)
    requires AllRoundsSaved(before, mode, mapName, rounds)
    requires OnlyUnder(before, after, QueryDir(mode, Constants.MethodEnsemble, None, mapName, |rounds|))
    requires RoundSaved(after, QueryDir(mode, Constants.MethodEnsemble, None, mapName, |rounds|), r)
    ensures AllRoundsSaved(after, mode, mapName, rounds + [r])
  {
    var dir := QueryDir(mode, Constants.MethodEnsemble, None, mapName, |rounds|);
    forall qi | 0 <= qi < |rounds| + 1
      ensures RoundSaved(after, QueryDir(mode, Constants.MethodEnsemble, None, mapName, qi), (rounds + [r])[qi])
    {
      if qi < |rounds| {
        QueryDirsApart(mode, Constants.MethodEnsemble, None, mapName, qi, |rounds|);
        RoundSavedApart(before, after, dir, QueryDir(mode, Constants.MethodEnsemble, None, mapName, qi), rounds[qi]);
      }
    }
  }

  class Experiment {
    const reply: (Provider, seq<Dict<string>>) -> (nat -> LLM.Reply)
    const parses: string -> bool
    const templates: PromptKind -> string
    const dumps: Preprocess.SemanticMap -> string
    const roundFloats: Preprocess.SemanticMap -> Preprocess.SemanticMap
    /** What `generate_json` returns for a history; see `JsonCoherent`. */
    const jsonReply: (Provider, seq<Dict<string>>) -> Result<string, string>
    /** `get_prompt_text` of a prompt class with the given data; see `PromptCoherent`. */
    const promptText: (PromptKind, P.PromptData) -> string
    /** `get_prompt_text` of the chooser prompt; see `PromptCoherent`. */
    const chooserText: (seq<string>, string) -> string
    /** One round of `plan_multiagent_reflection`; see `TurnCoherent`. */
    const turn: (Provider, Agents, string) -> Result<(Agents, Replies), string>

    /** The result folder. */
    var files: map<Path, string>
    /** Every request sent to a provider, in order. */
    var calls: seq<Call>

    constructor(reply: (Provider, seq<Dict<string>>) -> (nat -> LLM.Reply), parses: string -> bool,
                templates: PromptKind -> string, dumps: Preprocess.SemanticMap -> string,
                roundFloats: Preprocess.SemanticMap -> Preprocess.SemanticMap)
      ensures this.reply == reply && this.parses == parses && this.templates == templates
      ensures this.dumps == dumps && this.roundFloats == roundFloats
      ensures files == map[] && calls == []
      ensures Coherent()
    {
      this.reply := reply;
      this.parses := parses;
      this.templates := templates;
      this.dumps := dumps;
      this.roundFloats := roundFloats;
      var json := (p, messages) => LLM.JsonFrom(reply(p, messages), LLM.CleanResponse, parses, 1);
      var prompt := (kind, data) => P.PromptText(P.Prompt(templates(kind), data));
      this.jsonReply := json;
      this.promptText := prompt;
      this.turn := (p, a, query) => AgentsTurnOf(json, reply, prompt, p, a, query);
      this.chooserText := (rs, mapStr) => C.ChooserText(C.ChooserPrompt(templates(Chooser), rs, MapData(mapStr)));
      files := map[];
      calls := [];
    }

    /**
     * The derived oracles are the retry loop of `generate_json` over `reply`
     * and the prompt classes over `templates`. They are fields so that the
     * workflows can speak of a reply or a prompt without unfolding either.
     */
    ghost predicate Coherent()
    {
      JsonCoherent() && PromptCoherent() && TurnCoherent()
    }

    /** `jsonReply` is the retry loop of `generate_json` over `reply`, with `_clean_response`. */
    ghost predicate JsonCoherent()
    {
      forall p, messages {:trigger LLM.JsonFrom(reply(p, messages), LLM.CleanResponse, parses, 1)} ::
        jsonReply(p, messages) == LLM.JsonFrom(reply(p, messages), LLM.CleanResponse, parses, 1)
    }

    /** `promptText` and `chooserText` are the prompt classes over `templates`. */
    ghost predicate PromptCoherent()
    {
      (forall kind, data {:trigger P.PromptText(P.Prompt(templates(kind), data))} ::
         promptText(kind, data) == P.PromptText(P.Prompt(templates(kind), data)))
      && (forall rs, mapStr {:trigger C.ChooserText(C.ChooserPrompt(templates(Chooser), rs, MapData(mapStr)))} ::
            chooserText(rs, mapStr) == C.ChooserText(C.ChooserPrompt(templates(Chooser), rs, MapData(mapStr))))
    }

    /** `turn` is one round of the three agents over `jsonReply`, `reply` and `promptText`. */
    ghost predicate TurnCoherent()
    {
      forall p, a, query {:trigger AgentsTurnOf(jsonReply, reply, promptText, p, a, query)} ::
        turn(p, a, query) == AgentsTurnOf(jsonReply, reply, promptText, p, a, query)
    }

    /** `SomePrompt(**data).get_prompt_text()`. */
    function PromptText(kind: PromptKind, data: P.PromptData): string
    {
      promptText(kind, data)
    }

    /** The system prompt of the map-carrying planner, `PlannerPrompt(semantic_map=...)`. */
    function PlannerText(mapStr: string): string
    {
      PromptText(Planner, MapData(mapStr))
    }

    /** `ChooserPrompt(llm_responses=rs, semantic_map=...).get_prompt_text()`. */
    function ChooserText(rs: seq<string>, mapStr: string): string
    {
      chooserText(rs, mapStr)
    }

    /** What `generate_json` returns for this history. */
    function JsonReply(p: Provider, messages: seq<Dict<string>>): Result<string, string>
    {
      jsonReply(p, messages)
    }

    /** What one `generate_text` returns for this history. */
    function TextReply(p: Provider, messages: seq<Dict<string>>): Result<string, string>
    {
      TextOf(reply(p, messages)(1))
    }

    /** `llm_provider.generate_json(history)`, recorded. */
    method GenerateJson(p: Provider, h: History, step: Step, queryIdx: nat) returns (r: Result<string, string>)
      requires JsonCoherent()
      modifies this
      ensures calls == old(calls) + [Call(p, JsonCall, step, queryIdx, h.messages)]
      ensures files == old(files)
      ensures r == JsonReply(p, h.messages)
    {
      ghost var attempts: nat;
      r, attempts := LLM.GenerateJson(reply(p, h.messages), LLM.CleanResponse, parses);
      calls := calls + [Call(p, JsonCall, step, queryIdx, h.messages)];
    }

    /** `llm_provider.generate_text(history)`, recorded. */
    method GenerateText(p: Provider, h: History, step: Step, queryIdx: nat) returns (r: Result<string, string>)
      modifies this
      ensures calls == old(calls) + [Call(p, TextCall, step, queryIdx, h.messages)]
      ensures files == old(files)
      ensures r == TextReply(p, h.messages)
    {
      var answer := reply(p, h.messages)(1);
      if answer.Raised? {
        r := Err(answer.error);
      } else {
        r := Ok(answer.text);
      }
      calls := calls + [Call(p, TextCall, step, queryIdx, h.messages)];
    }

    /** `save_json_str_to_file` / `save_text_to_file`: the file at `path` now holds `content`. */
    method Save(path: Path, content: string)
      modifies this
      ensures files == old(files)[path := content]
      ensures calls == old(calls)
    {
      files := files[path := content];
    }

    /** The history `plan_base` sends for one query: the planner prompt, then the query. */
    function BaseHistory(mapStr: string, query: string): seq<Dict<string>>
    {
      [SystemMessage(PlannerText(mapStr)), UserMessage(query)]
    }

    /** A request of `plan_base`: a fresh `[system(planner), user(query)]` history. */
    predicate BaseCall(c: Call, mapStr: string, queries: seq<string>)
    {
      c.kind == JsonCall && c.step == Plan && c.queryIdx < |queries|
      && c.messages == BaseHistory(mapStr, queries[c.queryIdx])
    }

    /** `final_plan.json` of `plan_base` for provider `p` and query `qi` holds that history's reply. */
    predicate BaseWritten(files: map<Path, string>, mode: string, mapName: string, mapStr: string,
                          queries: seq<string>, p: Provider, qi: nat)
      requires qi < |queries|
    {
      Holds(files, ArtifactPath(mode, Constants.MethodBase, Some(p), mapName, qi, "final_plan.json"),
            JsonReply(p, BaseHistory(mapStr, queries[qi])))
    }

    /** Query `qi` of `plan_base` for provider `p` ends as its one `generate_json` does. */
    function BaseSteps(p: Provider, mapStr: string, queries: seq<string>): nat -> Run
    {
      (qi: nat) => if qi < |queries| then RunOf(JsonReply(p, BaseHistory(mapStr, queries[qi]))) else Completed
    }

    /** How provider `p`'s pass of `plan_base` ends. */
    function BaseOutcome(p: Provider, mapStr: string, queries: seq<string>): Run
    {
      FirstAbort(BaseSteps(p, mapStr, queries), |queries|)
    }

    /** Provider `p`'s pass completes exactly when no request raises, and otherwise ends with the first exception. */
    lemma BaseOutcomeMeaning(p: Provider, mapStr: string, queries: seq<string>)
      ensures BaseOutcome(p, mapStr, queries).Completed? <==>
                forall qi :: 0 <= qi < |queries| ==> JsonReply(p, BaseHistory(mapStr, queries[qi])).Ok?
      ensures BaseOutcome(p, mapStr, queries).Aborted? ==>
                exists qi :: 0 <= qi < |queries| && JsonReply(p, BaseHistory(mapStr, queries[qi])) == Err(BaseOutcome(p, mapStr, queries).error)
                             && forall qj :: 0 <= qj < qi ==> JsonReply(p, BaseHistory(mapStr, queries[qj])).Ok?
    {
      var steps := BaseSteps(p, mapStr, queries);
      FirstAbortMeaning(steps, |queries|);
      assert forall qi :: 0 <= qi < |queries| ==> steps(qi) == RunOf(JsonReply(p, BaseHistory(mapStr, queries[qi])));
    }

    /** The outcome of `plan_base`: the providers in order, each over every query. */
    function BaseProviderSteps(mapStr: string, queries: seq<string>): nat -> Run
    {
      (pi: nat) => if pi < |Providers| then BaseOutcome(Providers[pi], mapStr, queries) else Completed
    }

    /** How `plan_base` ends. */
    function PlanBaseOutcome(mapStr: string, queries: seq<string>): Run
    {
      FirstAbort(BaseProviderSteps(mapStr, queries), |Providers|)
    }

    /**
     * `plan_base` completes exactly when no provider raises on any query;
     * otherwise it ends with the exception of the first provider that
     * raised, at that provider's first failing query.
     */
    lemma PlanBaseOutcomeMeaning(mapStr: string, queries: seq<string>)
      ensures PlanBaseOutcome(mapStr, queries).Completed? <==>
                forall pi, qi :: 0 <= pi < |Providers| && 0 <= qi < |queries| ==>
                  JsonReply(Providers[pi], BaseHistory(mapStr, queries[qi])).Ok?
      ensures PlanBaseOutcome(mapStr, queries).Aborted? ==>
                exists pi :: 0 <= pi < |Providers| && BaseOutcome(Providers[pi], mapStr, queries) == PlanBaseOutcome(mapStr, queries)
                             && forall pj :: 0 <= pj < pi ==> BaseOutcome(Providers[pj], mapStr, queries).Completed?
    {
      var steps := BaseProviderSteps(mapStr, queries);
      FirstAbortMeaning(steps, |Providers|);
      forall pi | 0 <= pi < |Providers|
        ensures steps(pi) == BaseOutcome(Providers[pi], mapStr, queries)
        ensures BaseOutcome(Providers[pi], mapStr, queries).Completed? <==>
                  forall qi :: 0 <= qi < |queries| ==> JsonReply(Providers[pi], BaseHistory(mapStr, queries[qi])).Ok?
      {
        BaseOutcomeMeaning(Providers[pi], mapStr, queries);
      }
    }

    /** One query of `plan_base` for provider `p`. */
    method PlanBaseQuery(mode: string, mapName: string, mapStr: string, query: string, p: Provider, qi: nat)
      returns (run: Run)
      requires JsonCoherent()
      modifies this
      ensures calls == old(calls) + [Call(p, JsonCall, Plan, qi, BaseHistory(mapStr, query))]
      ensures run.Completed? <==> JsonReply(p, BaseHistory(mapStr, query)).Ok?
      ensures run.Aborted? ==> files == old(files) && run.error == JsonReply(p, BaseHistory(mapStr, query)).error
      ensures run.Completed? ==> files == old(files)[ArtifactPath(mode, Constants.MethodBase, Some(p), mapName, qi, "final_plan.json")
                                                     := JsonReply(p, BaseHistory(mapStr, query)).value]
    {
      var history := new History();
      history.AppendSystemMessage(PlannerText(mapStr));
      history.AppendUserMessage(query);
      assert history.messages == BaseHistory(mapStr, query);
      var response := GenerateJson(p, history, Plan, qi);
      if response.Err? {
        return Aborted(response.error);
      }
      Save(ArtifactPath(mode, Constants.MethodBase, Some(p), mapName, qi, "final_plan.json"), response.value);
      return Completed;
    }

    /**
     * One provider's pass of `plan_base`: every query in order, files under
     * the provider's folder only. It completes exactly when no request
     * raises, and otherwise ends with the first request's exception.
     */
    method PlanBaseWith(mode: string, mapName: string, mapStr: string, queries: seq<string>, p: Provider)
      returns (run: Run)
      requires JsonCoherent()
      modifies this
      ensures |old(calls)| <= |calls| && calls[..|old(calls)|] == old(calls)
      ensures forall j :: |old(calls)| <= j < |calls| ==> calls[j].provider == p && BaseCall(calls[j], mapStr, queries)
      ensures run.Completed? ==> |calls| == |old(calls)| + |queries|
      ensures run.Completed? ==> forall qi :: 0 <= qi < |queries| ==> BaseWritten(files, mode, mapName, mapStr, queries, p, qi)
      ensures OnlyUnder(old(files), files, ProviderDir(mode, Constants.MethodBase, p))
      ensures run == BaseOutcome(p, mapStr, queries)
      ensures run.Completed? <==> forall qi :: 0 <= qi < |queries| ==> JsonReply(p, BaseHistory(mapStr, queries[qi])).Ok?
      ensures run.Aborted? ==>
                exists qi :: 0 <= qi < |queries| && JsonReply(p, BaseHistory(mapStr, queries[qi])) == Err(run.error)
                             && forall qj :: 0 <= qj < qi ==> JsonReply(p, BaseHistory(mapStr, queries[qj])).Ok?
    {
      run := BaseQueries(mode, mapName, mapStr, queries, p);
      BaseOutcomeMeaning(p, mapStr, queries);
    }

    /** The loop over the queries of one provider's pass of `plan_base`. */
    method BaseQueries(mode: string, mapName: string, mapStr: string, queries: seq<string>, p: Provider)
      returns (run: Run)
      requires JsonCoherent()
      modifies this
      ensures |old(calls)| <= |calls| && calls[..|old(calls)|] == old(calls)
      ensures forall j :: |old(calls)| <= j < |calls| ==> calls[j].provider == p && BaseCall(calls[j], mapStr, queries)
      ensures run.Completed? ==> |calls| == |old(calls)| + |queries|
      ensures run.Completed? ==> forall qi :: 0 <= qi < |queries| ==> BaseWritten(files, mode, mapName, mapStr, queries, p, qi)
      ensures OnlyUnder(old(files), files, ProviderDir(mode, Constants.MethodBase, p))
      ensures run == BaseOutcome(p, mapStr, queries)
    {
      var dir := ProviderDir(mode, Constants.MethodBase, p);
      for qi := 0 to |queries|
        invariant FirstAbort(BaseSteps(p, mapStr, queries), qi) == Completed
        invariant |calls| == |old(calls)| + qi && calls[..|old(calls)|] == old(calls)
        invariant forall j :: |old(calls)| <= j < |calls| ==> calls[j].provider == p && BaseCall(calls[j], mapStr, queries)
        invariant forall qj :: 0 <= qj < qi ==> BaseWritten(files, mode, mapName, mapStr, queries, p, qj)
        invariant OnlyUnder(old(files), files, dir)
      {
        run := BaseQueryStep(mode, mapName, mapStr, queries, p, qi, old(calls), old(files));
        if run.Aborted? {
          return;
        }
      }
      return Completed;
    }

    /** Query `qi` of one provider's pass of `plan_base`, joined to the queries before it. */
    method BaseQueryStep(mode: string, mapName: string, mapStr: string, queries: seq<string>, p: Provider, qi: nat,
                         ghost calls0: seq<Call>, ghost files0: map<Path, string>)
      returns (run: Run)
      requires JsonCoherent()
      requires qi < |queries|
      requires |calls| == |calls0| + qi && calls[..|calls0|] == calls0
      requires forall j :: |calls0| <= j < |calls| ==> calls[j].provider == p && BaseCall(calls[j], mapStr, queries)
      requires forall qj :: 0 <= qj < qi ==> BaseWritten(files, mode, mapName, mapStr, queries, p, qj)
      requires OnlyUnder(files0, files, ProviderDir(mode, Constants.MethodBase, p))
      requires FirstAbort(BaseSteps(p, mapStr, queries), qi) == Completed
      modifies this
      ensures |calls| == |calls0| + qi + 1 && calls[..|calls0|] == calls0
      ensures forall j :: |calls0| <= j < |calls| ==> calls[j].provider == p && BaseCall(calls[j], mapStr, queries)
      ensures run.Completed? ==> forall qj :: 0 <= qj < qi + 1 ==> BaseWritten(files, mode, mapName, mapStr, queries, p, qj)
      ensures OnlyUnder(files0, files, ProviderDir(mode, Constants.MethodBase, p))
      ensures FirstAbort(BaseSteps(p, mapStr, queries), qi + 1) == run
      ensures run.Aborted? ==> run == BaseOutcome(p, mapStr, queries)
    {
      run := PlanBaseQuery(mode, mapName, mapStr, queries[qi], p, qi);
      AppendKeepsPrefix(old(calls), calls[|old(calls)|], |calls0|);
      BaseStepJoins(p, mapStr, queries, qi, run);
      if run.Aborted? {
        return;
      }
      var path := ArtifactPath(mode, Constants.MethodBase, Some(p), mapName, qi, "final_plan.json");
      assert path[..4] == ProviderDir(mode, Constants.MethodBase, p);
      OnlyUnderSave(files0, old(files), ProviderDir(mode, Constants.MethodBase, p), path, files[path]);
      BaseWrittenByQuery(old(files), mode, mapName, mapStr, queries, p, qi);
    }

    /** Query `qi` extends the pass over the queries before it; an exception there ends the pass. */
    lemma BaseStepJoins(p: Provider, mapStr: string, queries: seq<string>, qi: nat, run: Run)
      requires qi < |queries| && FirstAbort(BaseSteps(p, mapStr, queries), qi) == Completed
      requires run == RunOf(JsonReply(p, BaseHistory(mapStr, queries[qi])))
      ensures FirstAbort(BaseSteps(p, mapStr, queries), qi + 1) == run
      ensures run.Aborted? ==> BaseOutcome(p, mapStr, queries) == run
    {
      if run.Aborted? {
        FirstAbortKept(BaseSteps(p, mapStr, queries), qi + 1, |queries|);
      }
    }

    /** Saving query `qi`'s reply keeps the files of the queries before it. */
    lemma BaseWrittenByQuery(before: map<Path, string>, mode: string, mapName: string, mapStr: string,
                             queries: seq<string>, p: Provider, qi: nat)
      requires qi < |queries| && JsonReply(p, BaseHistory(mapStr, queries[qi])).Ok?
      requires forall qj :: 0 <= qj < qi ==> BaseWritten(before, mode, mapName, mapStr, queries, p, qj)
      ensures var after := before[ArtifactPath(mode, Constants.MethodBase, Some(p), mapName, qi, "final_plan.json")
                                  := JsonReply(p, BaseHistory(mapStr, queries[qi])).value];
              forall qj :: 0 <= qj < qi + 1 ==> BaseWritten(after, mode, mapName, mapStr, queries, p, qj)
    {
      var path := ArtifactPath(mode, Constants.MethodBase, Some(p), mapName, qi, "final_plan.json");
      var after := before[path := JsonReply(p, BaseHistory(mapStr, queries[qi])).value];
      forall qj | 0 <= qj < qi + 1
        ensures BaseWritten(after, mode, mapName, mapStr, queries, p, qj)
      {
        var other := ArtifactPath(mode, Constants.MethodBase, Some(p), mapName, qj, "final_plan.json");
        if qj < qi {
          assert BaseWritten(before, mode, mapName, mapStr, queries, p, qj);
          if other == path {
            ArtifactPathInjective(mode, Constants.MethodBase, Some(p), Some(p), mapName, qj, qi, "final_plan.json", "final_plan.json");
          }
        }
      }
    }

    /**
     * `plan_base`: for every provider and query, a new history with the
     * planner prompt and the query, one `generate_json`, and the response
     * saved as `final_plan.json` under the provider's folder.
     */
    method PlanBase(mode: string, mapName: string, mapStr: string, queries: seq<string>) returns (run: Run)
      requires JsonCoherent()
      modifies this
      ensures |old(calls)| <= |calls|
      ensures forall j :: |old(calls)| <= j < |calls| ==> BaseCall(calls[j], mapStr, queries)
      ensures run.Completed? ==> |calls| == |old(calls)| + |Providers| * |queries|
      ensures run.Completed? ==> forall pi, qi :: 0 <= pi < |Providers| && 0 <= qi < |queries| ==>
                BaseWritten(files, mode, mapName, mapStr, queries, Providers[pi], qi)
      ensures OnlyUnder(old(files), files, MethodDir(mode, Constants.MethodBase))
      ensures run == PlanBaseOutcome(mapStr, queries)
      ensures run.Completed? <==>
                forall pi, qi :: 0 <= pi < |Providers| && 0 <= qi < |queries| ==>
                  JsonReply(Providers[pi], BaseHistory(mapStr, queries[qi])).Ok?
      ensures run.Aborted? ==>
                exists pi :: 0 <= pi < |Providers| && BaseOutcome(Providers[pi], mapStr, queries) == run
                             && forall pj :: 0 <= pj < pi ==> BaseOutcome(Providers[pj], mapStr, queries).Completed?
    {
      PlanBaseOutcomeMeaning(mapStr, queries);
      var steps := BaseProviderSteps(mapStr, queries);
      var dir := MethodDir(mode, Constants.MethodBase);
      for pi := 0 to |Providers|
        invariant FirstAbort(steps, pi) == Completed
        invariant |old(calls)| <= |calls|
        invariant forall j :: |old(calls)| <= j < |calls| ==> BaseCall(calls[j], mapStr, queries)
        invariant |calls| == |old(calls)| + pi * |queries|
        invariant forall pj, qj :: 0 <= pj < pi && 0 <= qj < |queries| ==>
                    BaseWritten(files, mode, mapName, mapStr, queries, Providers[pj], qj)
        invariant OnlyUnder(old(files), files, dir)
      {
        ghost var before := files;
        run := BaseProvider(mode, mapName, mapStr, queries, pi, |old(calls)|);
        OnlyUnderTrans(old(files), before, files, dir);
        assert FirstAbort(steps, pi + 1) == run;
        if run.Aborted? {
          FirstAbortKept(steps, pi + 1, |Providers|);
          return;
        }
        OneProviderMore(pi, |queries|);
      }
      return Completed;
    }

    /** The pass of provider `pi` inside `plan_base`, joined to the passes before it. */
    method BaseProvider(mode: string, mapName: string, mapStr: string, queries: seq<string>, pi: nat, ghost start: nat)
      returns (run: Run)
      requires JsonCoherent()
      requires pi < |Providers|
      requires start <= |calls| && forall j :: start <= j < |calls| ==> BaseCall(calls[j], mapStr, queries)
      requires forall pj, qj :: 0 <= pj < pi && 0 <= qj < |queries| ==>
                 BaseWritten(files, mode, mapName, mapStr, queries, Providers[pj], qj)
      modifies this
      ensures |old(calls)| <= |calls|
      ensures forall j :: start <= j < |calls| ==> BaseCall(calls[j], mapStr, queries)
      ensures run.Completed? ==> |calls| == |old(calls)| + |queries|
      ensures run.Completed? ==> forall pj, qj :: 0 <= pj < pi + 1 && 0 <= qj < |queries| ==>
                BaseWritten(files, mode, mapName, mapStr, queries, Providers[pj], qj)
      ensures OnlyUnder(old(files), files, MethodDir(mode, Constants.MethodBase))
      ensures run == BaseOutcome(Providers[pi], mapStr, queries)
    {
      var p := Providers[pi];
      run := PlanBaseWith(mode, mapName, mapStr, queries, p);
      forall j | start <= j < |calls|
        ensures BaseCall(calls[j], mapStr, queries)
      {
        if j < |old(calls)| {
          assert calls[j] == calls[..|old(calls)|][j];
        }
      }
      InMethodDir(mode, Constants.MethodBase, Some(p), mapName, 0);
      OnlyUnderOuter(old(files), files, ProviderDir(mode, Constants.MethodBase, p), MethodDir(mode, Constants.MethodBase));
      if run.Completed? {
        BaseWrittenStep(old(files), files, mode, mapName, mapStr, queries, pi);
      }
    }

    /** A completed provider pass adds its own files to those of the providers before it. */
    lemma BaseWrittenStep(before: map<Path, string>, after: map<Path, string>, mode: string, mapName: string,
                          mapStr: string, queries: seq<string>, pi: nat)
      requires pi < |Providers|
      requires forall pj, qj :: 0 <= pj < pi && 0 <= qj < |queries| ==>
                 BaseWritten(before, mode, mapName, mapStr, queries, Providers[pj], qj)
      requires OnlyUnder(before, after, ProviderDir(mode, Constants.MethodBase, Providers[pi]))
      requires forall qi :: 0 <= qi < |queries| ==> BaseWritten(after, mode, mapName, mapStr, queries, Providers[pi], qi)
      ensures forall pj, qj :: 0 <= pj < pi + 1 && 0 <= qj < |queries| ==>
                BaseWritten(after, mode, mapName, mapStr, queries, Providers[pj], qj)
    {
      var p := Providers[pi];
      forall pj, qj | 0 <= pj < pi + 1 && 0 <= qj < |queries|
        ensures BaseWritten(after, mode, mapName, mapStr, queries, Providers[pj], qj)
      {
        if pj < pi {
          assert BaseWritten(before, mode, mapName, mapStr, queries, Providers[pj], qj);
          ArtifactPathOtherProvider(mode, Constants.MethodBase, Providers[pj], p, mapName, qj, "final_plan.json");
          HoldsOutside(before, after, ProviderDir(mode, Constants.MethodBase, p),
                       ArtifactPath(mode, Constants.MethodBase, Some(Providers[pj]), mapName, qj, "final_plan.json"),
                       JsonReply(Providers[pj], BaseHistory(mapStr, queries[qj])));
        }
      }
    }

    /** `SelfReflectionSystemPrompt(semantic_map=...)`. */
    function ReflectionSystemText(mapStr: string): string
    {
      PromptText(SelfReflectionSystem, MapData(mapStr))
    }

    /** `SelfReflectionUserPrompt(query=..., preliminary_response=...)`. */
    function ReflectionUserText(query: string, plan: string): string
    {
      PromptText(SelfReflectionUser, [("query", query), ("preliminary_response", plan)])
    }

    /** `CorrectionSystemPrompt(semantic_map=...)`. */
    function CorrectionSystemText(mapStr: string): string
    {
      PromptText(CorrectionSystem, MapData(mapStr))
    }

    /** `CorrectionUserPrompt(plan_response=..., self_reflection_response=...)`. */
    function CorrectionUserText(plan: string, reflection: string): string
    {
      PromptText(CorrectionUser, [("plan_response", plan), ("self_reflection_response", reflection)])
    }

    /** The self-reflection request: a cleared history with the reflector's prompts. */
    function ReflectHistory(mapStr: string, query: string, plan: string): seq<Dict<string>>
    {
      [SystemMessage(ReflectionSystemText(mapStr)), UserMessage(ReflectionUserText(query, plan))]
    }

    /** The correction request: a cleared history with the corrector's prompts. */
    function CorrectHistory(mapStr: string, plan: string, reflection: string): seq<Dict<string>>
    {
      [SystemMessage(CorrectionSystemText(mapStr)), UserMessage(CorrectionUserText(plan, reflection))]
    }

    /**
     * The replies `plan_self_reflection` gets for one query: the plan, the
     * reflection on that plan, the correction of both, or the first exception.
     */
    function ReflectionReplies(p: Provider, mapStr: string, query: string): Result<Replies, string>
    {
      match JsonReply(p, BaseHistory(mapStr, query))
      case Err(e) => Err(e)
      case Ok(plan) => RepliesAfterPlan(p, mapStr, query, plan)
    }

    /** The reflection on `plan` and the correction of both, or the first exception. */
    function RepliesAfterPlan(p: Provider, mapStr: string, query: string, plan: string): Result<Replies, string>
    {
      match TextReply(p, ReflectHistory(mapStr, query, plan))
      case Err(e) => Err(e)
      case Ok(reflection) =>
        match JsonReply(p, CorrectHistory(mapStr, plan, reflection))
        case Err(e) => Err(e)
        case Ok(correction) => Ok(Replies(plan, reflection, correction))
    }

    /** What a request of either kind returns for this history. */
    function Reply(p: Provider, kind: CallKind, messages: seq<Dict<string>>): Result<string, string>
    {
      if kind == JsonCall then JsonReply(p, messages) else TextReply(p, messages)
    }

    /** `clear`, one system and one user message, then a request of `kind`, recorded. */
    method AskFresh(h: History, p: Provider, kind: CallKind, step: Step, qi: nat, system: string, user: string)
      returns (r: Result<string, string>)
      requires JsonCoherent()
      requires h.Valid()
      modifies this, h
      ensures h.Valid() && h.messages == [SystemMessage(system), UserMessage(user)]
      ensures calls == old(calls) + [Call(p, kind, step, qi, [SystemMessage(system), UserMessage(user)])]
      ensures files == old(files)
      ensures r == Reply(p, kind, [SystemMessage(system), UserMessage(user)])
    {
      h.Clear();
      h.AppendSystemMessage(system);
      h.AppendUserMessage(user);
      assert h.messages == [SystemMessage(system), UserMessage(user)];
      if kind == JsonCall {
        r := GenerateJson(p, h, step, qi);
      } else {
        r := GenerateText(p, h, step, qi);
      }
    }

    /** One request on a cleared history, its reply saved at `path` when there is one. */
    method AskAndSave(h: History, p: Provider, kind: CallKind, step: Step, qi: nat, system: string, user: string, path: Path)
      returns (r: Result<string, string>)
      requires JsonCoherent()
      requires h.Valid()
      modifies this, h
      ensures h.Valid()
      ensures calls == old(calls) + [Call(p, kind, step, qi, [SystemMessage(system), UserMessage(user)])]
      ensures r == Reply(p, kind, [SystemMessage(system), UserMessage(user)])
      ensures files == if r.Ok? then old(files)[path := r.value] else old(files)
    {
      r := AskFresh(h, p, kind, step, qi, system, user);
      if r.Ok? {
        Save(path, r.value);
      }
    }

    /** One query of `plan_self_reflection`: three requests on the one history, cleared before each. */
    method ReflectionQuery(mode: string, mapName: string, mapStr: string, query: string, p: Provider, qi: nat, h: History)
      returns (run: Run)
      requires JsonCoherent()
      requires h.Valid()
      modifies this, h
      ensures h.Valid()
      ensures |old(calls)| <= |calls| <= |old(calls)| + 3 && calls[..|old(calls)|] == old(calls)
      ensures forall j :: |old(calls)| <= j < |calls| ==> FreshCall(calls[j], p, qi)
      ensures run.Completed? <==> ReflectionReplies(p, mapStr, query).Ok?
      ensures run.Aborted? ==> run.error == ReflectionReplies(p, mapStr, query).error
      ensures run.Completed? ==>
                RepliesSaved(files, QueryDir(mode, Constants.MethodSelfReflection, Some(p), mapName, qi), ReflectionReplies(p, mapStr, query).value)
      ensures run.Completed? ==> |calls| == |old(calls)| + 3
      ensures OnlyUnder(old(files), files, QueryDir(mode, Constants.MethodSelfReflection, Some(p), mapName, qi))
    {
      var dir := QueryDir(mode, Constants.MethodSelfReflection, Some(p), mapName, qi);
      FileInFolder(dir, "first_plan.json");
      ghost var f0 := files;
      var plan := AskAndSave(h, p, JsonCall, Plan, qi, PlannerText(mapStr), query, dir + ["first_plan.json"]);
      if plan.Err? {
        return Aborted(plan.error);
      }
      OnlyUnderSave(f0, f0, dir, dir + ["first_plan.json"], plan.value);
      ghost var c1 := calls;
      assert FreshCall(c1[|c1| - 1], p, qi);
      run := ReflectAndCorrect(dir, mapStr, query, plan.value, p, qi, h);
      FreshCallsJoin(|old(calls)|, c1, calls, p, qi);
      OnlyUnderTrans(f0, f0[dir + ["first_plan.json"] := plan.value], files, dir);
    }

    /** The reflection and correction requests of one query, each reply saved in `dir`. */
    method ReflectAndCorrect(dir: Path, mapStr: string, query: string, plan: string, p: Provider, qi: nat, h: History)
      returns (run: Run)
      requires JsonCoherent()
      requires h.Valid()
      modifies this, h
      ensures h.Valid()
      ensures |old(calls)| <= |calls| <= |old(calls)| + 2 && calls[..|old(calls)|] == old(calls)
      ensures forall j :: |old(calls)| <= j < |calls| ==> FreshCall(calls[j], p, qi)
      ensures run.Completed? <==> RepliesAfterPlan(p, mapStr, query, plan).Ok?
      ensures run.Aborted? ==> run.error == RepliesAfterPlan(p, mapStr, query, plan).error
      ensures run.Completed? ==>
                var r := RepliesAfterPlan(p, mapStr, query, plan).value;
                Holds(files, dir + ["self_reflection.txt"], Ok(r.reflection))
                && Holds(files, dir + ["final_plan.json"], Ok(r.correction))
                && |calls| == |old(calls)| + 2
      ensures OnlyUnder(old(files), files, dir)
      ensures Holds(old(files), dir + ["first_plan.json"], Ok(plan)) ==> Holds(files, dir + ["first_plan.json"], Ok(plan))
    {
      FileInFolder(dir, "self_reflection.txt");
      FileInFolder(dir, "final_plan.json");
      ghost var f0 := files;
      var reflection := AskAndSave(h, p, TextCall, Reflect, qi, ReflectionSystemText(mapStr),
                                   ReflectionUserText(query, plan), dir + ["self_reflection.txt"]);
      if reflection.Err? {
        return Aborted(reflection.error);
      }
      ghost var f1 := files;
      var correction := AskAndSave(h, p, JsonCall, Correct, qi, CorrectionSystemText(mapStr),
                                   CorrectionUserText(plan, reflection.value), dir + ["final_plan.json"]);
      if correction.Err? {
        return Aborted(correction.error);
      }
      assert RepliesAfterPlan(p, mapStr, query, plan) == Ok(Replies(plan, reflection.value, correction.value));
      return Completed;
    }

    /** All three files of query `qi` of `plan_self_reflection` for provider `p` hold that query's replies. */
    predicate ReflectionWritten(files: map<Path, string>, mode: string, mapName: string, mapStr: string,
                                queries: seq<string>, p: Provider, qi: nat)
      requires qi < |queries|
    {
      ReflectionReplies(p, mapStr, queries[qi]).Ok?
      && RepliesSaved(files, QueryDir(mode, Constants.MethodSelfReflection, Some(p), mapName, qi),
                      ReflectionReplies(p, mapStr, queries[qi]).value)
    }

    /** Query `qi` of `plan_self_reflection` for provider `p` ends as its three requests do. */
    function ReflectionSteps(p: Provider, mapStr: string, queries: seq<string>): nat -> Run
    {
      (qi: nat) => if qi < |queries| then RunOf(ReflectionReplies(p, mapStr, queries[qi])) else Completed
    }

    /** How provider `p`'s pass of `plan_self_reflection` ends. */
    function ReflectionOutcome(p: Provider, mapStr: string, queries: seq<string>): Run
    {
      FirstAbort(ReflectionSteps(p, mapStr, queries), |queries|)
    }

    /** Provider `p`'s pass completes exactly when no request raises, and otherwise ends with the first exception. */
    lemma ReflectionOutcomeMeaning(p: Provider, mapStr: string, queries: seq<string>)
      ensures ReflectionOutcome(p, mapStr, queries).Completed? <==>
                forall qi :: 0 <= qi < |queries| ==> ReflectionReplies(p, mapStr, queries[qi]).Ok?
      ensures ReflectionOutcome(p, mapStr, queries).Aborted? ==>
                exists qi :: 0 <= qi < |queries| && ReflectionReplies(p, mapStr, queries[qi]) == Err(ReflectionOutcome(p, mapStr, queries).error)
                             && forall qj :: 0 <= qj < qi ==> ReflectionReplies(p, mapStr, queries[qj]).Ok?
    {
      var steps := ReflectionSteps(p, mapStr, queries);
      FirstAbortMeaning(steps, |queries|);
      assert forall qi :: 0 <= qi < |queries| ==> steps(qi) == RunOf(ReflectionReplies(p, mapStr, queries[qi]));
    }

    /** The first query whose requests raise ends the provider's pass with that exception. */
    lemma ReflectionOutcomeAt(p: Provider, mapStr: string, queries: seq<string>, qi: nat)
      requires qi < |queries| && ReflectionReplies(p, mapStr, queries[qi]).Err?
      requires forall qj :: 0 <= qj < qi ==> ReflectionReplies(p, mapStr, queries[qj]).Ok?
      ensures ReflectionOutcome(p, mapStr, queries) == Aborted(ReflectionReplies(p, mapStr, queries[qi]).error)
    {
      var steps := ReflectionSteps(p, mapStr, queries);
      assert forall qj :: 0 <= qj < qi ==> steps(qj).Completed?;
      FirstAbortAt(steps, qi, |queries|);
    }

    /** The outcome of `plan_self_reflection`: the providers in order, each over every query. */
    function ReflectionProviderSteps(mapStr: string, queries: seq<string>): nat -> Run
    {
      (pi: nat) => if pi < |Providers| then ReflectionOutcome(Providers[pi], mapStr, queries) else Completed
    }

    /** How `plan_self_reflection` ends. */
    function PlanSelfReflectionOutcome(mapStr: string, queries: seq<string>): Run
    {
      FirstAbort(ReflectionProviderSteps(mapStr, queries), |Providers|)
    }

    /** The first provider whose pass raises ends `plan_self_reflection` as that pass ends. */
    lemma PlanSelfReflectionOutcomeAt(mapStr: string, queries: seq<string>, pi: nat)
      requires pi < |Providers| && ReflectionOutcome(Providers[pi], mapStr, queries).Aborted?
      requires forall pj, qj :: 0 <= pj < pi && 0 <= qj < |queries| ==> ReflectionReplies(Providers[pj], mapStr, queries[qj]).Ok?
      ensures PlanSelfReflectionOutcome(mapStr, queries) == ReflectionOutcome(Providers[pi], mapStr, queries)
    {
      var steps := ReflectionProviderSteps(mapStr, queries);
      forall pj | 0 <= pj < pi
        ensures steps(pj).Completed?
      {
        ReflectionOutcomeMeaning(Providers[pj], mapStr, queries);
      }
      FirstAbortAt(steps, pi, |Providers|);
    }

    /**
     * `plan_self_reflection` completes exactly when no provider raises on
     * any request; otherwise it ends with the exception of the first
     * provider that raised, at that provider's first failing query.
     */
    lemma PlanSelfReflectionOutcomeMeaning(mapStr: string, queries: seq<string>)
      ensures PlanSelfReflectionOutcome(mapStr, queries).Completed? <==>
                forall pi, qi :: 0 <= pi < |Providers| && 0 <= qi < |queries| ==>
                  ReflectionReplies(Providers[pi], mapStr, queries[qi]).Ok?
      ensures PlanSelfReflectionOutcome(mapStr, queries).Aborted? ==>
                exists pi :: 0 <= pi < |Providers| && ReflectionOutcome(Providers[pi], mapStr, queries) == PlanSelfReflectionOutcome(mapStr, queries)
                             && forall pj :: 0 <= pj < pi ==> ReflectionOutcome(Providers[pj], mapStr, queries).Completed?
    {
      var steps := ReflectionProviderSteps(mapStr, queries);
      FirstAbortMeaning(steps, |Providers|);
      forall pi | 0 <= pi < |Providers|
        ensures steps(pi) == ReflectionOutcome(Providers[pi], mapStr, queries)
        ensures ReflectionOutcome(Providers[pi], mapStr, queries).Completed? <==>
                  forall qi :: 0 <= qi < |queries| ==> ReflectionReplies(Providers[pi], mapStr, queries[qi]).Ok?
      {
        ReflectionOutcomeMeaning(Providers[pi], mapStr, queries);
      }
    }

    /**
     * One provider's pass of `plan_self_reflection`: one history, reused and
     * cleared for every request. It completes exactly when no request
     * raises, and otherwise ends with the first failing query's exception.
     */
    method ReflectionWith(mode: string, mapName: string, mapStr: string, queries: seq<string>, p: Provider)
      returns (run: Run)
      requires JsonCoherent()
      modifies this
      ensures |old(calls)| <= |calls| && calls[..|old(calls)|] == old(calls)
      ensures forall j :: |old(calls)| <= j < |calls| ==> calls[j].provider == p && |calls[j].messages| == 2
      ensures run.Completed? ==> |calls| == |old(calls)| + 3 * |queries|
      ensures run.Completed? ==> forall qi :: 0 <= qi < |queries| ==> ReflectionWritten(files, mode, mapName, mapStr, queries, p, qi)
      ensures OnlyUnder(old(files), files, ProviderDir(mode, Constants.MethodSelfReflection, p))
      ensures run == ReflectionOutcome(p, mapStr, queries)
      ensures run.Completed? <==> forall qi :: 0 <= qi < |queries| ==> ReflectionReplies(p, mapStr, queries[qi]).Ok?
      ensures run.Aborted? ==>
                exists qi :: 0 <= qi < |queries| && ReflectionReplies(p, mapStr, queries[qi]) == Err(run.error)
                             && forall qj :: 0 <= qj < qi ==> ReflectionReplies(p, mapStr, queries[qj]).Ok?
    {
      ghost var stop, seen;
      run, stop, seen := ReflectionQueries(mode, mapName, mapStr, queries, p);
      ReflectionOutcomeMeaning(p, mapStr, queries);
      if run.Aborted? {
        forall qj | 0 <= qj < stop
          ensures ReflectionReplies(p, mapStr, queries[qj]).Ok?
        {
          assert ReflectionWritten(seen, mode, mapName, mapStr, queries, p, qj);
        }
        ReflectionOutcomeAt(p, mapStr, queries, stop);
      } else {
        forall qi | 0 <= qi < |queries|
          ensures ReflectionReplies(p, mapStr, queries[qi]).Ok?
        {
          assert ReflectionWritten(files, mode, mapName, mapStr, queries, p, qi);
        }
      }
    }

    /**
     * The loop over the queries of one provider's pass of `plan_self_reflection`;
     * it stops after query `stop`, the first whose requests raise, or after the last.
     */
    method ReflectionQueries(mode: string, mapName: string, mapStr: string, queries: seq<string>, p: Provider)
      returns (run: Run, ghost stop: nat, ghost seen: map<Path, string>)
      requires JsonCoherent()
      modifies this
      ensures |old(calls)| <= |calls| && calls[..|old(calls)|] == old(calls)
      ensures forall j :: |old(calls)| <= j < |calls| ==> calls[j].provider == p && |calls[j].messages| == 2
      ensures run.Completed? ==> |calls| == |old(calls)| + 3 * |queries|
      ensures run.Completed? ==> forall qi :: 0 <= qi < |queries| ==> ReflectionWritten(files, mode, mapName, mapStr, queries, p, qi)
      ensures OnlyUnder(old(files), files, ProviderDir(mode, Constants.MethodSelfReflection, p))
      ensures run.Aborted? ==> stop < |queries| && ReflectionReplies(p, mapStr, queries[stop]) == Err(run.error)
      ensures run.Aborted? ==> forall qj :: 0 <= qj < stop ==> ReflectionWritten(seen, mode, mapName, mapStr, queries, p, qj)
    {
      var pdir := ProviderDir(mode, Constants.MethodSelfReflection, p);
      var h := new History();
      for qi := 0 to |queries|
        invariant h.Valid()
        invariant |calls| == |old(calls)| + 3 * qi && calls[..|old(calls)|] == old(calls)
        invariant forall j :: |old(calls)| <= j < |calls| ==> calls[j].provider == p && |calls[j].messages| == 2
        invariant forall qj :: 0 <= qj < qi ==> ReflectionWritten(files, mode, mapName, mapStr, queries, p, qj)
        invariant OnlyUnder(old(files), files, pdir)
      {
        ghost var before := files;
        ghost var c0 := calls;
        run := ReflectionQuery(mode, mapName, mapStr, queries[qi], p, qi, h);
        PairCallsJoin(|old(calls)|, c0, calls, p);
        QueryDirInProviderDir(mode, Constants.MethodSelfReflection, p, mapName, qi);
        OnlyUnderOuter(before, files, QueryDir(mode, Constants.MethodSelfReflection, Some(p), mapName, qi), pdir);
        OnlyUnderTrans(old(files), before, files, pdir);
        if run.Aborted? {
          return run, qi, before;
        }
        ReflectionWrittenStep(before, files, mode, mapName, mapStr, queries, p, qi);
      }
      return Completed, |queries|, files;
    }

    /** A completed query adds its own files to those of the queries before it. */
    lemma ReflectionWrittenStep(before: map<Path, string>, after: map<Path, string>, mode: string, mapName: string,
                                mapStr: string, queries: seq<string>, p: Provider, qi: nat)
      requires qi < |queries|
      requires forall qj :: 0 <= qj < qi ==> ReflectionWritten(before, mode, mapName, mapStr, queries, p, qj)
      requires OnlyUnder(before, after, QueryDir(mode, Constants.MethodSelfReflection, Some(p), mapName, qi))
      requires ReflectionReplies(p, mapStr, queries[qi]).Ok?
      requires RepliesSaved(after, QueryDir(mode, Constants.MethodSelfReflection, Some(p), mapName, qi),
                            ReflectionReplies(p, mapStr, queries[qi]).value)
      ensures forall qj :: 0 <= qj < qi + 1 ==> ReflectionWritten(after, mode, mapName, mapStr, queries, p, qj)
    {
      forall qj | 0 <= qj < qi + 1
        ensures ReflectionWritten(after, mode, mapName, mapStr, queries, p, qj)
      {
        if qj < qi {
          ReflectionWrittenKeptByQuery(before, after, mode, mapName, mapStr, queries, p, qi, qj);
        }
      }
    }

    /** Another query's step leaves a query's self-reflection files as they were. */
    lemma ReflectionWrittenKeptByQuery(before: map<Path, string>, after: map<Path, string>, mode: string, mapName: string,
                                       mapStr: string, queries: seq<string>, p: Provider, qi: nat, qj: nat)
      requires qj < |queries| && qi != qj
      requires OnlyUnder(before, after, QueryDir(mode, Constants.MethodSelfReflection, Some(p), mapName, qi))
      requires ReflectionWritten(before, mode, mapName, mapStr, queries, p, qj)
      ensures ReflectionWritten(after, mode, mapName, mapStr, queries, p, qj)
    {
      QueryDirsApart(mode, Constants.MethodSelfReflection, Some(p), mapName, qj, qi);
      RepliesSavedApart(before, after, QueryDir(mode, Constants.MethodSelfReflection, Some(p), mapName, qi),
                        QueryDir(mode, Constants.MethodSelfReflection, Some(p), mapName, qj),
                        ReflectionReplies(p, mapStr, queries[qj]).value);
    }

    /**
     * `plan_self_reflection`: for every provider and query, plan, reflect on
     * the plan, correct it, and save the three replies in the query's folder.
     */
    method PlanSelfReflection(mode: string, mapName: string, mapStr: string, queries: seq<string>) returns (run: Run)
      requires JsonCoherent()
      modifies this
      ensures |old(calls)| <= |calls|
      ensures forall j :: |old(calls)| <= j < |calls| ==> |calls[j].messages| == 2
      ensures run.Completed? ==> |calls| == |old(calls)| + 3 * |Providers| * |queries|
      ensures run.Completed? ==> forall pi, qi :: 0 <= pi < |Providers| && 0 <= qi < |queries| ==>
                ReflectionWritten(files, mode, mapName, mapStr, queries, Providers[pi], qi)
      ensures OnlyUnder(old(files), files, MethodDir(mode, Constants.MethodSelfReflection))
      ensures run == PlanSelfReflectionOutcome(mapStr, queries)
      ensures run.Completed? <==>
                forall pi, qi :: 0 <= pi < |Providers| && 0 <= qi < |queries| ==>
                  ReflectionReplies(Providers[pi], mapStr, queries[qi]).Ok?
      ensures run.Aborted? ==>
                exists pi :: 0 <= pi < |Providers| && ReflectionOutcome(Providers[pi], mapStr, queries) == run
                             && forall pj :: 0 <= pj < pi ==> ReflectionOutcome(Providers[pj], mapStr, queries).Completed?
    {
      ghost var stop, seen;
      run, stop, seen := ReflectionProviders(mode, mapName, mapStr, queries);
      PlanSelfReflectionOutcomeMeaning(mapStr, queries);
      if run.Aborted? {
        forall pj, qj | 0 <= pj < stop && 0 <= qj < |queries|
          ensures ReflectionReplies(Providers[pj], mapStr, queries[qj]).Ok?
        {
          assert ReflectionWritten(seen, mode, mapName, mapStr, queries, Providers[pj], qj);
        }
        PlanSelfReflectionOutcomeAt(mapStr, queries, stop);
      } else {
        forall pi, qi | 0 <= pi < |Providers| && 0 <= qi < |queries|
          ensures ReflectionReplies(Providers[pi], mapStr, queries[qi]).Ok?
        {
          assert ReflectionWritten(files, mode, mapName, mapStr, queries, Providers[pi], qi);
        }
      }
    }

    /**
     * The loop over the providers of `plan_self_reflection`; it stops after
     * provider `stop`, the first whose pass raises, or after the last.
     */
    method ReflectionProviders(mode: string, mapName: string, mapStr: string, queries: seq<string>)
      returns (run: Run, ghost stop: nat, ghost seen: map<Path, string>)
      requires JsonCoherent()
      modifies this
      ensures |old(calls)| <= |calls|
      ensures forall j :: |old(calls)| <= j < |calls| ==> |calls[j].messages| == 2
      ensures run.Completed? ==> |calls| == |old(calls)| + 3 * |Providers| * |queries|
      ensures run.Completed? ==> forall pi, qi :: 0 <= pi < |Providers| && 0 <= qi < |queries| ==>
                ReflectionWritten(files, mode, mapName, mapStr, queries, Providers[pi], qi)
      ensures OnlyUnder(old(files), files, MethodDir(mode, Constants.MethodSelfReflection))
      ensures run.Aborted? ==> stop < |Providers| && ReflectionOutcome(Providers[stop], mapStr, queries) == run
      ensures run.Aborted? ==> forall pj, qj :: 0 <= pj < stop && 0 <= qj < |queries| ==>
                ReflectionWritten(seen, mode, mapName, mapStr, queries, Providers[pj], qj)
    {
      var dir := MethodDir(mode, Constants.MethodSelfReflection);
      for pi := 0 to |Providers|
        invariant |old(calls)| <= |old(calls)| + 3 * pi * |queries| == |calls|
        invariant forall j :: |old(calls)| <= j < |calls| ==> |calls[j].messages| == 2
        invariant forall pj, qj :: 0 <= pj < pi && 0 <= qj < |queries| ==>
                    ReflectionWritten(files, mode, mapName, mapStr, queries, Providers[pj], qj)
        invariant OnlyUnder(old(files), files, dir)
      {
        ghost var before := files;
        run := ReflectionProvider(mode, mapName, mapStr, queries, pi, |old(calls)|);
        OnlyUnderTrans(old(files), before, files, dir);
        if run.Aborted? {
          return run, pi, before;
        }
        ThreeRoundsMore(pi, |queries|);
      }
      return Completed, |Providers|, files;
    }

    /** The pass of provider `pi` inside `plan_self_reflection`, joined to the passes before it. */
    method ReflectionProvider(mode: string, mapName: string, mapStr: string, queries: seq<string>, pi: nat, ghost start: nat)
      returns (run: Run)
      requires JsonCoherent()
      requires pi < |Providers|
      requires start <= |calls| && forall j :: start <= j < |calls| ==> |calls[j].messages| == 2
      requires forall pj, qj :: 0 <= pj < pi && 0 <= qj < |queries| ==>
                 ReflectionWritten(files, mode, mapName, mapStr, queries, Providers[pj], qj)
      modifies this
      ensures |old(calls)| <= |calls|
      ensures forall j :: start <= j < |calls| ==> |calls[j].messages| == 2
      ensures run.Completed? ==> |calls| == |old(calls)| + 3 * |queries|
      ensures run.Completed? ==> forall pj, qj :: 0 <= pj < pi + 1 && 0 <= qj < |queries| ==>
                ReflectionWritten(files, mode, mapName, mapStr, queries, Providers[pj], qj)
      ensures OnlyUnder(old(files), files, MethodDir(mode, Constants.MethodSelfReflection))
      ensures run == ReflectionOutcome(Providers[pi], mapStr, queries)
    {
      var p := Providers[pi];
      run := ReflectionWith(mode, mapName, mapStr, queries, p);
      forall j | start <= j < |calls|
        ensures |calls[j].messages| == 2
      {
        if j < |old(calls)| {
          assert calls[j] == calls[..|old(calls)|][j];
        }
      }
      InMethodDir(mode, Constants.MethodSelfReflection, Some(p), mapName, 0);
      OnlyUnderOuter(old(files), files, ProviderDir(mode, Constants.MethodSelfReflection, p),
                     MethodDir(mode, Constants.MethodSelfReflection));
      if run.Completed? {
        ReflectionWrittenByProvider(old(files), files, mode, mapName, mapStr, queries, pi);
      }
    }

    /** A completed provider pass adds its own files to those of the providers before it. */
    lemma ReflectionWrittenByProvider(before: map<Path, string>, after: map<Path, string>, mode: string, mapName: string,
                                      mapStr: string, queries: seq<string>, pi: nat)
      requires pi < |Providers|
      requires forall pj, qj :: 0 <= pj < pi && 0 <= qj < |queries| ==>
                 ReflectionWritten(before, mode, mapName, mapStr, queries, Providers[pj], qj)
      requires OnlyUnder(before, after, ProviderDir(mode, Constants.MethodSelfReflection, Providers[pi]))
      requires forall qi :: 0 <= qi < |queries| ==> ReflectionWritten(after, mode, mapName, mapStr, queries, Providers[pi], qi)
      ensures forall pj, qj :: 0 <= pj < pi + 1 && 0 <= qj < |queries| ==>
                ReflectionWritten(after, mode, mapName, mapStr, queries, Providers[pj], qj)
    {
      forall pj, qj | 0 <= pj < pi + 1 && 0 <= qj < |queries|
        ensures ReflectionWritten(after, mode, mapName, mapStr, queries, Providers[pj], qj)
      {
        if pj < pi {
          assert ReflectionWritten(before, mode, mapName, mapStr, queries, Providers[pj], qj);
          ReflectionWrittenKept(before, after, mode, mapName, mapStr, queries, Providers[pi], Providers[pj], qj);
        }
      }
    }

    /** Another provider's pass leaves a provider's self-reflection files as they were. */
    lemma ReflectionWrittenKept(before: map<Path, string>, after: map<Path, string>, mode: string, mapName: string,
                                mapStr: string, queries: seq<string>, p: Provider, q: Provider, qi: nat)
      requires qi < |queries| && q != p
      requires OnlyUnder(before, after, ProviderDir(mode, Constants.MethodSelfReflection, p))
      requires ReflectionWritten(before, mode, mapName, mapStr, queries, q, qi)
      ensures ReflectionWritten(after, mode, mapName, mapStr, queries, q, qi)
    {
      var folder := QueryDir(mode, Constants.MethodSelfReflection, Some(q), mapName, qi);
      ProviderDirsApart(mode, Constants.MethodSelfReflection, q, p);
      QueryDirInProviderDir(mode, Constants.MethodSelfReflection, q, mapName, qi);
      ApartInside(folder, ProviderDir(mode, Constants.MethodSelfReflection, q), ProviderDir(mode, Constants.MethodSelfReflection, p));
      RepliesSavedApart(before, after, ProviderDir(mode, Constants.MethodSelfReflection, p), folder,
                        ReflectionReplies(q, mapStr, queries[qi]).value);
    }

    /**
     * The three histories of `plan_multiagent_reflection` before the first
     * query: one system prompt each. The planner's is `PlannerPrompt()`,
     * built without the map.
     */
    function AgentsStart(mapStr: string): Agents
    {
      Agents([SystemMessage(PromptText(Planner, []))],
             [SystemMessage(ReflectionSystemText(mapStr))],
             [SystemMessage(CorrectionSystemText(mapStr))])
    }

    /**
     * One query's round: each agent in turn gets a user message, is asked
     * with its whole history, and keeps its answer as an assistant message;
     * or the first exception.
     */
    function AgentsTurn(p: Provider, a: Agents, query: string): Result<(Agents, Replies), string>
    {
      turn(p, a, query)
    }

    /** A round is the planner's turn and then the review. */
    lemma AgentsTurnDef(p: Provider, a: Agents, query: string)
      requires TurnCoherent()
      ensures AgentsTurn(p, a, query) == AgentsTurnOf(jsonReply, reply, promptText, p, a, query)
    {
    }

    /** The self-reflector's and the corrector's turns once the planner answered `plan`. */
    function ReviewTurn(p: Provider, a: Agents, query: string, plan: string): Result<(Agents, Replies), string>
    {
      ReviewTurnOf(jsonReply, reply, promptText, p, a, query, plan)
    }

    /** One agent's turn on `history`. */
    function AgentStep(p: Provider, kind: CallKind, history: seq<Dict<string>>, user: string): Result<(seq<Dict<string>>, string), string>
    {
      AgentStepOf(jsonReply, reply, p, kind, history, user)
    }

    /** The rounds of `queries` in order: the final histories and each round's replies, or the first exception. */
    function AgentsRounds(p: Provider, mapStr: string, queries: seq<string>): (r: Result<(Agents, seq<Replies>), string>)
      ensures r.Ok? ==> |r.value.1| == |queries|
      decreases |queries|
    {
      if queries == [] then Ok((AgentsStart(mapStr), []))
      else
        match AgentsRounds(p, mapStr, queries[..|queries| - 1])
        case Err(e) => Err(e)
        case Ok(state) =>
          match AgentsTurn(p, state.0, queries[|queries| - 1])
          case Err(e) => Err(e)
          case Ok(next) => Ok((next.0, state.1 + [next.1]))
    }

    /** The planner of `plan_multiagent_reflection` is told the bare template: there is no map to substitute. */
    lemma AgentsPlannerPromptIsTemplate(mapStr: string)
      requires PromptCoherent()
      ensures AgentsStart(mapStr).planner == [SystemMessage(templates(Planner))]
    {
      assert P.PromptText(P.Prompt(templates(Planner), [])) == templates(Planner);
    }

    /**
     * After `|rs|` rounds each agent's history is its system prompt followed,
     * round by round, by the user message it got and the answer it gave; and
     * each answer is the reply to the history up to and including that
     * round's user message, so every agent sees all earlier rounds.
     */
    ghost predicate Transcript(p: Provider, mapStr: string, queries: seq<string>, a: Agents, rs: seq<Replies>)
    {
      |rs| == |queries|
      && |a.planner| == |a.reflector| == |a.corrector| == 2 * |queries| + 1
      && a.planner[0] == AgentsStart(mapStr).planner[0]
      && a.reflector[0] == AgentsStart(mapStr).reflector[0]
      && a.corrector[0] == AgentsStart(mapStr).corrector[0]
      && (forall k :: 0 <= k < |queries| ==> TranscriptRound(p, a, queries[k], rs[k], k))
    }

    /** Round `k` as it appears in the three histories. */
    predicate TranscriptRound(p: Provider, a: Agents, query: string, r: Replies, k: nat)
      requires |a.planner| == |a.reflector| == |a.corrector| && 2 * k + 2 < |a.planner|
    {
      a.planner[2 * k + 1] == UserMessage(query)
      && a.planner[2 * k + 2] == AssistantMessage(r.plan)
      && JsonReply(p, a.planner[..2 * k + 2]) == Ok(r.plan)
      && a.reflector[2 * k + 1] == UserMessage(ReflectionUserText(query, r.plan))
      && a.reflector[2 * k + 2] == AssistantMessage(r.reflection)
      && TextReply(p, a.reflector[..2 * k + 2]) == Ok(r.reflection)
      && a.corrector[2 * k + 1] == UserMessage(CorrectionUserText(r.plan, r.reflection))
      && a.corrector[2 * k + 2] == AssistantMessage(r.correction)
      && JsonReply(p, a.corrector[..2 * k + 2]) == Ok(r.correction)
    }

    lemma {:induction false} AgentsRoundsTranscript(p: Provider, mapStr: string, queries: seq<string>)
      requires TurnCoherent()
      requires AgentsRounds(p, mapStr, queries).Ok?
      ensures Transcript(p, mapStr, queries, AgentsRounds(p, mapStr, queries).value.0, AgentsRounds(p, mapStr, queries).value.1)
      decreases |queries|
    {
      if queries == [] {
        TranscriptStart(p, mapStr);
      } else {
        var n := |queries| - 1;
        AgentsRoundsLast(p, mapStr, queries, n);
        AgentsRoundsTranscript(p, mapStr, queries[..n]);
        TranscriptStep(p, mapStr, queries, n);
      }
    }

    /** The transcript of all rounds but the last extends to the transcript of all. */
    lemma TranscriptStep(p: Provider, mapStr: string, queries: seq<string>, n: nat)
      requires TurnCoherent()
      requires n + 1 == |queries| && AgentsRounds(p, mapStr, queries).Ok?
      requires AgentsRounds(p, mapStr, queries[..n]).Ok?
      requires Transcript(p, mapStr, queries[..n], AgentsRounds(p, mapStr, queries[..n]).value.0, AgentsRounds(p, mapStr, queries[..n]).value.1)
      ensures Transcript(p, mapStr, queries, AgentsRounds(p, mapStr, queries).value.0, AgentsRounds(p, mapStr, queries).value.1)
    {
      AgentsRoundsLast(p, mapStr, queries, n);
      var state := AgentsRounds(p, mapStr, queries[..n]).value;
      var next := AgentsTurn(p, state.0, queries[n]).value;
      LastSplit(queries, n);
      TranscriptExtend(p, mapStr, queries[..n], state.0, state.1, queries[n], AgentsRounds(p, mapStr, queries).value.0, next.1,
                       queries, AgentsRounds(p, mapStr, queries).value.1);
    }

    /** Before any round, the transcript is the three system prompts. */
    lemma TranscriptStart(p: Provider, mapStr: string)
      ensures Transcript(p, mapStr, [], AgentsStart(mapStr), [])
    {
    }

    /** A run of several rounds is the run of all but the last, then the last round. */
    lemma AgentsRoundsLast(p: Provider, mapStr: string, queries: seq<string>, n: nat)
      requires n + 1 == |queries| && AgentsRounds(p, mapStr, queries).Ok?
      ensures AgentsRounds(p, mapStr, queries[..n]).Ok?
      ensures AgentsTurn(p, AgentsRounds(p, mapStr, queries[..n]).value.0, queries[n]).Ok?
      ensures AgentsRounds(p, mapStr, queries).value.0 == AgentsTurn(p, AgentsRounds(p, mapStr, queries[..n]).value.0, queries[n]).value.0
      ensures AgentsRounds(p, mapStr, queries).value.1
              == AgentsRounds(p, mapStr, queries[..n]).value.1 + [AgentsTurn(p, AgentsRounds(p, mapStr, queries[..n]).value.0, queries[n]).value.1]
    {
      match AgentsRounds(p, mapStr, queries[..n])
      case Ok(state) =>
        match AgentsTurn(p, state.0, queries[n])
        case Ok(next) =>
    }

    /** A further round extends the transcript by that round. */
    lemma TranscriptExtend(p: Provider, mapStr: string, queries: seq<string>, a: Agents, rs: seq<Replies>,
                           query: string, b: Agents, r: Replies, allQueries: seq<string>, allReplies: seq<Replies>)
      requires TurnCoherent()
      requires Transcript(p, mapStr, queries, a, rs)
      requires AgentsTurn(p, a, query) == Ok((b, r))
      requires allQueries == queries + [query] && allReplies == rs + [r]
      ensures Transcript(p, mapStr, allQueries, b, allReplies)
    {
      var n := |queries|;
      TurnAppends(p, a, query, b, r);
      forall k | 0 <= k < n + 1
        ensures TranscriptRound(p, b, allQueries[k], allReplies[k], k)
      {
        if k < n {
          RoundKept(p, a, b, queries[k], rs[k], k);
        } else {
          TurnRound(p, a, query, b, r, n);
        }
      }
    }

    /** A round appends exactly a user message and the answer to each history. */
    lemma TurnAppends(p: Provider, a: Agents, query: string, b: Agents, r: Replies)
      requires TurnCoherent()
      requires AgentsTurn(p, a, query) == Ok((b, r))
      ensures b.planner == a.planner + [UserMessage(query), AssistantMessage(r.plan)]
      ensures b.reflector == a.reflector + [UserMessage(ReflectionUserText(query, r.plan)), AssistantMessage(r.reflection)]
      ensures b.corrector == a.corrector + [UserMessage(CorrectionUserText(r.plan, r.reflection)), AssistantMessage(r.correction)]
      ensures JsonReply(p, a.planner + [UserMessage(query)]) == Ok(r.plan)
      ensures TextReply(p, a.reflector + [UserMessage(ReflectionUserText(query, r.plan))]) == Ok(r.reflection)
      ensures JsonReply(p, a.corrector + [UserMessage(CorrectionUserText(r.plan, r.reflection))]) == Ok(r.correction)
    {
      AgentsTurnDef(p, a, query);
    }

    /** The round just taken, as it appears at the end of the three histories. */
    lemma TurnRound(p: Provider, a: Agents, query: string, b: Agents, r: Replies, k: nat)
      requires TurnCoherent()
      requires |a.planner| == |a.reflector| == |a.corrector| == 2 * k + 1
      requires AgentsTurn(p, a, query) == Ok((b, r))
      ensures |b.planner| == |b.reflector| == |b.corrector| == 2 * k + 3
      ensures TranscriptRound(p, b, query, r, k)
    {
      TurnAppends(p, a, query, b, r);
      var n := |a.planner|;
      assert b.planner[..n + 1] == a.planner + [UserMessage(query)];
      assert b.reflector[..n + 1] == a.reflector + [UserMessage(ReflectionUserText(query, r.plan))];
      assert b.corrector[..n + 1] == a.corrector + [UserMessage(CorrectionUserText(r.plan, r.reflection))];
    }

    /** Appending to the histories leaves an earlier round as it was. */
    lemma RoundKept(p: Provider, a: Agents, b: Agents, query: string, r: Replies, k: nat)
      requires |a.planner| == |a.reflector| == |a.corrector| && 2 * k + 2 < |a.planner|
      requires |b.planner| == |b.reflector| == |b.corrector| && |a.planner| <= |b.planner|
      requires b.planner[..|a.planner|] == a.planner && b.reflector[..|a.planner|] == a.reflector
      requires b.corrector[..|a.planner|] == a.corrector
      requires TranscriptRound(p, a, query, r, k)
      ensures TranscriptRound(p, b, query, r, k)
    {
      var n := |a.planner|;
      assert b.planner[..2 * k + 2] == a.planner[..2 * k + 2] by {
        assert b.planner[..2 * k + 2] == b.planner[..n][..2 * k + 2];
      }
      assert b.reflector[..2 * k + 2] == a.reflector[..2 * k + 2] by {
        assert b.reflector[..2 * k + 2] == b.reflector[..n][..2 * k + 2];
      }
      assert b.corrector[..2 * k + 2] == a.corrector[..2 * k + 2] by {
        assert b.corrector[..2 * k + 2] == b.corrector[..n][..2 * k + 2];
      }
      assert b.planner[2 * k + 1] == b.planner[..n][2 * k + 1] && b.planner[2 * k + 2] == b.planner[..n][2 * k + 2];
      assert b.reflector[2 * k + 1] == b.reflector[..n][2 * k + 1] && b.reflector[2 * k + 2] == b.reflector[..n][2 * k + 2];
      assert b.corrector[2 * k + 1] == b.corrector[..n][2 * k + 1] && b.corrector[2 * k + 2] == b.corrector[..n][2 * k + 2];
    }

    /** A round that raises ends the run with that exception, whatever the queries after it. */
    lemma {:induction false} AgentsRoundsAbortKept(p: Provider, mapStr: string, queries: seq<string>, k: nat)
      requires k <= |queries| && AgentsRounds(p, mapStr, queries[..k]).Err?
      ensures AgentsRounds(p, mapStr, queries) == AgentsRounds(p, mapStr, queries[..k])
      decreases |queries| - k
    {
      if k < |queries| {
        var next := queries[..k + 1];
        assert next[..k] == queries[..k];
        assert AgentsRounds(p, mapStr, next) == AgentsRounds(p, mapStr, queries[..k]);
        AgentsRoundsAbortKept(p, mapStr, queries, k + 1);
      } else {
        assert queries[..k] == queries;
      }
    }

    /** An agent's turn: the user message joins its history, it is asked, its answer joins too and is saved at `path`. */
    method AgentAsk(h: History, p: Provider, kind: CallKind, step: Step, qi: nat, user: string, path: Path)
      returns (r: Result<string, string>)
      requires JsonCoherent()
      requires h.Valid()
      modifies this, h
      ensures h.Valid()
      ensures calls == old(calls) + [Call(p, kind, step, qi, old(h.messages) + [UserMessage(user)])]
      ensures var step := AgentStep(p, kind, old(h.messages), user);
              (r.Ok? <==> step.Ok?) && (r.Err? ==> r.error == step.error)
              && (r.Ok? ==> h.messages == step.value.0 && r.value == step.value.1)
      ensures files == if r.Ok? then old(files)[path := r.value] else old(files)
    {
      h.AppendUserMessage(user);
      if kind == JsonCall {
        r := GenerateJson(p, h, step, qi);
      } else {
        r := GenerateText(p, h, step, qi);
      }
      if r.Ok? {
        h.AppendAssistantMessage(r.value);
        Save(path, r.value);
      }
    }

    /** One query of `plan_multiagent_reflection`: each agent's round, each reply saved in the query's folder. */
    method MultiagentQuery(mode: string, mapName: string, query: string, p: Provider, qi: nat,
                           planner: History, reflector: History, corrector: History)
      returns (run: Run)
      requires JsonCoherent() && TurnCoherent()
      requires planner.Valid() && reflector.Valid() && corrector.Valid()
      requires planner != reflector && planner != corrector && reflector != corrector
      modifies this, planner, reflector, corrector
      ensures planner.Valid() && reflector.Valid() && corrector.Valid()
      ensures |old(calls)| <= |calls| <= |old(calls)| + 3 && calls[..|old(calls)|] == old(calls)
      ensures forall j :: |old(calls)| <= j < |calls| ==> calls[j].provider == p && calls[j].queryIdx == qi
      ensures var turn := AgentsTurn(p, Agents(old(planner.messages), old(reflector.messages), old(corrector.messages)), query);
              (run.Completed? <==> turn.Ok?)
              && (run.Aborted? ==> run.error == turn.error)
              && (run.Completed? ==>
                    Agents(planner.messages, reflector.messages, corrector.messages) == turn.value.0
                    && RepliesSaved(files, QueryDir(mode, Constants.MethodMultiagentReflection, Some(p), mapName, qi), turn.value.1)
                    && |calls| == |old(calls)| + 3)
      ensures OnlyUnder(old(files), files, QueryDir(mode, Constants.MethodMultiagentReflection, Some(p), mapName, qi))
    {
      var dir := QueryDir(mode, Constants.MethodMultiagentReflection, Some(p), mapName, qi);
      FileInFolder(dir, "first_plan.json");
      ghost var a := Agents(planner.messages, reflector.messages, corrector.messages);
      ghost var f0 := files;
      AgentsTurnDef(p, a, query);
      var plan := AgentAsk(planner, p, JsonCall, Plan, qi, query, dir + ["first_plan.json"]);
      if plan.Err? {
        return Aborted(plan.error);
      }
      OnlyUnderSave(f0, f0, dir, dir + ["first_plan.json"], plan.value);
      ghost var f1 := files;
      ghost var c1 := calls;
      run := MultiagentReview(dir, query, plan.value, p, qi, reflector, corrector, a.(planner := planner.messages));
      QueryCallsJoin(|old(calls)|, c1, calls, p, qi);
      OnlyUnderTrans(f0, f1, files, dir);
    }

    /** The self-reflector's and the corrector's turns of one query, their replies saved in `dir`. */
    method MultiagentReview(dir: Path, query: string, plan: string, p: Provider, qi: nat,
                            reflector: History, corrector: History, ghost a: Agents)
      returns (run: Run)
      requires JsonCoherent()
      requires reflector.Valid() && corrector.Valid() && reflector != corrector
      requires a.reflector == reflector.messages && a.corrector == corrector.messages
      modifies this, reflector, corrector
      ensures reflector.Valid() && corrector.Valid()
      ensures |old(calls)| <= |calls| <= |old(calls)| + 2 && calls[..|old(calls)|] == old(calls)
      ensures forall j :: |old(calls)| <= j < |calls| ==> calls[j].provider == p && calls[j].queryIdx == qi
      ensures var turn := ReviewTurn(p, a, query, plan);
              (run.Completed? <==> turn.Ok?)
              && (run.Aborted? ==> run.error == turn.error)
              && (run.Completed? ==>
                    reflector.messages == turn.value.0.reflector && corrector.messages == turn.value.0.corrector
                    && turn.value.1.plan == plan
                    && Holds(files, dir + ["self_reflection.txt"], Ok(turn.value.1.reflection))
                    && Holds(files, dir + ["final_plan.json"], Ok(turn.value.1.correction))
                    && |calls| == |old(calls)| + 2)
      ensures OnlyUnder(old(files), files, dir)
      ensures Holds(old(files), dir + ["first_plan.json"], Ok(plan)) ==> Holds(files, dir + ["first_plan.json"], Ok(plan))
    {
      FileInFolder(dir, "self_reflection.txt");
      FileInFolder(dir, "final_plan.json");
      SiblingsDistinct(dir, "first_plan.json", "self_reflection.txt");
      SiblingsDistinct(dir, "first_plan.json", "final_plan.json");
      ghost var f0 := files;
      var reflection := AgentAsk(reflector, p, TextCall, Reflect, qi, ReflectionUserText(query, plan),
                                 dir + ["self_reflection.txt"]);
      if reflection.Err? {
        return Aborted(reflection.error);
      }
      ghost var f1 := files;
      ghost var c1 := calls;
      var correction := AgentAsk(corrector, p, JsonCall, Correct, qi, CorrectionUserText(plan, reflection.value),
                                 dir + ["final_plan.json"]);
      if correction.Err? {
        return Aborted(correction.error);
      }
      assert ReviewTurn(p, a, query, plan).value.1 == Replies(plan, reflection.value, correction.value);
      return Completed;
    }

    /** One more round on top of the rounds of the first `k` queries. */
    lemma AgentsRoundsNext(p: Provider, mapStr: string, queries: seq<string>, k: nat)
      requires k < |queries| && AgentsRounds(p, mapStr, queries[..k]).Ok?
      ensures var state := AgentsRounds(p, mapStr, queries[..k]).value;
              AgentsRounds(p, mapStr, queries[..k + 1])
              == match AgentsTurn(p, state.0, queries[k])
                 case Err(e) => Err(e)
                 case Ok(next) => Ok((next.0, state.1 + [next.1]))
    {
      PrefixStep(queries, k);
    }

    /** `plan_multiagent_reflection` for provider `p` completed: every query folder holds that query's replies. */
    predicate MultiagentWritten(files: map<Path, string>, mode: string, mapName: string, mapStr: string,
                                queries: seq<string>, p: Provider)
    {
      AgentsRounds(p, mapStr, queries).Ok?
      && AllRepliesSaved(files, mode, Constants.MethodMultiagentReflection, p, mapName, AgentsRounds(p, mapStr, queries).value.1)
    }

    /**
     * One provider's pass of `plan_multiagent_reflection`: three histories
     * that are never cleared, one round per query.
     */
    method MultiagentWith(mode: string, mapName: string, mapStr: string, queries: seq<string>, p: Provider)
      returns (run: Run)
      requires JsonCoherent() && TurnCoherent()
      modifies this
      ensures |old(calls)| <= |calls| && calls[..|old(calls)|] == old(calls)
      ensures forall j :: |old(calls)| <= j < |calls| ==> calls[j].provider == p
      ensures run.Completed? <==> AgentsRounds(p, mapStr, queries).Ok?
      ensures run.Aborted? ==> run.error == AgentsRounds(p, mapStr, queries).error
      ensures run.Completed? ==> |calls| == |old(calls)| + 3 * |queries|
      ensures run.Completed? ==> MultiagentWritten(files, mode, mapName, mapStr, queries, p)
      ensures OnlyUnder(old(files), files, ProviderDir(mode, Constants.MethodMultiagentReflection, p))
    {
      var pdir := ProviderDir(mode, Constants.MethodMultiagentReflection, p);
      var planner := new History();
      planner.AppendSystemMessage(PromptText(Planner, []));
      var reflector := new History();
      reflector.AppendSystemMessage(ReflectionSystemText(mapStr));
      var corrector := new History();
      corrector.AppendSystemMessage(CorrectionSystemText(mapStr));
      ghost var rs: seq<Replies> := [];
      assert queries[..0] == [];
      assert AgentsRounds(p, mapStr, []) == Ok((AgentsStart(mapStr), []));
      assert Agents(planner.messages, reflector.messages, corrector.messages) == AgentsStart(mapStr);
      for qi := 0 to |queries|
        invariant planner.Valid() && reflector.Valid() && corrector.Valid()
        invariant AgentsRounds(p, mapStr, queries[..qi]) == Ok((Agents(planner.messages, reflector.messages, corrector.messages), rs))
        invariant |calls| == |old(calls)| + 3 * qi && calls[..|old(calls)|] == old(calls)
        invariant forall j :: |old(calls)| <= j < |calls| ==> calls[j].provider == p
        invariant AllRepliesSaved(files, mode, Constants.MethodMultiagentReflection, p, mapName, rs)
        invariant OnlyUnder(old(files), files, pdir)
      {
        ghost var before := files;
        run, rs := MultiagentStep(mode, mapName, mapStr, queries, p, qi, planner, reflector, corrector, rs, |old(calls)|);
        OnlyUnderTrans(old(files), before, files, pdir);
        if run.Aborted? {
          return;
        }
      }
      assert queries[..|queries|] == queries;
      return Completed;
    }

    /** Query `qi` of `MultiagentWith`: one more round on top of the rounds of the queries before it. */
    method MultiagentStep(mode: string, mapName: string, mapStr: string, queries: seq<string>, p: Provider, qi: nat,
                          planner: History, reflector: History, corrector: History, ghost rs: seq<Replies>, ghost start: nat)
      returns (run: Run, ghost rs': seq<Replies>)
      requires JsonCoherent() && TurnCoherent()
      requires qi < |queries|
      requires planner.Valid() && reflector.Valid() && corrector.Valid()
      requires planner != reflector && planner != corrector && reflector != corrector
      requires AgentsRounds(p, mapStr, queries[..qi]) == Ok((Agents(planner.messages, reflector.messages, corrector.messages), rs))
      requires start <= |calls| && forall j :: start <= j < |calls| ==> calls[j].provider == p
      requires AllRepliesSaved(files, mode, Constants.MethodMultiagentReflection, p, mapName, rs)
      modifies this, planner, reflector, corrector
      ensures planner.Valid() && reflector.Valid() && corrector.Valid()
      ensures |old(calls)| <= |calls| && calls[..start] == old(calls)[..start]
      ensures forall j :: start <= j < |calls| ==> calls[j].provider == p
      ensures run.Aborted? ==> AgentsRounds(p, mapStr, queries).Err? && run.error == AgentsRounds(p, mapStr, queries).error
      ensures run.Completed? ==>
                |calls| == |old(calls)| + 3
                && AgentsRounds(p, mapStr, queries[..qi + 1]) == Ok((Agents(planner.messages, reflector.messages, corrector.messages), rs'))
                && AllRepliesSaved(files, mode, Constants.MethodMultiagentReflection, p, mapName, rs')
      ensures OnlyUnder(old(files), files, ProviderDir(mode, Constants.MethodMultiagentReflection, p))
    {
      var pdir := ProviderDir(mode, Constants.MethodMultiagentReflection, p);
      ghost var a := Agents(planner.messages, reflector.messages, corrector.messages);
      run := MultiagentQuery(mode, mapName, queries[qi], p, qi, planner, reflector, corrector);
      AgentsRoundsNext(p, mapStr, queries, qi);
      ProviderCallsJoin(start, old(calls), calls, p);
      QueryDirInProviderDir(mode, Constants.MethodMultiagentReflection, p, mapName, qi);
      OnlyUnderOuter(old(files), files, QueryDir(mode, Constants.MethodMultiagentReflection, Some(p), mapName, qi), pdir);
      rs' := rs;
      if run.Aborted? {
        AgentsRoundsAbortKept(p, mapStr, queries, qi + 1);
        return;
      }
      AllRepliesSavedStep(old(files), files, mode, Constants.MethodMultiagentReflection, p, mapName, rs,
                          AgentsTurn(p, a, queries[qi]).value.1);
      rs' := rs + [AgentsTurn(p, a, queries[qi]).value.1];
    }

    /** Provider `pi`'s pass of `plan_multiagent_reflection` ends as its rounds do. */
    function MultiagentSteps(mapStr: string, queries: seq<string>): nat -> Run
    {
      (pi: nat) => if pi < |Providers| then RunOf(AgentsRounds(Providers[pi], mapStr, queries)) else Completed
    }

    /** How `plan_multiagent_reflection` ends. */
    function PlanMultiagentOutcome(mapStr: string, queries: seq<string>): Run
    {
      FirstAbort(MultiagentSteps(mapStr, queries), |Providers|)
    }

    /**
     * `plan_multiagent_reflection` completes exactly when every provider's
     * rounds do; otherwise it ends with the exception of the first provider
     * whose rounds raise.
     */
    lemma PlanMultiagentOutcomeMeaning(mapStr: string, queries: seq<string>)
      ensures PlanMultiagentOutcome(mapStr, queries).Completed? <==>
                forall pi :: 0 <= pi < |Providers| ==> AgentsRounds(Providers[pi], mapStr, queries).Ok?
      ensures PlanMultiagentOutcome(mapStr, queries).Aborted? ==>
                exists pi :: 0 <= pi < |Providers| && AgentsRounds(Providers[pi], mapStr, queries) == Err(PlanMultiagentOutcome(mapStr, queries).error)
                             && forall pj :: 0 <= pj < pi ==> AgentsRounds(Providers[pj], mapStr, queries).Ok?
    {
      var steps := MultiagentSteps(mapStr, queries);
      FirstAbortMeaning(steps, |Providers|);
      assert forall pi :: 0 <= pi < |Providers| ==> steps(pi) == RunOf(AgentsRounds(Providers[pi], mapStr, queries));
    }

    /** The first provider whose rounds raise ends `plan_multiagent_reflection` with that exception. */
    lemma PlanMultiagentOutcomeAt(mapStr: string, queries: seq<string>, pi: nat)
      requires pi < |Providers| && AgentsRounds(Providers[pi], mapStr, queries).Err?
      requires forall pj :: 0 <= pj < pi ==> AgentsRounds(Providers[pj], mapStr, queries).Ok?
      ensures PlanMultiagentOutcome(mapStr, queries) == Aborted(AgentsRounds(Providers[pi], mapStr, queries).error)
    {
      var steps := MultiagentSteps(mapStr, queries);
      assert forall pj :: 0 <= pj < pi ==> steps(pj).Completed?;
      FirstAbortAt(steps, pi, |Providers|);
    }

    /**
     * `plan_multiagent_reflection`: for every provider, a planner, a
     * self-reflector and a corrector that each keep their whole conversation
     * across the queries. It completes exactly when no provider's rounds
     * raise, and otherwise ends with the first provider's exception.
     */
    method PlanMultiagentReflection(mode: string, mapName: string, mapStr: string, queries: seq<string>) returns (run: Run)
      requires JsonCoherent() && TurnCoherent()
      modifies this
      ensures |old(calls)| <= |calls|
      ensures run.Completed? ==> |calls| == |old(calls)| + 3 * |Providers| * |queries|
      ensures run.Completed? ==> forall pi :: 0 <= pi < |Providers| ==> MultiagentWritten(files, mode, mapName, mapStr, queries, Providers[pi])
      ensures OnlyUnder(old(files), files, MethodDir(mode, Constants.MethodMultiagentReflection))
      ensures run == PlanMultiagentOutcome(mapStr, queries)
      ensures run.Completed? <==> forall pi :: 0 <= pi < |Providers| ==> AgentsRounds(Providers[pi], mapStr, queries).Ok?
      ensures run.Aborted? ==>
                exists pi :: 0 <= pi < |Providers| && AgentsRounds(Providers[pi], mapStr, queries) == Err(run.error)
                             && forall pj :: 0 <= pj < pi ==> AgentsRounds(Providers[pj], mapStr, queries).Ok?
    {
      ghost var stop, seen;
      run, stop, seen := MultiagentProviders(mode, mapName, mapStr, queries);
      PlanMultiagentOutcomeMeaning(mapStr, queries);
      if run.Aborted? {
        forall pj | 0 <= pj < stop
          ensures AgentsRounds(Providers[pj], mapStr, queries).Ok?
        {
          assert MultiagentWritten(seen, mode, mapName, mapStr, queries, Providers[pj]);
        }
        PlanMultiagentOutcomeAt(mapStr, queries, stop);
      } else {
        forall pi | 0 <= pi < |Providers|
          ensures AgentsRounds(Providers[pi], mapStr, queries).Ok?
        {
          assert MultiagentWritten(files, mode, mapName, mapStr, queries, Providers[pi]);
        }
      }
    }

    /**
     * The loop over the providers of `plan_multiagent_reflection`; it stops
     * after provider `stop`, the first whose rounds raise, or after the last.
     */
    method MultiagentProviders(mode: string, mapName: string, mapStr: string, queries: seq<string>)
      returns (run: Run, ghost stop: nat, ghost seen: map<Path, string>)
      requires JsonCoherent() && TurnCoherent()
      modifies this
      ensures |old(calls)| <= |calls|
      ensures run.Completed? ==> |calls| == |old(calls)| + 3 * |Providers| * |queries|
      ensures run.Completed? ==> forall pi :: 0 <= pi < |Providers| ==> MultiagentWritten(files, mode, mapName, mapStr, queries, Providers[pi])
      ensures OnlyUnder(old(files), files, MethodDir(mode, Constants.MethodMultiagentReflection))
      ensures run.Aborted? ==> stop < |Providers| && AgentsRounds(Providers[stop], mapStr, queries) == Err(run.error)
      ensures run.Aborted? ==> forall pj :: 0 <= pj < stop ==> MultiagentWritten(seen, mode, mapName, mapStr, queries, Providers[pj])
    {
      var dir := MethodDir(mode, Constants.MethodMultiagentReflection);
      for pi := 0 to |Providers|
        invariant |old(calls)| <= |old(calls)| + 3 * pi * |queries| == |calls|
        invariant forall pj :: 0 <= pj < pi ==> MultiagentWritten(files, mode, mapName, mapStr, queries, Providers[pj])
        invariant OnlyUnder(old(files), files, dir)
      {
        ghost var before := files;
        run := MultiagentProvider(mode, mapName, mapStr, queries, pi);
        OnlyUnderTrans(old(files), before, files, dir);
        if run.Aborted? {
          return run, pi, before;
        }
        ThreeRoundsMore(pi, |queries|);
      }
      return Completed, |Providers|, files;
    }

    /** The pass of provider `pi` inside `plan_multiagent_reflection`, joined to the passes before it. */
    method MultiagentProvider(mode: string, mapName: string, mapStr: string, queries: seq<string>, pi: nat) returns (run: Run)
      requires JsonCoherent() && TurnCoherent()
      requires pi < |Providers|
      requires forall pj :: 0 <= pj < pi ==> MultiagentWritten(files, mode, mapName, mapStr, queries, Providers[pj])
      modifies this
      ensures |old(calls)| <= |calls|
      ensures run.Completed? ==> |calls| == |old(calls)| + 3 * |queries|
      ensures run.Completed? ==> forall pj :: 0 <= pj < pi + 1 ==> MultiagentWritten(files, mode, mapName, mapStr, queries, Providers[pj])
      ensures run.Completed? <==> AgentsRounds(Providers[pi], mapStr, queries).Ok?
      ensures run.Aborted? ==> AgentsRounds(Providers[pi], mapStr, queries) == Err(run.error)
      ensures OnlyUnder(old(files), files, MethodDir(mode, Constants.MethodMultiagentReflection))
    {
      var p := Providers[pi];
      run := MultiagentWith(mode, mapName, mapStr, queries, p);
      InMethodDir(mode, Constants.MethodMultiagentReflection, Some(p), mapName, 0);
      OnlyUnderOuter(old(files), files, ProviderDir(mode, Constants.MethodMultiagentReflection, p),
                     MethodDir(mode, Constants.MethodMultiagentReflection));
      if run.Completed? {
        MultiagentWrittenStep(old(files), files, mode, mapName, mapStr, queries, pi);
      }
    }

    /** A completed provider pass adds its own folders to those of the providers before it. */
    lemma MultiagentWrittenStep(before: map<Path, string>, after: map<Path, string>, mode: string, mapName: string,
                                mapStr: string, queries: seq<string>, pi: nat)
      requires pi < |Providers|
      requires forall pj :: 0 <= pj < pi ==> MultiagentWritten(before, mode, mapName, mapStr, queries, Providers[pj])
      requires OnlyUnder(before, after, ProviderDir(mode, Constants.MethodMultiagentReflection, Providers[pi]))
      requires MultiagentWritten(after, mode, mapName, mapStr, queries, Providers[pi])
      ensures forall pj :: 0 <= pj < pi + 1 ==> MultiagentWritten(after, mode, mapName, mapStr, queries, Providers[pj])
    {
      forall pj | 0 <= pj < pi + 1
        ensures MultiagentWritten(after, mode, mapName, mapStr, queries, Providers[pj])
      {
        if pj < pi {
          assert MultiagentWritten(before, mode, mapName, mapStr, queries, Providers[pj]);
          AllRepliesSavedOtherProvider(before, after, mode, Constants.MethodMultiagentReflection, Providers[pi], Providers[pj], mapName,
                                       AgentsRounds(Providers[pj], mapStr, queries).value.1);
        }
      }
    }

    /** The replies of the first `k` providers to the ensemble's planner history, in provider order, or the first exception. */
    function QueryPlans(mapStr: string, query: string, k: nat): (r: Result<seq<string>, string>)
      requires k <= |Providers|
      ensures r.Ok? ==> |r.value| == k
      ensures r.Ok? ==> forall i :: 0 <= i < k ==> JsonReply(Providers[i], BaseHistory(mapStr, query)) == Ok(r.value[i])
    {
      if k == 0 then Ok([])
      else
        match QueryPlans(mapStr, query, k - 1)
        case Err(e) => Err(e)
        case Ok(plans) =>
          match JsonReply(Providers[k - 1], BaseHistory(mapStr, query))
          case Err(e) => Err(e)
          case Ok(plan) => Ok(plans + [plan])
    }

    /** The plans fail exactly when some provider raises, and then with the first provider's exception. */
    lemma {:induction false} QueryPlansErr(mapStr: string, query: string, k: nat)
      requires k <= |Providers|
      ensures QueryPlans(mapStr, query, k).Err? <==>
                exists i :: 0 <= i < k && JsonReply(Providers[i], BaseHistory(mapStr, query)).Err?
      ensures QueryPlans(mapStr, query, k).Err? ==>
                exists i :: 0 <= i < k && JsonReply(Providers[i], BaseHistory(mapStr, query)).Err?
                            && JsonReply(Providers[i], BaseHistory(mapStr, query)).error == QueryPlans(mapStr, query, k).error
                            && forall j :: 0 <= j < i ==> JsonReply(Providers[j], BaseHistory(mapStr, query)).Ok?
    {
      if k > 0 {
        QueryPlansErr(mapStr, query, k - 1);
      }
    }

    /** Once a provider raised, the later providers are never asked: the plans of all four fail the same way. */
    lemma {:induction false} QueryPlansAbortKept(mapStr: string, query: string, k: nat)
      requires k <= |Providers| && QueryPlans(mapStr, query, k).Err?
      ensures QueryPlans(mapStr, query, |Providers|) == QueryPlans(mapStr, query, k)
      decreases |Providers| - k
    {
      if k < |Providers| {
        QueryPlansAbortKept(mapStr, query, k + 1);
      }
    }

    /** The chooser's history: a single system message, the chooser prompt over the responses so far. */
    function ChooserHistory(mapStr: string, responses: seq<string>): seq<Dict<string>>
    {
      [SystemMessage(ChooserText(responses, mapStr))]
    }

    /** The rounds of `plan_ensembling` over the queries, or the first exception. */
    function EnsembleRounds(mapStr: string, queries: seq<string>): (r: Result<seq<Round>, string>)
      ensures r.Ok? ==> |r.value| == |queries|
      ensures r.Ok? ==> forall qi :: 0 <= qi < |r.value| ==> |r.value[qi].plans| == |Providers|
    {
      if queries == [] then Ok([])
      else NextRound(mapStr, EnsembleRounds(mapStr, queries[..|queries| - 1]), queries[|queries| - 1])
    }

    /** One more query after `earlier`: the four plans, then the choice over all plans so far. */
    function NextRound(mapStr: string, earlier: Result<seq<Round>, string>, query: string): (r: Result<seq<Round>, string>)
      ensures r.Ok? ==> earlier.Ok? && |r.value| == |earlier.value| + 1 && r.value[..|earlier.value|] == earlier.value
      ensures r.Ok? ==> |r.value[|earlier.value|].plans| == |Providers|
    {
      match earlier
      case Err(e) => Err(e)
      case Ok(rounds) =>
        match QueryPlans(mapStr, query, |Providers|)
        case Err(e) => Err(e)
        case Ok(plans) =>
          match JsonReply(EnsembleChooser, ChooserHistory(mapStr, Responses(rounds) + plans))
          case Err(e) => Err(e)
          case Ok(choice) => Ok(rounds + [Round(plans, choice)])
    }

    /** The chooser of query `qi` is reached: the queries before it completed and all four plans of `qi` came back. */
    predicate ChooserReached(mapStr: string, queries: seq<string>, qi: nat)
    {
      qi < |queries| && EnsembleRounds(mapStr, queries[..qi]).Ok? && QueryPlans(mapStr, queries[qi], |Providers|).Ok?
    }

    /** `plan_responses` when the chooser of query `qi` is asked. */
    function ChooserInput(mapStr: string, queries: seq<string>, qi: nat): seq<string>
      requires ChooserReached(mapStr, queries, qi)
    {
      Responses(EnsembleRounds(mapStr, queries[..qi]).value) + QueryPlans(mapStr, queries[qi], |Providers|).value
    }

    /**
     * Because `plan_responses` is created once, outside the query loop, the
     * chooser of query `qi` is shown `4 * (qi + 1)` responses: every plan of
     * every earlier query, then the four plans of query `qi`.
     */
    lemma ChooserSeesEveryPlan(mapStr: string, queries: seq<string>, qi: nat)
      requires ChooserReached(mapStr, queries, qi)
      ensures var input := ChooserInput(mapStr, queries, qi);
              var rounds := EnsembleRounds(mapStr, queries[..qi]).value;
              |input| == |Providers| * (qi + 1)
              && (forall qj, k :: 0 <= qj < qi && 0 <= k < |Providers| ==> input[|Providers| * qj + k] == rounds[qj].plans[k])
              && (forall k :: 0 <= k < |Providers| ==>
                    input[|Providers| * qi + k] == QueryPlans(mapStr, queries[qi], |Providers|).value[k]
                    && JsonReply(Providers[k], BaseHistory(mapStr, queries[qi])) == Ok(input[|Providers| * qi + k]))
    {
      var rounds := EnsembleRounds(mapStr, queries[..qi]).value;
      ResponsesLayout(rounds);
    }

    /** One more query on top of the rounds of the first `k`. */
    lemma EnsembleRoundsNext(mapStr: string, queries: seq<string>, k: nat)
      requires k < |queries|
      ensures EnsembleRounds(mapStr, queries[..k + 1]) == NextRound(mapStr, EnsembleRounds(mapStr, queries[..k]), queries[k])
    {
      PrefixStep(queries, k);
    }

    /** Once a query raised, `plan_ensembling` fails with that exception. */
    lemma {:induction false} EnsembleRoundsAbortKept(mapStr: string, queries: seq<string>, k: nat)
      requires k <= |queries| && EnsembleRounds(mapStr, queries[..k]).Err?
      ensures EnsembleRounds(mapStr, queries) == EnsembleRounds(mapStr, queries[..k])
      decreases |queries| - k
    {
      if k < |queries| {
        EnsembleRoundsNext(mapStr, queries, k);
        EnsembleRoundsAbortKept(mapStr, queries, k + 1);
      } else {
        assert queries[..k] == queries;
      }
    }

    /**
     * A request of `plan_ensembling`: a planner request on the `plan_base`
     * history, or the chooser's request on its one-message history over
     * everything `plan_responses` holds at that point.
     */
    predicate EnsembleCall(c: Call, mapStr: string, queries: seq<string>)
    {
      c.kind == JsonCall && c.queryIdx < |queries|
      && if c.step.Choose? then
           c.provider == EnsembleChooser
           && ChooserReached(mapStr, queries, c.queryIdx)
           && c.step.responses == ChooserInput(mapStr, queries, c.queryIdx)
           && c.messages == ChooserHistory(mapStr, c.step.responses)
         else
           c.step == Plan && c.messages == BaseHistory(mapStr, queries[c.queryIdx])
    }

    /** The provider loop of one query: each provider's plan appended to `plan_responses` and saved in `dir`. */
    method EnsemblePlans(dir: Path, mapStr: string, query: string, qi: nat, responses: seq<string>)
      returns (run: Run, responses': seq<string>)
      requires JsonCoherent()
      modifies this
      ensures |old(calls)| <= |calls| <= |old(calls)| + |Providers|
      ensures calls == old(calls) + PlanCalls(mapStr, query, qi, |calls| - |old(calls)|)
      ensures run.Completed? <==> QueryPlans(mapStr, query, |Providers|).Ok?
      ensures run.Aborted? ==> run.error == QueryPlans(mapStr, query, |Providers|).error
      ensures run.Completed? ==>
                |calls| == |old(calls)| + |Providers|
                && responses' == responses + QueryPlans(mapStr, query, |Providers|).value
                && PlansSaved(files, dir, QueryPlans(mapStr, query, |Providers|).value)
      ensures OnlyUnder(old(files), files, dir)
    {
      var h := new History();
      responses' := responses;
      ghost var plans: seq<string> := [];
      for k := 0 to |Providers|
        invariant h.Valid()
        invariant QueryPlans(mapStr, query, k) == Ok(plans) && responses' == responses + plans
        invariant |calls| == |old(calls)| + k && calls == old(calls) + PlanCalls(mapStr, query, qi, k)
        invariant PlansSaved(files, dir, plans)
        invariant OnlyUnder(old(files), files, dir)
      {
        var plan;
        run, plan := EnsemblePlanStep(dir, mapStr, query, qi, h, k, plans, old(files), old(calls));
        if run.Aborted? {
          QueryPlansAbortKept(mapStr, query, k + 1);
          return;
        }
        AppendAssoc(responses, plans, plan);
        plans := plans + [plan];
        responses' := responses' + [plan];
      }
      run := Completed;
    }

    /** The request the ensemble's planner phase sends provider `k` for a query. */
    function PlanCall(mapStr: string, query: string, qi: nat, k: nat): Call
      requires k < |Providers|
    {
      Call(Providers[k], JsonCall, Plan, qi, BaseHistory(mapStr, query))
    }

    /** The requests of the first `k` providers in the ensemble's planner phase, in provider order. */
    function PlanCalls(mapStr: string, query: string, qi: nat, k: nat): (r: seq<Call>)
      requires k <= |Providers|
      ensures |r| == k
      ensures forall j :: 0 <= j < k ==> r[j] == PlanCall(mapStr, query, qi, j)
    {
      if k == 0 then [] else PlanCalls(mapStr, query, qi, k - 1) + [PlanCall(mapStr, query, qi, k - 1)]
    }

    /** Provider `k` of the loop: clear, planner prompt and query, `generate_json`, append, save. */
    method EnsemblePlanStep(dir: Path, mapStr: string, query: string, qi: nat, h: History, k: nat,
                            ghost plans: seq<string>, ghost files0: map<Path, string>, ghost calls0: seq<Call>)
      returns (run: Run, plan: string)
      requires JsonCoherent()
      requires h.Valid() && k < |Providers|
      requires QueryPlans(mapStr, query, k) == Ok(plans)
      requires PlansSaved(files, dir, plans)
      requires OnlyUnder(files0, files, dir)
      requires calls == calls0 + PlanCalls(mapStr, query, qi, k)
      modifies this, h
      ensures h.Valid()
      ensures calls == old(calls) + [PlanCall(mapStr, query, qi, k)]
      ensures calls == calls0 + PlanCalls(mapStr, query, qi, k + 1)
      ensures run.Aborted? ==> QueryPlans(mapStr, query, k + 1).Err? && run.error == QueryPlans(mapStr, query, k + 1).error
      ensures run.Completed? ==>
                QueryPlans(mapStr, query, k + 1) == Ok(plans + [plan]) && PlansSaved(files, dir, plans + [plan])
      ensures OnlyUnder(files0, files, dir)
    {
      var p := Providers[k];
      var path := dir + [PlanFile(p)];
      FileInFolder(dir, PlanFile(p));
      var r := AskAndSave(h, p, JsonCall, Plan, qi, PlannerText(mapStr), query, path);
      AppendAssoc(calls0, PlanCalls(mapStr, query, qi, k), PlanCall(mapStr, query, qi, k));
      if r.Err? {
        return Aborted(r.error), "";
      }
      PlansSavedStep(old(files), dir, plans, r.value);
      return Completed, r.value;
    }

    /** The chooser of query `qi`: a new history with the chooser prompt alone, `generate_json`, `choice.json`. */
    method Choose(dir: Path, mapStr: string, qi: nat, responses: seq<string>) returns (r: Result<string, string>)
      requires JsonCoherent()
      modifies this
      ensures calls == old(calls) + [Call(EnsembleChooser, JsonCall, Step.Choose(responses), qi, ChooserHistory(mapStr, responses))]
      ensures r == JsonReply(EnsembleChooser, ChooserHistory(mapStr, responses))
      ensures files == if r.Ok? then old(files)[dir + ["choice.json"] := r.value] else old(files)
    {
      var chooser := new History();
      chooser.Clear();
      chooser.AppendSystemMessage(ChooserText(responses, mapStr));
      assert chooser.messages == ChooserHistory(mapStr, responses);
      r := GenerateJson(EnsembleChooser, chooser, Step.Choose(responses), qi);
      if r.Ok? {
        Save(dir + ["choice.json"], r.value);
      }
    }

    /** Query `qi` of `plan_ensembling`: the four plans, then the choice over all responses so far. */
    method EnsembleStep(mode: string, mapName: string, mapStr: string, queries: seq<string>, qi: nat,
                        responses: seq<string>, ghost rounds: seq<Round>, ghost start: nat)
      returns (run: Run, responses': seq<string>, ghost rounds': seq<Round>)
      requires JsonCoherent()
      requires qi < |queries|
      requires EnsembleRounds(mapStr, queries[..qi]) == Ok(rounds) && responses == Responses(rounds)
      requires start <= |calls| && forall j :: start <= j < |calls| ==> EnsembleCall(calls[j], mapStr, queries)
      requires AllRoundsSaved(files, mode, mapName, rounds)
      modifies this
      ensures |old(calls)| <= |calls| && calls[..start] == old(calls)[..start]
      ensures forall j :: start <= j < |calls| ==> EnsembleCall(calls[j], mapStr, queries)
      ensures run.Aborted? ==> EnsembleRounds(mapStr, queries).Err? && run.error == EnsembleRounds(mapStr, queries).error
      ensures run.Completed? ==>
                |calls| == |old(calls)| + |Providers| + 1
                && EnsembleRounds(mapStr, queries[..qi + 1]) == Ok(rounds') && responses' == Responses(rounds')
                && AllRoundsSaved(files, mode, mapName, rounds')
      ensures OnlyUnder(old(files), files, QueryDir(mode, Constants.MethodEnsemble, None, mapName, qi))
    {
      var dir := QueryDir(mode, Constants.MethodEnsemble, None, mapName, qi);
      rounds' := rounds;
      run, responses' := EnsembleQueryPlans(dir, mapStr, queries, qi, responses, rounds, start);
      if run.Aborted? {
        return;
      }
      ghost var f1 := files;
      ghost var c1 := calls;
      ghost var choice;
      run, choice := EnsembleChoice(dir, mapStr, queries, qi, responses', rounds, start);
      assert calls[..start] == c1[..start];
      OnlyUnderTrans(old(files), f1, files, dir);
      if run.Aborted? {
        return;
      }
      ghost var r := Round(QueryPlans(mapStr, queries[qi], |Providers|).value, choice);
      rounds' := rounds + [r];
      ResponsesSnoc(rounds, r);
      AllRoundsSavedStep(old(files), files, mode, mapName, rounds, r);
    }

    /** The planner phase of query `qi`: the four providers' plans joined to `plan_responses` and saved. */
    method EnsembleQueryPlans(dir: Path, mapStr: string, queries: seq<string>, qi: nat,
                              responses: seq<string>, ghost rounds: seq<Round>, ghost start: nat)
      returns (run: Run, responses': seq<string>)
      requires JsonCoherent()
      requires qi < |queries|
      requires EnsembleRounds(mapStr, queries[..qi]) == Ok(rounds) && responses == Responses(rounds)
      requires start <= |calls| && forall j :: start <= j < |calls| ==> EnsembleCall(calls[j], mapStr, queries)
      modifies this
      ensures |old(calls)| <= |calls| && calls[..start] == old(calls)[..start]
      ensures forall j :: start <= j < |calls| ==> EnsembleCall(calls[j], mapStr, queries)
      ensures run.Aborted? ==> EnsembleRounds(mapStr, queries).Err? && run.error == EnsembleRounds(mapStr, queries).error
      ensures run.Completed? ==>
                |calls| == |old(calls)| + |Providers|
                && ChooserReached(mapStr, queries, qi) && responses' == ChooserInput(mapStr, queries, qi)
                && PlansSaved(files, dir, QueryPlans(mapStr, queries[qi], |Providers|).value)
      ensures OnlyUnder(old(files), files, dir)
    {
      EnsembleRoundsNext(mapStr, queries, qi);
      run, responses' := EnsemblePlans(dir, mapStr, queries[qi], qi, responses);
      EnsemblePlanCalls(start, old(calls), calls, mapStr, queries, qi);
      if run.Aborted? {
        EnsembleRoundsAbortKept(mapStr, queries, qi + 1);
      }
    }

    /** The chooser phase of query `qi`: one request over everything `plan_responses` holds, and `choice.json`. */
    method EnsembleChoice(dir: Path, mapStr: string, queries: seq<string>, qi: nat,
                          responses: seq<string>, ghost rounds: seq<Round>, ghost start: nat)
      returns (run: Run, ghost choice: string)
      requires JsonCoherent()
      requires ChooserReached(mapStr, queries, qi) && responses == ChooserInput(mapStr, queries, qi)
      requires EnsembleRounds(mapStr, queries[..qi]) == Ok(rounds)
      requires start <= |calls| && forall j :: start <= j < |calls| ==> EnsembleCall(calls[j], mapStr, queries)
      requires PlansSaved(files, dir, QueryPlans(mapStr, queries[qi], |Providers|).value)
      modifies this
      ensures |calls| == |old(calls)| + 1 && calls[..start] == old(calls)[..start]
      ensures forall j :: start <= j < |calls| ==> EnsembleCall(calls[j], mapStr, queries)
      ensures run.Aborted? ==> EnsembleRounds(mapStr, queries).Err? && run.error == EnsembleRounds(mapStr, queries).error
      ensures run.Completed? ==>
                EnsembleRounds(mapStr, queries[..qi + 1])
                  == Ok(rounds + [Round(QueryPlans(mapStr, queries[qi], |Providers|).value, choice)])
                && RoundSaved(files, dir, Round(QueryPlans(mapStr, queries[qi], |Providers|).value, choice))
      ensures OnlyUnder(old(files), files, dir)
    {
      ghost var plans := QueryPlans(mapStr, queries[qi], |Providers|).value;
      EnsembleRoundsNext(mapStr, queries, qi);
      var r := Choose(dir, mapStr, qi, responses);
      EnsembleChooserCall(start, old(calls), calls, mapStr, queries, qi);
      if r.Err? {
        EnsembleRoundsAbortKept(mapStr, queries, qi + 1);
        return Aborted(r.error), "";
      }
      FileInFolder(dir, "choice.json");
      PlansSavedByChoice(old(files), dir, plans, r.value);
      return Completed, r.value;
    }

    /** The planner requests of query `qi` join the earlier requests of `plan_ensembling`. */
    lemma EnsemblePlanCalls(start: nat, mid: seq<Call>, all: seq<Call>, mapStr: string, queries: seq<string>, qi: nat)
      requires qi < |queries|
      requires start <= |mid| <= |all| <= |mid| + |Providers|
      requires all == mid + PlanCalls(mapStr, queries[qi], qi, |all| - |mid|)
      requires forall j :: start <= j < |mid| ==> EnsembleCall(mid[j], mapStr, queries)
      ensures all[..start] == mid[..start]
      ensures forall j :: start <= j < |all| ==> EnsembleCall(all[j], mapStr, queries)
    {
      assert all[..|mid|] == mid;
      forall j | start <= j < |all|
        ensures EnsembleCall(all[j], mapStr, queries)
      {
        if j < |mid| {
          assert all[j] == mid[j];
        } else {
          assert all[j] == PlanCalls(mapStr, queries[qi], qi, |all| - |mid|)[j - |mid|];
        }
      }
    }

    /** The chooser request of query `qi` joins the earlier requests of `plan_ensembling`. */
    lemma EnsembleChooserCall(start: nat, mid: seq<Call>, all: seq<Call>, mapStr: string, queries: seq<string>, qi: nat)
      requires ChooserReached(mapStr, queries, qi)
      requires start <= |mid| && forall j :: start <= j < |mid| ==> EnsembleCall(mid[j], mapStr, queries)
      requires all == mid + [Call(EnsembleChooser, JsonCall, Step.Choose(ChooserInput(mapStr, queries, qi)), qi,
                                  ChooserHistory(mapStr, ChooserInput(mapStr, queries, qi)))]
      ensures all[..start] == mid[..start]
      ensures forall j :: start <= j < |all| ==> EnsembleCall(all[j], mapStr, queries)
    {
      assert all[..|mid|] == mid;
      forall j | start <= j < |mid|
        ensures all[j] == mid[j]
      {
        assert all[j] == all[..|mid|][j];
      }
    }

    /**
     * `plan_ensembling`: per query, each of the four providers plans on a
     * fresh planner history and its plan joins `plan_responses`; then the
     * chooser picks over everything `plan_responses` holds.
     */
    method PlanEnsembling(mode: string, mapName: string, mapStr: string, queries: seq<string>) returns (run: Run)
      requires JsonCoherent()
      modifies this
      ensures |old(calls)| <= |calls| && calls[..|old(calls)|] == old(calls)
      ensures forall j :: |old(calls)| <= j < |calls| ==> EnsembleCall(calls[j], mapStr, queries)
      ensures run.Completed? <==> EnsembleRounds(mapStr, queries).Ok?
      ensures run.Aborted? ==> run.error == EnsembleRounds(mapStr, queries).error
      ensures run.Completed? ==> |calls| == |old(calls)| + (|Providers| + 1) * |queries|
      ensures run.Completed? ==> AllRoundsSaved(files, mode, mapName, EnsembleRounds(mapStr, queries).value)
      ensures OnlyUnder(old(files), files, MethodDir(mode, Constants.MethodEnsemble))
    {
      var dir := MethodDir(mode, Constants.MethodEnsemble);
      var responses: seq<string> := [];
      ghost var rounds: seq<Round> := [];
      assert queries[..0] == [];
      for qi := 0 to |queries|
        invariant EnsembleRounds(mapStr, queries[..qi]) == Ok(rounds) && responses == Responses(rounds)
        invariant |calls| == |old(calls)| + (|Providers| + 1) * qi && calls[..|old(calls)|] == old(calls)
        invariant forall j :: |old(calls)| <= j < |calls| ==> EnsembleCall(calls[j], mapStr, queries)
        invariant AllRoundsSaved(files, mode, mapName, rounds)
        invariant OnlyUnder(old(files), files, dir)
      {
        ghost var before := files;
        run, responses, rounds := EnsembleStep(mode, mapName, mapStr, queries, qi, responses, rounds, |old(calls)|);
        InMethodDir(mode, Constants.MethodEnsemble, None, mapName, qi);
        OnlyUnderOuter(before, files, QueryDir(mode, Constants.MethodEnsemble, None, mapName, qi), dir);
        OnlyUnderTrans(old(files), before, files, dir);
        if run.Aborted? {
          return;
        }
      }
      assert queries[..|queries|] == queries;
      return Completed;
    }

    /** How the planner that `methodName` selects ends on a dumped map; an unmatched name runs none. */
    function PlannerOutcome(methodName: string, mapStr: string, queries: seq<string>): Run
    {
      if methodName == Constants.MethodBase then PlanBaseOutcome(mapStr, queries)
      else if methodName == Constants.MethodSelfReflection then PlanSelfReflectionOutcome(mapStr, queries)
      else if methodName == Constants.MethodMultiagentReflection then PlanMultiagentOutcome(mapStr, queries)
      else if methodName == Constants.MethodEnsemble then RunOf(EnsembleRounds(mapStr, queries))
      else Completed
    }

    /** Each planner completes exactly when none of its requests raises; an unmatched name always completes. */
    lemma PlannerOutcomeMeaning(methodName: string, mapStr: string, queries: seq<string>)
      ensures methodName == Constants.MethodBase ==>
                (PlannerOutcome(methodName, mapStr, queries).Completed? <==>
                   forall pi, qi :: 0 <= pi < |Providers| && 0 <= qi < |queries| ==>
                     JsonReply(Providers[pi], BaseHistory(mapStr, queries[qi])).Ok?)
      ensures methodName == Constants.MethodSelfReflection ==>
                (PlannerOutcome(methodName, mapStr, queries).Completed? <==>
                   forall pi, qi :: 0 <= pi < |Providers| && 0 <= qi < |queries| ==>
                     ReflectionReplies(Providers[pi], mapStr, queries[qi]).Ok?)
      ensures methodName == Constants.MethodMultiagentReflection ==>
                (PlannerOutcome(methodName, mapStr, queries).Completed? <==>
                   forall pi :: 0 <= pi < |Providers| ==> AgentsRounds(Providers[pi], mapStr, queries).Ok?)
      ensures methodName == Constants.MethodEnsemble ==>
                (PlannerOutcome(methodName, mapStr, queries).Completed? <==> EnsembleRounds(mapStr, queries).Ok?)
      ensures methodName !in Constants.Methods ==> PlannerOutcome(methodName, mapStr, queries) == Completed
    {
      if methodName == Constants.MethodBase {
        PlanBaseOutcomeMeaning(mapStr, queries);
      } else if methodName == Constants.MethodSelfReflection {
        PlanSelfReflectionOutcomeMeaning(mapStr, queries);
      } else if methodName == Constants.MethodMultiagentReflection {
        PlanMultiagentOutcomeMeaning(mapStr, queries);
      }
    }

    /** How one map ends: a preprocessing error, or the selected planner's outcome on the dumped map. */
    function MapOutcome(mode: string, methodName: string, semanticMap: Preprocess.SemanticMap, queries: seq<string>): Run
    {
      match Preprocess.PreprocessSemanticMap(semanticMap, mode == Constants.ModeUncertainty, roundFloats)
      case Err(e) => Aborted(e)
      case Ok(m) => PlannerOutcome(methodName, dumps(m), queries)
    }

    /**
     * The planner `main` runs on one map: the map is preprocessed (filtered
     * unless the mode is `"uncertainty"`), dumped to JSON, and handed to the
     * planner the method name selects; an unmatched name runs none.
     */
    method PlanMap(mode: string, methodName: string, mapName: string, semanticMap: Preprocess.SemanticMap, queries: seq<string>)
      returns (run: Run)
      requires JsonCoherent() && TurnCoherent()
      modifies this
      ensures |old(calls)| <= |calls|
      ensures Preprocess.PreprocessSemanticMap(semanticMap, mode == Constants.ModeUncertainty, roundFloats).Err? ==>
                run == Aborted(Preprocess.PreprocessSemanticMap(semanticMap, mode == Constants.ModeUncertainty, roundFloats).error)
                && calls == old(calls) && files == old(files)
      ensures Preprocess.PreprocessSemanticMap(semanticMap, mode == Constants.ModeUncertainty, roundFloats).Ok? && methodName !in Constants.Methods ==>
                run == Completed && calls == old(calls) && files == old(files)
      ensures run.Completed? ==> |calls| == |old(calls)| + CallsPerMap(methodName, |queries|)
      ensures OnlyUnder(old(files), files, MethodDir(mode, methodName))
      ensures run == MapOutcome(mode, methodName, semanticMap, queries)
    {
      var pre := Preprocess.PreprocessSemanticMap(semanticMap, mode == Constants.ModeUncertainty, roundFloats);
      if pre.Err? {
        return Aborted(pre.error);
      }
      var mapStr := dumps(pre.value);
      if methodName == Constants.MethodBase {
        run := PlanBase(mode, mapName, mapStr, queries);
      } else if methodName == Constants.MethodSelfReflection {
        run := PlanSelfReflection(mode, mapName, mapStr, queries);
      } else if methodName == Constants.MethodMultiagentReflection {
        run := PlanMultiagentReflection(mode, mapName, mapStr, queries);
      } else if methodName == Constants.MethodEnsemble {
        run := PlanEnsembling(mode, mapName, mapStr, queries);
      } else {
        run := Completed;
      }
    }

    /** Map `i` of the run ends as `MapOutcome` says. */
    function MapSteps(mode: string, methodName: string, maps: seq<(string, Preprocess.SemanticMap)>, queries: seq<string>): nat -> Run
    {
      (i: nat) => if i < |maps| then MapOutcome(mode, methodName, maps[i].1, queries) else Completed
    }

    /** How the loop of `main` over the maps ends. */
    function RunMapsOutcome(mode: string, methodName: string, maps: seq<(string, Preprocess.SemanticMap)>, queries: seq<string>): Run
    {
      FirstAbort(MapSteps(mode, methodName, maps, queries), |maps|)
    }

    /**
     * The loop over the maps completes exactly when every map does, and
     * otherwise ends as the first map that does not.
     */
    lemma RunMapsOutcomeMeaning(mode: string, methodName: string, maps: seq<(string, Preprocess.SemanticMap)>, queries: seq<string>)
      ensures RunMapsOutcome(mode, methodName, maps, queries).Completed? <==>
                forall i :: 0 <= i < |maps| ==> MapOutcome(mode, methodName, maps[i].1, queries).Completed?
      ensures RunMapsOutcome(mode, methodName, maps, queries).Aborted? ==>
                exists i :: 0 <= i < |maps| && MapOutcome(mode, methodName, maps[i].1, queries) == RunMapsOutcome(mode, methodName, maps, queries)
                            && forall k :: 0 <= k < i ==> MapOutcome(mode, methodName, maps[k].1, queries).Completed?
    {
      var steps := MapSteps(mode, methodName, maps, queries);
      FirstAbortMeaning(steps, |maps|);
      assert forall i :: 0 <= i < |maps| ==> steps(i) == MapOutcome(mode, methodName, maps[i].1, queries);
    }

    /**
     * `main`: the planner of the method, once per map in folder order; the
     * first exception a provider or the preprocessing raises ends the run.
     * It completes exactly when every map's preprocessing and planner do.
     */
    method RunMaps(mode: string, methodName: string, maps: seq<(string, Preprocess.SemanticMap)>, queries: seq<string>)
      returns (run: Run)
      requires JsonCoherent() && TurnCoherent()
      modifies this
      ensures |old(calls)| <= |calls|
      ensures run.Completed? ==> |calls| == |old(calls)| + |maps| * CallsPerMap(methodName, |queries|)
      ensures methodName !in Constants.Methods && run.Completed? ==> calls == old(calls) && files == old(files)
      ensures OnlyUnder(old(files), files, MethodDir(mode, methodName))
      ensures run == RunMapsOutcome(mode, methodName, maps, queries)
      ensures run.Completed? <==> forall i :: 0 <= i < |maps| ==> MapOutcome(mode, methodName, maps[i].1, queries).Completed?
      ensures run.Aborted? ==>
                exists i :: 0 <= i < |maps| && MapOutcome(mode, methodName, maps[i].1, queries) == run
                            && forall k :: 0 <= k < i ==> MapOutcome(mode, methodName, maps[k].1, queries).Completed?
    {
      run := MapsLoop(mode, methodName, maps, queries, MapSteps(mode, methodName, maps, queries));
      RunMapsOutcomeMeaning(mode, methodName, maps, queries);
    }

    /** The loop of `main` over the maps, map `k` ending as `outcome(k)`. */
    method MapsLoop(mode: string, methodName: string, maps: seq<(string, Preprocess.SemanticMap)>, queries: seq<string>,
                    ghost outcome: nat -> Run)
      returns (run: Run)
      requires JsonCoherent() && TurnCoherent()
      requires forall k {:trigger MapOutcome(mode, methodName, maps[k].1, queries)} :: 0 <= k < |maps| ==>
                 outcome(k) == MapOutcome(mode, methodName, maps[k].1, queries)
      modifies this
      ensures |old(calls)| <= |calls|
      ensures run.Completed? ==> |calls| == |old(calls)| + |maps| * CallsPerMap(methodName, |queries|)
      ensures methodName !in Constants.Methods && run.Completed? ==> calls == old(calls) && files == old(files)
      ensures OnlyUnder(old(files), files, MethodDir(mode, methodName))
      ensures run == FirstAbort(outcome, |maps|)
    {
      for i := 0 to |maps|
        invariant FirstAbort(outcome, i) == Completed
        invariant |old(calls)| <= |old(calls)| + i * CallsPerMap(methodName, |queries|) == |calls|
        invariant methodName !in Constants.Methods ==> calls == old(calls) && files == old(files)
        invariant OnlyUnder(old(files), files, MethodDir(mode, methodName))
      {
        ghost var before := files;
        run := MapStep(mode, methodName, maps, queries, outcome, i);
        OnlyUnderTrans(old(files), before, files, MethodDir(mode, methodName));
        FirstAbortStep(outcome, i, |maps|);
        if run.Aborted? {
          return;
        }
        OneProviderMore(i, CallsPerMap(methodName, |queries|));
      }
      return Completed;
    }

    /** Map `i` of the loop of `main`. */
    method MapStep(mode: string, methodName: string, maps: seq<(string, Preprocess.SemanticMap)>, queries: seq<string>,
                   ghost outcome: nat -> Run, i: nat)
      returns (run: Run)
      requires JsonCoherent() && TurnCoherent()
      requires forall k {:trigger MapOutcome(mode, methodName, maps[k].1, queries)} :: 0 <= k < |maps| ==>
                 outcome(k) == MapOutcome(mode, methodName, maps[k].1, queries)
      requires i < |maps|
      modifies this
      ensures |old(calls)| <= |calls|
      ensures run.Completed? ==> |calls| == |old(calls)| + CallsPerMap(methodName, |queries|)
      ensures methodName !in Constants.Methods ==> calls == old(calls) && files == old(files)
      ensures OnlyUnder(old(files), files, MethodDir(mode, methodName))
      ensures run == outcome(i)
    {
      run := PlanMap(mode, methodName, maps[i].0, maps[i].1, queries);
    }
  }
}
