/**
 * The `Prompt` base class: keyword data captured by the constructor and the
 * `{{key}}` substitution every concrete prompt applies to its system prompt.
 * The template texts of the concrete prompts are opaque strings here.
 */
module Prompt {
  import opened Strings

  /** The keyword arguments, in the order Python's dict keeps them. */
  type PromptData = seq<(string, string)>

  /** `"{{" + key + "}}"`. */
  function Placeholder(key: string): (p: string)
    ensures |p| == |key| + 4
  {
    "{{" + key + "}}"
  }

  /** The text after substituting the entries of `data` one after the other. */
  function Substituted(data: PromptData, text: string): string
  {
    if data == [] then text
    else Substituted(data[1..], ReplaceAll(text, Placeholder(data[0].0), data[0].1))
  }

  /**
   * `replace_prompt_data_dict`: for each key in dict order, every occurrence
   * of `{{key}}` in the current text becomes the key's value.
   */
  method ReplacePromptDataDict(data: PromptData, text: string) returns (r: string)
    ensures r == Substituted(data, text)
  {
    r := text;
    for i := 0 to |data|
      invariant Substituted(data[i..], r) == Substituted(data, text)
    {
      assert data[i..][1..] == data[i + 1..];
      r := ReplaceAll(r, Placeholder(data[i].0), data[i].1);
    }
    assert data[|data|..] == [];
  }

  /** Text holding no `{{key}}` for any key of the dict comes back unchanged; so does any text for an empty dict. */
  lemma {:induction false} SubstitutedWithoutPlaceholders(data: PromptData, text: string)
    requires forall k, i :: 0 <= k < |data| ==> !OccursAt(text, Placeholder(data[k].0), i)
    ensures Substituted(data, text) == text
  {
    if data != [] {
      ReplaceAllAbsent(text, Placeholder(data[0].0), data[0].1);
      SubstitutedWithoutPlaceholders(data[1..], text);
    }
  }

  /** Substituting a dict that maps each key to its own placeholder changes nothing. */
  lemma {:induction false} SubstitutedIdentity(data: PromptData, text: string)
    requires forall k :: 0 <= k < |data| ==> data[k].1 == Placeholder(data[k].0)
    ensures Substituted(data, text) == text
  {
    if data != [] {
      ReplaceAllSelf(text, Placeholder(data[0].0));
      SubstitutedIdentity(data[1..], text);
    }
  }

  /** Substituting two dicts one after the other is substituting their concatenation. */
  lemma {:induction false} SubstitutedConcat(a: PromptData, b: PromptData, text: string)
    ensures Substituted(a + b, text) == Substituted(b, Substituted(a, text))
  {
    if a != [] {
      assert (a + b)[1..] == a[1..] + b;
      SubstitutedConcat(a[1..], b, ReplaceAll(text, Placeholder(a[0].0), a[0].1));
    } else {
      assert a + b == b;
    }
  }

  /**
   * A concrete prompt (`PromptPlan`, `PromptCorrect`, `PromptReflect` and their
   * agent and user variants): its `SYSTEM_PROMPT` and the keyword data given to
   * `__init__`.
   */
  datatype Prompt = Prompt(systemPrompt: string, promptData: PromptData)

  /**
   * `get_prompt_text` = `global_replace(get_system_prompt())`; each of these
   * prompts' `global_replace` is `replace_prompt_data_dict` over its own data.
   */
  function PromptText(p: Prompt): (r: string)
    ensures p.promptData == [] ==> r == p.systemPrompt
  {
    Substituted(p.promptData, p.systemPrompt)
  }
}
