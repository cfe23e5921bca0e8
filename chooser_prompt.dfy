/**
 * `ChooserPrompt`: the ensemble's judge prompt. Its `global_replace` first puts
 * the numbered list of candidate responses in place of `{{llm_responses}}`,
 * then substitutes the keyword data.
 */
module ChooserPrompt {
  import opened Strings
  import opened Prompt

  const LlmResponsesPlaceholder: string := "{{llm_responses}}"

  /** One numbered entry: `f"RESPONSE {i}: \n"` followed by `f"{response}\n"`. */
  function Entry(i: nat, response: string): string
  {
    "RESPONSE " + NatToString(i) + ": \n" + response + "\n"
  }

  /** The responses block: the entries of all responses, numbered from 0, in list order. */
  function Block(rs: seq<string>): string
  {
    if rs == [] then "" else Block(rs[..|rs| - 1]) + Entry(|rs| - 1, rs[|rs| - 1])
  }

  /**
   * `replace_llm_responses`: builds the block entry by entry, then replaces
   * every `{{llm_responses}}` with it.
   */
  method ReplaceLlmResponses(rs: seq<string>, text: string) returns (r: string)
    ensures r == ReplaceAll(text, LlmResponsesPlaceholder, Block(rs))
  {
    var responsesText := "";
    for i := 0 to |rs|
      invariant responsesText == Block(rs[..i])
    {
      responsesText := responsesText + "RESPONSE " + NatToString(i) + ": \n";
      responsesText := responsesText + rs[i] + "\n";
      assert rs[..i + 1][..i] == rs[..i];
    }
    assert rs[..|rs|] == rs;
    r := ReplaceAll(text, LlmResponsesPlaceholder, responsesText);
  }

  /** One more response adds its entry, numbered by its position, at the end of the block. */
  lemma BlockSnoc(rs: seq<string>, x: string)
    ensures Block(rs + [x]) == Block(rs) + Entry(|rs|, x)
  {
    var s := rs + [x];
    assert s[..|s| - 1] == rs && s[|s| - 1] == x;
    assert Block(s) == Block(s[..|s| - 1]) + Entry(|s| - 1, s[|s| - 1]);
  }

  /** The block of a prefix of the responses is a prefix of the block. */
  lemma {:induction false} BlockPrefix(rs: seq<string>, i: nat)
    requires i <= |rs|
    ensures |Block(rs[..i])| <= |Block(rs)| && Block(rs)[..|Block(rs[..i])|] == Block(rs[..i])
    decreases |rs| - i
  {
    if i == |rs| {
      assert rs[..i] == rs;
    } else {
      var init := rs[..|rs| - 1];
      BlockPrefix(init, i);
      assert init[..i] == rs[..i];
    }
  }

  /** Response `i` appears as entry `i`, right after the entries of the responses before it. */
  lemma BlockEntryAt(rs: seq<string>, i: nat)
    requires i < |rs|
    ensures var lo := |Block(rs[..i])|;
            lo + |Entry(i, rs[i])| <= |Block(rs)| && Block(rs)[lo..lo + |Entry(i, rs[i])|] == Entry(i, rs[i])
  {
    BlockPrefix(rs, i + 1);
    assert rs[..i + 1][..i] == rs[..i];
    assert Block(rs[..i + 1]) == Block(rs[..i]) + Entry(i, rs[i]);
  }

  /** `ChooserPrompt(llm_responses, **prompt_data_dict)` with its `SYSTEM_PROMPT`. */
  datatype ChooserPrompt = ChooserPrompt(systemPrompt: string, llmResponses: seq<string>, promptData: PromptData)

  /** `global_replace`: the responses block first, then the keyword data. */
  method GlobalReplace(p: ChooserPrompt, text: string) returns (r: string)
    ensures r == Substituted(p.promptData, ReplaceAll(text, LlmResponsesPlaceholder, Block(p.llmResponses)))
  {
    r := ReplaceLlmResponses(p.llmResponses, text);
    r := ReplacePromptDataDict(p.promptData, r);
  }

  /** `get_prompt_text` of a chooser prompt. */
  function ChooserText(p: ChooserPrompt): string
  {
    Substituted(p.promptData, ReplaceAll(p.systemPrompt, LlmResponsesPlaceholder, Block(p.llmResponses)))
  }

  /** With no responses the placeholder is replaced by the empty string. */
  lemma NoResponsesEmptyBlock(p: ChooserPrompt)
    requires p.llmResponses == []
    ensures ChooserText(p) == Substituted(p.promptData, ReplaceAll(p.systemPrompt, LlmResponsesPlaceholder, ""))
  {
  }

  /**
   * Because the responses go in first, a keyword placeholder written inside a
   * response is itself substituted.
   */
  lemma ResponsesSubstitutedFirst(key: string, value: string)
    ensures var p := ChooserPrompt(LlmResponsesPlaceholder, [Placeholder(key)], [(key, value)]);
            ChooserText(p) == "RESPONSE 0: \n" + value + "\n"
  {
    var ph := Placeholder(key);
    var head := "RESPONSE 0: \n";
    var block := Entry(0, ph);
    assert NatToString(0) == "0";
    assert block == head + (ph + "\n");
    assert [ph][..0] == [];
    assert Block([ph]) == block;
    assert LlmResponsesPlaceholder[..|LlmResponsesPlaceholder|] == LlmResponsesPlaceholder;
    assert LlmResponsesPlaceholder[|LlmResponsesPlaceholder|..] == [];
    assert ReplaceAll(LlmResponsesPlaceholder, LlmResponsesPlaceholder, block) == block;
    ReplaceAllSkip(head, ph + "\n", ph, value);
    assert (ph + "\n")[..|ph|] == ph && (ph + "\n")[|ph|..] == "\n";
    assert ReplaceAll("\n", ph, value) == "\n";
    assert ReplaceAll(ph + "\n", ph, value) == value + "\n";
    assert [(key, value)][1..] == [];
    assert Substituted([(key, value)], block) == ReplaceAll(block, ph, value);
    assert ReplaceAll(block, ph, value) == head + (value + "\n");
  }
}
