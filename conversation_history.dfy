/**
 * `ConversationHistory`: a message list that grows by appends and is emptied
 * by `clear`, with two exports. A message is the dict `{"role": .., "content": ..}`
 * as in the source, so the Gemini export can look the system message up with
 * `search_dict_by_key_value`. The SDK's `Content`/`Part` objects become the
 * value `Content(role, text)`.
 */
module ConversationHistory {
  import opened Wrappers
  import opened DictUtils

  const RoleSystem: string := "system"
  const RoleAssistant: string := "assistant"
  const RoleUser: string := "user"
  const RoleModel: string := "model"

  const KeyRole: string := "role"
  const KeyContent: string := "content"

  /** One Gemini turn: `Content(role=role, parts=[Part.from_text(text)])`. */
  datatype Content = Content(role: string, text: string)

  /** A dict with a role and a content string, the shape every constructor below builds. */
  predicate IsMessage(m: Dict<string>)
  {
    KeyRole in m && m[KeyRole].Some? && KeyContent in m && m[KeyContent].Some?
  }

  function Role(m: Dict<string>): string
    requires IsMessage(m)
  {
    m[KeyRole].value
  }

  function Text(m: Dict<string>): string
    requires IsMessage(m)
  {
    m[KeyContent].value
  }

  function MessageOf(role: string, text: string): (m: Dict<string>)
    ensures IsMessage(m) && Role(m) == role && Text(m) == text
    ensures m.Keys == {KeyRole, KeyContent}
  {
    map[KeyRole := Some(role), KeyContent := Some(text)]
  }

  /** `system_message`: a two-key dict with role "system" and the given content. */
  function SystemMessage(text: string): (m: Dict<string>)
    ensures IsMessage(m) && Role(m) == RoleSystem && Text(m) == text && |m| == 2
  {
    MessageOf(RoleSystem, text)
  }

  /** `assistant_message`: a two-key dict with role "assistant" and the given content. */
  function AssistantMessage(text: string): (m: Dict<string>)
    ensures IsMessage(m) && Role(m) == RoleAssistant && Text(m) == text && |m| == 2
  {
    MessageOf(RoleAssistant, text)
  }

  /** `user_message`: a two-key dict with role "user" and the given content. */
  function UserMessage(text: string): (m: Dict<string>)
    ensures IsMessage(m) && Role(m) == RoleUser && Text(m) == text && |m| == 2
  {
    MessageOf(RoleUser, text)
  }

  /** The messages the constructors can build: well-formed, with one of the three roles. */
  predicate IsLog(ms: seq<Dict<string>>)
  {
    forall i :: 0 <= i < |ms| ==> IsMessage(ms[i]) && Role(ms[i]) in {RoleSystem, RoleUser, RoleAssistant}
  }

  /** `system_instruction`: the content of the first system message, `None` if there is none. */
  function SystemInstruction(ms: seq<Dict<string>>): (r: Option<string>)
    requires IsLog(ms)
  {
    var i := FirstWith(ms, KeyRole, Some(RoleSystem));
    if i == -1 then None else Some(Text(ms[i]))
  }

  /** The role a non-system message takes in a Gemini turn. */
  function GeminiRole(role: string): string
  {
    if role == RoleAssistant then RoleModel else role
  }

  /** The loop branch of the export: every non-system message, in order, as a turn. */
  function Turns(ms: seq<Dict<string>>): (r: seq<Content>)
    requires IsLog(ms)
    ensures |r| <= |ms|
  {
    if ms == [] then []
    else
      var last := ms[|ms| - 1];
      Turns(ms[..|ms| - 1]) + (if Role(last) != RoleSystem then [Content(GeminiRole(Role(last)), Text(last))] else [])
  }

  /** The turns of the export, including the one-system-message special case. */
  function GeminiContents(ms: seq<Dict<string>>): (r: seq<Content>)
    requires IsLog(ms)
  {
    if |ms| == 1 && Role(ms[0]) == RoleSystem then [Content(RoleUser, Text(ms[0]))]
    else Turns(ms)
  }

  class History {
    /** `conversation_history_list`. */
    var messages: seq<Dict<string>>

    ghost predicate Valid()
      reads this
    {
      IsLog(messages)
    }

    /** `__init__`: an empty history. */
    constructor()
      ensures Valid() && messages == []
    {
      messages := [];
    }

    /** `append_system_message`: one system message at the end, the earlier ones untouched. */
    method AppendSystemMessage(text: string)
      requires Valid()
      modifies this
      ensures Valid() && messages == old(messages) + [SystemMessage(text)]
    {
      messages := messages + [SystemMessage(text)];
    }

    /** `append_assistant_message`: one assistant message at the end, the earlier ones untouched. */
    method AppendAssistantMessage(text: string)
      requires Valid()
      modifies this
      ensures Valid() && messages == old(messages) + [AssistantMessage(text)]
    {
      messages := messages + [AssistantMessage(text)];
    }

    /** `append_user_message`: one user message at the end, the earlier ones untouched. */
    method AppendUserMessage(text: string)
      requires Valid()
      modifies this
      ensures Valid() && messages == old(messages) + [UserMessage(text)]
    {
      messages := messages + [UserMessage(text)];
    }

    /** `clear`: the history is empty again. */
    method Clear()
      modifies this
      ensures Valid() && messages == []
    {
      messages := [];
    }

    /** `get_chat_gpt_conversation_history`: the message list itself, unconverted. */
    function ChatGptHistory(): (r: seq<Dict<string>>)
      reads this
      ensures r == messages
    {
      messages
    }

    /**
     * `get_gemini_conversation_history`: the system instruction found by
     * `search_dict_by_key_value`, and the turns built by the special case or by
     * the loop over the non-system messages.
     */
    method GeminiHistory() returns (systemInstruction: Option<string>, contents: seq<Content>)
      requires Valid()
      ensures systemInstruction == SystemInstruction(messages)
      ensures contents == GeminiContents(messages)
    {
      var found := SearchDictByKeyValue(messages, KeyRole, Some(RoleSystem));
      if found.Some? {
        systemInstruction := found.value[KeyContent];
      } else {
        systemInstruction := None;
      }

      contents := [];
      if |messages| == 1 && messages[0][KeyRole] == Some(RoleSystem) {
        contents := [Content(RoleUser, messages[0][KeyContent].value)];
      } else {
        for i := 0 to |messages|
          invariant contents == Turns(messages[..i])
        {
          var role := messages[i][KeyRole].value;
          var content := messages[i][KeyContent].value;
          if role != RoleSystem {
            var geminiRole := if role == RoleAssistant then RoleModel else role;
            contents := contents + [Content(geminiRole, content)];
          }
          assert messages[..i + 1][..i] == messages[..i];
        }
        assert messages[..|messages|] == messages;
      }
    }
  }

  /** The turns of two logs one after the other are the turns of each, in order. */
  lemma {:induction false} TurnsConcat(a: seq<Dict<string>>, b: seq<Dict<string>>)
    requires IsLog(a) && IsLog(b)
    ensures IsLog(a + b) && Turns(a + b) == Turns(a) + Turns(b)
    decreases |b|
  {
    if b == [] {
      assert a + b == a;
    } else {
      var init := b[..|b| - 1];
      assert (a + b)[..|a + b| - 1] == a + init;
      TurnsConcat(a, init);
    }
  }

  /** No turn carries the system role, and an assistant message becomes a "model" turn. */
  lemma {:induction false} TurnsRoles(ms: seq<Dict<string>>)
    requires IsLog(ms)
    ensures forall k :: 0 <= k < |Turns(ms)| ==> Turns(ms)[k].role in {RoleUser, RoleModel}
  {
    if ms != [] {
      TurnsRoles(ms[..|ms| - 1]);
    }
  }

  /** The system instruction is absent exactly when no message has the system role. */
  lemma SystemInstructionAbsent(ms: seq<Dict<string>>)
    requires IsLog(ms)
    ensures SystemInstruction(ms).None? <==> forall i :: 0 <= i < |ms| ==> Role(ms[i]) != RoleSystem
  {
    var i := FirstWith(ms, KeyRole, Some(RoleSystem));
    if i == -1 {
      forall j | 0 <= j < |ms|
        ensures Role(ms[j]) != RoleSystem
      {
        assert !HasPair(ms[j], KeyRole, Some(RoleSystem));
      }
    }
  }

  /** A later system message never replaces the first one as the instruction. */
  lemma SystemInstructionKeepsFirst(ms: seq<Dict<string>>, extra: seq<Dict<string>>)
    requires IsLog(ms) && IsLog(extra) && SystemInstruction(ms).Some?
    ensures IsLog(ms + extra) && SystemInstruction(ms + extra) == SystemInstruction(ms)
  {
    var i := FirstWith(ms, KeyRole, Some(RoleSystem));
    FirstWithIs(ms + extra, KeyRole, Some(RoleSystem), i);
  }

  /** A log of one system message exports that content as both the instruction and one user turn. */
  lemma LoneSystemMessageExport(text: string)
    ensures IsLog([SystemMessage(text)])
    ensures SystemInstruction([SystemMessage(text)]) == Some(text)
    ensures GeminiContents([SystemMessage(text)]) == [Content(RoleUser, text)]
  {
    FirstWithIs([SystemMessage(text)], KeyRole, Some(RoleSystem), 0);
  }

  /** `[system(s), user(q)]`, the history of every call in the base and self-reflection workflows. */
  lemma SystemThenUserExport(s: string, q: string)
    ensures IsLog([SystemMessage(s), UserMessage(q)])
    ensures SystemInstruction([SystemMessage(s), UserMessage(q)]) == Some(s)
    ensures GeminiContents([SystemMessage(s), UserMessage(q)]) == [Content(RoleUser, q)]
  {
    var ms := [SystemMessage(s), UserMessage(q)];
    FirstWithIs(ms, KeyRole, Some(RoleSystem), 0);
    assert ms[..1] == [SystemMessage(s)];
    assert ms[..1][..0] == [];
    assert Turns(ms[..1]) == [];
    assert Turns(ms) == Turns(ms[..1]) + [Content(RoleUser, q)];
  }

  /** An empty history exports as `(None, [])`. */
  lemma EmptyExport()
    ensures SystemInstruction([]) == None && GeminiContents([]) == []
  {
  }
}
