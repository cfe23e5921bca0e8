/**
 * The provider-independent half of `LargeLanguageModel`: cutting the JSON-like
 * part out of a completion (`_clean_response`) and the bounded retry loop of
 * `generate_json`. The provider's `generate_text` is an oracle `generate`:
 * `generate(k)` is what the k-th call returns, text or a raised exception.
 * `json.loads` is the predicate `parses`.
 */
module LargeLanguageModel {
  import opened Wrappers
  import opened Strings

  /** `JSON_MAX_ATTEMPTS`. */
  const JsonMaxAttempts: nat := 10

  /** The sentinel returned when no attempt parses. */
  const EmptyJson: string := "{}"

  /** One call of `generate_text`: the completion, or the exception it raised. */
  datatype Reply = Text(text: string) | Raised(error: string)

  predicate IsOpener(c: char)
  {
    c == '{' || c == '['
  }

  /** The closer that belongs to an opener. */
  function CloserOf(c: char): char
  {
    if c == '{' then '}' else ']'
  }

  /** Index of the first `{` or `[`, whichever comes first; -1 if there is neither. */
  function FirstOpener(s: string): (i: int)
    ensures -1 <= i < |s|
    ensures i == -1 <==> forall k :: 0 <= k < |s| ==> !IsOpener(s[k])
    ensures 0 <= i ==> IsOpener(s[i]) && forall k :: 0 <= k < i ==> !IsOpener(s[k])
  {
    if |s| == 0 then -1
    else if IsOpener(s[0]) then 0
    else
      var j := FirstOpener(s[1..]);
      if j == -1 then -1 else j + 1
  }

  /** `_clean_response`, index for index. */
  function CleanResponse(text: string): string
  {
    var objStart := Find(text, '{');
    var objEnd := RFind(text, '}') + 1;
    var arrayStart := Find(text, '[');
    var arrayEnd := RFind(text, ']') + 1;
    var useArray := objStart == -1 || (arrayStart != -1 && arrayStart < objStart);
    var start := if useArray then arrayStart else objStart;
    var end := if useArray then arrayEnd else objEnd;
    if start != -1 && end != -1 && start < end then text[start..end] else ""
  }

  /**
   * What `_clean_response` computes, stated without its index juggling: the
   * slice from the first opener of either kind to the last occurrence of the
   * closer of that kind, or "" when there is no opener or that closer does
   * not occur after it.
   */
  lemma CleanResponseSpec(text: string)
    ensures var s := FirstOpener(text);
            CleanResponse(text) ==
              if s == -1 then ""
              else
                var e := RFind(text, CloserOf(text[s])) + 1;
                if s < e then text[s..e] else ""
  {
    var s := FirstOpener(text);
    if s == -1 {
      CleanResponseNoOpener(text);
    } else {
      CleanResponseAtOpener(text, s);
    }
  }

  lemma CleanResponseNoOpener(text: string)
    requires FirstOpener(text) == -1
    ensures CleanResponse(text) == ""
  {
    assert Find(text, '{') == -1;
    assert Find(text, '[') == -1;
  }

  lemma CleanResponseAtOpener(text: string, s: nat)
    requires s < |text| && FirstOpener(text) == s
    ensures var e := RFind(text, CloserOf(text[s])) + 1;
            CleanResponse(text) == if s < e then text[s..e] else ""
  {
    if text[s] == '{' {
      FirstOpenerFinds(text, s, '{', '[');
    } else {
      FirstOpenerFinds(text, s, '[', '{');
    }
  }

  /** At the first opener, `find` of that opener stops there and `find` of the other goes past it. */
  lemma FirstOpenerFinds(text: string, s: nat, here: char, other: char)
    requires s < |text| && text[s] == here && here != other && IsOpener(here) && IsOpener(other)
    requires forall k :: 0 <= k < s ==> !IsOpener(text[k])
    ensures Find(text, here) == s
    ensures Find(text, other) == -1 || Find(text, other) > s
  {
    assert forall k :: 0 <= k < s ==> text[..s][k] == text[k];
    FindIs(text, here, s);
  }

  /** The result is "" or a contiguous slice of the completion. */
  lemma CleanResponseIsSlice(text: string)
    ensures var r := CleanResponse(text);
            r == "" || exists i, j :: 0 <= i < j <= |text| && r == text[i..j]
  {
    CleanResponseSpec(text);
  }

  /** A completion with neither `{` nor `[` cleans to "". */
  lemma CleanResponseWithoutOpener(text: string)
    requires '{' !in text && '[' !in text
    ensures CleanResponse(text) == ""
  {
    CleanResponseSpec(text);
  }

  /** A non-empty result starts with an opener and ends with its own closer. */
  lemma CleanResponseShape(text: string)
    ensures var r := CleanResponse(text);
            r == "" || (|r| >= 2 && IsOpener(r[0]) && r[|r| - 1] == CloserOf(r[0]))
  {
    CleanResponseSpec(text);
  }

  /** Cleaning a cleaned completion changes nothing. */
  lemma CleanResponseIdempotent(text: string)
    ensures CleanResponse(CleanResponse(text)) == CleanResponse(text)
  {
    var r := CleanResponse(text);
    if r == "" {
      CleanResponseNoOpener(r);
    } else {
      CleanResponseShape(text);
      assert FirstOpener(r) == 0;
      CleanResponseAtOpener(r, 0);
      RFindIs(r, CloserOf(r[0]), |r| - 1);
      assert r[0..|r|] == r;
    }
  }

  /** How one pass of the retry loop ends. */
  datatype Outcome = Raise(error: string) | Parsed(json: string) | Unparsed

  /** Attempt `k`: the exception, the cleaned completion that parses, or neither. */
  function Attempt(generate: nat -> Reply, clean: string -> string, parses: string -> bool, k: nat): (o: Outcome)
    ensures o.Raise? <==> generate(k).Raised?
    ensures o.Raise? ==> o.error == generate(k).error
    ensures o.Parsed? ==> o.json == clean(generate(k).text) && parses(o.json)
    ensures o.Unparsed? <==> generate(k).Text? && !parses(clean(generate(k).text))
  {
    match generate(k)
    case Raised(e) => Raise(e)
    case Text(t) =>
      var response := clean(t);
      if parses(response) then Parsed(response) else Unparsed
  }

  /** What `generate_json` returns when its loop is entered at attempt `attempt`. */
  function JsonFrom(generate: nat -> Reply, clean: string -> string, parses: string -> bool, attempt: nat): Result<string, string>
    decreases JsonMaxAttempts + 1 - attempt
  {
    if attempt > JsonMaxAttempts then Ok(EmptyJson)
    else
      match Attempt(generate, clean, parses, attempt)
      case Raise(e) => Err(e)
      case Parsed(response) => Ok(response)
      case Unparsed => JsonFrom(generate, clean, parses, attempt + 1)
  }

  /** How many times `generate_text` is called from attempt `attempt` on. */
  function JsonCalls(generate: nat -> Reply, clean: string -> string, parses: string -> bool, attempt: nat): (n: nat)
    ensures attempt <= JsonMaxAttempts ==> 1 <= n <= JsonMaxAttempts + 1 - attempt
    ensures attempt > JsonMaxAttempts ==> n == 0
    decreases JsonMaxAttempts + 1 - attempt
  {
    if attempt > JsonMaxAttempts then 0
    else if Attempt(generate, clean, parses, attempt).Unparsed? then 1 + JsonCalls(generate, clean, parses, attempt + 1)
    else 1
  }

  /**
   * `generate_json`: calls `generate_text` until a cleaned completion parses,
   * at most `JSON_MAX_ATTEMPTS` times; an exception from `generate_text`
   * propagates (`Err`), and "{}" is returned when every attempt failed to parse.
   * The cleaning step is the parameter `clean`; every caller passes
   * `CleanResponse`, so the loop's contract holds whatever the cleaning does.
   */
  method GenerateJson(generate: nat -> Reply, clean: string -> string, parses: string -> bool)
    returns (r: Result<string, string>, ghost calls: nat)
    ensures r == JsonFrom(generate, clean, parses, 1)
    ensures calls == JsonCalls(generate, clean, parses, 1) && 1 <= calls <= JsonMaxAttempts
  {
    var attempt := 1;
    calls := 0;
    while attempt <= JsonMaxAttempts
      invariant 1 <= attempt <= JsonMaxAttempts + 1
      invariant calls == attempt - 1
      invariant JsonFrom(generate, clean, parses, 1) == JsonFrom(generate, clean, parses, attempt)
      invariant JsonCalls(generate, clean, parses, 1) == calls + JsonCalls(generate, clean, parses, attempt)
    {
      var reply := generate(attempt);
      calls := calls + 1;
      if reply.Raised? {
        r := Err(reply.error);
        return;
      }
      var response := clean(reply.text);
      if parses(response) {
        r := Ok(response);
        return;
      }
      assert Attempt(generate, clean, parses, attempt).Unparsed?;
      assert JsonFrom(generate, clean, parses, attempt) == JsonFrom(generate, clean, parses, attempt + 1);
      assert JsonCalls(generate, clean, parses, attempt) == 1 + JsonCalls(generate, clean, parses, attempt + 1);
      attempt := attempt + 1;
    }
    r := Ok(EmptyJson);
  }

  /** The first attempt whose completion parses decides the result. */
  lemma {:induction false} JsonReturnsFirstParse(generate: nat -> Reply, clean: string -> string, parses: string -> bool, attempt: nat, k: nat)
    requires 1 <= attempt <= k <= JsonMaxAttempts
    requires forall j :: attempt <= j < k ==> Attempt(generate, clean, parses, j).Unparsed?
    requires generate(k).Text? && parses(clean(generate(k).text))
    ensures JsonFrom(generate, clean, parses, attempt) == Ok(clean(generate(k).text))
    ensures JsonCalls(generate, clean, parses, attempt) == k - attempt + 1
    decreases k - attempt
  {
    if attempt < k {
      assert Attempt(generate, clean, parses, attempt).Unparsed?;
      JsonReturnsFirstParse(generate, clean, parses, attempt + 1, k);
      assert JsonFrom(generate, clean, parses, attempt) == JsonFrom(generate, clean, parses, attempt + 1);
    } else {
      assert Attempt(generate, clean, parses, k) == Parsed(clean(generate(k).text));
    }
  }

  /** An exception raised before any completion parsed propagates unchanged. */
  lemma {:induction false} JsonPropagatesRaise(generate: nat -> Reply, clean: string -> string, parses: string -> bool, attempt: nat, k: nat)
    requires 1 <= attempt <= k <= JsonMaxAttempts
    requires forall j :: attempt <= j < k ==> Attempt(generate, clean, parses, j).Unparsed?
    requires generate(k).Raised?
    ensures JsonFrom(generate, clean, parses, attempt) == Err(generate(k).error)
    ensures JsonCalls(generate, clean, parses, attempt) == k - attempt + 1
    decreases k - attempt
  {
    if attempt < k {
      assert Attempt(generate, clean, parses, attempt).Unparsed?;
      JsonPropagatesRaise(generate, clean, parses, attempt + 1, k);
      assert JsonFrom(generate, clean, parses, attempt) == JsonFrom(generate, clean, parses, attempt + 1);
    } else {
      assert Attempt(generate, clean, parses, k) == Raise(generate(k).error);
    }
  }

  /** When every attempt fails to parse, the sentinel "{}" comes back after all ten calls. */
  lemma {:induction false} JsonSentinelAfterAllFail(generate: nat -> Reply, clean: string -> string, parses: string -> bool, attempt: nat)
    requires 1 <= attempt <= JsonMaxAttempts + 1
    requires forall j :: attempt <= j <= JsonMaxAttempts ==> Attempt(generate, clean, parses, j).Unparsed?
    ensures JsonFrom(generate, clean, parses, attempt) == Ok(EmptyJson)
    ensures JsonCalls(generate, clean, parses, attempt) == JsonMaxAttempts + 1 - attempt
    decreases JsonMaxAttempts + 1 - attempt
  {
    if attempt <= JsonMaxAttempts {
      JsonSentinelAfterAllFail(generate, clean, parses, attempt + 1);
    }
  }

  /** A provider that never raises always yields a string: a parsed cleaned completion or "{}". */
  lemma {:induction false} JsonNeverFailsWithoutRaise(generate: nat -> Reply, clean: string -> string, parses: string -> bool, attempt: nat)
    requires 1 <= attempt
    requires forall j :: attempt <= j <= JsonMaxAttempts ==> generate(j).Text?
    ensures JsonFrom(generate, clean, parses, attempt).Ok?
    ensures var v := JsonFrom(generate, clean, parses, attempt).value; v == EmptyJson || parses(v)
    decreases JsonMaxAttempts + 1 - attempt
  {
    if attempt <= JsonMaxAttempts && Attempt(generate, clean, parses, attempt).Unparsed? {
      JsonNeverFailsWithoutRaise(generate, clean, parses, attempt + 1);
    }
  }
}
