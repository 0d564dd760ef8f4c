/** The persona suggestion of `gemini_interface.py`,
    `generate_expert_system_prompt`: check the API key and the context, build
    a prompt around a snippet of the context, send it to the Gemini model, and
    turn the response or the raised exception into exactly one of a suggested
    system prompt or an error message. The SDK (configuring it and the call)
    is the input of the function: `configureError` is the text of the
    exception `genai.configure` raises, if any, and `call` what sending a
    prompt gives. */
module PersonaSuggestion {
  import opened Options

  const MODEL_NAME := "gemini-2.5-pro-exp-03-25"
  const CONTEXT_SNIPPET_MAX_CHARS: nat := 10000000000
  const TRUNCATION_MARKER := "\n[... context truncated ...]"

  const CONFIG_ERROR := "Configuration Error: GEMINI_API_KEY not found, empty, or placeholder in GEMINI_API_KEY.py"
  const INPUT_ERROR := "Input Error: Input context is empty."
  const EMPTY_RESPONSE_ERROR := "Error: Received an empty text response from the AI model."
  const UNEXPECTED_STRUCTURE_ERROR := "Error: Unexpected response structure from the AI model."
  const INVALID_KEY_ERROR := "API Error: Invalid Google AI API Key. Please check GEMINI_API_KEY.py."
  const QUOTA_ERROR := "API Error: Quota exceeded. Check Google Cloud limits or try later."

  /** Python's `str.isspace()`. */
  predicate IsSpace(c: char) {
    || c == ' ' || '\t' <= c <= '\r' || '\U{1C}' <= c <= '\U{1F}'
    || c == '\U{85}' || c == '\U{A0}' || c == '\U{1680}'
    || '\U{2000}' <= c <= '\U{200A}' || c == '\U{2028}' || c == '\U{2029}'
    || c == '\U{202F}' || c == '\U{205F}' || c == '\U{3000}'
  }

  /** `s.lstrip()` */
  function TrimStart(s: string): (r: string)
    ensures |r| <= |s| && r == s[|s| - |r|..]
    ensures forall i | 0 <= i < |s| - |r| :: IsSpace(s[i])
    ensures r != [] ==> !IsSpace(r[0])
  {
    if s != [] && IsSpace(s[0]) then TrimStart(s[1..]) else s
  }

  /** `s.rstrip()` */
  function TrimEnd(s: string): (r: string)
    ensures |r| <= |s| && r == s[..|r|]
    ensures forall i | |r| <= i < |s| :: IsSpace(s[i])
    ensures r != [] ==> !IsSpace(r[|r| - 1])
  {
    if s != [] && IsSpace(s[|s| - 1]) then TrimEnd(s[..|s| - 1]) else s
  }

  /** How many whitespace characters `s` starts with. */
  function Leading(s: string): nat {
    |s| - |TrimStart(s)|
  }

  /** `s.strip()`: the part of `s` between its leading and its trailing
      whitespace; empty exactly when `s` is all whitespace. */
  function Strip(s: string): (r: string)
    ensures Leading(s) + |r| <= |s| && r == s[Leading(s)..Leading(s) + |r|]
    ensures forall i | 0 <= i < Leading(s) :: IsSpace(s[i])
    ensures forall i | Leading(s) + |r| <= i < |s| :: IsSpace(s[i])
    ensures r != [] ==> !IsSpace(r[0]) && !IsSpace(r[|r| - 1])
    ensures r == [] <==> forall i | 0 <= i < |s| :: IsSpace(s[i])
  {
    TrimEnd(TrimStart(s))
  }

  /** Stripping twice strips no more than stripping once. */
  lemma StripIdempotent(s: string)
    ensures Strip(Strip(s)) == Strip(s)
  {
  }

  /** The snippet: the first `CONTEXT_SNIPPET_MAX_CHARS` characters of the
      stripped context, followed by the truncation marker exactly when the
      stripped context is longer than that. */
  function Snippet(context: string): (r: string)
    ensures |Strip(context)| <= CONTEXT_SNIPPET_MAX_CHARS ==> r == Strip(context)
    ensures |Strip(context)| > CONTEXT_SNIPPET_MAX_CHARS ==>
      && |r| == CONTEXT_SNIPPET_MAX_CHARS + |TRUNCATION_MARKER|
      && r[..CONTEXT_SNIPPET_MAX_CHARS] == Strip(context)[..CONTEXT_SNIPPET_MAX_CHARS]
      && r[CONTEXT_SNIPPET_MAX_CHARS..] == TRUNCATION_MARKER
  {
    var stripped := Strip(context);
    if |stripped| > CONTEXT_SNIPPET_MAX_CHARS then
      stripped[..CONTEXT_SNIPPET_MAX_CHARS] + TRUNCATION_MARKER
    else stripped
  }

  /** The instructions that precede the snippet in the prompt. */
  const INSTRUCTIONS :=
        "Analyze the following text snippet extracted from a larger context document (formatted with XML tags like <document path=\"...\">). Identify the primary subject matter, domain, or key technologies discussed.\n"
      + "\n"
      + "Based on this analysis, generate a concise system prompt (4-8 sentences) suitable for another AI assistant. This system prompt should:\n"
      + "1. Instruct the assistant to adopt the persona of a knowledgeable expert in the identified domain/subject (e.g., \"You are an expert Python developer specializing in data analysis libraries...\").\n"
      + "2. Emphasize using the *full context* (which will be provided to the assistant separately) to answer questions accurately, comprehensively, and based on the provided documents preferentially. Empasize use of search tool to verify facts or extend knowledge.\n"
      + "3. Guide the assistant to cite the source document path when possible or relevant.\n"
      + "4. Avoid mentioning the snippet analysis process in the final output.\n"
      + "\n"
      + "Output *only* the generated system prompt text, with no extra explanations, preamble, or formatting like markdown quotes.\n"
      + "\n"
      + "Snippet:\n"
      + "-------\n"

  /** What follows the snippet in the prompt. */
  const CLOSING := "\n-------\nGenerated System Prompt:"

  /** The prompt sent to the model. */
  function MetaPrompt(snippet: string): string {
    INSTRUCTIONS + snippet + CLOSING
  }

  /** The text of `prompt` between a leading `head` and a trailing `tail`,
      when it has both. */
  function Between(prompt: string, head: string, tail: string): Option<string> {
    if |prompt| >= |head| + |tail| && prompt[..|head|] == head && prompt[|prompt| - |tail|..] == tail
    then Some(prompt[|head|..|prompt| - |tail|])
    else None
  }

  /** What lies between a head and a tail put around a text is that text. */
  lemma BetweenRoundTrip(head: string, text: string, tail: string)
    ensures Between(head + text + tail, head, tail) == Some(text)
  {
    var p := head + text + tail;
    assert p[..|head|] == head;
    assert p[|p| - |tail|..] == tail;
    assert p[|head|..|p| - |tail|] == text;
  }

  /** The text between the two `-------` delimiters of a prompt. */
  function ExtractSnippet(prompt: string): Option<string> {
    Between(prompt, INSTRUCTIONS, CLOSING)
  }

  /** The snippet appears in the prompt verbatim, between the delimiters. */
  lemma MetaPromptHoldsSnippet(snippet: string)
    ensures ExtractSnippet(MetaPrompt(snippet)) == Some(snippet)
  {
    BetweenRoundTrip(INSTRUCTIONS, snippet, CLOSING);
  }

  /** What `generate_content` returned, as far as the function looks at it:
      the `text` attribute when the response has one, and the name of
      `prompt_feedback.block_reason` when that reason is truthy (a nonzero
      enum value). */
  datatype Response = Response(text: Option<string>, blockReason: Option<string>)

  /** Sending the prompt either gives a response or raises an exception with
      the message `str(e)`. */
  datatype CallOutcome = Responded(response: Response) | Raised(message: string)

  /** The pair `(prompt, error)` the function returns. */
  datatype Suggestion = Suggestion(prompt: Option<string>, error: Option<string>)

  function Failure(message: string): Suggestion {
    Suggestion(None, Some(message))
  }

  /** The response branch: a non-empty stripped text is the suggestion;
      otherwise a block reason, when there is one, names why there is none. */
  function InterpretResponse(response: Response): (r: Suggestion)
    ensures r.prompt.Some? != r.error.Some?
    ensures r.prompt.Some? <==> response.text.Some? && Strip(response.text.value) != ""
    ensures r.prompt.Some? ==> r.prompt.value == Strip(response.text.value)
    ensures r.error.Some? && response.blockReason.None? ==>
      r.error.value in {EMPTY_RESPONSE_ERROR, UNEXPECTED_STRUCTURE_ERROR}
    // one message per way of failing
    ensures response.text.Some? && Strip(response.text.value) == "" && response.blockReason.None? ==>
      r == Failure(EMPTY_RESPONSE_ERROR)
    ensures response.text.Some? && Strip(response.text.value) == "" && response.blockReason.Some? ==>
      r == Failure("Content generation blocked due to safety filters (" + response.blockReason.value + ").")
    ensures response.text.None? && response.blockReason.Some? ==>
      r == Failure("Content generation blocked (" + response.blockReason.value + ").")
    ensures response.text.None? && response.blockReason.None? ==>
      r == Failure(UNEXPECTED_STRUCTURE_ERROR)
  {
    match response.text
    case Some(text) =>
      var generated := Strip(text);
      if generated == "" then
        match response.blockReason
        case Some(reason) => Failure("Content generation blocked due to safety filters (" + reason + ").")
        case None => Failure(EMPTY_RESPONSE_ERROR)
      else Suggestion(Some(generated), None)
    case None =>
      match response.blockReason
      case Some(reason) => Failure("Content generation blocked (" + reason + ").")
      case None => Failure(UNEXPECTED_STRUCTURE_ERROR)
  }

  /** `c.lower()` for ASCII letters. */
  function LowerChar(c: char): char {
    if 'A' <= c <= 'Z' then (c as int + 32) as char else c
  }

  /** `s.lower()`, letter by letter. */
  function Lower(s: string): (r: string)
    ensures |r| == |s|
    ensures forall i | 0 <= i < |s| :: r[i] == LowerChar(s[i])
  {
    seq(|s|, i requires 0 <= i < |s| => LowerChar(s[i]))
  }

  /** Lower-casing twice is lower-casing once. */
  lemma LowerIdempotent(s: string)
    ensures Lower(Lower(s)) == Lower(s)
  {
  }

  /** `sub in s` */
  predicate Contains(s: string, sub: string)
    decreases |s|
  {
    |sub| <= |s| && (s[..|sub|] == sub || Contains(s[1..], sub))
  }

  /** `sub` occurs in `s` starting at position `i`. */
  predicate OccursAt(s: string, sub: string, i: int) {
    0 <= i <= |s| - |sub| && s[i..i + |sub|] == sub
  }

  /** `sub in s` holds exactly when `sub` occurs at some position of `s`. */
  lemma {:induction false} ContainsAt(s: string, sub: string)
    ensures Contains(s, sub) <==> exists i :: OccursAt(s, sub, i)
    decreases |s|
  {
    if |sub| <= |s| {
      if s[..|sub|] == sub {
        assert OccursAt(s, sub, 0);
      } else {
        ContainsAt(s[1..], sub);
        if exists i :: OccursAt(s, sub, i) {
          var i :| OccursAt(s, sub, i);
          assert i != 0;
          assert s[1..][i - 1..i - 1 + |sub|] == s[i..i + |sub|];
          assert OccursAt(s[1..], sub, i - 1);
        }
        if exists i :: OccursAt(s[1..], sub, i) {
          var i :| OccursAt(s[1..], sub, i);
          assert s[1..][i..i + |sub|] == s[i + 1..i + 1 + |sub|];
          assert OccursAt(s, sub, i + 1);
        }
      }
    }
  }

  /** The kinds of failure the exception handler tells apart. */
  datatype ApiFailure = InvalidKey | QuotaExceeded | ModelUnavailable | OtherFailure

  /** The exception handler's tests, in their order, on the lower-cased
      message. */
  function Classify(message: string): (r: ApiFailure)
    ensures r == InvalidKey <==> Contains(Lower(message), "api key not valid")
    ensures r == QuotaExceeded <==>
      !Contains(Lower(message), "api key not valid") && Contains(Lower(message), "quota")
    ensures r == ModelUnavailable <==>
      && !Contains(Lower(message), "api key not valid") && !Contains(Lower(message), "quota")
      && Contains(Lower(message), "model")
      && (Contains(Lower(message), "not found") || Contains(Lower(message), "permission"))
    ensures r == OtherFailure <==>
      && !Contains(Lower(message), "api key not valid") && !Contains(Lower(message), "quota")
      && !(Contains(Lower(message), "model")
           && (Contains(Lower(message), "not found") || Contains(Lower(message), "permission")))
  {
    var m := Lower(message);
    if Contains(m, "api key not valid") then InvalidKey
    else if Contains(m, "quota") then QuotaExceeded
    else if Contains(m, "model") && (Contains(m, "not found") || Contains(m, "permission")) then ModelUnavailable
    else OtherFailure
  }

  /** The message for an exception; only the generic one quotes it. */
  function FailureMessage(message: string): (r: string)
    // the tests in their order, on the lower-cased message
    ensures var m := Lower(message);
      && (Contains(m, "api key not valid") ==> r == INVALID_KEY_ERROR)
      && (!Contains(m, "api key not valid") && Contains(m, "quota") ==> r == QUOTA_ERROR)
      && (!Contains(m, "api key not valid") && !Contains(m, "quota")
          && Contains(m, "model") && (Contains(m, "not found") || Contains(m, "permission"))
          ==> r == "API Error: Model '" + MODEL_NAME + "' not found or permission denied. Check model name and API key access.")
      && (!Contains(m, "api key not valid") && !Contains(m, "quota")
          && !(Contains(m, "model") && (Contains(m, "not found") || Contains(m, "permission")))
          ==> r == "API Error: " + message)
  {
    match Classify(message)
    case InvalidKey => INVALID_KEY_ERROR
    case QuotaExceeded => QUOTA_ERROR
    case ModelUnavailable =>
      "API Error: Model '" + MODEL_NAME + "' not found or permission denied. Check model name and API key access."
    case OtherFailure => "API Error: " + message
  }

  /** The classification ignores letter case: messages that differ only in
      case fall into the same kind, and so does the lower-cased message. */
  lemma ClassifyIgnoresCase(m1: string, m2: string)
    requires Lower(m1) == Lower(m2)
    ensures Classify(m1) == Classify(m2)
    ensures Classify(Lower(m1)) == Classify(m1)
  {
    LowerIdempotent(m1);
  }

  /** The order of the tests: an invalid key wins over everything, a quota
      problem over a model problem. */
  lemma ClassifyPrecedence(message: string)
    ensures Contains(Lower(message), "api key not valid") ==> Classify(message) == InvalidKey
    ensures Classify(message) == ModelUnavailable ==> !Contains(Lower(message), "quota")
    ensures Classify(message) == OtherFailure ==> !Contains(Lower(message), "quota")
  {
  }

  /** `generate_expert_system_prompt(full_context)`. `apiKey` is the imported
      `GEMINI_API_KEY` (`None` when the import failed). */
  function GenerateExpertSystemPrompt(apiKey: Option<string>, fullContext: string,
                                      configureError: Option<string>,
                                      call: string -> CallOutcome): (r: Suggestion)
    // exactly one of the two is present
    ensures r.prompt.Some? != r.error.Some?
    // the key is checked first, then the context
    ensures apiKey.None? || apiKey.value == "" ==> r == Failure(CONFIG_ERROR)
    ensures apiKey.Some? && apiKey.value != "" && Strip(fullContext) == "" ==> r == Failure(INPUT_ERROR)
    // a suggestion is the stripped, non-empty text the model answered to the prompt around the snippet
    ensures r.prompt.Some? ==>
      && r.prompt.value != ""
      && Strip(r.prompt.value) == r.prompt.value
      && call(MetaPrompt(Snippet(fullContext))).Responded?
      && call(MetaPrompt(Snippet(fullContext))).response.text.Some?
      && r.prompt.value == Strip(call(MetaPrompt(Snippet(fullContext))).response.text.value)
    // past the two checks: a failed configuration, then the model's answer or exception
    ensures apiKey.Some? && apiKey.value != "" && Strip(fullContext) != "" && configureError.Some? ==>
      r == Failure("API Config Error: " + configureError.value)
    ensures apiKey.Some? && apiKey.value != "" && Strip(fullContext) != "" && configureError.None? ==>
      match call(MetaPrompt(Snippet(fullContext)))
      case Responded(response) => r == InterpretResponse(response)
      case Raised(message) => r == Failure(FailureMessage(message))
  {
    if apiKey.None? || apiKey.value == "" then Failure(CONFIG_ERROR)
    else if fullContext == "" || Strip(fullContext) == "" then Failure(INPUT_ERROR)
    else if configureError.Some? then Failure("API Config Error: " + configureError.value)
    else
      match call(MetaPrompt(Snippet(fullContext)))
      case Responded(response) =>
        var r := InterpretResponse(response);
        if r.prompt.Some? then
          StripIdempotent(response.text.value);
          r
        else r
      case Raised(message) => Failure(FailureMessage(message))
  }
}
