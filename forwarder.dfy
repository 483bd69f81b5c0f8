/**
 * The prompt forwarder (server/utils/promptForwarder.js): per-tool prompt
 * templates, the Markdown sanitiser applied to provider replies, the mock
 * fallback, and the decision logic of `processPrompt`. The HTTP call to the
 * provider is not performed here: its outcome is an input value, and the
 * request that would be sent is part of the result.
 */
module Forwarder {
  import opened Seqs
  import opened Text
  import Catalog

  // ---------------------------------------------------------------------
  // Templates
  // ---------------------------------------------------------------------

  /** What every template puts after the user's text: a newline and two spaces. */
  const Trailer: string := "\n  "

  /** The fixed text each template puts before the user's text, by tool id. */
  const TemplateHeaders: map<string, string> := map[
    "explain-code" := ExplainCodeHeader,
    "fix-bug" := FixBugHeader,
    "generate-regex" := GenerateRegexHeader,
    "refactor-code" := RefactorCodeHeader,
    "generate-docs" := GenerateDocsHeader,
    "code-review" := CodeReviewHeader,
    "generate-unit-tests" := GenerateUnitTestsHeader,
    "optimize-performance" := OptimizePerformanceHeader,
    "convert-language" := ConvertLanguageHeader,
    "design-patterns" := DesignPatternsHeader,
    "security-audit" := SecurityAuditHeader,
    "database-query" := DatabaseQueryHeader
  ]

  const ExplainCodeHeader: string :=
    "\n"
    + "You are an expert software engineer and technical writer. Provide a comprehensive, step-by-step explanation of the following code snippet in plain text only. Do not use Markdown, headings, or code blocks. Cover:\n"
    + "\n"
    + "1. Overall Purpose: What problem does it solve?\n"
    + "2. Key Components: Describe each function, variable, and control flow.\n"
    + "3. Behavior: How data moves through the code.\n"
    + "4. Edge Cases & Improvements: Potential pitfalls and suggestions for optimization.\n"
    + "\n"
    + "Code:\n"

  const FixBugHeader: string :=
    "\n"
    + "You are a seasoned developer and code review expert. Analyze the following JavaScript code in plain text only (no Markdown, no code blocks). Identify any bugs, logical errors, or poor practices, and provide:\n"
    + "\n"
    + "1. List of Issues: Numbered list explaining each defect or anti-pattern.\n"
    + "2. Corrected Code: A clean, refactored version with comments.\n"
    + "3. Rationale: Brief explanation of why each change improves the code.\n"
    + "\n"
    + "Original Code:\n"

  const GenerateRegexHeader: string :=
    "\n"
    + "You are a regex architect and educator. Craft a regular expression to satisfy the following requirements in plain text only (no Markdown, no code blocks). Include:\n"
    + "\n"
    + "1. Pattern Description: Human-readable summary of what it matches.\n"
    + "2. Regex Pattern: The final expression.\n"
    + "3. Component Breakdown: Explain each part of the pattern.\n"
    + "4. Test Examples: At least three examples that match and three that do not.\n"
    + "\n"
    + "Requirement:\n"

  const RefactorCodeHeader: string :=
    "\n"
    + "You are a senior software engineer specializing in code quality and maintainability. Refactor the following code to improve its structure, readability, and efficiency. Provide your response in plain text only (no Markdown, no code blocks). Include:\n"
    + "\n"
    + "1. Issues Identified: List key problems with the original code.\n"
    + "2. Refactored Code: The improved version in plain text.\n"
    + "3. Improvements Made: Explanation of changes and their benefits.\n"
    + "\n"
    + "Original Code:\n"

  const GenerateDocsHeader: string :=
    "\n"
    + "You are a technical documentation specialist. Create comprehensive documentation for the following code in plain text only (no Markdown, no code blocks). Include:\n"
    + "\n"
    + "1. Function/Class Overview: Brief description of purpose and functionality.\n"
    + "2. Parameters: List and describe each input parameter.\n"
    + "3. Return Value: Description of what the function returns.\n"
    + "4. Usage Examples: At least two practical examples.\n"
    + "5. Exceptions: Any errors that might be thrown.\n"
    + "\n"
    + "Code to Document:\n"

  const CodeReviewHeader: string :=
    "\n"
    + "You are a principal engineer conducting a code review. Analyze the following code for best practices, potential issues, and improvement opportunities. Provide your feedback in plain text only (no Markdown, no code blocks). Structure your response as:\n"
    + "\n"
    + "1. Summary: Overall assessment of code quality.\n"
    + "2. Strengths: Positive aspects of the implementation.\n"
    + "3. Issues: Specific problems or concerns with line references.\n"
    + "4. Recommendations: Actionable suggestions for improvement.\n"
    + "5. Best Practices: Relevant coding standards or patterns.\n"
    + "\n"
    + "Code for Review:\n"

  const GenerateUnitTestsHeader: string :=
    "\n"
    + "You are a QA engineer specializing in unit testing. Create comprehensive unit tests for the following function in plain text only (no Markdown, no code blocks). Include:\n"
    + "\n"
    + "1. Test Strategy: Approach for testing this function.\n"
    + "2. Test Cases: At least 5 test cases covering normal, edge, and error conditions.\n"
    + "3. Expected Outcomes: What each test should produce.\n"
    + "4. Test Implementation: Plain text representation of test code.\n"
    + "\n"
    + "Function to Test:\n"

  const OptimizePerformanceHeader: string :=
    "\n"
    + "You are a performance optimization expert. Analyze the following code for efficiency issues and provide optimizations. Respond in plain text only (no Markdown, no code blocks). Include:\n"
    + "\n"
    + "1. Performance Issues: Identified bottlenecks or inefficiencies.\n"
    + "2. Optimized Code: Improved version with explanations.\n"
    + "3. Complexity Analysis: Time/space complexity before and after.\n"
    + "4. Benchmark Suggestions: How to measure improvements.\n"
    + "\n"
    + "Code to Optimize:\n"

  const ConvertLanguageHeader: string :=
    "\n"
    + "You are a polyglot programming expert. Convert the following code from one programming language to another as requested. Provide your response in plain text only (no Markdown, no code blocks). Include:\n"
    + "\n"
    + "1. Source Analysis: Key patterns in the original language.\n"
    + "2. Target Implementation: Converted code in the new language.\n"
    + "3. Language Differences: Notable syntactic or semantic changes.\n"
    + "4. Considerations: Potential issues or adaptations needed.\n"
    + "\n"
    + "Conversion Request:\n"

  const DesignPatternsHeader: string :=
    "\n"
    + "You are a software architect specializing in design patterns. Implement the requested design pattern in the specified programming language. Provide your response in plain text only (no Markdown, no code blocks). Include:\n"
    + "\n"
    + "1. Pattern Overview: Explanation of the design pattern's purpose.\n"
    + "2. Implementation: Code example following the pattern.\n"
    + "3. Use Cases: When and why to use this pattern.\n"
    + "4. Benefits: Advantages of this approach.\n"
    + "\n"
    + "Request:\n"

  const SecurityAuditHeader: string :=
    "\n"
    + "You are a cybersecurity expert specializing in application security. Conduct a security audit of the following code. Provide your findings in plain text only (no Markdown, no code blocks). Structure as:\n"
    + "\n"
    + "1. Security Risks: Identified vulnerabilities with severity ratings.\n"
    + "2. Exploitation Scenarios: How each vulnerability could be exploited.\n"
    + "3. Remediation: Specific fixes for each issue.\n"
    + "4. Best Practices: Security principles to follow.\n"
    + "\n"
    + "Code to Audit:\n"

  const DatabaseQueryHeader: string :=
    "\n"
    + "You are a database expert and SQL optimizer. Create or optimize the database query as requested. Provide your response in plain text only (no Markdown, no code blocks). Include:\n"
    + "\n"
    + "1. Query Purpose: What data is being retrieved or manipulated.\n"
    + "2. SQL Query: The final query in plain text.\n"
    + "3. Explanation: How the query works and its components.\n"
    + "4. Optimization Notes: Performance considerations or improvements.\n"
    + "5. Usage Examples: How to execute or integrate the query.\n"
    + "\n"
    + "Request:\n"

  /** `toolPrompts[toolId]?.(prompt)`: the instruction text, or None for an id without a template. */
  function Render(toolId: string, prompt: string): (r: Option<string>)
    ensures r.Some? <==> toolId in TemplateHeaders
    ensures r.Some? ==>
              var h := TemplateHeaders[toolId];
              && |r.value| == |h| + |prompt| + |Trailer|
              && r.value[..|h|] == h
              && r.value[|h|..|h| + |prompt|] == prompt
              && r.value[|h| + |prompt|..] == Trailer
  {
    if toolId in TemplateHeaders then
      var h := TemplateHeaders[toolId];
      var r := h + prompt + Trailer;
      assert r[..|h|] == h;
      assert r[|h|..|h| + |prompt|] == prompt;
      Some(r)
    else None
  }

  /** The rendered text ends with the prompt verbatim followed by whitespace only. */
  lemma RenderEndsWithPrompt(toolId: string, prompt: string)
    requires toolId in TemplateHeaders
    ensures var r := Render(toolId, prompt).value;
            var n := |r| - |Trailer|;
            && n >= |prompt|
            && r[n - |prompt|..n] == prompt
            && forall k :: n <= k < |r| ==> IsJsWhitespace(r[k])
  {
    var r := Render(toolId, prompt).value;
    var h := TemplateHeaders[toolId];
    assert r[|h| + |prompt|..] == Trailer;
    assert forall k :: 0 <= k < |Trailer| ==> IsJsWhitespace(Trailer[k]);
  }

  /** The template table is keyed by exactly the catalog's tool ids. */
  lemma TemplatesCoverCatalog()
    ensures forall id :: id in TemplateHeaders <==> id in Catalog.IdColumn(Catalog.Tools)
  {
    Catalog.CatalogIds();
  }

  // ---------------------------------------------------------------------
  // stripMarkdown
  // ---------------------------------------------------------------------

  predicate IsMarkdownChar(c: char) {
    c == '`' || c == '*' || c == '_' || c == '#'
  }

  predicate HasNoMarkdownChars(s: string) {
    forall i :: 0 <= i < |s| ==> !IsMarkdownChar(s[i])
  }

  predicate HasNoNewlinePairs(s: string) {
    forall i :: 0 <= i < |s| - 1 ==> !(s[i] == '\n' && s[i + 1] == '\n')
  }

  /** What the sanitiser guarantees. */
  predicate IsPlainText(s: string) {
    HasNoMarkdownChars(s) && HasNoNewlinePairs(s) && IsTrimmed(s)
  }

  predicate IsNotMarkdownChar(c: char) {
    !IsMarkdownChar(c)
  }

  predicate IsNotNewline(c: char) {
    c != '\n'
  }

  /** A character that no step of the sanitiser may remove: neither a Markdown mark nor whitespace. */
  predicate IsContent(c: char) {
    !IsMarkdownChar(c) && !IsJsWhitespace(c)
  }

  /** `text.replace(/[`*_#]/g, '')`. */
  function RemoveMarkdownChars(s: string): (r: string)
    ensures HasNoMarkdownChars(r)
    ensures forall c :: multiset(r)[c] == if IsMarkdownChar(c) then 0 else multiset(s)[c]
    ensures forall c :: c in r <==> c in s && !IsMarkdownChar(c)
    ensures IsSubsequence(r, s)
    ensures HasNoMarkdownChars(s) ==> r == s
  {
    FilterMembers(s, IsNotMarkdownChar);
    FilterIsSubsequence(s, IsNotMarkdownChar);
    Filter(s, IsNotMarkdownChar)
  }

  /** `text.replace(/\n{2,}/g, '\n')`: every run of newlines becomes one newline. */
  function CollapseNewlines(s: string): (r: string)
    ensures HasNoNewlinePairs(r)
    ensures |s| > 0 ==> |r| > 0 && r[0] == s[0]
    ensures forall c :: c in r ==> c in s
    ensures HasNoNewlinePairs(s) ==> r == s
    decreases |s|
  {
    if |s| <= 1 then s
    else
      var rest := CollapseNewlines(s[1..]);
      assert forall c :: c in s[1..] ==> c in s;
      if s[0] == '\n' && s[1] == '\n' then rest
      else
        assert HasNoNewlinePairs(s) ==> HasNoNewlinePairs(s[1..]);
        [s[0]] + rest
  }

  /**
   * Deleting one newline of an adjacent pair does not change the result:
   * together with the fixed-point clause, a run of newlines of any length
   * becomes exactly one newline.
   */
  lemma {:induction false} CollapseDropsDoubledNewline(s: string, i: nat)
    requires i + 1 < |s| && s[i] == '\n' && s[i + 1] == '\n'
    ensures CollapseNewlines(s[..i] + s[i + 1..]) == CollapseNewlines(s)
    decreases i
  {
    var t := s[..i] + s[i + 1..];
    if i == 0 {
      assert t == s[1..];
    } else {
      var s' := s[1..];
      assert t[0] == s[0] && t[1] == s[1];
      assert t[1..] == s'[..i - 1] + s'[i..];
      CollapseDropsDoubledNewline(s', i - 1);
    }
  }

  /** Newline-collapsing removes newlines only: every other character stays, in order. */
  lemma {:induction false} CollapseKeepsOtherChars(s: string)
    ensures Filter(CollapseNewlines(s), IsNotNewline) == Filter(s, IsNotNewline)
    decreases |s|
  {
    if |s| > 1 {
      CollapseKeepsOtherChars(s[1..]);
      if !(s[0] == '\n' && s[1] == '\n') {
        var rest := CollapseNewlines(s[1..]);
        assert ([s[0]] + rest)[1..] == rest;
      }
    }
  }

  /** Free of Markdown characters and of newlines: a single line of plain text. */
  predicate HasNoMarksOrNewlines(s: string) {
    forall i :: 0 <= i < |s| ==> !IsMarkdownChar(s[i]) && s[i] != '\n'
  }

  lemma MarkFreeLinesConcat(a: string, b: string)
    requires HasNoMarksOrNewlines(a) && HasNoMarksOrNewlines(b)
    ensures HasNoMarksOrNewlines(a + b) && HasNoMarkdownChars(a + b) && HasNoNewlinePairs(a + b)
  {
    assert forall i :: |a| <= i < |a| + |b| ==> (a + b)[i] == b[i - |a|];
  }

  /** A slice of a string keeps its absence of Markdown characters and of newline pairs. */
  lemma SliceKeepsPlainness(s: string, i: int, j: int)
    requires 0 <= i <= j <= |s|
    ensures HasNoMarkdownChars(s) ==> HasNoMarkdownChars(s[i..j])
    ensures HasNoNewlinePairs(s) ==> HasNoNewlinePairs(s[i..j])
  {
    assert forall k :: 0 <= k < j - i ==> s[i..j][k] == s[i + k];
  }

  /** `stripMarkdown(text)`: the three steps in the order the source applies them. */
  function StripMarkdown(text: string): (r: string)
    ensures IsPlainText(r)
    ensures IsPlainText(text) ==> r == text
  {
    var noMarks := RemoveMarkdownChars(text);
    var collapsed := CollapseNewlines(noMarks);
    assert HasNoMarkdownChars(collapsed) by {
      assert forall k :: 0 <= k < |collapsed| ==> collapsed[k] in noMarks;
    }
    var r := Trim(collapsed);
    var i, j :| 0 <= i <= j <= |collapsed| && r == collapsed[i..j];
    SliceKeepsPlainness(collapsed, i, j);
    r
  }

  /** Trimming removes whitespace only. */
  lemma TrimKeepsContent(s: string)
    ensures Filter(Trim(s), IsContent) == Filter(s, IsContent)
  {
    var r := Trim(s);
    var i, j :| 0 <= i <= j <= |s| && r == s[i..j]
                && (forall k :: 0 <= k < i ==> IsJsWhitespace(s[k]))
                && (forall k :: j <= k < |s| ==> IsJsWhitespace(s[k]));
    FilterOfMiddle(s, i, j, IsContent);
  }

  /**
   * Sanitising keeps every content character in order: what it removes
   * are Markdown marks and whitespace only.
   */
  lemma StripMarkdownKeepsContent(text: string)
    ensures Filter(StripMarkdown(text), IsContent) == Filter(text, IsContent)
  {
    var noMarks := RemoveMarkdownChars(text);
    var collapsed := CollapseNewlines(noMarks);
    TrimKeepsContent(collapsed);
    CollapseKeepsOtherChars(noMarks);
    FilterOfFilter(collapsed, IsNotNewline, IsContent);
    FilterOfFilter(noMarks, IsNotNewline, IsContent);
    FilterOfFilter(text, IsNotMarkdownChar, IsContent);
  }

  /** Sanitising twice is the same as sanitising once. */
  lemma StripMarkdownIdempotent(text: string)
    ensures StripMarkdown(StripMarkdown(text)) == StripMarkdown(text)
  {
  }

  // ---------------------------------------------------------------------
  // processPrompt
  // ---------------------------------------------------------------------

  const MockResponse: string :=
    "Mock response: AI " + "service unavailable. " + "Please provide a valid " + "API key to get real results."

  /** Used when the provider's reply carries no text. */
  const NoContent: string := "No response content"

  const ModelName: string := "deepseek/deepseek-r1-0528:free"

  const SystemMessage: string := "You are an expert developer assistant."

  /** `getMockResponse(toolId, prompt)`: the same plain, non-empty text for every argument. */
  function GetMockResponse(toolId: string, prompt: string): (r: string)
    ensures IsPlainText(r) && |r| > 0
  {
    var a, b, c, d := "Mock response: AI ", "service unavailable. ", "Please provide a valid ",
                      "API key to get real results.";
    assert MockResponse == a + b + c + d;
    MarkFreeLinesConcat(a, b);
    MarkFreeLinesConcat(a + b, c);
    MarkFreeLinesConcat(a + b + c, d);
    MockResponse
  }

  /**
   * `data.choices?.[0]?.message?.content` after JSON parsing: absent or a
   * falsy non-string (undefined, null, false, 0), a string, or a truthy value
   * that is not a string (on which `stripMarkdown` throws).
   */
  datatype Completion = Missing | Text(text: string) | NonString

  /**
   * The reply body: `Unparsable` when `response.json()` rejects or the JSON
   * value is `null` (both make the handler fall back to the mock text), else
   * the JSON value's completion.
   */
  datatype ReplyBody = Unparsable | Json(completion: Completion)

  /** What the provider call produced: a transport error, or a response with its status and body. */
  datatype ProviderOutcome = TransportError | Response(status: int, body: ReplyBody)

  /** The chat completion request `processPrompt` sends. */
  datatype ChatRequest = ChatRequest(model: string, systemMessage: string, userMessage: string)

  datatype PromptResult = Answer(text: string) | UnknownToolId(toolId: string)

  /** The request sent to the provider (None: no call was made) and what `processPrompt` returns or throws. */
  datatype Processed = Processed(request: Option<ChatRequest>, result: PromptResult)

  /** `!OPENROUTER_API_KEY` is false: the variable is set and not empty. */
  function HasKey(apiKey: Option<string>): (b: bool)
    ensures !b <==> apiKey == None || apiKey == Some("")
  {
    apiKey.Some? && |apiKey.value| > 0
  }

  /** `response.ok`. */
  function IsOkStatus(status: int): (b: bool)
    ensures b <==> status / 100 == 2
  {
    200 <= status <= 299
  }

  /** The text `processPrompt` returns once the provider call has been attempted. */
  function ReplyText(outcome: ProviderOutcome): (r: string)
    ensures IsPlainText(r)
    ensures outcome.TransportError? ==> r == MockResponse
    ensures outcome.Response? && !IsOkStatus(outcome.status) ==> r == MockResponse
    ensures outcome.Response? && outcome.body.Unparsable? ==> r == MockResponse
    ensures outcome.Response? && outcome.body == Json(NonString) ==> r == MockResponse
    ensures outcome.Response? && IsOkStatus(outcome.status) && outcome.body == Json(Missing) ==>
              r == StripMarkdown(NoContent)
    ensures outcome.Response? && IsOkStatus(outcome.status) && outcome.body.Json?
            && outcome.body.completion.Text? ==>
              var s := outcome.body.completion.text;
              r == StripMarkdown(if s == "" then NoContent else s)
  {
    var mock := GetMockResponse("", "");
    match outcome
    case TransportError => mock
    case Response(status, body) =>
      if !IsOkStatus(status) then mock
      else
        match body
        case Unparsable => mock
        case Json(Missing) => StripMarkdown(NoContent)
        case Json(Text(s)) => StripMarkdown(if s == "" then NoContent else s)
        case Json(NonString) => mock
  }

  /**
   * `processPrompt(toolId, prompt)` with the environment's key and the
   * provider's outcome as inputs.
   */
  function ProcessPrompt(apiKey: Option<string>, toolId: string, prompt: string,
                         outcome: ProviderOutcome): (p: Processed)
    ensures !HasKey(apiKey) ==> p == Processed(None, Answer(MockResponse))
    ensures p.result.UnknownToolId? <==> HasKey(apiKey) && toolId !in TemplateHeaders
    ensures p.result.UnknownToolId? ==> p.request.None? && p.result.toolId == toolId
    ensures p.request.Some? <==> HasKey(apiKey) && toolId in TemplateHeaders
    ensures p.request.Some? ==>
              p.request.value == ChatRequest(ModelName, SystemMessage, Render(toolId, prompt).value)
              && p.result == Answer(ReplyText(outcome))
    ensures p.result.Answer? ==> IsPlainText(p.result.text)
  {
    if !HasKey(apiKey) then
      Processed(None, Answer(GetMockResponse(toolId, prompt)))
    else
      match Render(toolId, prompt)
      case None => Processed(None, UnknownToolId(toolId))
      case Some(content) =>
        Processed(Some(ChatRequest(ModelName, SystemMessage, content)), Answer(ReplyText(outcome)))
  }

  /** For every tool in the catalog, `processPrompt` answers and never throws. */
  lemma CatalogToolsAlwaysAnswer(apiKey: Option<string>, k: nat, prompt: string,
                                 outcome: ProviderOutcome)
    requires k < |Catalog.Tools|
    ensures ProcessPrompt(apiKey, Catalog.Tools[k].id, prompt, outcome).result.Answer?
  {
    TemplatesCoverCatalog();
    assert Catalog.IdColumn(Catalog.Tools)[k] == Catalog.Tools[k].id;
  }
}
