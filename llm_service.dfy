/**
 * callLLM and the mock engine's dispatcher, mockLLMResponse, from
 * backend/src/services/llmService.ts. The environment variables read at
 * module load and the reply of the remote API are parameters.
 */
module LlmService {
  import opened Wrappers
  import opened Text
  import opened LlmFields
  import opened LlmRules
  import opened LlmCompose

  // ---------------------------------------------------------------------------
  // The five tools of the engine and the generic answer

  datatype Tool = CategoryTool | ActionsTool | ReplyTool | SummaryTool | PriorityTool | GenericTool

  const GenericResponse: string := "I understand your request. Here is a helpful response based on the email content."

  /** What each tool returns for the parsed email. */
  function Run(t: Tool, e: ParsedEmail): (r: string)
    ensures |r| > 0
  {
    match t
    case CategoryTool => DetermineCategory(e)
    case ActionsTool => ActionsTextNonEmpty(e); ActionsText(e)
    case ReplyTool => ReplyFor(e)
    case SummaryTool => SummarizeEmail(e)
    case PriorityTool => DeterminePriority(e)
    case GenericTool => GenericResponse
  }

  lemma ActionsTextNonEmpty(e: ParsedEmail)
    ensures |ActionsText(e)| > 0
  {
    ActionsTextShape(e);
  }

  /** The cases of the `switch (forcedAction)`; any other name selects nothing. */
  function ToolNamed(a: string): (r: Option<Tool>)
    ensures r.Some? <==> a in {"category", "actions", "reply", "summary", "priority"}
    ensures r.Some? ==> r.value != GenericTool
  {
    if a == "category" then Some(CategoryTool)
    else if a == "actions" then Some(ActionsTool)
    else if a == "reply" then Some(ReplyTool)
    else if a == "summary" then Some(SummaryTool)
    else if a == "priority" then Some(PriorityTool)
    else None
  }

  /** The name the action routes write in their `[ACTION:...]` tag. */
  function TagName(t: Tool): string {
    match t
    case CategoryTool => "CATEGORY"
    case ActionsTool => "ACTIONS"
    case ReplyTool => "REPLY"
    case SummaryTool => "SUMMARY"
    case PriorityTool => "PRIORITY"
    case GenericTool => ""
  }

  /** Every tag name a route writes, lower-cased, is the switch case of that tool. */
  lemma {:induction false} TagNameSelectsTool(t: Tool)
    requires t != GenericTool
    ensures Trim(TagName(t)) == TagName(t)
    ensures ToolNamed(Lower(TagName(t))) == Some(t)
  {
    var n := TagName(t);
    TrimKeep(n);
    var l := match t
      case CategoryTool => "category"
      case ActionsTool => "actions"
      case ReplyTool => "reply"
      case SummaryTool => "summary"
      case PriorityTool => "priority";
    assert |Lower(n)| == |l|;
    forall k | 0 <= k < |n| ensures Lower(n)[k] == l[k] {
      assert 'A' <= n[k] <= 'Z';
    }
    assert Lower(n) == l;
  }

  // ---------------------------------------------------------------------------
  // Keyword routing

  predicate WantsReply(intent: string) {
    Contains(intent, "reply") || Contains(intent, "draft") || Contains(intent, "respond")
  }

  predicate WantsCategory(intent: string) {
    Contains(intent, "categorize") || Contains(intent, "category")
  }

  predicate WantsActions(intent: string) {
    Contains(intent, "action") || Contains(intent, "task")
  }

  predicate WantsSummary(intent: string) {
    Contains(intent, "summary") || Contains(intent, "summarize")
  }

  predicate WantsPriority(intent: string) {
    Contains(intent, "priority")
  }

  /** The keyword rules, in order; the first that holds picks the tool. */
  function KeywordTool(intent: string): Tool {
    if WantsReply(intent) then ReplyTool
    else if WantsCategory(intent) then CategoryTool
    else if WantsActions(intent) then ActionsTool
    else if WantsSummary(intent) then SummaryTool
    else if WantsPriority(intent) then PriorityTool
    else GenericTool
  }

  /** Each tool is chosen exactly when its keywords occur and no earlier rule's keywords do. */
  lemma KeywordToolOrder(intent: string)
    ensures KeywordTool(intent) == ReplyTool <==> WantsReply(intent)
    ensures KeywordTool(intent) == CategoryTool <==> !WantsReply(intent) && WantsCategory(intent)
    ensures KeywordTool(intent) == ActionsTool <==> !WantsReply(intent) && !WantsCategory(intent) && WantsActions(intent)
    ensures KeywordTool(intent) == SummaryTool <==>
              !WantsReply(intent) && !WantsCategory(intent) && !WantsActions(intent) && WantsSummary(intent)
    ensures KeywordTool(intent) == PriorityTool <==>
              !WantsReply(intent) && !WantsCategory(intent) && !WantsActions(intent) && !WantsSummary(intent)
              && WantsPriority(intent)
    ensures KeywordTool(intent) == GenericTool <==>
              !WantsReply(intent) && !WantsCategory(intent) && !WantsActions(intent) && !WantsSummary(intent)
              && !WantsPriority(intent)
  {
  }

  /** `userQuestion || lowerPrompt`: the lower-cased question when there is one, else the whole prompt. */
  function IntentText(prompt: string): string {
    var q := Lower(ExtractUserQuestion(prompt));
    if q != [] then q else Lower(prompt)
  }

  /** With a non-empty question, only the question decides the keyword route. */
  lemma QuestionDecidesIntent(p1: string, p2: string)
    requires ExtractUserQuestion(p1) == ExtractUserQuestion(p2) != []
    ensures IntentText(p1) == IntentText(p2) == Lower(ExtractUserQuestion(p1))
  {
    assert |Lower(ExtractUserQuestion(p1))| > 0;
  }

  /** Without a question the whole lower-cased prompt decides it. */
  lemma NoQuestionWholePrompt(p: string)
    requires ExtractUserQuestion(p) == []
    ensures IntentText(p) == Lower(p)
  {
  }

  // ---------------------------------------------------------------------------
  // mockLLMResponse

  /** The tool the engine uses: the forced action when it names a tool, else the keyword rules. */
  function SelectTool(prompt: string): Tool {
    match ForcedAction(prompt)
    case Some(a) =>
      if ToolNamed(a).Some? then ToolNamed(a).value else KeywordTool(IntentText(prompt))
    case None => KeywordTool(IntentText(prompt))
  }

  /** mockLLMResponse: the selected tool applied to the fields parsed from the prompt. */
  function MockLlmResponse(prompt: string): (r: string)
    ensures |r| > 0
  {
    Run(SelectTool(prompt), ExtractEmailFields(prompt))
  }

  /** A tag naming a tool wins whatever the rest of the prompt says. */
  lemma ForcedToolWins(prompt: string, a: string)
    requires ForcedAction(prompt) == Some(a) && ToolNamed(a).Some?
    ensures MockLlmResponse(prompt) == Run(ToolNamed(a).value, ExtractEmailFields(prompt))
  {
  }

  /** Without a tag, or with one that names no tool, the keyword rules decide. */
  lemma UnknownTagFallsThrough(prompt: string)
    requires ForcedAction(prompt).None? || ToolNamed(ForcedAction(prompt).value).None?
    ensures MockLlmResponse(prompt) == Run(KeywordTool(IntentText(prompt)), ExtractEmailFields(prompt))
  {
  }

  /** The generic sentence comes back only when no tag names a tool and no keyword occurs. */
  lemma GenericOnlyWithoutKeywords(prompt: string)
    ensures SelectTool(prompt) == GenericTool <==>
              (ForcedAction(prompt).None? || ToolNamed(ForcedAction(prompt).value).None?)
              && KeywordTool(IntentText(prompt)) == GenericTool
  {
  }

  /** Two prompts with the same tag and the same parsed fields get the same answer, whatever else they say. */
  lemma ForcedAnswerIgnoresOtherText(p1: string, p2: string)
    requires ForcedAction(p1) == ForcedAction(p2) && ForcedAction(p1).Some? && ToolNamed(ForcedAction(p1).value).Some?
    requires ExtractEmailFields(p1) == ExtractEmailFields(p2)
    ensures MockLlmResponse(p1) == MockLlmResponse(p2)
  {
  }

  /**
   * A tag naming a tool, appended after a blank line to text that holds no
   * tag, is the forced action, so the engine answers with that tool.
   */
  lemma {:induction false} AppendedTagSelects(a: string, t: Tool)
    requires !ContainsCi(a, ActionLabel) && t != GenericTool
    ensures var p := a + "\n\n" + (ActionLabel + TagName(t) + "]");
            ForcedAction(p) == Some(Lower(TagName(t)))
            && MockLlmResponse(p) == Run(t, ExtractEmailFields(p))
  {
    var w := TagName(t);
    TagJoin(a, w);
    TagNameSelectsTool(t);
    TagNamePlain(t);
    ForcedActionOfAppendedTag(a, w, []);
  }

  lemma TagJoin(a: string, w: string)
    ensures a + "\n\n" + (ActionLabel + w + "]") == a + "\n\n" + ActionLabel + (w + "]" + [])
  {
  }

  /** The tag names are non-empty and hold no closing bracket and no line break. */
  lemma TagNamePlain(t: Tool)
    requires t != GenericTool
    ensures |TagName(t)| > 0
    ensures forall i :: 0 <= i < |TagName(t)| ==> TagName(t)[i] != ']' && !IsLineTerminator(TagName(t)[i])
  {
  }

  // ---------------------------------------------------------------------------
  // callLLM

  /** `process.env.USE_MOCK_LLM` and `process.env.OPENAI_API_KEY`, absent when unset. */
  datatype LlmEnv = LlmEnv(useMockLlm: Option<string>, openaiApiKey: Option<string>)

  /** What the remote completion call did: it threw, or it answered with optional content. */
  datatype ApiOutcome = ApiError | ApiContent(content: Option<string>)

  const NoResponseGenerated: string := "No response generated"

  /** JavaScript truthiness of an optional string. */
  predicate Truthy(o: Option<string>) {
    o.Some? && o.value != []
  }

  /** `USE_MOCK_LLM === 'true' || !OPENAI_API_KEY` */
  predicate UseMockLlm(env: LlmEnv) {
    env.useMockLlm == Some("true") || !Truthy(env.openaiApiKey)
  }

  /** The client is built when mock mode is off and a key is set. */
  predicate ClientCreated(env: LlmEnv) {
    !UseMockLlm(env) && Truthy(env.openaiApiKey)
  }

  /** A client exists exactly when mock mode is off, so `useMockLLM || !openai` is just mock mode. */
  lemma ClientExactlyWithoutMock(env: LlmEnv)
    ensures ClientCreated(env) <==> !UseMockLlm(env)
  {
  }

  /** callLLM: the mock in mock mode or on an API error; otherwise the content, or a fixed notice when it is empty. */
  function CallLlm(env: LlmEnv, prompt: string, outcome: ApiOutcome): (r: string)
    ensures |r| > 0
  {
    if UseMockLlm(env) || !ClientCreated(env) then MockLlmResponse(prompt)
    else match outcome
      case ApiError => MockLlmResponse(prompt)
      case ApiContent(c) => OrElse(c, NoResponseGenerated)
  }

  /** In mock mode the API is never consulted. */
  lemma MockModeIgnoresApi(env: LlmEnv, prompt: string, o1: ApiOutcome, o2: ApiOutcome)
    requires UseMockLlm(env)
    ensures CallLlm(env, prompt, o1) == CallLlm(env, prompt, o2) == MockLlmResponse(prompt)
  {
  }

  /** With a live client, empty content gives the notice and not the mock; only a thrown error falls back. */
  lemma LiveClientOutcomes(env: LlmEnv, prompt: string)
    requires !UseMockLlm(env)
    ensures CallLlm(env, prompt, ApiContent(Some([]))) == NoResponseGenerated
    ensures CallLlm(env, prompt, ApiContent(None)) == NoResponseGenerated
    ensures CallLlm(env, prompt, ApiError) == MockLlmResponse(prompt)
    ensures forall c :: c != [] ==> CallLlm(env, prompt, ApiContent(Some(c))) == c
  {
    ClientExactlyWithoutMock(env);
  }
}
