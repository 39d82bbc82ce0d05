/**
 * The two decisions of backend/src/index.ts that are not plumbing: the CORS
 * origin callback and the `/api/llm/status` report. The environment
 * variables they read are a configuration value passed in.
 */
module Server {
  import opened Wrappers
  import opened Text
  import opened LlmFields
  import opened LlmService

  /** The environment variables the server and the LLM service read; each is absent when unset. */
  datatype Config = Config(
    useMockLlm: Option<string>,
    openaiApiKey: Option<string>,
    geminiApiKey: Option<string>,
    geminiModel: Option<string>,
    frontendUrl: Option<string>)

  /** What callLLM reads of the configuration. */
  function ServiceEnv(c: Config): LlmEnv {
    LlmEnv(c.useMockLlm, c.openaiApiKey)
  }

  // ---------------------------------------------------------------------------
  // corsOptions.origin

  const HttpsScheme: string := "https://"
  const VercelSuffix: string := ".vercel.app"
  const LocalhostPrefix: string := "http://localhost:"
  const CorsError: string := "Not allowed by CORS"

  datatype CorsDecision = Allow | Deny(error: string)

  predicate StartsWith(s: string, x: string) {
    |x| <= |s| && s[..|x|] == x
  }

  /** No character of `s[lo..hi]` ends a line: what `.*` may cover. */
  predicate WithinLine(s: string, lo: nat, hi: nat)
    requires lo <= hi <= |s|
  {
    forall i :: lo <= i < hi ==> !IsLineTerminator(s[i])
  }

  /** `/^https:\/\/.*\.vercel\.app$/`: the scheme, one line of anything, the suffix, the end. */
  predicate VercelPreview(o: string) {
    |HttpsScheme| + |VercelSuffix| <= |o| && StartsWith(o, HttpsScheme) && EndsWith(o, VercelSuffix)
    && WithinLine(o, |HttpsScheme|, |o| - |VercelSuffix|)
  }

  /** `\d+` to the end, scanned from position `i`. */
  function DigitsFrom(s: string, i: nat): (r: bool)
    requires i <= |s|
    ensures r <==> forall k :: i <= k < |s| ==> IsDigit(s[k])
    decreases |s| - i
  {
    if i == |s| then true else IsDigit(s[i]) && DigitsFrom(s, i + 1)
  }

  /** `/^http:\/\/localhost:\d+$/`: the prefix and then one digit or more up to the end. */
  predicate LocalhostDev(o: string) {
    |LocalhostPrefix| < |o| && StartsWith(o, LocalhostPrefix) && DigitsFrom(o, |LocalhostPrefix|)
  }

  /** The last two rules: exact FRONTEND_URL when it is set, anything when it is not. */
  function FrontendRule(o: string, frontendUrl: Option<string>): CorsDecision {
    if Truthy(frontendUrl) then (if o == frontendUrl.value then Allow else Deny(CorsError))
    else Allow
  }

  /** The origin callback, rule by rule. */
  function CorsOrigin(origin: Option<string>, frontendUrl: Option<string>): (d: CorsDecision)
    ensures d.Deny? ==> d.error == CorsError
  {
    if !Truthy(origin) then Allow
    else if VercelPreview(origin.value) then Allow
    else if LocalhostDev(origin.value) then Allow
    else FrontendRule(origin.value, frontendUrl)
  }

  /** Requests without an origin header, or with an empty one, pass. */
  lemma NoOriginAllowed(frontendUrl: Option<string>)
    ensures CorsOrigin(None, frontendUrl) == Allow && CorsOrigin(Some([]), frontendUrl) == Allow
  {
  }

  /** `x + m + y` starts with `x` and ends with `y`, and `m` sits between them. */
  lemma Framed(x: string, m: string, y: string)
    ensures var o := x + m + y;
            StartsWith(o, x) && EndsWith(o, y) && |x| + |y| <= |o| && o[|x|..|o| - |y|] == m
  {
    var o := x + m + y;
    assert o[..|x|] == x;
    assert o[|o| - |y|..] == y;
    assert o[|x|..|o| - |y|] == m;
  }

  /** Every Vercel preview URL passes, whatever FRONTEND_URL says. */
  lemma {:induction false} VercelPreviewAllowed(m: string, frontendUrl: Option<string>)
    requires forall i :: 0 <= i < |m| ==> !IsLineTerminator(m[i])
    ensures VercelPreview(HttpsScheme + m + VercelSuffix)
    ensures CorsOrigin(Some(HttpsScheme + m + VercelSuffix), frontendUrl) == Allow
  {
    var o := HttpsScheme + m + VercelSuffix;
    Framed(HttpsScheme, m, VercelSuffix);
    forall i | |HttpsScheme| <= i < |o| - |VercelSuffix| ensures !IsLineTerminator(o[i]) {
      assert o[i] == o[|HttpsScheme|..|o| - |VercelSuffix|][i - |HttpsScheme|];
    }
  }

  /** The Vercel rule accepts nothing else: its origins are exactly the scheme, one line, the suffix. */
  lemma VercelPreviewShape(o: string)
    requires VercelPreview(o)
    ensures o == HttpsScheme + o[|HttpsScheme|..|o| - |VercelSuffix|] + VercelSuffix
  {
    var m := o[|HttpsScheme|..|o| - |VercelSuffix|];
    assert o == o[..|HttpsScheme|] + m + o[|o| - |VercelSuffix|..];
  }

  /** A local development server on any port passes. */
  lemma {:induction false} LocalhostPortAllowed(d: string, frontendUrl: Option<string>)
    requires |d| > 0 && forall i :: 0 <= i < |d| ==> IsDigit(d[i])
    ensures CorsOrigin(Some(LocalhostPrefix + d), frontendUrl) == Allow
  {
    var o := LocalhostPrefix + d;
    Framed(LocalhostPrefix, d, []);
    assert o == LocalhostPrefix + d + [];
    assert forall k :: |LocalhostPrefix| <= k < |o| ==> o[k] == d[k - |LocalhostPrefix|];
    assert LocalhostDev(o);
  }

  /**
   * "http://localhost:" with anything but digits after it is not let through
   * by the localhost rule; the FRONTEND_URL rule decides it.
   */
  lemma {:induction false} LocalhostNonDigitFallsThrough(d: string, frontendUrl: Option<string>, j: nat)
    requires j < |d| && !IsDigit(d[j])
    ensures !LocalhostDev(LocalhostPrefix + d)
    ensures CorsOrigin(Some(LocalhostPrefix + d), frontendUrl) == FrontendRule(LocalhostPrefix + d, frontendUrl)
  {
    var o := LocalhostPrefix + d;
    assert o[|LocalhostPrefix| + j] == d[j];
    assert o[..|HttpsScheme|][4] == ':' && HttpsScheme[4] == 's';
  }

  /** Without FRONTEND_URL every origin passes. */
  lemma UnsetFrontendAllowsAll(origin: Option<string>, frontendUrl: Option<string>)
    requires !Truthy(frontendUrl)
    ensures CorsOrigin(origin, frontendUrl) == Allow
  {
  }

  /**
   * With FRONTEND_URL set, an origin the first three rules do not let through
   * passes exactly when it equals FRONTEND_URL, and is refused otherwise.
   */
  lemma SetFrontendExact(o: string, url: string)
    requires o != [] && url != [] && !VercelPreview(o) && !LocalhostDev(o)
    ensures CorsOrigin(Some(o), Some(url)) == (if o == url then Allow else Deny(CorsError))
  {
  }

  // ---------------------------------------------------------------------------
  // GET /api/llm/status

  datatype LlmStatus = LlmStatus(
    llmProvider: string,
    hasApiKey: bool,
    apiKeyConfigured: bool,
    apiKeyPrefix: string,
    model: string,
    message: string)

  const MockMessage: string := "Using mock LLM service (set GEMINI_API_KEY to use Google Gemini)"
  const ReadyMessage: string := "Google Gemini API is configured and ready"
  const ServiceMockMessage: string := "Using mock LLM service (set OPENAI_API_KEY to use OpenAI)"
  const ServiceReadyMessage: string := "OpenAI API is configured and ready"

  /** `s.substring(0, n)` for a non-negative `n`. */
  function Substring(s: string, n: nat): (r: string)
    ensures |r| <= n && |r| <= |s| && r == s[..|r|]
    ensures |s| >= n ==> |r| == n
  {
    if |s| <= n then s else s[..n]
  }

  /** The handler's report, from the configuration as written: the Gemini key decides. */
  function Status(c: Config): (r: LlmStatus)
    ensures r.llmProvider == "mock" <==> c.useMockLlm == Some("true") || !Truthy(c.geminiApiKey)
    ensures r.llmProvider == "mock" || r.llmProvider == "gemini"
    ensures r.hasApiKey <==> Truthy(c.geminiApiKey)
    ensures r.apiKeyConfigured <==> r.hasApiKey && r.llmProvider == "gemini"
  {
    var useMock := c.useMockLlm == Some("true") || !Truthy(c.geminiApiKey);
    var hasApiKey := Truthy(c.geminiApiKey);
    var prefix := if c.geminiApiKey.Some? then OrElse(Some(Substring(c.geminiApiKey.value, 7)), "none") else "none";
    LlmStatus(
      if useMock then "mock" else "gemini",
      hasApiKey,
      hasApiKey && !useMock,
      if hasApiKey then prefix + "..." else "not set",
      OrElse(c.geminiModel, "gemini-pro"),
      if useMock then MockMessage else ReadyMessage)
  }

  /** A key always shows as at most its first seven characters and "..."; no key shows "not set". */
  lemma StatusHidesKey(c: Config)
    ensures var r := Status(c);
            (Truthy(c.geminiApiKey) ==>
               var k := c.geminiApiKey.value; var n := if |k| < 7 then |k| else 7;
               r.apiKeyPrefix == k[..n] + "..." && |r.apiKeyPrefix| <= 10)
            && (!Truthy(c.geminiApiKey) ==> r.apiKeyPrefix == "not set")
  {
  }

  /** The key is reported as configured exactly when the provider is Gemini. */
  lemma ConfiguredExactlyWhenGemini(c: Config)
    ensures Status(c).apiKeyConfigured <==> Status(c).llmProvider == "gemini"
    ensures Status(c).message == (if Status(c).llmProvider == "mock" then MockMessage else ReadyMessage)
  {
  }

  /**
   * The report reads GEMINI_API_KEY while callLLM reads OPENAI_API_KEY: with
   * only a Gemini key the status says Gemini is ready, yet every call is
   * answered by the mock engine.
   */
  lemma StatusDisagreesWithService(prompt: string, api: ApiOutcome)
    ensures var c := Config(None, None, Some("gemini-key"), None, None);
            Status(c).llmProvider == "gemini" && Status(c).apiKeyConfigured
            && CallLlm(ServiceEnv(c), prompt, api) == MockLlmResponse(prompt)
  {
  }

  /** And with only an OpenAI key the status says mock while calls go to the remote API. */
  lemma StatusDisagreesWithServiceLive(prompt: string)
    ensures var c := Config(None, Some("openai-key"), None, None, None);
            Status(c).llmProvider == "mock"
            && CallLlm(ServiceEnv(c), prompt, ApiContent(Some("remote answer"))) == "remote answer"
  {
  }

  /** The report as it is evidently meant: derived from the same settings callLLM reads. */
  function ServiceStatus(c: Config): (r: LlmStatus)
    ensures r.llmProvider == "mock" <==> UseMockLlm(ServiceEnv(c))
    ensures r.hasApiKey <==> Truthy(c.openaiApiKey)
    ensures r.apiKeyConfigured <==> r.hasApiKey && r.llmProvider != "mock"
  {
    var env := ServiceEnv(c);
    var useMock := UseMockLlm(env);
    var hasApiKey := Truthy(c.openaiApiKey);
    LlmStatus(
      if useMock then "mock" else "openai",
      hasApiKey,
      hasApiKey && !useMock,
      if hasApiKey then Substring(c.openaiApiKey.value, 7) + "..." else "not set",
      "gpt-3.5-turbo",
      if useMock then ServiceMockMessage else ServiceReadyMessage)
  }

  /**
   * The corrected report says "mock" exactly when no outcome of the remote
   * API can change what callLLM answers.
   */
  lemma ServiceStatusTellsTruth(c: Config, prompt: string)
    ensures ServiceStatus(c).llmProvider == "mock" <==>
              forall api :: CallLlm(ServiceEnv(c), prompt, api) == MockLlmResponse(prompt)
  {
    var env := ServiceEnv(c);
    if !UseMockLlm(env) {
      var other := MockLlmResponse(prompt) + "!";
      LiveClientOutcomes(env, prompt);
      assert CallLlm(env, prompt, ApiContent(Some(other))) == other;
      assert |other| != |MockLlmResponse(prompt)|;
    }
  }
}
