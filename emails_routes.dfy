/**
 * The five action routes of backend/src/routes/emails.ts: each looks up the
 * email and the prompt template of its type, fills the template's
 * placeholders, appends an `[ACTION:...]` tag, asks the LLM, and returns the
 * trimmed answer; categorize and priority also store it on the email.
 */
module EmailRoutes {
  import opened Wrappers
  import opened Text
  import opened Store
  import opened LlmFields
  import opened LlmRules
  import opened LlmService
  import opened DefaultPrompts
  import LlmCompose

  // ---------------------------------------------------------------------------
  // Placeholder substitution

  /** The four `replace` calls, each applied to the result of the one before; each replaces the first occurrence only. */
  function Substitute(template: string, e: Email): string {
    var s1 := ReplaceFirst(template, SubjectSlot, e.subject);
    var s2 := ReplaceFirst(s1, FromNameSlot, e.fromName);
    var s3 := ReplaceFirst(s2, FromEmailSlot, e.fromEmail);
    ReplaceFirst(s3, BodySlot, e.body)
  }

  /** A template without any placeholder is sent as it is. */
  lemma SubstituteWithoutSlots(template: string, e: Email)
    requires !Contains(template, SubjectSlot) && !Contains(template, FromNameSlot)
    requires !Contains(template, FromEmailSlot) && !Contains(template, BodySlot)
    ensures Substitute(template, e) == template
  {
  }

  /** The email block with the email's fields in place of the placeholders. */
  function FilledBlock(e: Email): string {
    SubjectLabel + " " + e.subject + "\nFrom: " + e.fromName + " <" + e.fromEmail + ">\nBody: " + e.body
  }

  /** Replacing a placeholder that follows brace-free text replaces that occurrence. */
  lemma ReplaceAfterBraceFree(a: string, p: string, b: string, rep: string)
    requires |p| > 0 && p[0] == '{' && '{' !in a
    ensures ReplaceFirst(a + p + b, p, rep) == a + rep + b
  {
    FindAfterHead(a, p, b);
    ReplaceFirstAt(a, p, b, rep);
  }

  /** One replacement step that leaves the text after the placeholder as it was. */
  lemma ReplaceStep(a: string, p: string, r: string, v: string)
    requires |p| > 0 && p[0] == '{' && '{' !in a
    ensures ReplaceFirst(a + (p + r), p, v) == a + v + r
  {
    assert a + (p + r) == a + p + r;
    ReplaceAfterBraceFree(a, p, r, v);
  }

  /**
   * Four placeholders between brace-free separators, replaced in order by
   * brace-free values (the last value may hold anything).
   */
  lemma ReplaceFour(pre: string, l: string, p1: string, m1: string, p2: string, m2: string, p3: string,
                    m3: string, p4: string, post: string, v1: string, v2: string, v3: string, v4: string)
    requires |p1| > 0 && p1[0] == '{' && |p2| > 0 && p2[0] == '{'
    requires |p3| > 0 && p3[0] == '{' && |p4| > 0 && p4[0] == '{'
    requires '{' !in pre + l && '{' !in m1 && '{' !in m2 && '{' !in m3
    requires '{' !in v1 && '{' !in v2 && '{' !in v3
    ensures var t := pre + (l + p1 + m1 + p2 + m2 + p3 + m3 + p4) + post;
            ReplaceFirst(ReplaceFirst(ReplaceFirst(ReplaceFirst(t, p1, v1), p2, v2), p3, v3), p4, v4)
            == pre + (l + v1 + m1 + v2 + m2 + v3 + m3 + v4) + post
  {
    var r3 := m3 + (p4 + post);
    var r2 := m2 + (p3 + r3);
    var r1 := m1 + (p2 + r2);
    Regroup(pre, l, p1, m1, p2, m2, p3, m3, p4, post);
    ReplaceStep(pre + l, p1, r1, v1);
    var a1 := pre + l + v1 + m1;
    Shift(pre + l + v1, m1, p2 + r2);
    ReplaceStep(a1, p2, r2, v2);
    var a2 := a1 + v2 + m2;
    Shift(a1 + v2, m2, p3 + r3);
    ReplaceStep(a2, p3, r3, v3);
    var a3 := a2 + v3 + m3;
    Shift(a2 + v3, m3, p4 + post);
    ReplaceStep(a3, p4, post, v4);
    Ungroup(pre, l, v1, m1, v2, m2, v3, m3, v4, post);
  }

  lemma Shift(a: string, b: string, c: string)
    ensures a + (b + c) == a + b + c
  {
  }

  lemma Regroup(pre: string, l: string, p1: string, m1: string, p2: string, m2: string, p3: string,
                m3: string, p4: string, post: string)
    ensures pre + (l + p1 + m1 + p2 + m2 + p3 + m3 + p4) + post
            == (pre + l) + (p1 + (m1 + (p2 + (m2 + (p3 + (m3 + (p4 + post)))))))
  {
  }

  lemma Ungroup(pre: string, l: string, v1: string, m1: string, v2: string, m2: string, v3: string,
                m3: string, v4: string, post: string)
    ensures pre + l + v1 + m1 + v2 + m2 + v3 + m3 + v4 + post
            == pre + (l + v1 + m1 + v2 + m2 + v3 + m3 + v4) + post
  {
  }

  /**
   * Markup-free prose, the block, anything: when the subject, the sender's
   * name and address hold no "{", each placeholder of the block is replaced
   * by its field (the body may hold anything: it is replaced last).
   */
  lemma SubstituteFramed(pre: UnmarkedText, post: string, e: Email)
    requires '{' !in e.subject && '{' !in e.fromName && '{' !in e.fromEmail
    ensures Substitute(pre + EmailBlock + post, e) == pre + FilledBlock(e) + post
  {
    assert '{' !in pre + (SubjectLabel + " ");
    ReplaceFour(pre, SubjectLabel + " ", SubjectSlot, "\nFrom: ", FromNameSlot, " <", FromEmailSlot, ">\nBody: ",
      BodySlot, post, e.subject, e.fromName, e.fromEmail, e.body);
  }

  /**
   * A placeholder after brace-free text, another placeholder `q` that differs
   * from it at position `j`, and more brace-free text: the first occurrence
   * is the one after `q`.
   */
  lemma ReplaceSkip(a: string, q: string, b: string, p: string, c: string, v: string, j: nat)
    requires |p| > 0 && p[0] == '{' && '{' !in a && '{' !in b
    requires j < |p| && j < |q| && q[j] != p[j] && forall k :: 1 <= k < |q| ==> q[k] != '{'
    ensures ReplaceFirst(a + q + b + (p + c), p, v) == a + q + b + v + c
  {
    var s := a + q + b + (p + c);
    var n := |a| + |q| + |b|;
    assert s == (a + q + b) + p + c;
    ContainsInfix(a + q + b, p, c);
    forall k: nat | k < n ensures !OccursAt(s, p, k) {
      if k + |p| <= |s| {
        var w := s[k..k + |p|];
        if k < |a| {
          assert w[0] == a[k] && a[k] in a;
        } else if k == |a| {
          assert w[j] == q[j];
        } else if k < |a| + |q| {
          assert w[0] == q[k - |a|];
        } else {
          assert w[0] == b[k - |a| - |q|] && b[k - |a| - |q|] in b;
        }
      }
    }
    assert Find(s, p) == Some(n);
    ReplaceFirstAt(a + q + b, p, c, v);
  }

  /**
   * The reply template's shape: a placeholder `q` in the prose, then the block
   * holding `q` again. The first replacement of `q` hits the prose, so the
   * block keeps its own `q`.
   */
  lemma ReplaceFourPastGreeting(h: string, q: string, r1: string, r2: string, l: string, p1: string, m1: string,
                                m2: string, p3: string, m3: string, p4: string, post: string,
                                v1: string, v2: string, v3: string, v4: string)
    requires |q| > 6 && q[0] == '{' && forall k :: 1 <= k < |q| ==> q[k] != '{'
    requires |p1| > 1 && p1[0] == '{' && p1[1] != q[1]
    requires |p3| > 6 && p3[0] == '{' && p3[6] != q[6]
    requires |p4| > 1 && p4[0] == '{' && p4[1] != q[1]
    requires '{' !in h && '{' !in r1 + r2 + l && '{' !in m1 && '{' !in m2 && '{' !in m3
    requires '{' !in v1 && '{' !in v2 && '{' !in v3
    ensures var t := h + q + r1 + r2 + (l + p1 + m1 + q + m2 + p3 + m3 + p4) + post;
            ReplaceFirst(ReplaceFirst(ReplaceFirst(ReplaceFirst(t, p1, v1), q, v2), p3, v3), p4, v4)
            == h + v2 + r1 + r2 + (l + v1 + m1 + q + m2 + v3 + m3 + v4) + post
  {
    var r := r1 + r2 + l;
    var c1 := m1 + q + m2 + p3 + m3 + p4 + post;
    GroupAroundFirst(h, q, r1, r2, l, p1, m1, m2, p3, m3, p4, post);
    FirstTwoPastGreeting(h, q, r, p1, c1, v1, v2);
    var a := h + v2 + r + v1 + m1;
    GroupAroundThird(h, v2, r, v1, m1, q, m2, p3, m3, p4, post);
    BraceFreeJoin(h, v2, r, v1, m1);
    LastTwoPastBlockName(a, q, m2, p3, m3, p4, post, v3, v4);
    GroupResult(h, v2, r1, r2, l, v1, m1, q, m2, v3, m3, v4, post);
  }

  lemma FirstTwoPastGreeting(h: string, q: string, r: string, p1: string, c1: string, v1: string, v2: string)
    requires |q| > 1 && q[0] == '{' && forall k :: 1 <= k < |q| ==> q[k] != '{'
    requires |p1| > 1 && p1[0] == '{' && p1[1] != q[1]
    requires '{' !in h && '{' !in r
    ensures ReplaceFirst(ReplaceFirst(h + q + r + (p1 + c1), p1, v1), q, v2) == h + v2 + r + v1 + c1
  {
    ReplaceSkip(h, q, r, p1, c1, v1, 1);
    RightGroup(h, q, r, v1, c1);
    ReplaceAfterBraceFree(h, q, r + v1 + c1, v2);
    RightGroup(h, v2, r, v1, c1);
  }

  lemma RightGroup(a: string, b: string, c: string, d: string, e: string)
    ensures a + b + c + d + e == a + b + (c + d + e)
  {
  }

  lemma LastTwoPastBlockName(a: string, q: string, m2: string, p3: string, m3: string, p4: string, post: string,
                             v3: string, v4: string)
    requires |q| > 6 && q[0] == '{' && forall k :: 1 <= k < |q| ==> q[k] != '{'
    requires |p3| > 6 && p3[0] == '{' && p3[6] != q[6]
    requires |p4| > 1 && p4[0] == '{' && p4[1] != q[1]
    requires '{' !in a && '{' !in m2 && '{' !in m3 && '{' !in v3
    ensures ReplaceFirst(ReplaceFirst(a + q + m2 + (p3 + (m3 + p4 + post)), p3, v3), p4, v4)
            == a + q + m2 + v3 + m3 + v4 + post
  {
    ReplaceSkip(a, q, m2, p3, m3 + p4 + post, v3, 6);
    GroupAroundFourth(a, q, m2, v3, m3, p4, post);
    BraceFreeJoin(m2, v3, m3, [], []);
    assert m2 + v3 + m3 + [] + [] == m2 + v3 + m3;
    ReplaceSkip(a, q, m2 + v3 + m3, p4, post, v4, 1);
    GroupAfterFourth(a, q, m2, v3, m3, v4, post);
  }

  lemma GroupAroundFourth(a: string, q: string, m2: string, v3: string, m3: string, p4: string, post: string)
    ensures a + q + m2 + v3 + (m3 + p4 + post) == a + q + (m2 + v3 + m3) + (p4 + post)
  {
  }

  lemma GroupAfterFourth(a: string, q: string, m2: string, v3: string, m3: string, v4: string, post: string)
    ensures a + q + (m2 + v3 + m3) + v4 + post == a + q + m2 + v3 + m3 + v4 + post
  {
  }

  lemma BraceFreeJoin(a: string, b: string, c: string, d: string, e: string)
    requires '{' !in a && '{' !in b && '{' !in c && '{' !in d && '{' !in e
    ensures '{' !in a + b + c + d + e
  {
  }

  lemma GroupAroundFirst(h: string, q: string, r1: string, r2: string, l: string, p1: string, m1: string,
                         m2: string, p3: string, m3: string, p4: string, post: string)
    ensures h + q + r1 + r2 + (l + p1 + m1 + q + m2 + p3 + m3 + p4) + post
            == h + q + (r1 + r2 + l) + (p1 + (m1 + q + m2 + p3 + m3 + p4 + post))
  {
  }

  lemma GroupAroundThird(h: string, v2: string, r: string, v1: string, m1: string, q: string, m2: string,
                         p3: string, m3: string, p4: string, post: string)
    ensures h + v2 + r + v1 + (m1 + q + m2 + p3 + m3 + p4 + post)
            == (h + v2 + r + v1 + m1) + q + m2 + (p3 + (m3 + p4 + post))
  {
  }

  lemma GroupResult(h: string, v2: string, r1: string, r2: string, l: string, v1: string, m1: string,
                    q: string, m2: string, v3: string, m3: string, v4: string, post: string)
    ensures (h + v2 + (r1 + r2 + l) + v1 + m1) + q + m2 + v3 + m3 + v4 + post
            == h + v2 + r1 + r2 + (l + v1 + m1 + q + m2 + v3 + m3 + v4) + post
  {
  }

  /** The placeholders differ from "{from_name}" early on, and hold no second brace. */
  lemma SlotFacts()
    ensures |FromNameSlot| > 6 && FromNameSlot[0] == '{' && forall k :: 1 <= k < |FromNameSlot| ==> FromNameSlot[k] != '{'
    ensures |SubjectSlot| > 1 && SubjectSlot[0] == '{' && SubjectSlot[1] != FromNameSlot[1]
    ensures |FromEmailSlot| > 6 && FromEmailSlot[0] == '{' && FromEmailSlot[6] != FromNameSlot[6]
    ensures |BodySlot| > 1 && BodySlot[0] == '{' && BodySlot[1] != FromNameSlot[1]
  {
  }

  // ---------------------------------------------------------------------------
  // What the default templates become

  /** The reply template's block after substitution: its "{from_name}" is left in place. */
  function ReplyBlockAsSent(e: Email): string {
    SubjectLabel + " " + e.subject + "\nFrom: " + FromNameSlot + " <" + e.fromEmail + ">\nBody: " + e.body
  }

  /** Each placeholder of the four framed templates is replaced by the email's field, in the block. */
  lemma SubstituteFramedDefaults(e: Email)
    requires '{' !in e.subject && '{' !in e.fromName && '{' !in e.fromEmail
    ensures Substitute(CategorizationTemplate, e) == CategorizationPre + FilledBlock(e) + CategorizationTail
    ensures Substitute(ActionTemplate, e) == ActionPre + FilledBlock(e) + ActionTail
    ensures Substitute(SummaryTemplate, e) == SummaryPre + FilledBlock(e) + SummaryTail
    ensures Substitute(PriorityTemplate, e) == PriorityPre + FilledBlock(e) + PriorityTail
  {
    SubstituteFramed(CategorizationPre, CategorizationTail, e);
    SubstituteFramed(ActionPre, ActionTail, e);
    SubstituteFramed(SummaryPre, SummaryTail, e);
    SubstituteFramed(PriorityPre, PriorityTail, e);
  }

  /**
   * In the reply template the sender's name goes into the greeting example,
   * and the block still reads "From: {from_name} <address>".
   */
  lemma SubstituteReplyTemplate(e: Email)
    requires '{' !in e.subject && '{' !in e.fromName && '{' !in e.fromEmail
    ensures Substitute(ReplyTemplate, e) == ReplyHead + e.fromName + ReplyRules + EmailHeader + ReplyBlockAsSent(e) + ReplyTail
  {
    SlotFacts();
    assert '{' !in ReplyRules + EmailHeader + (SubjectLabel + " ");
    ReplaceFourPastGreeting(ReplyHead, FromNameSlot, ReplyRules, EmailHeader, SubjectLabel + " ", SubjectSlot,
      "\nFrom: ", " <", FromEmailSlot, ">\nBody: ", BodySlot, ReplyTail, e.subject, e.fromName, e.fromEmail, e.body);
  }

  // ---------------------------------------------------------------------------
  // The five routes

  datatype Route = Categorize | ExtractActions | DraftReply | Summarize | AssessPriority

  /** The `type` each route looks up in `prompt_templates`. */
  function RouteKind(r: Route): string {
    match r
    case Categorize => "categorization"
    case ExtractActions => "action_extraction"
    case DraftReply => "reply_draft"
    case Summarize => "summary"
    case AssessPriority => "priority"
  }

  /** The tool each route's tag names. */
  function RouteTool(r: Route): Tool {
    match r
    case Categorize => CategoryTool
    case ExtractActions => ActionsTool
    case DraftReply => ReplyTool
    case Summarize => SummaryTool
    case AssessPriority => PriorityTool
  }

  /** The JSON key of each route's answer. */
  function ResponseKey(r: Route): string {
    match r
    case Categorize => "category"
    case ExtractActions => "actions"
    case DraftReply => "replyBody"
    case Summarize => "summary"
    case AssessPriority => "priority"
  }

  const EmailNotFound: string := "Email not found"

  function MissingTemplateError(r: Route): string {
    match r
    case Categorize => "Categorization prompt template not found"
    case ExtractActions => "Action extraction prompt template not found"
    case DraftReply => "Reply draft prompt template not found"
    case Summarize => "Summary prompt template not found"
    case AssessPriority => "Priority prompt template not found"
  }

  /** "[ACTION:CATEGORY]" and its siblings. */
  function Tag(r: Route): string {
    ActionLabel + TagName(RouteTool(r)) + "]"
  }

  const GuidanceOpen: UnmarkedText := GuidanceOpen1 + GuidanceOpen2 + GuidanceOpen3
  const GuidanceOpen1: UnmarkedText := "\nFormatting requirements:\n"
  const GuidanceOpen2: UnmarkedText := "- Begin with a friendly "
  const GuidanceOpen3: UnmarkedText := "greeting that mentions "
  const GuidanceMid: UnmarkedText := " (e.g., \"Hi "
  const GuidanceClose: UnmarkedText := GuidanceCloseHead + GuidanceClose11
  const GuidanceCloseHead: UnmarkedText := GuidanceClose1 + GuidanceClose2 + GuidanceClose3 + GuidanceClose4
    + GuidanceClose5 + GuidanceClose6 + GuidanceClose7 + GuidanceClose8 + GuidanceClose9 + GuidanceClose10
  const GuidanceClose1: UnmarkedText := ",\")\n- Provide 1-2 concise "
  const GuidanceClose2: UnmarkedText := "paragraphs that acknowledge "
  const GuidanceClose3: UnmarkedText := "the message, answer "
  const GuidanceClose4: UnmarkedText := "questions, and outline next "
  const GuidanceClose5: UnmarkedText := "steps\n- Close with a "
  const GuidanceClose6: UnmarkedText := "professional sign-off such "
  const GuidanceClose7: UnmarkedText := "as \"Best regards,\" followed "
  const GuidanceClose8: UnmarkedText := "by a placeholder for the "
  const GuidanceClose9: UnmarkedText := "user's name\n- Keep the tone "
  const GuidanceClose10: UnmarkedText := "helpful, appreciative, and "
  const GuidanceClose11: UnmarkedText := "confident"

  /** `replyFormattingGuidance`: names `from_name`, or "the sender" and "there" when it is empty. */
  function ReplyGuidance(fromName: string): string {
    GuidanceOpen + OrElse(Some(fromName), "the sender") + GuidanceMid + OrElse(Some(fromName), "there")
    + GuidanceClose + "\n"
  }

  /** The prompt a route sends for a template and an email. */
  function RoutePrompt(r: Route, template: string, e: Email): string {
    var s := Substitute(template, e);
    if r == DraftReply then s + "\n" + ReplyGuidance(e.fromName) + "\n" + Tag(r)
    else s + "\n\n" + Tag(r)
  }

  /** What a route answers. */
  datatype Response = Ok(key: string, value: string) | NotFound(error: string)

  /** The answer of a route for the tables before it runs, the LLM configuration and what the remote API would do. */
  function Outcome(emails: map<int, Email>, prompts: seq<PromptTemplate>, r: Route, id: int, env: LlmEnv,
                   api: ApiOutcome): Response
  {
    if id !in emails then NotFound(EmailNotFound)
    else match TemplateOfType(prompts, RouteKind(r))
      case None => NotFound(MissingTemplateError(r))
      case Some(t) => Ok(ResponseKey(r), Trim(CallLlm(env, RoutePrompt(r, t.template, emails[id]), api)))
  }

  /** The routes that write their answer back to the email. */
  predicate Stores(r: Route) {
    r == Categorize || r == AssessPriority
  }

  /** The email after `UPDATE emails SET category = ?` (or `priority = ?`) with the answer. */
  function Recorded(e: Email, r: Route, v: string): Email {
    if r == Categorize then e.(category := Some(v))
    else if r == AssessPriority then e.(priority := Some(v))
    else e
  }

  /** The emails table after a route has run. */
  function EmailsAfter(emails: map<int, Email>, prompts: seq<PromptTemplate>, r: Route, id: int, env: LlmEnv,
                       api: ApiOutcome): map<int, Email>
  {
    match Outcome(emails, prompts, r, id, env, api)
    case Ok(_, v) => emails[id := Recorded(emails[id], r, v)]
    case NotFound(_) => emails
  }

  /**
   * POST /api/emails/:id/{categorize,actions,reply,summarize,priority}: the
   * handler, with `let prompt` rewritten step by step as in the source.
   */
  method PostAction(db: Database, r: Route, id: int, env: LlmEnv, api: ApiOutcome) returns (res: Response)
    requires db.Valid()
    modifies db
    ensures db.Valid()
    ensures res == Outcome(old(db.emails), old(db.prompts), r, id, env, api)
    ensures db.emails == EmailsAfter(old(db.emails), old(db.prompts), r, id, env, api)
    ensures db.prompts == old(db.prompts) && db.chatMessages == old(db.chatMessages)
    ensures db.nextChatId == old(db.nextChatId)
  {
    if id !in db.emails {
      return NotFound(EmailNotFound);
    }
    var promptTemplate := TemplateOfType(db.prompts, RouteKind(r));
    if promptTemplate.None? {
      return NotFound(MissingTemplateError(r));
    }
    res := AnswerAndRecord(db, r, id, promptTemplate.value, env, api);
  }

  /** The handler once the email and the template are found: ask the LLM, store the category or priority. */
  method AnswerAndRecord(db: Database, r: Route, id: int, t: PromptTemplate, env: LlmEnv, api: ApiOutcome)
    returns (res: Response)
    requires db.Valid()
    requires id in db.emails && TemplateOfType(db.prompts, RouteKind(r)) == Some(t)
    modifies db
    ensures db.Valid()
    ensures res == Outcome(old(db.emails), old(db.prompts), r, id, env, api)
    ensures db.emails == EmailsAfter(old(db.emails), old(db.prompts), r, id, env, api)
    ensures db.prompts == old(db.prompts) && db.chatMessages == old(db.chatMessages)
    ensures db.nextChatId == old(db.nextChatId)
  {
    ghost var emails0, prompts0, rows0, next0 := db.emails, db.prompts, db.chatMessages, db.nextChatId;
    var email := db.emails[id];
    var value := AskLlm(r, t.template, email, env, api);
    res := Ok(ResponseKey(r), value);
    var emails := db.emails;
    if r == Categorize {
      UpdateKeepsTables(emails0, prompts0, rows0, next0, id, email.(category := Some(value)));
      emails := emails[id := email.(category := Some(value))];
    } else if r == AssessPriority {
      UpdateKeepsTables(emails0, prompts0, rows0, next0, id, email.(priority := Some(value)));
      emails := emails[id := email.(priority := Some(value))];
    }
    RecordedOutcome(emails0, prompts0, r, id, env, api, t, value, emails);
    db.emails := emails;
  }

  /** Build the route's prompt, call the LLM and trim its answer. */
  method AskLlm(r: Route, template: string, email: Email, env: LlmEnv, api: ApiOutcome) returns (value: string)
    ensures value == Trim(CallLlm(env, RoutePrompt(r, template, email), api))
  {
    var prompt := BuildPrompt(r, template, email);
    var answer := CallLlm(env, prompt, api);
    value := Trim(answer);
  }

  /** The table a successful handler writes is the one its outcome describes. */
  lemma RecordedOutcome(emails: map<int, Email>, prompts: seq<PromptTemplate>, r: Route, id: int, env: LlmEnv,
                        api: ApiOutcome, t: PromptTemplate, value: string, written: map<int, Email>)
    requires id in emails && TemplateOfType(prompts, RouteKind(r)) == Some(t)
    requires value == Trim(CallLlm(env, RoutePrompt(r, t.template, emails[id]), api))
    requires written == (if r == Categorize then emails[id := emails[id].(category := Some(value))]
                         else if r == AssessPriority then emails[id := emails[id].(priority := Some(value))]
                         else emails)
    ensures Outcome(emails, prompts, r, id, env, api) == Ok(ResponseKey(r), value)
    ensures written == EmailsAfter(emails, prompts, r, id, env, api)
  {
    if !Stores(r) {
      UpdateSame(emails, id);
    }
  }

  /** The `let prompt` of a handler: the four replacements, then the tag (after the guidance, for a reply). */
  method BuildPrompt(r: Route, template: string, email: Email) returns (prompt: string)
    ensures prompt == RoutePrompt(r, template, email)
  {
    prompt := template;
    prompt := ReplaceFirst(prompt, SubjectSlot, email.subject);
    prompt := ReplaceFirst(prompt, FromNameSlot, email.fromName);
    prompt := ReplaceFirst(prompt, FromEmailSlot, email.fromEmail);
    prompt := ReplaceFirst(prompt, BodySlot, email.body);
    if r == DraftReply {
      var guidance := ReplyGuidance(email.fromName);
      prompt := prompt + "\n" + guidance + "\n" + Tag(r);
    } else {
      prompt := prompt + "\n\n" + Tag(r);
    }
  }

  /** Writing back an entry's own value leaves a map as it was. */
  lemma UpdateSame(m: map<int, Email>, k: int)
    requires k in m
    ensures m[k := m[k]] == m
  {
  }

  // ---------------------------------------------------------------------------
  // Properties of the routes

  /** A missing email is reported before the template table or the LLM is consulted. */
  lemma MissingEmailFirst(emails: map<int, Email>, p1: seq<PromptTemplate>, p2: seq<PromptTemplate>, r: Route,
                          id: int, env1: LlmEnv, env2: LlmEnv, a1: ApiOutcome, a2: ApiOutcome)
    requires id !in emails
    ensures Outcome(emails, p1, r, id, env1, a1) == Outcome(emails, p2, r, id, env2, a2) == NotFound(EmailNotFound)
    ensures EmailsAfter(emails, p1, r, id, env1, a1) == emails
  {
  }

  /** A missing template is reported exactly when no row has the route's type, and then the LLM is not consulted. */
  lemma MissingTemplateNoCall(emails: map<int, Email>, prompts: seq<PromptTemplate>, r: Route, id: int,
                              env1: LlmEnv, env2: LlmEnv, a1: ApiOutcome, a2: ApiOutcome)
    requires id in emails
    ensures Outcome(emails, prompts, r, id, env1, a1).NotFound? <==>
              forall i :: 0 <= i < |prompts| ==> prompts[i].kind != RouteKind(r)
    ensures Outcome(emails, prompts, r, id, env1, a1).NotFound? ==>
              Outcome(emails, prompts, r, id, env1, a1) == Outcome(emails, prompts, r, id, env2, a2)
              == NotFound(MissingTemplateError(r))
  {
  }

  /**
   * On success the answer is the trimmed LLM reply to the route's prompt;
   * categorize and priority store exactly that answer on the email, the other
   * routes store nothing, and no other email changes.
   */
  lemma StoredIsReturned(emails: map<int, Email>, prompts: seq<PromptTemplate>, r: Route, id: int, env: LlmEnv,
                         api: ApiOutcome)
    requires Outcome(emails, prompts, r, id, env, api).Ok?
    ensures var o := Outcome(emails, prompts, r, id, env, api);
            var after := EmailsAfter(emails, prompts, r, id, env, api);
            var t := TemplateOfType(prompts, RouteKind(r));
            id in emails && t.Some? && o.key == ResponseKey(r)
            && o.value == Trim(CallLlm(env, RoutePrompt(r, t.value.template, emails[id]), api))
            && after.Keys == emails.Keys
            && (forall j :: j in emails && j != id ==> after[j] == emails[j])
            && (r == Categorize ==> after[id] == emails[id].(category := Some(o.value)))
            && (r == AssessPriority ==> after[id] == emails[id].(priority := Some(o.value)))
            && (!Stores(r) ==> after == emails)
  {
    var t := TemplateOfType(prompts, RouteKind(r)).value;
    var v := Trim(CallLlm(env, RoutePrompt(r, t.template, emails[id]), api));
    assert Outcome(emails, prompts, r, id, env, api) == Ok(ResponseKey(r), v);
    assert EmailsAfter(emails, prompts, r, id, env, api) == emails[id := Recorded(emails[id], r, v)];
    RecordedShape(emails, r, id, v);
  }

  /** Recording an answer touches one email, and only on the two storing routes. */
  lemma RecordedShape(emails: map<int, Email>, r: Route, id: int, v: string)
    requires id in emails
    ensures var after := emails[id := Recorded(emails[id], r, v)];
            after.Keys == emails.Keys
            && (forall j :: j in emails && j != id ==> after[j] == emails[j])
            && (r == Categorize ==> after[id] == emails[id].(category := Some(v)))
            && (r == AssessPriority ==> after[id] == emails[id].(priority := Some(v)))
            && (!Stores(r) ==> after == emails)
  {
    if !Stores(r) {
      UpdateSame(emails, id);
    }
  }

  /** Text without "[" holds no tag. */
  lemma NoBracketNoTag(s: string)
    requires '[' !in s
    ensures !ContainsCi(s, ActionLabel)
  {
    assert ActionLabel[0] == '[';
    NoCiMissingChar(s, ActionLabel, 0);
  }

  /** The guidance holds no "[" unless the sender's name does. */
  lemma GuidanceUnbracketed(n: string)
    requires '[' !in n
    ensures '[' !in GuidanceOpen + OrElse(Some(n), "the sender") + GuidanceMid + OrElse(Some(n), "there") + GuidanceClose
  {
  }

  /** The guidance names the sender, or "the sender" and "there" when the name is empty. */
  lemma GuidanceNames(n: string)
    ensures n != [] ==> ReplyGuidance(n) == GuidanceOpen + n + GuidanceMid + n + GuidanceClose + "\n"
    ensures n == [] ==> ReplyGuidance(n) == GuidanceOpen + "the sender" + GuidanceMid + "there" + GuidanceClose + "\n"
  {
  }

  /** Every prompt starts with the substituted template and ends with its route's tag on a line of its own. */
  lemma PromptEndsWithTag(r: Route, t: string, e: Email)
    ensures var p := RoutePrompt(r, t, e);
            var s := Substitute(t, e);
            |s| <= |p| && p[..|s|] == s
    ensures r == Categorize ==> EndsWith(RoutePrompt(r, t, e), "\n\n[ACTION:CATEGORY]")
    ensures r == ExtractActions ==> EndsWith(RoutePrompt(r, t, e), "\n\n[ACTION:ACTIONS]")
    ensures r == Summarize ==> EndsWith(RoutePrompt(r, t, e), "\n\n[ACTION:SUMMARY]")
    ensures r == AssessPriority ==> EndsWith(RoutePrompt(r, t, e), "\n\n[ACTION:PRIORITY]")
    ensures r == DraftReply ==> EndsWith(RoutePrompt(r, t, e), "confident\n\n[ACTION:REPLY]")
  {
    var s := Substitute(t, e);
    if r == DraftReply {
      ReplyEnding(s, e.fromName);
    } else {
      PlainEnding(r, s);
    }
  }

  /** A route other than the reply appends a blank line and its tag. */
  lemma PlainEnding(r: Route, s: string)
    requires r != DraftReply
    ensures var p := s + "\n\n" + Tag(r);
            |s| <= |p| && p[..|s|] == s && EndsWith(p, "\n\n" + Tag(r))
    ensures r == Categorize ==> "\n\n" + Tag(r) == "\n\n[ACTION:CATEGORY]"
    ensures r == ExtractActions ==> "\n\n" + Tag(r) == "\n\n[ACTION:ACTIONS]"
    ensures r == Summarize ==> "\n\n" + Tag(r) == "\n\n[ACTION:SUMMARY]"
    ensures r == AssessPriority ==> "\n\n" + Tag(r) == "\n\n[ACTION:PRIORITY]"
  {
    TailAfterJoin(s, [], [], Tag(r), "\n\n" + Tag(r));
    TagLiteral(r);
  }

  lemma TagLiteral(r: Route)
    ensures r == Categorize ==> "\n\n" + Tag(r) == "\n\n[ACTION:CATEGORY]"
    ensures r == ExtractActions ==> "\n\n" + Tag(r) == "\n\n[ACTION:ACTIONS]"
    ensures r == Summarize ==> "\n\n" + Tag(r) == "\n\n[ACTION:SUMMARY]"
    ensures r == AssessPriority ==> "\n\n" + Tag(r) == "\n\n[ACTION:PRIORITY]"
    ensures r == DraftReply ==> Tag(r) == "[ACTION:REPLY]"
  {
    assert ActionLabel == "[ACTION:";
    match r
    case Categorize => TagSpelled("CATEGORY");
    case ExtractActions => TagSpelled("ACTIONS");
    case Summarize => TagSpelled("SUMMARY");
    case AssessPriority => TagSpelled("PRIORITY");
    case DraftReply => TagSpelled("REPLY");
  }

  lemma TagSpelled(w: string)
    ensures "\n\n" + ("[ACTION:" + w + "]") == "\n\n[ACTION:" + w + "]"
  {
  }

  /** The reply prompt ends with the guidance's last word, a blank line and the reply tag. */
  lemma ReplyEnding(s: string, n: string)
    ensures var p := s + "\n" + ReplyGuidance(n) + "\n" + Tag(DraftReply);
            |s| <= |p| && p[..|s|] == s && EndsWith(p, "confident\n\n[ACTION:REPLY]")
  {
    var a := GuidanceOpen + OrElse(Some(n), "the sender") + GuidanceMid + OrElse(Some(n), "there");
    SplitLast(a, GuidanceCloseHead, GuidanceClose11);
    var g := a + GuidanceCloseHead;
    ReplyTailEqual();
    TailAfterJoin(s, g, GuidanceClose11, Tag(DraftReply), "confident\n\n[ACTION:REPLY]");
  }

  lemma SplitLast(a: string, h: string, l: string)
    ensures a + (h + l) + "\n" == (a + h) + l + "\n"
  {
  }

  lemma ReplyTailEqual()
    ensures GuidanceClose11 + "\n" + "\n" + Tag(DraftReply) == "confident\n\n[ACTION:REPLY]"
  {
  }

  lemma TailAfterJoin(s: string, g: string, last: string, tag: string, tail: string)
    requires last + "\n" + "\n" + tag == tail
    ensures var p := s + "\n" + (g + last + "\n") + "\n" + tag;
            |s| <= |p| && p[..|s|] == s && EndsWith(p, tail)
  {
    var p := s + "\n" + (g + last + "\n") + "\n" + tag;
    assert p == (s + "\n" + g) + tail;
    EndsWithAppend(s + "\n" + g, tail);
    assert p[..|s|] == s;
  }

  // ---------------------------------------------------------------------------
  // What the mock engine answers to a route

  /**
   * When the filled template holds no tag of its own (and, for a reply, the
   * sender's name holds no "["), the appended tag is the first one, and the
   * engine answers with the route's tool on the fields it parses.
   */
  lemma {:induction false} MockRouteAnswer(r: Route, t: string, e: Email)
    requires !ContainsCi(Substitute(t, e), ActionLabel)
    requires r == DraftReply ==> '[' !in e.fromName
    ensures var p := RoutePrompt(r, t, e);
            ForcedAction(p) == Some(Lower(TagName(RouteTool(r))))
            && MockLlmResponse(p) == Run(RouteTool(r), ExtractEmailFields(p))
  {
    var s := Substitute(t, e);
    if r == DraftReply {
      var x := GuidanceOpen + OrElse(Some(e.fromName), "the sender") + GuidanceMid + OrElse(Some(e.fromName), "there")
        + GuidanceClose;
      GuidanceUnbracketed(e.fromName);
      NoBracketNoTag("\n" + x);
      assert ActionLabel == "[ACTION:";
      NewlineForeign(ActionLabel);
      NoCiJoin(s, "\n" + x, ActionLabel);
      GuidanceJoin(s, x, Tag(r));
      AppendedTagSelects(s + ("\n" + x), RouteTool(r));
    } else {
      AppendedTagSelects(s, RouteTool(r));
    }
  }

  lemma GuidanceJoin(s: string, x: string, tag: string)
    ensures s + "\n" + (x + "\n") + "\n" + tag == s + ("\n" + x) + "\n\n" + tag
  {
  }

  /** The template the default table holds for each route. */
  function DefaultTemplate(r: Route): string {
    match r
    case Categorize => CategorizationTemplate
    case ExtractActions => ActionTemplate
    case DraftReply => ReplyTemplate
    case Summarize => SummaryTemplate
    case AssessPriority => PriorityTemplate
  }

  /** The row of the default table each route's lookup finds. */
  function RouteIndex(r: Route): nat {
    match r
    case Categorize => 0
    case ExtractActions => 1
    case DraftReply => 2
    case Summarize => 3
    case AssessPriority => 4
  }

  /** In a table laid out like the defaults, every route finds the row of its position. */
  lemma RowsFindRoutes(t0: string, t1: string, t2: string, t3: string, t4: string, r: Route)
    ensures var ds := DefaultRows(t0, t1, t2, t3, t4);
            RouteIndex(r) < |ds| && TemplateOfType(ds, RouteKind(r)) == Some(ds[RouteIndex(r)])
  {
    DefaultRowsShape(t0, t1, t2, t3, t4);
    DefaultRowsDistinct(t0, t1, t2, t3, t4);
    var ds := DefaultRows(t0, t1, t2, t3, t4);
    var k := RouteIndex(r);
    assert ds[k].kind == RouteKind(r);
  }

  /** The five types the routes look up are exactly those of the five defaults. */
  lemma RoutesFindDefaults(r: Route)
    ensures TemplateOfType(Defaults, RouteKind(r)) == Some(Defaults[RouteIndex(r)])
    ensures Defaults[RouteIndex(r)].template == DefaultTemplate(r)
  {
    RowsFindRoutes(CategorizationTemplate, ActionTemplate, ReplyTemplate, SummaryTemplate, PriorityTemplate, r);
    DefaultsShape();
  }

  /** The sender's fields, free of "[", and the fields the block repeats, free of "{". */
  predicate PlainFields(e: Email) {
    '[' !in e.subject && '[' !in e.fromName && '[' !in e.fromEmail && '[' !in e.body
    && '{' !in e.subject && '{' !in e.fromName && '{' !in e.fromEmail
  }

  /** A framed template filled with plain fields holds no "[". */
  lemma FramedUnbracketed(pre: UnmarkedText, post: UnmarkedText, e: Email)
    requires PlainFields(e)
    ensures '[' !in pre + FilledBlock(e) + post
  {
    assert SubjectLabel == "Subject:";
  }

  /** The reply template filled with plain fields holds no "[". */
  lemma ReplyUnbracketed(e: Email)
    requires PlainFields(e)
    ensures '[' !in ReplyHead + e.fromName + ReplyRules + EmailHeader + ReplyBlockAsSent(e) + ReplyTail
  {
    assert SubjectLabel == "Subject:";
    assert FromNameSlot == "{from_name}";
  }

  /** No default template, filled with plain fields, holds a tag of its own. */
  lemma DefaultPromptUntagged(r: Route, e: Email)
    requires PlainFields(e)
    ensures !ContainsCi(Substitute(DefaultTemplate(r), e), ActionLabel)
  {
    DefaultPromptUnbracketed(r, e);
    NoBracketNoTag(Substitute(DefaultTemplate(r), e));
  }

  lemma DefaultPromptUnbracketed(r: Route, e: Email)
    requires PlainFields(e)
    ensures '[' !in Substitute(DefaultTemplate(r), e)
  {
    match r
    case Categorize =>
      SubstituteFramed(CategorizationPre, CategorizationTail, e);
      FramedUnbracketed(CategorizationPre, CategorizationTail, e);
    case ExtractActions =>
      SubstituteFramed(ActionPre, ActionTail, e);
      FramedUnbracketed(ActionPre, ActionTail, e);
    case Summarize =>
      SubstituteFramed(SummaryPre, SummaryTail, e);
      FramedUnbracketed(SummaryPre, SummaryTail, e);
    case AssessPriority =>
      SubstituteFramed(PriorityPre, PriorityTail, e);
      FramedUnbracketed(PriorityPre, PriorityTail, e);
    case DraftReply =>
      SubstituteReplyTemplate(e);
      ReplyUnbracketed(e);
  }

  /** In mock mode, a route whose filled template holds no tag answers with its tool's trimmed output. */
  lemma {:induction false} MockOutcome(emails: map<int, Email>, prompts: seq<PromptTemplate>, r: Route, id: int,
                                      env: LlmEnv, api: ApiOutcome, t: string)
    requires id in emails && UseMockLlm(env)
    requires TemplateOfType(prompts, RouteKind(r)).Some? && TemplateOfType(prompts, RouteKind(r)).value.template == t
    requires !ContainsCi(Substitute(t, emails[id]), ActionLabel)
    requires r == DraftReply ==> '[' !in emails[id].fromName
    ensures var v := Trim(Run(RouteTool(r), ExtractEmailFields(RoutePrompt(r, t, emails[id]))));
            Outcome(emails, prompts, r, id, env, api) == Ok(ResponseKey(r), v)
            && EmailsAfter(emails, prompts, r, id, env, api) == emails[id := Recorded(emails[id], r, v)]
  {
    var p := RoutePrompt(r, t, emails[id]);
    MockRouteAnswer(r, t, emails[id]);
    MockModeIgnoresApi(env, p, api, api);
  }

  /** Trimming a category or a priority word keeps it. */
  lemma StoredLabel(r: Route, f: ParsedEmail)
    ensures r == Categorize ==> Trim(Run(RouteTool(r), f)) in Categories
    ensures r == AssessPriority ==> Trim(Run(RouteTool(r), f)) in Priorities
  {
    if r == Categorize {
      CategoriesTrimmed(DetermineCategory(f));
    } else if r == AssessPriority {
      PrioritiesTrimmed(DeterminePriority(f));
    }
  }

  /**
   * On the freshly seeded table, in mock mode, every route answers with its
   * own tool; categorize stores one of the engine's five categories and
   * priority one of its three levels.
   */
  lemma FreshTableMockAnswer(emails: map<int, Email>, r: Route, id: int, env: LlmEnv, api: ApiOutcome)
    requires id in emails && PlainFields(emails[id]) && UseMockLlm(env)
    ensures var p := RoutePrompt(r, DefaultTemplate(r), emails[id]);
            var v := Trim(Run(RouteTool(r), ExtractEmailFields(p)));
            var after := EmailsAfter(emails, Seed([], Defaults), r, id, env, api);
            Outcome(emails, Seed([], Defaults), r, id, env, api) == Ok(ResponseKey(r), v)
            && (r == Categorize ==> v in Categories && after[id].category == Some(v))
            && (r == AssessPriority ==> v in Priorities && after[id].priority == Some(v))
  {
    var e := emails[id];
    SeedFreshTable();
    RoutesFindDefaults(r);
    DefaultPromptUntagged(r, e);
    MockOutcome(emails, Defaults, r, id, env, api, DefaultTemplate(r));
    StoredLabel(r, ExtractEmailFields(RoutePrompt(r, DefaultTemplate(r), e)));
  }

  // ---------------------------------------------------------------------------
  // What the engine reads as the sender in the reply prompt

  /**
   * "{from_name}" first occurs in the reply template's greeting example, so
   * the email block still reads "From: {from_name} <address>" and the engine
   * parses the placeholder itself as the sender's name.
   */
  lemma ReplySenderIsPlaceholder(e: Email)
    requires '{' !in e.subject && '{' !in e.fromName && '{' !in e.fromEmail
    requires ':' !in e.subject && ':' !in e.fromName
    ensures ExtractEmailFields(RoutePrompt(DraftReply, ReplyTemplate, e)).fromName == Some(FromNameSlot)
  {
    var a := ReplyHead + e.fromName + ReplyRules + EmailHeader + (SubjectLabel + " " + e.subject);
    var z := e.fromEmail + ">\nBody: " + e.body + ReplyTail + "\n" + ReplyGuidance(e.fromName) + "\n" + Tag(DraftReply);
    ReplyPromptSplit(e);
    PreBlockHasNoFromLabel(e.fromName, e.subject);
    PlaceholderIsName();
    FromNameInLine(a, FromNameSlot, z);
  }

  lemma PlaceholderIsName()
    ensures |FromNameSlot| > 0 && !IsSpace(FromNameSlot[0]) && !IsSpace(FromNameSlot[|FromNameSlot| - 1])
    ensures '\n' !in FromNameSlot && '<' !in FromNameSlot
  {
    assert FromNameSlot == "{from_name}";
  }

  /** The reply prompt around its "From:" line. */
  lemma ReplyPromptSplit(e: Email)
    requires '{' !in e.subject && '{' !in e.fromName && '{' !in e.fromEmail
    ensures RoutePrompt(DraftReply, ReplyTemplate, e)
            == (ReplyHead + e.fromName + ReplyRules + EmailHeader + (SubjectLabel + " " + e.subject)) + "\nFrom: "
               + FromNameSlot + " <"
               + (e.fromEmail + ">\nBody: " + e.body + ReplyTail + "\n" + ReplyGuidance(e.fromName) + "\n" + Tag(DraftReply))
  {
    SubstituteReplyTemplate(e);
    RegroupReplyPrompt(ReplyHead, e.fromName, ReplyRules, EmailHeader, SubjectLabel, e.subject, FromNameSlot,
      e.fromEmail, e.body, ReplyTail, ReplyGuidance(e.fromName), Tag(DraftReply));
  }

  lemma RegroupReplyPrompt(h: string, n: string, rr: string, eh: string, sl: string, sub: string, slot: string,
                           fe: string, bd: string, tail: string, g: string, tg: string)
    ensures h + n + rr + eh + (sl + " " + sub + "\nFrom: " + slot + " <" + fe + ">\nBody: " + bd) + tail + "\n" + g + "\n" + tg
            == (h + n + rr + eh + (sl + " " + sub)) + "\nFrom: " + slot + " <"
               + (fe + ">\nBody: " + bd + tail + "\n" + g + "\n" + tg)
  {
  }

  /** Everything before the reply template's "From:" line is free of that label. */
  lemma PreBlockHasNoFromLabel(n: string, sub: string)
    requires ':' !in n && ':' !in sub
    ensures !ContainsCi(ReplyHead + n + ReplyRules + EmailHeader + (SubjectLabel + " " + sub), FromLabel)
  {
    ReplyHeadHasNoFromLabel();
    ReplyRulesHaveNoFromLabel();
    EmailHeaderHasNoFromLabel();
    SpaceForeignToFrom();
    NoColonNoFromLabel(n);
    var a := ReplyHead + n;
    if n == [] {
      assert a == ReplyHead;
    } else {
      NoCiJoinAfter(ReplyHead, n, FromLabel);
    }
    assert ReplyRules[0] == ',';
    NoCiJoin(a, ReplyRules, FromLabel);
    var b := a + ReplyRules;
    assert b[|b| - 1] == ' ';
    NoCiJoinAfter(b, EmailHeader, FromLabel);
    var c := b + EmailHeader;
    assert c[|c| - 1] == '\n';
    NewlineForeign(FromLabel);
    assert SubjectLabel + " " + sub == "Subject" + ":" + (" " + sub);
    NoFromLabelAtColon("Subject", " " + sub);
    NoCiJoinAfter(c, SubjectLabel + " " + sub, FromLabel);
  }

  /** So a mock reply drafted from the default template greets the placeholder: "Hi {from_name},". */
  lemma MockReplyGreetsPlaceholder(e: Email)
    requires PlainFields(e) && ':' !in e.subject && ':' !in e.fromName
    ensures var p := RoutePrompt(DraftReply, ReplyTemplate, e);
            var head := "Hi " + FromNameSlot + ",\n\n";
            var v := MockLlmResponse(p);
            |v| > |head| && v[..|head|] == head
  {
    var t := DefaultTemplate(DraftReply);
    assert t == ReplyTemplate;
    var p := RoutePrompt(DraftReply, t, e);
    DefaultPromptUntagged(DraftReply, e);
    MockDraftsReply(t, e);
    ReplySenderIsPlaceholder(e);
    GreetingOfPlaceholder(ExtractEmailFields(p));
  }

  lemma MockDraftsReply(t: string, e: Email)
    requires !ContainsCi(Substitute(t, e), ActionLabel) && '[' !in e.fromName
    ensures var p := RoutePrompt(DraftReply, t, e);
            MockLlmResponse(p) == Run(ReplyTool, ExtractEmailFields(p))
  {
    MockRouteAnswer(DraftReply, t, e);
  }

  lemma GreetingOfPlaceholder(f: ParsedEmail)
    requires f.fromName == Some(FromNameSlot)
    ensures var head := "Hi " + FromNameSlot + ",\n\n";
            var v := Run(ReplyTool, f);
            |v| > |head| && v[..|head|] == head
  {
    LlmCompose.ReplyShape(f);
    assert LlmCompose.ReplyName(f) == FromNameSlot;
  }
}
