/**
 * The chat routes of backend/src/routes/chat.ts: POST stores the user's
 * message, asks the LLM with a system prompt built around it (and around the
 * email it is about, if any), and stores the answer; GET lists a chat's
 * messages and DELETE clears them.
 */
module ChatRoutes {
  import opened Wrappers
  import opened Text
  import opened Store
  import opened LlmFields
  import opened LlmService

  // ---------------------------------------------------------------------------
  // The system prompt

  /** Prose with no apostrophe and no colon, so that neither "User's question:" nor "Body:" can occur in it. */
  predicate Quiet(s: string) {
    '\'' !in s && ':' !in s
  }

  type QuietText = s: string | Quiet(s)

  const Preamble: QuietText := Preamble1 + Preamble2 + Preamble3 + Preamble4
  const Preamble1: QuietText := "You are an Email "
  const Preamble2: QuietText := "Productivity Assistant. "
  const Preamble3: QuietText := "Help the user manage their "
  const Preamble4: QuietText := "emails effectively."

  /** The text after the question: QuestionEnd and the rest of the closing sentence. */
  const Closing: string := ", concise response."

  /** `emailContext`: empty without an email, else the email's fields under a heading. */
  function EmailContext(email: Option<Email>): string {
    match email
    case None => ""
    case Some(e) => ContextHead + e.subject + "\nFrom: " + e.fromName + " <" + e.fromEmail + ">\n" + BodyLabel + " " + e.body
  }

  const ContextHead: string := "\n\nEmail Context:\nSubject: "

  /** `SELECT * FROM emails WHERE id = ?`, asked only when the route names an email. */
  function ContextEmail(emails: map<int, Email>, emailId: Option<int>): (r: Option<Email>)
    ensures r.Some? <==> emailId.Some? && emailId.value in emails
    ensures r.Some? ==> r.value == emails[emailId.value]
  {
    match emailId
    case None => None
    case Some(id) => if id in emails then Some(emails[id]) else None
  }

  /**
   * `systemPrompt`: the preamble, the email context, "\n\nUser's question: "
   * with the message, and "\n\nProvide a helpful, concise response.".
   */
  function SystemPrompt(context: string, message: string): string {
    Preamble + context + "\n\n" + QuestionLabel + (" " + message + "\n\n" + QuestionEnd + Closing)
  }

  // ---------------------------------------------------------------------------
  // POST /api/chat/:emailId?

  const MessageRequired: string := "Message is required"
  const ChatFailed: string := "Failed to process chat message"

  const UserRole: string := "user"
  const AssistantRole: string := "assistant"

  /**
   * The 201 answer with both stored rows, the 400 answer, or the 500 answer
   * of the catch block when the first insert fails.
   */
  datatype ChatResponse =
    | Created(userMessage: ChatMessage, assistantMessage: ChatMessage)
    | BadRequest(error: string)
    | ServerError(error: string)

  /** The answer of the POST route, given the tables before it runs and what the LLM side does. */
  function ChatOutcome(emails: map<int, Email>, nextId: nat, emailId: Option<int>, message: Option<string>,
                       env: LlmEnv, api: ApiOutcome): ChatResponse
  {
    if !Truthy(message) then BadRequest(MessageRequired)
    else if !References(emails, emailId) then ServerError(ChatFailed)
    else
      var prompt := SystemPrompt(EmailContext(ContextEmail(emails, emailId)), message.value);
      Created(ChatMessage(nextId, UserRole, message.value, emailId),
              ChatMessage(nextId + 1, AssistantRole, CallLlm(env, prompt, api), emailId))
  }

  /** The rows an answer stands for, in the order they are inserted. */
  function Inserted(res: ChatResponse): seq<ChatMessage> {
    match res
    case Created(u, a) => [u, a]
    case BadRequest(_) => []
    case ServerError(_) => []
  }

  /**
   * The route: the message check, the user row, the email context, the LLM
   * call and the assistant row, in the source's order.
   */
  method PostChat(db: Database, emailId: Option<int>, message: Option<string>, env: LlmEnv, api: ApiOutcome)
    returns (res: ChatResponse)
    requires db.Valid()
    modifies db
    ensures db.Valid()
    ensures res == ChatOutcome(old(db.emails), old(db.nextChatId), emailId, message, env, api)
    ensures db.chatMessages == old(db.chatMessages) + Inserted(res)
    ensures db.nextChatId == old(db.nextChatId) + |Inserted(res)|
    ensures db.emails == old(db.emails) && db.prompts == old(db.prompts)
  {
    ghost var emails0, next0, rows0 := db.emails, db.nextChatId, db.chatMessages;
    if message.None? || message.value == [] {
      return BadRequest(MessageRequired);
    }
    var m := message.value;
    var userRow := db.InsertChatMessage(UserRole, m, emailId);
    if userRow.None? {
      return ServerError(ChatFailed);
    }
    var context := "";
    if emailId.Some? && emailId.value in db.emails {
      var e := db.emails[emailId.value];
      context := ContextHead + e.subject + "\nFrom: " + e.fromName + " <" + e.fromEmail + ">\n" + BodyLabel + " " + e.body;
    }
    var prompt := SystemPrompt(context, m);
    var answer := CallLlm(env, prompt, api);
    var assistantRow := db.InsertChatMessage(AssistantRole, answer, emailId);
    res := Created(userRow.value, assistantRow.value);
    PostedRows(emails0, next0, rows0, emailId, m, env, api, context, answer);
  }

  /** The rows the route writes are those its outcome describes. */
  lemma PostedRows(emails: map<int, Email>, nextId: nat, rows: seq<ChatMessage>, emailId: Option<int>, m: string,
                   env: LlmEnv, api: ApiOutcome, context: string, answer: string)
    requires m != [] && References(emails, emailId)
    requires context == (if emailId.Some? && emailId.value in emails then
                           var e := emails[emailId.value];
                           ContextHead + e.subject + "\nFrom: " + e.fromName + " <" + e.fromEmail + ">\n" + BodyLabel + " " + e.body
                         else "")
    requires answer == CallLlm(env, SystemPrompt(context, m), api)
    ensures var res := Created(ChatMessage(nextId, UserRole, m, emailId), ChatMessage(nextId + 1, AssistantRole, answer, emailId));
            var after := rows + [res.userMessage] + [res.assistantMessage];
            res == ChatOutcome(emails, nextId, emailId, Some(m), env, api)
            && after == rows + Inserted(res)
  {
    assert context == EmailContext(ContextEmail(emails, emailId));
  }

  /** A missing or empty message is refused before anything is stored or asked. */
  lemma EmptyMessageRefused(emails: map<int, Email>, nextId: nat, emailId: Option<int>, message: Option<string>,
                            env1: LlmEnv, env2: LlmEnv, a1: ApiOutcome, a2: ApiOutcome)
    ensures ChatOutcome(emails, nextId, emailId, message, env1, a1).BadRequest? <==> message.None? || message.value == []
    ensures message.None? || message.value == [] ==>
              ChatOutcome(emails, nextId, emailId, message, env1, a1) == ChatOutcome(emails, nextId, emailId, message, env2, a2)
              && Inserted(ChatOutcome(emails, nextId, emailId, message, env1, a1)) == []
  {
  }

  /**
   * A message is stored as sent, first; the reply follows under the next id,
   * in the same chat.
   */
  lemma TwoRowsInOrder(emails: map<int, Email>, nextId: nat, emailId: Option<int>, m: string, env: LlmEnv,
                       api: ApiOutcome)
    requires m != [] && References(emails, emailId)
    ensures var rows := Inserted(ChatOutcome(emails, nextId, emailId, Some(m), env, api));
            |rows| == 2
            && rows[0].role == UserRole && rows[0].content == m
            && rows[1].role == AssistantRole && rows[1].id == rows[0].id + 1 == nextId + 1
            && rows[0].emailId == rows[1].emailId == emailId
            && rows[1].content == CallLlm(env, SystemPrompt(EmailContext(ContextEmail(emails, emailId)), m), api)
  {
  }

  /**
   * A chat about an email that does not exist fails at the first insert: the
   * answer is the 500 whatever the LLM would do, and nothing is stored.
   */
  lemma UnknownEmailFails(emails: map<int, Email>, nextId: nat, id: int, m: string,
                          env1: LlmEnv, env2: LlmEnv, a1: ApiOutcome, a2: ApiOutcome)
    requires m != [] && id !in emails
    ensures ChatOutcome(emails, nextId, Some(id), Some(m), env1, a1) == ServerError(ChatFailed)
    ensures ChatOutcome(emails, nextId, Some(id), Some(m), env1, a1) == ChatOutcome(emails, nextId, Some(id), Some(m), env2, a2)
    ensures Inserted(ChatOutcome(emails, nextId, Some(id), Some(m), env1, a1)) == []
  {
  }

  /** Every row a post stores names its email, so the stored chat keeps the foreign key. */
  lemma PostedRowsReference(emails: map<int, Email>, nextId: nat, emailId: Option<int>, message: Option<string>,
                            env: LlmEnv, api: ApiOutcome)
    ensures forall row :: row in Inserted(ChatOutcome(emails, nextId, emailId, message, env, api)) ==>
              References(emails, row.emailId) && nextId <= row.id < nextId + 2
  {
  }

  // ---------------------------------------------------------------------------
  // What the engine reads from the system prompt

  /** Quiet text holds neither label. */
  lemma QuietHasNoLabels(s: string)
    requires Quiet(s)
    ensures !ContainsCi(s, QuestionLabel) && !ContainsCi(s, BodyLabel)
  {
    assert QuestionLabel[4] == '\'' && BodyLabel[4] == ':';
    forall c | c in s ensures LowerChar(c) != LowerChar(QuestionLabel[4]) && LowerChar(c) != LowerChar(BodyLabel[4]) {
    }
    NoCiMissingChar(s, QuestionLabel, 4);
    NoCiMissingChar(s, BodyLabel, 4);
  }

  /** An email context whose fields hold no apostrophe cannot hold "User's question:". */
  lemma ContextHasNoQuestion(email: Option<Email>)
    requires email.Some? ==> '\'' !in email.value.subject && '\'' !in email.value.fromName
                             && '\'' !in email.value.fromEmail && '\'' !in email.value.body
    ensures !ContainsCi(EmailContext(email), QuestionLabel)
  {
    var ctx := EmailContext(email);
    assert QuestionLabel[4] == '\'';
    forall c | c in ctx ensures LowerChar(c) != LowerChar(QuestionLabel[4]) {
    }
    NoCiMissingChar(ctx, QuestionLabel, 4);
  }

  /**
   * Round trip: the question the engine extracts from the system prompt is the
   * message, trimmed, when the message does not hold the closing phrase and
   * the context does not hold the question label.
   */
  lemma {:induction false} QuestionRoundTrip(context: string, m: string)
    requires !ContainsCi(m, QuestionEnd) && !ContainsCi(context, QuestionLabel)
    ensures ExtractUserQuestion(SystemPrompt(context, m)) == Trim(m)
  {
    QuietHasNoLabels(Preamble);
    if context == [] {
      assert Preamble + context == Preamble;
    } else {
      PreambleJoin(context);
    }
    ExtractUserQuestionRoundTrip(Preamble + context, m, Closing);
  }

  /** The preamble ends in a full stop, foreign to the question label. */
  lemma PreambleJoin(context: string)
    requires !ContainsCi(context, QuestionLabel) && context != []
    ensures !ContainsCi(Preamble + context, QuestionLabel)
  {
    QuietHasNoLabels(Preamble);
    assert Preamble4 == "emails effectively.";
    assert Preamble[|Preamble| - 1] == '.';
    assert QuestionLabel == "User's question:";
    NoCiJoinAfter(Preamble, context, QuestionLabel);
  }

  /**
   * In mock mode a chat about an email with a non-empty question is routed
   * by the question alone: the keyword rules read the lower-cased, trimmed
   * message.
   */
  lemma ChatIntentIsQuestion(email: Option<Email>, m: string)
    requires Trim(m) != [] && !ContainsCi(m, QuestionEnd)
    requires email.Some? ==> '\'' !in email.value.subject && '\'' !in email.value.fromName
                             && '\'' !in email.value.fromEmail && '\'' !in email.value.body
    ensures IntentText(SystemPrompt(EmailContext(email), m)) == Lower(Trim(m))
  {
    ContextHasNoQuestion(email);
    QuestionRoundTrip(EmailContext(email), m);
    assert |Lower(Trim(m))| == |Trim(m)|;
  }

  /** The text the email context puts after "Body: ": the body, the question and the closing sentence. */
  function AfterBodyLabel(e: Email, m: string): string {
    e.body + "\n\n" + QuestionLabel + (" " + m + "\n\n" + QuestionEnd + Closing)
  }

  /**
   * With an email context, the body the engine parses is not the email's
   * body alone: it runs on through the question and the closing sentence to
   * the end of the prompt. Nothing before the context's "Body:" may look like
   * the label, so the fields in front of it must not hold it.
   */
  lemma {:induction false} ContextBodyRunsToEnd(e: Email, m: string)
    requires !ContainsCi(e.subject, BodyLabel) && !ContainsCi(e.fromName, BodyLabel)
    requires !ContainsCi(e.fromEmail, BodyLabel)
    ensures ExtractEmailFields(SystemPrompt(EmailContext(Some(e)), m)).body == Some(Trim(AfterBodyLabel(e, m)))
  {
    var a := Preamble + ContextHead + e.subject + "\nFrom: " + e.fromName + " <" + e.fromEmail;
    HeadHasNoBody(e);
    var r := AfterBodyLabel(e, m);
    var prompt := SystemPrompt(EmailContext(Some(e)), m);
    ContextPromptSplit(a, e, m);
    assert BodyLabel == "Body:";
    assert Foreign('>', BodyLabel) && Foreign('\n', BodyLabel);
    FindCiAfterPair(a, '>', '\n', BodyLabel, " " + r);
    var p := |a| + 2;
    assert prompt[p + 5..] == " " + r;
    BodyIsRestAfterFirstLabel(prompt, p);
    assert AllSpaces(" ");
    TrimLeadingSpaces(" ", r);
  }

  lemma ContextPromptSplit(a: string, e: Email, m: string)
    requires a == Preamble + ContextHead + e.subject + "\nFrom: " + e.fromName + " <" + e.fromEmail
    ensures SystemPrompt(EmailContext(Some(e)), m) == a + ">\n" + BodyLabel + (" " + AfterBodyLabel(e, m))
  {
    Regroup(Preamble, ContextHead, e.subject, "\nFrom: ", e.fromName, " <", e.fromEmail, ">\n", BodyLabel, " ", e.body,
      "\n\n", QuestionLabel, " " + m + "\n\n" + QuestionEnd + Closing);
  }

  lemma Regroup(p: string, h: string, s: string, f: string, n: string, l: string, x: string, g: string, b: string,
                sp: string, y: string, nn: string, q: string, t: string)
    ensures p + (h + s + f + n + l + x + g + b + sp + y) + nn + q + t == p + h + s + f + n + l + x + g + b + (sp + (y + nn + q + t))
  {
  }

  /** Nothing before the context's "Body:" holds the label. */
  lemma HeadHasNoBody(e: Email)
    requires !ContainsCi(e.subject, BodyLabel) && !ContainsCi(e.fromName, BodyLabel)
    requires !ContainsCi(e.fromEmail, BodyLabel)
    ensures !ContainsCi(Preamble + ContextHead + e.subject + "\nFrom: " + e.fromName + " <" + e.fromEmail, BodyLabel)
  {
    var p := BodyLabel;
    assert p == "Body:";
    QuietHasNoLabels(Preamble);
    NoY(ContextHead);
    NoY("\nFrom: ");
    NoY(" <");
    NewlineForeign(p);
    assert Foreign(' ', p) && Foreign('<', p);
    var s1 := Preamble + ContextHead;
    NoCiJoin(Preamble, ContextHead, p);
    assert s1[|s1| - 1] == ' ';
    var s2 := s1 + e.subject;
    NoCiJoinAfter(s1, e.subject, p);
    var s3 := s2 + "\nFrom: ";
    NoCiJoin(s2, "\nFrom: ", p);
    assert s3[|s3| - 1] == ' ';
    var s4 := s3 + e.fromName;
    NoCiJoinAfter(s3, e.fromName, p);
    var s5 := s4 + " <";
    NoCiJoin(s4, " <", p);
    assert s5[|s5| - 1] == '<';
    NoCiJoinAfter(s5, e.fromEmail, p);
  }

  /** Text without a "y" holds no "Body:". */
  lemma NoY(s: string)
    requires forall c :: c in s ==> c != 'y' && c != 'Y'
    ensures !ContainsCi(s, BodyLabel)
  {
    assert BodyLabel[3] == 'y';
    NoCiMissingChar(s, BodyLabel, 3);
  }

  // ---------------------------------------------------------------------------
  // GET and DELETE /api/chat/:emailId?

  /** `WHERE email_id = ?` (or `IS NULL` for the general chat), in insertion order. */
  function History(rows: seq<ChatMessage>, emailId: Option<int>): seq<ChatMessage> {
    if rows == [] then []
    else if rows[0].emailId == emailId then [rows[0]] + History(rows[1..], emailId)
    else History(rows[1..], emailId)
  }

  /** The rows of the other chats. */
  function Without(rows: seq<ChatMessage>, emailId: Option<int>): seq<ChatMessage> {
    if rows == [] then []
    else if rows[0].emailId != emailId then [rows[0]] + Without(rows[1..], emailId)
    else Without(rows[1..], emailId)
  }

  /** A chat's history holds exactly the rows of that chat; clearing it keeps exactly the others. */
  lemma {:induction false} HistoryMembers(rows: seq<ChatMessage>, emailId: Option<int>)
    ensures forall m :: m in History(rows, emailId) <==> m in rows && m.emailId == emailId
    ensures forall m :: m in Without(rows, emailId) <==> m in rows && m.emailId != emailId
  {
    if rows != [] {
      HistoryMembers(rows[1..], emailId);
      assert rows == [rows[0]] + rows[1..];
    }
  }

  /** GET: the chat's messages. */
  method GetChat(db: Database, emailId: Option<int>) returns (messages: seq<ChatMessage>)
    ensures messages == History(db.chatMessages, emailId)
  {
    messages := History(db.chatMessages, emailId);
  }

  /** DELETE: `DELETE FROM chat_messages WHERE email_id = ?` (or `IS NULL`). */
  method ClearChat(db: Database, emailId: Option<int>)
    requires db.Valid()
    modifies db
    ensures db.Valid()
    ensures db.chatMessages == Without(old(db.chatMessages), emailId)
    ensures db.emails == old(db.emails) && db.prompts == old(db.prompts) && db.nextChatId == old(db.nextChatId)
  {
    ghost var rows := db.chatMessages;
    var kept := Without(db.chatMessages, emailId);
    HistoryMembers(rows, emailId);
    forall i | 0 <= i < |kept| ensures kept[i].id < db.nextChatId {
      assert kept[i] in rows;
    }
    db.chatMessages := kept;
  }

  /** After clearing, the chat is empty and every other chat reads as before. */
  lemma {:induction false} ClearIsolated(rows: seq<ChatMessage>, cleared: Option<int>, other: Option<int>)
    ensures History(Without(rows, cleared), cleared) == []
    ensures other != cleared ==> History(Without(rows, cleared), other) == History(rows, other)
  {
    if rows != [] {
      ClearIsolated(rows[1..], cleared, other);
      var w := Without(rows, cleared);
      if rows[0].emailId != cleared {
        assert w == [rows[0]] + Without(rows[1..], cleared);
        assert w[1..] == Without(rows[1..], cleared);
      } else {
        assert w == Without(rows[1..], cleared);
      }
    }
  }

  /** A post appends to its own chat only: its history grows by the two rows, the others stay as they were. */
  lemma {:induction false} PostExtendsOwnChat(rows: seq<ChatMessage>, res: ChatResponse, emailId: Option<int>,
                                              other: Option<int>)
    requires res.Created? ==> res.userMessage.emailId == emailId && res.assistantMessage.emailId == emailId
    ensures History(rows + Inserted(res), emailId) == History(rows, emailId) + Inserted(res)
    ensures other != emailId ==> History(rows + Inserted(res), other) == History(rows, other)
  {
    HistoryAppend(rows, Inserted(res), emailId);
    HistoryAppend(rows, Inserted(res), other);
    if res.Created? {
      var u, a := res.userMessage, res.assistantMessage;
      assert [u, a][1..] == [a] && [a][1..] == [];
      assert History([a], emailId) == [a];
      assert History([u, a], emailId) == [u] + [a];
      assert other != emailId ==> History([a], other) == [] && History([u, a], other) == [];
    } else {
      assert Inserted(res) == [];
    }
  }

  lemma {:induction false} HistoryAppend(a: seq<ChatMessage>, b: seq<ChatMessage>, emailId: Option<int>)
    ensures History(a + b, emailId) == History(a, emailId) + History(b, emailId)
  {
    if a != [] {
      var s := a + b;
      assert s[0] == a[0] && s[1..] == a[1..] + b;
      HistoryAppend(a[1..], b, emailId);
      var rest := History(a[1..], emailId) + History(b, emailId);
      if a[0].emailId == emailId {
        calc {
          History(s, emailId);
          [a[0]] + History(a[1..] + b, emailId);
          [a[0]] + rest;
          History(a, emailId) + History(b, emailId);
        }
      } else {
        assert History(s, emailId) == History(a[1..] + b, emailId);
      }
    } else {
      assert a + b == b;
    }
  }
}
