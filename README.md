# SmartInbox core in Dafny

SmartInbox is an e-mail assistant. It has an Express backend over SQLite and a React front end. This project models the parts of it that decide something:

- **The mock LLM engine** (`mockLLMResponse` and its helpers). It takes one prompt and returns one string. It recovers the email's subject, sender and body with three regular expressions. It reads an optional `[ACTION:x]` tag and the chat question. It then runs one of five keyword tables: category, priority, summary, action list or reply draft.
- **`callLLM`**, which chooses between the mock engine and a remote completion. The remote call is modelled as an abstract outcome.
- **The five action routes of `emails.ts`.** Each one:
  - fills a stored template by replacing the first occurrence of each placeholder in turn;
  - appends its tag (and, for the reply, a formatting guidance block);
  - calls the LLM and trims the answer;
  - for category and priority, writes the answer back to the email.
- **The chat routes of `chat.ts`**:
  - the system prompt with its optional email context;
  - the 400 for a missing message;
  - the two inserted rows;
  - the per-email history and its deletion.
- **The five default prompt templates** as data, and the insert-if-absent seeding loop `initDefaultPrompts`.
- **The inbox state of `App.tsx`**:
  - pin/archive toggles and their toast;
  - the selection refresh on reload;
  - the archived filter;
  - the pinned-first sort that otherwise keeps fetched order.
- **`index.ts`**: the CORS origin decision and the `/api/llm/status` report.

Strings are `seq<char>`. The modules are:

| Module | Contents |
|---|---|
| `Text` | JavaScript's `includes`, `indexOf`, `replace` with a string pattern, ASCII `toLowerCase`, `trim` and `\s`, plus case-insensitive search. |
| `LlmFields` | The field, question and tag regular expressions, as scanning functions. |
| `LlmRules` | `determineCategory`, `determinePriority`, and the rule tables as data. |
| `LlmCompose` | `summarizeEmail`, `buildReplyForEmail`, `extractActionsFromEmail`. |
| `LlmService` | The router and `callLLM`. |
| `Store` | The three tables the routes touch, as one `Database` object. |
| `DefaultPrompts` | The templates and the seeding loop. |
| `EmailRoutes` and `ChatRoutes` | The route handlers. |
| `Inbox` | The front-end state, as the class `InboxState`. |
| `Server` | CORS and the status report. |

Code that works step by step is modelled as methods proved against functions:

- `buildReplyForEmail` reassigns `middle`.
- `extractActionsFromEmail` pushes onto an array and then numbers it.
- The handlers build `let prompt` and update tables.
- The seeding loop runs over the defaults.
- The inbox's `forEach` fills the order map; its event handlers update React state.

The rest are functions.

Three facts about the code that the model keeps:

- The router has only the keyword rules at `llmService.ts:346-370`. There is no phrase exclusion, no risk or tone branch, and no default to a summary: with no keyword it answers its generic sentence.
- The summary fallback at `llmService.ts:244` quotes the whole subject; nothing is truncated.
- The `Subject:`, `From:` and `Body:` expressions at `llmService.ts:44-46` find their label anywhere in the prompt, not only at the start of a line.

## Model

| member | source | states |
|---|---|---|
| LlmFields.OrElse | backend/src/services/llmService.ts:56-58 | JavaScript's or-default on an optional string: a non-empty value is kept; an absent or empty one gives the default |
| LlmFields.RunEnd | backend/src/services/llmService.ts:45 | a greedy run of a character class ends at the first character outside the class, or at the end |
| LlmFields.CaptureAfter | backend/src/services/llmService.ts:44-46 | `\s*(X+)` at a position matches exactly when a class character can start the group after the greedy whitespace, including by giving back the last whitespace character; the capture is non-empty and all in the class |
| LlmFields.LabelCapture | backend/src/services/llmService.ts:44-46 | a label match is searched case-insensitively; the capture is non-empty and admitted by the group; no label means no capture |
| LlmFields.LabelCaptureAtFirst | backend/src/services/llmService.ts:44-46 | when the group can match after the first occurrence of the label, the capture is taken there |
| LlmFields.LabelCaptureSkip | backend/src/services/llmService.ts:44-46 | the search skips positions where the label does not occur |
| LlmFields.LabelCaptureAbsent | backend/src/services/llmService.ts:44-46 | without any occurrence of the label the match fails |
| LlmFields.CaptureAnyIsSuffix | backend/src/services/llmService.ts:46 | `\s*([\s\S]+)` on non-empty text takes everything from the group start to the end of the input |
| LlmFields.CaptureAnyTrim | backend/src/services/llmService.ts:46-51 | the trimmed body capture is the trimmed rest of the prompt |
| LlmFields.CaptureAfterEmpty | backend/src/services/llmService.ts:44-46 | a label followed by nothing captures nothing |
| LlmFields.TrimOpt | backend/src/services/llmService.ts:49-51 | `?.trim()`: absent stays absent, a present value is trimmed |
| LlmFields.ExtractEmailFields | backend/src/services/llmService.ts:43-53 | never fails; each field is absent when its label is absent; the subject holds no line terminator; the sender holds no newline and no `<` |
| LlmFields.BodyIsRestAfterFirstLabel | backend/src/services/llmService.ts:46-51 | the body is the trimmed text after the first `Body:`, to the end of the prompt; it is absent only when nothing follows the label |
| LlmFields.FromNameIsRunAfterFirstLabel | backend/src/services/llmService.ts:45-50 | the sender is the trimmed run of `[^\n<]` after the first `From:` and its whitespace |
| LlmFields.SubjectIsLineAfterFirstLabel | backend/src/services/llmService.ts:44-49 | the subject is the trimmed rest of the line after the first `Subject:` and its whitespace |
| LlmFields.CaptureAfterOnlySpaces | backend/src/services/llmService.ts:44-45 | after whitespace alone, backtracking gives the group the last whitespace character |
| LlmFields.LabelBeforeOnlySpaces | backend/src/services/llmService.ts:44-50 | a `Subject:` or `From:` followed only by in-line whitespace yields a present but empty field |
| LlmFields.FromNameInLine | backend/src/services/llmService.ts:45-50 | in label-free text followed by a line "From: name <...", the sender is exactly `name` |
| LlmFields.FromLabelOpensLine | backend/src/services/llmService.ts:45 | after label-free text, a `From:` opening the next line is the first match |
| LlmFields.NameBeforeAddress | backend/src/services/llmService.ts:45 | the `[^\n<]+` run after " " in " name <address" is the name and the space before `<` |
| LlmFields.NoFromLabelAtColon | backend/src/services/llmService.ts:45 | one colon that does not follow an "m" ends no `From:` label |
| LlmFields.NoColonNoFromLabel | backend/src/services/llmService.ts:45 | text without a colon holds no `From:` label |
| LlmFields.RunEndAt | backend/src/services/llmService.ts:45 | the `[^\n<]` run ends at the first newline or `<` |
| LlmFields.QuestionAfter | backend/src/services/llmService.ts:318-319 | the lazy question group, trimmed, has no whitespace at either end |
| LlmFields.ExtractUserQuestion | backend/src/services/llmService.ts:317-320 | the question is trimmed; it is "" when the prompt holds no "User's question:" |
| LlmFields.QuestionAfterPrefix | backend/src/services/llmService.ts:318 | the lazy group stops at the first "Provide a helpful" past the leading whitespace |
| LlmFields.QuestionEndFirst | backend/src/services/llmService.ts:318 | in " m\n\nProvide a helpful...", the closing phrase after a message without it is its first occurrence |
| LlmFields.QuestionAfterRoundTrip | backend/src/services/llmService.ts:318-319 | the group after the label's space is the trimmed message |
| LlmFields.ExtractUserQuestionRoundTrip | backend/src/services/llmService.ts:317-320 | label-free text, then the label, the message and the closing phrase: the question is the trimmed message |
| LlmFields.TagClose | backend/src/services/llmService.ts:328 | `(.+?)\]` ends at the first `]`, with no line terminator before it |
| LlmFields.TagGroup | backend/src/services/llmService.ts:328 | the tag group is non-empty and on one line |
| LlmFields.TagCloseAtBracket | backend/src/services/llmService.ts:328 | the lazy group stops at the first closing bracket |
| LlmFields.TagGroupOfName | backend/src/services/llmService.ts:328 | a bracket-free one-line name followed by `]` is the whole group |
| LlmFields.ForcedAction | backend/src/services/llmService.ts:328-329 | the forced action is non-empty and lower case; it is absent when no `[ACTION:` occurs |
| LlmFields.ForcedActionOfAppendedTag | backend/src/services/llmService.ts:328-329 | with no earlier tag, an appended `[ACTION:w]` yields `lower(trim(w))` when that is non-empty |
| LlmRules.DetermineCategory | backend/src/services/llmService.ts:126-158 | the category is one of urgent, finance, work, newsletter, personal |
| LlmRules.DeterminePriority | backend/src/services/llmService.ts:160-169 | the priority is one of high, medium, low |
| LlmRules.CategoriesTrimmed | backend/src/routes/emails.ts:78 | trimming a category word keeps it |
| LlmRules.PrioritiesTrimmed | backend/src/routes/emails.ts:207 | trimming a priority word keeps it |
| LlmRules.FirstMatch | backend/src/services/llmService.ts:126-158 | a rule table answers either the fallback or one of its rules' labels |
| LlmRules.FirstMatchAt | backend/src/services/llmService.ts:126-158 | first match wins: rule i decides exactly when it holds and no earlier rule does |
| LlmRules.FirstMatchNone | backend/src/services/llmService.ts:157 | when no rule holds, the table gives the fallback |
| LlmRules.FirstMatchStep | backend/src/services/llmService.ts:126-158 | one step of the table: the rule at k, or the rest of the table |
| LlmRules.CategoryRulesFirstHalf | backend/src/services/llmService.ts:130-141 | the first four category rules test exactly the keywords of the source's conditions |
| LlmRules.CategoryRulesSecondHalf | backend/src/services/llmService.ts:142-156 | the last five category rules test exactly the keywords of the source's conditions |
| LlmRules.CategoryLowerRules | backend/src/services/llmService.ts:142-157 | the table from the personal rule on equals the tail of the if-chain |
| LlmRules.CategoryIsFirstMatch | backend/src/services/llmService.ts:126-158 | `determineCategory` is the category table read top to bottom, with "work" as the fallback |
| LlmRules.PriorityIsFirstMatch | backend/src/services/llmService.ts:160-169 | `determinePriority` is the priority table, with "low" as the fallback |
| LlmRules.CategoryNeverSpamOrSocial | backend/src/services/llmService.ts:126-158 | the engine never answers spam or social |
| LlmRules.UrgentBeforeFinance | backend/src/services/llmService.ts:130-135 | a body with both "urgent" and "invoice" is urgent |
| LlmRules.CategoryFallback | backend/src/services/llmService.ts:157 | with no rule holding, the category is work |
| LlmRules.PriorityReadsOnlyBody | backend/src/services/llmService.ts:160-169 | two emails with the same lower-cased body get the same priority |
| LlmRules.UrgentBeforeReviewBy | backend/src/services/llmService.ts:162-166 | a body with both "urgent" and "review by" is high priority |
| LlmCompose.SummaryRest | backend/src/services/llmService.ts:177-244 | the sentence after the sender's name is never empty |
| LlmCompose.SummarizeEmail | backend/src/services/llmService.ts:171-245 | the summary starts with the sender's name, or "the sender", and goes on past it |
| LlmCompose.SummaryFallback | backend/src/services/llmService.ts:244 | with no rule holding, the summary quotes the whole original-case subject: `X wrote about "S". Review the details and respond as needed.` |
| LlmCompose.SummaryBirthdayCelebration | backend/src/services/llmService.ts:177-182 | a birthday summary suggests the weekend celebration exactly when the body has "celebrate" or "weekend"; otherwise it is the plain wishes sentence |
| LlmCompose.SummaryDefaults | backend/src/services/llmService.ts:172-174 | with no fields, the sender is "the sender" and the subject "the email" |
| LlmCompose.NoSummaryRuleForEmpty | backend/src/services/llmService.ts:177-243 | no summary rule holds for an email with no fields |
| LlmCompose.BuildReplyForEmail | backend/src/services/llmService.ts:55-124 | the method that reassigns `middle` through the else-if chain returns the reply function's value |
| LlmCompose.ReplyShape | backend/src/services/llmService.ts:123 | every reply is exactly "Hi " + name + ",\n\n" + middle + "\n\nBest regards,": it starts with "Hi " and ends with "Best regards," |
| LlmCompose.ReplyDefaults | backend/src/services/llmService.ts:56-60 | with no sender the greeting names "there"; the default middle quotes the original-case subject, or "your email" |
| LlmCompose.ReplyFor | backend/src/services/llmService.ts:55-124 | (definition) "Hi " + name or "there" + ",\n\n" + the middle sentence + "\n\nBest regards," |
| LlmCompose.ReplyMiddle | backend/src/services/llmService.ts:62-122 | (definition) the sentence of the first topic rule that holds, the default sentence when none does |
| LlmCompose.DefaultMiddle | backend/src/services/llmService.ts:60 | (definition) `I appreciate the update about "S".` with the original-case subject or "your email" |
| LlmCompose.ReplyNoSendPromise | backend/src/services/llmService.ts:55-124 | no composed reply holds "I will send this", in any letter case, unless the email's subject or the greeting with the sender's name brings it in |
| LlmCompose.MiddleNoSendPromise | backend/src/services/llmService.ts:60-122 | whichever rule chooses it, the middle sentence holds no "I will send this" unless the quoted subject does |
| LlmCompose.DefaultMiddleNoPromise | backend/src/services/llmService.ts:60 | the default sentence holds no "I will send this" unless the subject it quotes does |
| LlmCompose.ActionItems | backend/src/services/llmService.ts:250-308 | the else-if chain pushes at most one action |
| LlmCompose.ChosenAction | backend/src/services/llmService.ts:250-308 | (definition) the action of the first rule that holds, or none |
| LlmCompose.Numbered | backend/src/services/llmService.ts:314 | numbering keeps one line per action |
| LlmCompose.NumberedList | backend/src/services/llmService.ts:314 | the loop that numbers and joins the lines computes the `map`/`join` |
| LlmCompose.ExtractActionsFromEmail | backend/src/services/llmService.ts:247-315 | the method that pushes onto `actions` and formats it returns the actions function's value |
| LlmCompose.NumberedSingle | backend/src/services/llmService.ts:314 | one action is listed as "1. " + action |
| LlmCompose.ActionsTextShape | backend/src/services/llmService.ts:310-314 | the answer is "No actions required." exactly when no branch matched, and otherwise "1. " + the chosen action |
| LlmCompose.ActionsText | backend/src/services/llmService.ts:310-314 | (definition) "No actions required." for no action, else the numbered lines joined by newlines |
| LlmCompose.RegistrationIsNotSentinel | backend/src/services/llmService.ts:258-261 | a registration confirmation yields "1. Optionally acknowledge the registration confirmation. No action required.", which is not the sentinel |
| LlmService.Run | backend/src/services/llmService.ts:332-343 | every tool answers a non-empty string |
| LlmService.ToolNamed | backend/src/services/llmService.ts:332-343 | the switch selects a tool exactly for category, actions, reply, summary and priority |
| LlmService.TagNameSelectsTool | backend/src/services/llmService.ts:332-343 | each tag a route writes, lower-cased, is the switch case of its tool |
| LlmService.KeywordToolOrder | backend/src/services/llmService.ts:346-370 | each tool is chosen exactly when its keywords occur and no earlier rule's do; the generic sentence is chosen exactly when none occurs |
| LlmService.KeywordTool | backend/src/services/llmService.ts:346-370 | (definition) reply, category, actions, summary, priority keywords tried in that order, then the generic sentence |
| LlmService.QuestionDecidesIntent | backend/src/services/llmService.ts:326-327 | with a non-empty question, only the lower-cased question decides the keyword route |
| LlmService.NoQuestionWholePrompt | backend/src/services/llmService.ts:324-327 | without a question, the whole lower-cased prompt decides it |
| LlmService.IntentText | backend/src/services/llmService.ts:324-327 | (definition) the lower-cased question when it is non-empty, else the lower-cased prompt |
| LlmService.MockLlmResponse | backend/src/services/llmService.ts:322-371 | the engine always answers a non-empty string |
| LlmService.SelectTool | backend/src/services/llmService.ts:328-370 | (definition) the tool a forced action names, else the keyword rules on the intent text |
| LlmService.ForcedToolWins | backend/src/services/llmService.ts:328-344 | a tag naming a tool selects that tool on the parsed fields, whatever else the prompt says |
| LlmService.UnknownTagFallsThrough | backend/src/services/llmService.ts:331-370 | without a tag, or with one naming no tool, the keyword rules decide |
| LlmService.GenericOnlyWithoutKeywords | backend/src/services/llmService.ts:370 | the generic sentence comes back exactly when no tag names a tool and no keyword occurs |
| LlmService.ForcedAnswerIgnoresOtherText | backend/src/services/llmService.ts:328-344 | two prompts with the same tag and the same parsed fields get the same answer |
| LlmService.AppendedTagSelects | backend/src/services/llmService.ts:328-344 | a route's tag appended to tag-free text selects the route's tool |
| LlmService.TagNamePlain | backend/src/services/llmService.ts:328 | the tag names are non-empty and hold no `]` and no line break |
| LlmService.ActionsTextNonEmpty | backend/src/services/llmService.ts:310-314 | the actions answer is never empty |
| LlmService.ClientExactlyWithoutMock | backend/src/services/llmService.ts:3-10 | a client exists exactly when mock mode is off |
| LlmService.CallLlm | backend/src/services/llmService.ts:12-35 | `callLLM` always answers a non-empty string |
| LlmService.MockModeIgnoresApi | backend/src/services/llmService.ts:13-15 | in mock mode the remote API is never consulted |
| LlmService.LiveClientOutcomes | backend/src/services/llmService.ts:17-34 | with a live client, empty or missing content gives "No response generated"; only an error falls back to the mock; other content is returned as is |
| Store.Database.InsertChatMessage | backend/src/routes/chat.ts:39-42 | an insert appends one row with the next id and leaves the other tables alone; with foreign keys on, an `email_id` naming no email makes it fail and change nothing |
| Store.Database.Valid | backend/src/db/database.ts:83-135 | the object holds tables that meet their constraints |
| Store.TablesValid | backend/src/db/database.ts:83-135 | each email is stored under its own primary key; prompt names are UNIQUE; chat ids stay below the AUTOINCREMENT counter; every chat row's `email_id` is NULL or names an email |
| Store.UpdateKeepsTables | backend/src/routes/emails.ts:78 | replacing an email by one with the same id keeps every table constraint |
| Store.AppendKeepsNamesDistinct | backend/src/data/defaultPrompts.ts:105-108 | appending a row whose name no row has keeps the names UNIQUE |
| Store.TemplateOfType | backend/src/routes/emails.ts:61 | the lookup finds nothing exactly when no row has the type; otherwise it returns a row of the table |
| Store.CountNamed | backend/src/data/defaultPrompts.ts:101 | the count is 0 exactly when no row has the name |
| DefaultPrompts.OfferListNames | backend/src/data/defaultPrompts.ts:12-18 | every name of an offered list opens one of its "- name: " lines |
| DefaultPrompts.DefaultsShape | backend/src/data/defaultPrompts.ts:7-93 | there are exactly five defaults, with types categorization, action_extraction, reply_draft, summary, priority, in order |
| DefaultPrompts.DefaultRowsDistinct | backend/src/data/defaultPrompts.ts:7-93 | the five rows have pairwise distinct names and types |
| DefaultPrompts.DefaultsDistinct | backend/src/data/defaultPrompts.ts:7-93 | the defaults have pairwise distinct names and types |
| DefaultPrompts.InsertMissing | backend/src/data/defaultPrompts.ts:103-110 | the loop leaves the table as the seeding function describes, keeps prompt names UNIQUE at every step, and changes nothing but the templates |
| DefaultPrompts.InitDefaultPrompts | backend/src/data/defaultPrompts.ts:95-114 | `initDefaultPrompts` seeds the five defaults into the table and never breaks the UNIQUE constraint on names |
| DefaultPrompts.SeedStep | backend/src/data/defaultPrompts.ts:105-108 | (definition) one turn of the loop: insert the row when `COUNT(*)` of its name is 0, else leave the table |
| DefaultPrompts.Seed | backend/src/data/defaultPrompts.ts:103-110 | (definition) the table after the loop has visited the list in order, one SeedStep per row |
| DefaultPrompts.SeedKeepsRows | backend/src/data/defaultPrompts.ts:103-110 | seeding keeps the old table as a prefix and adds only defaults |
| DefaultPrompts.SeedKeepsNamesDistinct | backend/src/data/defaultPrompts.ts:103-110 | the count check keeps names UNIQUE: seeding a table with distinct names leaves them distinct, even when the list repeats a name |
| DefaultPrompts.SeedStepInsertsOnlyMissing | backend/src/data/defaultPrompts.ts:105-108 | a default is appended exactly when no row has its name |
| DefaultPrompts.SeedCoversNames | backend/src/data/defaultPrompts.ts:103-110 | after seeding, every default's name is taken |
| DefaultPrompts.SeedOfCovered | backend/src/data/defaultPrompts.ts:103-110 | when every name is taken, seeding inserts nothing |
| DefaultPrompts.SeedIdempotent | backend/src/data/defaultPrompts.ts:103-110 | a second run inserts nothing |
| DefaultPrompts.SeedEmpty | backend/src/data/defaultPrompts.ts:103-110 | seeding an empty table with distinctly named rows stores exactly those rows, in order |
| DefaultPrompts.SeedFreshTable | backend/src/data/defaultPrompts.ts:95-114 | a fresh table gets the five defaults, in order |
| DefaultPrompts.FramedTemplate | backend/src/data/defaultPrompts.ts:20-25 | markup-free prose around the email block frames it |
| DefaultPrompts.TemplatesFramed | backend/src/data/defaultPrompts.ts:11-90 | the four templates other than the reply are markup-free prose around the one "Subject: {subject}\nFrom: {from_name} <{from_email}>\nBody: {body}" block |
| DefaultPrompts.ReplyGreetingHoldsFirstName | backend/src/data/defaultPrompts.ts:44-58 | in the reply template, "{from_name}" first occurs in the greeting example, before the email block |
| DefaultPrompts.ReplyHeadHasNoFromLabel | backend/src/data/defaultPrompts.ts:44-47 | the reply instructions before the greeting's name hold no "From:" label |
| DefaultPrompts.ReplyRulesHaveNoFromLabel | backend/src/data/defaultPrompts.ts:47-53 | the reply instructions after the greeting's name hold no "From:" label |
| DefaultPrompts.ReplyHead5HasNoFromLabel | backend/src/data/defaultPrompts.ts:46-47 | "When drafting the reply:" and the start of the next line hold no "From:" label |
| DefaultPrompts.EmailHeaderHasNoFromLabel | backend/src/data/defaultPrompts.ts:53 | the header line holds no "From:" label |
| DefaultPrompts.OffersSevenCategories | backend/src/data/defaultPrompts.ts:11-18 | the categorization template offers seven categories, spam and social among them, each on a "- name: " line |
| DefaultPrompts.EngineCategoriesOffered | backend/src/data/defaultPrompts.ts:11-18 | every category the engine produces is offered; the offered ones it never produces are exactly spam and social |
| DefaultPrompts.OffersEnginePriorities | backend/src/data/defaultPrompts.ts:80-83 | the priority template offers exactly the engine's three levels, each on a "- level: " line |
| DefaultPrompts.ActionTemplateQuotesSentinel | backend/src/data/defaultPrompts.ts:38 | the action template quotes the engine's "No actions required." |
| EmailRoutes.SubstituteWithoutSlots | backend/src/routes/emails.ts:67-71 | a template without placeholders is sent as it is |
| EmailRoutes.SubstituteFramed | backend/src/routes/emails.ts:67-71 | replacing the first occurrence of each placeholder in turn fills a framed block with the email's fields |
| EmailRoutes.SubstituteFramedDefaults | backend/src/routes/emails.ts:67-71 | each of the four framed default templates gets the email's fields in its block |
| EmailRoutes.SubstituteReplyTemplate | backend/src/routes/emails.ts:130-134 | in the reply template the sender's name lands in the greeting example; the block keeps its literal "{from_name}" |
| EmailRoutes.ReplaceFour | backend/src/routes/emails.ts:67-71 | four first-occurrence replacements, each applied to the previous result, fill four brace-separated placeholders |
| EmailRoutes.ReplaceFourPastGreeting | backend/src/routes/emails.ts:130-134 | the same four replacements, when "{from_name}" already occurs earlier |
| EmailRoutes.ReplaceAfterBraceFree | backend/src/routes/emails.ts:68 | a placeholder after brace-free text is the occurrence `replace` changes |
| EmailRoutes.Substitute | backend/src/routes/emails.ts:67-71 | (definition) four `replace` calls with string patterns, each on the previous result: `{subject}`, `{from_name}`, `{from_email}`, `{body}`, first occurrence only |
| EmailRoutes.BuildPrompt | backend/src/routes/emails.ts:67-72 | the handler's successive reassignments of `prompt` compute the route's prompt |
| EmailRoutes.PostAction | backend/src/routes/emails.ts:52-214 | each action handler answers as its outcome describes, writes the emails table the outcome describes, keeps the table constraints, and changes nothing else |
| EmailRoutes.Outcome | backend/src/routes/emails.ts:52-214 | (definition) 404 "Email not found" without the email; 404 with the route's message without a template of its type; otherwise the route's key with the trimmed `callLLM` answer |
| EmailRoutes.AnswerAndRecord | backend/src/routes/emails.ts:67-80 | once email and template are found, the handler asks the LLM, answers with the trimmed text, stores it for category and priority, and keeps the table constraints |
| EmailRoutes.AskLlm | backend/src/routes/emails.ts:67-75 | the answer is the trimmed `callLLM` output for the route's prompt |
| EmailRoutes.RecordedOutcome | backend/src/routes/emails.ts:75-80 | the table a successful handler writes is the one its outcome describes |
| EmailRoutes.MissingEmailFirst | backend/src/routes/emails.ts:55-58 | a missing email is a 404 whatever the templates and the LLM are, and nothing is written |
| EmailRoutes.MissingTemplateNoCall | backend/src/routes/emails.ts:61-64 | a missing template is a 404 exactly when no row has the route's type, and then the LLM is not consulted and nothing is written |
| EmailRoutes.StoredIsReturned | backend/src/routes/emails.ts:78-80 | the category or priority stored is the value returned; the other routes store nothing; no other email changes |
| EmailRoutes.RecordedShape | backend/src/routes/emails.ts:78 | recording an answer touches one email, and only its category or priority |
| EmailRoutes.UpdateSame | backend/src/routes/emails.ts:78 | writing back an email's own value leaves the table as it was |
| EmailRoutes.GuidanceNames | backend/src/routes/emails.ts:136-142 | the guidance names the sender, or "the sender" and "there" when the name is empty |
| EmailRoutes.GuidanceUnbracketed | backend/src/routes/emails.ts:136-142 | the guidance holds no `[` unless the sender's name does |
| EmailRoutes.ReplyGuidance | backend/src/routes/emails.ts:136-142 | (definition) the fixed guidance lines, naming `from_name` or "the sender", and greeting it or "there" |
| EmailRoutes.RoutePrompt | backend/src/routes/emails.ts:67-144 | (definition) the filled template, then "\n\n" and the route's tag, or for the reply "\n", the guidance, "\n" and the tag |
| EmailRoutes.PromptEndsWithTag | backend/src/routes/emails.ts:72-202 | every prompt starts with the filled template and ends with "\n\n[ACTION:CATEGORY]", "...ACTIONS]", "...SUMMARY]", "...PRIORITY]", or, for the reply, the guidance and "\n[ACTION:REPLY]" |
| EmailRoutes.PlainEnding | backend/src/routes/emails.ts:72 | a route other than the reply appends a blank line and its tag |
| EmailRoutes.TagLiteral | backend/src/routes/emails.ts:72-202 | the five tags are spelled as the handlers write them |
| EmailRoutes.ReplyEnding | backend/src/routes/emails.ts:144 | the reply prompt ends with the guidance's last line, a blank line and the reply tag |
| EmailRoutes.NoBracketNoTag | backend/src/routes/emails.ts:72 | text without `[` holds no tag |
| EmailRoutes.MockRouteAnswer | backend/src/routes/emails.ts:72-144 | when the filled template holds no tag, the appended tag decides and the mock answers with the route's tool on the parsed fields |
| EmailRoutes.RowsFindRoutes | backend/src/routes/emails.ts:61-192 | in a table laid out like the defaults, every route's lookup finds the row of its position |
| EmailRoutes.RoutesFindDefaults | backend/src/routes/emails.ts:61-192 | the five types the routes look up are exactly those of the five defaults |
| EmailRoutes.FramedUnbracketed | backend/src/routes/emails.ts:67-71 | a framed template filled with plain fields holds no `[` |
| EmailRoutes.ReplyUnbracketed | backend/src/routes/emails.ts:130-134 | the filled reply template holds no `[` when the fields hold none |
| EmailRoutes.DefaultPromptUntagged | backend/src/routes/emails.ts:67-71 | no default template filled with plain fields holds a tag of its own |
| EmailRoutes.DefaultPromptUnbracketed | backend/src/routes/emails.ts:67-71 | no default template filled with plain fields holds a `[` |
| EmailRoutes.MockOutcome | backend/src/routes/emails.ts:67-80 | in mock mode, a route whose filled template holds no tag answers with its tool's trimmed output, and stores it for category and priority |
| EmailRoutes.StoredLabel | backend/src/routes/emails.ts:78-80 | the category and the priority an engine answer stores are among the engine's words |
| EmailRoutes.FreshTableMockAnswer | backend/src/routes/emails.ts:52-214 | with the default table, plain fields and mock mode, every route answers its tool's trimmed output on the parsed fields |
| EmailRoutes.ReplySenderIsPlaceholder | backend/src/routes/emails.ts:130-144 | on the default reply template the engine's parsed sender is the literal "{from_name}" |
| EmailRoutes.PreBlockHasNoFromLabel | backend/src/routes/emails.ts:130-134 | everything before the reply template's "From:" line is free of that label |
| EmailRoutes.ReplyPromptSplit | backend/src/routes/emails.ts:130-144 | the filled reply prompt around its "From:" line |
| EmailRoutes.MockReplyGreetsPlaceholder | backend/src/routes/emails.ts:117-147 | a mock reply drafted from the default template greets "Hi {from_name}," |
| EmailRoutes.MockDraftsReply | backend/src/routes/emails.ts:144-146 | a reply prompt without an earlier tag is answered by the reply composer |
| EmailRoutes.GreetingOfPlaceholder | backend/src/services/llmService.ts:56-123 | a reply for the sender "{from_name}" begins "Hi {from_name},\n\n" |
| ChatRoutes.ContextEmail | backend/src/routes/chat.ts:46-48 | the context email is found exactly when the route names an existing email |
| ChatRoutes.EmailContext | backend/src/routes/chat.ts:45-51 | (definition) "" without an email, else "\n\nEmail Context:\nSubject: ", the subject, "\nFrom: " name " <" address ">", "\nBody: " and the body |
| ChatRoutes.SystemPrompt | backend/src/routes/chat.ts:54 | (definition) the fixed preamble, the context, "\n\nUser's question: " with the message, and "\n\nProvide a helpful, concise response." |
| ChatRoutes.PostChat | backend/src/routes/chat.ts:27-77 | the POST handler answers as its outcome describes, appends exactly the rows the outcome holds, and keeps the table constraints; an unknown email id fails at the first insert and stores nothing |
| ChatRoutes.ChatOutcome | backend/src/routes/chat.ts:27-77 | (definition) 400 without a message; 500 "Failed to process chat message" when the email id names no email; otherwise 201 with the user row and the assistant row holding `callLLM` of the system prompt |
| ChatRoutes.PostedRows | backend/src/routes/chat.ts:39-72 | a post with a message and an existing (or no) email stores the user row and then the assistant row with consecutive ids and the same email id |
| ChatRoutes.EmptyMessageRefused | backend/src/routes/chat.ts:32-34 | a missing or empty message is a 400 whatever the LLM does, and stores nothing |
| ChatRoutes.TwoRowsInOrder | backend/src/routes/chat.ts:39-63 | a post with a message about an existing email, or about none, inserts exactly two rows, user first, both with the route's email id |
| ChatRoutes.UnknownEmailFails | backend/src/db/database.ts:127-134 | a post about an email id that names no email is the 500 whatever the LLM would do, and stores nothing: the foreign key of `chat_messages.email_id` (turned on at `database.ts:56`) refuses the first insert |
| ChatRoutes.PostedRowsReference | backend/src/routes/chat.ts:39-63 | every row a post stores names an existing email or none, and takes one of the next two ids |
| ChatRoutes.QuietHasNoLabels | backend/src/routes/chat.ts:54 | the fixed prose holds neither "User's question:" nor "Body:" |
| ChatRoutes.ContextHasNoQuestion | backend/src/routes/chat.ts:45-51 | an email context whose fields hold no apostrophe holds no "User's question:" |
| ChatRoutes.QuestionRoundTrip | backend/src/routes/chat.ts:54 | the engine recovers the trimmed message from the system prompt when the message holds no "Provide a helpful" and the context no "User's question:" |
| ChatRoutes.PreambleJoin | backend/src/routes/chat.ts:54 | the preamble followed by a label-free context is label-free |
| ChatRoutes.ChatIntentIsQuestion | backend/src/routes/chat.ts:54 | the engine's keyword route for a chat is decided by the lower-cased trimmed message |
| ChatRoutes.ContextBodyRunsToEnd | backend/src/routes/chat.ts:49-54 | with an email context the parsed body is not the email's body alone: it runs through the question and the closing sentence |
| ChatRoutes.HeadHasNoBody | backend/src/routes/chat.ts:49 | nothing before the context's "Body:" holds the label |
| ChatRoutes.HistoryMembers | backend/src/routes/chat.ts:15-17 | a chat's history holds exactly the rows of that chat; clearing keeps exactly the others |
| ChatRoutes.History | backend/src/routes/chat.ts:14-17 | (definition) the rows whose `email_id` is the route's (or NULL), in insertion order |
| ChatRoutes.Without | backend/src/routes/chat.ts:85-89 | (definition) the rows whose `email_id` differs, in insertion order |
| ChatRoutes.GetChat | backend/src/routes/chat.ts:8-24 | GET returns the chat's rows in insertion order |
| ChatRoutes.ClearChat | backend/src/routes/chat.ts:80-95 | DELETE removes exactly the chat's rows and nothing else |
| ChatRoutes.ClearIsolated | backend/src/routes/chat.ts:85-89 | after clearing, the chat is empty and every other chat reads as before |
| ChatRoutes.PostExtendsOwnChat | backend/src/routes/chat.ts:39-63 | a post grows its own history by its rows and leaves every other chat as it was |
| ChatRoutes.HistoryAppend | backend/src/routes/chat.ts:15-17 | the history of two batches of rows is the two histories in order |
| Inbox.Toggled | frontend/src/App.tsx:71-80 | the action's flag becomes the negation of its truthiness; the other flag is copied |
| Inbox.StatusesAfter | frontend/src/App.tsx:70-87 | (definition) `{ ...prev, [email.id]: updated }` with the toggled status of that id |
| Inbox.ToggleTouchesOneFlag | frontend/src/App.tsx:70-87 | a toggle changes only its flag of its email; every other id and the other flag stay as they were |
| Inbox.DoubleToggleRestores | frontend/src/App.tsx:75-79 | two toggles give back the flag's truthiness |
| Inbox.ToastMatchesFlag | frontend/src/App.tsx:76-80 | the toast is "Pinned this email." / "Archived email." exactly when the flag is now set, else "Unpinned this email." / "Restored email from archive." |
| Inbox.ToastText | frontend/src/App.tsx:76-80 | (definition) the four toast texts, chosen by action and by whether the flag is now set |
| Inbox.SelectionClearedOnlyByArchivingIt | frontend/src/App.tsx:81-83 | the selection is cleared exactly when the selected email is archived; otherwise it stays |
| Inbox.SelectionAfter | frontend/src/App.tsx:81-83 | (definition) none when archiving sets the flag of the selected email; else the selection as it was |
| Inbox.ListsPartition | frontend/src/App.tsx:99-115 | the sorted list's source and the archived list split the emails: each email is in exactly one, as often as it was fetched |
| Inbox.Unarchived | frontend/src/App.tsx:99 | (definition) the emails whose status is not archived, in fetched order |
| Inbox.ArchivedEmails | frontend/src/App.tsx:112-115 | (definition) the emails whose status is archived, in fetched order |
| Inbox.BuildOrder | frontend/src/App.tsx:96-97 | the `forEach` fills the order map of the fetched list |
| Inbox.OrderOf | frontend/src/App.tsx:96-97 | (definition) each id mapped to the last index at which it occurs |
| Inbox.OrderIsIndex | frontend/src/App.tsx:97 | with distinct ids, an email's order is its index |
| Inbox.Compare | frontend/src/App.tsx:100-109 | (definition) pinned before unpinned (`bPinned - aPinned`), then `orderA - orderB` with 0 for a missing id |
| Inbox.InsertSorted | frontend/src/App.tsx:100-109 | inserting into a sorted list keeps it sorted and adds the element |
| Inbox.SortSortsPermutation | frontend/src/App.tsx:100-109 | the sort returns the same emails, in comparator order |
| Inbox.Sort | frontend/src/App.tsx:100-109 | (definition) a stable insertion sort with the comparator |
| Inbox.FiltersKeepMembers | frontend/src/App.tsx:99 | the filters keep only members that pass |
| Inbox.InsertUnpinned | frontend/src/App.tsx:101-108 | an unpinned email that precedes the rest lands after the pinned ones and before the unpinned ones |
| Inbox.InsertPinned | frontend/src/App.tsx:101-105 | a pinned email that precedes the rest goes to the front |
| Inbox.SortPinnedFirst | frontend/src/App.tsx:100-109 | on an ascending list, the sort is the pinned emails, then the unpinned, each in list order |
| Inbox.StepPinnedFirst | frontend/src/App.tsx:100-109 | one insertion step keeps the pinned part before the unpinned part |
| Inbox.AscendingTail | frontend/src/App.tsx:106-108 | the tail of an ascending list is ascending and after its head |
| Inbox.AscendingCons | frontend/src/App.tsx:106-108 | an email placed before later positions keeps the list ascending |
| Inbox.UnarchivedAscending | frontend/src/App.tsx:99 | the filter keeps positions ascending |
| Inbox.SortedEmailsPinnedFirst | frontend/src/App.tsx:95-110 | with distinct ids, `sortedEmails` is the pinned non-archived emails then the unpinned ones, each in fetched order, and holds exactly the non-archived emails |
| Inbox.SortedEmails | frontend/src/App.tsx:95-110 | (definition) the unarchived emails sorted with the order map of the fetched list |
| Inbox.FindById | frontend/src/App.tsx:42 | the search finds an email exactly when one has the id, and returns one of the data with that id |
| Inbox.InboxState.ToolbarActionOn | frontend/src/App.tsx:68-93 | the handler writes the toggled statuses, the toast for the new flag and the selection rule; the emails stay |
| Inbox.InboxState.LoadEmails | frontend/src/App.tsx:36-48 | a reload replaces the emails and refreshes the selection from them |
| Inbox.InboxState.SortedView | frontend/src/App.tsx:95-110 | the memo computes `sortedEmails` of the current state |
| Inbox.InboxState.ReloadSelection | frontend/src/App.tsx:41-44 | after a reload the selection is the fetched email with the same id, or nothing exactly when there is none |
| Server.DigitsFrom | backend/src/index.ts:38 | `\d+$` scanning: all remaining characters are digits |
| Server.CorsOrigin | backend/src/index.ts:26-53 | a refusal always carries "Not allowed by CORS" |
| Server.NoOriginAllowed | backend/src/index.ts:28-30 | a missing or empty origin passes |
| Server.VercelPreviewAllowed | backend/src/index.ts:33-35 | "https://" + one line + ".vercel.app" passes whatever FRONTEND_URL is |
| Server.VercelPreviewShape | backend/src/index.ts:33 | the Vercel rule accepts only the scheme, one line and the suffix |
| Server.VercelPreview | backend/src/index.ts:33 | (definition) "https://", a stretch without line terminators, ".vercel.app", and the end |
| Server.LocalhostPortAllowed | backend/src/index.ts:38-40 | "http://localhost:" and one digit or more pass |
| Server.LocalhostNonDigitFallsThrough | backend/src/index.ts:38-52 | a non-digit after "http://localhost:" fails that rule, and the FRONTEND_URL rules decide |
| Server.LocalhostDev | backend/src/index.ts:38 | (definition) "http://localhost:" and one digit or more up to the end |
| Server.UnsetFrontendAllowsAll | backend/src/index.ts:47-49 | without FRONTEND_URL every origin passes |
| Server.SetFrontendExact | backend/src/index.ts:43-52 | with FRONTEND_URL set, an origin no earlier rule catches passes exactly when it equals it, and is refused with "Not allowed by CORS" otherwise |
| Server.FrontendRule | backend/src/index.ts:42-52 | (definition) with FRONTEND_URL set, allow exactly that origin and refuse others with "Not allowed by CORS"; unset, allow |
| Server.Substring | backend/src/index.ts:71 | `substring(0, n)` is the first n characters, or all of a shorter string |
| Server.Status | backend/src/index.ts:68-84 | provider is mock exactly when USE_MOCK_LLM is "true" or GEMINI_API_KEY is empty or unset; `hasApiKey` is the key's truthiness; `apiKeyConfigured` is `hasApiKey && !useMock` |
| Server.StatusHidesKey | backend/src/index.ts:71-78 | a key shows as its first seven characters (at most) and "..."; no key shows "not set" |
| Server.ConfiguredExactlyWhenGemini | backend/src/index.ts:75-82 | the key is configured exactly when the provider is Gemini, and the message follows the provider |
| Server.StatusDisagreesWithService | backend/src/index.ts:69-77 | with only a Gemini key the report says Gemini is configured, yet `callLLM` answers with the mock |
| Server.StatusDisagreesWithServiceLive | backend/src/index.ts:69-75 | with only an OpenAI key the report says mock, yet `callLLM` returns the remote answer |
| Server.ServiceStatus | backend/src/index.ts:68-84 | the corrected report reads the same settings as `callLLM`: mock exactly when `callLLM` is in mock mode; `hasApiKey` is the OpenAI key's truthiness; `apiKeyConfigured` is `hasApiKey && !useMock` |
| Server.ServiceStatusTellsTruth | backend/src/index.ts:69-75 | the corrected report says mock exactly when no remote outcome can change what `callLLM` answers |
| Text.Lower | backend/src/services/llmService.ts:324 | `toLowerCase` keeps the length and lowers each ASCII letter |
| Text.ContainsCiIsContainsLower | backend/src/services/llmService.ts:44-46 | a case-insensitive match is a match in the lower-cased text |
| Text.Find | backend/src/routes/emails.ts:68 | `indexOf` finds the first occurrence, and none exactly when the pattern is absent |
| Text.ReplaceFirst | backend/src/routes/emails.ts:68-71 | `replace` with a string pattern leaves text without the pattern unchanged |
| Text.ReplaceFirstAt | backend/src/routes/emails.ts:68-71 | `replace` changes the first occurrence only |
| Text.Trim | backend/src/services/llmService.ts:49-51 | `trim` leaves no whitespace at either end, gives "" exactly for all-whitespace text, and adds no character |
| Text.TrimLeadingSpaces | backend/src/services/llmService.ts:49-51 | whitespace in front of a string does not change its trimmed form |

## Left out

- GET `/api/emails`, GET `/api/emails/:id` and PATCH `/api/emails/:id/read` (`emails.ts:13-49`): plain SQL reads and an update. They hold no logic the properties concern.
- The 500 handlers of every route: they catch failures of SQLite or of the code itself, and SQLite is not modelled. The one failure the tables' constraints cause on an ordinary request is modelled: a chat post about an email id that names no email breaks the foreign key at its first insert and answers 500 (ChatRoutes.UnknownEmailFails).
- The `console.error` and `console.log` calls (`llmService.ts:32`, `chat.ts:74`, `emails.ts:82`, `defaultPrompts.ts:113` and the other handlers): logging has no effect on any answer or table.
- `String.prototype.replace` treats `$&`, `$1`, `$$` and similar sequences in the replacement specially. The model treats the replacement as literal text, so it matches the code only on values without `$`.
- The OpenAI client (`llmService.ts:6-10, 17-34`). The network call becomes a parameter: an `ApiOutcome` that is an error or optional content. The model, temperature and token limit are not modelled.
- Environment variables (`process.env`) are parameters: `LlmEnv` and `Config`. Building the client once at module load is the same as checking the environment on every call, because the environment does not change.
- SQLite. The three tables are fields of one `Database` object. The `emails` table is a map keyed by id. The other two tables are sequences in insertion order. `ORDER BY created_at ASC` is taken to be insertion order. Ties between timestamps are not modelled.
- Server.Substring counts characters as Unicode code points (`seq<char>`); JavaScript's `substring` counts UTF-16 code units. The seven-character key prefix differs for keys holding characters outside the Basic Multilingual Plane.
- LlmCompose.ReplyNoSendPromise states the absence of the phrase "I will send this" only. One fixed sentence, for an interview with availability, does say "will send my preferred time slots shortly": a commitment to follow up, not to send the reply itself.
- Email ids, and the `emailId` path segment of the chat routes, are integers. Non-numeric segments and SQLite's type affinity are not modelled.
- ChatRoutes.PostChat: a `message` in the request body that is not a string (a number, an object) is not modelled. The message is an optional string, and only absence and "" are falsy.
- React's scheduling of state updates. The status updater runs eagerly and once per event. In the code, `nextMessage` is set inside the updater.
- The toast's `setTimeout` (`App.tsx:91`), the loading flag, dark mode with `localStorage`, and `handleSelectEmail` (`App.tsx:59-66`). They are timers, browser storage, or calls into the API client.
- Inbox.SortedEmailsPinnedFirst requires distinct email ids. With repeated ids the order map gives every copy the last index, and the source makes no promise for that case.
- Inbox.Sort: `Array.prototype.sort` is modelled by a stable insertion sort. ECMAScript has required `sort` to be stable since 2019. Any stable sort with this comparator gives the same result when, as here, the order map separates all emails.
- DefaultPrompts.OffersSevenCategories shows that each offered name opens a line of the list. It does not prove that no other line names a category.
- DefaultPrompts.TemplatesFramed states that four of the templates hold the email block. For the reply template, the block's position is stated by EmailRoutes.SubstituteReplyTemplate and DefaultPrompts.ReplyGreetingHoldsFirstName. No lemma states that the `Subject:`, `From:` and `Body:` labels occur exactly once.
- LlmFields.ExtractEmailFields uses ASCII case-insensitive matching for the `i` flag and ASCII lowering for `toLowerCase`. Unicode case folding is not modelled.
- Timestamps (`updated_at`, `created_at`) and the `description` column's use in the UI are not modelled.

## Findings

| source | as written | input that shows it | evidently intended | confidence | as-written member | corrected member |
|---|---|---|---|---|---|---|
| backend/src/index.ts:69-71 | The status report decides "mock" or "gemini" from GEMINI_API_KEY. `callLLM` decides mock mode from OPENAI_API_KEY (`llmService.ts:3`). | Only GEMINI_API_KEY set: the report says Gemini is configured and ready, yet every call is answered by the mock engine. Only OPENAI_API_KEY set: the report says mock, yet calls go to the remote API. | The report is derived from the same settings `callLLM` reads. | not executed | Server.StatusDisagreesWithService | Server.ServiceStatusTellsTruth |
