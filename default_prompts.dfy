/**
 * The five prompt templates the backend seeds (backend/src/data/defaultPrompts.ts)
 * and initDefaultPrompts, which inserts each one whose name is not taken yet.
 *
 * Each template is its prose before the email block, the shared email block
 * with the four placeholders, and its prose after the block. The prose is
 * spelled out in short pieces of markup-free text so that facts about it
 * can be proved.
 */
module DefaultPrompts {
  import opened Wrappers
  import opened Text
  import opened Store
  import LlmRules
  import LlmFields
  import LlmCompose

  // ---------------------------------------------------------------------------
  // The email block shared by every template

  const SubjectSlot: string := "{subject}"
  const FromNameSlot: string := "{from_name}"
  const FromEmailSlot: string := "{from_email}"
  const BodySlot: string := "{body}"

  const EmailHeader: UnmarkedText := "Email:\n"

  /** Markup-free prose without a colon that ends in a space. */
  type SpacedText = s: string | Unmarked(s) && ':' !in s && |s| > 0 && s[|s| - 1] == ' ' witness " "

  /** "Subject: {subject}\nFrom: {from_name} <{from_email}>\nBody: {body}", with the labels the engine looks for. */
  const EmailBlock: string :=
    LlmFields.SubjectLabel + " " + SubjectSlot + "\nFrom: " + FromNameSlot + " <" + FromEmailSlot + ">\nBody: " + BodySlot

  /** The block sits between markup-free prose before and after it. */
  ghost predicate FramesBlock(t: string) {
    exists pre: UnmarkedText, post: UnmarkedText :: t == pre + EmailBlock + post
  }

  // ---------------------------------------------------------------------------
  // Email Categorization

  /** A line "- name: meaning" of an offered list. */
  function OfferLine(name: UnmarkedText, meaning: UnmarkedText): UnmarkedText {
    "- " + name + ": " + meaning + "\n"
  }


  const CategorizationHead: UnmarkedText := CategorizationHead1 + CategorizationHead2 + CategorizationHead3
  const CategorizationHead1: UnmarkedText := "Analyze the following email "
  const CategorizationHead2: UnmarkedText := "and categorize it into one of "
  const CategorizationHead3: UnmarkedText := "these categories:\n"
  const UrgentMeaning: UnmarkedText := "Requires immediate attention"
  const WorkMeaning: UnmarkedText := WorkMeaning1 + WorkMeaning2
  const WorkMeaning1: UnmarkedText := "Work-related tasks and "
  const WorkMeaning2: UnmarkedText := "communications"
  const PersonalMeaning: UnmarkedText := "Personal messages"
  const NewsletterMeaning: UnmarkedText := "Newsletters and subscriptions"
  const SpamMeaning: UnmarkedText := "Unwanted or suspicious emails"
  const FinanceMeaning: UnmarkedText := FinanceMeaning1 + FinanceMeaning2
  const FinanceMeaning1: UnmarkedText := "Bills, invoices, and "
  const FinanceMeaning2: UnmarkedText := "financial matters"
  const SocialMeaning: UnmarkedText := SocialMeaning1 + SocialMeaning2
  const SocialMeaning1: UnmarkedText := "Social invitations and casual "
  const SocialMeaning2: UnmarkedText := "messages"

  /** The lines "- name: meaning" of an offered list, one per name. */
  function OfferList(names: seq<UnmarkedText>, meanings: seq<UnmarkedText>): UnmarkedText
    requires |names| == |meanings|
  {
    if |names| == 0 then [] else OfferLine(names[0], meanings[0]) + OfferList(names[1..], meanings[1..])
  }

  /** Every name of an offered list opens one of its lines. */
  lemma {:induction false} OfferListNames(names: seq<UnmarkedText>, meanings: seq<UnmarkedText>)
    requires |names| == |meanings|
    ensures forall i :: 0 <= i < |names| ==> Contains(OfferList(names, meanings), "- " + names[i] + ": ")
  {
    if |names| > 0 {
      var line := OfferLine(names[0], meanings[0]);
      var rest := OfferList(names[1..], meanings[1..]);
      OfferListNames(names[1..], meanings[1..]);
      ContainsInfix([], "- " + names[0] + ": ", meanings[0] + "\n");
      assert [] + ("- " + names[0] + ": ") + (meanings[0] + "\n") == line;
      ContainsAppend(line, rest, "- " + names[0] + ": ");
      forall i | 1 <= i < |names| ensures Contains(line + rest, "- " + names[i] + ": ") {
        assert names[1..][i - 1] == names[i];
        ContainsAppend(rest, line, "- " + names[i] + ": ");
      }
    }
  }

  /** The categories the categorization template offers, in its order. */
  const OfferedCategories: seq<UnmarkedText> := ["urgent", "work", "personal", "newsletter", "spam", "finance", "social"]
  const CategoryMeanings: seq<UnmarkedText> :=
    [UrgentMeaning, WorkMeaning, PersonalMeaning, NewsletterMeaning, SpamMeaning, FinanceMeaning, SocialMeaning]

  const CategoryList: UnmarkedText := OfferList(OfferedCategories, CategoryMeanings)

  const CategorizationTail: UnmarkedText := CategorizationTail1 + CategorizationTail2
  const CategorizationTail1: UnmarkedText := "\n\nRespond with only the "
  const CategorizationTail2: UnmarkedText := "category name."

  const CategorizationPre: UnmarkedText := CategorizationHead + CategoryList + "\n" + EmailHeader
  const CategorizationTemplate: string := CategorizationPre + EmailBlock + CategorizationTail

  // ---------------------------------------------------------------------------
  // Action Extraction

  const ActionHead: UnmarkedText := ActionHead1 + ActionHead2 + ActionHead3
  const ActionHead1: UnmarkedText := "Analyze the following email "
  const ActionHead2: UnmarkedText := "and extract any actionable "
  const ActionHead3: UnmarkedText := "items or tasks mentioned.\n\n"
  const ActionAsk: UnmarkedText := ActionAsk1 + ActionAsk2 + ActionAsk3 + ActionAsk4
  const ActionAsk1: UnmarkedText := "\n\nList all actionable items "
  const ActionAsk2: UnmarkedText := "in a clear, concise format. "
  const ActionAsk3: UnmarkedText := "If there are no actions, "
  const ActionAsk4: UnmarkedText := "respond with \""

  const ActionPre: UnmarkedText := ActionHead + EmailHeader
  /** The closing request quotes the engine's own sentinel. */
  const ActionTail: UnmarkedText := ActionAsk + LlmCompose.NoActions + "\""
  const ActionTemplate: string := ActionPre + EmailBlock + ActionTail

  // ---------------------------------------------------------------------------
  // Auto Reply Draft

  const ReplyHead: UnmarkedText := ReplyHead1 + ReplyHead2 + ReplyHead3 + ReplyHead4 + ReplyHead5 + ReplyHead6 + ReplyHead7 + ReplyHead8
  const ReplyHead1: SpacedText := "You are an assistant that "
  const ReplyHead2: SpacedText := "writes professional email "
  const ReplyHead3: SpacedText := "replies on behalf of the "
  const ReplyHead4: SpacedText := "user.\n\nWhen drafting the "
  const ReplyHead5: UnmarkedText := "reply:\n- Start with a "
  const ReplyHead6: SpacedText := "friendly greeting that "
  const ReplyHead7: SpacedText := "references the sender's name "
  const ReplyHead8: SpacedText := "(e.g., \"Hi "
  const ReplyRules: UnmarkedText := ReplyRules1 + ReplyRules2 + ReplyRules3 + ReplyRules4 + ReplyRules5 + ReplyRules6 + ReplyRules7 + ReplyRules8 + ReplyRules9 + ReplyRules10 + ReplyRules11 + ReplyRules12 + ReplyRules13 + ReplyRules14 + ReplyRules15 + ReplyRules16
  const ReplyRules1: SpacedText := ",\")\n- Use short paragraphs "
  const ReplyRules2: SpacedText := "(blank line between them) "
  const ReplyRules3: SpacedText := "that acknowledge the original "
  const ReplyRules4: SpacedText := "message, address questions, "
  const ReplyRules5: SpacedText := "and provide next steps\n- "
  const ReplyRules6: SpacedText := "Thank the sender when "
  const ReplyRules7: SpacedText := "appropriate and keep a "
  const ReplyRules8: SpacedText := "professional, helpful tone\n- "
  const ReplyRules9: SpacedText := "End with a professional "
  const ReplyRules10: SpacedText := "closing such as \"Best "
  const ReplyRules11: SpacedText := "regards,\" followed by a "
  const ReplyRules12: SpacedText := "placeholder for the user's "
  const ReplyRules13: SpacedText := "name\n- Never promise to send "
  const ReplyRules14: SpacedText := "emails automatically; the "
  const ReplyRules15: SpacedText := "user will review and send "
  const ReplyRules16: SpacedText := "manually\n\nOriginal "
  const ReplyTail: UnmarkedText := ReplyTail1 + ReplyTail2
  const ReplyTail1: UnmarkedText := "\n\nDraft a reply email body "
  const ReplyTail2: UnmarkedText := "only (no subject line)."

  /** The greeting example holds a "{from_name}" of its own, ahead of the email block. */

  /** A space matches no character of "From:". */
  lemma SpaceForeignToFrom()
    ensures Foreign(' ', LlmFields.FromLabel)
  {
    assert LlmFields.FromLabel == "From:";
  }

  /** Appending colon-free prose after a space keeps text free of "From:". */
  lemma JoinSpaced(acc: string, piece: SpacedText)
    requires !ContainsCi(acc, LlmFields.FromLabel) && |acc| > 0 && acc[|acc| - 1] == ' '
    ensures !ContainsCi(acc + piece, LlmFields.FromLabel)
    ensures |acc + piece| > 0 && (acc + piece)[|acc + piece| - 1] == ' ' && (acc + piece)[0] == acc[0]
  {
    LlmFields.NoColonNoFromLabel(piece);
    SpaceForeignToFrom();
    NoCiJoinAfter(acc, piece, LlmFields.FromLabel);
  }

  /** The "When drafting the reply:" piece holds no "From:" label. */
  lemma ReplyHead5HasNoFromLabel()
    ensures !ContainsCi(ReplyHead5, LlmFields.FromLabel)
  {
    assert ReplyHead5 == "reply" + ":" + "\n- Start with a ";
    LlmFields.NoFromLabelAtColon("reply", "\n- Start with a ");
  }

  /** The reply instructions before the greeting's name hold no "From:" label. */
  lemma ReplyHeadHasNoFromLabel()
    ensures !ContainsCi(ReplyHead, LlmFields.FromLabel) && |ReplyHead| > 0 && ReplyHead[|ReplyHead| - 1] == ' '
  {
    var a := ReplyHead1;
    LlmFields.NoColonNoFromLabel(a);
    JoinSpaced(a, ReplyHead2);
    a := a + ReplyHead2;
    JoinSpaced(a, ReplyHead3);
    a := a + ReplyHead3;
    JoinSpaced(a, ReplyHead4);
    a := a + ReplyHead4;
    ReplyHead5HasNoFromLabel();
    SpaceForeignToFrom();
    NoCiJoinAfter(a, ReplyHead5, LlmFields.FromLabel);
    assert ReplyHead5[|ReplyHead5| - 1] == ' ';
    a := a + ReplyHead5;
    JoinSpaced(a, ReplyHead6);
    a := a + ReplyHead6;
    JoinSpaced(a, ReplyHead7);
    a := a + ReplyHead7;
    JoinSpaced(a, ReplyHead8);
  }

  /** The reply rules after the greeting's name hold no "From:" label; they open with a comma. */
  lemma ReplyRulesHaveNoFromLabel()
    ensures !ContainsCi(ReplyRules, LlmFields.FromLabel)
    ensures |ReplyRules| > 0 && ReplyRules[0] == ',' && ReplyRules[|ReplyRules| - 1] == ' '
  {
    var a := ReplyRules1;
    LlmFields.NoColonNoFromLabel(a);
    assert a[0] == ',';
    JoinSpaced(a, ReplyRules2);
    a := a + ReplyRules2;
    JoinSpaced(a, ReplyRules3);
    a := a + ReplyRules3;
    JoinSpaced(a, ReplyRules4);
    a := a + ReplyRules4;
    JoinSpaced(a, ReplyRules5);
    a := a + ReplyRules5;
    JoinSpaced(a, ReplyRules6);
    a := a + ReplyRules6;
    JoinSpaced(a, ReplyRules7);
    a := a + ReplyRules7;
    JoinSpaced(a, ReplyRules8);
    a := a + ReplyRules8;
    JoinSpaced(a, ReplyRules9);
    a := a + ReplyRules9;
    JoinSpaced(a, ReplyRules10);
    a := a + ReplyRules10;
    JoinSpaced(a, ReplyRules11);
    a := a + ReplyRules11;
    JoinSpaced(a, ReplyRules12);
    a := a + ReplyRules12;
    JoinSpaced(a, ReplyRules13);
    a := a + ReplyRules13;
    JoinSpaced(a, ReplyRules14);
    a := a + ReplyRules14;
    JoinSpaced(a, ReplyRules15);
    a := a + ReplyRules15;
    JoinSpaced(a, ReplyRules16);
  }

  /** "Email:" holds no "From:" label and ends the line. */
  lemma EmailHeaderHasNoFromLabel()
    ensures !ContainsCi(EmailHeader, LlmFields.FromLabel) && |EmailHeader| > 0 && EmailHeader[|EmailHeader| - 1] == '\n'
  {
    assert EmailHeader == "Email" + ":" + "\n";
    LlmFields.NoFromLabelAtColon("Email", "\n");
  }

  const ReplyPre: string := ReplyHead + FromNameSlot + ReplyRules + EmailHeader
  const ReplyTemplate: string := ReplyPre + EmailBlock + ReplyTail

  // ---------------------------------------------------------------------------
  // Email Summary

  const SummaryHead: UnmarkedText := SummaryHead1 + SummaryHead2 + SummaryHead3 + SummaryHead4 + SummaryHead5 + SummaryHead6
  const SummaryHead1: UnmarkedText := "Summarize the following email "
  const SummaryHead2: UnmarkedText := "in 2-3 sentences, "
  const SummaryHead3: UnmarkedText := "highlighting:\n- Main purpose "
  const SummaryHead4: UnmarkedText := "or topic\n- Key points or "
  const SummaryHead5: UnmarkedText := "requests\n- Any deadlines or "
  const SummaryHead6: UnmarkedText := "important dates\n\n"
  const SummaryTail: UnmarkedText := "\n\nProvide a concise summary."

  const SummaryPre: UnmarkedText := SummaryHead + EmailHeader
  const SummaryTemplate: string := SummaryPre + EmailBlock + SummaryTail

  // ---------------------------------------------------------------------------
  // Priority Assessment

  const PriorityHead: UnmarkedText := PriorityHead1 + PriorityHead2 + PriorityHead3
  const PriorityHead1: UnmarkedText := "Analyze the following email "
  const PriorityHead2: UnmarkedText := "and determine its priority "
  const PriorityHead3: UnmarkedText := "level:\n"
  const HighMeaning: UnmarkedText := HighMeaning1 + HighMeaning2
  const HighMeaning1: UnmarkedText := "Urgent, requires immediate "
  const HighMeaning2: UnmarkedText := "attention, has deadlines"
  const MediumMeaning: UnmarkedText := MediumMeaning1 + MediumMeaning2
  const MediumMeaning1: UnmarkedText := "Important but not urgent, "
  const MediumMeaning2: UnmarkedText := "should be addressed soon"
  const LowMeaning: UnmarkedText := LowMeaning1 + LowMeaning2
  const LowMeaning1: UnmarkedText := "Can be handled later, "
  const LowMeaning2: UnmarkedText := "informational only"

  /** The priority levels the priority template offers, in its order. */
  const OfferedPriorities: seq<UnmarkedText> := ["high", "medium", "low"]
  const PriorityMeanings: seq<UnmarkedText> := [HighMeaning, MediumMeaning, LowMeaning]

  const PriorityList: UnmarkedText := OfferList(OfferedPriorities, PriorityMeanings)

  const PriorityTail: UnmarkedText := PriorityTail1 + PriorityTail2 + PriorityTail3
  const PriorityTail1: UnmarkedText := "\n\nRespond with only the "
  const PriorityTail2: UnmarkedText := "priority level (high, medium, "
  const PriorityTail3: UnmarkedText := "or low)."

  const PriorityPre: UnmarkedText := PriorityHead + PriorityList + "\n" + EmailHeader
  const PriorityTemplate: string := PriorityPre + EmailBlock + PriorityTail

  // ---------------------------------------------------------------------------
  // The seeded rows

  const CategorizationKind: string := "categorization"
  const ActionKind: string := "action_extraction"
  const ReplyKind: string := "reply_draft"
  const SummaryKind: string := "summary"
  const PriorityKind: string := "priority"

  /** The five rows of `defaultPrompts`, in order, given the text of each template. */
  function DefaultRows(categorization: string, action: string, reply: string, summary: string, priority: string)
    : seq<PromptTemplate>
  {
    [ PromptTemplate("Email Categorization", "Categorize emails into predefined categories",
        categorization, CategorizationKind),
      PromptTemplate("Action Extraction", "Extract actionable items from emails",
        action, ActionKind),
      PromptTemplate("Auto Reply Draft",
        "Generate a polite, context-aware reply draft that the user can review and edit before sending",
        reply, ReplyKind),
      PromptTemplate("Email Summary", "Create a concise summary of the email",
        summary, SummaryKind),
      PromptTemplate("Priority Assessment", "Assess the priority level of an email",
        priority, PriorityKind) ]
  }

  const Defaults: seq<PromptTemplate> :=
    DefaultRows(CategorizationTemplate, ActionTemplate, ReplyTemplate, SummaryTemplate, PriorityTemplate)

  /** Five rows with pairwise distinct names and pairwise distinct types, whatever the template texts. */
  lemma DefaultRowsDistinct(t0: string, t1: string, t2: string, t3: string, t4: string)
    ensures var ds := DefaultRows(t0, t1, t2, t3, t4);
            |ds| == 5
            && (forall i, j :: 0 <= i < j < |ds| ==> ds[i].name != ds[j].name)
            && (forall i, j :: 0 <= i < j < |ds| ==> ds[i].kind != ds[j].kind)
  {
    var ds := DefaultRows(t0, t1, t2, t3, t4);
    assert ds[0].name[0] == 'E' && ds[1].name[0] == 'A' && ds[2].name[0] == 'A';
    assert ds[3].name[0] == 'E' && ds[4].name[0] == 'P';
    assert |ds[0].name| != |ds[3].name| && |ds[1].name| != |ds[2].name|;
    assert ds[0].kind[0] == 'c' && ds[1].kind[0] == 'a' && ds[2].kind[0] == 'r';
    assert ds[3].kind[0] == 's' && ds[4].kind[0] == 'p';
  }

  /** There are exactly five defaults, with the five types the action routes look up. */
  lemma DefaultsShape()
    ensures |Defaults| == 5
    ensures Defaults[0].kind == "categorization" && Defaults[0].template == CategorizationTemplate
    ensures Defaults[1].kind == "action_extraction" && Defaults[1].template == ActionTemplate
    ensures Defaults[2].kind == "reply_draft" && Defaults[2].template == ReplyTemplate
    ensures Defaults[3].kind == "summary" && Defaults[3].template == SummaryTemplate
    ensures Defaults[4].kind == "priority" && Defaults[4].template == PriorityTemplate
  {
    DefaultRowsShape(CategorizationTemplate, ActionTemplate, ReplyTemplate, SummaryTemplate, PriorityTemplate);
  }

  lemma DefaultRowsShape(t0: string, t1: string, t2: string, t3: string, t4: string)
    ensures var ds := DefaultRows(t0, t1, t2, t3, t4);
            |ds| == 5
            && ds[0].kind == "categorization" && ds[0].template == t0
            && ds[1].kind == "action_extraction" && ds[1].template == t1
            && ds[2].kind == "reply_draft" && ds[2].template == t2
            && ds[3].kind == "summary" && ds[3].template == t3
            && ds[4].kind == "priority" && ds[4].template == t4
  {
  }

  /** The defaults have pairwise distinct names and pairwise distinct types. */
  lemma DefaultsDistinct()
    ensures forall i, j :: 0 <= i < j < |Defaults| ==> Defaults[i].name != Defaults[j].name
    ensures forall i, j :: 0 <= i < j < |Defaults| ==> Defaults[i].kind != Defaults[j].kind
  {
    DefaultRowsDistinct(CategorizationTemplate, ActionTemplate, ReplyTemplate, SummaryTemplate, PriorityTemplate);
  }

  // ---------------------------------------------------------------------------
  // initDefaultPrompts

  /** One turn of the loop: insert `d` when no row has its name. */
  function SeedStep(rows: seq<PromptTemplate>, d: PromptTemplate): seq<PromptTemplate> {
    if CountNamed(rows, d.name) == 0 then rows + [d] else rows
  }

  /** The table after the loop has visited `ds` in order. */
  function Seed(rows: seq<PromptTemplate>, ds: seq<PromptTemplate>): seq<PromptTemplate>
    decreases |ds|
  {
    if |ds| == 0 then rows else SeedStep(Seed(rows, ds[..|ds| - 1]), ds[|ds| - 1])
  }

  /**
   * The loop of initDefaultPrompts over a list of rows: for each row in
   * order, count the rows with its name and insert it when the count is
   * zero. Only `prompts` changes.
   */
  method InsertMissing(db: Database, ds: seq<PromptTemplate>)
    requires db.Valid()
    modifies db
    ensures db.Valid()
    ensures db.prompts == Seed(old(db.prompts), ds)
    ensures db.emails == old(db.emails) && db.chatMessages == old(db.chatMessages)
    ensures db.nextChatId == old(db.nextChatId)
  {
    var i := 0;
    while i < |ds|
      invariant 0 <= i <= |ds|
      invariant db.prompts == Seed(old(db.prompts), ds[..i])
      invariant db.Valid()
      invariant db.emails == old(db.emails) && db.chatMessages == old(db.chatMessages)
      invariant db.nextChatId == old(db.nextChatId)
    {
      var prompt := ds[i];
      var count := CountNamed(db.prompts, prompt.name);
      if count == 0 {
        AppendKeepsNamesDistinct(db.prompts, prompt);
        db.prompts := db.prompts + [prompt];
      }
      assert ds[..i + 1][..i] == ds[..i];
      i := i + 1;
    }
    assert ds[..|ds|] == ds;
  }

  /** initDefaultPrompts: the loop over the five defaults. */
  method InitDefaultPrompts(db: Database)
    requires db.Valid()
    modifies db
    ensures db.Valid()
    ensures db.prompts == Seed(old(db.prompts), Defaults)
    ensures db.emails == old(db.emails) && db.chatMessages == old(db.chatMessages)
    ensures db.nextChatId == old(db.nextChatId)
  {
    InsertMissing(db, Defaults);
  }

  /** Seeding keeps the old table as a prefix, so no row changes or moves, and every row it adds is a default. */
  lemma {:induction false} SeedKeepsRows(rows: seq<PromptTemplate>, ds: seq<PromptTemplate>)
    ensures var r := Seed(rows, ds);
            |rows| <= |r| <= |rows| + |ds| && r[..|rows|] == rows
            && forall k :: |rows| <= k < |r| ==> r[k] in ds
    decreases |ds|
  {
    if |ds| > 0 {
      var init := ds[..|ds| - 1];
      SeedKeepsRows(rows, init);
      var r0 := Seed(rows, init);
      var r := Seed(rows, ds);
      assert forall x :: x in init ==> x in ds;
      if CountNamed(r0, ds[|ds| - 1].name) == 0 {
        assert r == r0 + [ds[|ds| - 1]];
        assert r[..|rows|] == r0[..|rows|];
      }
    }
  }

  /**
   * The count check keeps `name` UNIQUE: seeding a table whose names are
   * distinct leaves them distinct, even when the list offers a name twice.
   */
  lemma {:induction false} SeedKeepsNamesDistinct(rows: seq<PromptTemplate>, ds: seq<PromptTemplate>)
    requires NamesDistinct(rows)
    ensures NamesDistinct(Seed(rows, ds))
    decreases |ds|
  {
    if |ds| > 0 {
      var r0 := Seed(rows, ds[..|ds| - 1]);
      SeedKeepsNamesDistinct(rows, ds[..|ds| - 1]);
      if CountNamed(r0, ds[|ds| - 1].name) == 0 {
        AppendKeepsNamesDistinct(r0, ds[|ds| - 1]);
      }
    }
  }

  /** A default is added only when its name is missing from the table built so far. */
  lemma SeedStepInsertsOnlyMissing(rows: seq<PromptTemplate>, d: PromptTemplate)
    ensures SeedStep(rows, d) != rows <==> forall i :: 0 <= i < |rows| ==> rows[i].name != d.name
    ensures SeedStep(rows, d) != rows ==> SeedStep(rows, d) == rows + [d]
  {
    if CountNamed(rows, d.name) == 0 {
      assert |rows + [d]| != |rows|;
    }
  }

  /** After seeding, every default's name is taken. */
  lemma {:induction false} SeedCoversNames(rows: seq<PromptTemplate>, ds: seq<PromptTemplate>)
    ensures forall d :: d in ds ==> CountNamed(Seed(rows, ds), d.name) > 0
    decreases |ds|
  {
    if |ds| > 0 {
      var init := ds[..|ds| - 1];
      var last := ds[|ds| - 1];
      SeedCoversNames(rows, init);
      var r0 := Seed(rows, init);
      var r := Seed(rows, ds);
      assert r == SeedStep(r0, last);
      assert CountNamed(r, last.name) > 0 by {
        if CountNamed(r0, last.name) == 0 {
          assert r[|r| - 1] == last;
        }
      }
      forall d | d in init ensures CountNamed(r, d.name) > 0 {
        var k :| 0 <= k < |r0| && r0[k].name == d.name;
        assert r[k] == r0[k];
      }
      assert forall d :: d in ds ==> d in init || d == last;
    }
  }

  /** When every name is already taken, seeding inserts nothing. */
  lemma {:induction false} SeedOfCovered(rows: seq<PromptTemplate>, ds: seq<PromptTemplate>)
    requires forall d :: d in ds ==> CountNamed(rows, d.name) > 0
    ensures Seed(rows, ds) == rows
    decreases |ds|
  {
    if |ds| > 0 {
      var init := ds[..|ds| - 1];
      assert forall d :: d in init ==> d in ds;
      SeedOfCovered(rows, init);
      assert ds[|ds| - 1] in ds;
    }
  }

  /** Running the seeding a second time inserts nothing. */
  lemma SeedIdempotent(rows: seq<PromptTemplate>, ds: seq<PromptTemplate>)
    ensures Seed(Seed(rows, ds), ds) == Seed(rows, ds)
  {
    SeedCoversNames(rows, ds);
    SeedOfCovered(Seed(rows, ds), ds);
  }

  /** Seeding an empty table with distinctly named rows stores exactly those rows, in order. */
  lemma SeedEmpty(ds: seq<PromptTemplate>)
    requires forall i, j :: 0 <= i < j < |ds| ==> ds[i].name != ds[j].name
    ensures Seed([], ds) == ds
  {
    SeedEmptyPrefix(ds, |ds|);
    assert ds[..|ds|] == ds;
  }

  lemma {:induction false} SeedEmptyPrefix(ds: seq<PromptTemplate>, n: nat)
    requires n <= |ds|
    requires forall i, j :: 0 <= i < j < |ds| ==> ds[i].name != ds[j].name
    ensures Seed([], ds[..n]) == ds[..n]
  {
    if n > 0 {
      SeedEmptyPrefix(ds, n - 1);
      assert ds[..n][..n - 1] == ds[..n - 1];
      assert CountNamed(ds[..n - 1], ds[n - 1].name) == 0;
      assert ds[..n - 1] + [ds[n - 1]] == ds[..n];
    }
  }

  /** A fresh table gets the five defaults, in order. */
  lemma SeedFreshTable()
    ensures Seed([], Defaults) == Defaults
  {
    DefaultsDistinct();
    SeedEmpty(Defaults);
  }

  // ---------------------------------------------------------------------------
  // What the templates say

  /** A template made of markup-free prose, the email block, and markup-free prose. */
  lemma FramedTemplate(pre: UnmarkedText, post: UnmarkedText)
    ensures FramesBlock(pre + EmailBlock + post)
  {
  }

  /** Every template but the reply draft is markup-free prose around the email block. */
  lemma TemplatesFramed()
    ensures FramesBlock(CategorizationTemplate)
    ensures FramesBlock(ActionTemplate)
    ensures FramesBlock(SummaryTemplate)
    ensures FramesBlock(PriorityTemplate)
  {
    FramedTemplate(CategorizationPre, CategorizationTail);
    FramedTemplate(ActionPre, ActionTail);
    FramedTemplate(SummaryPre, SummaryTail);
    FramedTemplate(PriorityPre, PriorityTail);
  }

  /** Markup-free text, a placeholder, anything: the first occurrence of the placeholder is the one after the text. */
  lemma FirstSlotAfterProse(a: UnmarkedText, slot: string, x: string, y: string, z: string, w: string)
    requires |slot| > 0 && slot[0] == '{'
    ensures Find(a + slot + x + y + z + w, slot) == Some(|a|)
  {
    FindAfterHead(a, slot, x + y + z + w);
    assert a + slot + x + y + z + w == a + slot + (x + y + z + w);
  }

  /** In the reply template "{from_name}" occurs first in the greeting example, ahead of the email block. */
  lemma ReplyGreetingHoldsFirstName()
    ensures Find(ReplyTemplate, FromNameSlot) == Some(|ReplyHead|)
    ensures |ReplyHead| + |FromNameSlot| <= |ReplyPre|
  {
    assert FromNameSlot[0] == '{';
    FirstSlotAfterProse(ReplyHead, FromNameSlot, ReplyRules, EmailHeader, EmailBlock, ReplyTail);
  }

  /** A pattern inside the second of six parts is inside their concatenation. */
  lemma ContainsSecondPart(h: string, l: string, x: string, y: string, z: string, w: string, p: string)
    requires Contains(l, p)
    ensures Contains(h + l + x + y + z + w, p)
  {
    ContainsAppend(l, x + y + z + w, p);
    ContainsAppend(l + (x + y + z + w), h, p);
    assert h + (l + (x + y + z + w)) == h + l + x + y + z + w;
  }

  /** The categorization template offers seven categories, spam and social among them, each on a line "- name: ...". */
  lemma OffersSevenCategories()
    ensures |OfferedCategories| == 7 && "spam" in OfferedCategories && "social" in OfferedCategories
    ensures forall i :: 0 <= i < |OfferedCategories| ==>
              Contains(CategorizationTemplate, "- " + OfferedCategories[i] + ": ")
  {
    assert OfferedCategories[4] == "spam" && OfferedCategories[6] == "social";
    OfferListNames(OfferedCategories, CategoryMeanings);
    forall i | 0 <= i < |OfferedCategories|
      ensures Contains(CategorizationTemplate, "- " + OfferedCategories[i] + ": ")
    {
      ContainsSecondPart(CategorizationHead, CategoryList, "\n", EmailHeader, EmailBlock, CategorizationTail,
        "- " + OfferedCategories[i] + ": ");
    }
  }

  /** The engine's five categories are all offered; the offered ones it never produces are exactly spam and social. */
  lemma EngineCategoriesOffered()
    ensures LlmRules.Categories <= set c | c in OfferedCategories
    ensures (set c | c in OfferedCategories) - LlmRules.Categories == {"spam", "social"}
  {
  }

  /** The priority template offers exactly the engine's three levels, each on a line "- level: ...". */
  lemma OffersEnginePriorities()
    ensures (set p | p in OfferedPriorities) == LlmRules.Priorities
    ensures forall i :: 0 <= i < |OfferedPriorities| ==>
              Contains(PriorityTemplate, "- " + OfferedPriorities[i] + ": ")
  {
    OfferListNames(OfferedPriorities, PriorityMeanings);
    forall i | 0 <= i < |OfferedPriorities|
      ensures Contains(PriorityTemplate, "- " + OfferedPriorities[i] + ": ")
    {
      ContainsSecondPart(PriorityHead, PriorityList, "\n", EmailHeader, EmailBlock, PriorityTail,
        "- " + OfferedPriorities[i] + ": ");
    }
  }

  /** A quoted pattern at the end of the last part. */
  lemma ContainsQuoted(a: string, b: string, c: string, q: string)
    ensures Contains(a + b + (c + q + "\""), q)
  {
    ContainsInfix(a + b + c, q, "\"");
    assert a + b + (c + q + "\"") == a + b + c + q + "\"";
  }

  /** The action template's closing request quotes the engine's "nothing matched" answer. */
  lemma ActionTemplateQuotesSentinel()
    ensures Contains(ActionTemplate, LlmCompose.NoActions)
  {
    ContainsQuoted(ActionPre, EmailBlock, ActionAsk, LlmCompose.NoActions);
  }
}
