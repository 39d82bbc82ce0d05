/**
 * The keyword tables of the mock engine in backend/src/services/llmService.ts:
 * determineCategory, determinePriority, summarizeEmail, buildReplyForEmail and
 * extractActionsFromEmail. Each is an ordered if / else-if chain over the
 * lower-cased subject and body, and the first condition that holds decides.
 */
module LlmRules {
  import opened Wrappers
  import opened Text
  import opened LlmFields

  /** `email.body?.toLowerCase() || ''` */
  function BodyText(e: ParsedEmail): string {
    Lower(OrElse(e.body, ""))
  }

  /** `email.subject?.toLowerCase() || ''` */
  function SubjectText(e: ParsedEmail): string {
    Lower(OrElse(e.subject, ""))
  }

  // ---------------------------------------------------------------------------
  // Conditions shared, word for word, by several of the tables

  predicate Birthday(subject: string, body: string) {
    Contains(subject, "birthday") || Contains(body, "birthday") || Contains(body, "happy birthday")
  }

  predicate Celebration(body: string) {
    Contains(body, "celebrate") || Contains(body, "weekend")
  }

  predicate Registration(subject: string, body: string) {
    (Contains(subject, "registration") && (Contains(subject, "confirmation") || Contains(body, "confirmed")))
    || (Contains(body, "registration") && Contains(body, "confirmed"))
  }

  predicate Interview(subject: string, body: string) {
    Contains(body, "interview") || Contains(subject, "application") || Contains(body, "application")
  }

  predicate Availability(body: string) {
    Contains(body, "availability") || Contains(body, "available")
  }

  predicate JobOffer(subject: string, body: string) {
    Contains(subject, "job offer") || Contains(body, "job offer") || Contains(body, "pleased to offer")
  }

  predicate Invitation(subject: string, body: string) {
    Contains(subject, "invited") || Contains(body, "you're invited") || Contains(body, "rsvp")
  }

  predicate Renewal(subject: string, body: string) {
    Contains(subject, "subscription") && (Contains(body, "renew") || Contains(body, "renewal"))
  }

  predicate Shipping(body: string) {
    Contains(body, "order") && (Contains(body, "shipped") || Contains(body, "delivery"))
  }

  // ---------------------------------------------------------------------------
  // determineCategory and determinePriority

  const Categories: set<string> := {"urgent", "finance", "work", "newsletter", "personal"}

  /** determineCategory: the first matching rule's category, "work" when none matches. */
  function DetermineCategory(e: ParsedEmail): (r: string)
    ensures r in Categories
  {
    var body := BodyText(e);
    var subject := SubjectText(e);
    if Contains(body, "urgent") || Contains(body, "maintenance") || Contains(body, "security alert") then "urgent"
    else if Contains(body, "invoice") || Contains(body, "payment") || Contains(body, "billing") then "finance"
    else if Contains(body, "meeting") || Contains(body, "project") || Contains(body, "interview") || Contains(subject, "meeting") then "work"
    else if Contains(body, "newsletter") || Contains(subject, "newsletter") then "newsletter"
    else if Contains(body, "birthday") || Contains(body, "lunch") || Contains(body, "celebrate") || Contains(body, "invited") || Contains(subject, "invited") then "personal"
    else if Contains(subject, "job offer") || Contains(body, "job offer") || Contains(body, "application") || Contains(body, "interview") then "work"
    else if Contains(subject, "password reset") || Contains(body, "password reset") || Contains(body, "security alert") then "urgent"
    else if Shipping(body) then "personal"
    else if Contains(subject, "subscription") || Contains(body, "subscription") then "finance"
    else "work"
  }

  const Priorities: set<string> := {"high", "medium", "low"}

  /** The category words carry no surrounding whitespace, so trimming keeps them. */
  lemma CategoriesTrimmed(c: string)
    requires c in Categories
    ensures Trim(c) == c
  {
    assert c[0] != ' ' && c[|c| - 1] != ' ';
    TrimKeep(c);
  }

  /** So do the priority words. */
  lemma PrioritiesTrimmed(c: string)
    requires c in Priorities
    ensures Trim(c) == c
  {
    TrimKeep(c);
  }

  /** determinePriority: a three-step table over the body alone. */
  function DeterminePriority(e: ParsedEmail): (r: string)
    ensures r in Priorities
  {
    var body := BodyText(e);
    if Contains(body, "urgent") || Contains(body, "immediately") || Contains(body, "critical") || Contains(body, "security") then "high"
    else if Contains(body, "deadline") || Contains(body, "review by") || Contains(body, "approval") then "medium"
    else "low"
  }

  // ---------------------------------------------------------------------------
  // The tables as data: an independent statement of "the first rule that holds wins"

  datatype Field = SubjectField | BodyField

  datatype Cond = Has(field: Field, word: string) | Or(l: Cond, r: Cond) | And(l: Cond, r: Cond)

  predicate Holds(c: Cond, subject: string, body: string) {
    match c
    case Has(f, w) => Contains(if f == SubjectField then subject else body, w)
    case Or(l, r) => Holds(l, subject, body) || Holds(r, subject, body)
    case And(l, r) => Holds(l, subject, body) && Holds(r, subject, body)
  }

  datatype Rule = Rule(cond: Cond, outcome: string)

  /** The label of the first rule that holds, or `fallback`. */
  function FirstMatch(rules: seq<Rule>, subject: string, body: string, fallback: string): (r: string)
    ensures r == fallback || exists i :: 0 <= i < |rules| && r == rules[i].outcome
  {
    if |rules| == 0 then fallback
    else if Holds(rules[0].cond, subject, body) then rules[0].outcome
    else FirstMatch(rules[1..], subject, body, fallback)
  }

  /** First match wins: rule `i` decides exactly when it holds and no earlier rule does. */
  lemma {:induction false} FirstMatchAt(rules: seq<Rule>, subject: string, body: string, fallback: string, i: nat)
    requires i < |rules| && Holds(rules[i].cond, subject, body)
    requires forall j :: 0 <= j < i ==> !Holds(rules[j].cond, subject, body)
    ensures FirstMatch(rules, subject, body, fallback) == rules[i].outcome
  {
    if i > 0 {
      assert !Holds(rules[0].cond, subject, body);
      FirstMatchAt(rules[1..], subject, body, fallback, i - 1);
    }
  }

  lemma {:induction false} FirstMatchNone(rules: seq<Rule>, subject: string, body: string, fallback: string)
    requires forall j :: 0 <= j < |rules| ==> !Holds(rules[j].cond, subject, body)
    ensures FirstMatch(rules, subject, body, fallback) == fallback
  {
    if |rules| > 0 {
      assert !Holds(rules[0].cond, subject, body);
      FirstMatchNone(rules[1..], subject, body, fallback);
    }
  }

  lemma FirstMatchStep(rules: seq<Rule>, k: nat, subject: string, body: string, fallback: string)
    requires k < |rules|
    ensures FirstMatch(rules[k..], subject, body, fallback)
            == if Holds(rules[k].cond, subject, body) then rules[k].outcome
               else FirstMatch(rules[k + 1..], subject, body, fallback)
  {
    assert rules[k..][1..] == rules[k + 1..];
  }

  function B(w: string): Cond { Has(BodyField, w) }
  function S(w: string): Cond { Has(SubjectField, w) }

  const CategoryRules: seq<Rule> := [
    Rule(Or(B("urgent"), Or(B("maintenance"), B("security alert"))), "urgent"),
    Rule(Or(B("invoice"), Or(B("payment"), B("billing"))), "finance"),
    Rule(Or(B("meeting"), Or(B("project"), Or(B("interview"), S("meeting")))), "work"),
    Rule(Or(B("newsletter"), S("newsletter")), "newsletter"),
    Rule(Or(B("birthday"), Or(B("lunch"), Or(B("celebrate"), Or(B("invited"), S("invited"))))), "personal"),
    Rule(Or(S("job offer"), Or(B("job offer"), Or(B("application"), B("interview")))), "work"),
    Rule(Or(S("password reset"), Or(B("password reset"), B("security alert"))), "urgent"),
    Rule(And(B("order"), Or(B("shipped"), B("delivery"))), "personal"),
    Rule(Or(S("subscription"), B("subscription")), "finance")
  ]

  const PriorityRules: seq<Rule> := [
    Rule(Or(B("urgent"), Or(B("immediately"), Or(B("critical"), B("security")))), "high"),
    Rule(Or(B("deadline"), Or(B("review by"), B("approval"))), "medium")
  ]

  /** What each of the category rules tests, spelled out. */
  lemma CategoryRulesFirstHalf(s: string, b: string)
    ensures Holds(CategoryRules[0].cond, s, b) <==> Contains(b, "urgent") || Contains(b, "maintenance") || Contains(b, "security alert")
    ensures Holds(CategoryRules[1].cond, s, b) <==> Contains(b, "invoice") || Contains(b, "payment") || Contains(b, "billing")
    ensures Holds(CategoryRules[2].cond, s, b) <==> Contains(b, "meeting") || Contains(b, "project") || Contains(b, "interview") || Contains(s, "meeting")
    ensures Holds(CategoryRules[3].cond, s, b) <==> Contains(b, "newsletter") || Contains(s, "newsletter")
  {
    assert Holds(CategoryRules[0].cond.r, s, b) <==> Contains(b, "maintenance") || Contains(b, "security alert");
    assert Holds(CategoryRules[1].cond.r, s, b) <==> Contains(b, "payment") || Contains(b, "billing");
    assert Holds(CategoryRules[2].cond.r.r, s, b) <==> Contains(b, "interview") || Contains(s, "meeting");
    assert Holds(CategoryRules[2].cond.r, s, b) <==> Contains(b, "project") || Contains(b, "interview") || Contains(s, "meeting");
  }

  lemma CategoryRulesSecondHalf(s: string, b: string)
    ensures Holds(CategoryRules[4].cond, s, b) <==> Contains(b, "birthday") || Contains(b, "lunch") || Contains(b, "celebrate") || Contains(b, "invited") || Contains(s, "invited")
    ensures Holds(CategoryRules[5].cond, s, b) <==> Contains(s, "job offer") || Contains(b, "job offer") || Contains(b, "application") || Contains(b, "interview")
    ensures Holds(CategoryRules[6].cond, s, b) <==> Contains(s, "password reset") || Contains(b, "password reset") || Contains(b, "security alert")
    ensures Holds(CategoryRules[7].cond, s, b) <==> Shipping(b)
    ensures Holds(CategoryRules[8].cond, s, b) <==> Contains(s, "subscription") || Contains(b, "subscription")
  {
    assert Holds(CategoryRules[4].cond.r.r.r, s, b) <==> Contains(b, "invited") || Contains(s, "invited");
    assert Holds(CategoryRules[4].cond.r.r, s, b) <==> Contains(b, "celebrate") || Contains(b, "invited") || Contains(s, "invited");
    assert Holds(CategoryRules[4].cond.r, s, b) <==> Contains(b, "lunch") || Contains(b, "celebrate") || Contains(b, "invited") || Contains(s, "invited");
    assert Holds(CategoryRules[5].cond.r.r, s, b) <==> Contains(b, "application") || Contains(b, "interview");
    assert Holds(CategoryRules[5].cond.r, s, b) <==> Contains(b, "job offer") || Contains(b, "application") || Contains(b, "interview");
    assert Holds(CategoryRules[6].cond.r, s, b) <==> Contains(b, "password reset") || Contains(b, "security alert");
    assert Holds(CategoryRules[7].cond.r, s, b) <==> Contains(b, "shipped") || Contains(b, "delivery");
  }

  /** The table from its personal rule on, as the tail of determineCategory's chain. */
  lemma CategoryLowerRules(s: string, b: string)
    ensures FirstMatch(CategoryRules[4..], s, b, "work")
            == if Contains(b, "birthday") || Contains(b, "lunch") || Contains(b, "celebrate") || Contains(b, "invited") || Contains(s, "invited") then "personal"
               else if Contains(s, "job offer") || Contains(b, "job offer") || Contains(b, "application") || Contains(b, "interview") then "work"
               else if Contains(s, "password reset") || Contains(b, "password reset") || Contains(b, "security alert") then "urgent"
               else if Shipping(b) then "personal"
               else if Contains(s, "subscription") || Contains(b, "subscription") then "finance"
               else "work"
  {
    var rs := CategoryRules;
    CategoryRulesSecondHalf(s, b);
    assert rs[9..] == [];
    FirstMatchStep(rs, 8, s, b, "work");
    FirstMatchStep(rs, 7, s, b, "work");
    FirstMatchStep(rs, 6, s, b, "work");
    FirstMatchStep(rs, 5, s, b, "work");
    FirstMatchStep(rs, 4, s, b, "work");
  }

  /** determineCategory is the category table read top to bottom, with "work" as the fallback. */
  lemma CategoryIsFirstMatch(e: ParsedEmail)
    ensures DetermineCategory(e) == FirstMatch(CategoryRules, SubjectText(e), BodyText(e), "work")
  {
    var s, b := SubjectText(e), BodyText(e);
    var rs := CategoryRules;
    CategoryRulesFirstHalf(s, b);
    CategoryLowerRules(s, b);
    FirstMatchStep(rs, 3, s, b, "work");
    FirstMatchStep(rs, 2, s, b, "work");
    FirstMatchStep(rs, 1, s, b, "work");
    FirstMatchStep(rs, 0, s, b, "work");
    assert rs[0..] == rs;
  }

  /** determinePriority is the priority table, with "low" as the fallback. */
  lemma PriorityIsFirstMatch(e: ParsedEmail)
    ensures DeterminePriority(e) == FirstMatch(PriorityRules, SubjectText(e), BodyText(e), "low")
  {
    var s, b := SubjectText(e), BodyText(e);
    var rs := PriorityRules;
    assert rs[1..][1..] == [];
    assert Holds(rs[0].cond.r.r, s, b) <==> Contains(b, "critical") || Contains(b, "security");
    assert Holds(rs[0].cond.r, s, b) <==> Contains(b, "immediately") || Contains(b, "critical") || Contains(b, "security");
    assert Holds(rs[0].cond, s, b) <==> Contains(b, "urgent") || Contains(b, "immediately") || Contains(b, "critical") || Contains(b, "security");
    assert Holds(rs[1].cond.r, s, b) <==> Contains(b, "review by") || Contains(b, "approval");
    assert Holds(rs[1].cond, s, b) <==> Contains(b, "deadline") || Contains(b, "review by") || Contains(b, "approval");
    assert FirstMatch(rs[1..], s, b, "low") == if Holds(rs[1].cond, s, b) then "medium" else "low";
  }

  /** The categorization prompt also offers "spam" and "social"; the engine never answers either. */
  lemma CategoryNeverSpamOrSocial(e: ParsedEmail)
    ensures DetermineCategory(e) != "spam" && DetermineCategory(e) != "social"
  {
  }

  /** An urgent invoice is urgent: the urgent rule comes before the finance rule. */
  lemma UrgentBeforeFinance(e: ParsedEmail)
    requires Contains(BodyText(e), "urgent") && Contains(BodyText(e), "invoice")
    ensures DetermineCategory(e) == "urgent"
  {
    CategoryIsFirstMatch(e);
    FirstMatchAt(CategoryRules, SubjectText(e), BodyText(e), "work", 0);
  }

  /** With no keyword anywhere the category is "work". */
  lemma CategoryFallback(e: ParsedEmail)
    requires forall j :: 0 <= j < |CategoryRules| ==> !Holds(CategoryRules[j].cond, SubjectText(e), BodyText(e))
    ensures DetermineCategory(e) == "work"
  {
    CategoryIsFirstMatch(e);
    FirstMatchNone(CategoryRules, SubjectText(e), BodyText(e), "work");
  }

  /** The priority depends on the body alone. */
  lemma PriorityReadsOnlyBody(e1: ParsedEmail, e2: ParsedEmail)
    requires BodyText(e1) == BodyText(e2)
    ensures DeterminePriority(e1) == DeterminePriority(e2)
  {
  }

  /** "urgent" outranks "review by". */
  lemma UrgentBeforeReviewBy(e: ParsedEmail)
    requires Contains(BodyText(e), "urgent") && Contains(BodyText(e), "review by")
    ensures DeterminePriority(e) == "high"
  {
    PriorityIsFirstMatch(e);
    FirstMatchAt(PriorityRules, SubjectText(e), BodyText(e), "low", 0);
  }
}
