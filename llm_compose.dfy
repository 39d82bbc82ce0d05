/**
 * The three composers of the mock engine in backend/src/services/llmService.ts:
 * summarizeEmail, buildReplyForEmail and extractActionsFromEmail. Every
 * sentence they can produce is a named constant.
 */
module LlmCompose {
  import opened Wrappers
  import opened Text
  import opened LlmFields
  import opened LlmRules

  // ---------------------------------------------------------------------------
  // summarizeEmail

  const SumBirthdayWeekend: string := " sent birthday wishes and suggested celebrating this weekend."
  const SumBirthday: string := " sent birthday wishes."
  const SumRegistration: string := " confirmed your registration. They will send schedule and venue details closer to the event date."
  const SumMaintenance: string := " is warning about scheduled maintenance tonight. Systems will be unavailable during the window, so save work and log out beforehand."
  const SumNewLogin: string := " detected a new login to your account from a different device/location. If you don't recognize it, secure the account immediately."
  const SumInvoice: string := " sent an invoice for recent services and requests payment within the stated terms."
  const SumMeeting: string := " is trying to schedule a meeting and is asking for your availability."
  const SumInterviewAvailability: string := " invited you for an interview and is asking for your availability next week."
  const SumInterview: string := " sent an interview invitation. Respond to confirm your interest and availability."
  const SumFeedback: string := " shared materials and needs your review and feedback by the requested deadline."
  const SumJobOffer: string := " sent a job offer. Review the details and respond by the deadline."
  const SumPasswordReset: string := " sent a password reset request. Follow the instructions if you requested it, or ignore if you didn't."
  const SumInvitation: string := " sent an event invitation. RSVP by the deadline if you plan to attend."
  const SumDonation: string := " sent a thank you message for your donation or contribution."
  const SumCollaboration: string := " is requesting a collaboration opportunity and wants to schedule a call."
  const SumDeadline: string := " sent a deadline reminder. Complete and submit the work by the specified deadline."
  const SumWelcome: string := " sent a welcome message with resources to get started on the platform."
  const SumRenewal: string := " sent a subscription renewal notice. Review and update payment method if needed."
  const SumTicketResolved: string := " notified you that your support ticket has been resolved."
  const SumTicket: string := " sent an update about your support ticket."
  const SumFollower: string := " notified you about a new follower on the social platform."
  const SumShipping: string := " notified you that your order has been shipped with tracking information."
  const SumFallbackEnd: string := "\". Review the details and respond as needed."
  const SumFallbackStart: string := " wrote about \""

  function SummarySender(e: ParsedEmail): string {
    OrElse(e.fromName, "the sender")
  }

  function SummarySubject(e: ParsedEmail): string {
    OrElse(e.subject, "the email")
  }

  /** The sentence after the sender's name, chosen by the first rule that holds. */
  function SummaryRest(e: ParsedEmail): (r: string)
    ensures |r| > 0
  {
    var subject := SummarySubject(e);
    var body := BodyText(e);
    var subjectLower := Lower(subject);
    if Birthday(subjectLower, body) then (if Celebration(body) then SumBirthdayWeekend else SumBirthday)
    else if Registration(subjectLower, body) then SumRegistration
    else if Contains(body, "maintenance") then SumMaintenance
    else if Contains(body, "new login") || Contains(body, "secure your account") then SumNewLogin
    else if Contains(body, "invoice") || Contains(body, "payment") then SumInvoice
    else if Contains(body, "meeting") || Contains(body, "available") then SumMeeting
    else if Interview(subjectLower, body) then (if Availability(body) then SumInterviewAvailability else SumInterview)
    else if Contains(body, "feedback") || Contains(body, "review") then SumFeedback
    else if JobOffer(subjectLower, body) then SumJobOffer
    else if Contains(subjectLower, "password reset") || Contains(body, "password reset") then SumPasswordReset
    else if Invitation(subjectLower, body) then SumInvitation
    else if Contains(body, "thank you") && (Contains(body, "donation") || Contains(body, "contribution")) then SumDonation
    else if Contains(body, "collaboration") || Contains(body, "collaborating") then SumCollaboration
    else if Contains(subjectLower, "deadline") || Contains(body, "deadline") || Contains(body, "due tomorrow") then SumDeadline
    else if Contains(subjectLower, "welcome") || Contains(body, "welcome to") then SumWelcome
    else if Renewal(subjectLower, body) then SumRenewal
    else if Contains(subjectLower, "support ticket") || Contains(body, "support ticket") then
      (if Contains(body, "resolved") then SumTicketResolved else SumTicket)
    else if Contains(body, "started following") || Contains(body, "new follower") then SumFollower
    else if Shipping(body) then SumShipping
    else SumFallbackStart + subject + SumFallbackEnd
  }

  /** summarizeEmail: the sender's name, or "the sender", followed by the chosen sentence. */
  function SummarizeEmail(e: ParsedEmail): (r: string)
    ensures |r| > |SummarySender(e)| && r[..|SummarySender(e)|] == SummarySender(e)
  {
    SummarySender(e) + SummaryRest(e)
  }

  /** No rule of the summary table holds. */
  predicate NoSummaryRule(e: ParsedEmail) {
    var body := BodyText(e);
    var subjectLower := Lower(SummarySubject(e));
    !Birthday(subjectLower, body) && !Registration(subjectLower, body)
    && !Contains(body, "maintenance") && !Contains(body, "new login") && !Contains(body, "secure your account")
    && !Contains(body, "invoice") && !Contains(body, "payment") && !Contains(body, "meeting") && !Contains(body, "available")
    && !Interview(subjectLower, body) && !Contains(body, "feedback") && !Contains(body, "review")
    && !JobOffer(subjectLower, body) && !Contains(subjectLower, "password reset") && !Contains(body, "password reset")
    && !Invitation(subjectLower, body)
    && !(Contains(body, "thank you") && (Contains(body, "donation") || Contains(body, "contribution")))
    && !Contains(body, "collaboration") && !Contains(body, "collaborating")
    && !Contains(subjectLower, "deadline") && !Contains(body, "deadline") && !Contains(body, "due tomorrow")
    && !Contains(subjectLower, "welcome") && !Contains(body, "welcome to")
    && !Renewal(subjectLower, body)
    && !Contains(subjectLower, "support ticket") && !Contains(body, "support ticket")
    && !Contains(body, "started following") && !Contains(body, "new follower")
    && !Shipping(body)
  }

  /** With no rule matching, the summary quotes the whole original-case subject: nothing is truncated. */
  lemma SummaryFallback(e: ParsedEmail)
    requires NoSummaryRule(e)
    ensures SummarizeEmail(e) == SummarySender(e) + SumFallbackStart + SummarySubject(e) + SumFallbackEnd
  {
  }

  /** A birthday summary mentions the weekend celebration exactly when the body speaks of one. */
  lemma SummaryBirthdayCelebration(e: ParsedEmail)
    requires Birthday(Lower(SummarySubject(e)), BodyText(e))
    ensures SummarizeEmail(e) == SummarySender(e) + SumBirthdayWeekend <==> Celebration(BodyText(e))
    ensures !Celebration(BodyText(e)) ==> SummarizeEmail(e) == SummarySender(e) + SumBirthday
  {
    var n := SummarySender(e);
    assert |n + SumBirthdayWeekend| != |n + SumBirthday|;
  }

  /** With neither sender nor subject nor body, the defaults fill in. */
  lemma SummaryDefaults()
    ensures SummarizeEmail(ParsedEmail(None, None, None)) == "the sender" + SumFallbackStart + "the email" + SumFallbackEnd
  {
    var e := ParsedEmail(None, None, None);
    NoSummaryRuleForEmpty();
    SummaryFallback(e);
  }

  lemma NoSummaryRuleForEmpty()
    ensures NoSummaryRule(ParsedEmail(None, None, None))
  {
    var e := ParsedEmail(None, None, None);
    assert BodyText(e) == [];
    assert SummarySubject(e) == "the email";
    EmptyHasNoWords();
    TheEmailHasNoSubjectWords();
  }

  /** "the email" is already lower case. */
  lemma TheEmailIsLower()
    ensures Lower("the email") == "the email"
  {
    var t := "the email";
    forall k | 0 <= k < |t| ensures Lower(t)[k] == t[k] {
      assert 'a' <= t[k] <= 'z' || t[k] == ' ';
    }
  }

  /** "the email" contains none of the words the summary table looks for in a subject. */
  lemma TheEmailHasNoSubjectWords()
    ensures var s := Lower("the email");
            !Birthday(s, []) && !Registration(s, []) && !Interview(s, []) && !JobOffer(s, [])
            && !Contains(s, "password reset") && !Invitation(s, []) && !Contains(s, "deadline")
            && !Contains(s, "welcome") && !Renewal(s, []) && !Contains(s, "support ticket")
  {
    TheEmailIsLower();
    EmptyHasNoWords();
    NoSubjectWords("the email");
  }

  /** A subject without the letters b, d, g, p, v, w holds none of the summary table's subject words. */
  lemma NoSubjectWords(s: string)
    requires 'b' !in s && 'd' !in s && 'g' !in s && 'p' !in s && 'v' !in s && 'w' !in s
    ensures !Birthday(s, []) && !Registration(s, []) && !Interview(s, []) && !JobOffer(s, [])
            && !Contains(s, "password reset") && !Invitation(s, []) && !Contains(s, "deadline")
            && !Contains(s, "welcome") && !Renewal(s, []) && !Contains(s, "support ticket")
  {
    EmptyHasNoWords();
    NotContainsMissing(s, "birthday", 'b');
    NotContainsMissing(s, "registration", 'g');
    NotContainsMissing(s, "application", 'p');
    NotContainsMissing(s, "job offer", 'b');
    NotContainsMissing(s, "password reset", 'p');
    NotContainsMissing(s, "invited", 'v');
    NotContainsMissing(s, "deadline", 'd');
    NotContainsMissing(s, "welcome", 'w');
    NotContainsMissing(s, "subscription", 'b');
    NotContainsMissing(s, "support ticket", 'p');
  }

  /** The empty text contains no keyword. */
  lemma EmptyHasNoWords()
    ensures forall w: string :: |w| > 0 ==> !Contains([], w)
  {
  }

  // ---------------------------------------------------------------------------
  // buildReplyForEmail

  /*
   * Each fixed middle sentence is declared as a concatenation of short pieces,
   * each lacking one letter of SendPromise; the verifier settles such
   * membership facts only for short literals. Pieces meet at a character that
   * does not occur in SendPromise.
   */
  type NoWText = s: string | 'w' !in s && 'W' !in s
  type NoDText = s: string | 'd' !in s && 'D' !in s
  type NoHText = s: string | 'h' !in s && 'H' !in s
  type NoLText = s: string | 'l' !in s && 'L' !in s
  type NoSText = s: string | 's' !in s && 'S' !in s
  type NoNText = s: string | 'n' !in s && 'N' !in s

  const ReplyBirthdayWeekend: string := ReplyBirthdayWeekend1 + ReplyBirthdayWeekend2 + ReplyBirthdayWeekend3 + ReplyBirthdayWeekend4
  const ReplyBirthdayWeekend1: NoWText := "Thank you so much for the "
  const ReplyBirthdayWeekend2: NoNText := "birthday wishes! 🎉 I'd love to cele"
  const ReplyBirthdayWeekend3: NoLText := "brate this weekend"
  const ReplyBirthdayWeekend4: NoDText := ". Let me know what works for you!"
  const ReplyBirthday: string := ReplyBirthday1 + ReplyBirthday2 + ReplyBirthday3
  const ReplyBirthday1: NoWText := "Thank you"
  const ReplyBirthday2: NoLText := " so much for the birthday wishes! 🎉 I "
  const ReplyBirthday3: NoWText := "really appreciate you thinking of me."
  const ReplyRegistration: string := ReplyRegistration1 + ReplyRegistration2 + ReplyRegistration3 + ReplyRegistration4
  const ReplyRegistration1: NoWText := "Thank you for the confirmation"
  const ReplyRegistration2: NoHText := "! I'm looking forward to attending"
  const ReplyRegistration3: NoNText := ". I'll await the schedule "
  const ReplyRegistration4: NoWText := "and venue details."
  const ReplyMaintenance: string := ReplyMaintenance1 + ReplyMaintenance2 + ReplyMaintenance3 + ReplyMaintenance4
  const ReplyMaintenance1: NoWText := "Thanks for the heads"
  const ReplyMaintenance2: NoWText := "-up about tonight's maintenance"
  const ReplyMaintenance3: NoDText := ". I'll make sure to save my work"
  const ReplyMaintenance4: NoSText := " and log out before the outage window."
  const ReplyMeeting: string := ReplyMeeting1 + ReplyMeeting2 + ReplyMeeting3
  const ReplyMeeting1: NoWText := "Thanks for reaching out—those meeting"
  const ReplyMeeting2: NoDText := " times work for me. Let me know if"
  const ReplyMeeting3: NoWText := " a different slot is better for you."
  const ReplyInvoice: string := ReplyInvoice1 + ReplyInvoice2 + ReplyInvoice3 + ReplyInvoice4
  const ReplyInvoice1: NoSText := "I received the invoice and will "
  const ReplyInvoice2: NoNText := "review the details"
  const ReplyInvoice3: NoWText := ". Expect confirmation "
  const ReplyInvoice4: NoWText := "once the payment is scheduled."
  const ReplyInterviewAvailability: string := ReplyInterviewAvailability1 + ReplyInterviewAvailability2 + ReplyInterviewAvailability3 + ReplyInterviewAvailability4
  const ReplyInterviewAvailability1: NoWText := "Thank you for the invitation!"
  const ReplyInterviewAvailability2: NoWText := " I'm excited about this opportunity. I"
  const ReplyInterviewAvailability3: NoHText := "'m available next week and will send "
  const ReplyInterviewAvailability4: NoWText := "my preferred time slots shortly."
  const ReplyInterview: string := ReplyInterview1 + ReplyInterview2 + ReplyInterview3
  const ReplyInterview1: NoWText := "Thank you for the invitation"
  const ReplyInterview2: NoWText := ". I'm available and happy to confirm"
  const ReplyInterview3: NoDText := " a time that works best for the team."
  const ReplyFeedback: string := ReplyFeedback1 + ReplyFeedback2 + ReplyFeedback3
  const ReplyFeedback1: NoDText := "I'll review the "
  const ReplyFeedback2: NoWText := "materials and share "
  const ReplyFeedback3: NoWText := "feedback by the requested deadline."
  const ReplyLunch: string := ReplyLunch1 + ReplyLunch2
  const ReplyLunch1: NoWText := "I'd love to join"
  const ReplyLunch2: NoWText := "—count me in! Thanks for including me."
  const ReplyBudget: string := ReplyBudget1 + ReplyBudget2 + ReplyBudget3
  const ReplyBudget1: NoWText := "I'll go"
  const ReplyBudget2: NoWText := " through the budget details and share "
  const ReplyBudget3: NoWText := "my approval or questions shortly."
  const ReplySecurity: string := ReplySecurity1 + ReplySecurity2 + ReplySecurity3
  const ReplySecurity1: NoWText := "Thanks for"
  const ReplySecurity2: NoDText := " the security notice. I'll review the "
  const ReplySecurity3: NoDText := "account activity right away."
  const ReplyJobOffer: string := ReplyJobOffer1 + ReplyJobOffer2 + ReplyJobOffer3 + ReplyJobOffer4
  const ReplyJobOffer1: NoWText := "Thank you for the job offer"
  const ReplyJobOffer2: NoWText := "! I'm excited about this opportunity"
  const ReplyJobOffer3: NoNText := ". I'll review the details "
  const ReplyJobOffer4: NoWText := "and get back to you by the deadline."
  const ReplyPasswordReset: string := ReplyPasswordReset1 + ReplyPasswordReset2 + ReplyPasswordReset3 + ReplyPasswordReset4
  const ReplyPasswordReset1: NoWText := "I received the "
  const ReplyPasswordReset2: NoHText := "password reset request. If I didn't "
  const ReplyPasswordReset3: NoWText := "request this, I'll ignore it. If I did"
  const ReplyPasswordReset4: NoDText := ", I'll follow the instructions."
  const ReplyRsvp: string := ReplyRsvp1 + ReplyRsvp2 + ReplyRsvp3
  const ReplyRsvp1: NoWText := "Thank"
  const ReplyRsvp2: NoWText := " you for the invitation! I'd love to"
  const ReplyRsvp3: NoWText := " attend. I'll RSVP by the deadline."
  const ReplyInvitation: string := ReplyInvitation1 + ReplyInvitation2
  const ReplyInvitation1: NoWText := "Thank you for the invitation"
  const ReplyInvitation2: NoWText := "! I appreciate you including me."
  const ReplyDonation: string := ReplyDonation1 + ReplyDonation2 + ReplyDonation3
  const ReplyDonation1: NoWText := "You'"
  const ReplyDonation2: NoDText := "re very welcome! I'm happy to support "
  const ReplyDonation3: NoDText := "your cause. Keep up the great work!"
  const ReplyCollaboration: string := ReplyCollaboration1 + ReplyCollaboration2 + ReplyCollaboration3 + ReplyCollaboration4
  const ReplyCollaboration1: NoWText := "Thank you for reaching"
  const ReplyCollaboration2: NoWText := " out! I'm interested in learning more "
  const ReplyCollaboration3: NoWText := "about the collaboration opportunity"
  const ReplyCollaboration4: NoWText := ". Let's schedule a call to discuss."
  const ReplyDeadline: string := ReplyDeadline1 + ReplyDeadline2 + ReplyDeadline3
  const ReplyDeadline1: NoWText := "Thanks for the "
  const ReplyDeadline2: NoSText := "reminder. I'm aware of the deadline "
  const ReplyDeadline3: NoHText := "and will make sure to submit on time."
  const ReplyWelcome: string := ReplyWelcome1 + ReplyWelcome2 + ReplyWelcome3
  const ReplyWelcome1: NoWText := "Thank you"
  const ReplyWelcome2: NoSText := " for the warm welcome! I'm excited to"
  const ReplyWelcome3: NoWText := " get started and explore the platform."
  const ReplyRenewal: string := ReplyRenewal1 + ReplyRenewal2 + ReplyRenewal3 + ReplyRenewal4 + ReplyRenewal5
  const ReplyRenewal1: NoWText := "I received the subscription "
  const ReplyRenewal2: NoDText := "renewal notice"
  const ReplyRenewal3: NoNText := ". I'll review the details "
  const ReplyRenewal4: NoWText := "and "
  const ReplyRenewal5: NoWText := "update my payment method if needed."
  const ReplyTicketResolved: string := ReplyTicketResolved1 + ReplyTicketResolved2 + ReplyTicketResolved3
  const ReplyTicketResolved1: NoWText := "Thank you for resolving the issue! I "
  const ReplyTicketResolved2: NoSText := "appreciate your help and will let you "
  const ReplyTicketResolved3: NoLText := "know if I need any further assistance."
  const ReplyTicket: string := ReplyTicket1 + ReplyTicket2 + ReplyTicket3
  const ReplyTicket1: NoWText := "Thank you for your support"
  const ReplyTicket2: NoNText := ". I'll review the ticket details "
  const ReplyTicket3: NoWText := "and respond accordingly."
  const ReplyFollower: string := ReplyFollower1 + ReplyFollower2 + ReplyFollower3
  const ReplyFollower1: NoWText := "Thanks "
  const ReplyFollower2: NoWText := "for the notification. I'll check"
  const ReplyFollower3: NoDText := " out the profile when I have a chance."
  const ReplyShipping: string := ReplyShipping1 + ReplyShipping2 + ReplyShipping3
  const ReplyShipping1: NoWText := "Thank you for the shipping"
  const ReplyShipping2: NoWText := " notification! I'll track the package "
  const ReplyShipping3: NoHText := "and look forward to receiving it."

  const ReplyGreeting: string := "Hi "
  const ReplySignOff: string := "Best regards,"

  function ReplyName(e: ParsedEmail): string {
    OrElse(e.fromName, "there")
  }

  /** The default middle sentence quotes the original-case subject, or "your email". */
  function DefaultMiddle(e: ParsedEmail): string {
    "I appreciate the update about \"" + OrElse(e.subject, "your email") + "\"."
  }

  /** The middle sentence of the reply, chosen by the first rule that holds. */
  function ReplyMiddle(e: ParsedEmail): string {
    var subject := SubjectText(e);
    var body := BodyText(e);
    if Birthday(subject, body) then (if Celebration(body) then ReplyBirthdayWeekend else ReplyBirthday)
    else if Registration(subject, body) then ReplyRegistration
    else if Contains(body, "maintenance") then ReplyMaintenance
    else if Contains(body, "meeting") then ReplyMeeting
    else if Contains(body, "invoice") || Contains(body, "payment") || Contains(body, "billing") then ReplyInvoice
    else if Interview(subject, body) then (if Availability(body) then ReplyInterviewAvailability else ReplyInterview)
    else if Contains(body, "review") || Contains(body, "feedback") then ReplyFeedback
    else if Contains(body, "lunch") || Contains(body, "celebrate") then ReplyLunch
    else if Contains(body, "budget") then ReplyBudget
    else if Contains(body, "security") || Contains(body, "alert") then ReplySecurity
    else if JobOffer(subject, body) then ReplyJobOffer
    else if Contains(subject, "password reset") || Contains(body, "password reset") || Contains(body, "reset your password") then ReplyPasswordReset
    else if Invitation(subject, body) then (if Contains(body, "rsvp") then ReplyRsvp else ReplyInvitation)
    else if Contains(body, "thank you") && (Contains(body, "donation") || Contains(body, "contribution")) then ReplyDonation
    else if Contains(body, "collaboration") || Contains(body, "collaborating") || Contains(body, "collaborate") then ReplyCollaboration
    else if Contains(subject, "deadline") || Contains(body, "deadline") || Contains(body, "due tomorrow") || Contains(body, "due today") then ReplyDeadline
    else if Contains(subject, "welcome") || Contains(body, "welcome to") then ReplyWelcome
    else if Renewal(subject, body) then ReplyRenewal
    else if Contains(subject, "support ticket") || Contains(body, "support ticket") || Contains(body, "ticket #") then
      (if Contains(body, "resolved") || Contains(body, "fixed") then ReplyTicketResolved else ReplyTicket)
    else if Contains(body, "started following") || Contains(body, "new follower") || Contains(subject, "follower") then ReplyFollower
    else if Shipping(body) then ReplyShipping
    else DefaultMiddle(e)
  }

  /** The reply the engine writes: greeting, the chosen middle sentence, sign-off. */
  function ReplyFor(e: ParsedEmail): string {
    ReplyGreeting + ReplyName(e) + ",\n\n" + ReplyMiddle(e) + "\n\n" + ReplySignOff
  }

  /**
   * buildReplyForEmail: `middle` starts as the default sentence and the first
   * branch of the table that holds overwrites it; greeting and sign-off wrap it.
   */
  method BuildReplyForEmail(e: ParsedEmail) returns (r: string)
    ensures r == ReplyFor(e)
  {
    var fromName := OrElse(e.fromName, "there");
    var subject := SubjectText(e);
    var body := BodyText(e);
    var middle := "I appreciate the update about \"" + OrElse(e.subject, "your email") + "\".";
    if Birthday(subject, body) {
      if Celebration(body) {
        middle := ReplyBirthdayWeekend;
      } else {
        middle := ReplyBirthday;
      }
    } else if Registration(subject, body) {
      middle := ReplyRegistration;
    } else if Contains(body, "maintenance") {
      middle := ReplyMaintenance;
    } else if Contains(body, "meeting") {
      middle := ReplyMeeting;
    } else if Contains(body, "invoice") || Contains(body, "payment") || Contains(body, "billing") {
      middle := ReplyInvoice;
    } else if Interview(subject, body) {
      if Availability(body) {
        middle := ReplyInterviewAvailability;
      } else {
        middle := ReplyInterview;
      }
    } else if Contains(body, "review") || Contains(body, "feedback") {
      middle := ReplyFeedback;
    } else if Contains(body, "lunch") || Contains(body, "celebrate") {
      middle := ReplyLunch;
    } else if Contains(body, "budget") {
      middle := ReplyBudget;
    } else if Contains(body, "security") || Contains(body, "alert") {
      middle := ReplySecurity;
    } else if JobOffer(subject, body) {
      middle := ReplyJobOffer;
    } else if Contains(subject, "password reset") || Contains(body, "password reset") || Contains(body, "reset your password") {
      middle := ReplyPasswordReset;
    } else if Invitation(subject, body) {
      if Contains(body, "rsvp") {
        middle := ReplyRsvp;
      } else {
        middle := ReplyInvitation;
      }
    } else if Contains(body, "thank you") && (Contains(body, "donation") || Contains(body, "contribution")) {
      middle := ReplyDonation;
    } else if Contains(body, "collaboration") || Contains(body, "collaborating") || Contains(body, "collaborate") {
      middle := ReplyCollaboration;
    } else if Contains(subject, "deadline") || Contains(body, "deadline") || Contains(body, "due tomorrow") || Contains(body, "due today") {
      middle := ReplyDeadline;
    } else if Contains(subject, "welcome") || Contains(body, "welcome to") {
      middle := ReplyWelcome;
    } else if Renewal(subject, body) {
      middle := ReplyRenewal;
    } else if Contains(subject, "support ticket") || Contains(body, "support ticket") || Contains(body, "ticket #") {
      if Contains(body, "resolved") || Contains(body, "fixed") {
        middle := ReplyTicketResolved;
      } else {
        middle := ReplyTicket;
      }
    } else if Contains(body, "started following") || Contains(body, "new follower") || Contains(subject, "follower") {
      middle := ReplyFollower;
    } else if Shipping(body) {
      middle := ReplyShipping;
    }
    r := "Hi " + fromName + ",\n\n" + middle + "\n\nBest regards,";
  }

  /** Every reply opens with "Hi <name>," and a blank line, and closes with "Best regards,". */
  lemma ReplyShape(e: ParsedEmail)
    ensures var r := ReplyFor(e);
            var head := ReplyGreeting + ReplyName(e) + ",\n\n";
            |r| > |head| + |ReplySignOff| && r[..|head|] == head && r[|r| - |ReplySignOff|..] == ReplySignOff
  {
    var head := ReplyGreeting + ReplyName(e) + ",\n\n";
    var tail := ReplyMiddle(e) + "\n\n" + ReplySignOff;
    var r := ReplyFor(e);
    assert r == head + tail;
    assert r == (head + ReplyMiddle(e) + "\n\n") + ReplySignOff;
  }

  /** Without a sender name the greeting is "Hi there,"; without any rule the reply quotes the subject. */
  lemma ReplyDefaults(e: ParsedEmail)
    ensures (e.fromName.None? || e.fromName.value == []) ==> ReplyName(e) == "there"
    ensures (e.subject.None? || e.subject.value == []) ==> DefaultMiddle(e) == "I appreciate the update about \"your email\"."
    ensures e.subject.Some? && e.subject.value != [] ==> DefaultMiddle(e) == "I appreciate the update about \"" + e.subject.value + "\"."
  {
  }

  // ---------------------------------------------------------------------------
  // The reply never promises to send itself

  /** The phrase a drafted reply must never hold: the engine drafts, the user sends. */
  const SendPromise: string := "I will send this"

  /**
   * No reply the engine composes holds SendPromise, in any letter case,
   * unless the email's own subject or the greeting with the sender's name
   * brings it in: every fixed sentence is free of it, and the pieces meet at
   * characters the phrase does not contain.
   */
  lemma ReplyNoSendPromise(e: ParsedEmail)
    requires e.subject.Some? ==> !ContainsCi(e.subject.value, SendPromise)
    requires e.fromName.Some? ==> !ContainsCi(ReplyGreeting + e.fromName.value, SendPromise)
    ensures !ContainsCi(ReplyFor(e), SendPromise)
  {
    var p := SendPromise;
    NewlineForeign(p);
    var greet := ReplyGreeting + ReplyName(e);
    if e.fromName.None? || e.fromName.value == [] {
      ShortNoPromise(greet);
    }
    var sep := ",\n\n";
    ShortNoPromise(sep);
    ShortNoPromise("\n\n");
    ShortNoPromise(ReplySignOff);
    MiddleNoSendPromise(e);
    var m := ReplyMiddle(e);
    assert Foreign(',', p);
    NoCiJoin(greet, sep, p);
    JoinNoPromise(greet + sep, m);
    JoinNoPromise(greet + sep + m, "\n\n");
    JoinNoPromise(greet + sep + m + "\n\n", ReplySignOff);
  }

  /** Whatever rule chooses it, the middle sentence holds no SendPromise unless the subject it may quote does. */
  lemma MiddleNoSendPromise(e: ParsedEmail)
    requires e.subject.Some? ==> !ContainsCi(e.subject.value, SendPromise)
    ensures !ContainsCi(ReplyMiddle(e), SendPromise)
  {
    DefaultMiddleNoPromise(e);
    BirthdayWeekendNoPromise();
    BirthdayNoPromise();
    RegistrationNoPromise();
    MaintenanceNoPromise();
    MeetingNoPromise();
    InvoiceNoPromise();
    InterviewAvailabilityNoPromise();
    InterviewNoPromise();
    FeedbackNoPromise();
    LunchNoPromise();
    BudgetNoPromise();
    SecurityNoPromise();
    JobOfferNoPromise();
    PasswordResetNoPromise();
    RsvpNoPromise();
    InvitationNoPromise();
    DonationNoPromise();
    CollaborationNoPromise();
    DeadlineNoPromise();
    WelcomeNoPromise();
    RenewalNoPromise();
    TicketResolvedNoPromise();
    TicketNoPromise();
    FollowerNoPromise();
    ShippingNoPromise();
  }

  /** The default sentence quotes the subject between double quotes, which the phrase does not contain. */
  lemma DefaultMiddleNoPromise(e: ParsedEmail)
    requires e.subject.Some? ==> !ContainsCi(e.subject.value, SendPromise)
    ensures !ContainsCi(DefaultMiddle(e), SendPromise)
  {
    var p := SendPromise;
    var open: NoWText := "I appreciate the update about \"";
    var subject := OrElse(e.subject, "your email");
    NoWNoPromise(open);
    ShortNoPromise("your email");
    ShortNoPromise("\".");
    assert Foreign('"', p);
    JoinNoPromise(open, subject);
    JoinNoPromise(open + subject, "\".");
  }

  /** Text shorter than SendPromise cannot hold it. */
  lemma ShortNoPromise(s: string)
    requires |s| < |SendPromise|
    ensures !ContainsCi(s, SendPromise)
  {
  }

  /** Two pieces free of SendPromise, joined where either side has a character foreign to it, stay free of it. */
  lemma JoinNoPromise(a: string, b: string)
    requires !ContainsCi(a, SendPromise) && !ContainsCi(b, SendPromise)
    requires |a| > 0 && |b| > 0 && (Foreign(a[|a| - 1], SendPromise) || Foreign(b[0], SendPromise))
    ensures !ContainsCi(a + b, SendPromise)
  {
    if Foreign(b[0], SendPromise) {
      NoCiJoin(a, b, SendPromise);
    } else {
      NoCiJoinAfter(a, b, SendPromise);
    }
  }

  lemma NoWNoPromise(s: NoWText)
    ensures !ContainsCi(s, SendPromise)
  {
    assert SendPromise[2] == 'w';
    NoCiMissingChar(s, SendPromise, 2);
  }

  lemma NoLNoPromise(s: NoLText)
    ensures !ContainsCi(s, SendPromise)
  {
    assert SendPromise[4] == 'l';
    NoCiMissingChar(s, SendPromise, 4);
  }

  lemma NoSNoPromise(s: NoSText)
    ensures !ContainsCi(s, SendPromise)
  {
    assert SendPromise[7] == 's';
    NoCiMissingChar(s, SendPromise, 7);
  }

  lemma NoNNoPromise(s: NoNText)
    ensures !ContainsCi(s, SendPromise)
  {
    assert SendPromise[9] == 'n';
    NoCiMissingChar(s, SendPromise, 9);
  }

  lemma NoDNoPromise(s: NoDText)
    ensures !ContainsCi(s, SendPromise)
  {
    assert SendPromise[10] == 'd';
    NoCiMissingChar(s, SendPromise, 10);
  }

  lemma NoHNoPromise(s: NoHText)
    ensures !ContainsCi(s, SendPromise)
  {
    assert SendPromise[13] == 'h';
    NoCiMissingChar(s, SendPromise, 13);
  }

  lemma BirthdayWeekendNoPromise()
    ensures !ContainsCi(ReplyBirthdayWeekend, SendPromise)
  {
    NoWNoPromise(ReplyBirthdayWeekend1);
    NoNNoPromise(ReplyBirthdayWeekend2);
    NoLNoPromise(ReplyBirthdayWeekend3);
    NoDNoPromise(ReplyBirthdayWeekend4);
    JoinNoPromise(ReplyBirthdayWeekend1, ReplyBirthdayWeekend2);
    JoinNoPromise(ReplyBirthdayWeekend1 + ReplyBirthdayWeekend2, ReplyBirthdayWeekend3);
    JoinNoPromise(ReplyBirthdayWeekend1 + ReplyBirthdayWeekend2 + ReplyBirthdayWeekend3, ReplyBirthdayWeekend4);
  }

  lemma BirthdayNoPromise()
    ensures !ContainsCi(ReplyBirthday, SendPromise)
  {
    NoWNoPromise(ReplyBirthday1);
    NoLNoPromise(ReplyBirthday2);
    NoWNoPromise(ReplyBirthday3);
    JoinNoPromise(ReplyBirthday1, ReplyBirthday2);
    JoinNoPromise(ReplyBirthday1 + ReplyBirthday2, ReplyBirthday3);
  }

  lemma RegistrationNoPromise()
    ensures !ContainsCi(ReplyRegistration, SendPromise)
  {
    NoWNoPromise(ReplyRegistration1);
    NoHNoPromise(ReplyRegistration2);
    NoNNoPromise(ReplyRegistration3);
    NoWNoPromise(ReplyRegistration4);
    JoinNoPromise(ReplyRegistration1, ReplyRegistration2);
    JoinNoPromise(ReplyRegistration1 + ReplyRegistration2, ReplyRegistration3);
    JoinNoPromise(ReplyRegistration1 + ReplyRegistration2 + ReplyRegistration3, ReplyRegistration4);
  }

  lemma MaintenanceNoPromise()
    ensures !ContainsCi(ReplyMaintenance, SendPromise)
  {
    NoWNoPromise(ReplyMaintenance1);
    NoWNoPromise(ReplyMaintenance2);
    NoDNoPromise(ReplyMaintenance3);
    NoSNoPromise(ReplyMaintenance4);
    JoinNoPromise(ReplyMaintenance1, ReplyMaintenance2);
    JoinNoPromise(ReplyMaintenance1 + ReplyMaintenance2, ReplyMaintenance3);
    JoinNoPromise(ReplyMaintenance1 + ReplyMaintenance2 + ReplyMaintenance3, ReplyMaintenance4);
  }

  lemma MeetingNoPromise()
    ensures !ContainsCi(ReplyMeeting, SendPromise)
  {
    NoWNoPromise(ReplyMeeting1);
    NoDNoPromise(ReplyMeeting2);
    NoWNoPromise(ReplyMeeting3);
    JoinNoPromise(ReplyMeeting1, ReplyMeeting2);
    JoinNoPromise(ReplyMeeting1 + ReplyMeeting2, ReplyMeeting3);
  }

  lemma InvoiceNoPromise()
    ensures !ContainsCi(ReplyInvoice, SendPromise)
  {
    NoSNoPromise(ReplyInvoice1);
    NoNNoPromise(ReplyInvoice2);
    NoWNoPromise(ReplyInvoice3);
    NoWNoPromise(ReplyInvoice4);
    JoinNoPromise(ReplyInvoice1, ReplyInvoice2);
    JoinNoPromise(ReplyInvoice1 + ReplyInvoice2, ReplyInvoice3);
    JoinNoPromise(ReplyInvoice1 + ReplyInvoice2 + ReplyInvoice3, ReplyInvoice4);
  }

  lemma InterviewAvailabilityNoPromise()
    ensures !ContainsCi(ReplyInterviewAvailability, SendPromise)
  {
    NoWNoPromise(ReplyInterviewAvailability1);
    NoWNoPromise(ReplyInterviewAvailability2);
    NoHNoPromise(ReplyInterviewAvailability3);
    NoWNoPromise(ReplyInterviewAvailability4);
    JoinNoPromise(ReplyInterviewAvailability1, ReplyInterviewAvailability2);
    JoinNoPromise(ReplyInterviewAvailability1 + ReplyInterviewAvailability2, ReplyInterviewAvailability3);
    JoinNoPromise(ReplyInterviewAvailability1 + ReplyInterviewAvailability2 + ReplyInterviewAvailability3, ReplyInterviewAvailability4);
  }

  lemma InterviewNoPromise()
    ensures !ContainsCi(ReplyInterview, SendPromise)
  {
    NoWNoPromise(ReplyInterview1);
    NoWNoPromise(ReplyInterview2);
    NoDNoPromise(ReplyInterview3);
    JoinNoPromise(ReplyInterview1, ReplyInterview2);
    JoinNoPromise(ReplyInterview1 + ReplyInterview2, ReplyInterview3);
  }

  lemma FeedbackNoPromise()
    ensures !ContainsCi(ReplyFeedback, SendPromise)
  {
    NoDNoPromise(ReplyFeedback1);
    NoWNoPromise(ReplyFeedback2);
    NoWNoPromise(ReplyFeedback3);
    JoinNoPromise(ReplyFeedback1, ReplyFeedback2);
    JoinNoPromise(ReplyFeedback1 + ReplyFeedback2, ReplyFeedback3);
  }

  lemma LunchNoPromise()
    ensures !ContainsCi(ReplyLunch, SendPromise)
  {
    NoWNoPromise(ReplyLunch1);
    NoWNoPromise(ReplyLunch2);
    JoinNoPromise(ReplyLunch1, ReplyLunch2);
  }

  lemma BudgetNoPromise()
    ensures !ContainsCi(ReplyBudget, SendPromise)
  {
    NoWNoPromise(ReplyBudget1);
    NoWNoPromise(ReplyBudget2);
    NoWNoPromise(ReplyBudget3);
    JoinNoPromise(ReplyBudget1, ReplyBudget2);
    JoinNoPromise(ReplyBudget1 + ReplyBudget2, ReplyBudget3);
  }

  lemma SecurityNoPromise()
    ensures !ContainsCi(ReplySecurity, SendPromise)
  {
    NoWNoPromise(ReplySecurity1);
    NoDNoPromise(ReplySecurity2);
    NoDNoPromise(ReplySecurity3);
    JoinNoPromise(ReplySecurity1, ReplySecurity2);
    JoinNoPromise(ReplySecurity1 + ReplySecurity2, ReplySecurity3);
  }

  lemma JobOfferNoPromise()
    ensures !ContainsCi(ReplyJobOffer, SendPromise)
  {
    NoWNoPromise(ReplyJobOffer1);
    NoWNoPromise(ReplyJobOffer2);
    NoNNoPromise(ReplyJobOffer3);
    NoWNoPromise(ReplyJobOffer4);
    JoinNoPromise(ReplyJobOffer1, ReplyJobOffer2);
    JoinNoPromise(ReplyJobOffer1 + ReplyJobOffer2, ReplyJobOffer3);
    JoinNoPromise(ReplyJobOffer1 + ReplyJobOffer2 + ReplyJobOffer3, ReplyJobOffer4);
  }

  lemma PasswordResetNoPromise()
    ensures !ContainsCi(ReplyPasswordReset, SendPromise)
  {
    NoWNoPromise(ReplyPasswordReset1);
    NoHNoPromise(ReplyPasswordReset2);
    NoWNoPromise(ReplyPasswordReset3);
    NoDNoPromise(ReplyPasswordReset4);
    JoinNoPromise(ReplyPasswordReset1, ReplyPasswordReset2);
    JoinNoPromise(ReplyPasswordReset1 + ReplyPasswordReset2, ReplyPasswordReset3);
    JoinNoPromise(ReplyPasswordReset1 + ReplyPasswordReset2 + ReplyPasswordReset3, ReplyPasswordReset4);
  }

  lemma RsvpNoPromise()
    ensures !ContainsCi(ReplyRsvp, SendPromise)
  {
    NoWNoPromise(ReplyRsvp1);
    NoWNoPromise(ReplyRsvp2);
    NoWNoPromise(ReplyRsvp3);
    JoinNoPromise(ReplyRsvp1, ReplyRsvp2);
    JoinNoPromise(ReplyRsvp1 + ReplyRsvp2, ReplyRsvp3);
  }

  lemma InvitationNoPromise()
    ensures !ContainsCi(ReplyInvitation, SendPromise)
  {
    NoWNoPromise(ReplyInvitation1);
    NoWNoPromise(ReplyInvitation2);
    JoinNoPromise(ReplyInvitation1, ReplyInvitation2);
  }

  lemma DonationNoPromise()
    ensures !ContainsCi(ReplyDonation, SendPromise)
  {
    NoWNoPromise(ReplyDonation1);
    NoDNoPromise(ReplyDonation2);
    NoDNoPromise(ReplyDonation3);
    JoinNoPromise(ReplyDonation1, ReplyDonation2);
    JoinNoPromise(ReplyDonation1 + ReplyDonation2, ReplyDonation3);
  }

  lemma CollaborationNoPromise()
    ensures !ContainsCi(ReplyCollaboration, SendPromise)
  {
    NoWNoPromise(ReplyCollaboration1);
    NoWNoPromise(ReplyCollaboration2);
    NoWNoPromise(ReplyCollaboration3);
    NoWNoPromise(ReplyCollaboration4);
    JoinNoPromise(ReplyCollaboration1, ReplyCollaboration2);
    JoinNoPromise(ReplyCollaboration1 + ReplyCollaboration2, ReplyCollaboration3);
    JoinNoPromise(ReplyCollaboration1 + ReplyCollaboration2 + ReplyCollaboration3, ReplyCollaboration4);
  }

  lemma DeadlineNoPromise()
    ensures !ContainsCi(ReplyDeadline, SendPromise)
  {
    NoWNoPromise(ReplyDeadline1);
    NoSNoPromise(ReplyDeadline2);
    NoHNoPromise(ReplyDeadline3);
    JoinNoPromise(ReplyDeadline1, ReplyDeadline2);
    JoinNoPromise(ReplyDeadline1 + ReplyDeadline2, ReplyDeadline3);
  }

  lemma WelcomeNoPromise()
    ensures !ContainsCi(ReplyWelcome, SendPromise)
  {
    NoWNoPromise(ReplyWelcome1);
    NoSNoPromise(ReplyWelcome2);
    NoWNoPromise(ReplyWelcome3);
    JoinNoPromise(ReplyWelcome1, ReplyWelcome2);
    JoinNoPromise(ReplyWelcome1 + ReplyWelcome2, ReplyWelcome3);
  }

  lemma RenewalNoPromise()
    ensures !ContainsCi(ReplyRenewal, SendPromise)
  {
    NoWNoPromise(ReplyRenewal1);
    NoDNoPromise(ReplyRenewal2);
    NoNNoPromise(ReplyRenewal3);
    NoWNoPromise(ReplyRenewal4);
    NoWNoPromise(ReplyRenewal5);
    JoinNoPromise(ReplyRenewal1, ReplyRenewal2);
    JoinNoPromise(ReplyRenewal1 + ReplyRenewal2, ReplyRenewal3);
    JoinNoPromise(ReplyRenewal1 + ReplyRenewal2 + ReplyRenewal3, ReplyRenewal4);
    JoinNoPromise(ReplyRenewal1 + ReplyRenewal2 + ReplyRenewal3 + ReplyRenewal4, ReplyRenewal5);
  }

  lemma TicketResolvedNoPromise()
    ensures !ContainsCi(ReplyTicketResolved, SendPromise)
  {
    NoWNoPromise(ReplyTicketResolved1);
    NoSNoPromise(ReplyTicketResolved2);
    NoLNoPromise(ReplyTicketResolved3);
    JoinNoPromise(ReplyTicketResolved1, ReplyTicketResolved2);
    JoinNoPromise(ReplyTicketResolved1 + ReplyTicketResolved2, ReplyTicketResolved3);
  }

  lemma TicketNoPromise()
    ensures !ContainsCi(ReplyTicket, SendPromise)
  {
    NoWNoPromise(ReplyTicket1);
    NoNNoPromise(ReplyTicket2);
    NoWNoPromise(ReplyTicket3);
    JoinNoPromise(ReplyTicket1, ReplyTicket2);
    JoinNoPromise(ReplyTicket1 + ReplyTicket2, ReplyTicket3);
  }

  lemma FollowerNoPromise()
    ensures !ContainsCi(ReplyFollower, SendPromise)
  {
    NoWNoPromise(ReplyFollower1);
    NoWNoPromise(ReplyFollower2);
    NoDNoPromise(ReplyFollower3);
    JoinNoPromise(ReplyFollower1, ReplyFollower2);
    JoinNoPromise(ReplyFollower1 + ReplyFollower2, ReplyFollower3);
  }

  lemma ShippingNoPromise()
    ensures !ContainsCi(ReplyShipping, SendPromise)
  {
    NoWNoPromise(ReplyShipping1);
    NoWNoPromise(ReplyShipping2);
    NoHNoPromise(ReplyShipping3);
    JoinNoPromise(ReplyShipping1, ReplyShipping2);
    JoinNoPromise(ReplyShipping1 + ReplyShipping2, ReplyShipping3);
  }

  // ---------------------------------------------------------------------------
  // extractActionsFromEmail

  const ActBirthdayWeekend: string := "Reply with birthday thanks and confirm weekend celebration plans."
  const ActBirthday: string := "Reply with birthday thanks and appreciation."
  const ActRegistration: string := "Optionally acknowledge the registration confirmation. No action required."
  const ActLogOut: string := "Save work and log out before the maintenance window."
  const ActSecureAccount: string := "Secure the account immediately if the login was not you."
  const ActInterviewAvailability: string := "Reply with your availability for the interview next week."
  const ActInterview: string := "Respond to the interview invitation and confirm your interest."
  const ActReview: string := "Review the attached materials and provide feedback by the requested deadline."
  const ActSchedule: string := "Reply with your availability to schedule the meeting/interview."
  const ActInvoice: string := "Process the invoice and arrange payment within the stated terms."
  const ActSurvey: string := "Consider taking the survey to provide feedback."
  const ActLunch: string := "Reply to confirm attendance for the lunch/event."
  const ActJobOffer: string := "Review the job offer details and respond by the deadline with your decision."
  const ActPasswordReset: string := "If you requested the reset, follow the instructions. If not, ignore the email and secure your account."
  const ActRsvp: string := "RSVP to the event by the deadline if you plan to attend."
  const ActInvitation: string := "Optionally acknowledge the invitation."
  const ActCollaboration: string := "Respond to express interest and schedule a call to discuss the collaboration."
  const ActDeadline: string := "Complete and submit the work by the deadline, or request an extension if needed."
  const ActRenewal: string := "Review the renewal details and update payment method if needed before the renewal date."
  const ActTicketResolved: string := "Verify the issue is resolved. Reply if you still experience problems."
  const ActTicket: string := "Review the support ticket and respond with any additional information needed."
  const ActShipping: string := "Track the shipment and prepare to receive the package."
  const NoActions: string := "No actions required."

  /** The action the table picks, if any: the chain of else-ifs picks at most one. */
  function ChosenAction(e: ParsedEmail): Option<string> {
    var body := BodyText(e);
    var subject := SubjectText(e);
    if Birthday(subject, body) then Some(if Celebration(body) then ActBirthdayWeekend else ActBirthday)
    else if Registration(subject, body) then Some(ActRegistration)
    else if Contains(body, "log out") || Contains(body, "save your work") then Some(ActLogOut)
    else if Contains(body, "secure your account") then Some(ActSecureAccount)
    else if Interview(subject, body) then Some(if Availability(body) then ActInterviewAvailability else ActInterview)
    else if Contains(body, "review") || Contains(body, "feedback") then Some(ActReview)
    else if SchedulingRequest(body) then Some(ActSchedule)
    else if Contains(body, "invoice") || Contains(body, "payment") then Some(ActInvoice)
    else if Contains(body, "survey") || Contains(body, "feedback") then Some(ActSurvey)
    else if Contains(body, "lunch") || Contains(body, "join") then Some(ActLunch)
    else if JobOffer(subject, body) then Some(ActJobOffer)
    else if Contains(subject, "password reset") || Contains(body, "password reset") then Some(ActPasswordReset)
    else if Invitation(subject, body) then Some(if Contains(body, "rsvp") then ActRsvp else ActInvitation)
    else if Contains(body, "collaboration") || Contains(body, "collaborating") then Some(ActCollaboration)
    else if Contains(subject, "deadline") || Contains(body, "deadline") || Contains(body, "due tomorrow") || Contains(body, "due today") then Some(ActDeadline)
    else if Renewal(subject, body) then Some(ActRenewal)
    else if Contains(subject, "support ticket") || Contains(body, "support ticket") then
      Some(if Contains(body, "resolved") then ActTicketResolved else ActTicket)
    else if Shipping(body) then Some(ActShipping)
    else None
  }

  predicate SchedulingRequest(body: string) {
    (Contains(body, "schedule") && (Contains(body, "meeting") || Contains(body, "available") || Contains(body, "availability")))
    || (Contains(body, "availability") && (Contains(body, "meeting") || Contains(body, "interview")))
    || (Contains(body, "meeting") && (Contains(body, "schedule") || Contains(body, "available") || Contains(body, "time")))
  }

  /** The `actions` array after the table has run. */
  function ActionItems(e: ParsedEmail): (r: seq<string>)
    ensures |r| <= 1
  {
    match ChosenAction(e)
    case None => []
    case Some(a) => [a]
  }

  /** The lines `${index + 1}. ${action}`. */
  function Numbered(items: seq<string>): (r: seq<string>)
    ensures |r| == |items|
  {
    seq(|items|, i requires 0 <= i < |items| => NatToString(i + 1) + ". " + items[i])
  }

  /** `lines.join('\n')` */
  function JoinLines(lines: seq<string>): string {
    if |lines| == 0 then []
    else if |lines| == 1 then lines[0]
    else JoinLines(lines[..|lines| - 1]) + "\n" + lines[|lines| - 1]
  }

  /** What extractActionsFromEmail returns. */
  function ActionsText(e: ParsedEmail): string {
    var items := ActionItems(e);
    if |items| == 0 then NoActions else JoinLines(Numbered(items))
  }

  /** `actions.map((action, index) => `${index + 1}. ${action}`).join('\n')`, one line at a time. */
  method NumberedList(items: seq<string>) returns (r: string)
    ensures r == JoinLines(Numbered(items))
  {
    var lines := Numbered(items);
    r := [];
    var i := 0;
    while i < |items|
      invariant 0 <= i <= |items|
      invariant r == JoinLines(lines[..i])
    {
      var line := NatToString(i + 1) + ". " + items[i];
      assert lines[..i + 1][..i] == lines[..i];
      if i == 0 {
        r := line;
      } else {
        r := r + "\n" + line;
      }
      i := i + 1;
    }
    assert lines[..|items|] == lines;
  }

  /**
   * extractActionsFromEmail: the table pushes at most one action onto
   * `actions`; an empty list gives the sentinel, otherwise the numbered list.
   */
  method ExtractActionsFromEmail(e: ParsedEmail) returns (r: string)
    ensures r == ActionsText(e)
  {
    var body := BodyText(e);
    var subject := SubjectText(e);
    var actions: seq<string> := [];
    if Birthday(subject, body) {
      if Celebration(body) {
        actions := actions + [ActBirthdayWeekend];
      } else {
        actions := actions + [ActBirthday];
      }
    } else if Registration(subject, body) {
      actions := actions + [ActRegistration];
    } else if Contains(body, "log out") || Contains(body, "save your work") {
      actions := actions + [ActLogOut];
    } else if Contains(body, "secure your account") {
      actions := actions + [ActSecureAccount];
    } else if Interview(subject, body) {
      if Availability(body) {
        actions := actions + [ActInterviewAvailability];
      } else {
        actions := actions + [ActInterview];
      }
    } else if Contains(body, "review") || Contains(body, "feedback") {
      actions := actions + [ActReview];
    } else if SchedulingRequest(body) {
      actions := actions + [ActSchedule];
    } else if Contains(body, "invoice") || Contains(body, "payment") {
      actions := actions + [ActInvoice];
    } else if Contains(body, "survey") || Contains(body, "feedback") {
      actions := actions + [ActSurvey];
    } else if Contains(body, "lunch") || Contains(body, "join") {
      actions := actions + [ActLunch];
    } else if JobOffer(subject, body) {
      actions := actions + [ActJobOffer];
    } else if Contains(subject, "password reset") || Contains(body, "password reset") {
      actions := actions + [ActPasswordReset];
    } else if Invitation(subject, body) {
      if Contains(body, "rsvp") {
        actions := actions + [ActRsvp];
      } else {
        actions := actions + [ActInvitation];
      }
    } else if Contains(body, "collaboration") || Contains(body, "collaborating") {
      actions := actions + [ActCollaboration];
    } else if Contains(subject, "deadline") || Contains(body, "deadline") || Contains(body, "due tomorrow") || Contains(body, "due today") {
      actions := actions + [ActDeadline];
    } else if Renewal(subject, body) {
      actions := actions + [ActRenewal];
    } else if Contains(subject, "support ticket") || Contains(body, "support ticket") {
      if Contains(body, "resolved") {
        actions := actions + [ActTicketResolved];
      } else {
        actions := actions + [ActTicket];
      }
    } else if Shipping(body) {
      actions := actions + [ActShipping];
    }
    assert actions == ActionItems(e);
    if |actions| == 0 {
      return NoActions;
    }
    r := NumberedList(actions);
  }

  /** With one action the list is that action behind "1. ". */
  lemma NumberedSingle(a: string)
    ensures JoinLines(Numbered([a])) == "1. " + a
  {
    assert DigitChar(1) == '1';
    assert NatToString(1) == "1";
    var n := Numbered([a]);
    assert n[0] == NatToString(0 + 1) + ". " + a;
    assert "1" + ". " == "1. ";
    assert n[0] == "1. " + a;
    assert n == ["1. " + a];
  }

  /**
   * The sentinel comes back exactly when no rule matched; otherwise the text
   * is "1. " and the one action, never the sentinel.
   */
  lemma ActionsTextShape(e: ParsedEmail)
    ensures ActionsText(e) == NoActions <==> ChosenAction(e).None?
    ensures ChosenAction(e).Some? ==> ActionsText(e) == "1. " + ChosenAction(e).value
  {
    if ChosenAction(e).Some? {
      var a := ChosenAction(e).value;
      NumberedSingle(a);
      assert ("1. " + a)[0] == '1';
      assert NoActions[0] == 'N';
    }
  }

  /** A registration confirmation still yields an action line, distinct from the sentinel. */
  lemma RegistrationIsNotSentinel(e: ParsedEmail)
    requires !Birthday(SubjectText(e), BodyText(e)) && Registration(SubjectText(e), BodyText(e))
    ensures ActionsText(e) == "1. " + ActRegistration && ActionsText(e) != NoActions
  {
    ActionsTextShape(e);
  }
}
