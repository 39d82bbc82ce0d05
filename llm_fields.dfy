/**
 * The regular expressions the mock engine in backend/src/services/llmService.ts
 * runs over a prompt, written out as scanning functions:
 *
 *   /Subject:\s*(.+)/i        /From:\s*([^\n<]+)/i        /Body:\s*([\s\S]+)/i
 *   /User's question:\s*([\s\S]*?)(?:Provide a helpful|$)/i
 *   /\[ACTION:(.+?)\]/i
 *
 * `match` returns the leftmost match; at one start position the greedy `\s*`
 * gives characters back until the capture group can match, so those
 * backtracking steps are part of the model.
 */
module LlmFields {
  import opened Wrappers
  import opened Text

  /** The fields the mock engine recovers from a prompt; each is independently absent. */
  datatype ParsedEmail = ParsedEmail(subject: Option<string>, fromName: Option<string>, body: Option<string>)

  /** JavaScript's `x || d` on an optional string: absent and "" both give `d`. */
  function OrElse(o: Option<string>, d: string): (r: string)
    ensures o.Some? && o.value != [] ==> r == o.value
    ensures (o.None? || o.value == []) ==> r == d
  {
    if o.Some? && o.value != [] then o.value else d
  }

  // ---------------------------------------------------------------------------
  // `label\s*(X+)` with a greedy character class X

  /** The character classes of the three field patterns: `.`, `[^\n<]` and `[\s\S]`. */
  datatype CharClass = NotLineTerminator | NotNewlineOrAngle | AnyChar

  predicate InClass(c: char, cls: CharClass) {
    match cls
    case NotLineTerminator => !IsLineTerminator(c)
    case NotNewlineOrAngle => c != '\n' && c != '<'
    case AnyChar => true
  }

  /** Where the greedy run `X+` that starts at `k` ends. */
  function RunEnd(t: string, k: nat, cls: CharClass): (j: nat)
    requires k <= |t|
    decreases |t| - k
    ensures k <= j <= |t|
    ensures forall i :: k <= i < j ==> InClass(t[i], cls)
    ensures j < |t| ==> !InClass(t[j], cls)
  {
    if k < |t| && InClass(t[k], cls) then RunEnd(t, k + 1, cls) else k
  }

  /**
   * The start of the capture group when `\s*` first matched `t[..e]`: the
   * longest prefix after which the group can take at least one character.
   */
  function GroupStart(t: string, e: nat, cls: CharClass): (r: Option<nat>)
    requires e <= |t|
    decreases e
    ensures r.Some? ==> r.value <= e && r.value < |t| && InClass(t[r.value], cls)
    ensures forall k: nat :: (r.None? || r.value < k) && k <= e && k < |t| ==> !InClass(t[k], cls)
  {
    if e < |t| && InClass(t[e], cls) then Some(e)
    else if e == 0 then None
    else GroupStart(t, e - 1, cls)
  }

  /** `\s*(X+)` matched at the start of `t`: the captured group, if the pattern matches there. */
  function CaptureAfter(t: string, cls: CharClass): (r: Option<string>)
    ensures r.Some? ==> |r.value| > 0 && forall k :: 0 <= k < |r.value| ==> InClass(r.value[k], cls)
    ensures r.Some? <==> GroupStart(t, SkipSpaces(t, 0), cls).Some?
  {
    match GroupStart(t, SkipSpaces(t, 0), cls)
    case None => None
    case Some(k) => Some(t[k..RunEnd(t, k, cls)])
  }

  /**
   * `(.+?)\]` at the start of `t`, with the lazy group holding `t[..k]` so far:
   * the index of the bracket that closes it.
   */
  function TagClose(t: string, k: nat): (r: Option<nat>)
    requires 1 <= k <= |t|
    decreases |t| - k
    ensures r.Some? ==> k <= r.value < |t| && t[r.value] == ']'
    ensures r.Some? ==> forall i :: k <= i < r.value ==> !IsLineTerminator(t[i]) && t[i] != ']'
  {
    if k == |t| then None
    else if t[k] == ']' then Some(k)
    else if IsLineTerminator(t[k]) then None
    else TagClose(t, k + 1)
  }

  /** `(.+?)\]` at the start of `t`: the captured group, if the pattern matches there. */
  function TagGroup(t: string): (r: Option<string>)
    ensures r.Some? ==> |r.value| > 0 && forall i :: 0 <= i < |r.value| ==> !IsLineTerminator(r.value[i])
  {
    if |t| == 0 || IsLineTerminator(t[0]) then None
    else match TagClose(t, 1)
      case None => None
      case Some(k) => Some(t[..k])
  }

  /** What follows a label in the patterns: a greedy `\s*(X+)` or the lazy `(.+?)\]`. */
  datatype Group = Greedy(cls: CharClass) | UpToBracket

  /** Every character a group captures may be captured by it. */
  predicate Admits(g: Group, v: string) {
    match g
    case Greedy(cls) => forall k :: 0 <= k < |v| ==> InClass(v[k], cls)
    case UpToBracket => forall k :: 0 <= k < |v| ==> !IsLineTerminator(v[k])
  }

  function GroupAfter(t: string, g: Group): (r: Option<string>)
    ensures r.Some? ==> |r.value| > 0 && Admits(g, r.value)
  {
    match g
    case Greedy(cls) => CaptureAfter(t, cls)
    case UpToBracket => TagGroup(t)
  }

  /** `s.match(/label<g>/i)?.[1]`, searching from position `p` on. */
  function LabelCaptureFrom(s: string, lbl: string, g: Group, p: nat): (r: Option<string>)
    decreases |s| - p
    ensures r.Some? ==> |r.value| > 0 && Admits(g, r.value)
  {
    if p + |lbl| > |s| then None
    else if CiAt(s, p, lbl) && GroupAfter(s[p + |lbl|..], g).Some? then GroupAfter(s[p + |lbl|..], g)
    else LabelCaptureFrom(s, lbl, g, p + 1)
  }

  function LabelCapture(s: string, lbl: string, g: Group): (r: Option<string>)
    ensures r.Some? ==> |r.value| > 0 && Admits(g, r.value)
    ensures !ContainsCi(s, lbl) ==> r.None?
  {
    LabelCaptureAbsent(s, lbl, g, 0);
    LabelCaptureFrom(s, lbl, g, 0)
  }

  /** Positions before the first label match are skipped. */
  lemma LabelCaptureSkip(s: string, lbl: string, g: Group, i: nat, p: nat)
    requires i <= p && forall k: nat :: i <= k < p ==> !CiAt(s, k, lbl)
    ensures LabelCaptureFrom(s, lbl, g, i) == LabelCaptureFrom(s, lbl, g, p)
    decreases p - i
  {
    if i < p {
      LabelCaptureSkip(s, lbl, g, i + 1, p);
    }
  }

  /** The capture is taken at the first label match whenever the group can match there. */
  lemma LabelCaptureAtFirst(s: string, lbl: string, g: Group, p: nat)
    requires FindCi(s, lbl) == Some(p)
    requires GroupAfter(s[p + |lbl|..], g).Some?
    ensures LabelCapture(s, lbl, g) == GroupAfter(s[p + |lbl|..], g)
  {
    LabelCaptureSkip(s, lbl, g, 0, p);
  }

  /** Without any match of the label there is no capture. */
  lemma LabelCaptureAbsent(s: string, lbl: string, g: Group, i: nat)
    ensures !ContainsCi(s, lbl) ==> LabelCaptureFrom(s, lbl, g, i) == None
    decreases |s| - i
  {
    if i + |lbl| <= |s| {
      LabelCaptureAbsent(s, lbl, g, i + 1);
    }
  }

  /** `[\s\S]+` after `\s*` takes everything from the group start to the end. */
  lemma CaptureAnyIsSuffix(t: string)
    requires |t| > 0
    ensures GroupStart(t, SkipSpaces(t, 0), AnyChar).Some?
    ensures var k := GroupStart(t, SkipSpaces(t, 0), AnyChar).value;
            k <= SkipSpaces(t, 0) && CaptureAfter(t, AnyChar) == Some(t[k..])
  {
    var e := SkipSpaces(t, 0);
    var k := GroupStart(t, e, AnyChar).value;
    assert RunEnd(t, k, AnyChar) == |t|;
    assert CaptureAfter(t, AnyChar) == Some(t[k..RunEnd(t, k, AnyChar)]);
    assert t[k..|t|] == t[k..];
  }

  /** ... and trimming forgets where the group started. */
  lemma CaptureAnyTrim(t: string)
    requires |t| > 0
    ensures CaptureAfter(t, AnyChar).Some? && Trim(CaptureAfter(t, AnyChar).value) == Trim(t)
  {
    CaptureAnyIsSuffix(t);
    var k := GroupStart(t, SkipSpaces(t, 0), AnyChar).value;
    assert SpacesBetween(t, 0, k);
    TrimAfterSpaces(t, k);
  }

  /** A label followed by nothing at all cannot match, whatever the class. */
  lemma CaptureAfterEmpty(cls: CharClass)
    ensures CaptureAfter([], cls) == None
  {
  }

  // ---------------------------------------------------------------------------
  // extractEmailFields

  const SubjectLabel: string := "Subject:"
  const FromLabel: string := "From:"
  const BodyLabel: string := "Body:"

  function TrimOpt(o: Option<string>): (r: Option<string>)
    ensures r.Some? <==> o.Some?
    ensures r.Some? ==> r.value == Trim(o.value)
  {
    match o
    case None => None
    case Some(v) => Some(Trim(v))
  }

  /**
   * extractEmailFields: the trimmed captures of the three field patterns. It
   * never fails; a label that is missing, or that nothing can follow, leaves
   * its field absent.
   */
  function ExtractEmailFields(prompt: string): (r: ParsedEmail)
    ensures r.subject.Some? ==> forall c :: c in r.subject.value ==> !IsLineTerminator(c)
    ensures r.fromName.Some? ==> '\n' !in r.fromName.value && '<' !in r.fromName.value
    ensures !ContainsCi(prompt, SubjectLabel) ==> r.subject.None?
    ensures !ContainsCi(prompt, FromLabel) ==> r.fromName.None?
    ensures !ContainsCi(prompt, BodyLabel) ==> r.body.None?
  {
    var subject := LabelCapture(prompt, SubjectLabel, Greedy(NotLineTerminator));
    var from := LabelCapture(prompt, FromLabel, Greedy(NotNewlineOrAngle));
    var body := LabelCapture(prompt, BodyLabel, Greedy(AnyChar));
    ParsedEmail(TrimOpt(subject), TrimOpt(from), TrimOpt(body))
  }

  /** The body is everything after the first "Body:" label, trimmed; absent only when nothing follows it. */
  lemma BodyIsRestAfterFirstLabel(prompt: string, p: nat)
    requires FindCi(prompt, BodyLabel) == Some(p)
    ensures p + 5 < |prompt| ==> ExtractEmailFields(prompt).body == Some(Trim(prompt[p + 5..]))
    ensures p + 5 == |prompt| ==> ExtractEmailFields(prompt).body == None
  {
    if p + 5 < |prompt| {
      CaptureAnyTrim(prompt[p + 5..]);
      LabelCaptureAtFirst(prompt, BodyLabel, Greedy(AnyChar), p);
    } else {
      LabelCaptureSkip(prompt, BodyLabel, Greedy(AnyChar), 0, p);
      assert prompt[p + 5..] == [];
      CaptureAfterEmpty(AnyChar);
    }
  }

  /**
   * The sender name is the run of characters other than newline and `<` after
   * the first "From:" and its whitespace, trimmed.
   */
  lemma FromNameIsRunAfterFirstLabel(prompt: string, p: nat)
    requires FindCi(prompt, FromLabel) == Some(p)
    requires var t := prompt[p + 5..]; var e := SkipSpaces(t, 0);
             e < |t| && t[e] != '\n' && t[e] != '<'
    ensures var t := prompt[p + 5..]; var e := SkipSpaces(t, 0);
            ExtractEmailFields(prompt).fromName == Some(Trim(t[e..RunEnd(t, e, NotNewlineOrAngle)]))
  {
    LabelCaptureAtFirst(prompt, FromLabel, Greedy(NotNewlineOrAngle), p);
  }

  /** The subject is the rest of the line after the first "Subject:" and its whitespace, trimmed. */
  lemma SubjectIsLineAfterFirstLabel(prompt: string, p: nat)
    requires FindCi(prompt, SubjectLabel) == Some(p)
    requires var t := prompt[p + 8..]; var e := SkipSpaces(t, 0);
             e < |t| && !IsLineTerminator(t[e])
    ensures var t := prompt[p + 8..]; var e := SkipSpaces(t, 0);
            ExtractEmailFields(prompt).subject == Some(Trim(t[e..RunEnd(t, e, NotLineTerminator)]))
  {
    LabelCaptureAtFirst(prompt, SubjectLabel, Greedy(NotLineTerminator), p);
  }

  /** After whitespace alone, `\s*` gives back the last character and the group captures it. */
  lemma CaptureAfterOnlySpaces(w: string, cls: CharClass)
    requires |w| > 0 && AllSpaces(w) && InClass(w[|w| - 1], cls)
    ensures CaptureAfter(w, cls) == Some([w[|w| - 1]])
  {
    SkipSpacesOverSpaces(w, 0, |w|);
    var k := |w| - 1;
    assert GroupStart(w, |w|, cls) == Some(k);
    assert RunEnd(w, k + 1, cls) == k + 1;
    assert w[k..k + 1] == [w[k]];
  }

  /** A label at the very start of the prompt is its first match. */
  lemma FindCiAtStart(lbl: string, w: string)
    ensures FindCi(lbl + w, lbl) == Some(0)
  {
    CiAtInfix([], lbl, w);
    assert [] + lbl + w == lbl + w;
  }

  /**
   * A label followed only by whitespace still matches: `\s*` gives back one
   * character, the group captures it, and trimming leaves the empty string.
   */
  lemma LabelBeforeOnlySpaces(w: string)
    requires |w| > 0 && AllSpaces(w) && forall c :: c in w ==> !IsLineTerminator(c)
    ensures ExtractEmailFields(SubjectLabel + w).subject == Some([])
    ensures ExtractEmailFields(FromLabel + w).fromName == Some([])
  {
    var c := w[|w| - 1];
    assert c in w;
    assert AllSpaces([c]);
    CaptureAfterOnlySpaces(w, NotLineTerminator);
    CaptureAfterOnlySpaces(w, NotNewlineOrAngle);
    FindCiAtStart(SubjectLabel, w);
    FindCiAtStart(FromLabel, w);
    assert (SubjectLabel + w)[8..] == w;
    assert (FromLabel + w)[5..] == w;
    LabelCaptureAtFirst(SubjectLabel + w, SubjectLabel, Greedy(NotLineTerminator), 0);
    LabelCaptureAtFirst(FromLabel + w, FromLabel, Greedy(NotNewlineOrAngle), 0);
  }

  /** Text without a colon holds no "From:" label. */
  lemma NoColonNoFromLabel(s: string)
    requires ':' !in s
    ensures !ContainsCi(s, FromLabel)
  {
    assert FromLabel[4] == ':';
    NoCiMissingChar(s, FromLabel, 4);
  }

  /** A single colon that does not follow an "m" ends no "From:" label. */
  lemma NoFromLabelAtColon(w: string, r: string)
    requires ':' !in w && ':' !in r && |w| > 0 && LowerChar(w[|w| - 1]) != 'm'
    ensures !ContainsCi(w + ":" + r, FromLabel)
  {
    var s := w + ":" + r;
    assert FromLabel[3] == 'm' && FromLabel[4] == ':';
    forall i | 0 <= i <= |s| - |FromLabel| ensures !CiAt(s, i, FromLabel) {
      if i + 4 == |w| {
        assert s[i + 3] == w[|w| - 1];
        CiAtChar(s, i, FromLabel, i + 3);
      } else if i + 4 < |w| {
        assert s[i + 4] == w[i + 4] && w[i + 4] in w;
        CiAtChar(s, i, FromLabel, i + 4);
      } else {
        assert s[i + 4] == r[i + 3 - |w|] && r[i + 3 - |w|] in r;
        CiAtChar(s, i, FromLabel, i + 4);
      }
    }
  }

  /** The run of `[^\n<]` from `k` ends at the first newline or `<`. */
  lemma {:induction false} RunEndAt(t: string, k: nat, m: nat)
    requires k <= m < |t| && !InClass(t[m], NotNewlineOrAngle)
    requires forall i :: k <= i < m ==> InClass(t[i], NotNewlineOrAngle)
    ensures RunEnd(t, k, NotNewlineOrAngle) == m
    decreases m - k
  {
    if k < m {
      RunEndAt(t, k + 1, m);
    }
  }

  /**
   * A "From:" line after label-free text: the sender name is the text between
   * the label's space and the " <" that opens the address.
   */
  lemma FromNameInLine(a: string, n: string, z: string)
    requires !ContainsCi(a, FromLabel)
    requires |n| > 0 && !IsSpace(n[0]) && !IsSpace(n[|n| - 1]) && '\n' !in n && '<' !in n
    ensures ExtractEmailFields(a + "\nFrom: " + n + " <" + z).fromName == Some(n)
  {
    var rest := " " + n + " <" + z;
    FromLineSpelled(a, n, z);
    FromLabelOpensLine(a, rest);
    RestAfterLabel(a, rest);
    NameBeforeAddress(n, z);
    FromNameIsRunAfterFirstLabel(a + "\n" + FromLabel + rest, |a| + 1);
  }

  lemma FromLineSpelled(a: string, n: string, z: string)
    ensures a + "\nFrom: " + n + " <" + z == a + "\n" + FromLabel + (" " + n + " <" + z)
  {
    assert "\nFrom: " == "\n" + FromLabel + " ";
  }

  lemma RestAfterLabel(a: string, rest: string)
    ensures (a + "\n" + FromLabel + rest)[|a| + 1 + 5..] == rest
  {
    assert |FromLabel| == 5;
  }

  /** After label-free text, a "From:" that opens the next line is the first label. */
  lemma FromLabelOpensLine(a: string, rest: string)
    requires !ContainsCi(a, FromLabel)
    ensures FindCi(a + "\n" + FromLabel + rest, FromLabel) == Some(|a| + 1)
  {
    assert FromLabel == "From:";
    NewlineForeign(FromLabel);
    FindCiAfterNewline(a, FromLabel, rest);
  }

  /** The run after " " in " name <address" is the name and the space before `<`. */
  lemma NameBeforeAddress(n: string, z: string)
    requires |n| > 0 && !IsSpace(n[0]) && !IsSpace(n[|n| - 1]) && '\n' !in n && '<' !in n
    ensures var t := " " + n + " <" + z; var e := SkipSpaces(t, 0);
            e < |t| && t[e] != '\n' && t[e] != '<' && Trim(t[e..RunEnd(t, e, NotNewlineOrAngle)]) == n
  {
    var t := " " + n + " <" + z;
    assert t[0] == ' ' && t[1] == n[0];
    assert SkipSpaces(t, 0) == 1;
    assert n[0] in n;
    forall i | 1 <= i < |n| + 2 ensures InClass(t[i], NotNewlineOrAngle) {
      if i <= |n| {
        assert t[i] == n[i - 1] && n[i - 1] in n;
      }
    }
    assert t[|n| + 1] == ' ' && t[|n| + 2] == '<';
    RunEndAt(t, 1, |n| + 2);
    assert t[1..|n| + 2] == n + " ";
    TrimTrailingSpaces(n, " ");
    TrimKeep(n);
  }

  // ---------------------------------------------------------------------------
  // extractUserQuestion

  const QuestionLabel: string := "User's question:"
  const QuestionEnd: string := "Provide a helpful"

  /** `\s*([\s\S]*?)(?:Provide a helpful|$)` at the start of `t`, trimmed. */
  function QuestionAfter(t: string): (r: string)
    ensures r == [] || (!IsSpace(r[0]) && !IsSpace(r[|r| - 1]))
  {
    var e := SkipSpaces(t, 0);
    var j := match FindCiFrom(t, QuestionEnd, e)
      case None => |t|
      case Some(j) => j;
    Trim(t[e..j])
  }

  /**
   * extractUserQuestion: the trimmed text after the first "User's question:"
   * up to the next "Provide a helpful" or the end; "" without the label.
   */
  function ExtractUserQuestion(prompt: string): (r: string)
    ensures r == [] || (!IsSpace(r[0]) && !IsSpace(r[|r| - 1]))
    ensures !ContainsCi(prompt, QuestionLabel) ==> r == []
  {
    match FindCi(prompt, QuestionLabel)
    case None => []
    case Some(p) => QuestionAfter(prompt[p + |QuestionLabel|..])
  }

  /** When the closing phrase first occurs at `j`, past the leading whitespace, the question is `t[..j]` trimmed. */
  lemma QuestionAfterPrefix(t: string, j: nat)
    requires FindCi(t, QuestionEnd) == Some(j) && SkipSpaces(t, 0) <= j
    ensures QuestionAfter(t) == Trim(t[..j])
  {
    var e := SkipSpaces(t, 0);
    FindCiFromBefore(t, QuestionEnd, e, j);
    var u := t[..j];
    assert u[e..] == t[e..j];
    assert SpacesBetween(u, 0, e);
    TrimAfterSpaces(u, e);
  }

  /** The closing phrase after the question is its first occurrence. */
  lemma QuestionEndFirst(m: string, z: string)
    requires !ContainsCi(m, QuestionEnd)
    ensures var t := " " + m + "\n\n" + QuestionEnd + z;
            FindCi(t, QuestionEnd) == Some(|m| + 3) && t[|m| + 3] == 'P'
  {
    var a := " " + m;
    assert QuestionEnd[0] == 'P';
    assert [' '] + m == a;
    NoCiCons(' ', m, QuestionEnd);
    assert '\n' !in QuestionEnd;
    FindCiAfterBlankLine(a, QuestionEnd, z);
  }

  /** The question text runs from after the label's space to the closing sentence, and is trimmed. */
  lemma QuestionAfterRoundTrip(m: string, z: string)
    requires !ContainsCi(m, QuestionEnd)
    ensures QuestionAfter(" " + m + "\n\n" + QuestionEnd + z) == Trim(m)
  {
    var t := " " + m + "\n\n" + QuestionEnd + z;
    var j := |m| + 3;
    QuestionEndFirst(m, z);
    SkipSpacesStops(t, 0, j);
    QuestionAfterPrefix(t, j);
    assert t[..j] == " " + m + "\n\n";
    TrimPadded(m);
  }

  /**
   * Round trip: a prompt that ends with "User's question: " + m and the
   * closing sentence gives back `m`, trimmed, provided nothing before the
   * label looks like it and `m` does not contain the closing phrase.
   */
  lemma ExtractUserQuestionRoundTrip(a: string, m: string, z: string)
    requires !ContainsCi(a, QuestionLabel) && !ContainsCi(m, QuestionEnd)
    ensures ExtractUserQuestion(a + "\n\n" + QuestionLabel + (" " + m + "\n\n" + QuestionEnd + z)) == Trim(m)
  {
    var rest := " " + m + "\n\n" + QuestionEnd + z;
    var s := a + "\n\n" + QuestionLabel + rest;
    assert QuestionLabel == "User's question:";
    FindCiAfterBlankLine(a, QuestionLabel, rest);
    assert s[|a| + 2 + |QuestionLabel|..] == rest;
    QuestionAfterRoundTrip(m, z);
  }

  // ---------------------------------------------------------------------------
  // The forced action: /\[ACTION:(.+?)\]/i

  const ActionLabel: string := "[ACTION:"

  /** `actionMatch?.[1]?.trim().toLowerCase()`, with "" (falsy) as absent. */
  function ForcedAction(prompt: string): (r: Option<string>)
    ensures r.Some? ==> r.value != [] && r.value == Lower(r.value)
    ensures !ContainsCi(prompt, ActionLabel) ==> r.None?
  {
    match LabelCapture(prompt, ActionLabel, UpToBracket)
    case None => None
    case Some(x) =>
      var v := Lower(Trim(x));
      if v == [] then None else Some(v)
  }

  /** The lazy group stops at the first closing bracket. */
  lemma TagCloseAtBracket(w: string, z: string, k: nat)
    requires 1 <= k <= |w| && forall i :: 0 <= i < |w| ==> w[i] != ']' && !IsLineTerminator(w[i])
    ensures TagClose(w + "]" + z, k) == Some(|w|)
    decreases |w| - k
  {
    var t := w + "]" + z;
    if k < |w| {
      assert t[k] == w[k];
      TagCloseAtBracket(w, z, k + 1);
    } else {
      assert t[k] == ']';
    }
  }

  lemma TagGroupOfName(w: string, z: string)
    requires |w| > 0 && forall i :: 0 <= i < |w| ==> w[i] != ']' && !IsLineTerminator(w[i])
    ensures TagGroup(w + "]" + z) == Some(w)
  {
    var t := w + "]" + z;
    assert t[0] == w[0];
    TagCloseAtBracket(w, z, 1);
    assert t[..|w|] == w;
  }

  /**
   * A tag "[ACTION:w]" opening a line after tag-free text is the one the
   * engine obeys: the forced action is `w`, trimmed and lower-cased.
   */
  lemma ForcedActionOfAppendedTag(a: string, w: string, z: string)
    requires !ContainsCi(a, ActionLabel)
    requires |w| > 0 && forall i :: 0 <= i < |w| ==> w[i] != ']' && !IsLineTerminator(w[i])
    ensures var v := Lower(Trim(w));
            ForcedAction(a + "\n\n" + ActionLabel + (w + "]" + z)) == if v == [] then None else Some(v)
  {
    var rest := w + "]" + z;
    var s := a + "\n\n" + ActionLabel + rest;
    assert ActionLabel == "[ACTION:";
    FindCiAfterBlankLine(a, ActionLabel, rest);
    assert s[|a| + 2 + |ActionLabel|..] == rest;
    TagGroupOfName(w, z);
    LabelCaptureAtFirst(s, ActionLabel, UpToBracket, |a| + 2);
  }
}
