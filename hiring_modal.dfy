/**
 * components/HiringModal.tsx: the contact form's submit check (all fields filled, then the
 * e-mail pattern `^[^\s@]+@[^\s@]+\.[^\s@]+$`), the confirmation it shows, and the reset
 * of the form when the modal closes. `alert` becomes the returned alert text and the
 * `onClose` callback a returned count of calls.
 */
module HiringModal {
  import opened Types
  import opened JsText

  const FillAllFieldsAlert: string := "Please fill in all fields."
  const InvalidEmailAlert: string := "Please enter a valid email address."
  const BriefExcerptLength: nat := 50

  // ---------------------------------------------------------------- the e-mail pattern

  /** The class `[^\s@]` */
  predicate EmailChar(c: char) {
    !IsWhitespace(c) && c != '@'
  }

  predicate AllEmailChars(s: string) {
    forall k :: 0 <= k < |s| ==> EmailChar(s[k])
  }

  /**
   * The pattern matches `s` with its `@` at index `at` and its `\.` at index `dot`: three
   * non-empty runs of `[^\s@]` around them, the whole string consumed.
   */
  predicate RegexMatchAt(s: string, at: int, dot: int) {
    && 0 < at && at + 1 < dot && dot + 1 < |s|
    && AllEmailChars(s[..at]) && s[at] == '@'
    && AllEmailChars(s[at + 1..dot]) && s[dot] == '.'
    && AllEmailChars(s[dot + 1..])
  }

  /** `emailRegex.test(s)`, read literally. */
  ghost predicate MatchesEmailRegex(s: string) {
    exists at, dot :: RegexMatchAt(s, at, dot)
  }

  function IndexOf(s: string, c: char): (r: Option<nat>)
    ensures r.Some? ==> r.value < |s| && s[r.value] == c && forall k :: 0 <= k < r.value ==> s[k] != c
    ensures r.None? ==> forall k :: 0 <= k < |s| ==> s[k] != c
  {
    if s == [] then None
    else if s[0] == c then Some(0)
    else match IndexOf(s[1..], c)
      case None => None
      case Some(i) => Some(i + 1)
  }

  /** A `.` that is neither the first nor the last character. */
  predicate HasInnerDot(domain: string) {
    exists k :: 0 < k < |domain| - 1 && domain[k] == '.'
  }

  /**
   * The check as the form runs it: the first `@` splits a non-empty local part from a
   * domain with an inner dot, and neither part holds whitespace or an `@`.
   */
  predicate IsValidEmail(s: string) {
    match IndexOf(s, '@')
    case None => false
    case Some(at) => 0 < at && AllEmailChars(s[..at]) && AllEmailChars(s[at + 1..]) && HasInnerDot(s[at + 1..])
  }

  lemma AllEmailCharsSplit(s: string, i: int, j: int)
    requires 0 <= i < j <= |s|
    requires AllEmailChars(s[i..])
    ensures AllEmailChars(s[i..j]) && AllEmailChars(s[j..])
  {
    forall k | 0 <= k < j - i ensures EmailChar(s[i..j][k]) {
      assert s[i..j][k] == s[i..][k];
    }
    forall k | 0 <= k < |s| - j ensures EmailChar(s[j..][k]) {
      assert s[j..][k] == s[i..][k + j - i];
    }
  }

  lemma AllEmailCharsJoin(s: string, i: int, j: int)
    requires 0 <= i < j < |s|
    requires AllEmailChars(s[i..j]) && EmailChar(s[j]) && AllEmailChars(s[j + 1..])
    ensures AllEmailChars(s[i..])
  {
    forall k | 0 <= k < |s| - i ensures EmailChar(s[i..][k]) {
      if k < j - i {
        assert s[i..][k] == s[i..j][k];
      } else if k > j - i {
        assert s[i..][k] == s[j + 1..][k - (j - i) - 1];
      }
    }
  }

  /** The direct check accepts exactly the strings the pattern matches. */
  lemma EmailCheckIsRegex(s: string)
    ensures IsValidEmail(s) <==> MatchesEmailRegex(s)
  {
    if IsValidEmail(s) {
      var at := IndexOf(s, '@').value;
      var domain := s[at + 1..];
      var k :| 0 < k < |domain| - 1 && domain[k] == '.';
      var dot := at + 1 + k;
      AllEmailCharsSplit(s, at + 1, dot);
      AllEmailCharsSplit(s, dot, dot + 1);
      assert s[dot] == domain[k];
      assert s[dot + 1..] == s[dot..][1..];
      assert RegexMatchAt(s, at, dot);
    }
    if MatchesEmailRegex(s) {
      var at, dot :| RegexMatchAt(s, at, dot);
      forall k | 0 <= k < at ensures s[k] != '@' {
        assert s[..at][k] == s[k];
      }
      assert IndexOf(s, '@') == Some(at);
      AllEmailCharsJoin(s, at + 1, dot);
      assert s[at + 1..][dot - at - 1] == '.';
      assert HasInnerDot(s[at + 1..]);
    }
  }

  function CountChar(s: string, c: char): nat {
    if s == [] then 0 else CountChar(s[..|s| - 1], c) + (if s[|s| - 1] == c then 1 else 0)
  }

  lemma {:induction false} CountCharAppend(a: string, b: string, c: char)
    ensures CountChar(a + b, c) == CountChar(a, c) + CountChar(b, c)
  {
    if b != [] {
      assert (a + b)[..|a + b| - 1] == a + b[..|b| - 1];
      CountCharAppend(a, b[..|b| - 1], c);
    } else {
      assert a + b == a;
    }
  }

  lemma {:induction false} CountCharAbsent(s: string, c: char)
    requires forall k :: 0 <= k < |s| ==> s[k] != c
    ensures CountChar(s, c) == 0
  {
    if s != [] {
      CountCharAbsent(s[..|s| - 1], c);
    }
  }

  /** Every accepted address has exactly one `@` and no whitespace. */
  lemma AcceptedEmailShape(s: string)
    requires MatchesEmailRegex(s)
    ensures CountChar(s, '@') == 1
    ensures forall k :: 0 <= k < |s| ==> !IsWhitespace(s[k])
  {
    var at, dot :| RegexMatchAt(s, at, dot);
    AllEmailCharsJoin(s, at + 1, dot);
    assert s == s[..at] + [s[at]] + s[at + 1..];
    CountCharAppend(s[..at] + [s[at]], s[at + 1..], '@');
    CountCharAppend(s[..at], [s[at]], '@');
    assert forall k :: 0 <= k < at ==> s[..at][k] != '@';
    CountCharAbsent(s[..at], '@');
    var rest := s[at + 1..];
    forall k | 0 <= k < |rest| ensures rest[k] != '@' {
      assert EmailChar(rest[k]);
    }
    CountCharAbsent(rest, '@');
    assert [s[at]][..0] == [];
    forall k | 0 <= k < |s| ensures !IsWhitespace(s[k]) {
      if k < at {
        assert s[k] == s[..at][k];
      } else if k > at {
        assert s[k] == s[at + 1..][k - at - 1];
      }
    }
  }

  // ---------------------------------------------------------------- submission

  /** `projectBrief.substring(0, 50)` */
  function BriefExcerpt(brief: string): (excerpt: string)
    ensures |excerpt| == if |brief| < BriefExcerptLength then |brief| else BriefExcerptLength
    ensures excerpt == brief[..|excerpt|]
  {
    if |brief| < BriefExcerptLength then brief else brief[..BriefExcerptLength]
  }

  /** `professional?.name || 'a professional'` */
  function ProfessionalLabel(professional: Option<Professional>): string {
    if professional.Some? && professional.value.name != "" then professional.value.name else "a professional"
  }

  /** `Project: "<excerpt>..."`, the closing part of the confirmation. */
  function QuotedBrief(projectBrief: string): string {
    "Project: \"" + BriefExcerpt(projectBrief) + "...\""
  }

  /** The confirmation alert: it names the client and ends by quoting the start of the brief. */
  function Confirmation(professional: Option<Professional>, clientName: string, projectBrief: string): (text: string)
    ensures Contains(text, clientName)
    ensures Contains(text, QuotedBrief(projectBrief))
  {
    var head := "Hiring request submitted for " + ProfessionalLabel(professional) + " by ";
    ContainsParts(head, clientName, "! ", QuotedBrief(projectBrief));
    head + clientName + "! " + QuotedBrief(projectBrief)
  }

  lemma ContainsParts(a: string, b: string, c: string, d: string)
    ensures Contains(a + b + c + d, b) && Contains(a + b + c + d, d)
  {
    ContainsIff(a + b + c + d, b);
    assert (a + b + c + d)[|a|..|a| + |b|] == b;
    assert OccursAt(a + b + c + d, b, |a|);
    ContainsSuffix(a + b + c, d);
  }

  datatype Field = ClientName | ClientEmail | ProjectBrief

  /** The form's state; `isOpen` mirrors the prop the parent passes. */
  class HiringForm {
    var isOpen: bool
    var clientName: string
    var clientEmail: string
    var projectBrief: string

    constructor (isOpen: bool)
      ensures this.isOpen == isOpen && clientName == "" && clientEmail == "" && projectBrief == ""
    {
      this.isOpen := isOpen;
      clientName := "";
      clientEmail := "";
      projectBrief := "";
    }

    /** An input's `onChange`. */
    method Edit(field: Field, value: string)
      modifies this`clientName, this`clientEmail, this`projectBrief
      ensures clientName == (if field == ClientName then value else old(clientName))
      ensures clientEmail == (if field == ClientEmail then value else old(clientEmail))
      ensures projectBrief == (if field == ProjectBrief then value else old(projectBrief))
    {
      match field {
        case ClientName => clientName := value;
        case ClientEmail => clientEmail := value;
        case ProjectBrief => projectBrief := value;
      }
    }

    /** A new `isOpen` prop and the effect that follows: closing clears the form. */
    method SetOpen(open: bool)
      modifies this
      ensures isOpen == open
      ensures !open ==> clientName == "" && clientEmail == "" && projectBrief == ""
      ensures open ==> clientName == old(clientName) && clientEmail == old(clientEmail) && projectBrief == old(projectBrief)
    {
      isOpen := open;
      if !open {
        clientName := "";
        clientEmail := "";
        projectBrief := "";
      }
    }

    /**
     * `handleSubmit`: an empty field is refused first (fields are not trimmed), then an
     * address the pattern rejects; otherwise the confirmation is shown and `onClose` is
     * called once. The form's fields are not changed.
     */
    method HandleSubmit(professional: Option<Professional>) returns (alert: string, closeCalls: nat)
      ensures clientName == "" || clientEmail == "" || projectBrief == "" ==>
        alert == FillAllFieldsAlert && closeCalls == 0
      ensures clientName != "" && clientEmail != "" && projectBrief != "" && !MatchesEmailRegex(clientEmail) ==>
        alert == InvalidEmailAlert && closeCalls == 0
      ensures clientName != "" && clientEmail != "" && projectBrief != "" && MatchesEmailRegex(clientEmail) ==>
        alert == Confirmation(professional, clientName, projectBrief) && closeCalls == 1
    {
      closeCalls := 0;
      if clientName == "" || clientEmail == "" || projectBrief == "" {
        alert := FillAllFieldsAlert;
        return;
      }
      EmailCheckIsRegex(clientEmail);
      if !IsValidEmail(clientEmail) {
        alert := InvalidEmailAlert;
        return;
      }
      alert := Confirmation(professional, clientName, projectBrief);
      closeCalls := closeCalls + 1;
    }
  }
}
