/**
 * src/pages/Contact.tsx: the contact form. Four text fields, a validator that
 * maps each failing field to one fixed message, and a submission lifecycle
 * over the state cells `formData`, `errors`, `isSubmitting` and
 * `submitStatus`. The awaited send is an outcome supplied by the caller and
 * the 5-second status reset is an explicit event.
 */
module ContactForm {
  import opened Wrappers
  import opened Strings

  datatype Field = Name | Email | Subject | Message

  const AllFields: set<Field> := {Name, Email, Subject, Message}

  datatype FormData = FormData(name: string, email: string, subject: string, message: string)
  {
    /** The value of one field. */
    function Get(f: Field): string {
      match f
      case Name => name
      case Email => email
      case Subject => subject
      case Message => message
    }

    /** `{ ...formData, [f]: v }`: the field replaced, the other three kept. */
    function With(f: Field, v: string): (d: FormData)
      ensures d.Get(f) == v
      ensures forall g :: g != f ==> d.Get(g) == Get(g)
    {
      match f
      case Name => this.(name := v)
      case Email => this.(email := v)
      case Subject => this.(subject := v)
      case Message => this.(message := v)
    }
  }

  /** The initial form, and the form after a successful send. */
  const EmptyForm := FormData("", "", "", "")

  /** `null | "success" | "error"` */
  datatype SubmitStatus = NoStatus | Sent | SendFailed

  /** How the awaited send settles: the promise resolves or it rejects. */
  datatype Outcome = Resolved | Rejected

  /** The messages the validator can show; `Text` is the string the page displays. */
  datatype Problem =
    | NameRequired | EmailRequired | EmailInvalid
    | SubjectRequired | MessageRequired | MessageTooShort
  {
    function Text(): string {
      match this
      case NameRequired => "Name is required"
      case EmailRequired => "Email is required"
      case EmailInvalid => "Please enter a valid email address"
      case SubjectRequired => "Subject is required"
      case MessageRequired => "Message is required"
      case MessageTooShort => "Message must be at least 10 characters long"
    }
  }

  /** Each rule shows its own text: no two messages read alike. */
  lemma TextsDistinct(p: Problem, q: Problem)
    requires p != q
    ensures p.Text() != q.Text()
  {
    assert SubjectRequired.Text()[0] != MessageRequired.Text()[0];
  }

  /** The least trimmed length of an accepted message. */
  const MinMessageLength := 10

  /**
   * `!s.trim()`: trimming leaves nothing, which is to say the whole string is
   * its leading whitespace (`BlankIffTrimEmpty`).
   */
  predicate IsBlank(s: string) {
    LeadingWhitespace(s) == |s|
  }

  /** The blank test is `!s.trim()` and means that `s` is only whitespace. */
  lemma BlankIffTrimEmpty(s: string)
    ensures IsBlank(s) <==> Trim(s) == []
    ensures IsBlank(s) <==> AllWhitespace(s)
  {
    TrimEmptyIffAllWhitespace(s);
  }

  /** A character that `[^\s@]` accepts. */
  predicate Plain(c: char) {
    !IsWhitespace(c) && c != '@'
  }

  /** `[^\s@]+` */
  predicate PlainRun(s: string) {
    |s| >= 1 && forall i :: 0 <= i < |s| ==> Plain(s[i])
  }

  /**
   * `/^[^\s@]+@[^\s@]+\.[^\s@]+$/`, read as the regular expression it is: the
   * whole string splits into a plain run, '@', a plain run, '.', a plain run.
   */
  ghost predicate MatchesEmailRegex(s: string) {
    exists i, j ::
      && 0 <= i < j < |s|
      && s[i] == '@' && s[j] == '.'
      && PlainRun(s[..i]) && PlainRun(s[i + 1..j]) && PlainRun(s[j + 1..])
  }

  /**
   * The same check written out: no whitespace anywhere, exactly one '@', a
   * non-empty part before it, and a part after it holding a '.' that is
   * neither its first nor its last character.
   */
  predicate IsEmailShape(s: string) {
    && NoWhitespace(s)
    && Count(s, '@') == 1
    && var at := IndexOf(s, '@');
       var domain := s[at + 1..];
       && at > 0
       && |domain| >= 3
       && '.' in domain[1..|domain| - 1]
  }

  /** With a single '@' at `at`, no other position holds '@'. */
  lemma OnlyAt(s: string, at: nat)
    requires at < |s| && s[at] == '@' && Count(s, '@') == 1
    ensures forall m :: 0 <= m < |s| && m != at ==> s[m] != '@'
  {
    forall m | 0 <= m < |s| && m != at
      ensures s[m] != '@'
    {
      if s[m] == '@' {
        if m < at { TwoOccurrences(s, '@', m, at); } else { TwoOccurrences(s, '@', at, m); }
      }
    }
  }

  /** A string split at two positions has the '@'s of its parts. */
  lemma CountAround(s: string, i: nat, j: nat)
    requires i < j < |s|
    ensures Count(s, '@') == Count(s[..i], '@') + Count([s[i]], '@')
      + Count(s[i + 1..j], '@') + Count([s[j]], '@') + Count(s[j + 1..], '@')
  {
    assert s == s[..i] + [s[i]] + s[i + 1..j] + [s[j]] + s[j + 1..];
  }

  lemma EmailShapeFromRegex(s: string, i: nat, j: nat)
    requires 0 <= i < j < |s| && s[i] == '@' && s[j] == '.'
    requires PlainRun(s[..i]) && PlainRun(s[i + 1..j]) && PlainRun(s[j + 1..])
    ensures IsEmailShape(s)
  {
    forall m | 0 <= m < |s|
      ensures !IsWhitespace(s[m])
    {
      if m < i { assert s[m] == s[..i][m]; }
      else if i < m < j { assert s[m] == s[i + 1..j][m - i - 1]; }
      else if j < m { assert s[m] == s[j + 1..][m - j - 1]; }
    }
    CountAround(s, i, j);
    assert '@' !in s[..i] && '@' !in s[i + 1..j] && '@' !in s[j + 1..];
    assert Count([s[i]], '@') == 1 && Count([s[j]], '@') == 0;
    var at := IndexOf(s, '@');
    assert at == i;
    var domain := s[i + 1..];
    assert domain[1..|domain| - 1][j - i - 2] == '.';
  }

  lemma RegexFromEmailShape(s: string)
    requires IsEmailShape(s)
    ensures MatchesEmailRegex(s)
  {
    var i := IndexOf(s, '@');
    var domain := s[i + 1..];
    var k :| 0 <= k < |domain[1..|domain| - 1]| && domain[1..|domain| - 1][k] == '.';
    var j := i + 2 + k;
    assert s[j] == '.';
    OnlyAt(s, i);
    assert PlainRun(s[..i]);
    var host, tld := s[i + 1..j], s[j + 1..];
    assert forall m :: 0 <= m < |host| ==> host[m] == s[i + 1 + m];
    assert forall m :: 0 <= m < |tld| ==> tld[m] == s[j + 1 + m];
  }

  /** The hand-written check accepts exactly the strings the regular expression matches. */
  lemma EmailShapeIffRegex(s: string)
    ensures IsEmailShape(s) <==> MatchesEmailRegex(s)
  {
    if IsEmailShape(s) {
      RegexFromEmailShape(s);
    }
    if MatchesEmailRegex(s) {
      var i, j :| && 0 <= i < j < |s| && s[i] == '@' && s[j] == '.'
        && PlainRun(s[..i]) && PlainRun(s[i + 1..j]) && PlainRun(s[j + 1..]);
      EmailShapeFromRegex(s, i, j);
    }
  }

  /** The email is checked untrimmed: a leading space makes a well-formed address invalid. */
  lemma LeadingSpaceEmailRejected()
    ensures !IsBlank(" a@b.co") && !IsEmailShape(" a@b.co")
  {
    assert !IsWhitespace(" a@b.co"[1]);
    assert Trim(" a@b.co") != [];
  }

  /** An address of the plain `name@host.tld` form is accepted. */
  lemma SimpleEmailAccepted()
    ensures IsEmailShape("a@b.co")
  {
    EmailShapeFromRegex("a@b.co", 1, 3);
  }

  /** The message a field shows, if any; each field gets at most one. */
  function FieldError(d: FormData, f: Field): Option<Problem> {
    match f
    case Name => if IsBlank(d.name) then Some(NameRequired) else None
    case Email =>
      if IsBlank(d.email) then Some(EmailRequired)
      else if !IsEmailShape(d.email) then Some(EmailInvalid)
      else None
    case Subject => if IsBlank(d.subject) then Some(SubjectRequired) else None
    case Message =>
      if IsBlank(d.message) then Some(MessageRequired)
      else if |Trim(d.message)| < MinMessageLength then Some(MessageTooShort)
      else None
  }

  /**
   * `FormErrors`: each field has a message or none. `Keys` is what
   * `Object.keys` lists: the fields that were given a message.
   */
  datatype FormErrors = FormErrors(
    name: Option<Problem>, email: Option<Problem>,
    subject: Option<Problem>, message: Option<Problem>)
  {
    function Get(f: Field): Option<Problem> {
      match f
      case Name => name
      case Email => email
      case Subject => subject
      case Message => message
    }

    function Keys(): (ks: set<Field>)
      ensures forall f :: f in ks <==> Get(f).Some?
      ensures |ks| == 0 <==> this == FormErrors(None, None, None, None)
    {
      var ks := set f | f in AllFields && Get(f).Some?;
      assert name.Some? ==> Name in ks;
      assert email.Some? ==> Email in ks;
      assert subject.Some? ==> Subject in ks;
      assert message.Some? ==> Message in ks;
      ks
    }
  }

  /** `{}` */
  const NoErrors := FormErrors(None, None, None, None)

  /**
   * `newErrors` as `validateForm` leaves it: every field holds the message of
   * the rule it fails, if any. What each entry means is stated by the lemmas
   * below.
   */
  function ValidationErrors(d: FormData): FormErrors {
    FormErrors(FieldError(d, Name), FieldError(d, Email), FieldError(d, Subject), FieldError(d, Message))
  }

  /** A form the site accepts, stated without the validator: every rule in its own terms. */
  ghost predicate Acceptable(d: FormData) {
    && !AllWhitespace(d.name)
    && MatchesEmailRegex(d.email)
    && !AllWhitespace(d.subject)
    && |Trim(d.message)| >= MinMessageLength
  }

  /** Validation passes (no field has a message) exactly for the acceptable forms. */
  lemma NoErrorsIffAcceptable(d: FormData)
    ensures ValidationErrors(d).Keys() == {} <==> Acceptable(d)
  {
    BlankIffTrimEmpty(d.name);
    BlankIffTrimEmpty(d.email);
    BlankIffTrimEmpty(d.subject);
    EmailShapeIffRegex(d.email);
    var errs := ValidationErrors(d);
    if errs.Keys() == {} {
      assert Name !in errs.Keys() && Email !in errs.Keys();
      assert Subject !in errs.Keys() && Message !in errs.Keys();
    }
  }

  /** "Name is required" appears exactly when the name is only whitespace; likewise the subject. */
  lemma NameAndSubjectRequired(d: FormData)
    ensures ValidationErrors(d).name == (if AllWhitespace(d.name) then Some(NameRequired) else None)
    ensures ValidationErrors(d).subject == (if AllWhitespace(d.subject) then Some(SubjectRequired) else None)
  {
    BlankIffTrimEmpty(d.name);
    BlankIffTrimEmpty(d.subject);
  }

  /**
   * A whitespace-only email is "required"; any other is checked untrimmed
   * against the regular expression and is "invalid" when it does not match.
   */
  lemma EmailRules(d: FormData)
    ensures ValidationErrors(d).email == Some(EmailRequired) <==> AllWhitespace(d.email)
    ensures ValidationErrors(d).email == Some(EmailInvalid) <==> !AllWhitespace(d.email) && !MatchesEmailRegex(d.email)
    ensures ValidationErrors(d).email == None <==> MatchesEmailRegex(d.email)
  {
    BlankIffTrimEmpty(d.email);
    EmailShapeIffRegex(d.email);
  }

  /**
   * A whitespace-only message is "required"; otherwise a trimmed length below
   * ten is "too short"; ten or more passes.
   */
  lemma MessageRules(d: FormData)
    ensures ValidationErrors(d).message == Some(MessageRequired) <==> AllWhitespace(d.message)
    ensures ValidationErrors(d).message == Some(MessageTooShort)
        <==> !AllWhitespace(d.message) && |Trim(d.message)| < MinMessageLength
    ensures ValidationErrors(d).message == None <==> |Trim(d.message)| >= MinMessageLength
  {
    BlankIffTrimEmpty(d.message);
  }

  /** Editing one field can change only that field's entry of the errors. */
  lemma ErrorsLocal(d: FormData, f: Field, v: string)
    ensures forall g :: g != f ==> ValidationErrors(d.With(f, v)).Get(g) == ValidationErrors(d).Get(g)
  {
    var e := d.With(f, v);
    forall g | g != f
      ensures ValidationErrors(e).Get(g) == ValidationErrors(d).Get(g)
    {
      assert e.Get(g) == d.Get(g);
      match g
      case Name => assert e.name == d.name;
      case Email => assert e.email == d.email;
      case Subject => assert e.subject == d.subject;
      case Message => assert e.message == d.message;
    }
  }

  /** The state of the page component. */
  class Form {
    var formData: FormData
    var errors: FormErrors
    var isSubmitting: bool
    var submitStatus: SubmitStatus
    /** Status resets scheduled by `setTimeout` and not yet fired. */
    var pendingResets: nat

    /**
     * While a send is awaited no error is shown (it started from a passing
     * validation), and a status is shown only while a reset of it is pending.
     */
    ghost predicate Valid()
      reads this
    {
      && (isSubmitting ==> errors == NoErrors)
      && (submitStatus != NoStatus ==> pendingResets > 0)
    }

    /** The initial `useState` values. */
    constructor ()
      ensures formData == EmptyForm && errors == NoErrors && !isSubmitting
      ensures submitStatus == NoStatus && pendingResets == 0
      ensures Valid()
    {
      formData := EmptyForm;
      errors := NoErrors;
      isSubmitting := false;
      submitStatus := NoStatus;
      pendingResets := 0;
    }

    /**
     * `validateForm`: builds the error map field by field, stores it, and
     * reports whether it is empty. Earlier errors are replaced, not merged.
     */
    method Validate() returns (ok: bool)
      requires Valid() && !isSubmitting
      modifies this
      ensures errors == ValidationErrors(formData)
      ensures ok <==> errors == NoErrors
      ensures formData == old(formData) && isSubmitting == old(isSubmitting)
      ensures submitStatus == old(submitStatus) && pendingResets == old(pendingResets)
      ensures Valid()
    {
      var d := formData;
      var newErrors := NoErrors;
      if IsBlank(d.name) {
        newErrors := newErrors.(name := Some(NameRequired));
      }
      assert newErrors == NoErrors.(name := FieldError(d, Name));
      if IsBlank(d.email) {
        newErrors := newErrors.(email := Some(EmailRequired));
      } else if !IsEmailShape(d.email) {
        newErrors := newErrors.(email := Some(EmailInvalid));
      }
      assert newErrors == NoErrors.(name := FieldError(d, Name), email := FieldError(d, Email));
      if IsBlank(d.subject) {
        newErrors := newErrors.(subject := Some(SubjectRequired));
      }
      assert newErrors == ValidationErrors(d).(message := None);
      if IsBlank(d.message) {
        newErrors := newErrors.(message := Some(MessageRequired));
      } else if |Trim(d.message)| < MinMessageLength {
        newErrors := newErrors.(message := Some(MessageTooShort));
      }
      assert newErrors == ValidationErrors(d);
      errors := newErrors;
      ok := |newErrors.Keys()| == 0;
    }

    /**
     * `handleSubmit` up to the awaited send. While `isSubmitting` the button
     * is disabled and no submit happens. Otherwise the form is validated; on
     * failure only `errors` changes, on success the send starts.
     */
    method Submit() returns (started: bool)
      requires Valid()
      modifies this
      ensures old(isSubmitting) ==> !started && errors == old(errors) && isSubmitting
      ensures !old(isSubmitting) ==> errors == ValidationErrors(old(formData))
      ensures !old(isSubmitting) ==> (started <==> ValidationErrors(old(formData)) == NoErrors)
      ensures !old(isSubmitting) ==> isSubmitting == started
      ensures formData == old(formData) && submitStatus == old(submitStatus)
      ensures pendingResets == old(pendingResets)
      ensures Valid()
    {
      if isSubmitting {
        return false;
      }
      var ok := Validate();
      if !ok {
        return false;
      }
      isSubmitting := true;
      started := true;
    }

    /**
     * The awaited send settles. On success the status is "success" and the
     * fields are cleared; on failure the status is "error" and the fields are
     * kept. Either way the send is over and a status reset is scheduled.
     */
    method Settle(outcome: Outcome)
      requires Valid() && isSubmitting
      modifies this
      ensures outcome == Resolved ==> submitStatus == Sent && formData == EmptyForm
      ensures outcome == Rejected ==> submitStatus == SendFailed && formData == old(formData)
      ensures !isSubmitting && errors == old(errors)
      ensures pendingResets == old(pendingResets) + 1
      ensures Valid()
    {
      match outcome {
        case Resolved =>
          submitStatus := Sent;
          formData := EmptyForm;
        case Rejected =>
          submitStatus := SendFailed;
      }
      isSubmitting := false;
      pendingResets := pendingResets + 1;
    }

    /** A scheduled reset fires: the status message is hidden. */
    method ResetStatus()
      requires Valid() && pendingResets > 0
      modifies this
      ensures submitStatus == NoStatus && pendingResets == old(pendingResets) - 1
      ensures formData == old(formData) && errors == old(errors) && isSubmitting == old(isSubmitting)
      ensures Valid()
    {
      submitStatus := NoStatus;
      pendingResets := pendingResets - 1;
    }

    /** An input's `onChange`: that field takes the new value, nothing else changes. */
    method EditField(f: Field, v: string)
      requires Valid()
      modifies this
      ensures formData == old(formData).With(f, v)
      ensures errors == old(errors) && isSubmitting == old(isSubmitting)
      ensures submitStatus == old(submitStatus) && pendingResets == old(pendingResets)
      ensures Valid()
    {
      formData := formData.With(f, v);
    }
  }
}
