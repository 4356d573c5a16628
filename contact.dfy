/**
 * The contact page (app/contact/page.tsx): the eight-field form, the
 * validator that builds a per-field error map from two rules (a field that
 * trims to nothing, and the e-mail pattern), the input handler, and the
 * submit flow `idle -> submitting -> success | error`.
 *
 * An error map is a `map<Field, string>`. The source clears a field's error
 * by setting it to `undefined`; here the key is removed, which is the same
 * as far as every truthiness test on `errors[field]` can tell.
 */
module Contact {
  import opened Text
  import opened Wrappers

  datatype Field = Name | Email | Company | Phone | ProjectType | Budget | Timeline | Message

  const ALL_FIELDS: set<Field> := {Name, Email, Company, Phone, ProjectType, Budget, Timeline, Message}

  /** The fields no rule ever looks at. */
  const OPTIONAL_FIELDS: set<Field> := {Company, Phone, ProjectType, Budget, Timeline}

  /** The form's record, one string per field. */
  datatype FormData = FormData(
    name: string,
    email: string,
    company: string,
    phone: string,
    projectType: string,
    budget: string,
    timeline: string,
    message: string)
  {
    function Get(f: Field): string {
      match f
      case Name => name
      case Email => email
      case Company => company
      case Phone => phone
      case ProjectType => projectType
      case Budget => budget
      case Timeline => timeline
      case Message => message
    }

    /** `{ ...prev, [field]: value }`: one field replaced, the other seven kept. */
    function With(f: Field, v: string): (r: FormData)
      ensures r.Get(f) == v
      ensures forall g :: g != f ==> r.Get(g) == Get(g)
    {
      match f
      case Name => this.(name := v)
      case Email => this.(email := v)
      case Company => this.(company := v)
      case Phone => this.(phone := v)
      case ProjectType => this.(projectType := v)
      case Budget => this.(budget := v)
      case Timeline => this.(timeline := v)
      case Message => this.(message := v)
    }
  }

  const EMPTY_FORM := FormData("", "", "", "", "", "", "", "")

  const NAME_REQUIRED: string := "Name is required"
  const EMAIL_REQUIRED: string := "Email is required"
  const EMAIL_INVALID: string := "Please enter a valid email address"
  const MESSAGE_REQUIRED: string := "Message is required"

  // ---------------------------------------------------------------- e-mail pattern

  /** The class `[^\s@]`. */
  predicate EmailChar(c: char) {
    !IsWhitespace(c) && c != '@'
  }

  /** `t` is a run of `[^\s@]` (possibly empty). */
  predicate AllEmailChars(t: string) {
    forall i :: 0 <= i < |t| ==> EmailChar(t[i])
  }

  /** `t` is some `X.Y` with `X` and `Y` non-empty: a dot strictly inside it. */
  predicate DottedDomain(t: string) {
    |t| >= 3 && '.' in t[1..|t| - 1]
  }

  /**
   * `/^[^\s@]+@[^\s@]+\.[^\s@]+$/.test(s)`, read as a scan: split at the first
   * `@`; the part before it must be a non-empty run of `[^\s@]`, the part after
   * it a run of `[^\s@]` with a dot strictly inside (a `.` is itself in the
   * class, so `[^\s@]+\.[^\s@]+` is exactly such a run).
   */
  predicate IsValidEmail(s: string) {
    var at := IndexOf(s, '@');
    0 < at < |s| && AllEmailChars(s[..at]) && AllEmailChars(s[at + 1..]) && DottedDomain(s[at + 1..])
  }

  /**
   * Reference reading of the regular expression: some split of `s` into
   * `L + "@" + X + "." + Y`, with `L`, `X` and `Y` non-empty runs of `[^\s@]`.
   */
  ghost predicate PatternMatches(s: string) {
    exists l, x, y :: |l| > 0 && |x| > 0 && |y| > 0 && AllEmailChars(l) && AllEmailChars(x) && AllEmailChars(y)
      && s == l + "@" + x + "." + y
  }

  /** The first position of `c` in `s`, or `|s|` when there is none. */
  function IndexOf(s: string, c: char): (i: nat)
    ensures i <= |s|
    ensures i < |s| ==> s[i] == c
    ensures forall j :: 0 <= j < i ==> s[j] != c
  {
    if s == [] then 0 else if s[0] == c then 0 else 1 + IndexOf(s[1..], c)
  }

  /** The first `c` is at `i` when `s[i]` is one and no earlier character is. */
  lemma {:induction false} IndexOfFirst(s: string, c: char, i: nat)
    requires i <= |s| && (i < |s| ==> s[i] == c)
    requires forall j :: 0 <= j < i ==> s[j] != c
    ensures IndexOf(s, c) == i
  {
    if i > 0 {
      assert forall j :: 0 <= j < i - 1 ==> s[1..][j] == s[j + 1];
      IndexOfFirst(s[1..], c, i - 1);
    }
  }

  predicate NoWhitespace(s: string) {
    forall i :: 0 <= i < |s| ==> !IsWhitespace(s[i])
  }

  /** A run of the class concatenated with another is a run of the class. */
  lemma {:induction false} AllEmailCharsAppend(a: string, b: string)
    ensures AllEmailChars(a + b) <==> AllEmailChars(a) && AllEmailChars(b)
  {
    if AllEmailChars(a) && AllEmailChars(b) {
      forall i | 0 <= i < |a + b| ensures EmailChar((a + b)[i]) {
        if i < |a| { assert (a + b)[i] == a[i]; } else { assert (a + b)[i] == b[i - |a|]; }
      }
    }
    if AllEmailChars(a + b) {
      forall i | 0 <= i < |a| ensures EmailChar(a[i]) { assert (a + b)[i] == a[i]; }
      forall i | 0 <= i < |b| ensures EmailChar(b[i]) { assert (a + b)[|a| + i] == b[i]; }
    }
  }

  /** A scan success yields the regular expression's split. */
  lemma ScanGivesPattern(s: string)
    requires IsValidEmail(s)
    ensures PatternMatches(s)
  {
    var at := IndexOf(s, '@');
    var d := s[at + 1..];
    var k :| 1 <= k < |d| - 1 && d[k] == '.';
    var l, x, y := s[..at], d[..k], d[k + 1..];
    assert d == x + "." + y;
    AllEmailCharsAppend(x, "." + y);
    AllEmailCharsAppend(".", y);
    assert s == l + "@" + x + "." + y by {
      assert s == l + "@" + d;
    }
  }

  /** A split of the regular expression is found by the scan. */
  lemma PatternGivesScan(s: string, l: string, x: string, y: string)
    requires |l| > 0 && |x| > 0 && |y| > 0 && AllEmailChars(l) && AllEmailChars(x) && AllEmailChars(y)
    requires s == l + "@" + x + "." + y
    ensures IsValidEmail(s)
  {
    var d := x + "." + y;
    assert s == l + "@" + d;
    forall j | 0 <= j < |l| ensures s[j] != '@' {
      assert s[j] == l[j];
    }
    IndexOfFirst(s, '@', |l|);
    assert s[..|l|] == l && s[|l| + 1..] == d;
    DottedRun(x, y);
  }

  /** `X.Y` with `X` and `Y` non-empty runs of the class is a dotted run of the class. */
  lemma DottedRun(x: string, y: string)
    requires |x| > 0 && |y| > 0 && AllEmailChars(x) && AllEmailChars(y)
    ensures AllEmailChars(x + "." + y) && DottedDomain(x + "." + y)
  {
    var d := x + "." + y;
    assert d == x + ("." + y);
    AllEmailCharsAppend(x, "." + y);
    AllEmailCharsAppend(".", y);
    assert d[1..|d| - 1][|x| - 1] == '.';
  }

  /** The scan accepts exactly what the regular expression matches. */
  lemma EmailScanMatchesPattern(s: string)
    ensures IsValidEmail(s) <==> PatternMatches(s)
  {
    if IsValidEmail(s) {
      ScanGivesPattern(s);
    }
    if PatternMatches(s) {
      var l, x, y :| |l| > 0 && |x| > 0 && |y| > 0 && AllEmailChars(l) && AllEmailChars(x) && AllEmailChars(y)
        && s == l + "@" + x + "." + y;
      PatternGivesScan(s, l, x, y);
    }
  }

  /**
   * Reference reading by counting: exactly one `@`, no white space, something
   * before the `@`, and a dot after it with text on both sides.
   */
  predicate EmailShape(s: string) {
    multiset(s)['@'] == 1 && NoWhitespace(s)
    && var at := IndexOf(s, '@');
       0 < at < |s| && DottedDomain(s[at + 1..])
  }

  lemma SplitAround(s: string, at: int)
    requires 0 <= at < |s|
    ensures multiset(s) == multiset(s[..at]) + multiset{s[at]} + multiset(s[at + 1..])
  {
    assert s == s[..at] + [s[at]] + s[at + 1..];
  }

  /** What the scan accepts has the counted shape. */
  lemma ScanGivesShape(s: string)
    requires IsValidEmail(s)
    ensures EmailShape(s)
  {
    var at := IndexOf(s, '@');
    SplitAround(s, at);
    assert multiset(s[..at])['@'] == 0 by {
      assert forall i :: 0 <= i < at ==> EmailChar(s[..at][i]);
    }
    var d := s[at + 1..];
    assert multiset(d)['@'] == 0 by {
      assert forall i :: 0 <= i < |d| ==> EmailChar(d[i]);
    }
    forall i | 0 <= i < |s| ensures !IsWhitespace(s[i]) {
      if i < at {
        assert s[i] == s[..at][i];
      } else if i > at {
        assert s[i] == s[at + 1..][i - at - 1];
      }
    }
  }

  /** What has the counted shape is accepted by the scan. */
  lemma ShapeGivesScan(s: string)
    requires EmailShape(s)
    ensures IsValidEmail(s)
  {
    var at := IndexOf(s, '@');
    SplitAround(s, at);
    var d := s[at + 1..];
    assert multiset(d)['@'] == 0;
    forall i | 0 <= i < |d| ensures EmailChar(d[i]) {
      assert d[i] == s[at + 1 + i];
      assert d[i] in multiset(d);
    }
    forall i | 0 <= i < at ensures EmailChar(s[..at][i]) {
      assert s[..at][i] == s[i];
    }
  }

  /** The scan, and so the regular expression, accepts exactly the strings of the counted shape. */
  lemma EmailShapeCharacterization(s: string)
    ensures IsValidEmail(s) <==> EmailShape(s)
    ensures PatternMatches(s) <==> EmailShape(s)
  {
    EmailScanMatchesPattern(s);
    if IsValidEmail(s) {
      ScanGivesShape(s);
    }
    if EmailShape(s) {
      ShapeGivesScan(s);
    }
  }

  /** A valid address holds no white space, so padding one with a space makes it invalid. */
  lemma PaddedEmailFails(s: string)
    ensures IsValidEmail(s) ==> NoWhitespace(s)
    ensures !IsValidEmail([' '] + s) && !IsValidEmail(s + [' '])
  {
    if IsValidEmail(s) {
      var at := IndexOf(s, '@');
      forall i | 0 <= i < |s| ensures !IsWhitespace(s[i]) {
        if i < at {
          assert s[i] == s[..at][i];
        } else if i > at {
          assert s[i] == s[at + 1..][i - at - 1];
        }
      }
    }
    var front := [' '] + s;
    assert IndexOf(front, '@') == 0 || front[..IndexOf(front, '@')][0] == ' ';
    var back := s + [' '];
    var at := IndexOf(back, '@');
    if at < |back| {
      var d := back[at + 1..];
      assert d == [] || d[|d| - 1] == ' ';
    }
  }

  /** A valid address is never blank: the trim-emptiness rule and the pattern cannot both fire. */
  lemma ValidEmailNotBlank(s: string)
    requires IsValidEmail(s)
    ensures !IsBlank(s)
  {
    var at := IndexOf(s, '@');
    assert !IsWhitespace(s[at]);
  }

  /** The site's own address passes. */
  lemma SiteAddressValid()
    ensures IsValidEmail("hello@teamxox.com")
  {
    PatternGivesScan("hello@teamxox.com", "hello", "teamxox", "com");
  }

  /** An address without any dot fails. */
  lemma NoDotInvalid(s: string)
    requires '.' !in s
    ensures !IsValidEmail(s)
  {

  }

  /** Without a dot after the `@` the address fails. */
  lemma MissingDotInvalid()
    ensures !IsValidEmail("hello@teamxox")
  {
    var s := "hello@teamxox";
    assert forall i | 0 <= i < |s| :: s[i] != '.';
    NoDotInvalid(s);
  }

  /** A doubled `@` fails: the domain would start with the second one. */
  lemma DoubledAtInvalid()
    ensures !IsValidEmail("a@@b.c")
  {
    var s := "a@@b.c";
    IndexOfFirst(s, '@', 1);
    assert s[2..][0] == '@';
  }

  /** An address that starts with white space fails: the pattern is matched against the untrimmed value. */
  lemma LeadingWhitespaceInvalid(s: string)
    requires |s| > 0 && IsWhitespace(s[0])
    ensures !IsValidEmail(s)
  {
    var at := IndexOf(s, '@');
    assert at == 0 || s[..at][0] == s[0];
  }

  /** A leading space fails. */
  lemma LeadingSpaceInvalid()
    ensures !IsValidEmail(" hello@teamxox.com")
  {
    LeadingWhitespaceInvalid(" hello@teamxox.com");
  }

  // ---------------------------------------------------------------- validation

  /** The name rule: `!name.trim()`. */
  function NameError(name: string): Option<string> {
    if IsBlank(name) then Some(NAME_REQUIRED) else None
  }

  /** The e-mail rule: "required" when it trims to nothing, else the pattern on the untrimmed value. */
  function EmailError(email: string): Option<string> {
    if IsBlank(email) then Some(EMAIL_REQUIRED)
    else if !IsValidEmail(email) then Some(EMAIL_INVALID)
    else None
  }

  /** The message rule: `!message.trim()`. */
  function MessageError(message: string): Option<string> {
    if IsBlank(message) then Some(MESSAGE_REQUIRED) else None
  }

  /** The rule for one field: the error it gets, if any. */
  function FieldError(d: FormData, f: Field): Option<string> {
    match f
    case Name => NameError(d.name)
    case Email => EmailError(d.email)
    case Message => MessageError(d.message)
    case _ => None
  }

  /** `newErrors.field = e` when a rule produced `e`. */
  function Put(m: map<Field, string>, f: Field, e: Option<string>): map<Field, string> {
    if e.Some? then m[f := e.value] else m
  }

  /**
   * The error map `validateForm` stores: the three rules applied in the
   * source's order, each adding at most one entry.
   */
  function FormErrors(d: FormData): map<Field, string> {
    Put(Put(Put(map[], Name, NameError(d.name)), Email, EmailError(d.email)), Message, MessageError(d.message))
  }

  /** The map holds, for each field, exactly the error its own rule gives. */
  lemma FormErrorsPerField(d: FormData, f: Field)
    ensures f in FormErrors(d) <==> FieldError(d, f).Some?
    ensures f in FormErrors(d) ==> FormErrors(d)[f] == FieldError(d, f).value
  {
  }

  /** A name error exists iff the name trims to nothing; likewise for the message. */
  lemma RequiredTextFields(d: FormData)
    ensures Name in FormErrors(d) <==> AllWhitespace(d.name)
    ensures Message in FormErrors(d) <==> AllWhitespace(d.message)
    ensures Name in FormErrors(d) ==> FormErrors(d)[Name] == NAME_REQUIRED
    ensures Message in FormErrors(d) ==> FormErrors(d)[Message] == MESSAGE_REQUIRED
  {
    BlankIffAllWhitespace(d.name);
    BlankIffAllWhitespace(d.message);
  }

  /**
   * The e-mail field gets at most one error: "required" when it trims to
   * nothing, otherwise "invalid" exactly when the pattern fails on the
   * untrimmed value.
   */
  lemma EmailFieldRule(d: FormData)
    ensures Email in FormErrors(d) <==> AllWhitespace(d.email) || !IsValidEmail(d.email)
    ensures AllWhitespace(d.email) ==> FormErrors(d)[Email] == EMAIL_REQUIRED
    ensures !AllWhitespace(d.email) && !IsValidEmail(d.email) ==> FormErrors(d)[Email] == EMAIL_INVALID
  {
    BlankIffAllWhitespace(d.email);
  }

  /** Padding a valid address with a space turns the e-mail error into "invalid". */
  lemma PaddedEmailError(d: FormData)
    requires IsValidEmail(d.email)
    ensures FormErrors(d.(email := [' '] + d.email))[Email] == EMAIL_INVALID
  {
    ValidEmailNotBlank(d.email);
    PaddedEmailFails(d.email);
    var padded := [' '] + d.email;
    assert !IsBlank(padded) by {
      var at := IndexOf(d.email, '@');
      assert padded[at + 1] == '@';
    }
  }

  /** Company, phone, project type, budget and timeline never produce errors, whatever they hold. */
  lemma OptionalFieldsNeverErr(d: FormData, f: Field, v: string)
    requires f in OPTIONAL_FIELDS
    ensures f !in FormErrors(d)
    ensures FormErrors(d.With(f, v)) == FormErrors(d)
  {
    var e := d.With(f, v);
    assert e.name == d.name && e.email == d.email && e.message == d.message by {
      assert e.Get(Name) == d.Get(Name) && e.Get(Email) == d.Get(Email) && e.Get(Message) == d.Get(Message);
    }
  }

  /** With an empty name, an empty message and a valid address there are exactly two errors. */
  lemma TwoErrorsExample(d: FormData)
    requires d.name == "" && d.message == "" && IsValidEmail(d.email)
    ensures FormErrors(d).Keys == {Name, Message}
    ensures |FormErrors(d)| == 2
  {
    ValidEmailNotBlank(d.email);
    assert FormErrors(d).Keys == {Name, Message};
  }

  /** The cleared form fails on the three required fields. */
  lemma EmptyFormErrors()
    ensures FormErrors(EMPTY_FORM) == map[Name := NAME_REQUIRED, Email := EMAIL_REQUIRED, Message := MESSAGE_REQUIRED]
  {
  }

  // ---------------------------------------------------------------- page state

  datatype SubmitStatus = Idle | Success | Error

  /** The page component's state. The two-second wait of the submission is the gap between `HandleSubmit` and `CompleteSubmit`. */
  class ContactPage {
    var formData: FormData
    var isSubmitting: bool
    var submitStatus: SubmitStatus
    var errors: map<Field, string>

    constructor ()
      ensures formData == EMPTY_FORM && !isSubmitting && submitStatus == Idle && errors == map[]
    {
      formData, isSubmitting, submitStatus, errors := EMPTY_FORM, false, Idle, map[];
    }

    /** `validateForm`: build the error map rule by rule, store it, and report whether it is empty. */
    method ValidateForm() returns (valid: bool)
      modifies this
      ensures errors == FormErrors(formData)
      ensures valid <==> errors == map[]
      ensures formData == old(formData) && isSubmitting == old(isSubmitting) && submitStatus == old(submitStatus)
    {
      var newErrors: map<Field, string> := map[];
      if IsBlank(formData.name) {
        newErrors := newErrors[Name := NAME_REQUIRED];
      }
      if IsBlank(formData.email) {
        newErrors := newErrors[Email := EMAIL_REQUIRED];
      } else if !IsValidEmail(formData.email) {
        newErrors := newErrors[Email := EMAIL_INVALID];
      }
      if IsBlank(formData.message) {
        newErrors := newErrors[Message := MESSAGE_REQUIRED];
      }
      assert newErrors.Keys == FormErrors(formData).Keys;
      errors := newErrors;
      valid := |newErrors| == 0;
      assert valid <==> newErrors == map[] by {
        if newErrors != map[] {
          var f :| f in newErrors;
        }
      }
    }

    /** `handleInputChange`: set one field, and drop that field's error if it had one. */
    method HandleInputChange(f: Field, value: string)
      modifies this
      ensures formData == old(formData).With(f, value)
      ensures errors == old(errors) - {f}
      ensures isSubmitting == old(isSubmitting) && submitStatus == old(submitStatus)
    {
      formData := formData.With(f, value);
      if f in errors {
        errors := errors - {f};
      }
    }

    /**
     * `handleSubmit` up to the wait: validate; an invalid form stops there,
     * with only the error map updated; a valid one starts submitting.
     */
    method HandleSubmit() returns (started: bool)
      modifies this
      ensures errors == FormErrors(old(formData)) && formData == old(formData)
      ensures started <==> errors == map[]
      ensures !started ==> isSubmitting == old(isSubmitting) && submitStatus == old(submitStatus)
      ensures started ==> isSubmitting && submitStatus == Idle
    {
      var valid := ValidateForm();
      if !valid {
        return false;
      }
      isSubmitting := true;
      submitStatus := Idle;
      started := true;
    }

    /**
     * The rest of `handleSubmit`, after the wait. `failed` says whether the
     * awaited work threw; either way the `finally` block ends the submission.
     */
    method CompleteSubmit(failed: bool)
      modifies this
      ensures !failed ==> submitStatus == Success && formData == EMPTY_FORM
      ensures failed ==> submitStatus == Error && formData == old(formData)
      ensures !isSubmitting && errors == old(errors)
    {
      if !failed {
        submitStatus := Success;
        formData := EMPTY_FORM;
      } else {
        submitStatus := Error;
      }
      isSubmitting := false;
    }
  }
}
