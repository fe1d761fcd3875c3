/**
 * The public landing page (src/pages/LandingPage.js): the code input and
 * scan request, and the prize-claim form with its email and phone
 * validators and input sanitisers.
 */
module LandingPage {
  import opened Wrappers
  import opened JsStrings

  // ---------------------------------------------------------------------
  // validateEmail: /^[^\s@]+@[^\s@]+\.[^\s@]+$/

  /** Every character is matched by `[^\s@]`. */
  predicate NoSpaceOrAt(s: string) {
    forall i :: 0 <= i < |s| ==> !IsWhitespace(s[i]) && s[i] != '@'
  }

  /** The regular expression read literally: three `[^\s@]+` runs around one `@` and one `.`. */
  ghost predicate EmailPattern(s: string) {
    exists at, dot :: 0 < at && at + 1 < dot && dot + 1 < |s| && s[at] == '@' && s[dot] == '.'
      && NoSpaceOrAt(s[..at]) && NoSpaceOrAt(s[at + 1..dot]) && NoSpaceOrAt(s[dot + 1..])
  }

  /** `s.indexOf(c)` for a character that occurs. */
  function IndexOf(s: string, c: char): (k: nat)
    requires c in s
    ensures k < |s| && s[k] == c && c !in s[..k]
  {
    if s[0] == c then 0
    else
      var k := 1 + IndexOf(s[1..], c);
      assert s[..k] == [s[0]] + s[1..][..k - 1];
      k
  }

  /**
   * The character rules: no whitespace, exactly one `@`, something before it, and
   * after it a `.` with at least one character on each side.
   */
  predicate EmailChars(email: string) {
    && (forall i :: 0 <= i < |email| ==> !IsWhitespace(email[i]))
    && '@' in email
    && var at := IndexOf(email, '@');
      && 0 < at
      && '@' !in email[at + 1..]
      && at + 3 <= |email|
      && '.' in email[at + 2..|email| - 1]
  }

  /** Every character after the first `@` of a valid email differs from `@`, and so do those before it. */
  lemma OnlyOneAt(email: string, at: nat)
    requires at < |email| && '@' !in email[..at] && '@' !in email[at + 1..]
    ensures forall i :: 0 <= i < |email| && i != at ==> email[i] != '@'
  {
    forall i | 0 <= i < |email| && i != at ensures email[i] != '@' {
      if i < at {
        assert email[i] == email[..at][i];
      } else {
        assert email[i] == email[at + 1..][i - at - 1];
      }
    }
  }

  /** What the character rules accept, the regular expression matches. */
  lemma ValidEmailMatchesPattern(email: string)
    requires EmailChars(email)
    ensures EmailPattern(email)
  {
    var at := IndexOf(email, '@');
    var mid := email[at + 2..|email| - 1];
    var j :| 0 <= j < |mid| && mid[j] == '.';
    var dot := at + 2 + j;
    assert email[dot] == mid[j];
    OnlyOneAt(email, at);
    assert NoSpaceOrAt(email[..at]);
    assert NoSpaceOrAt(email[at + 1..dot]);
    assert NoSpaceOrAt(email[dot + 1..]);
  }

  /** The three runs of a pattern match leave no whitespace and no second `@` anywhere. */
  lemma PatternCharacters(email: string, at: nat, dot: nat)
    requires 0 < at && at + 1 < dot && dot + 1 < |email| && email[at] == '@' && email[dot] == '.'
    requires NoSpaceOrAt(email[..at]) && NoSpaceOrAt(email[at + 1..dot]) && NoSpaceOrAt(email[dot + 1..])
    ensures forall i :: 0 <= i < |email| ==> !IsWhitespace(email[i])
    ensures forall i :: 0 <= i < |email| && i != at ==> email[i] != '@'
  {
    forall i | 0 <= i < |email| ensures !IsWhitespace(email[i]) && (i != at ==> email[i] != '@') {
      if i < at {
        assert email[i] == email[..at][i];
      } else if at < i < dot {
        assert email[i] == email[at + 1..dot][i - at - 1];
      } else if i > dot {
        assert email[i] == email[dot + 1..][i - dot - 1];
      }
    }
  }

  /** What the regular expression matches, the character rules accept. */
  lemma PatternIsValidEmail(email: string)
    requires EmailPattern(email)
    ensures EmailChars(email)
  {
    var at, dot :| 0 < at && at + 1 < dot && dot + 1 < |email| && email[at] == '@' && email[dot] == '.'
      && NoSpaceOrAt(email[..at]) && NoSpaceOrAt(email[at + 1..dot]) && NoSpaceOrAt(email[dot + 1..]);
    PatternCharacters(email, at, dot);
    assert email[at] == '@';
    var k := IndexOf(email, '@');
    assert k == at;
    var rest := email[at + 1..];
    assert '@' !in rest by {
      forall i | 0 <= i < |rest| ensures rest[i] != '@' {
        assert rest[i] == email[at + 1 + i];
      }
    }
    assert email[at + 2..|email| - 1][dot - at - 2] == '.';
  }

  /** The character rules accept exactly the strings the regular expression accepts. */
  lemma EmailCharsMatchPattern(email: string)
    ensures EmailChars(email) <==> EmailPattern(email)
  {
    if EmailChars(email) {
      ValidEmailMatchesPattern(email);
    }
    if EmailPattern(email) {
      PatternIsValidEmail(email);
    }
  }

  /** `validateEmail`, computed by the character rules: it accepts exactly what the regular expression matches. */
  function ValidateEmail(email: string): (r: bool)
    ensures r <==> EmailPattern(email)
  {
    EmailCharsMatchPattern(email);
    EmailChars(email)
  }

  // ---------------------------------------------------------------------
  // validatePhone: /^\d{3}-\d{3}-\d{4}$/

  /** Twelve characters, `-` at positions 3 and 7 and digits everywhere else. */
  predicate PhonePositions(phone: string) {
    |phone| == 12 &&
    forall i :: 0 <= i < 12 ==> if i == 3 || i == 7 then phone[i] == '-' else IsDigit(phone[i])
  }

  /** The regular expression read as groups: three digits, `-`, three digits, `-`, four digits, nothing else. */
  predicate PhoneGroups(phone: string) {
    && |phone| == 12
    && AllDigits(phone[..3]) && phone[3] == '-'
    && AllDigits(phone[4..7]) && phone[7] == '-'
    && AllDigits(phone[8..])
  }

  /** The positional rule and the group reading agree. */
  lemma PhonePositionsAreGroups(phone: string)
    ensures PhonePositions(phone) <==> PhoneGroups(phone)
  {
    if |phone| == 12 {
      var a, b, c := phone[..3], phone[4..7], phone[8..];
      if PhonePositions(phone) {
        assert AllDigits(a) by {
          forall i | 0 <= i < 3 ensures IsDigit(a[i]) { assert a[i] == phone[i]; }
        }
        assert AllDigits(b) by {
          forall i | 0 <= i < 3 ensures IsDigit(b[i]) { assert b[i] == phone[i + 4]; }
        }
        assert AllDigits(c) by {
          forall i | 0 <= i < 4 ensures IsDigit(c[i]) { assert c[i] == phone[i + 8]; }
        }
      }
      if PhoneGroups(phone) {
        forall i | 0 <= i < 12 ensures if i == 3 || i == 7 then phone[i] == '-' else IsDigit(phone[i]) {
          if i < 3 { assert phone[i] == a[i]; }
          else if 3 < i < 7 { assert phone[i] == b[i - 4]; }
          else if i > 7 { assert phone[i] == c[i - 8]; }
        }
      }
    }
  }

  /** `validatePhone`, computed position by position: it accepts exactly `ddd-ddd-dddd`. */
  function ValidatePhone(phone: string): (r: bool)
    ensures r <==> PhoneGroups(phone)
  {
    PhonePositionsAreGroups(phone);
    PhonePositions(phone)
  }

  /** The replacement `"$1-$2-$3"` applied to the ten characters at the start of `d`. */
  function Dashed(d: string): string
    requires |d| >= 10
  {
    d[..3] + "-" + d[3..6] + "-" + d[6..10]
  }

  // ---------------------------------------------------------------------
  // The phone formatter

  /** Ten digits in a row start at `j`. */
  predicate DigitRunAt(s: string, j: nat)
    requires j + 10 <= |s|
  {
    AllDigits(s[j..j + 10])
  }

  /** The leftmost match, from `i` on, of `/(\d{3})(\d{3})(\d{4})/`: ten digits in a row. */
  function TenDigitsFrom(s: string, i: nat): (r: Option<nat>)
    requires i <= |s|
    ensures r.Some? ==> i <= r.value && r.value + 10 <= |s| && DigitRunAt(s, r.value)
    ensures r.Some? ==> forall j :: i <= j < r.value ==> !DigitRunAt(s, j)
    ensures r.None? ==> forall j :: i <= j && j + 10 <= |s| ==> !DigitRunAt(s, j)
    decreases |s| - i
  {
    if i + 10 > |s| then None
    else if DigitRunAt(s, i) then Some(i)
    else TenDigitsFrom(s, i + 1)
  }

  /** `s.replace(/(\d{3})(\d{3})(\d{4})/, "$1-$2-$3")`: only the first match is replaced. */
  function ReplacePhoneGroups(s: string): string {
    match TenDigitsFrom(s, 0)
    case None => s
    case Some(i) => s[..i] + Dashed(s[i..]) + s[i + 10..]
  }

  /**
   * The phone `onChange` text: drop non-digits, dash the first ten digits, keep at most
   * 12 characters. With ten digits or more that is the first ten, dashed; with fewer it
   * is the bare digits.
   */
  function FormatPhone(raw: string): (r: string)
    ensures var d := Filter(raw, IsDigit);
      && (|d| >= 10 ==> r == Dashed(d))
      && (|d| < 10 ==> r == d)
  {
    FormatDigitsShape(Filter(raw, IsDigit));
    Take(ReplacePhoneGroups(Filter(raw, IsDigit)), 12)
  }

  /** In a string of digits the first ten-digit run starts at 0 if there are ten digits at all. */
  lemma DigitRunAtStart(d: string)
    requires AllDigits(d)
    ensures TenDigitsFrom(d, 0) == if |d| >= 10 then Some(0) else None
  {
    if |d| >= 10 {
      assert DigitRunAt(d, 0);
    }
  }

  /** Replacing and cutting a string of digits gives the first ten dashed, or the digits unchanged. */
  lemma FormatDigitsShape(d: string)
    requires AllDigits(d)
    ensures Take(ReplacePhoneGroups(d), 12) == if |d| >= 10 then Dashed(d) else d
  {
    DigitRunAtStart(d);
    if |d| >= 10 {
      var replaced := ReplacePhoneGroups(d);
      assert d[0..] == d;
      assert replaced == d[..0] + Dashed(d) + d[10..];
      assert replaced[..12] == Dashed(d);
    }
  }

  /** Filtering digits drops a dash between two strings. */
  lemma DashDropped(x: string, y: string)
    ensures Filter(x + "-" + y, IsDigit) == Filter(x, IsDigit) + Filter(y, IsDigit)
  {
    var dash := "-";
    FilterDropsAll(dash, IsDigit);
    FilterConcat(x, dash, IsDigit);
    var fx := Filter(x + dash, IsDigit);
    assert fx == Filter(x, IsDigit);
    FilterConcat(x + dash, y, IsDigit);
  }

  /** The digits of three digit groups joined by dashes are the groups themselves. */
  lemma DigitsOfDashedGroups(a: string, b: string, c: string)
    requires AllDigits(a) && AllDigits(b) && AllDigits(c)
    ensures Filter(a + "-" + b + "-" + c, IsDigit) == a + b + c
  {
    DashDropped(a + "-" + b, c);
    DashDropped(a, b);
    FilterKeepsAll(a, IsDigit);
    FilterKeepsAll(b, IsDigit);
    FilterKeepsAll(c, IsDigit);
  }

  /** Three, three and four digits joined by dashes make a valid phone. */
  lemma DashedGroupsValid(a: string, b: string, c: string)
    requires AllDigits(a) && AllDigits(b) && AllDigits(c)
    requires |a| == 3 && |b| == 3 && |c| == 4
    ensures ValidatePhone(a + "-" + b + "-" + c)
  {
    var p := a + "-" + b + "-" + c;
    forall i | 0 <= i < 12 ensures if i == 3 || i == 7 then p[i] == '-' else IsDigit(p[i]) {
      if i < 3 { assert p[i] == a[i]; }
      else if 3 < i < 7 { assert p[i] == b[i - 4]; }
      else if i > 7 { assert p[i] == c[i - 8]; }
    }
  }

  /** Dashing ten digits gives a valid phone whose digits are those ten. */
  lemma DashedIsValid(d: string)
    requires AllDigits(d) && |d| >= 10
    ensures ValidatePhone(Dashed(d))
    ensures Filter(Dashed(d), IsDigit) == d[..10]
  {
    var a, b, c := d[..3], d[3..6], d[6..10];
    assert AllDigits(a) && AllDigits(b) && AllDigits(c);
    DashedGroupsValid(a, b, c);
    DigitsOfDashedGroups(a, b, c);
    assert a + b + c == d[..10];
  }

  /**
   * The formatter removes every non-digit; with at least ten digits it yields the first ten
   * dashed as `ddd-ddd-dddd`, which `validatePhone` accepts; with fewer it yields the bare
   * digits, which `validatePhone` rejects. It never yields more than 12 characters.
   */
  lemma FormatPhoneShape(raw: string)
    ensures var d := Filter(raw, IsDigit); var r := FormatPhone(raw);
      && |r| <= 12
      && (|d| >= 10 ==> r == Dashed(d) && ValidatePhone(r))
      && (|d| < 10 ==> r == d && !ValidatePhone(r))
  {
    var d := Filter(raw, IsDigit);
    if |d| >= 10 {
      DashedIsValid(d);
    }
  }

  /** Dashing the concatenation of three, three and four characters puts the dashes between them. */
  lemma DashedOfGroups(a: string, b: string, c: string)
    requires |a| == 3 && |b| == 3 && |c| == 4
    ensures Dashed(a + b + c) == a + "-" + b + "-" + c
  {
    var d := a + b + c;
    assert d[..3] == a && d[3..6] == b && d[6..10] == c;
  }

  /** A phone already in `ddd-ddd-dddd` form is left as it is. */
  lemma FormatPhoneKeepsValid(phone: string)
    requires ValidatePhone(phone)
    ensures FormatPhone(phone) == phone
  {
    var a, b, c := phone[..3], phone[4..7], phone[8..];
    assert phone == a + "-" + b + "-" + c;
    DigitsOfDashedGroups(a, b, c);
    FormatPhoneShape(phone);
    DashedOfGroups(a, b, c);
  }

  /** Formatting a formatted phone changes nothing. */
  lemma FormatPhoneIdempotent(raw: string)
    ensures FormatPhone(FormatPhone(raw)) == FormatPhone(raw)
  {
    var d := Filter(raw, IsDigit);
    FormatPhoneShape(raw);
    if |d| >= 10 {
      FormatPhoneKeepsValid(FormatPhone(raw));
    } else {
      FilterKeepsAll(d, IsDigit);
      FormatPhoneShape(d);
    }
  }

  // ---------------------------------------------------------------------
  // The name sanitiser

  predicate IsNameChar(c: char) {
    IsAsciiUpper(c) || IsAsciiLower(c) || c == ' '
  }

  /** The name `onChange`: `replace(/[^a-zA-Z ]/g, "").slice(0, 100)`. */
  function SanitiseName(raw: string): (r: string)
    ensures |r| <= 100
    ensures forall i :: 0 <= i < |r| ==> IsNameChar(r[i])
  {
    Take(Filter(raw, IsNameChar), 100)
  }

  /** A clean name of at most 100 characters is kept, so sanitising twice is sanitising once. */
  lemma SanitiseNameIdempotent(raw: string)
    ensures SanitiseName(SanitiseName(raw)) == SanitiseName(raw)
    ensures |raw| <= 100 && (forall i :: 0 <= i < |raw| ==> IsNameChar(raw[i])) ==> SanitiseName(raw) == raw
  {
    FilterKeepsAll(SanitiseName(raw), IsNameChar);
    if forall i :: 0 <= i < |raw| ==> IsNameChar(raw[i]) {
      FilterKeepsAll(raw, IsNameChar);
    }
  }

  // ---------------------------------------------------------------------
  // The code input and the two buttons

  const CodeLength := 14

  /** The code `onChange` behind `maxLength={14}`: at most 14 characters, upper-cased. */
  function CodeInput(raw: string): (r: string)
    ensures |r| == if |raw| < CodeLength then |raw| else CodeLength
    ensures forall i :: 0 <= i < |r| ==> r[i] == UpperChar(raw[i]) && !IsAsciiLower(r[i])
  {
    ToUpper(Take(raw, CodeLength))
  }

  lemma CodeInputIdempotent(raw: string)
    ensures CodeInput(CodeInput(raw)) == CodeInput(raw)
  {
  }

  /** The Submit button is enabled (the negation of its `disabled` expression). */
  function SubmitEnabled(loading: bool, code: string, outcome: string): (r: bool)
    ensures r <==> !loading && |code| == CodeLength && outcome !in {"WINNER", "CLAIMED"}
  {
    !(loading || |code| != CodeLength || outcome == "WINNER" || outcome == "CLAIMED")
  }

  /** With a typed code, Submit is enabled iff not loading, at least 14 characters were typed, and the outcome is neither WINNER nor CLAIMED. */
  lemma SubmitEnabledForTypedCode(raw: string, loading: bool, outcome: string)
    ensures SubmitEnabled(loading, CodeInput(raw), outcome) <==>
      !loading && |raw| >= CodeLength && outcome !in {"WINNER", "CLAIMED"}
  {
  }

  /** The Claim button is enabled (the negation of its `disabled` expression). */
  function ClaimEnabled(submitting: bool, name: string, phone: string, email: string,
                        phoneError: string, emailError: string, message: string): (r: bool)
    ensures r <==> && !submitting && name != "" && phone != "" && email != ""
                   && phoneError == "" && emailError == ""
                   && !exists i :: OccursAt(message, "successfully", i)
  {
    !(submitting || name == "" || phone == "" || email == "" || phoneError != "" || emailError != ""
      || Includes(message, "successfully"))
  }

  /** The error texts are the ones the `onChange` validators last set: an empty error means a valid (or empty) field. */
  ghost predicate ErrorsTrack(phone: string, phoneError: string, email: string, emailError: string) {
    && (phoneError == "" ==> phone == "" || ValidatePhone(phone))
    && (emailError == "" ==> email == "" || ValidateEmail(email))
  }

  /** When the errors track the fields, an enabled Claim button means both fields are valid. */
  lemma EnabledClaimIsValid(submitting: bool, name: string, phone: string, email: string,
                            phoneError: string, emailError: string, message: string)
    requires ErrorsTrack(phone, phoneError, email, emailError)
    requires ClaimEnabled(submitting, name, phone, email, phoneError, emailError, message)
    ensures ValidateEmail(email) && ValidatePhone(phone)
  {
  }

  // ---------------------------------------------------------------------
  // Component state

  /** The reply to a POST: a message (and for `/scan` an outcome), or an error with an optional server message. */
  datatype Reply = Answered(message: string, outcome: Option<string>) | Failed(errorMessage: Option<string>)

  const NoPrize := "NO_PRIZE"
  const GenericError := "An error occurred. Please try again."
  const EmailErrorText := "Invalid email format"
  const PhoneErrorText := "Phone must be in XXX-XXX-XXXX format"

  /** `response.data.outcome || "NO_PRIZE"`: never blank; the server's outcome when it sent one. */
  function ScanOutcome(outcome: Option<string>): (r: string)
    ensures r != ""
    ensures r == NoPrize || outcome == Some(r)
    ensures Truthy(outcome) ==> r == outcome.value
  {
    if Truthy(outcome) then outcome.value else NoPrize
  }

  /** `err.response?.data?.message || "An error occurred. Please try again."`: never blank, so the error always shows. */
  function ErrorText(serverMessage: Option<string>): (r: string)
    ensures r != ""
    ensures r == GenericError || serverMessage == Some(r)
    ensures Truthy(serverMessage) ==> r == serverMessage.value
  {
    if Truthy(serverMessage) then serverMessage.value else GenericError
  }

  /** The state of the landing-page component. */
  class LandingState {
    var code: string
    var message: string
    var outcome: string
    var error: string
    var loading: bool
    var name: string
    var phone: string
    var email: string
    var submitting: bool
    var phoneError: string
    var emailError: string

    ghost predicate Valid()
      reads this
    {
      ErrorsTrack(phone, phoneError, email, emailError)
    }

    constructor ()
      ensures Valid()
      ensures code == "" && message == "" && outcome == "" && error == "" && !loading
      ensures name == "" && phone == "" && email == "" && !submitting
      ensures phoneError == "" && emailError == ""
    {
      code, message, outcome, error, loading := "", "", "", "", false;
      name, phone, email, submitting := "", "", "", false;
      phoneError, emailError := "", "";
    }

    function CanSubmitCode(): bool
      reads this
    {
      SubmitEnabled(loading, code, outcome)
    }

    function CanClaim(): bool
      reads this
    {
      ClaimEnabled(submitting, name, phone, email, phoneError, emailError, message)
    }

    /** The code input's `onChange`. */
    method ChangeCode(raw: string)
      requires Valid()
      modifies this
      ensures Valid()
      ensures code == CodeInput(raw)
      ensures CanSubmitCode() <==> !loading && |raw| >= CodeLength && outcome !in {"WINNER", "CLAIMED"}
      ensures message == old(message) && outcome == old(outcome) && error == old(error) && loading == old(loading)
      ensures name == old(name) && phone == old(phone) && email == old(email) && submitting == old(submitting)
      ensures phoneError == old(phoneError) && emailError == old(emailError)
    {
      code := CodeInput(raw);
      SubmitEnabledForTypedCode(raw, loading, outcome);
    }

    /** The name input's `onChange`. */
    method ChangeName(raw: string)
      requires Valid()
      modifies this
      ensures Valid()
      ensures name == SanitiseName(raw)
      ensures code == old(code) && message == old(message) && outcome == old(outcome) && error == old(error)
      ensures loading == old(loading) && phone == old(phone) && email == old(email) && submitting == old(submitting)
      ensures phoneError == old(phoneError) && emailError == old(emailError)
    {
      name := SanitiseName(raw);
    }

    /** The phone input's `onChange`: store the formatted value and validate it. */
    method ChangePhone(raw: string)
      requires Valid()
      modifies this
      ensures Valid()
      ensures phone == FormatPhone(raw)
      ensures phoneError == if ValidatePhone(phone) then "" else PhoneErrorText
      ensures code == old(code) && message == old(message) && outcome == old(outcome) && error == old(error)
      ensures loading == old(loading) && name == old(name) && email == old(email) && submitting == old(submitting)
      ensures emailError == old(emailError)
    {
      phone := FormatPhone(raw);
      phoneError := if ValidatePhone(phone) then "" else PhoneErrorText;
    }

    /** The email input's `onChange`: store the value as typed and validate it. */
    method ChangeEmail(raw: string)
      requires Valid()
      modifies this
      ensures Valid()
      ensures email == raw
      ensures emailError == if ValidateEmail(raw) then "" else EmailErrorText
      ensures code == old(code) && message == old(message) && outcome == old(outcome) && error == old(error)
      ensures loading == old(loading) && name == old(name) && phone == old(phone) && submitting == old(submitting)
      ensures phoneError == old(phoneError)
    {
      email := raw;
      emailError := if ValidateEmail(raw) then "" else EmailErrorText;
    }

    /** `handleScan` up to the request: loading on; message, error and outcome cleared. */
    method BeginScan()
      requires Valid()
      modifies this
      ensures Valid()
      ensures loading && message == "" && error == "" && outcome == ""
      ensures code == old(code) && name == old(name) && phone == old(phone) && email == old(email)
      ensures submitting == old(submitting) && phoneError == old(phoneError) && emailError == old(emailError)
    {
      loading := true;
      message, error, outcome := "", "", "";
    }

    /**
     * `handleScan` after the request: a reply sets the message and the outcome, which is
     * `NO_PRIZE` when the reply has none; a failure sets the error; loading ends either way.
     */
    method CompleteScan(reply: Reply)
      requires Valid()
      modifies this
      ensures Valid()
      ensures !loading
      ensures reply.Answered? ==> message == reply.message && outcome == ScanOutcome(reply.outcome) && error == old(error)
      ensures reply.Answered? && !Truthy(reply.outcome) ==> outcome == NoPrize
      ensures reply.Failed? ==> error == ErrorText(reply.errorMessage) && message == old(message) && outcome == old(outcome)
      ensures code == old(code) && name == old(name) && phone == old(phone) && email == old(email)
      ensures submitting == old(submitting) && phoneError == old(phoneError) && emailError == old(emailError)
    {
      match reply {
        case Answered(m, o) =>
          message := m;
          outcome := ScanOutcome(o);
        case Failed(serverMessage) =>
          error := ErrorText(serverMessage);
      }
      loading := false;
    }

    /**
     * `handleClaimPrize` up to the request. The email is checked first: if invalid only its
     * error is set and nothing is sent; then the phone likewise; otherwise submitting starts
     * with message and error cleared. An enabled Claim button always gets past both checks.
     */
    method ClaimPrize() returns (submitted: bool)
      requires Valid()
      modifies this
      ensures Valid()
      ensures submitted == (ValidateEmail(email) && ValidatePhone(phone))
      ensures !ValidateEmail(email) ==>
        emailError == EmailErrorText && phoneError == old(phoneError)
      ensures ValidateEmail(email) && !ValidatePhone(phone) ==>
        phoneError == PhoneErrorText && emailError == old(emailError)
      ensures submitted ==> submitting && message == "" && error == ""
      ensures submitted ==> phoneError == old(phoneError) && emailError == old(emailError)
      ensures !submitted ==> submitting == old(submitting) && message == old(message) && error == old(error)
      ensures old(CanClaim()) ==> submitted
      ensures code == old(code) && outcome == old(outcome) && loading == old(loading)
      ensures name == old(name) && phone == old(phone) && email == old(email)
    {
      if !ValidateEmail(email) {
        emailError := EmailErrorText;
        return false;
      }
      if !ValidatePhone(phone) {
        phoneError := PhoneErrorText;
        return false;
      }
      submitting := true;
      message, error := "", "";
      submitted := true;
    }

    /** `handleClaimPrize` after the request: the reply's message or the error text; submitting ends. */
    method CompleteClaim(reply: Reply)
      requires Valid()
      modifies this
      ensures Valid()
      ensures !submitting
      ensures reply.Answered? ==> message == reply.message && error == old(error)
      ensures reply.Failed? ==> error == ErrorText(reply.errorMessage) && message == old(message)
      ensures code == old(code) && outcome == old(outcome) && loading == old(loading)
      ensures name == old(name) && phone == old(phone) && email == old(email)
      ensures phoneError == old(phoneError) && emailError == old(emailError)
    {
      match reply {
        case Answered(m, _) =>
          message := m;
        case Failed(serverMessage) =>
          error := ErrorText(serverMessage);
      }
      submitting := false;
    }
  }
}
