/**
 * The create-event page: its form record, the field-wise update on every
 * keystroke, JavaScript `parseInt` on the capacity field, and the validation
 * that runs before the create call.
 */
module CreateEventForm {
  import opened Wrappers

  /** The form state; every input holds text, the capacity too. */
  datatype FormData = FormData(
    title: string,
    description: string,
    location: string,
    date: string,
    maxParticipants: string)

  /** The `name` attributes of the five inputs. */
  datatype Field = Title | Description | Location | Date | MaxParticipants

  function FieldValue(form: FormData, name: Field): string
  {
    match name
    case Title => form.title
    case Description => form.description
    case Location => form.location
    case Date => form.date
    case MaxParticipants => form.maxParticipants
  }

  /** `handleChange`: `{ ...prev, [name]: value }`. */
  function WithField(prev: FormData, name: Field, value: string): (r: FormData)
    ensures FieldValue(r, name) == value
    ensures forall other: Field :: other != name ==> FieldValue(r, other) == FieldValue(prev, other)
  {
    match name
    case Title => prev.(title := value)
    case Description => prev.(description := value)
    case Location => prev.(location := value)
    case Date => prev.(date := value)
    case MaxParticipants => prev.(maxParticipants := value)
  }

  /** Characters that `parseInt` skips before the number: white space and line terminators. */
  predicate IsWhiteSpace(c: char)
  {
    c == ' ' || c == '\t' || c == '\n' || c == '\r' || c == '\U{B}' || c == '\U{C}'
    || c == '\U{A0}' || c == '\U{FEFF}' || c == '\U{2028}' || c == '\U{2029}'
    || c == '\U{1680}' || ('\U{2000}' <= c <= '\U{200A}') || c == '\U{202F}' || c == '\U{205F}' || c == '\U{3000}'
  }

  function TrimStart(s: string): (r: string)
    ensures r == [] || !IsWhiteSpace(r[0])
    ensures exists k :: 0 <= k <= |s| && r == s[k..]
  {
    if s != [] && IsWhiteSpace(s[0]) then
      var r := TrimStart(s[1..]);
      var k :| 0 <= k <= |s| - 1 && r == s[1..][k..];
      assert r == s[k + 1..];
      r
    else
      assert s == s[0..];
      s
  }

  /** A digit in base 10, or in base 16 (either letter case). */
  predicate IsDigit(c: char, radix: nat)
  {
    ('0' <= c <= '9') || (radix == 16 && (('a' <= c <= 'f') || ('A' <= c <= 'F')))
  }

  function DigitOf(c: char): nat
  {
    if '0' <= c <= '9' then c as int - '0' as int
    else if 'a' <= c <= 'f' then c as int - 'a' as int + 10
    else if 'A' <= c <= 'F' then c as int - 'A' as int + 10
    else 0
  }

  /** The longest prefix of `s` made of digits. */
  function LeadingDigits(s: string, radix: nat): (r: string)
    ensures |r| <= |s| && r == s[..|r|]
    ensures forall i :: 0 <= i < |r| ==> IsDigit(r[i], radix)
    ensures |r| < |s| ==> !IsDigit(s[|r|], radix)
  {
    if s != [] && IsDigit(s[0], radix) then [s[0]] + LeadingDigits(s[1..], radix) else []
  }

  /** The value of a digit string, most significant digit first. */
  function DigitsValue(digits: string, radix: nat): nat
  {
    if digits == [] then 0
    else DigitsValue(digits[..|digits| - 1], radix) * radix + DigitOf(digits[|digits| - 1])
  }

  /** The unsigned part of `parseInt`: hexadecimal after `0x`/`0X`, decimal otherwise, up to the first non-digit. */
  function ParseMagnitude(u: string): (r: Option<int>)
    ensures r.Some? ==> r.value >= 0
  {
    var hex := |u| >= 2 && u[0] == '0' && (u[1] == 'x' || u[1] == 'X');
    var radix := if hex then 16 else 10;
    var digits := LeadingDigits(if hex then u[2..] else u, radix);
    var magnitude: int := DigitsValue(digits, radix);
    if digits == [] then None else Some(magnitude)
  }

  /** The text after one leading sign, if there is one. */
  function SignStripped(t: string): string
  {
    if t != [] && (t[0] == '-' || t[0] == '+') then t[1..] else t
  }

  /**
   * `parseInt(s)` with no radix: skip leading white space, take one sign,
   * then read the magnitude; no digit at all is `NaN`, here `None`.
   */
  function ParseInt(s: string): (r: Option<int>)
    ensures r.Some? ==> HasDigit(s)
    ensures s != [] && '0' <= s[0] <= '9' && !(|s| >= 2 && (s[1] == 'x' || s[1] == 'X'))
            ==> r.Some? && r.value >= 0
  {
    SomeDigitIn(s);
    LeadingDigitParses(s);
    var t := TrimStart(s);
    var magnitude := ParseMagnitude(SignStripped(t));
    if t != [] && t[0] == '-' then
      match magnitude
      case None => None
      case Some(m) => Some(-m)
    else
      magnitude
  }

  /** The text holds a decimal digit somewhere. */
  ghost predicate HasDigit(s: string)
  {
    exists k :: 0 <= k < |s| && '0' <= s[k] <= '9'
  }

  /** When a magnitude is found after the white space and the sign, the text holds a decimal digit. */
  lemma SomeDigitIn(s: string)
    ensures ParseMagnitude(SignStripped(TrimStart(s))).Some? ==> HasDigit(s)
  {
    var t := TrimStart(s);
    var j :| 0 <= j <= |s| && t == s[j..];
    var u := SignStripped(t);
    MagnitudeStartsWithDigit(u);
    if ParseMagnitude(u).Some? {
      if t != [] && (t[0] == '-' || t[0] == '+') {
        assert u == t[1..] && s[j + 1] == u[0];
      } else {
        assert s[j] == u[0];
      }
    }
  }

  /** A magnitude is found only in text that starts with a decimal digit. */
  lemma MagnitudeStartsWithDigit(u: string)
    ensures ParseMagnitude(u).Some? ==> u != [] && '0' <= u[0] <= '9'
  {
    if ParseMagnitude(u).Some? && !(|u| >= 2 && u[0] == '0' && (u[1] == 'x' || u[1] == 'X')) {
      var digits := LeadingDigits(u, 10);
      assert digits != [] && u[0] == digits[0];
    }
  }

  /** Text that starts with a decimal digit, not followed by `x`, has nothing to skip and parses. */
  lemma LeadingDigitParses(s: string)
    ensures s != [] && '0' <= s[0] <= '9' && !(|s| >= 2 && (s[1] == 'x' || s[1] == 'X')) ==>
              && TrimStart(s) == s && SignStripped(s) == s
              && ParseMagnitude(s).Some? && ParseMagnitude(s).value >= 0
  {
    if s != [] && '0' <= s[0] <= '9' {
      assert !IsWhiteSpace(s[0]);
      assert LeadingDigits(s, 10) != [];
    }
  }

  function DigitChar(d: nat): char
    requires d < 10
  {
    ('0' as int + d) as char
  }

  /** The decimal rendering of a natural number, as a number input holds it. */
  function Decimal(n: nat): (r: string)
    ensures r != [] && forall i :: 0 <= i < |r| ==> '0' <= r[i] <= '9'
    ensures r[0] == '0' ==> n == 0
  {
    if n < 10 then [DigitChar(n)] else Decimal(n / 10) + [DigitChar(n % 10)]
  }

  lemma {:induction false} DecimalValue(n: nat)
    ensures DigitsValue(Decimal(n), 10) == n
  {
    if n >= 10 {
      DecimalValue(n / 10);
      var d := Decimal(n);
      assert d[..|d| - 1] == Decimal(n / 10);
    } else {
      var d := Decimal(n);
      assert d[..|d| - 1] == [];
    }
  }

  lemma {:induction false} LeadingDigitsOfDigitRun(digits: string, rest: string, radix: nat)
    requires forall i :: 0 <= i < |digits| ==> IsDigit(digits[i], radix)
    requires rest == [] || !IsDigit(rest[0], radix)
    ensures LeadingDigits(digits + rest, radix) == digits
  {
    if digits != [] {
      LeadingDigitsOfDigitRun(digits[1..], rest, radix);
      assert (digits + rest)[1..] == digits[1..] + rest;
    } else {
      assert digits + rest == rest;
    }
  }

  /** A string starting with a digit has no white space or sign to skip. */
  lemma ParseUnsigned(s: string)
    requires s != [] && '0' <= s[0] <= '9'
    ensures ParseInt(s) == ParseMagnitude(s)
  {
    assert !IsWhiteSpace(s[0]);
    assert TrimStart(s) == s && SignStripped(s) == s;
  }

  /** The digits of `n` followed by a non-digit read back as `n`. */
  lemma MagnitudeOfDecimal(n: nat, rest: string)
    requires rest == [] || !('0' <= rest[0] <= '9')
    requires n == 0 ==> rest == [] || (rest[0] != 'x' && rest[0] != 'X')
    ensures ParseMagnitude(Decimal(n) + rest) == Some(n)
  {
    var d := Decimal(n);
    var s := d + rest;
    assert s[0] == d[0];
    assert !(|s| >= 2 && s[0] == '0' && (s[1] == 'x' || s[1] == 'X')) by {
      if |s| >= 2 && s[0] == '0' && |d| < 2 {
        assert s[1] == rest[0];
      }
    }
    LeadingDigitsOfDigitRun(d, rest, 10);
    DecimalValue(n);
  }

  /**
   * `parseInt` reads back the decimal rendering of `n`, and ignores whatever
   * follows it from the first non-digit on ("12 people" reads as 12), unless
   * the number is 0 and an `x` follows, which turns it into a hex prefix.
   */
  lemma ParseDecimalPrefix(n: nat, rest: string)
    requires rest == [] || !('0' <= rest[0] <= '9')
    requires n == 0 ==> rest == [] || (rest[0] != 'x' && rest[0] != 'X')
    ensures ParseInt(Decimal(n) + rest) == Some(n)
  {
    assert (Decimal(n) + rest)[0] == Decimal(n)[0];
    ParseUnsigned(Decimal(n) + rest);
    MagnitudeOfDecimal(n, rest);
  }

  /** What `eventAPI.create` is called with. */
  datatype Payload = Payload(
    title: string,
    description: string,
    location: string,
    date: string,
    maxParticipants: int)

  /** The outcome of validation: an error message to show, or the payload to send. */
  datatype Submission = Rejected(error: string) | Accepted(payload: Payload)

  const AllFieldsRequired: string := "All fields are required"
  const MustBePositive: string := "Max participants must be a positive number"

  predicate AllFilled(form: FormData)
  {
    form.title != "" && form.description != "" && form.location != "" && form.date != ""
    && form.maxParticipants != ""
  }

  /** A form is filled exactly when none of its fields is empty. */
  lemma FilledIffNoEmptyField(form: FormData)
    ensures AllFilled(form) <==> forall name: Field :: FieldValue(form, name) != ""
  {
    if !AllFilled(form) {
      var name := if form.title == "" then Title
        else if form.description == "" then Description
        else if form.location == "" then Location
        else if form.date == "" then Date
        else MaxParticipants;
      assert FieldValue(form, name) == "";
    }
  }

  /** The validation steps of `handleSubmit`: presence first, then a positive integer capacity. */
  function Validate(form: FormData): (s: Submission)
    ensures (exists name: Field :: FieldValue(form, name) == "") ==> s == Rejected(AllFieldsRequired)
    ensures s.Accepted? <==>
              AllFilled(form) && ParseInt(form.maxParticipants).Some? && ParseInt(form.maxParticipants).value > 0
    ensures s.Rejected? && AllFilled(form) ==> s.error == MustBePositive
    ensures s.Accepted? ==>
              && s.payload.title == form.title
              && s.payload.description == form.description
              && s.payload.location == form.location
              && s.payload.date == form.date
              && s.payload.maxParticipants > 0
              && ParseInt(form.maxParticipants) == Some(s.payload.maxParticipants)
  {
    FilledIffNoEmptyField(form);
    if !AllFilled(form) then
      Rejected(AllFieldsRequired)
    else
      var maxParticipants := ParseInt(form.maxParticipants);
      if maxParticipants.None? || maxParticipants.value <= 0 then
        Rejected(MustBePositive)
      else
        Accepted(Payload(form.title, form.description, form.location, form.date, maxParticipants.value))
  }

  /** A filled form whose capacity reads as the positive number `n` is sent with capacity `n`. */
  lemma PositiveDecimalAccepted(form: FormData, n: nat)
    requires form.title != "" && form.description != "" && form.location != "" && form.date != ""
    requires n > 0 && form.maxParticipants == Decimal(n)
    ensures Validate(form) == Accepted(Payload(form.title, form.description, form.location, form.date, n))
  {
    ParseDecimalPrefix(n, []);
    assert Decimal(n) + [] == Decimal(n);
  }

  /** How the create call went: accepted, or refused with the server's `error` text if it sent one. */
  datatype CreateCall = CallSucceeded | CallFailed(serverError: Option<string>)

  const FailedToCreate: string := "Failed to create event"

  /** `err.response?.data?.error || "Failed to create event"` */
  function FailureMessage(serverError: Option<string>): (m: string)
    ensures m != ""
    ensures serverError.Some? && serverError.value != "" ==> m == serverError.value
    ensures !(serverError.Some? && serverError.value != "") ==> m == FailedToCreate
  {
    if serverError.Some? && serverError.value != "" then serverError.value else FailedToCreate
  }

  /** The page's state. */
  class CreateEventPage {
    var formData: FormData
    var error: string
    var loading: bool

    constructor ()
      ensures formData == FormData("", "", "", "", "") && error == "" && !loading
    {
      formData := FormData("", "", "", "", "");
      error := "";
      loading := false;
    }

    /** `handleChange` for the input called `name`. */
    method HandleChange(name: Field, value: string)
      modifies this`formData
      ensures formData == WithField(old(formData), name, value)
    {
      formData := WithField(formData, name, value);
    }

    /**
     * `handleSubmit`. `call` is how the create request went; `sent` is what it
     * was called with, if it was called, and `navigated` tells whether the
     * page moved back to the dashboard.
     */
    method HandleSubmit(call: CreateCall) returns (sent: Option<Payload>, navigated: bool)
      modifies this`error, this`loading
      ensures Validate(formData).Rejected? ==>
                error == Validate(formData).error && sent == None && !navigated && loading == old(loading)
      ensures Validate(formData).Accepted? ==> sent == Some(Validate(formData).payload) && !loading
      ensures Validate(formData).Accepted? && call.CallSucceeded? ==> navigated && error == ""
      ensures Validate(formData).Accepted? && call.CallFailed? ==>
                !navigated && error == FailureMessage(call.serverError)
    {
      error := "";
      sent, navigated := None, false;
      if formData.title == "" || formData.description == "" || formData.location == ""
         || formData.date == "" || formData.maxParticipants == ""
      {
        error := AllFieldsRequired;
        return;
      }
      var maxParticipants := ParseInt(formData.maxParticipants);
      if maxParticipants.None? || maxParticipants.value <= 0 {
        error := MustBePositive;
        return;
      }
      loading := true;
      sent := Some(Payload(formData.title, formData.description, formData.location, formData.date,
                           maxParticipants.value));
      if call.CallSucceeded? {
        navigated := true;
      } else {
        error := FailureMessage(call.serverError);
      }
      loading := false;
    }
  }
}
