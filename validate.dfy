/**
 * `Validate`: the request-body schemas and the middleware that turns their
 * failures into a 400 response. Every rule of a chain runs, so one field can
 * fail several rules. The email and phone-number checks are parameters.
 */
module Validate {
  import opened Wrappers
  import opened Strings

  /** One failure, as the 400 body lists it: `{field: error.path, message: error.msg}`. */
  datatype FieldError = FieldError(field: string, message: string)

  /** How `validate` ends: `next()`, or a 400 with all failures. */
  datatype Verdict = Proceed | BadRequest(status: int, errors: seq<FieldError>)

  function Validate(errors: seq<FieldError>): (v: Verdict)
    ensures v.Proceed? <==> errors == []
    ensures v.BadRequest? ==> v.status == 400 && v.errors == errors
  {
    if errors == [] then Proceed else BadRequest(400, errors)
  }

  // ---------------------------------------------------------------------------
  // The patterns, matched the way JavaScript matches them

  /** JavaScript's line terminators, which `.` does not match. */
  predicate IsLineTerminator(c: char) {
    c == '\n' || c == '\r' || c == '\U{2028}' || c == '\U{2029}'
  }

  /** `^[C]+$`: a non-empty run of cls characters and nothing else. */
  predicate OneOrMore(s: string, cls: char -> bool)
    decreases |s|
  {
    s != [] && cls(s[0]) && (|s| == 1 || OneOrMore(s[1..], cls))
  }

  /** `[C]{n,}$` from the start: at least `n` cls characters and nothing else. */
  predicate AtLeast(s: string, cls: char -> bool, n: nat)
    decreases |s|
  {
    if s == [] then n == 0 else cls(s[0]) && AtLeast(s[1..], cls, if n == 0 then 0 else n - 1)
  }

  /** `(?=.*[C])` at the start: a cls character reached across no line terminator. */
  predicate Ahead(s: string, cls: char -> bool)
    decreases |s|
  {
    s != [] && (cls(s[0]) || (!IsLineTerminator(s[0]) && Ahead(s[1..], cls)))
  }

  predicate All(s: string, cls: char -> bool) {
    forall i :: 0 <= i < |s| ==> cls(s[i])
  }

  predicate Any(s: string, cls: char -> bool) {
    exists i :: 0 <= i < |s| && cls(s[i])
  }

  lemma {:induction false} OneOrMoreIff(s: string, cls: char -> bool)
    ensures OneOrMore(s, cls) <==> |s| >= 1 && All(s, cls)
    decreases |s|
  {
    if |s| > 1 {
      OneOrMoreIff(s[1..], cls);
      if All(s, cls) {
        assert forall i :: 0 <= i < |s[1..]| ==> s[1..][i] == s[i + 1];
      }
      if cls(s[0]) && All(s[1..], cls) {
        forall i | 0 <= i < |s| ensures cls(s[i]) {
          if i > 0 { assert s[i] == s[1..][i - 1]; }
        }
      }
    }
  }

  lemma {:induction false} AtLeastIff(s: string, cls: char -> bool, n: nat)
    ensures AtLeast(s, cls, n) <==> |s| >= n && All(s, cls)
    decreases |s|
  {
    if s != [] {
      AtLeastIff(s[1..], cls, if n == 0 then 0 else n - 1);
      if All(s, cls) {
        assert forall i :: 0 <= i < |s[1..]| ==> s[1..][i] == s[i + 1];
      }
      if cls(s[0]) && All(s[1..], cls) {
        forall i | 0 <= i < |s| ensures cls(s[i]) {
          if i > 0 { assert s[i] == s[1..][i - 1]; }
        }
      }
    }
  }

  /** Over a text without line terminators a lookahead is plain containment. */
  lemma {:induction false} AheadIff(s: string, cls: char -> bool)
    requires forall i :: 0 <= i < |s| ==> !IsLineTerminator(s[i])
    ensures Ahead(s, cls) <==> Any(s, cls)
    decreases |s|
  {
    if s != [] {
      assert forall i :: 0 <= i < |s[1..]| ==> s[1..][i] == s[i + 1];
      AheadIff(s[1..], cls);
      if Any(s, cls) && !cls(s[0]) {
        var i :| 0 <= i < |s| && cls(s[i]);
        assert s[1..][i - 1] == s[i];
      }
      if Any(s[1..], cls) {
        var i :| 0 <= i < |s[1..]| && cls(s[1..][i]);
        assert cls(s[i + 1]);
      }
    }
  }

  // ---------------------------------------------------------------------------
  // Character classes

  predicate UsernameChar(c: char) { IsAsciiLetter(c) || IsDigit(c) || c == '_' }

  predicate NameChar(c: char) { IsAsciiLetter(c) || IsSpace(c) || c == '\'' || c == '-' }

  predicate SpecialChar(c: char) { c in "@$!%*?&" }

  predicate PasswordChar(c: char) { IsAsciiLetter(c) || IsDigit(c) || SpecialChar(c) }

  // ---------------------------------------------------------------------------
  // The rule chains

  /** A failure when the check does not hold. */
  function Check(field: string, ok: bool, message: string): (r: seq<FieldError>)
    ensures forall e :: e in r ==> e.field == field
  {
    if ok then [] else [FieldError(field, message)]
  }

  /** A field the schema reads without `optional()`: undefined reads as the empty string. */
  function Text(v: Option<string>): string { if v.Some? then v.value else "" }

  /** `trim().isLength({min: 3, max: 50}).matches(/^[a-zA-Z0-9_]+$/)`. */
  function UsernameErrors(v: Option<string>): (r: seq<FieldError>)
    ensures forall e :: e in r ==> e.field == "username"
  {
    var t := Trim(Text(v));
    Check("username", 3 <= |t| <= 50, "Username must be 3-50 characters long") +
    Check("username", OneOrMore(t, UsernameChar), "Username can only contain letters, numbers, and underscores")
  }

  /** `/^(?=.*[a-z])(?=.*[A-Z])(?=.*\d)(?=.*[@$!%*?&])[A-Za-z\d@$!%*?&]{8,}$/`. */
  predicate PasswordPattern(p: string) {
    && Ahead(p, IsAsciiLower) && Ahead(p, IsAsciiUpper) && Ahead(p, IsDigit) && Ahead(p, SpecialChar)
    && AtLeast(p, PasswordChar, 8)
  }

  /** `isLength({min: 8}).matches(pattern)`, untrimmed, with the messages of the field. */
  function PasswordErrors(field: string, v: Option<string>, lengthMessage: string, patternMessage: string)
    : (r: seq<FieldError>)
    ensures forall e :: e in r ==> e.field == field
  {
    var p := Text(v);
    Check(field, |p| >= 8, lengthMessage) + Check(field, PasswordPattern(p), patternMessage)
  }

  /** `trim().isLength({min: 2, max: 50}).matches(/^[a-zA-Z\s'-]+$/)` for the first or last name. */
  function NameErrors(field: string, fieldName: string, v: Option<string>): (r: seq<FieldError>)
    ensures forall e :: e in r ==> e.field == field
  {
    var t := Trim(Text(v));
    Check(field, 2 <= |t| <= 50, fieldName + " must be 2-50 characters long") +
    Check(field, OneOrMore(t, NameChar), fieldName + " can only contain letters, spaces, hyphens, and apostrophes")
  }

  /** `trim().isEmail()`; the `normalizeEmail` sanitiser reports nothing. */
  function EmailErrors(v: Option<string>, isEmail: string -> bool): (r: seq<FieldError>)
    ensures forall e :: e in r ==> e.field == "email"
  {
    Check("email", isEmail(Trim(Text(v))), "Invalid email address")
  }

  /** `isFloat({min, max})`: `asFloat` is `None` for text that is not a number. */
  predicate FloatIn(s: string, lo: real, hi: real, asFloat: string -> Option<real>) {
    asFloat(s).Some? && lo <= asFloat(s).value <= hi
  }

  /** `optional().isLength({min: 2, max: 10})` on the language code. */
  function LanguageErrors(v: Option<string>): (r: seq<FieldError>)
    ensures forall e :: e in r ==> e.field == "language"
  {
    if v.None? then [] else Check("language", 2 <= |v.value| <= 10, "Language code must be 2-10 characters")
  }

  /** `optional({checkFalsy})` then `isMobilePhone`: with `checkFalsy` the empty string is skipped too. */
  function PhoneErrors(v: Option<string>, checkFalsy: bool, isMobilePhone: string -> bool): (r: seq<FieldError>)
    ensures forall e :: e in r ==> e.field == "phoneNumber"
  {
    if v.None? || (checkFalsy && v.value == "") then []
    else Check("phoneNumber", isMobilePhone(v.value), "Invalid phone number")
  }

  /** `optional().isFloat({min: lo, max: hi})` on a coordinate. */
  function CoordinateErrors(field: string, v: Option<string>, lo: real, hi: real, message: string,
                            asFloat: string -> Option<real>): (r: seq<FieldError>)
    ensures forall e :: e in r ==> e.field == field
  {
    if v.None? then [] else Check(field, FloatIn(v.value, lo, hi, asFloat), message)
  }

  /** A rule chain under `optional()`: skipped when the field is undefined. */
  function OptionalNameErrors(field: string, fieldName: string, v: Option<string>): (r: seq<FieldError>)
    ensures forall e :: e in r ==> e.field == field
  {
    if v.None? then [] else NameErrors(field, fieldName, v)
  }

  datatype RegisterBody = RegisterBody(
    username: Option<string>, email: Option<string>, password: Option<string>,
    firstName: Option<string>, lastName: Option<string>, phoneNumber: Option<string>,
    latitude: Option<string>, longitude: Option<string>, language: Option<string>)

  /** The `register` schema: each field's errors in chain order, the fields taken in schema order. */
  function RegisterErrors(b: RegisterBody, isEmail: string -> bool, isMobilePhone: string -> bool,
                          asFloat: string -> Option<real>): seq<FieldError>
  {
    UsernameErrors(b.username) +
    EmailErrors(b.email, isEmail) +
    PasswordErrors("password", b.password, "Password must be at least 8 characters long",
                   "Password must include uppercase, lowercase, number, and special character") +
    NameErrors("firstName", "First name", b.firstName) +
    NameErrors("lastName", "Last name", b.lastName) +
    PhoneErrors(b.phoneNumber, true, isMobilePhone) +
    CoordinateErrors("latitude", b.latitude, -90.0, 90.0, "Latitude must be between -90 and 90", asFloat) +
    CoordinateErrors("longitude", b.longitude, -180.0, 180.0, "Longitude must be between -180 and 180", asFloat) +
    LanguageErrors(b.language)
  }

  datatype LoginBody = LoginBody(email: Option<string>, password: Option<string>)

  /** The `login` schema: a valid email and a non-empty password. */
  function LoginErrors(b: LoginBody, isEmail: string -> bool): (r: seq<FieldError>)
    ensures forall e :: e in r ==> e.field == "email" || e.field == "password"
  {
    EmailErrors(b.email, isEmail) + Check("password", Text(b.password) != "", "Password is required")
  }

  datatype ProfileBody = ProfileBody(firstName: Option<string>, lastName: Option<string>,
                                     phoneNumber: Option<string>, language: Option<string>)

  /** The `updateProfile` schema: each rule is `optional()`. */
  function ProfileErrors(b: ProfileBody, isMobilePhone: string -> bool): (r: seq<FieldError>)
    ensures forall e :: e in r ==> e.field in {"firstName", "lastName", "phoneNumber", "language"}
  {
    OptionalNameErrors("firstName", "First name", b.firstName) +
    OptionalNameErrors("lastName", "Last name", b.lastName) +
    PhoneErrors(b.phoneNumber, false, isMobilePhone) +
    LanguageErrors(b.language)
  }

  datatype PasswordChangeBody = PasswordChangeBody(currentPassword: Option<string>, newPassword: Option<string>)

  /** The `changePassword` schema. */
  function ChangePasswordErrors(b: PasswordChangeBody): (r: seq<FieldError>)
    ensures forall e :: e in r ==> e.field == "currentPassword" || e.field == "newPassword"
  {
    Check("currentPassword", Text(b.currentPassword) != "", "Current password is required") +
    PasswordErrors("newPassword", b.newPassword, "New password must be at least 8 characters long",
                   "New password must include uppercase, lowercase, number, and special character")
  }

  // ---------------------------------------------------------------------------
  // What the rules accept

  /** A username after trimming: 3 to 50 letters, digits and underscores. */
  predicate GoodUsername(t: string) { 3 <= |t| <= 50 && All(t, UsernameChar) }

  /** A strong password: at least 8 allowed characters, with a lowercase and an uppercase letter, a digit and a special character. */
  predicate StrongPassword(p: string) {
    && |p| >= 8 && All(p, PasswordChar)
    && Any(p, IsAsciiLower) && Any(p, IsAsciiUpper) && Any(p, IsDigit) && Any(p, SpecialChar)
  }

  /** A name after trimming: 2 to 50 letters, white space, apostrophes and hyphens. */
  predicate GoodName(t: string) { 2 <= |t| <= 50 && All(t, NameChar) }

  lemma UsernameAccepted(v: Option<string>)
    ensures UsernameErrors(v) == [] <==> GoodUsername(Trim(Text(v)))
  {
    OneOrMoreIff(Trim(Text(v)), UsernameChar);
  }

  /** The password pattern holds exactly for strong passwords. */
  lemma PasswordPatternIff(p: string)
    ensures PasswordPattern(p) <==> StrongPassword(p)
  {
    AtLeastIff(p, PasswordChar, 8);
    if All(p, PasswordChar) {
      assert forall i :: 0 <= i < |p| ==> !IsLineTerminator(p[i]) by {
        forall i | 0 <= i < |p| ensures !IsLineTerminator(p[i]) {
          assert PasswordChar(p[i]);
        }
      }
      AheadIff(p, IsAsciiLower);
      AheadIff(p, IsAsciiUpper);
      AheadIff(p, IsDigit);
      AheadIff(p, SpecialChar);
    }
  }

  lemma PasswordAccepted(field: string, v: Option<string>, m1: string, m2: string)
    ensures PasswordErrors(field, v, m1, m2) == [] <==> StrongPassword(Text(v))
  {
    PasswordPatternIff(Text(v));
  }

  /** A password that is too short fails both rules, so it is reported twice. */
  lemma ShortPasswordTwice(field: string, v: Option<string>, m1: string, m2: string)
    requires |Text(v)| < 8
    ensures PasswordErrors(field, v, m1, m2) == [FieldError(field, m1), FieldError(field, m2)]
  {
    AtLeastIff(Text(v), PasswordChar, 8);
  }

  lemma NameAccepted(field: string, fieldName: string, v: Option<string>)
    ensures NameErrors(field, fieldName, v) == [] <==> GoodName(Trim(Text(v)))
  {
    OneOrMoreIff(Trim(Text(v)), NameChar);
  }

  /** The registration schema in one statement. */
  lemma RegisterAccepted(b: RegisterBody, isEmail: string -> bool, isMobilePhone: string -> bool,
                         asFloat: string -> Option<real>)
    ensures RegisterErrors(b, isEmail, isMobilePhone, asFloat) == [] <==>
      && GoodUsername(Trim(Text(b.username)))
      && isEmail(Trim(Text(b.email)))
      && StrongPassword(Text(b.password))
      && GoodName(Trim(Text(b.firstName))) && GoodName(Trim(Text(b.lastName)))
      && (b.phoneNumber.Some? && b.phoneNumber.value != "" ==> isMobilePhone(b.phoneNumber.value))
      && (b.latitude.Some? ==> FloatIn(b.latitude.value, -90.0, 90.0, asFloat))
      && (b.longitude.Some? ==> FloatIn(b.longitude.value, -180.0, 180.0, asFloat))
      && (b.language.Some? ==> 2 <= |b.language.value| <= 10)
  {
    var u, e := UsernameErrors(b.username), EmailErrors(b.email, isEmail);
    var pw := PasswordErrors("password", b.password, "Password must be at least 8 characters long",
                             "Password must include uppercase, lowercase, number, and special character");
    var first, last := NameErrors("firstName", "First name", b.firstName), NameErrors("lastName", "Last name", b.lastName);
    var phone := PhoneErrors(b.phoneNumber, true, isMobilePhone);
    var lat := CoordinateErrors("latitude", b.latitude, -90.0, 90.0, "Latitude must be between -90 and 90", asFloat);
    var lon := CoordinateErrors("longitude", b.longitude, -180.0, 180.0, "Longitude must be between -180 and 180", asFloat);
    var lang := LanguageErrors(b.language);
    assert |RegisterErrors(b, isEmail, isMobilePhone, asFloat)| ==
      |u| + |e| + |pw| + |first| + |last| + |phone| + |lat| + |lon| + |lang|;
    UsernameAccepted(b.username);
    PasswordAccepted("password", b.password, "Password must be at least 8 characters long",
                     "Password must include uppercase, lowercase, number, and special character");
    NameAccepted("firstName", "First name", b.firstName);
    NameAccepted("lastName", "Last name", b.lastName);
    RegisterRestAccepted(b, isEmail, isMobilePhone, asFloat);
  }

  /** The email, phone, coordinate and language rules of registration, one by one. */
  lemma RegisterRestAccepted(b: RegisterBody, isEmail: string -> bool, isMobilePhone: string -> bool,
                             asFloat: string -> Option<real>)
    ensures EmailErrors(b.email, isEmail) == [] <==> isEmail(Trim(Text(b.email)))
    ensures PhoneErrors(b.phoneNumber, true, isMobilePhone) == [] <==>
      (b.phoneNumber.Some? && b.phoneNumber.value != "" ==> isMobilePhone(b.phoneNumber.value))
    ensures CoordinateErrors("latitude", b.latitude, -90.0, 90.0, "Latitude must be between -90 and 90", asFloat) == [] <==>
      (b.latitude.Some? ==> FloatIn(b.latitude.value, -90.0, 90.0, asFloat))
    ensures CoordinateErrors("longitude", b.longitude, -180.0, 180.0, "Longitude must be between -180 and 180", asFloat) == [] <==>
      (b.longitude.Some? ==> FloatIn(b.longitude.value, -180.0, 180.0, asFloat))
    ensures LanguageErrors(b.language) == [] <==> (b.language.Some? ==> 2 <= |b.language.value| <= 10)
  {
    PhoneAccepted(b.phoneNumber, true, isMobilePhone);
    CoordinateAccepted("latitude", b.latitude, -90.0, 90.0, "Latitude must be between -90 and 90", asFloat);
    CoordinateAccepted("longitude", b.longitude, -180.0, 180.0, "Longitude must be between -180 and 180", asFloat);
    LanguageAccepted(b.language);
  }

  lemma PhoneAccepted(v: Option<string>, checkFalsy: bool, isMobilePhone: string -> bool)
    ensures PhoneErrors(v, checkFalsy, isMobilePhone) == [] <==>
      (v.Some? && !(checkFalsy && v.value == "") ==> isMobilePhone(v.value))
  {
  }

  lemma CoordinateAccepted(field: string, v: Option<string>, lo: real, hi: real, message: string,
                           asFloat: string -> Option<real>)
    ensures CoordinateErrors(field, v, lo, hi, message, asFloat) == [] <==> (v.Some? ==> FloatIn(v.value, lo, hi, asFloat))
  {
  }

  lemma LanguageAccepted(v: Option<string>)
    ensures LanguageErrors(v) == [] <==> (v.Some? ==> 2 <= |v.value| <= 10)
  {
  }

  /** Every `updateProfile` failure names a field the body carries, so an empty body always passes. */
  lemma ProfileRulesOptional(b: ProfileBody, isMobilePhone: string -> bool)
    ensures forall e :: e in ProfileErrors(b, isMobilePhone) ==>
      (e.field == "firstName" && b.firstName.Some?) || (e.field == "lastName" && b.lastName.Some?) ||
      (e.field == "phoneNumber" && b.phoneNumber.Some?) || (e.field == "language" && b.language.Some?)
    ensures ProfileErrors(ProfileBody(None, None, None, None), isMobilePhone) == []
  {
    var a, c := OptionalNameErrors("firstName", "First name", b.firstName), OptionalNameErrors("lastName", "Last name", b.lastName);
    var p, l := PhoneErrors(b.phoneNumber, false, isMobilePhone), LanguageErrors(b.language);
    assert ProfileErrors(b, isMobilePhone) == a + c + p + l;
    forall e: FieldError | e in a + c + p + l
      ensures (e.field == "firstName" && b.firstName.Some?) || (e.field == "lastName" && b.lastName.Some?) ||
              (e.field == "phoneNumber" && b.phoneNumber.Some?) || (e.field == "language" && b.language.Some?)
    {
      if e in a { assert b.firstName.Some?; }
      else if e in c { assert b.lastName.Some?; }
      else if e in p { assert b.phoneNumber.Some?; }
    }
  }

  /** Names and language that registration accepts are accepted by a profile update too. */
  lemma RegisteredProfileAccepted(b: RegisterBody, isEmail: string -> bool, isMobilePhone: string -> bool,
                                  asFloat: string -> Option<real>)
    requires RegisterErrors(b, isEmail, isMobilePhone, asFloat) == []
    requires b.phoneNumber.Some? ==> b.phoneNumber.value != ""
    ensures ProfileErrors(ProfileBody(b.firstName, b.lastName, b.phoneNumber, b.language), isMobilePhone) == []
  {
    RegisterAccepted(b, isEmail, isMobilePhone, asFloat);
    ProfileAccepted(ProfileBody(b.firstName, b.lastName, b.phoneNumber, b.language), isMobilePhone);
  }

  /** The `updateProfile` schema in one statement: each present field satisfies its rule. */
  lemma ProfileAccepted(b: ProfileBody, isMobilePhone: string -> bool)
    ensures ProfileErrors(b, isMobilePhone) == [] <==>
      && (b.firstName.Some? ==> GoodName(Trim(Text(b.firstName))))
      && (b.lastName.Some? ==> GoodName(Trim(Text(b.lastName))))
      && (b.phoneNumber.Some? ==> isMobilePhone(b.phoneNumber.value))
      && (b.language.Some? ==> 2 <= |b.language.value| <= 10)
  {
    var a, c := OptionalNameErrors("firstName", "First name", b.firstName), OptionalNameErrors("lastName", "Last name", b.lastName);
    var p, l := PhoneErrors(b.phoneNumber, false, isMobilePhone), LanguageErrors(b.language);
    assert |ProfileErrors(b, isMobilePhone)| == |a| + |c| + |p| + |l|;
    OptionalNameAccepted("firstName", "First name", b.firstName);
    OptionalNameAccepted("lastName", "Last name", b.lastName);
    PhoneAccepted(b.phoneNumber, false, isMobilePhone);
    LanguageAccepted(b.language);
  }

  lemma OptionalNameAccepted(field: string, fieldName: string, v: Option<string>)
    ensures OptionalNameErrors(field, fieldName, v) == [] <==> (v.Some? ==> GoodName(Trim(Text(v))))
  {
    NameAccepted(field, fieldName, v);
  }

  /** The `login` schema passes exactly for an email `isEmail` accepts after trimming and a non-empty password. */
  lemma LoginAccepted(b: LoginBody, isEmail: string -> bool)
    ensures LoginErrors(b, isEmail) == [] <==> isEmail(Trim(Text(b.email))) && Text(b.password) != ""
    ensures !isEmail(Trim(Text(b.email))) && Text(b.password) == "" ==>
      LoginErrors(b, isEmail) == [FieldError("email", "Invalid email address"), FieldError("password", "Password is required")]
  {
  }

  /** A new password passes `changePassword` exactly when it would pass registration. */
  lemma NewPasswordAccepted(b: PasswordChangeBody)
    ensures ChangePasswordErrors(b) == [] <==> Text(b.currentPassword) != "" && StrongPassword(Text(b.newPassword))
  {
    PasswordAccepted("newPassword", b.newPassword, "New password must be at least 8 characters long",
                     "New password must include uppercase, lowercase, number, and special character");
  }
}
