/**
 * The sign-up form's client-side checks: phone entry that recognises and
 * strips an international dial code and keeps only digits, the password rule
 * and its four-criterion strength meter, the e-mail pattern
 * `^[^\s@]+@[^\s@]+\.[^\s@]+$`, and the conjunction that enables submission.
 */
module Signup {
  import opened Wrappers
  import Js

  // ----------------------------------------------------------------- phone

  datatype Country = Country(name: string, code: string, dialCode: string)

  /** The countries offered, in list order; the United States and Canada share `+1`. */
  const Countries: seq<Country> := [
    Country("Pakistan", "PK", "+92"),
    Country("United States", "US", "+1"),
    Country("United Kingdom", "GB", "+44"),
    Country("Canada", "CA", "+1"),
    Country("Australia", "AU", "+61")
  ]

  /** `countries.find(c => value.startsWith(c.dialCode))`: the first country whose code prefixes `value`. */
  function FindDialCode(countries: seq<Country>, value: string): (r: Option<Country>)
    ensures r.Some? ==> r.value in countries && Js.StartsWith(value, r.value.dialCode)
    ensures r.None? <==> forall k | 0 <= k < |countries| :: !Js.StartsWith(value, countries[k].dialCode)
    ensures r.Some? ==> exists i | 0 <= i < |countries| ::
      countries[i] == r.value && forall j | 0 <= j < i :: !Js.StartsWith(value, countries[j].dialCode)
    decreases |countries|
  {
    if |countries| == 0 then None
    else if Js.StartsWith(value, countries[0].dialCode) then Some(countries[0])
    else FindDialCode(countries[1..], value)
  }

  /** The phone field's state: the selected dial code and the stored number. */
  datatype PhoneInput = PhoneInput(phoneCode: string, phone: string)

  /** `handlePhoneChange`: select and strip a leading dial code, then keep only the digits. */
  function HandlePhoneChange(value: string, phoneCode: string): (r: PhoneInput)
    ensures forall k | 0 <= k < |r.phone| :: Js.IsDigit(r.phone[k])
    ensures FindDialCode(Countries, value).None? ==> r == PhoneInput(phoneCode, Js.DigitsOnly(value))
    ensures FindDialCode(Countries, value).Some? ==>
      var code := FindDialCode(Countries, value).value.dialCode;
      r.phoneCode == code && value == code + value[|code|..] && r.phone == Js.DigitsOnly(value[|code|..])
  {
    match FindDialCode(Countries, value)
    case Some(c) => PhoneInput(c.dialCode, Js.DigitsOnly(Js.Slice(value, |c.dialCode|)))
    case None => PhoneInput(phoneCode, Js.DigitsOnly(value))
  }

  /** Every dial code starts with `+`. */
  lemma DialCodesStartWithPlus()
    ensures forall c | c in Countries :: |c.dialCode| > 0 && c.dialCode[0] == '+'
  {
  }

  /**
   * No digit of the input is lost: the dial code's digits followed by the
   * stored number are exactly the input's digits.
   */
  lemma PhoneKeepsAllDigits(value: string, phoneCode: string)
    ensures var r := HandlePhoneChange(value, phoneCode);
      Js.DigitsOnly(value) == (if FindDialCode(Countries, value).Some? then Js.DigitsOnly(r.phoneCode) else "") + r.phone
  {
    var found := FindDialCode(Countries, value);
    if found.Some? {
      var code := found.value.dialCode;
      Js.DigitsOnlyAppend(code, value[|code|..]);
    }
  }

  /** Feeding the stored number back in changes nothing: it matches no dial code and is all digits. */
  lemma PhoneIdempotent(value: string, phoneCode: string)
    ensures var r := HandlePhoneChange(value, phoneCode);
      HandlePhoneChange(r.phone, r.phoneCode) == r
  {
    var r := HandlePhoneChange(value, phoneCode);
    DialCodesStartWithPlus();
    assert FindDialCode(Countries, r.phone).None? by {
      forall k | 0 <= k < |Countries|
        ensures !Js.StartsWith(r.phone, Countries[k].dialCode)
      {
        assert Countries[k] in Countries;
      }
    }
    Js.DigitsOnlyOfDigits(r.phone);
  }

  /** A British number is recognised and stripped of its code and separators. */
  lemma PhoneExampleBritish()
    ensures HandlePhoneChange("+44 20", "+92") == PhoneInput("+44", "20")
  {
    var v := "+44 20";
    BritishDialCode();
    assert Js.Slice(v, 3) == " 20";
    assert Js.DigitsOnly(" 20") == "20" by {
      assert " 20"[1..] == "20" && "20"[1..] == "0" && "0"[1..] == "";
    }
  }

  lemma BritishDialCode()
    ensures FindDialCode(Countries, "+44 20") == Some(Countries[2])
  {
    var v := "+44 20";
    assert v[..3] == "+44" && v[..2] == "+4";
    assert FindDialCode(Countries[2..], v) == Some(Countries[2]);
    assert Countries[1..][1..] == Countries[2..];
  }

  /** A `+1` number selects the first country listed with that code. */
  lemma PhoneExampleNorthAmerican()
    ensures FindDialCode(Countries, "+1-55") == Some(Countries[1]) && Countries[1].code == "US"
    ensures HandlePhoneChange("+1-55", "+92") == PhoneInput("+1", "55")
  {
    var v := "+1-55";
    assert v[1] == '1' && v[..2] == "+1";
    assert FindDialCode(Countries, v) == Some(Countries[1]);
    assert v[2..] == "-55";
    assert Js.DigitsOnly("-55") == "55" by {
      assert "-55"[1..] == "55" && "55"[1..] == "5" && "5"[1..] == "";
    }
  }

  /** A number typed without a code keeps the selected code and loses its spaces. */
  lemma PhoneExampleLocal()
    ensures HandlePhoneChange("03 1", "+61") == PhoneInput("+61", "031")
  {
    var v := "03 1";
    assert FindDialCode(Countries, v).None? by {
      DialCodesStartWithPlus();
      forall k | 0 <= k < |Countries|
        ensures !Js.StartsWith(v, Countries[k].dialCode)
      {
        assert Countries[k] in Countries;
      }
    }
  }

  // -------------------------------------------------------------- password

  /** `isPasswordValid`: at least eight characters, one of them a digit. */
  predicate IsPasswordValid(password: string)
  {
    |password| >= 8 && Js.Contains(password, Js.IsDigit)
  }

  function NotAlphanumeric(c: char): bool
  {
    !Js.IsAlphanumeric(c)
  }

  /** How many of the four strength criteria the password meets. */
  function Score(password: string): (n: nat)
    ensures n <= 4
  {
    (if |password| >= 8 then 1 else 0)
    + (if Js.Contains(password, Js.IsDigit) then 1 else 0)
    + (if Js.Contains(password, Js.IsUpper) then 1 else 0)
    + (if Js.Contains(password, NotAlphanumeric) then 1 else 0)
  }

  datatype Strength = Weak | Medium | Strong

  /** `passwordStrength`. */
  function PasswordStrength(password: string): (r: Strength)
    ensures r == Weak <==> Score(password) <= 1
    ensures r == Medium <==> Score(password) == 2
    ensures r == Strong <==> Score(password) >= 3
  {
    var score := Score(password);
    if score <= 1 then Weak else if score == 2 then Medium else Strong
  }

  /** A password the form accepts is never rated weak. */
  lemma ValidPasswordNotWeak(password: string)
    requires IsPasswordValid(password)
    ensures PasswordStrength(password) == Medium || PasswordStrength(password) == Strong
  {
  }

  /** Typing more never lowers the rating: every criterion met by a password is met by its extensions. */
  lemma StrengthMonotone(password: string, more: string)
    ensures Score(password) <= Score(password + more)
    ensures PasswordStrength(password) == Strong ==> PasswordStrength(password + more) == Strong
    ensures PasswordStrength(password) != Weak ==> PasswordStrength(password + more) != Weak
    ensures IsPasswordValid(password) ==> IsPasswordValid(password + more)
  {
    var longer := password + more;
    forall inClass: char -> bool | Js.Contains(password, inClass)
      ensures Js.Contains(longer, inClass)
    {
      var k :| 0 <= k < |password| && inClass(password[k]);
      assert longer[k] == password[k];
    }
  }

  /** Some examples of the meter. */
  lemma StrengthExamples()
    ensures PasswordStrength("password") == Weak
    ensures PasswordStrength("password1") == Medium
    ensures PasswordStrength("Password1!") == Strong
  {
    assert Js.IsDigit("password1"[8]);
    assert Js.IsDigit("Password1!"[8]) && Js.IsUpper("Password1!"[0]) && NotAlphanumeric("Password1!"[9]);
  }

  // ----------------------------------------------------------------- email

  /** The class `[^\s@]`. */
  predicate EmailChar(c: char)
  {
    !Js.IsWhitespace(c) && c != '@'
  }

  /** `[^\s@]+`. */
  predicate Word(s: string)
  {
    |s| > 0 && forall k | 0 <= k < |s| :: EmailChar(s[k])
  }

  /** `s` splits as `a@b.c` with each of `a`, `b`, `c` matching `[^\s@]+`. */
  ghost predicate EmailParts(s: string, a: string, b: string, c: string)
  {
    s == a + "@" + b + "." + c && Word(a) && Word(b) && Word(c)
  }

  /** `/^[^\s@]+@[^\s@]+\.[^\s@]+$/.test(s)`, read off the pattern. */
  ghost predicate MatchesEmailPattern(s: string)
  {
    exists a, b, c :: EmailParts(s, a, b, c)
  }

  /** The only `@` of `s` is at position `i`. */
  predicate OnlyAtSignAt(s: string, i: int)
  {
    0 <= i < |s| && s[i] == '@' && forall k | 0 <= k < |s| && k != i :: s[k] != '@'
  }

  /**
   * The e-mail test the form runs: no whitespace, exactly one `@` with
   * something before it, and after it a `.` with a character on each side.
   */
  predicate IsEmail(s: string)
  {
    && (forall k | 0 <= k < |s| :: !Js.IsWhitespace(s[k]))
    && exists i, j | 0 < i && i + 1 < j < |s| - 1 :: OnlyAtSignAt(s, i) && s[j] == '.'
  }

  /** The e-mail test accepts exactly the strings the pattern matches. */
  lemma EmailTestMatchesPattern(s: string)
    ensures IsEmail(s) <==> MatchesEmailPattern(s)
  {
    if IsEmail(s) {
      var i, j :| 0 < i && i + 1 < j < |s| - 1 && OnlyAtSignAt(s, i) && s[j] == '.';
      var a, b, c := s[..i], s[i + 1..j], s[j + 1..];
      assert s == a + "@" + b + "." + c;
      assert EmailParts(s, a, b, c);
    }
    if MatchesEmailPattern(s) {
      var a, b, c :| EmailParts(s, a, b, c);
      PatternGivesShape(s, a, b, c);
    }
  }

  lemma PatternGivesShape(s: string, a: string, b: string, c: string)
    requires EmailParts(s, a, b, c)
    ensures IsEmail(s)
  {
    var i := |a|;
    var j := |a| + 1 + |b|;
    assert |s| == |a| + |b| + |c| + 2;
    forall k | 0 <= k < |s|
      ensures !Js.IsWhitespace(s[k]) && (k != i ==> s[k] != '@')
    {
      if k < i {
        assert s[k] == a[k];
      } else if k == i {
        assert s[k] == '@';
      } else if k < j {
        assert s[k] == b[k - i - 1];
      } else if k == j {
        assert s[k] == '.';
      } else {
        assert s[k] == c[k - j - 1];
      }
    }
    assert OnlyAtSignAt(s, i) && s[j] == '.';
  }

  /** What an accepted address looks like: no whitespace, one `@`, and a `.` after it flanked by ordinary characters. */
  lemma AcceptedEmailShape(s: string)
    requires MatchesEmailPattern(s)
    ensures forall k | 0 <= k < |s| :: !Js.IsWhitespace(s[k])
    ensures exists i | 0 < i < |s| :: OnlyAtSignAt(s, i)
    ensures exists i, j | 0 < i && i + 1 < j < |s| - 1 :: OnlyAtSignAt(s, i) && s[j] == '.'
                                                        && EmailChar(s[j - 1]) && EmailChar(s[j + 1])
  {
    EmailTestMatchesPattern(s);
    var i, j :| 0 < i && i + 1 < j < |s| - 1 && OnlyAtSignAt(s, i) && s[j] == '.';
    assert EmailChar(s[j - 1]) && EmailChar(s[j + 1]);
  }

  /** Some examples of the e-mail test. */
  lemma EmailExamples()
    ensures IsEmail("ali@shop.pk")
    ensures !IsEmail("ali@shop")
    ensures !IsEmail("a@b@c.d")
  {
    assert OnlyAtSignAt("ali@shop.pk", 3) && "ali@shop.pk"[8] == '.';
    var s := "a@b@c.d";
    assert s[1] == '@' && s[3] == '@';
  }

  // ------------------------------------------------------------------ form

  datatype SignupForm = SignupForm(
    fullName: string,
    email: string,
    password: string,
    confirmPassword: string,
    phone: string,
    phoneCode: string,
    country: string,
    referral: string,
    termsAccepted: bool)

  /** `isFormValid`. */
  predicate IsFormValid(f: SignupForm)
  {
    && |Js.Trim(f.fullName)| > 0
    && IsEmail(f.email)
    && IsPasswordValid(f.password)
    && f.confirmPassword == f.password
    && |Js.Trim(f.phone)| > 0
    && |Js.Trim(f.country)| > 0
    && f.termsAccepted
  }

  /** A field holds something besides whitespace. */
  predicate Filled(s: string)
  {
    exists k | 0 <= k < |s| :: !Js.IsWhitespace(s[k])
  }

  /** The form is valid exactly when all seven requirements hold, stated without `trim`. */
  lemma FormValidIff(f: SignupForm)
    ensures IsFormValid(f) <==>
      && Filled(f.fullName)
      && MatchesEmailPattern(f.email)
      && IsPasswordValid(f.password)
      && f.confirmPassword == f.password
      && Filled(f.phone)
      && Filled(f.country)
      && f.termsAccepted
  {
    Js.TrimNonEmpty(f.fullName);
    Js.TrimNonEmpty(f.phone);
    Js.TrimNonEmpty(f.country);
    EmailTestMatchesPattern(f.email);
  }

  /** What pressing submit does. */
  datatype SubmitOutcome = Ignored | AccountCreated

  /** `handleSubmit`: nothing happens unless the form is valid. */
  function HandleSubmit(f: SignupForm): (r: SubmitOutcome)
    ensures r == AccountCreated ==> IsPasswordValid(f.password) && PasswordStrength(f.password) != Weak
    ensures r == AccountCreated ==> MatchesEmailPattern(f.email) && f.confirmPassword == f.password
    ensures r == Ignored <==> !IsFormValid(f)
  {
    if !IsFormValid(f) then Ignored
    else
      EmailTestMatchesPattern(f.email);
      AccountCreated
  }
}
