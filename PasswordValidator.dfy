/** The password strength rules (js/PasswordValidator.js). */
module Passwords {
  import opened Text

  /** One error per failed rule; the Arabic message texts are not modelled. */
  datatype PasswordError = TooShort | NoUppercase | NoLowercase | NoDigit | NoSpecialChar | TooCommon

  /** `{ isValid, errors }`. */
  datatype ValidationResult = ValidationResult(isValid: bool, errors: seq<PasswordError>)

  const MIN_LENGTH: nat := 8

  /** The characters of the class `[!@#$%^&*(),.?":{}|<>]`. */
  const SPECIAL_CHARS: string := "!@#$%^&*(),.?\":{}|<>"

  /** The list the lower-cased password is compared against, whole. */
  const COMMON_PASSWORDS: seq<string> := [
    "password", "123456", "qwerty", "admin", "12345678", "123456789",
    "qazwsxedc", "zaqwsxcde", "asdfghjkl", "zxcvbnm", "football", "bank"]

  predicate HasUppercase(password: string) { exists i :: 0 <= i < |password| && 'A' <= password[i] <= 'Z' }
  predicate HasLowercase(password: string) { exists i :: 0 <= i < |password| && 'a' <= password[i] <= 'z' }
  predicate HasDigit(password: string) { exists i :: 0 <= i < |password| && '0' <= password[i] <= '9' }
  predicate HasSpecialChar(password: string) { exists i :: 0 <= i < |password| && password[i] in SPECIAL_CHARS }
  predicate IsCommon(password: string) { Lower(password) in COMMON_PASSWORDS }

  /** The rule behind each error. */
  predicate Fails(password: string, e: PasswordError) {
    match e
    case TooShort => |password| < MIN_LENGTH
    case NoUppercase => !HasUppercase(password)
    case NoLowercase => !HasLowercase(password)
    case NoDigit => !HasDigit(password)
    case NoSpecialChar => !HasSpecialChar(password)
    case TooCommon => IsCommon(password)
  }

  /** A password that passes every rule. */
  predicate IsStrong(password: string) {
    && |password| >= MIN_LENGTH
    && HasUppercase(password) && HasLowercase(password) && HasDigit(password) && HasSpecialChar(password)
    && !IsCommon(password)
  }

  /** Strength is the absence of every failure. */
  lemma StrongMeansNoRuleFails(password: string)
    ensures IsStrong(password) <==> forall e :: !Fails(password, e)
  {
    if !IsStrong(password) {
      var e := if |password| < MIN_LENGTH then TooShort
               else if !HasUppercase(password) then NoUppercase
               else if !HasLowercase(password) then NoLowercase
               else if !HasDigit(password) then NoDigit
               else if !HasSpecialChar(password) then NoSpecialChar
               else TooCommon;
      assert Fails(password, e);
    }
  }

  /** The position of each error in the order the rules are checked. */
  function Rank(e: PasswordError): nat {
    match e
    case TooShort => 0
    case NoUppercase => 1
    case NoLowercase => 2
    case NoDigit => 3
    case NoSpecialChar => 4
    case TooCommon => 5
  }

  predicate RankedStrictly(errors: seq<PasswordError>) {
    forall i, j :: 0 <= i < j < |errors| ==> Rank(errors[i]) < Rank(errors[j])
  }

  /** Errors in strictly increasing rule order are at most six, one per rule. */
  lemma {:induction false} RankedErrorsAtMostSix(errors: seq<PasswordError>)
    requires RankedStrictly(errors)
    ensures |errors| <= 6
    ensures errors != [] ==> Rank(errors[|errors| - 1]) >= |errors| - 1
  {
    if errors != [] {
      var init := errors[..|errors| - 1];
      assert RankedStrictly(init);
      RankedErrorsAtMostSix(init);
      if init != [] {
        assert Rank(init[|init| - 1]) < Rank(errors[|errors| - 1]);
      }
    }
  }

  /** `errors` holds exactly the failures among the first `k` rules, in rule order. */
  ghost predicate CheckedUpTo(password: string, errors: seq<PasswordError>, k: nat) {
    && (forall e :: e in errors <==> Rank(e) < k && Fails(password, e))
    && RankedStrictly(errors)
  }

  /** Checking rule `e` next keeps `CheckedUpTo` one rule further. */
  lemma CheckNext(password: string, before: seq<PasswordError>, after: seq<PasswordError>, e: PasswordError)
    requires CheckedUpTo(password, before, Rank(e))
    requires after == if Fails(password, e) then before + [e] else before
    ensures CheckedUpTo(password, after, Rank(e) + 1)
  {
    forall x ensures x in after <==> Rank(x) < Rank(e) + 1 && Fails(password, x) {
      if Rank(x) == Rank(e) {
        assert x == e;
      }
    }
  }

  /** Once all six rules are checked, the errors are exactly the failures, and none means strong. */
  lemma AllRulesChecked(password: string, errors: seq<PasswordError>)
    requires CheckedUpTo(password, errors, 6)
    ensures forall e :: e in errors <==> Fails(password, e)
    ensures |errors| <= 6
    ensures errors == [] <==> IsStrong(password)
  {
    RankedErrorsAtMostSix(errors);
    forall e ensures e in errors <==> Fails(password, e) {
      assert Rank(e) < 6;
    }
    StrongMeansNoRuleFails(password);
    assert errors != [] ==> errors[0] in errors;
  }

  /**
   * `PasswordValidator.validate(password)`: the errors of the failed rules, in rule order,
   * and valid exactly when there are none.
   */
  method Validate(password: string) returns (r: ValidationResult)
    ensures forall e :: e in r.errors <==> Fails(password, e)
    ensures RankedStrictly(r.errors)
    ensures |r.errors| <= 6
    ensures r.isValid <==> r.errors == []
    ensures r.isValid <==> IsStrong(password)
  {
    var errors: seq<PasswordError> := [];
    ghost var checked := errors;
    if |password| < MIN_LENGTH {
      errors := errors + [TooShort];
    }
    CheckNext(password, checked, errors, TooShort);
    checked := errors;
    var hasUppercase := HasUppercase(password);
    var hasLowercase := HasLowercase(password);
    var hasNumber := HasDigit(password);
    var hasSpecialChar := HasSpecialChar(password);
    if !hasUppercase {
      errors := errors + [NoUppercase];
    }
    CheckNext(password, checked, errors, NoUppercase);
    checked := errors;
    if !hasLowercase {
      errors := errors + [NoLowercase];
    }
    CheckNext(password, checked, errors, NoLowercase);
    checked := errors;
    if !hasNumber {
      errors := errors + [NoDigit];
    }
    CheckNext(password, checked, errors, NoDigit);
    checked := errors;
    if !hasSpecialChar {
      errors := errors + [NoSpecialChar];
    }
    CheckNext(password, checked, errors, NoSpecialChar);
    checked := errors;
    if Lower(password) in COMMON_PASSWORDS {
      errors := errors + [TooCommon];
    }
    CheckNext(password, checked, errors, TooCommon);
    AllRulesChecked(password, errors);
    if |errors| > 0 {
      r := ValidationResult(false, errors);
    } else {
      r := ValidationResult(true, []);
    }
  }

  /** A common password is refused whatever its letters' case. */
  lemma CommonCheckIgnoresCase(password: string)
    requires Lower(password) in COMMON_PASSWORDS
    ensures !IsStrong(password)
    ensures IsCommon(Lower(password))
  {
    LowerIdempotent(password);
  }
}
