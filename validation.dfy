/**
 * Input rules of the user directory: the e-mail format test of
 * `isValidEmail` and the ordered rule chain of `register`.
 */
module Validation {
  import opened Optional
  import opened Text
  import Search

  const MIN_PASSWORD_LENGTH: nat := 8

  const ERR_FIELDS_REQUIRED: String := "Tous les champs sont requis."
  const ERR_INVALID_EMAIL: String := "Email invalide."
  const ERR_PASSWORD_TOO_SHORT: String := "Le mot de passe doit contenir au moins 8 caractères."
  const ERR_PASSWORD_NO_UPPERCASE: String := "Le mot de passe doit contenir au moins une majuscule."
  const ERR_PASSWORD_NO_DIGIT: String := "Le mot de passe doit contenir au moins un chiffre."
  const ERR_EMAIL_TAKEN: String := "Un compte existe déjà avec cet email."

  /** One run of `[^\s@]+`. */
  predicate IsAtom(t: String) {
    |t| > 0 && forall k :: 0 <= k < |t| ==> !IsJsWhitespace(t[k]) && t[k] != '@'
  }

  /** The strings `/^[^\s@]+@[^\s@]+\.[^\s@]+$/` matches: local "@" domain "." suffix. */
  ghost predicate MatchesEmailPattern(s: String) {
    exists at, dot :: 0 <= at < dot < |s| && s[at] == '@' && s[dot] == '.' &&
      IsAtom(s[..at]) && IsAtom(s[at + 1..dot]) && IsAtom(s[dot + 1..])
  }

  predicate IsAtSign(c: char) { c == '@' }

  /** No whitespace anywhere, and the only "@" is the one at index `at`. */
  predicate SingleAtNoSpace(email: String, at: int) {
    forall k :: 0 <= k < |email| ==> !IsJsWhitespace(email[k]) && (email[k] == '@' ==> k == at)
  }

  /** A "." after the "@" at `at`, with at least one character on either side. */
  predicate DotInDomain(email: String, at: int) {
    exists dot :: 0 <= at && at + 1 < dot < |email| - 1 && email[dot] == '.'
  }

  /**
   * `isValidEmail`: no whitespace, exactly one "@" with something before it,
   * and a "." after it with something on both sides.
   */
  predicate IsValidEmail(email: String) {
    var at := Search.FindIndex(email, IsAtSign);
    0 < at && SingleAtNoSpace(email, at) && DotInDomain(email, at)
  }

  /** The scan in IsValidEmail accepts exactly the strings the regular expression matches. */
  lemma IsValidEmailMatchesPattern(email: String)
    ensures IsValidEmail(email) <==> MatchesEmailPattern(email)
  {
    if IsValidEmail(email) {
      ValidEmailMatches(email);
    }
    if MatchesEmailPattern(email) {
      MatchingEmailIsValid(email);
    }
  }

  lemma ValidEmailMatches(email: String)
    requires IsValidEmail(email)
    ensures MatchesEmailPattern(email)
  {
    var at := Search.FindIndex(email, IsAtSign);
    var dot :| at + 1 < dot < |email| - 1 && email[dot] == '.';
    var local, domain, suffix := email[..at], email[at + 1..dot], email[dot + 1..];
    assert forall k :: 0 <= k < |local| ==> local[k] == email[k];
    assert forall k :: 0 <= k < |domain| ==> domain[k] == email[at + 1 + k];
    assert forall k :: 0 <= k < |suffix| ==> suffix[k] == email[dot + 1 + k];
    assert IsAtom(local) && IsAtom(domain) && IsAtom(suffix);
  }

  lemma MatchingEmailIsValid(email: String)
    requires MatchesEmailPattern(email)
    ensures IsValidEmail(email)
  {
    var at, dot :| 0 <= at < dot < |email| && email[at] == '@' && email[dot] == '.' &&
      IsAtom(email[..at]) && IsAtom(email[at + 1..dot]) && IsAtom(email[dot + 1..]);
    var local, domain, suffix := email[..at], email[at + 1..dot], email[dot + 1..];
    forall k | 0 <= k < |email|
      ensures !IsJsWhitespace(email[k]) && (email[k] == '@' ==> k == at)
    {
      if k < at {
        assert email[k] == local[k];
      } else if at < k < dot {
        assert email[k] == domain[k - at - 1];
      } else if dot < k {
        assert email[k] == suffix[k - dot - 1];
      }
    }
    assert Search.FindIndex(email, IsAtSign) == at;
    assert DotInDomain(email, at);
  }

  /** `/[A-Z]/.test(password)` */
  predicate HasUppercase(p: String) {
    exists i :: 0 <= i < |p| && IsAsciiUpper(p[i])
  }

  /** `/[0-9]/.test(password)`; as with `/[A-Z]/`, no surrogate code unit matches, so testing characters suffices. */
  predicate HasDigit(p: String) {
    exists i :: 0 <= i < |p| && IsAsciiDigit(p[i])
  }

  predicate FieldsPresent(email: String, password: String, firstName: String, lastName: String) {
    email != [] && password != [] && firstName != [] && lastName != []
  }

  predicate PasswordIsStrong(p: String) {
    JsLength(p) >= MIN_PASSWORD_LENGTH && HasUppercase(p) && HasDigit(p)
  }

  /**
   * The message of the first rule of `register` that fails, in the source's
   * order, or None when all pass; `taken` says whether the e-mail is
   * already registered.
   */
  function RegistrationFailure(email: String, password: String, firstName: String, lastName: String,
                               taken: bool): (r: Option<String>)
    ensures r.None? <==>
      FieldsPresent(email, password, firstName, lastName) && IsValidEmail(email) &&
      PasswordIsStrong(password) && !taken
    ensures !FieldsPresent(email, password, firstName, lastName) ==> r == Some(ERR_FIELDS_REQUIRED)
    ensures r == Some(ERR_INVALID_EMAIL) <==>
      FieldsPresent(email, password, firstName, lastName) && !IsValidEmail(email)
    ensures r == Some(ERR_PASSWORD_TOO_SHORT) <==>
      FieldsPresent(email, password, firstName, lastName) && IsValidEmail(email) &&
      JsLength(password) < MIN_PASSWORD_LENGTH
    ensures r == Some(ERR_PASSWORD_NO_UPPERCASE) <==>
      FieldsPresent(email, password, firstName, lastName) && IsValidEmail(email) &&
      JsLength(password) >= MIN_PASSWORD_LENGTH && !HasUppercase(password)
    ensures r == Some(ERR_PASSWORD_NO_DIGIT) <==>
      FieldsPresent(email, password, firstName, lastName) && IsValidEmail(email) &&
      JsLength(password) >= MIN_PASSWORD_LENGTH && HasUppercase(password) && !HasDigit(password)
    ensures r == Some(ERR_EMAIL_TAKEN) <==>
      FieldsPresent(email, password, firstName, lastName) && IsValidEmail(email) &&
      PasswordIsStrong(password) && taken
  {
    if !FieldsPresent(email, password, firstName, lastName) then Some(ERR_FIELDS_REQUIRED)
    else if !IsValidEmail(email) then Some(ERR_INVALID_EMAIL)
    else if JsLength(password) < MIN_PASSWORD_LENGTH then Some(ERR_PASSWORD_TOO_SHORT)
    else if !HasUppercase(password) then Some(ERR_PASSWORD_NO_UPPERCASE)
    else if !HasDigit(password) then Some(ERR_PASSWORD_NO_DIGIT)
    else if taken then Some(ERR_EMAIL_TAKEN)
    else None
  }
}
