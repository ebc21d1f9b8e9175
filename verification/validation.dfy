/** Currency-token validation and normalisation (backend/src/validation.ts). */
module Validation {
  import opened Common
  import opened Text

  /** A JavaScript value as the handlers receive it from the parsed query
      string: absent, a string, or something else (an array or an object,
      which a repeated or bracketed parameter parses to). */
  datatype Value = Undefined | Str(s: string) | Composite {
    /** JavaScript truthiness: only `undefined` and "" are falsy here. */
    predicate Truthy(): (b: bool)
      ensures b <==> this != Undefined && this != Str([])
    {
      match this
      case Undefined => false
      case Str(s) => s != []
      case Composite => true
    }
  }

  /** The four reasons `validateCurrency` gives, in the order it checks them. */
  datatype ValidationError = NotAString | Empty | TooLong | NotUppercaseLetters {
    function Message(): (m: string) {
      match this
      case NotAString => "Currency must be a string"
      case Empty => "Currency cannot be empty"
      case TooLong => "Currency code too long"
      case NotUppercaseLetters => "Currency must contain only uppercase letters"
    }
  }

  /** Longest accepted token, in UTF-16 code units. */
  const MaxCodeLength: nat := 10

  /** The tokens validation accepts: 1 to 10 characters, all `A`-`Z`. */
  predicate IsCurrencyCode(s: string) {
    1 <= |s| <= MaxCodeLength && forall i :: 0 <= i < |s| ==> IsAsciiUpper(s[i])
  }

  /** The values `validateCurrency` accepts. */
  predicate Accepted(v: Value) {
    v.Str? && IsCurrencyCode(v.s)
  }

  /** The regular expression `^[A-Z]+$`. */
  predicate MatchesUppercasePattern(s: string) {
    |s| >= 1 && forall i :: 0 <= i < |s| ==> IsAsciiUpper(s[i])
  }

  /** `validateCurrency`: the first failing check wins; `None` stands for
      the `null` it returns for an accepted token. */
  function ValidateCurrency(v: Value): (r: Option<ValidationError>)
    ensures r == Some(NotAString) <==> !v.Str?
    ensures r == Some(Empty) <==> v.Str? && AllWhitespace(v.s)
    ensures r == Some(TooLong) <==>
      v.Str? && !AllWhitespace(v.s) && Utf16Length(v.s) > MaxCodeLength
    ensures r == Some(NotUppercaseLetters) <==>
      && v.Str? && !AllWhitespace(v.s) && Utf16Length(v.s) <= MaxCodeLength
      && exists i :: 0 <= i < |v.s| && !IsAsciiUpper(v.s[i])
    ensures r == None <==> Accepted(v)
  {
    if !v.Str? then Some(NotAString)
    else if Trim(v.s) == [] then Some(Empty)
    else if Utf16Length(v.s) > MaxCodeLength then Some(TooLong)
    else if !MatchesUppercasePattern(v.s) then Some(NotUppercaseLetters)
    else None
  }

  /** `sanitizeCurrency`: trim, then upper-case. The result has no
      whitespace at either end and no lower-case letter, and an accepted
      token comes back unchanged. */
  function Sanitize(s: string): (r: string)
    ensures |r| <= |s|
    ensures HasTrimmedEnds(r)
    ensures forall i :: 0 <= i < |r| ==> !IsAsciiLower(r[i])
    ensures IsCurrencyCode(s) ==> r == s
  {
    var t := Trim(s);
    CodeIsNormalised(s);
    ToUpperKeepsTrimmedEnds(t);
    ToUpper(t)
  }

  /** A currency code has no whitespace and no lower-case letter, so
      trimming and upper-casing both leave it unchanged. */
  lemma CodeIsNormalised(s: string)
    ensures IsCurrencyCode(s) ==> Trim(s) == s && ToUpper(s) == s
  {
    if IsCurrencyCode(s) {
      assert !IsWhitespace(s[0]) && !IsWhitespace(s[|s| - 1]);
      ToUpperFixesUpper(s);
    }
  }

  /** Sanitising twice is sanitising once. */
  lemma {:induction false} SanitizeIdempotent(s: string)
    ensures Sanitize(Sanitize(s)) == Sanitize(s)
  {
    var u := Sanitize(s);
    assert Trim(u) == u;
    ToUpperFixesUpper(u);
  }

  /** Every token validation accepts is already in sanitised form. */
  lemma AcceptedIsSanitized(v: Value)
    requires ValidateCurrency(v) == None
    ensures v.Str? && Sanitize(v.s) == v.s
  {
  }

  /** Lower-case input is rejected rather than normalised. */
  lemma LowercaseRejected()
    ensures ValidateCurrency(Str("ton")) == Some(NotUppercaseLetters)
  {
    assert !IsAsciiUpper("ton"[0]);
  }
}
