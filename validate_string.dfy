/**
 * string.go: the string validator. Its setters record constraints; Validate substitutes the default for
 * a blank value and then checks, in a fixed order, required, optional, minimum and maximum byte length,
 * the pattern, the e-mail shape and the custom check, returning the first failure.
 */
module StringValidation {
  import opened Wrappers
  import opened Text
  import opened ValidationErrors

  /** A compiled regular expression, as the strings it matches (the regexp engine is not modelled). */
  type Regexp = string -> bool

  /** The constraints a StringValidator holds. */
  datatype StringRules = StringRules(
    minLen: Option<int>,
    maxLen: Option<int>,
    pattern: Option<Regexp>,
    email: bool,
    custom: Option<Validator<string>>,
    required: bool,
    defaultVal: Option<string>,
    optional: bool)

  /** The constraints of a fresh `String()`: none. */
  const NoStringRules: StringRules := StringRules(None, None, None, false, None, false, None, false)

  const RequiredError: Error := Error("", "required", "field is required")
  const FormatError: Error := Error("", "invalid_format", "invalid format")
  const EmailError: Error := Error("", "invalid_email", "must be a valid email address")

  function TooShortError(n: int): Error { Error("", "too_short", "must be at least " + IntText(n) + " characters") }
  function TooLongError(n: int): Error { Error("", "too_long", "must be at most " + IntText(n) + " characters") }

  /** The value the checks see: the default when one is set and the value is blank. */
  function Effective(r: StringRules, value: string): string
  {
    if r.defaultVal.Some? && IsBlank(value) then r.defaultVal.value else value
  }

  /** string.go Validate as a function of the constraints (specification of StringValidator.Validate). */
  function StringVerdict(r: StringRules, value: string): Option<Error>
  {
    var v := Effective(r, value);
    if r.required && IsBlank(v) then Some(RequiredError)
    else if r.optional && IsBlank(v) then None
    else if r.minLen.Some? && Utf8Len(v) < r.minLen.value then Some(TooShortError(r.minLen.value))
    else if r.maxLen.Some? && Utf8Len(v) > r.maxLen.value then Some(TooLongError(r.maxLen.value))
    else if r.pattern.Some? && !r.pattern.value(v) then Some(FormatError)
    else if r.email && (!Contains(v, "@") || !Contains(v, ".")) then Some(EmailError)
    else if r.custom.Some? then r.custom.value(v)
    else None
  }

  /** What a value must satisfy for the checks after `optional` to pass. */
  predicate MeetsChecks(r: StringRules, v: string)
  {
    && (r.minLen.Some? ==> Utf8Len(v) >= r.minLen.value)
    && (r.maxLen.Some? ==> Utf8Len(v) <= r.maxLen.value)
    && (r.pattern.Some? ==> r.pattern.value(v))
    && (r.email ==> Contains(v, "@") && Contains(v, "."))
    && (r.custom.Some? ==> r.custom.value(v).None?)
  }

  /** string.go StringValidator: the builder whose setters return the receiver. */
  class StringValidator {
    var minLen: Option<int>
    var maxLen: Option<int>
    var pattern: Option<Regexp>
    var email: bool
    var custom: Option<Validator<string>>
    var required: bool
    var defaultVal: Option<string>
    var optional: bool

    function Rules(): StringRules
      reads this
    {
      StringRules(minLen, maxLen, pattern, email, custom, required, defaultVal, optional)
    }

    /** string.go String(): no constraints. */
    constructor ()
      ensures Rules() == NoStringRules
    {
      minLen, maxLen, pattern, email, custom := None, None, None, false, None;
      required, defaultVal, optional := false, None, false;
    }

    method MinLen(length: int) returns (self: StringValidator)
      modifies this
      ensures self == this && Rules() == old(Rules()).(minLen := Some(length))
    {
      minLen := Some(length);
      self := this;
    }

    method MaxLen(length: int) returns (self: StringValidator)
      modifies this
      ensures self == this && Rules() == old(Rules()).(maxLen := Some(length))
    {
      maxLen := Some(length);
      self := this;
    }

    method Pattern(re: Regexp) returns (self: StringValidator)
      modifies this
      ensures self == this && Rules() == old(Rules()).(pattern := Some(re))
    {
      pattern := Some(re);
      self := this;
    }

    /** The alias of Pattern. */
    method Matches(re: Regexp) returns (self: StringValidator)
      modifies this
      ensures self == this && Rules() == old(Rules()).(pattern := Some(re))
    {
      self := Pattern(re);
    }

    method Default(val: string) returns (self: StringValidator)
      modifies this
      ensures self == this && Rules() == old(Rules()).(defaultVal := Some(val))
    {
      defaultVal := Some(val);
      self := this;
    }

    method Optional() returns (self: StringValidator)
      modifies this
      ensures self == this && Rules() == old(Rules()).(optional := true)
    {
      optional := true;
      self := this;
    }

    /** Records nothing: the catch value is dropped. */
    method Catch(val: string) returns (self: StringValidator)
      ensures self == this && Rules() == old(Rules())
    {
      self := this;
    }

    method Email() returns (self: StringValidator)
      modifies this
      ensures self == this && Rules() == old(Rules()).(email := true)
    {
      email := true;
      self := this;
    }

    method Required() returns (self: StringValidator)
      modifies this
      ensures self == this && Rules() == old(Rules()).(required := true)
    {
      required := true;
      self := this;
    }

    method Custom(fn: Validator<string>) returns (self: StringValidator)
      modifies this
      ensures self == this && Rules() == old(Rules()).(custom := Some(fn))
    {
      custom := Some(fn);
      self := this;
    }

    /** The validator as a value, with the constraints it holds now. */
    function AsValidator(): (f: Validator<string>)
      reads this
      ensures forall value :: f(value) == StringVerdict(Rules(), value)
    {
      var r := Rules();
      value => StringVerdict(r, value)
    }

    /** string.go Validate: the default first, then the checks in order; the first failure is returned. */
    method Validate(value: string) returns (err: Option<Error>)
      ensures err == StringVerdict(Rules(), value)
    {
      var v := value;
      TrimSpaceEmptyIffBlank(v);
      if defaultVal.Some? && |TrimSpace(v)| == 0 {
        v := defaultVal.value;
      }
      assert v == Effective(Rules(), value);
      TrimSpaceEmptyIffBlank(v);
      if required && |TrimSpace(v)| == 0 {
        return Some(RequiredError);
      }
      if optional && |TrimSpace(v)| == 0 {
        return None;
      }
      if minLen.Some? && Utf8Len(v) < minLen.value {
        return Some(TooShortError(minLen.value));
      }
      if maxLen.Some? && Utf8Len(v) > maxLen.value {
        return Some(TooLongError(maxLen.value));
      }
      if pattern.Some? && !pattern.value(v) {
        return Some(FormatError);
      }
      if email && (!Contains(v, "@") || !Contains(v, ".")) {
        return Some(EmailError);
      }
      if custom.Some? {
        var customErr := custom.value(v);
        if customErr.Some? {
          return customErr;
        }
      }
      return None;
    }
  }

  // ---------------------------------------------------------------------------------------------
  // Properties

  /**
   * A value passes exactly when the value after defaulting is not blank-and-required and is either
   * blank-and-optional or meets every set check.
   */
  lemma StringPassesIff(r: StringRules, value: string)
    ensures StringVerdict(r, value).None? <==>
            var v := Effective(r, value);
            !(r.required && IsBlank(v)) && ((r.optional && IsBlank(v)) || MeetsChecks(r, v))
  {
  }

  /** The default is applied before all checks: validating a blank value is validating the default. */
  lemma DefaultFirst(r: StringRules, value: string)
    requires r.defaultVal.Some?
    ensures IsBlank(value) ==> StringVerdict(r, value) == StringVerdict(r.(defaultVal := None), r.defaultVal.value)
    ensures !IsBlank(value) ==> StringVerdict(r, value) == StringVerdict(r.(defaultVal := None), value)
  {
  }

  /** A required value that is blank after defaulting fails with "required", whatever else is set. */
  lemma RequiredBlankFails(r: StringRules, value: string)
    requires r.required && IsBlank(Effective(r, value))
    ensures StringVerdict(r, value) == Some(RequiredError)
  {
  }

  /** An optional, not required, blank value passes without any later check running. */
  lemma OptionalBlankPasses(r: StringRules, value: string)
    requires !r.required && r.optional && IsBlank(Effective(r, value))
    ensures StringVerdict(r, value) == None
  {
  }

  /** A blank value is settled before the length checks: `required` fails it, `optional` passes it. */
  predicate SettledWhenBlank(r: StringRules, v: string)
  {
    (r.required || r.optional) && IsBlank(v)
  }

  /**
   * The failure reported is the first check in order that fails. Without a custom check, each built-in
   * code implies that its own check failed and every earlier one passed (a custom check's error may carry
   * any code). The custom check runs only after every built-in check has passed, and then its verdict is
   * the result; when a built-in check fails, the custom check plays no part.
   */
  lemma StringFirstFailure(r: StringRules, value: string)
    ensures var v := Effective(r, value);
            var res := StringVerdict(r, value);
            && (res.Some? && res.value.code == "required" && r.custom.None? ==> r.required && IsBlank(v))
            && (res.Some? && res.value.code == "too_short" && r.custom.None? ==>
                  !SettledWhenBlank(r, v) && r.minLen.Some? && Utf8Len(v) < r.minLen.value)
            && (res.Some? && res.value.code == "too_long" && r.custom.None? ==>
                  !SettledWhenBlank(r, v) && r.maxLen.Some? && Utf8Len(v) > r.maxLen.value
                  && (r.minLen.Some? ==> Utf8Len(v) >= r.minLen.value))
            && (res.Some? && res.value.code == "invalid_format" && r.custom.None? ==>
                  !SettledWhenBlank(r, v) && r.pattern.Some? && !r.pattern.value(v)
                  && (r.minLen.Some? ==> Utf8Len(v) >= r.minLen.value)
                  && (r.maxLen.Some? ==> Utf8Len(v) <= r.maxLen.value))
            && (res.Some? && res.value.code == "invalid_email" && r.custom.None? ==>
                  !SettledWhenBlank(r, v) && r.email && (!Contains(v, "@") || !Contains(v, "."))
                  && (r.minLen.Some? ==> Utf8Len(v) >= r.minLen.value)
                  && (r.maxLen.Some? ==> Utf8Len(v) <= r.maxLen.value)
                  && (r.pattern.Some? ==> r.pattern.value(v)))
            && (r.custom.Some? && !SettledWhenBlank(r, v) && MeetsChecks(r.(custom := None), v) ==>
                  res == r.custom.value(v))
            && (r.custom.Some? && !SettledWhenBlank(r, v) && !MeetsChecks(r.(custom := None), v) ==>
                  res.Some? && res.value.code in {"too_short", "too_long", "invalid_format", "invalid_email"})
            && (!SettledWhenBlank(r, v) && !MeetsChecks(r.(custom := None), v) ==>
                  res == StringVerdict(r.(custom := None), value))
  {
  }

  /**
   * Conversely, the first check in the order required, length, pattern, e-mail that fails is the one
   * reported, custom check or not.
   */
  lemma StringCheckOrder(r: StringRules, value: string)
    ensures var v := Effective(r, value);
            var res := StringVerdict(r, value);
            && (r.required && IsBlank(v) ==> res == Some(RequiredError))
            && (!SettledWhenBlank(r, v) && r.minLen.Some? && Utf8Len(v) < r.minLen.value ==>
                  res == Some(TooShortError(r.minLen.value)))
            && (!SettledWhenBlank(r, v) && r.maxLen.Some? && Utf8Len(v) > r.maxLen.value
                && (r.minLen.Some? ==> Utf8Len(v) >= r.minLen.value) ==>
                  res == Some(TooLongError(r.maxLen.value)))
            && (!SettledWhenBlank(r, v) && r.pattern.Some? && !r.pattern.value(v)
                && (r.minLen.Some? ==> Utf8Len(v) >= r.minLen.value)
                && (r.maxLen.Some? ==> Utf8Len(v) <= r.maxLen.value) ==>
                  res == Some(FormatError))
            && (!SettledWhenBlank(r, v) && r.email && (!Contains(v, "@") || !Contains(v, "."))
                && (r.minLen.Some? ==> Utf8Len(v) >= r.minLen.value)
                && (r.maxLen.Some? ==> Utf8Len(v) <= r.maxLen.value)
                && (r.pattern.Some? ==> r.pattern.value(v)) ==>
                  res == Some(EmailError))
  {
  }

  /** With only the e-mail check set, a value passes exactly when it contains both "@" and ".". */
  lemma EmailOnly(value: string)
    ensures StringVerdict(NoStringRules.(email := true), value).None? <==> Contains(value, "@") && Contains(value, ".")
  {
  }

  /** The length checks count UTF-8 bytes: "é" is two bytes long, so MinLen(2) accepts it and MaxLen(1) refuses it. */
  lemma LengthInBytes()
    ensures StringVerdict(NoStringRules.(minLen := Some(2)), "\U{E9}") == None
    ensures StringVerdict(NoStringRules.(maxLen := Some(1)), "\U{E9}") == Some(TooLongError(1))
  {
    assert Utf8Len("\U{E9}") == 2 by { assert "\U{E9}"[..0] == []; }
  }

  /**
   * A custom check's error is returned as it is, blank values included: without Required or Optional a
   * blank value goes on to the checks like any other.
   */
  lemma CustomErrorAsIs(fn: Validator<string>, value: string)
    ensures StringVerdict(NoStringRules.(custom := Some(fn)), value) == fn(value)
  {
  }
}
