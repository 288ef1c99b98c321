/**
 * int.go: the integer validator. Bounds and signs are checked in the order min, max, positive,
 * negative, and the first failing check is reported. Go's `int` is 64 bits wide; the checks only
 * compare, so unbounded integers decide them the same way for every 64-bit value.
 */
module IntValidation {
  import opened Wrappers
  import opened Text
  import opened ValidationErrors

  /** The constraints an IntValidator holds. */
  datatype IntRules = IntRules(min: Option<int>, max: Option<int>, positive: bool, negative: bool)

  /** The constraints of a fresh `Int()`: none. */
  const NoIntRules: IntRules := IntRules(None, None, false, false)

  function TooSmallError(n: int): Error { Error("", "too_small", "value must be at least " + IntText(n)) }
  function TooLargeError(n: int): Error { Error("", "too_large", "value must be at most " + IntText(n)) }
  const NotPositiveError: Error := Error("", "not_positive", "value must be positive")
  const NotNegativeError: Error := Error("", "not_negative", "value must be negative")

  /** int.go Validate as a function of the constraints (specification of IntValidator.Validate). */
  function IntVerdict(r: IntRules, value: int): Option<Error>
  {
    if r.min.Some? && value < r.min.value then Some(TooSmallError(r.min.value))
    else if r.max.Some? && value > r.max.value then Some(TooLargeError(r.max.value))
    else if r.positive && value <= 0 then Some(NotPositiveError)
    else if r.negative && value >= 0 then Some(NotNegativeError)
    else None
  }

  /** Every constraint that is set holds of `value`. */
  predicate SatisfiesInt(r: IntRules, value: int)
  {
    && (r.min.Some? ==> value >= r.min.value)
    && (r.max.Some? ==> value <= r.max.value)
    && (r.positive ==> value > 0)
    && (r.negative ==> value < 0)
  }

  /** int.go IntValidator: the builder whose setters return the receiver. */
  class IntValidator {
    var min: Option<int>
    var max: Option<int>
    var positive: bool
    var negative: bool

    function Rules(): IntRules
      reads this
    {
      IntRules(min, max, positive, negative)
    }

    /** int.go Int(): no constraints. */
    constructor ()
      ensures Rules() == NoIntRules
    {
      min, max, positive, negative := None, None, false, false;
    }

    method Min(value: int) returns (self: IntValidator)
      modifies this
      ensures self == this && Rules() == old(Rules()).(min := Some(value))
    {
      min := Some(value);
      self := this;
    }

    method Max(value: int) returns (self: IntValidator)
      modifies this
      ensures self == this && Rules() == old(Rules()).(max := Some(value))
    {
      max := Some(value);
      self := this;
    }

    method Positive() returns (self: IntValidator)
      modifies this
      ensures self == this && Rules() == old(Rules()).(positive := true)
    {
      positive := true;
      self := this;
    }

    method Negative() returns (self: IntValidator)
      modifies this
      ensures self == this && Rules() == old(Rules()).(negative := true)
    {
      negative := true;
      self := this;
    }

    /** The validator as a value, with the constraints it holds now. */
    function AsValidator(): (f: Validator<int>)
      reads this
      ensures forall value :: f(value) == IntVerdict(Rules(), value)
    {
      var r := Rules();
      value => IntVerdict(r, value)
    }

    /** int.go Validate: the checks in order; the first failure is returned. */
    method Validate(value: int) returns (err: Option<Error>)
      ensures err == IntVerdict(Rules(), value)
    {
      if min.Some? && value < min.value {
        return Some(TooSmallError(min.value));
      }
      if max.Some? && value > max.value {
        return Some(TooLargeError(max.value));
      }
      if positive && value <= 0 {
        return Some(NotPositiveError);
      }
      if negative && value >= 0 {
        return Some(NotNegativeError);
      }
      return None;
    }
  }

  // ---------------------------------------------------------------------------------------------
  // Properties

  /** A value passes exactly when every constraint that is set holds. */
  lemma IntPassesIff(r: IntRules, value: int)
    ensures IntVerdict(r, value).None? <==> SatisfiesInt(r, value)
  {
  }

  /** The reported failure is the first failing check in the order min, max, positive, negative. */
  lemma IntFirstFailure(r: IntRules, value: int)
    ensures IntVerdict(r, value) == Some(TooSmallError(r.min.value)) <== r.min.Some? && value < r.min.value
    ensures IntVerdict(r, value).Some? && IntVerdict(r, value).value.code == "too_large" ==>
              r.max.Some? && value > r.max.value && (r.min.Some? ==> value >= r.min.value)
    ensures IntVerdict(r, value) == Some(NotPositiveError) ==>
              r.positive && value <= 0 && (r.min.Some? ==> value >= r.min.value) && (r.max.Some? ==> value <= r.max.value)
    ensures IntVerdict(r, value) == Some(NotNegativeError) ==>
              r.negative && value >= 0 && !(r.positive && value <= 0)
              && (r.min.Some? ==> value >= r.min.value) && (r.max.Some? ==> value <= r.max.value)
  {
  }

  /** A fresh `Int()` accepts every value. */
  lemma NoConstraintsPass(value: int)
    ensures IntVerdict(NoIntRules, value) == None
  {
  }

  /** With both Positive and Negative set, every value fails. */
  lemma PositiveAndNegativeRejectAll(r: IntRules, value: int)
    requires r.positive && r.negative
    ensures IntVerdict(r, value).Some?
  {
  }

  /** `v.Min(a).Min(b)`: the later Min overwrites the earlier one and nothing else changes. */
  method LaterMinWins(v: IntValidator, a: int, b: int) returns (self: IntValidator)
    modifies v
    ensures self == v && v.Rules() == old(v.Rules()).(min := Some(b))
  {
    var first := v.Min(a);
    self := first.Min(b);
  }
}
