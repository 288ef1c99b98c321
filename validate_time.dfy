/**
 * time.go: the time validator. An instant is a count of nanoseconds from Go's zero time (January 1,
 * year 1, UTC), so the zero time is the instant 0; it carries its RFC 3339 text, which depends on its
 * location and which the error messages quote.
 */
module TimeValidation {
  import opened Wrappers
  import opened ValidationErrors

  /** A `time.Time`: its position on the time line and its RFC 3339 rendering. */
  datatype Instant = Instant(at: int, rfc3339: string)
  {
    /** `t.IsZero()`. */
    predicate IsZero() { at == 0 }
    /** `t.After(u)`: strictly later. */
    predicate After(u: Instant) { at > u.at }
    /** `t.Before(u)`: strictly earlier. */
    predicate Before(u: Instant) { at < u.at }
  }

  /** The constraints a TimeValidator holds; `between` is the pair (start, end). */
  datatype TimeRules = TimeRules(
    after: Option<Instant>,
    before: Option<Instant>,
    between: Option<(Instant, Instant)>,
    custom: Option<Validator<Instant>>,
    required: bool)

  /** The constraints of a fresh `Time()`: none. */
  const NoTimeRules: TimeRules := TimeRules(None, None, None, None, false)

  const RequiredError: Error := Error("", "required", "field is required")
  function TooEarlyError(t: Instant): Error { Error("", "too_early", "time must be after " + t.rfc3339) }
  function TooLateError(t: Instant): Error { Error("", "too_late", "time must be before " + t.rfc3339) }
  function OutOfRangeError(start: Instant, end: Instant): Error
  {
    Error("", "out_of_range", "time must be between " + start.rfc3339 + " and " + end.rfc3339)
  }

  /** time.go Validate as a function of the constraints (specification of TimeValidator.Validate). */
  function TimeVerdict(r: TimeRules, value: Instant): Option<Error>
  {
    if r.required && value.IsZero() then Some(RequiredError)
    else if !r.required && value.IsZero() then None
    else if r.after.Some? && !value.After(r.after.value) then Some(TooEarlyError(r.after.value))
    else if r.before.Some? && !value.Before(r.before.value) then Some(TooLateError(r.before.value))
    else if r.between.Some? && (value.Before(r.between.value.0) || value.After(r.between.value.1)) then
      Some(OutOfRangeError(r.between.value.0, r.between.value.1))
    else if r.custom.Some? then r.custom.value(value)
    else None
  }

  /** A non-zero instant meets every constraint that is set (`between` inclusive at both ends). */
  predicate SatisfiesTime(r: TimeRules, value: Instant)
  {
    && (r.after.Some? ==> value.at > r.after.value.at)
    && (r.before.Some? ==> value.at < r.before.value.at)
    && (r.between.Some? ==> r.between.value.0.at <= value.at <= r.between.value.1.at)
    && (r.custom.Some? ==> r.custom.value(value).None?)
  }

  /** time.go TimeValidator: the builder whose setters return the receiver. */
  class TimeValidator {
    var after: Option<Instant>
    var before: Option<Instant>
    var between: Option<(Instant, Instant)>
    var custom: Option<Validator<Instant>>
    var required: bool

    function Rules(): TimeRules
      reads this
    {
      TimeRules(after, before, between, custom, required)
    }

    /** time.go Time(): no constraints. */
    constructor ()
      ensures Rules() == NoTimeRules
    {
      after, before, between, custom, required := None, None, None, None, false;
    }

    method After(t: Instant) returns (self: TimeValidator)
      modifies this
      ensures self == this && Rules() == old(Rules()).(after := Some(t))
    {
      after := Some(t);
      self := this;
    }

    method Before(t: Instant) returns (self: TimeValidator)
      modifies this
      ensures self == this && Rules() == old(Rules()).(before := Some(t))
    {
      before := Some(t);
      self := this;
    }

    method Between(start: Instant, end: Instant) returns (self: TimeValidator)
      modifies this
      ensures self == this && Rules() == old(Rules()).(between := Some((start, end)))
    {
      between := Some((start, end));
      self := this;
    }

    method Custom(fn: Validator<Instant>) returns (self: TimeValidator)
      modifies this
      ensures self == this && Rules() == old(Rules()).(custom := Some(fn))
    {
      custom := Some(fn);
      self := this;
    }

    method Required() returns (self: TimeValidator)
      modifies this
      ensures self == this && Rules() == old(Rules()).(required := true)
    {
      required := true;
      self := this;
    }

    /** The validator as a value, with the constraints it holds now. */
    function AsValidator(): (f: Validator<Instant>)
      reads this
      ensures forall value :: f(value) == TimeVerdict(Rules(), value)
    {
      var r := Rules();
      value => TimeVerdict(r, value)
    }

    /** time.go Validate: the zero-time checks, then after, before, between and custom, in that order. */
    method Validate(value: Instant) returns (err: Option<Error>)
      ensures err == TimeVerdict(Rules(), value)
    {
      if required && value.IsZero() {
        return Some(RequiredError);
      }
      if !required && value.IsZero() {
        return None;
      }
      if after.Some? && !value.After(after.value) {
        return Some(TooEarlyError(after.value));
      }
      if before.Some? && !value.Before(before.value) {
        return Some(TooLateError(before.value));
      }
      if between.Some? {
        var (start, end) := between.value;
        if value.Before(start) || value.After(end) {
          return Some(OutOfRangeError(start, end));
        }
      }
      if custom.Some? {
        var customErr := custom.value(value);
        if customErr.Some? {
          return customErr;
        }
      }
      return None;
    }
  }

  // ---------------------------------------------------------------------------------------------
  // Properties

  /** The zero time fails with "required" when required and passes otherwise, whatever else is set. */
  lemma ZeroTime(r: TimeRules, value: Instant)
    requires value.IsZero()
    ensures TimeVerdict(r, value) == if r.required then Some(RequiredError) else None
  {
  }

  /** A non-zero instant passes exactly when it meets every constraint that is set. */
  lemma TimePassesIff(r: TimeRules, value: Instant)
    requires !value.IsZero()
    ensures TimeVerdict(r, value).None? <==> SatisfiesTime(r, value)
  {
  }

  /** `After` is strict: the bound itself is too early; `Before` likewise is too late. */
  lemma StrictBounds(t: Instant)
    requires !t.IsZero()
    ensures TimeVerdict(NoTimeRules.(after := Some(t)), t) == Some(TooEarlyError(t))
    ensures TimeVerdict(NoTimeRules.(before := Some(t)), t) == Some(TooLateError(t))
  {
  }

  /** `Between` is inclusive: both ends pass, and only instants outside fail with "out_of_range". */
  lemma BetweenInclusive(start: Instant, end: Instant, value: Instant)
    requires !value.IsZero()
    ensures TimeVerdict(NoTimeRules.(between := Some((start, end))), value).None?
            <==> start.at <= value.at <= end.at
    ensures TimeVerdict(NoTimeRules.(between := Some((start, end))), value).Some? ==>
            TimeVerdict(NoTimeRules.(between := Some((start, end))), value) == Some(OutOfRangeError(start, end))
  {
  }

  /**
   * The first failing check in the order after, before, between, custom is the one reported, custom check
   * or not. Without a custom check (whose error may carry any code), each built-in code implies its own
   * check failed and the earlier ones passed. The custom check runs only once every built-in check has
   * passed, and then its verdict is the result.
   */
  lemma TimeFirstFailure(r: TimeRules, value: Instant)
    requires !value.IsZero()
    ensures r.after.Some? && value.at <= r.after.value.at ==> TimeVerdict(r, value) == Some(TooEarlyError(r.after.value))
    ensures TimeVerdict(r, value).Some? && TimeVerdict(r, value).value.code == "too_late" && r.custom.None? ==>
              r.before.Some? && value.at >= r.before.value.at && (r.after.Some? ==> value.at > r.after.value.at)
    ensures TimeVerdict(r, value).Some? && TimeVerdict(r, value).value.code == "out_of_range" && r.custom.None? ==>
              r.between.Some? && !(r.between.value.0.at <= value.at <= r.between.value.1.at)
              && (r.after.Some? ==> value.at > r.after.value.at) && (r.before.Some? ==> value.at < r.before.value.at)
    ensures r.before.Some? && value.at >= r.before.value.at && (r.after.Some? ==> value.at > r.after.value.at) ==>
              TimeVerdict(r, value) == Some(TooLateError(r.before.value))
    ensures r.between.Some? && !(r.between.value.0.at <= value.at <= r.between.value.1.at)
            && (r.after.Some? ==> value.at > r.after.value.at) && (r.before.Some? ==> value.at < r.before.value.at) ==>
              TimeVerdict(r, value) == Some(OutOfRangeError(r.between.value.0, r.between.value.1))
    ensures r.custom.Some? && SatisfiesTime(r.(custom := None), value) ==> TimeVerdict(r, value) == r.custom.value(value)
    ensures !SatisfiesTime(r.(custom := None), value) ==>
              TimeVerdict(r, value).Some? && TimeVerdict(r, value).value.code in {"too_early", "too_late", "out_of_range"}
  {
  }
}
