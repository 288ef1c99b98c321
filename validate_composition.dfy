/**
 * composition.go: validators built from other validators. OneOf passes when some validator passes,
 * AllOf reports the first failure, Not inverts a verdict.
 */
module Composition {
  import opened Wrappers
  import opened ValidationErrors

  /** The error OneOf reports, carrying the field of the last failure seen. */
  function NoMatchError(field: string): Error
  {
    Error(field, "no_match", "value did not match any of the requirements")
  }

  const InvalidMatchError: Error := Error("", "invalid_match", "value matched when it should not have")

  /** The error of the last validator of a non-empty list. */
  function LastError<T>(validators: seq<Validator<T>>, value: T): Option<Error>
    requires validators != []
  {
    validators[|validators| - 1](value)
  }

  /** OneOf's verdict (specification of OneOfValidator.Validate). */
  function OneOfVerdict<T>(validators: seq<Validator<T>>, value: T): (err: Option<Error>)
    requires validators != []
  {
    if exists i :: 0 <= i < |validators| && validators[i](value).None? then None
    else Some(NoMatchError(LastError(validators, value).value.field))
  }

  /** AllOf's verdict: the first error in list order (specification of AllOfValidator.Validate). */
  function FirstError<T>(validators: seq<Validator<T>>, value: T): Option<Error>
  {
    if validators == [] then None
    else match validators[0](value)
         case Some(e) => Some(e)
         case None => FirstError(validators[1..], value)
  }

  /** composition.go OneOfValidator. A list without validators makes Go dereference a nil error. */
  datatype OneOfValidator<!T> = OneOfValidator(validators: seq<Validator<T>>)
  {
    /** Returns as soon as one validator passes; otherwise "no_match" with the last error's field. */
    method Validate(value: T) returns (err: Option<Error>)
      requires validators != []
      ensures err == OneOfVerdict(validators, value)
    {
      var lastError: Option<Error> := None;
      for i := 0 to |validators|
        invariant forall j :: 0 <= j < i ==> validators[j](value).Some?
        invariant i > 0 ==> lastError == validators[i - 1](value)
      {
        var e := validators[i](value);
        if e.None? {
          return None;
        }
        lastError := e;
      }
      return Some(NoMatchError(lastError.value.field));
    }
  }

  /** composition.go AllOfValidator. */
  datatype AllOfValidator<!T> = AllOfValidator(validators: seq<Validator<T>>)
  {
    /** Returns the first error in order, None when every validator passes. */
    method Validate(value: T) returns (err: Option<Error>)
      ensures err == FirstError(validators, value)
    {
      for i := 0 to |validators|
        invariant FirstError(validators, value) == FirstError(validators[i..], value)
      {
        assert validators[i..][0] == validators[i] && validators[i..][1..] == validators[i + 1..];
        var e := validators[i](value);
        if e.Some? {
          return e;
        }
      }
      return None;
    }
  }

  /** composition.go OneOf(validators...). */
  function OneOf<T>(validators: seq<Validator<T>>): OneOfValidator<T>
  {
    OneOfValidator(validators)
  }

  /** composition.go AllOf(validators...). */
  function AllOf<T>(validators: seq<Validator<T>>): AllOfValidator<T>
  {
    AllOfValidator(validators)
  }

  /** composition.go Not(v).Validate: fails with "invalid_match" exactly when `v` passes. */
  function NotVerdict<T>(v: Validator<T>, value: T): (err: Option<Error>)
    ensures err.None? <==> v(value).Some?
    ensures err.Some? ==> err.value == InvalidMatchError
  {
    if v(value).None? then Some(InvalidMatchError) else None
  }

  /** composition.go Not(v), as a validator value. */
  function Not<T>(v: Validator<T>): Validator<T>
  {
    value => NotVerdict(v, value)
  }

  // ---------------------------------------------------------------------------------------------
  // Properties

  /** AllOf passes exactly when every validator passes; otherwise it reports the first failing one's error. */
  lemma {:induction false} FirstErrorIsFirst<T>(validators: seq<Validator<T>>, value: T)
    ensures FirstError(validators, value).None? <==> forall i :: 0 <= i < |validators| ==> validators[i](value).None?
    ensures FirstError(validators, value).Some? ==>
            exists i :: 0 <= i < |validators| && validators[i](value) == FirstError(validators, value)
                        && forall j :: 0 <= j < i ==> validators[j](value).None?
  {
    if validators != [] {
      var rest := validators[1..];
      FirstErrorIsFirst(rest, value);
      forall i | 1 <= i < |validators| ensures validators[i] == rest[i - 1] { }
      if validators[0](value).None? && FirstError(rest, value).Some? {
        var i :| 0 <= i < |rest| && rest[i](value) == FirstError(rest, value)
                 && forall j :: 0 <= j < i ==> rest[j](value).None?;
        assert validators[i + 1] == rest[i];
      }
    }
  }

  /** Each validator inverted with Not, in order. */
  function Negations<T>(validators: seq<Validator<T>>): (ns: seq<Validator<T>>)
    ensures |ns| == |validators|
  {
    seq(|validators|, i requires 0 <= i < |validators| => Not(validators[i]))
  }

  /**
   * OneOf and AllOf are duals: OneOf(v1, ..., vn) passes exactly when AllOf(Not(v1), ..., Not(vn)) fails.
   * When OneOf fails, every validator failed, so AllOf of the same list fails with the first one's error.
   */
  lemma OneOfDualOfAllOf<T>(validators: seq<Validator<T>>, value: T)
    requires validators != []
    ensures OneOfVerdict(validators, value).None? <==> FirstError(Negations(validators), value).Some?
    ensures OneOfVerdict(validators, value).Some? ==>
            validators[0](value).Some? && FirstError(validators, value) == validators[0](value)
  {
    var ns := Negations(validators);
    FirstErrorIsFirst(ns, value);
    forall i | 0 <= i < |validators| ensures ns[i](value).None? <==> validators[i](value).Some? {
      assert ns[i] == Not(validators[i]);
    }
    if OneOfVerdict(validators, value).Some? {
      assert validators[0](value).Some?;
    }
  }

  /** An empty AllOf passes everything. */
  lemma EmptyAllOfPasses<T>(value: T)
    ensures FirstError<T>([], value) == None
  {
  }

  /** Not(Not(v)) passes exactly when v passes. */
  lemma DoubleNegation<T>(v: Validator<T>, value: T)
    ensures Not(Not(v))(value).None? <==> v(value).None?
  {
  }
}
