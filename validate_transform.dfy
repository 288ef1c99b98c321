/**
 * transform.go: a validator that first rewrites the value (a default for the zero value, then a list of
 * transforms, in order) and checks the result, optionally falling back to a catch value; and a
 * validator that parses the value into another type before checking it.
 */
module Transforms {
  import opened Wrappers
  import opened Text
  import opened ValidationErrors
  import opened StringValidation
  import opened IntValidation
  import opened TimeValidation

  /** transform.go TransformFunc. */
  type TransformFunc<!T> = T -> T

  /** The value after the transforms, applied first to last. */
  function ApplyAll<T>(transforms: seq<TransformFunc<T>>, value: T): T
  {
    if transforms == [] then value
    else transforms[|transforms| - 1](ApplyAll(transforms[..|transforms| - 1], value))
  }

  /** What a TransformValidator holds. */
  datatype TransformRules<!T> = TransformRules(
    validator: Validator<T>,
    transforms: seq<TransformFunc<T>>,
    defaultVal: Option<T>,
    catchVal: Option<T>)

  /** The value the transforms start from: the default when one is set and the value is T's zero value. */
  function Start<T(==)>(r: TransformRules<T>, zero: T, value: T): T
  {
    if r.defaultVal.Some? && value == zero then r.defaultVal.value else value
  }

  /** transform.go Validate as a function of what the validator holds (specification of TransformValidator.Validate). */
  function TransformVerdict<T(==)>(r: TransformRules<T>, zero: T, value: T): Option<Error>
  {
    match r.validator(ApplyAll(r.transforms, Start(r, zero, value)))
    case None => None
    case Some(e) => if r.catchVal.Some? then r.validator(r.catchVal.value) else Some(e)
  }

  /** transform.go TransformValidator; `zero` is T's zero value, against which the default is decided. */
  class TransformValidator<T(==)> {
    const zero: T
    var validator: Validator<T>
    var transforms: seq<TransformFunc<T>>
    var defaultVal: Option<T>
    var catchVal: Option<T>

    function Rules(): TransformRules<T>
      reads this
    {
      TransformRules(validator, transforms, defaultVal, catchVal)
    }

    /** The `Transform` constructors: one transform, no default, no catch value. */
    constructor (validator: Validator<T>, fn: TransformFunc<T>, zero: T)
      ensures this.zero == zero
      ensures Rules() == TransformRules(validator, [fn], None, None)
    {
      this.zero := zero;
      this.validator := validator;
      transforms := [fn];
      defaultVal, catchVal := None, None;
    }

    /** Appends one transform at the end. */
    method Pipe(fn: TransformFunc<T>) returns (self: TransformValidator<T>)
      modifies this
      ensures self == this && Rules() == old(Rules()).(transforms := old(transforms) + [fn])
    {
      transforms := transforms + [fn];
      self := this;
    }

    method Default(val: T) returns (self: TransformValidator<T>)
      modifies this
      ensures self == this && Rules() == old(Rules()).(defaultVal := Some(val))
    {
      defaultVal := Some(val);
      self := this;
    }

    method Catch(val: T) returns (self: TransformValidator<T>)
      modifies this
      ensures self == this && Rules() == old(Rules()).(catchVal := Some(val))
    {
      catchVal := Some(val);
      self := this;
    }

    /** transform.go Validate: default, transforms in order, check; on failure, the catch value's verdict. */
    method Validate(value: T) returns (err: Option<Error>)
      ensures err == TransformVerdict(Rules(), zero, value)
    {
      var v := value;
      if defaultVal.Some? && v == zero {
        v := defaultVal.value;
      }
      ghost var start := v;
      for i := 0 to |transforms|
        invariant v == ApplyAll(transforms[..i], start)
      {
        assert transforms[..i + 1][..i] == transforms[..i];
        v := transforms[i](v);
      }
      assert transforms[..|transforms|] == transforms;
      var e := validator(v);
      if e.Some? {
        if catchVal.Some? {
          return validator(catchVal.value);
        }
        return e;
      }
      return None;
    }
  }

  /** `StringValidator.Transform(fn)`: the string validator, as it is now, behind one transform. */
  method TransformString(v: StringValidator, fn: TransformFunc<string>) returns (t: TransformValidator<string>)
    ensures fresh(t) && t.zero == ""
    ensures t.Rules() == TransformRules(v.AsValidator(), [fn], None, None)
  {
    t := new TransformValidator(v.AsValidator(), fn, "");
  }

  /** `IntValidator.Transform(fn)`: the integer validator, as it is now, behind one transform. */
  method TransformInt(v: IntValidator, fn: TransformFunc<int>) returns (t: TransformValidator<int>)
    ensures fresh(t) && t.zero == 0
    ensures t.Rules() == TransformRules(v.AsValidator(), [fn], None, None)
  {
    t := new TransformValidator(v.AsValidator(), fn, 0);
  }

  /** `StringValidator.Trim()`. */
  method Trim(v: StringValidator) returns (t: TransformValidator<string>)
    ensures fresh(t) && t.zero == ""
    ensures t.Rules() == TransformRules(v.AsValidator(), [TrimSpace], None, None)
  {
    t := TransformString(v, TrimSpace);
  }

  /** `StringValidator.Lowercase()`. */
  method Lowercase(v: StringValidator) returns (t: TransformValidator<string>)
    ensures fresh(t) && t.zero == ""
    ensures t.Rules() == TransformRules(v.AsValidator(), [ToLower], None, None)
  {
    t := TransformString(v, ToLower);
  }

  /** `StringValidator.Uppercase()`. */
  method Uppercase(v: StringValidator) returns (t: TransformValidator<string>)
    ensures fresh(t) && t.zero == ""
    ensures t.Rules() == TransformRules(v.AsValidator(), [ToUpper], None, None)
  {
    t := TransformString(v, ToUpper);
  }

  /** The error a ParseValidator reports when parsing fails. */
  function ParseError(reason: string): Error
  {
    Error("", "parse_error", "failed to parse value: " + reason)
  }

  /** transform.go ParseValidator, built by `Parse(parseFunc, validator)`; a parse error is its message. */
  datatype ParseValidator<!T, !U> = Parse(parseFunc: T -> Result<U, string>, validator: Validator<U>)
  {
    /** The parse error, or the inner validator's verdict on the parsed value. */
    function Validate(value: T): (err: Option<Error>)
      ensures parseFunc(value).Err? ==> err == Some(ParseError(parseFunc(value).error))
      ensures parseFunc(value).Ok? ==> err == validator(parseFunc(value).value)
    {
      match parseFunc(value)
      case Err(reason) => Some(ParseError(reason))
      case Ok(parsed) => validator(parsed)
    }
  }

  /**
   * `StringValidator.ParseInt()`: `strconv.Atoi`, given as `atoi`, then a fresh `Int()`. The receiver's
   * own constraints play no part, and the unconstrained integer check passes every parsed value.
   */
  function ParseInt(atoi: string -> Result<int, string>): (p: ParseValidator<string, int>)
    ensures forall value :: p.Validate(value).Some? <==> atoi(value).Err?
  {
    Parse(atoi, value => IntVerdict(NoIntRules, value))
  }

  /**
   * `StringValidator.ParseTime(layout)`: `time.Parse(layout, ...)`, given as `parse`, then an empty
   * TimeValidator, which passes every instant: only unparsable text fails.
   */
  function ParseTime(parse: string -> Result<Instant, string>): (p: ParseValidator<string, Instant>)
    ensures forall value :: p.Validate(value).Some? <==> parse(value).Err?
  {
    Parse(parse, value => TimeVerdict(NoTimeRules, value))
  }

  // ---------------------------------------------------------------------------------------------
  // Properties

  /** The transforms compose in list order: the value validated is the last transform of all the earlier ones. */
  lemma {:induction false} ApplyAllAppend<T>(t1: seq<TransformFunc<T>>, t2: seq<TransformFunc<T>>, value: T)
    ensures ApplyAll(t1 + t2, value) == ApplyAll(t2, ApplyAll(t1, value))
    decreases |t2|
  {
    if t2 == [] {
      assert t1 + t2 == t1;
    } else {
      var n := |t2| - 1;
      assert (t1 + t2)[..|t1 + t2| - 1] == t1 + t2[..n];
      ApplyAllAppend(t1, t2[..n], value);
    }
  }

  /** After Pipe(fn), the validator checks `fn` of what it checked before. */
  lemma PipeAppliesLast<T>(r: TransformRules<T>, fn: TransformFunc<T>, zero: T, value: T)
    ensures ApplyAll(r.transforms + [fn], Start(r, zero, value)) == fn(ApplyAll(r.transforms, Start(r, zero, value)))
  {
    ApplyAllAppend(r.transforms, [fn], Start(r, zero, value));
    assert [fn][..0] == [];
  }

  /** The default is used only for the zero value, and it is transformed like any input. */
  lemma DefaultOnlyForZero<T>(r: TransformRules<T>, zero: T, value: T)
    requires r.defaultVal.Some?
    ensures value == zero ==> TransformVerdict(r, zero, value) == TransformVerdict(r.(defaultVal := None), zero, r.defaultVal.value)
    ensures value != zero ==> TransformVerdict(r, zero, value) == TransformVerdict(r.(defaultVal := None), zero, value)
  {
  }

  /**
   * Setting a catch value c changes only failed checks: a failure becomes the verdict on c, which is not
   * transformed, and a passing check still passes. A catch value that itself passes makes every check pass.
   */
  lemma CatchReplacesFailure<T>(r: TransformRules<T>, c: T, zero: T, value: T)
    ensures var without := TransformVerdict(r.(catchVal := None), zero, value);
            TransformVerdict(r.(catchVal := Some(c)), zero, value) == if without.None? then None else r.validator(c)
    ensures r.validator(c).None? ==> TransformVerdict(r.(catchVal := Some(c)), zero, value).None?
  {
  }

  /** Trim() checks the trimmed value: a value with only surrounding blanks changed validates as its core. */
  lemma TrimChecksTrimmed(validator: Validator<string>, value: string)
    ensures TransformVerdict(TransformRules(validator, [TrimSpace], None, None), "", value) == validator(TrimSpace(value))
  {
    var ts: seq<TransformFunc<string>> := [TrimSpace];
    assert ts[..0] == [];
    assert ApplyAll(ts, value) == TrimSpace(value);
  }
}
