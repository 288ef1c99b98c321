/**
 * types.go Schema and struct.go: a schema for a struct type T is an ordered list of rules, each a
 * selector from T, a validator of the selected value and the name of the struct field the errors are
 * reported against. Go's `any` is the type parameter V; reflection on T is its description as a
 * `TypeDesc`, field types being compared by name.
 */
module Schemas {
  import opened Wrappers
  import opened ValidationErrors

  /** One field of a struct type, as reflection reports it. */
  datatype StructField = StructField(name: string, typ: string)

  /** What reflection reports about T: a struct with its fields in declaration order, or another kind. */
  datatype TypeDesc = StructType(fields: seq<StructField>) | OtherType

  /** The selector argument of Field: a function with its declared result type, or a value that is not one. */
  datatype SelectorArg<!T, V> = FuncSelector(resultType: string, apply: T -> V) | NotAFunction

  /** The validator argument of Field: a value with a `Validate` method, or one without. */
  datatype ValidatorArg<!V> = WithValidate(validate: Validator<V>) | WithoutValidate

  /** types.go FieldRule: how to reach a field of T, how to check it, and the name errors carry. */
  datatype FieldRule<!T, !V> = FieldRule(selector: T -> V, rule: Validator<V>, field: string)

  /** The position of the first field of type `typ`, in declaration order. */
  function FirstOfType(fields: seq<StructField>, typ: string): (r: Option<nat>)
    ensures r.Some? ==> r.value < |fields| && fields[r.value].typ == typ
                        && forall j :: 0 <= j < r.value ==> fields[j].typ != typ
    ensures r.None? ==> forall j :: 0 <= j < |fields| ==> fields[j].typ != typ
  {
    if fields == [] then None
    else if fields[0].typ == typ then Some(0)
    else match FirstOfType(fields[1..], typ)
         case None => None
         case Some(i) => Some(i + 1)
  }

  /** The name Field records for a selector whose result type is `resultType` (specification of LookupFieldName). */
  function FieldNameOf(t: TypeDesc, resultType: string): string
  {
    match t
    case OtherType => ""
    case StructType(fields) =>
      match FirstOfType(fields, resultType)
      case None => ""
      case Some(i) => fields[i].name
  }

  /** struct.go lines 25-38: the first struct field whose type is the selector's result type, or "". */
  method LookupFieldName(t: TypeDesc, resultType: string) returns (fieldName: string)
    ensures fieldName == FieldNameOf(t, resultType)
  {
    fieldName := "";
    if t.StructType? {
      var i := 0;
      while i < |t.fields|
        invariant 0 <= i <= |t.fields|
        invariant forall j :: 0 <= j < i ==> t.fields[j].typ != resultType
      {
        if t.fields[i].typ == resultType {
          fieldName := t.fields[i].name;
          break;
        }
        i := i + 1;
      }
    }
  }

  /** The error a rule reports for a value, carrying the rule's field name (types.go lines 54-56). */
  function RuleError<T, V>(r: FieldRule<T, V>, value: T): (err: Option<Error>)
    ensures err.Some? <==> r.rule(r.selector(value)).Some?
    ensures err.Some? ==> err.value == r.rule(r.selector(value)).value.(field := r.field)
  {
    match r.rule(r.selector(value))
    case None => None
    case Some(e) => Some(e.(field := r.field))
  }

  /** The errors a schema with `rules` collects for `value` (specification of Schema.Validate). */
  function Collect<T, V>(rules: seq<FieldRule<T, V>>, value: T): (errs: seq<Error>)
    ensures |errs| <= |rules|
  {
    if rules == [] then []
    else Collect(rules[..|rules| - 1], value) + OptionToSeq(RuleError(rules[|rules| - 1], value))
  }

  /** types.go Schema, with T's reflected description. */
  class Schema<!T, !V> {
    const typ: TypeDesc
    var rules: seq<FieldRule<T, V>>

    /** struct.go Struct[T](): a schema without rules. */
    constructor (typ: TypeDesc)
      ensures this.typ == typ && rules == []
    {
      this.typ := typ;
      rules := [];
    }

    /**
     * struct.go Field: appends one rule for the selector and the validator and returns the schema itself.
     * A selector that is not a function and a validator without `Validate` make Go panic.
     */
    method Field(selector: SelectorArg<T, V>, validator: ValidatorArg<V>) returns (self: Schema<T, V>)
      requires selector.FuncSelector?
      requires validator.WithValidate?
      modifies this
      ensures self == this
      ensures rules == old(rules) + [FieldRule(selector.apply, validator.validate, FieldNameOf(typ, selector.resultType))]
    {
      var fieldName := LookupFieldName(typ, selector.resultType);
      rules := rules + [FieldRule(selector.apply, validator.validate, fieldName)];
      self := this;
    }

    /** types.go Schema.Validate: runs every rule in order and collects the errors, stamped with field names. */
    method Validate(value: T) returns (errors: Errors)
      ensures fresh(errors)
      ensures errors.errors == Collect(rules, value)
    {
      errors := new Errors();
      for i := 0 to |rules|
        invariant errors.errors == Collect(rules[..i], value)
      {
        var rule := rules[i];
        var err := rule.rule(rule.selector(value));
        if err.Some? {
          errors.Add(err.value.(field := rule.field));
        }
        assert rules[..i + 1][..i] == rules[..i];
      }
      assert rules[..|rules|] == rules;
    }
  }

  /** struct.go ValidatorFunc: a function used as a validator. */
  datatype ValidatorFunc<!T> = ValidatorFunc(f: Validator<T>)
  {
    function Validate(value: T): (err: Option<Error>)
      ensures err == f(value)
    {
      f(value)
    }
  }

  /** The error TypedField's validator reports for a value of another type. */
  const InvalidType: Error := Error("", "invalid_type", "invalid field type")

  /**
   * struct.go TypedField: a selector boxing F into `any` and a validator that applies `rule` to a value of
   * type F. `box` is Go's conversion to `any`; `unbox` its type assertion back to F.
   */
  function TypedField<T, F, V>(selector: T -> F, rule: Validator<F>, box: F -> V, unbox: V -> Option<F>)
    : (T -> V, Validator<V>)
  {
    (t => box(selector(t)),
     v => match unbox(v) case Some(f) => rule(f) case None => Some(InvalidType))
  }

  // ---------------------------------------------------------------------------------------------
  // Properties

  /** Rules run in order: the errors of a concatenation are those of each part, in turn. */
  lemma {:induction false} CollectAppend<T, V>(r1: seq<FieldRule<T, V>>, r2: seq<FieldRule<T, V>>, value: T)
    ensures Collect(r1 + r2, value) == Collect(r1, value) + Collect(r2, value)
    decreases |r2|
  {
    if r2 == [] {
      assert r1 + r2 == r1;
    } else {
      var n := |r2| - 1;
      assert (r1 + r2)[..|r1 + r2| - 1] == r1 + r2[..n];
      CollectAppend(r1, r2[..n], value);
    }
  }

  /** No error is collected exactly when every rule's validator passes. */
  lemma {:induction false} CollectEmptyIff<T, V>(rules: seq<FieldRule<T, V>>, value: T)
    ensures Collect(rules, value) == [] <==> forall i :: 0 <= i < |rules| ==> RuleError(rules[i], value).None?
  {
    if rules != [] {
      var n := |rules| - 1;
      CollectEmptyIff(rules[..n], value);
      if Collect(rules, value) == [] {
        forall i | 0 <= i < |rules| ensures RuleError(rules[i], value).None? {
          if i < n { assert rules[..n][i] == rules[i]; }
        }
      }
    }
  }

  /** Every collected error is some rule's error, with that rule's field name written over its own. */
  lemma {:induction false} CollectStamped<T, V>(rules: seq<FieldRule<T, V>>, value: T, k: nat)
    requires k < |Collect(rules, value)|
    ensures exists i :: 0 <= i < |rules| && rules[i].rule(rules[i].selector(value)).Some?
                        && Collect(rules, value)[k] == rules[i].rule(rules[i].selector(value)).value.(field := rules[i].field)
                        && Collect(rules, value)[k].field == rules[i].field
  {
    var n := |rules| - 1;
    var prefix := Collect(rules[..n], value);
    if k < |prefix| {
      CollectStamped(rules[..n], value, k);
      var i :| 0 <= i < n && rules[..n][i].rule(rules[..n][i].selector(value)).Some?
               && prefix[k] == rules[..n][i].rule(rules[..n][i].selector(value)).value.(field := rules[..n][i].field);
      assert rules[..n][i] == rules[i];
    } else {
      assert Collect(rules, value)[k] == RuleError(rules[n], value).value;
    }
  }

  /** The first collected error is that of the first failing rule. */
  lemma {:induction false} CollectFirst<T, V>(rules: seq<FieldRule<T, V>>, value: T)
    requires Collect(rules, value) != []
    ensures exists i :: 0 <= i < |rules| && RuleError(rules[i], value) == Some(Collect(rules, value)[0])
                        && forall j :: 0 <= j < i ==> RuleError(rules[j], value).None?
  {
    var n := |rules| - 1;
    var prefix := Collect(rules[..n], value);
    if prefix != [] {
      CollectFirst(rules[..n], value);
      var i :| 0 <= i < n && RuleError(rules[..n][i], value) == Some(prefix[0])
               && forall j :: 0 <= j < i ==> RuleError(rules[..n][j], value).None?;
      assert rules[..n][i] == rules[i];
      forall j | 0 <= j < i ensures RuleError(rules[j], value).None? {
        assert rules[..n][j] == rules[j];
      }
    } else {
      CollectEmptyIff(rules[..n], value);
      forall j | 0 <= j < n ensures RuleError(rules[j], value).None? {
        assert rules[..n][j] == rules[j];
      }
    }
  }

  /** Two fields of the same type get the same name: that of the first field of the type. */
  lemma SameTypeSameName(fields: seq<StructField>, i: nat, j: nat)
    requires i < j < |fields| && fields[i].typ == fields[j].typ
    ensures FieldNameOf(StructType(fields), fields[j].typ) == FieldNameOf(StructType(fields), fields[i].typ)
    ensures exists k :: 0 <= k <= i && FieldNameOf(StructType(fields), fields[j].typ) == fields[k].name
  {
  }

  /** The User struct {Username, Email string; Age int}: an Email selector's errors are reported on "Username". */
  lemma EmailReportedAsUsername()
    ensures FieldNameOf(StructType([StructField("Username", "string"), StructField("Email", "string"),
                                    StructField("Age", "int")]), "string") == "Username"
    ensures FieldNameOf(StructType([StructField("Username", "string"), StructField("Email", "string"),
                                    StructField("Age", "int")]), "int") == "Age"
    ensures FieldNameOf(OtherType, "string") == ""
  {
  }

  /** TypedField's validator applies `rule` to every value its selector produced. */
  lemma TypedFieldDelegates<T, F, V>(selector: T -> F, rule: Validator<F>, box: F -> V, unbox: V -> Option<F>, t: T)
    requires unbox(box(selector(t))) == Some(selector(t))
    ensures var (sel, check) := TypedField(selector, rule, box, unbox);
            sel(t) == box(selector(t)) && check(sel(t)) == rule(selector(t))
  {
  }

  /** A value that is not an F is refused with code "invalid_type". */
  lemma TypedFieldRejects<T, F, V>(selector: T -> F, rule: Validator<F>, box: F -> V, unbox: V -> Option<F>, v: V)
    requires unbox(v).None?
    ensures TypedField(selector, rule, box, unbox).1(v) == Some(InvalidType)
  {
  }
}
