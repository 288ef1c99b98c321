/**
 * nested.go: a validator that runs a whole schema on a value and reports the first error it collects,
 * copied into a new error. The schema is shared, not copied: rules added to it later are run too.
 */
module NestedValidation {
  import opened Wrappers
  import opened ValidationErrors
  import opened Schemas

  /** The nested validator's verdict for a schema with `rules` (specification of NestedValidator.Validate). */
  function NestedVerdict<T, V>(rules: seq<FieldRule<T, V>>, value: T): Option<Error>
  {
    var errs := Collect(rules, value);
    if errs == [] then None else Some(errs[0])
  }

  /** nested.go NestedValidator, built by `Nested(schema)`. */
  datatype NestedValidator<!T, !V> = Nested(schema: Schema<T, V>)
  {
    /** Runs the schema; on failure, a new error with the code, message and field of the first one. */
    method Validate(value: T) returns (err: Option<Error>)
      ensures err == NestedVerdict(schema.rules, value)
    {
      var errs := schema.Validate(value);
      if errs.HasErrors() {
        var firstErr := errs.Get()[0];
        return Some(Error(firstErr.field, firstErr.code, firstErr.message));
      }
      return None;
    }
  }

  // ---------------------------------------------------------------------------------------------
  // Properties

  /**
   * A nested value passes exactly when every rule of the schema passes; otherwise the error is that of
   * the first failing rule, carrying that rule's field name.
   */
  lemma NestedIff<T, V>(rules: seq<FieldRule<T, V>>, value: T)
    ensures NestedVerdict(rules, value).None? <==> forall i :: 0 <= i < |rules| ==> RuleError(rules[i], value).None?
    ensures NestedVerdict(rules, value).Some? ==>
            exists i :: 0 <= i < |rules| && RuleError(rules[i], value) == NestedVerdict(rules, value)
                        && NestedVerdict(rules, value).value.field == rules[i].field
                        && forall j :: 0 <= j < i ==> RuleError(rules[j], value).None?
  {
    CollectEmptyIff(rules, value);
    if Collect(rules, value) != [] {
      CollectFirst(rules, value);
    }
  }

  /** Errors after the first are discarded: rules after a failing prefix do not change the verdict. */
  lemma LaterRulesIgnored<T, V>(r1: seq<FieldRule<T, V>>, r2: seq<FieldRule<T, V>>, value: T)
    requires NestedVerdict(r1, value).Some?
    ensures NestedVerdict(r1 + r2, value) == NestedVerdict(r1, value)
  {
    CollectAppend(r1, r2, value);
  }
}
