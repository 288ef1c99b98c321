/**
 * Recognition of the fluent chain `validate.Struct[T]().Field(sel, v).Field(sel, v)...` in a Go
 * expression and extraction of its schema (generator.go: extractValidationSchema, findRootCall,
 * extractFieldValidation, inferFieldType, extractValidators).
 */
module Extractor {
  import opened Wrappers
  import opened GoAst

  /** One validator method call: its name and its argument tokens as written. */
  datatype ValidatorCall = ValidatorCall(methodName: string, args: seq<string>)

  /** One `Field(...)` of a schema: the struct field's name, its type as written, its validators. */
  datatype ValidationField = ValidationField(name: string, typ: string, validators: seq<ValidatorCall>)

  /** A schema: the validated struct type and its fields in source order. */
  datatype ValidationSchema = ValidationSchema(typeName: string, fields: seq<ValidationField>)

  // ---------------------------------------------------------------------------------------------
  // Fluent chains

  /** One `.M(args)` application of a fluent chain. */
  datatype Link = Link(methodName: string, args: seq<Expr>)

  /** `x.M(args)` where the receiver `x` is itself a call: the step both chain walks take. */
  predicate IsChainLink(e: Expr) {
    e.Call? && e.fun.Selector? && e.fun.x.Call?
  }

  /** The chain `root.M1(a1).M2(a2)...` built from its innermost call and its links, left to right. */
  function Wrap(root: Expr, links: seq<Link>): Expr
    decreases |links|
  {
    if links == [] then root
    else
      var last := links[|links| - 1];
      Call(Selector(Wrap(root, links[..|links| - 1]), last.methodName), last.args)
  }

  /** The innermost call reached by following receivers that are calls (specification of FindRootCall). */
  function RootOf(e: Expr): (r: Expr)
    ensures e.Call? ==> r.Call?
    ensures !IsChainLink(r)
  {
    if IsChainLink(e) then RootOf(e.fun.x) else e
  }

  /** The links passed on the way from `e` to `RootOf(e)`, in source (left-to-right) order. */
  function LinksOf(e: Expr): seq<Link>
  {
    if IsChainLink(e) then LinksOf(e.fun.x) + [Link(e.fun.sel, e.args)] else []
  }

  /** Every expression is its root call with its links re-applied. */
  lemma {:induction false} Decompose(e: Expr)
    ensures Wrap(RootOf(e), LinksOf(e)) == e
  {
    if IsChainLink(e) {
      Decompose(e.fun.x);
      var ls := LinksOf(e);
      assert ls[..|ls| - 1] == LinksOf(e.fun.x);
    }
  }

  /** A chain built on a call that is not itself a link decomposes back into that root and those links. */
  lemma {:induction false} WrapDecomposes(root: Expr, links: seq<Link>)
    requires root.Call? && !IsChainLink(root)
    ensures Wrap(root, links).Call?
    ensures RootOf(Wrap(root, links)) == root
    ensures LinksOf(Wrap(root, links)) == links
  {
    if links != [] {
      WrapDecomposes(root, links[..|links| - 1]);
      assert links[..|links| - 1] + [links[|links| - 1]] == links;
    }
  }

  /** generator.go findRootCall: follows `Fun`-is-selector, receiver-is-call down to the root. */
  method FindRootCall(call: Expr) returns (root: Expr)
    requires call.Call?
    ensures root == RootOf(call)
  {
    var current := call;
    while true
      invariant current.Call? && RootOf(current) == RootOf(call)
      decreases current
    {
      if !current.fun.Selector? {
        break;
      }
      var sel := current.fun;
      if !sel.x.Call? {
        break;
      }
      current := sel.x;
    }
    root := current;
  }

  // ---------------------------------------------------------------------------------------------
  // Validator chains

  /** The argument token kept for one argument: a literal verbatim, an identifier by name. */
  function ArgToken(arg: Expr): Option<string>
  {
    match arg
    case BasicLit(v) => Some(v)
    case Ident(n) => Some(n)
    case _ => None
  }

  /** The tokens of an argument list, in order, other argument kinds dropped. */
  function ArgTokens(args: seq<Expr>): seq<string>
  {
    if args == [] then []
    else ArgTokens(args[..|args| - 1]) + OptionToSeq(ArgToken(args[|args| - 1]))
  }

  /** A zero-argument `validate.String()` or `validate.Int()`: the type constructor left out of the list. */
  predicate IsTypeConstructor(recv: Expr, methodName: string, args: seq<Expr>) {
    (methodName == "String" || methodName == "Int") && |args| == 0 && recv == Ident("validate")
  }

  /** The validator calls of a chain, in source order (specification of ExtractValidators). */
  function ValidatorsOf(e: Expr): seq<ValidatorCall>
  {
    if e.Call? && e.fun.Selector? then
      if IsTypeConstructor(e.fun.x, e.fun.sel, e.args) then ValidatorsOf(e.fun.x)
      else ValidatorsOf(e.fun.x) + [ValidatorCall(e.fun.sel, ArgTokens(e.args))]
    else []
  }

  /** The argument loop of extractValidators: appends each literal's or identifier's token. */
  method ExtractArgs(callArgs: seq<Expr>) returns (args: seq<string>)
    ensures args == ArgTokens(callArgs)
  {
    args := [];
    for i := 0 to |callArgs|
      invariant args == ArgTokens(callArgs[..i])
    {
      assert callArgs[..i + 1][..i] == callArgs[..i];
      match callArgs[i]
      case BasicLit(v) => args := args + [v];
      case Ident(n) => args := args + [n];
      case _ =>
    }
    assert callArgs[..|callArgs|] == callArgs;
  }

  /** generator.go extractValidators: walks the chain outside in, prepending each call. */
  method ExtractValidators(expr: Expr) returns (validators: seq<ValidatorCall>)
    ensures validators == ValidatorsOf(expr)
  {
    validators := [];
    var current := expr;
    while current.Call? && current.fun.Selector?
      invariant ValidatorsOf(current) + validators == ValidatorsOf(expr)
      decreases current
    {
      var call := current;
      var sel := call.fun;
      if IsTypeConstructor(sel.x, sel.sel, call.args) {
        current := sel.x;
        continue;
      }
      var args := ExtractArgs(call.args);
      validators := [ValidatorCall(sel.sel, args)] + validators;
      current := sel.x;
    }
  }

  // ---------------------------------------------------------------------------------------------
  // Fields

  /** generator.go inferFieldType: the first result type's identifier, otherwise "interface{}". */
  function InferFieldType(results: seq<Expr>): (t: string)
    ensures t == "interface{}" || (|results| > 0 && results[0] == Ident(t))
    ensures |results| > 0 && results[0].Ident? ==> t == results[0].name
  {
    if |results| > 0 && results[0].Ident? then results[0].name else "interface{}"
  }

  /**
   * generator.go extractFieldValidation on the arguments of a `Field` call: exactly two arguments, the
   * first a function literal whose first statement returns a selector first; None otherwise.
   */
  function FieldOf(args: seq<Expr>): Option<ValidationField>
  {
    if |args| != 2 || !args[0].FuncLit? then None
    else
      var body := args[0].body;
      if |body| > 0 && body[0].Return? && |body[0].results| > 0 && body[0].results[0].Selector? then
        Some(ValidationField(body[0].results[0].sel, InferFieldType(args[0].results), ValidatorsOf(args[1])))
      else None
  }

  /** What one chain step `.M(args)` contributes to the schema: a field for a well-formed `Field` call. */
  function FieldsAt(methodName: string, args: seq<Expr>): seq<ValidationField>
  {
    if methodName == "Field" then OptionToSeq(FieldOf(args)) else []
  }

  /** The fields collected by the walk of extractValidationSchema, in source order. */
  function FieldsOf(e: Expr): seq<ValidationField>
  {
    if e.Call? && e.fun.Selector? then FieldsOf(e.fun.x) + FieldsAt(e.fun.sel, e.args) else []
  }

  /** The fields the links of a chain contribute, left to right. */
  function KeptFields(links: seq<Link>): seq<ValidationField>
  {
    if links == [] then []
    else
      var last := links[|links| - 1];
      KeptFields(links[..|links| - 1]) + FieldsAt(last.methodName, last.args)
  }

  // ---------------------------------------------------------------------------------------------
  // Schemas

  /** The root call `validate.Struct[T](...)`. */
  function StructCall(typeName: string, args: seq<Expr>): Expr
  {
    Call(Index(Selector(Ident("validate"), "Struct"), Ident(typeName)), args)
  }

  /** `T` when `root` is `validate.Struct[T](...)` with `T` an identifier, None otherwise. */
  function StructTypeArg(root: Expr): Option<string>
  {
    if root.Call? && root.fun.Index? && root.fun.x.Selector? && root.fun.x.x.Ident?
       && root.fun.x.x.name == "validate" && root.fun.x.sel == "Struct" && root.fun.index.Ident?
    then Some(root.fun.index.name)
    else None
  }

  /** The schema an expression denotes (specification of ExtractValidationSchema). */
  function ExtractSchema(e: Expr): Option<ValidationSchema>
  {
    if !e.Call? then None
    else
      match StructTypeArg(RootOf(e))
      case None => None
      case Some(t) => Some(ValidationSchema(t, FieldsOf(e)))
  }

  /** generator.go extractValidationSchema: finds the root, then walks the chain prepending fields. */
  method ExtractValidationSchema(expr: Expr) returns (schema: Option<ValidationSchema>)
    ensures schema == ExtractSchema(expr)
  {
    if !expr.Call? {
      return None;
    }
    var rootCall := FindRootCall(expr);
    var typeName := StructTypeArg(rootCall);
    if typeName.None? {
      return None;
    }
    var fields: seq<ValidationField> := [];
    var current := expr;
    while true
      invariant current.Call? && FieldsOf(current) + fields == FieldsOf(expr)
      decreases current
    {
      if !current.fun.Selector? {
        break;
      }
      var sel := current.fun;
      ghost var collected := fields;
      if sel.sel == "Field" {
        var field := FieldOf(current.args);
        if field.Some? {
          fields := [field.value] + fields;
        }
      }
      assert fields == FieldsAt(sel.sel, current.args) + collected;
      assert FieldsOf(current) == FieldsOf(sel.x) + FieldsAt(sel.sel, current.args);
      if sel.x.Call? {
        current := sel.x;
      } else {
        assert FieldsOf(sel.x) == [];
        break;
      }
    }
    assert fields == FieldsOf(expr);
    schema := Some(ValidationSchema(typeName.value, fields));
  }

  // ---------------------------------------------------------------------------------------------
  // Properties

  /** The field walk and the root walk follow the same path: no suffix of a schema chain is cut off. */
  lemma {:induction false} FieldsOfChain(root: Expr, links: seq<Link>)
    requires root.Call? && !root.fun.Selector?
    ensures FieldsOf(Wrap(root, links)) == KeptFields(links)
  {
    if links != [] {
      FieldsOfChain(root, links[..|links| - 1]);
    }
  }

  /** A `validate.Struct[T]()` chain yields the schema named T whose fields are its links' fields in order. */
  lemma {:induction false} ExtractChain(typeName: string, rootArgs: seq<Expr>, links: seq<Link>)
    ensures ExtractSchema(Wrap(StructCall(typeName, rootArgs), links))
            == Some(ValidationSchema(typeName, KeptFields(links)))
  {
    var root := StructCall(typeName, rootArgs);
    WrapDecomposes(root, links);
    FieldsOfChain(root, links);
  }

  /** Conversely, every schema comes from such a chain: the root's type argument is exactly its TypeName. */
  lemma {:induction false} ExtractedSchemaIsChain(e: Expr, s: ValidationSchema)
    requires ExtractSchema(e) == Some(s)
    ensures exists rootArgs, links :: e == Wrap(StructCall(s.typeName, rootArgs), links)
                                      && s.fields == KeptFields(links)
  {
    var root := RootOf(e);
    Decompose(e);
    assert root == StructCall(s.typeName, root.args);
    FieldsOfChain(root, LinksOf(e));
  }

  /**
   * A schema is extracted exactly when the expression is a chain of links on a `validate.Struct[T](...)`
   * call, for some T.
   */
  lemma SchemaIffStructChain(e: Expr)
    ensures ExtractSchema(e).Some? <==> exists t, rootArgs, links :: e == Wrap(StructCall(t, rootArgs), links)
  {
    if ExtractSchema(e).Some? {
      ExtractedSchemaIsChain(e, ExtractSchema(e).value);
    } else if exists t, rootArgs, links :: e == Wrap(StructCall(t, rootArgs), links) {
      var t, rootArgs, links :| e == Wrap(StructCall(t, rootArgs), links);
      ExtractChain(t, rootArgs, links);
      assert false;
    }
  }

  lemma {:induction false} KeptFieldsAppend(l1: seq<Link>, l2: seq<Link>)
    ensures KeptFields(l1 + l2) == KeptFields(l1) + KeptFields(l2)
    decreases |l2|
  {
    if l2 == [] {
      assert l1 + l2 == l1;
    } else {
      var n := |l2| - 1;
      assert (l1 + l2)[..|l1 + l2| - 1] == l1 + l2[..n];
      KeptFieldsAppend(l1, l2[..n]);
    }
  }

  /**
   * Best effort: a step that is not a well-formed `Field` call (another method name, not two arguments,
   * no function literal returning a selector) is passed over; the other fields are kept.
   */
  lemma {:induction false} IgnoredStepDropped(typeName: string, rootArgs: seq<Expr>,
                                             before: seq<Link>, step: Link, after: seq<Link>)
    requires step.methodName != "Field" || FieldOf(step.args).None?
    ensures ExtractSchema(Wrap(StructCall(typeName, rootArgs), before + [step] + after))
            == ExtractSchema(Wrap(StructCall(typeName, rootArgs), before + after))
  {
    ExtractChain(typeName, rootArgs, before + [step] + after);
    ExtractChain(typeName, rootArgs, before + after);
    IgnoredLinkKeepsNothing(before, step, after);
  }

  /** The fields kept from a list of links do not change when a link that contributes none is removed. */
  lemma IgnoredLinkKeepsNothing(before: seq<Link>, step: Link, after: seq<Link>)
    requires FieldsAt(step.methodName, step.args) == []
    ensures KeptFields(before + [step] + after) == KeptFields(before + after)
  {
    var withStep := before + [step];
    assert KeptFields(withStep) == KeptFields(before) by {
      assert withStep[..|withStep| - 1] == before && withStep[|withStep| - 1] == step;
    }
    KeptFieldsAppend(withStep, after);
    KeptFieldsAppend(before, after);
  }

  /** A chain of well-formed `Field` calls yields one field per call, in source order. */
  lemma {:induction false} KeptFieldsInOrder(links: seq<Link>)
    requires forall i :: 0 <= i < |links| ==> links[i].methodName == "Field" && FieldOf(links[i].args).Some?
    ensures |KeptFields(links)| == |links|
    ensures forall i :: 0 <= i < |links| ==> KeptFields(links)[i] == FieldOf(links[i].args).value
  {
    if links != [] {
      var prefix := links[..|links| - 1];
      var last := links[|links| - 1];
      KeptFieldsInOrder(prefix);
      assert KeptFields(links) == KeptFields(prefix) + [FieldOf(last.args).value];
      forall i | 0 <= i < |prefix| ensures links[i] == prefix[i] { }
    }
  }

  /** The token list keeps every literal and identifier argument, in order, and drops the rest. */
  lemma {:induction false} ArgTokensAppend(a: seq<Expr>, b: seq<Expr>)
    ensures ArgTokens(a + b) == ArgTokens(a) + ArgTokens(b)
    decreases |b|
  {
    if b == [] {
      assert a + b == a;
    } else {
      var n := |b| - 1;
      assert (a + b)[..|a + b| - 1] == a + b[..n];
      ArgTokensAppend(a, b[..n]);
    }
  }

  /** Arguments that are all literals or identifiers give one token each, verbatim and in order. */
  lemma {:induction false} ArgTokensVerbatim(args: seq<Expr>)
    requires forall i :: 0 <= i < |args| ==> ArgToken(args[i]).Some?
    ensures |ArgTokens(args)| == |args|
    ensures forall i :: 0 <= i < |args| ==> ArgTokens(args)[i] == ArgToken(args[i]).value
  {
    if args != [] {
      ArgTokensVerbatim(args[..|args| - 1]);
    }
  }

  /** The validator calls of a chain built on a constructor call are its links, left to right. */
  function CallsOf(links: seq<Link>): (calls: seq<ValidatorCall>)
    ensures |calls| == |links|
  {
    seq(|links|, i requires 0 <= i < |links| => ValidatorCall(links[i].methodName, ArgTokens(links[i].args)))
  }

  lemma {:induction false} ValidatorsOfChain(ctor: Expr, links: seq<Link>)
    requires ctor.Call?
    ensures ValidatorsOf(Wrap(ctor, links)) == ValidatorsOf(ctor) + CallsOf(links)
  {
    if links != [] {
      var n := |links| - 1;
      ValidatorsOfChain(ctor, links[..n]);
      assert CallsOf(links) == CallsOf(links[..n]) + [ValidatorCall(links[n].methodName, ArgTokens(links[n].args))];
    }
  }

  /** `validate.String()` and `validate.Int()` are elided; any other constructor call is an ordinary entry. */
  lemma TypeConstructorElided(ctorName: string, args: seq<Expr>)
    ensures ValidatorsOf(Call(Selector(Ident("validate"), ctorName), args))
            == if (ctorName == "String" || ctorName == "Int") && args == [] then []
               else [ValidatorCall(ctorName, ArgTokens(args))]
  {
  }
}
