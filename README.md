# tibeb, modelled in Dafny

tibeb is a Go validation library with a code generator. This project models two parts of it.

**The generator** (`internal/generator/generator.go`) reads a Go file and finds every `var` declaration whose initializer is a fluent chain `validate.Struct[T]().Field(sel, v).Field(sel, v)...`. From each chain it extracts a `ValidationSchema`: the type name, and the fields in source order. Each field has a name, a type and its validator calls (method name and argument tokens). It then renders one `<t>_validator.go` file per schema. The model has these parts:
- The Go syntax tree is a datatype (`GoAst`).
- The walks of `findRootCall`, `extractValidationSchema` and `extractValidators` are loop methods. Each is proved equal to a recursive specification function, and the properties are lemmas about those functions (`Extractor`).
- The declaration scan and the type-name fallbacks are in `Scanner`.
- The abort-on-first-failure emission loop, the output path and the template text are in `Emitter`.
- `RoundTrip` proves what the extractor recovers from the chain the template writes, and that printing that chain back gives the template's text.
- `GeneratorVectors` states what the extractor yields on the `codegen` example's chain and on the basic example's declarations, and that the file generated for the `codegen` schema extracts back to that schema.

**The runtime library** (`pkg/validate`) is modelled as follows:
- The error collection (`ValidationErrors`).
- Struct schemas, which run rules in order and stamp field names (`Schemas`).
- The string, integer and time builders (`StringValidation`, `IntValidation`, `TimeValidation`). Each builder is a class whose setters update fields and return the receiver. Each `Validate` is proved equal to a verdict function over the builder's constraints, and the properties are stated about that verdict.
- The combinators `OneOf`, `AllOf` and `Not` (`Composition`).
- Nested schemas (`NestedValidation`).
- The transform and parse pipeline (`Transforms`).

A validator is a function `T -> Option<Error>`, where `None` means the value passes. Go's `any` is a type parameter, and reflection on a struct type is its list of (name, type) fields. Strings are sequences of characters, and lengths that Go measures in bytes are measured as UTF-8 byte counts. The environment is given to the model as parameters:
- the parser's result;
- the file writer, as `emit`;
- regular expressions, as predicates on strings;
- `strconv.Atoi` and `time.Parse`, as functions returning a `Result`.

Three behaviours of the code that the model makes explicit:
- A chain whose root is not `validate.Struct[T]` is not a schema at all. The doc-comment and variable-name fallbacks for the type name only apply to an empty `T`, which a Go parser never produces (`Scanner.ExtractedNameKept`).
- A chain is never truncated part way. The root walk and the field walk follow the same receivers (`Extractor.FieldsOfChain`).
- The selector literal may return any selector expression, not only a field of its own parameter.

## Model

| member | source | states |
|---|---|---|
| Extractor.FindRootCall | tibeb/internal/generator/generator.go:174-188 | terminates, and returns the innermost call reached by following `Fun`-is-selector, receiver-is-call (`RootOf`); a call that is not such a link is returned as it is |
| Extractor.Decompose | tibeb/internal/generator/generator.go:174-188 | every expression is its root call with the links passed on the way re-applied in source order |
| Extractor.WrapDecomposes | tibeb/internal/generator/generator.go:174-188 | a chain built on a non-link root call walks back to exactly that root and those links |
| Extractor.ExtractArgs | tibeb/internal/generator/generator.go:254-261 | the argument tokens: literals verbatim, identifiers by name, other kinds dropped, in order |
| Extractor.ExtractValidators | tibeb/internal/generator/generator.go:226-275 | returns `ValidatorsOf(expr)`: the calls of the chain left to right, prepending while walking outside in |
| Extractor.ExtractValidationSchema | tibeb/internal/generator/generator.go:116-171 | returns `ExtractSchema(expr)`: nil unless the root is `validate.Struct[T]`, otherwise T with the fields collected in source order |
| Extractor.FieldsOfChain | tibeb/internal/generator/generator.go:149-168 | the field walk of a chain visits exactly its links, so no suffix of a chain is lost |
| Extractor.ExtractChain | tibeb/internal/generator/generator.go:116-171 | a `validate.Struct[T](...)` chain yields the schema named T whose fields are those its links contribute, left to right |
| Extractor.ExtractedSchemaIsChain | tibeb/internal/generator/generator.go:131-146 | conversely, every extracted schema comes from a `validate.Struct[T]` chain whose type argument is its name |
| Extractor.SchemaIffStructChain | tibeb/internal/generator/generator.go:116-171 | a schema is extracted if and only if the expression is a chain of method-call links on some `validate.Struct[T](...)` call |
| Extractor.InferFieldType | tibeb/internal/generator/generator.go:216-223 | an identifier as the first result type gives its name; anything else, or no result, gives "interface{}" |
| Extractor.KeptFieldsAppend | tibeb/internal/generator/generator.go:150-157 | the fields of a concatenation of links are those of each part, in order |
| Extractor.IgnoredStepDropped | tibeb/internal/generator/generator.go:152-157 | a step that is not a well-formed `Field` call (other method, not two arguments, no literal returning a selector) is passed over, and the other fields are kept |
| Extractor.IgnoredLinkKeepsNothing | tibeb/internal/generator/generator.go:152-157 | removing a link that contributes no field leaves the kept fields of the rest unchanged, in order |
| Extractor.KeptFieldsInOrder | tibeb/internal/generator/generator.go:153-157 | well-formed `Field` calls give one field each, in source order |
| Extractor.ArgTokensAppend | tibeb/internal/generator/generator.go:255-261 | the tokens of concatenated argument lists are concatenated |
| Extractor.ArgTokensVerbatim | tibeb/internal/generator/generator.go:256-260 | literal and identifier arguments give one token each, verbatim and in order |
| Extractor.CallsOf | tibeb/internal/generator/generator.go:264-268 | one recorded call per chain link |
| Extractor.ValidatorsOfChain | tibeb/internal/generator/generator.go:226-275 | the validators of a chain built on a constructor call are the constructor's entry followed by one call per link, in order |
| Extractor.TypeConstructorElided | tibeb/internal/generator/generator.go:241-251 | a zero-argument `validate.String()`/`validate.Int()` is omitted; any other constructor call is kept as an ordinary entry |
| Scanner.ResolveTypeName | tibeb/internal/generator/generator.go:83-101 | a non-empty name is kept; an empty one becomes the trimmed text after "validation schema for" in the first doc line, else the variable name without a trailing "Schema" |
| Scanner.FillTypeName | tibeb/internal/generator/generator.go:83-101 | the imperative fallback chain computes `ResolveTypeName` |
| Scanner.ScanValues | tibeb/internal/generator/generator.go:80-105 | the schemas of one value spec's initializers, in order, with their names resolved |
| Scanner.ScanDecl | tibeb/internal/generator/generator.go:77-107 | the schemas of one `var` declaration, spec by spec |
| Scanner.FindValidationSchemas | tibeb/internal/generator/generator.go:72-113 | the schemas of every `var` declaration in traversal order (`FileSchemas`) |
| Scanner.FileSchemasAppend | tibeb/internal/generator/generator.go:72-113 | schemas come out in declaration-encounter order |
| Scanner.ExtractedNameKept | tibeb/internal/generator/generator.go:83 | an extracted schema with its `Struct[T]` name is recorded unchanged: the fallbacks never apply to it |
| Scanner.TypeArgumentFirst | tibeb/internal/generator/generator.go:83 | a type argument wins over the doc comment and the variable name |
| Scanner.PhraseAfterMarker | tibeb/internal/generator/generator.go:86-87 | in "// validation schema for Order" the phrase is first found right after the comment marker |
| Scanner.TrimmedOrder | tibeb/internal/generator/generator.go:89 | trimming " Order" gives "Order" |
| Scanner.DocCommentSecond | tibeb/internal/generator/generator.go:84-91 | without a type argument, the doc comment "validation schema for Order" names the type "Order" before the variable name is tried |
| Scanner.VariableNameLast | tibeb/internal/generator/generator.go:93-100 | without either, "AccountSchema" names "Account" and "Ticket" names itself |
| Emitter.CapitalizeFirst | tibeb/internal/generator/generator.go:296-301 | the same length; the first character upper-cased and the rest kept; "" unchanged |
| Emitter.OutputPath | tibeb/internal/generator/generator.go:285 | the output file always ends in "_validator.go" |
| Emitter.EmitSchemas | tibeb/internal/generator/generator.go:62-66 | the emission loop computes `EmitAll`: files in schema order up to the first failure, whose error names the schema |
| Emitter.Generate | tibeb/internal/generator/generator.go:42-69 | a parse error, or no schema found, stops before anything is written; otherwise the schemas are emitted in order |
| Emitter.EmitAllAbortsAtFirstFailure | tibeb/internal/generator/generator.go:62-66 | every file written is the next schema's and its writing succeeded; no error iff every schema was written; an error is the next schema's failure |
| Emitter.NothingWrittenWithoutSchemas | tibeb/internal/generator/generator.go:56-59 | an input without schemas yields the no-schemas error and no file |
| Emitter.OutputPathsCollide | tibeb/internal/generator/generator.go:285 | two type names share an output file if and only if they agree after lower-casing |
| Emitter.InvoicePath | tibeb/internal/generator/generator.go:285 | `Invoice` in `gen` is written to `gen/invoice_validator.go` |
| Emitter.CapitalizeFirstIdempotent | tibeb/internal/generator/generator.go:296-301 | capitalizing twice is capitalizing once |
| Emitter.CapitalizedConstructors | tibeb/internal/generator/generator.go:296-301 | "string" renders as "String", "int" as "Int" and "" stays "" |
| RoundTrip.TokenExpr | tibeb/internal/generator/generator.go:256-260 | the expression an argument token is read back as yields that same token |
| RoundTrip.TypeExpr | tibeb/internal/generator/generator.go:216-223 | a rendered result type reads back as itself when it is an identifier, otherwise (`interface{}`, `[]string`, ...) as "interface{}" |
| RoundTrip.Constructor | tibeb/internal/generator/generator.go:316 | for an identifier type the rendered constructor is a call of the selector `validate.Typ`; for `interface{}` it is `validate.Interface{}()`, a call of a composite literal, not of a selector |
| RoundTrip.ReadBackSchema | tibeb/internal/generator/generator.go:315-316 | for a renderable schema (type name, field names and method names that are non-keyword identifiers; field types that are such identifiers or `interface{}`; argument tokens that are names, decimal integers or plain string literals), the read-back keeps the name and, field by field, the read-back of each field |
| RoundTrip.TokensReadBack | tibeb/internal/generator/generator.go:316 | rendered argument lists of names, decimal integers and plain string literals read back as the recorded tokens |
| RoundTrip.CallLinksReadBack | tibeb/internal/generator/generator.go:316 | rendered `.Method(args)` calls with renderable names and tokens read back as the recorded calls |
| RoundTrip.ValidatorsReadBack | tibeb/internal/generator/generator.go:226-275 | for an identifier or `interface{}` field type and renderable calls, a rendered validator chain reads back as its calls, after the constructor unless that is `String()`/`Int()` or the `interface{}` composite-literal call |
| RoundTrip.FieldReadBack | tibeb/internal/generator/generator.go:191-213 | for a renderable field, one rendered `Field(func(v T) typ { return v.name }, ...)` call reads back as the field's name, its type and its validator calls |
| RoundTrip.RenderThenExtract | tibeb/internal/generator/generator.go:315-316 | for a renderable schema (type name, field names and method names that are non-keyword identifiers; field types that are such identifiers or `interface{}`; argument tokens that are names, decimal integers or plain string literals), extracting the rendered chain gives back the type name and, per field, the name, the type and the validator calls, with non-elided constructors prepended |
| RoundTrip.ReadBackPlainField | tibeb/internal/generator/generator.go:243-251 | a renderable `string`, `int` or `interface{}` field reads back unchanged |
| RoundTrip.RenderThenExtractPlain | tibeb/internal/generator/generator.go:315-316 | for renderable schemas whose field types are all `string`, `int` or `interface{}`, render then extract is the identity |
| RoundTrip.ReadBackBoolField | tibeb/internal/generator/generator.go:243-251 | a `bool` field with a renderable name and calls gains a leading `Bool()` entry when read back |
| RoundTrip.ScanRenderedDecl | tibeb/internal/generator/generator.go:314-316 | for a renderable schema, scanning the generated `var` declaration finds exactly the read-back schema |
| RoundTrip.RenderedText | tibeb/internal/generator/generator.go:302-317 | the generated file is the fixed preamble and doc comment, then `var TSchema = ` and the printed form of the very tree that RenderThenExtract reads back |
| RoundTrip.SchemaChainPrints | tibeb/internal/generator/generator.go:315-316 | the schema expression the template writes is the rendered chain printed one link per line |
| RoundTrip.FieldLinksText | tibeb/internal/generator/generator.go:315-316 | the rendered `Field` links, printed one per line, are the template's text for the fields, in order |
| RoundTrip.FieldLinkText | tibeb/internal/generator/generator.go:316 | one rendered `Field` link prints as the template's text for that field |
| RoundTrip.FieldArgsText | tibeb/internal/generator/generator.go:316 | the two arguments of a rendered `Field` call print as the template's `(selector, validator chain)` text |
| RoundTrip.SelectorPrints | tibeb/internal/generator/generator.go:316 | the rendered selector literal prints as `func(v T) typ { return v.name }` |
| RoundTrip.ValidatorsPrint | tibeb/internal/generator/generator.go:316 | the rendered validator argument prints as `validate.Typ()` followed by the recorded calls |
| RoundTrip.ConstructorText | tibeb/internal/generator/generator.go:316 | the constructor prints as `validate.` and the capitalized type and `()`, whichever expression it is |
| RoundTrip.TypeExprText | tibeb/internal/generator/generator.go:316 | a result type expression prints as the field type it was made from |
| RoundTrip.StructCallPrints | tibeb/internal/generator/generator.go:315 | the root call prints as `validate.Struct[T]()` |
| RoundTrip.CallLinksText | tibeb/internal/generator/generator.go:316 | the recorded calls, as links printed with ".", are the template's `.Method(a1, a2)` text |
| RoundTrip.CallLinkText | tibeb/internal/generator/generator.go:316 | one recorded call, as a link printed with ".", is the template's `.Method(a1, a2)` text for it |
| RoundTrip.TokensPrintBack | tibeb/internal/generator/generator.go:316 | argument tokens print back as themselves |
| GeneratorVectors.ExtractUserChain | tibeb/examples/codegen/models/user.go:12-15 | the User chain yields User with Username/string [MinLen 3, MaxLen 30], Email/string [Email], Age/int [Min 13] |
| GeneratorVectors.ScanModelsFile | tibeb/examples/codegen/models/user.go:1-15 | scanning the models file finds the User schema once |
| GeneratorVectors.UserSchemaRenderable | tibeb/examples/codegen/models/user.go:12-15 | the User schema is renderable: its names are identifiers and not keywords, its tokens decimal literals |
| GeneratorVectors.UserSchemaRoundTrip | tibeb/internal/generator/generator.go:302-317 | extracting the chain of the file generated for the User schema gives the User schema back |
| GeneratorVectors.UserValidatorChains | tibeb/examples/codegen/models/user.go:13-15 | the three validator chains read back as [MinLen 3, MaxLen 30], [Email] and [Min 13]: the `String()`/`Int()` constructors are dropped and the literals kept verbatim |
| GeneratorVectors.BasicExampleHasNoSchema | tibeb/examples/basic/main.go:18-21 | a chain built with `:=` inside a function is in no `var` declaration, so Generate reports no schemas |
| ValidationErrors.Errors.constructor | tibeb/pkg/validate/types.go:11-13 | a new collection is empty |
| ValidationErrors.Errors.Add | tibeb/pkg/validate/types.go:16-21 | appends exactly one error at the end; earlier entries unchanged |
| ValidationErrors.Errors.HasErrors | tibeb/pkg/validate/types.go:24-26 | true if and only if some error was added |
| ValidationErrors.Errors.Get | tibeb/pkg/validate/types.go:29-31 | the errors in insertion order |
| Schemas.FirstOfType | tibeb/pkg/validate/struct.go:31-37 | the first position, in declaration order, of a field of the given type, or none |
| Schemas.LookupFieldName | tibeb/pkg/validate/struct.go:23-38 | the name of the first struct field whose type is the selector's result type; "" when none matches or T is not a struct |
| Schemas.RuleError | tibeb/pkg/validate/types.go:54-56 | a rule fails iff its validator fails on the selected value, and the error carries the rule's field name |
| Schemas.Collect | tibeb/pkg/validate/types.go:51-60 | at most one error per rule |
| Schemas.Schema.constructor | tibeb/pkg/validate/struct.go:6-10 | `Struct[T]()` starts without rules |
| Schemas.Schema.Field | tibeb/pkg/validate/struct.go:13-71 | appends exactly one rule, with the looked-up field name, and returns the same schema; a non-function selector or a validator without `Validate` is excluded |
| Schemas.Schema.Validate | tibeb/pkg/validate/types.go:51-60 | a fresh collection holding the errors of the failing rules, in rule order, each stamped with its rule's field name |
| Schemas.ValidatorFunc.Validate | tibeb/pkg/validate/struct.go:77-79 | the function's own verdict |
| Schemas.CollectAppend | tibeb/pkg/validate/types.go:53-58 | rules run in order: the errors of concatenated rule lists are concatenated |
| Schemas.CollectEmptyIff | tibeb/pkg/validate/types.go:51-60 | no error is collected iff every rule passes |
| Schemas.CollectStamped | tibeb/pkg/validate/types.go:54-56 | every collected error is some failing rule's error with that rule's field name written over its own |
| Schemas.CollectFirst | tibeb/pkg/validate/types.go:53-58 | the first collected error is that of the first failing rule |
| Schemas.SameTypeSameName | tibeb/pkg/validate/struct.go:31-37 | two fields of the same type are both named after the first field of that type |
| Schemas.EmailReportedAsUsername | tibeb/pkg/validate/struct.go:31-37 | in User {Username, Email string; Age int} a string selector is named "Username", an int one "Age", and a non-struct gives "" |
| Schemas.TypedFieldDelegates | tibeb/pkg/validate/struct.go:82-98 | TypedField's validator applies the rule to every value of type F its selector produced |
| Schemas.TypedFieldRejects | tibeb/pkg/validate/struct.go:87-95 | a value that is not an F is refused with code "invalid_type" |
| StringValidation.StringValidator.constructor | tibeb/pkg/validate/string.go:24-26 | `String()` holds no constraints |
| StringValidation.StringValidator.MinLen | tibeb/pkg/validate/string.go:29-32 | sets the minimum, nothing else, and returns the receiver |
| StringValidation.StringValidator.MaxLen | tibeb/pkg/validate/string.go:35-38 | sets the maximum, nothing else, and returns the receiver |
| StringValidation.StringValidator.Pattern | tibeb/pkg/validate/string.go:41-44 | sets the pattern and returns the receiver |
| StringValidation.StringValidator.Matches | tibeb/pkg/validate/string.go:47-49 | has exactly the effect of Pattern |
| StringValidation.StringValidator.Default | tibeb/pkg/validate/string.go:52-55 | sets the default and returns the receiver |
| StringValidation.StringValidator.Optional | tibeb/pkg/validate/string.go:58-61 | sets optional and returns the receiver |
| StringValidation.StringValidator.Catch | tibeb/pkg/validate/string.go:64-68 | changes nothing and returns the receiver |
| StringValidation.StringValidator.Email | tibeb/pkg/validate/string.go:71-74 | sets the e-mail check and returns the receiver |
| StringValidation.StringValidator.Required | tibeb/pkg/validate/string.go:77-80 | sets required and returns the receiver |
| StringValidation.StringValidator.Custom | tibeb/pkg/validate/string.go:83-86 | sets the custom check and returns the receiver |
| StringValidation.StringValidator.AsValidator | tibeb/pkg/validate/string.go:89-151 | the builder as a validator value, giving the builder's verdict on every value |
| StringValidation.StringValidator.Validate | tibeb/pkg/validate/string.go:89-151 | computes `StringVerdict` of the constraints the builder holds |
| StringValidation.StringPassesIff | tibeb/pkg/validate/string.go:89-151 | a value passes iff, after defaulting, it is not blank-and-required and is either blank-and-optional or meets every check that is set |
| StringValidation.DefaultFirst | tibeb/pkg/validate/string.go:91-93 | the default replaces exactly the blank values, before every check |
| StringValidation.RequiredBlankFails | tibeb/pkg/validate/string.go:96-101 | required and blank after defaulting gives "required" |
| StringValidation.OptionalBlankPasses | tibeb/pkg/validate/string.go:104-106 | optional, not required, and blank passes with no later check run |
| StringValidation.StringFirstFailure | tibeb/pkg/validate/string.go:108-142 | without a custom check, each built-in code ("required", "too_short", "too_long", "invalid_format", "invalid_email") implies its check failed and every earlier check passed; with one, its verdict is the result when every built-in check passed, and otherwise the verdict is the one without the custom check |
| StringValidation.StringCheckOrder | tibeb/pkg/validate/string.go:96-142 | custom check or not, the first failing check in the order required, too short, too long, pattern, e-mail is the error reported |
| StringValidation.EmailOnly | tibeb/pkg/validate/string.go:135-142 | with only the e-mail check, a value passes iff it contains both "@" and "." |
| StringValidation.LengthInBytes | tibeb/pkg/validate/string.go:108-124 | lengths are UTF-8 byte counts: "é" meets MinLen(2) and fails MaxLen(1) with "too_long" |
| StringValidation.CustomErrorAsIs | tibeb/pkg/validate/string.go:96-148 | a custom check's error is returned unchanged, for blank values too when neither Required nor Optional is set |
| IntValidation.IntValidator.constructor | tibeb/pkg/validate/int.go:16-18 | `Int()` holds no constraints |
| IntValidation.IntValidator.Min | tibeb/pkg/validate/int.go:21-24 | sets the minimum, nothing else, and returns the receiver |
| IntValidation.IntValidator.Max | tibeb/pkg/validate/int.go:27-30 | sets the maximum, nothing else, and returns the receiver |
| IntValidation.IntValidator.Positive | tibeb/pkg/validate/int.go:33-36 | sets positive and returns the receiver |
| IntValidation.IntValidator.Negative | tibeb/pkg/validate/int.go:39-42 | sets negative and returns the receiver |
| IntValidation.IntValidator.AsValidator | tibeb/pkg/validate/int.go:45-75 | the builder as a validator value, giving the builder's verdict on every value |
| IntValidation.IntValidator.Validate | tibeb/pkg/validate/int.go:45-75 | computes `IntVerdict` of the constraints the builder holds |
| IntValidation.IntPassesIff | tibeb/pkg/validate/int.go:45-75 | a value passes iff every constraint that is set holds |
| IntValidation.IntFirstFailure | tibeb/pkg/validate/int.go:46-72 | below the minimum gives "too_small"; "too_large", "not_positive" and "not_negative" each imply their check failed and every earlier check passed |
| IntValidation.NoConstraintsPass | tibeb/pkg/validate/int.go:16-18 | a fresh `Int()` accepts every value |
| IntValidation.PositiveAndNegativeRejectAll | tibeb/pkg/validate/int.go:60-72 | with both Positive and Negative set, every value fails |
| IntValidation.LaterMinWins | tibeb/pkg/validate/int.go:21-24 | `v.Min(a).Min(b)` returns v with the minimum b and every other constraint unchanged |
| TimeValidation.TimeValidator.constructor | tibeb/pkg/validate/time.go:19-21 | `Time()` holds no constraints |
| TimeValidation.TimeValidator.After | tibeb/pkg/validate/time.go:24-27 | stores the bound and returns the receiver |
| TimeValidation.TimeValidator.Before | tibeb/pkg/validate/time.go:30-33 | stores the bound and returns the receiver |
| TimeValidation.TimeValidator.Between | tibeb/pkg/validate/time.go:36-39 | stores the range and returns the receiver |
| TimeValidation.TimeValidator.Custom | tibeb/pkg/validate/time.go:42-45 | stores the custom check and returns the receiver |
| TimeValidation.TimeValidator.Required | tibeb/pkg/validate/time.go:48-51 | sets required and returns the receiver |
| TimeValidation.TimeValidator.AsValidator | tibeb/pkg/validate/time.go:54-107 | the builder as a validator value, giving the builder's verdict on every instant |
| TimeValidation.TimeValidator.Validate | tibeb/pkg/validate/time.go:54-107 | computes `TimeVerdict` of the constraints the builder holds |
| TimeValidation.ZeroTime | tibeb/pkg/validate/time.go:56-67 | the zero time fails with "required" when required and otherwise passes, skipping every other check |
| TimeValidation.TimePassesIff | tibeb/pkg/validate/time.go:54-107 | a non-zero instant passes iff it meets every constraint that is set |
| TimeValidation.StrictBounds | tibeb/pkg/validate/time.go:70-85 | After and Before are strict: the bound itself is "too_early" or "too_late" |
| TimeValidation.BetweenInclusive | tibeb/pkg/validate/time.go:88-97 | Between is inclusive at both ends, and only instants outside fail, with "out_of_range" |
| TimeValidation.TimeFirstFailure | tibeb/pkg/validate/time.go:54-107 | a failed After gives "too_early"; a failed Before after a passing After gives "too_late"; a failed Between after both gives "out_of_range", custom check or not; without a custom check those codes imply the same conditions; the custom check's verdict is the result when every built-in check passed, and a built-in code otherwise |
| Composition.OneOfValidator.Validate | tibeb/pkg/validate/composition.go:16-30 | computes `OneOfVerdict`: the first pass returns at once; when all fail, "no_match" with the last error's field; an empty list is excluded |
| Composition.AllOfValidator.Validate | tibeb/pkg/validate/composition.go:45-52 | computes `FirstError`: the first error in order, or none |
| Composition.NotVerdict | tibeb/pkg/validate/composition.go:67-75 | fails with "invalid_match" iff the inner validator passes |
| Composition.OneOfDualOfAllOf | tibeb/pkg/validate/composition.go:16-74 | OneOf(v1..vn) passes exactly when AllOf(Not(v1)..Not(vn)) fails; when OneOf fails, AllOf of the same list fails with the first validator's error |
| Composition.FirstErrorIsFirst | tibeb/pkg/validate/composition.go:45-52 | AllOf passes iff every validator passes; otherwise it reports the first failing validator's error |
| Composition.EmptyAllOfPasses | tibeb/pkg/validate/composition.go:38-52 | an AllOf without validators passes everything |
| Composition.DoubleNegation | tibeb/pkg/validate/composition.go:60-75 | `Not(Not(v))` passes iff `v` passes |
| NestedValidation.NestedValidator.Validate | tibeb/pkg/validate/nested.go:16-27 | computes `NestedVerdict`: none when the schema collects no error, otherwise a new error copying the first one |
| NestedValidation.NestedIff | tibeb/pkg/validate/nested.go:16-27 | a nested value passes iff every rule passes; otherwise the error is the first failing rule's, carrying its field name |
| NestedValidation.LaterRulesIgnored | tibeb/pkg/validate/nested.go:19 | errors after the first are discarded: later rules do not change a failing verdict |
| Transforms.TransformValidator.constructor | tibeb/pkg/validate/transform.go:27-40 | one transform, no default, no catch |
| Transforms.TransformValidator.Pipe | tibeb/pkg/validate/transform.go:43-46 | appends one transform at the end, nothing else, and returns the receiver |
| Transforms.TransformValidator.Default | tibeb/pkg/validate/transform.go:49-52 | sets the default and returns the receiver |
| Transforms.TransformValidator.Catch | tibeb/pkg/validate/transform.go:55-58 | sets the catch value and returns the receiver |
| Transforms.TransformValidator.Validate | tibeb/pkg/validate/transform.go:61-80 | computes `TransformVerdict`: the default for the zero value, then the transforms in order, then the check, with the catch fallback |
| Transforms.TransformString | tibeb/pkg/validate/transform.go:27-32 | a fresh validator wrapping the string builder's verdict with one transform, zero value "" |
| Transforms.TransformInt | tibeb/pkg/validate/transform.go:35-40 | a fresh validator wrapping the integer builder's verdict with one transform, zero value 0 |
| Transforms.Trim | tibeb/pkg/validate/transform.go:83-85 | a one-transform validator applying TrimSpace before the receiver's checks |
| Transforms.Lowercase | tibeb/pkg/validate/transform.go:87-89 | a one-transform validator applying ToLower before the receiver's checks |
| Transforms.Uppercase | tibeb/pkg/validate/transform.go:91-93 | a one-transform validator applying ToUpper before the receiver's checks |
| Transforms.ParseValidator.Validate | tibeb/pkg/validate/transform.go:133-144 | a parse failure gives "parse_error" with message "failed to parse value: " and the reason; otherwise the inner verdict on the parsed value |
| Transforms.ParseInt | tibeb/pkg/validate/transform.go:113-117 | the receiver's constraints play no part: a value fails iff it does not parse as an integer |
| Transforms.ParseTime | tibeb/pkg/validate/transform.go:119-123 | an empty time validator follows the parse: a value fails iff it does not parse |
| Transforms.ApplyAllAppend | tibeb/pkg/validate/transform.go:67-69 | the transforms compose in list order |
| Transforms.PipeAppliesLast | tibeb/pkg/validate/transform.go:43-46 | after Pipe(fn), the value checked is fn of the value checked before |
| Transforms.DefaultOnlyForZero | tibeb/pkg/validate/transform.go:62-64 | the default replaces only the zero value, before any transform |
| Transforms.CatchReplacesFailure | tibeb/pkg/validate/transform.go:72-79 | setting a catch value c changes only failed checks, each into the untransformed verdict on c; a passing check still passes, and a catch value that passes makes every check pass |
| Transforms.TrimChecksTrimmed | tibeb/pkg/validate/transform.go:83-85 | Trim checks the trimmed value |
| Text.TrimSpaceEmptyIffBlank | tibeb/pkg/validate/string.go:91 | a string trims to empty iff every character is white space |
| Text.Utf8LenBounds | tibeb/pkg/validate/string.go:109 | a string's byte length is between its character count and four times that count; it equals the count iff the string is ASCII |
| Text.NatTextValue | tibeb/pkg/validate/int.go:49 | the decimal text of a number reads back as that number |

## Left out

- Parsing Go source (`parser.ParseFile`) is not modelled. Generate takes the parser's result as a parameter, and the declarations are given in the order `ast.Inspect` visits them. `ast.Print` for verbose output is left out.
- Directory creation, file creation and template execution are I/O. They are a given `emit` function that reports which step failed. A file left partly written by a failed execution is not modelled.
- `filepath.Join` path cleaning is left out. The output directory and the file name are joined with one "/", and an empty directory adds nothing.
- Emitter.CapitalizeFirst: upper-cases the first character by ASCII rules. Go upper-cases the first byte, which differs when the type name starts with a non-ASCII character.
- `strings.ToLower`/`ToUpper` map only ASCII letters; Go also maps other Unicode letters. `strings.TrimSpace` uses Unicode's white space set, as Go's does.
- Generate's error messages are variants of a datatype, not `fmt.Errorf` text. The template's parse error cannot occur, because the template is a constant.
- RoundTrip.RenderedChain is written by hand. It is the syntax tree of the template's text only for a renderable schema (RoundTrip.Renderable): a type name, field names and validator method names that are identifiers and not keywords; field types that are such identifiers or `interface{}`; argument tokens that are identifiers, decimal integers or plain double-quoted strings. Extraction produces such schemas, except for the literal kinds not listed (floats, runes, raw or escaped strings), which are not covered. RoundTrip.RenderedText proves that printing the tree gives the rendered text for every schema; that the Go parser makes this tree of that text is not proved, because the parser is not part of the model.
- RoundTrip.Constructor: for other schemas the tree is a stand-in. A qualified type such as `time.Time` renders `validate.Time.Time()`, which Go parses as a call of a selector and reads back with a `Time()` entry; a compound type such as `[]string` renders text that does not parse; a type name `a.b` makes `Struct[a.b]` index by a selector, so nothing is extracted; a field name `x.y` reads back as `y`. None of these is modelled.
- RoundTrip.IsIdentChar: identifiers are ASCII. Go also admits Unicode letters and digits; schemas using them are not renderable here and are not covered.
- RoundTrip.ReadBackSchema: defined only for renderable schemas, for the reasons above; so is RoundTrip.ReadBack, for renderable fields.
- RoundTrip.TokensReadBack: requires names, decimal integers or plain string literals as tokens, for the reasons above.
- RoundTrip.CallLinksReadBack: requires renderable method names and tokens, for the reasons above.
- RoundTrip.ValidatorsReadBack: requires an identifier or `interface{}` field type and renderable calls, for the reasons above.
- RoundTrip.FieldReadBack: requires a renderable field and type name, for the reasons above.
- RoundTrip.RenderThenExtract: requires a renderable schema, for the reasons above.
- RoundTrip.ScanRenderedDecl: requires a renderable schema, for the reasons above.
- RoundTrip.TokenExpr reads a token back as an identifier or a literal. Any other token, such as `-5` (a unary expression) or `1+2` (a binary one), parses as an expression the extractor drops; the round-trip lemmas do not cover it.
- Regular expressions are predicates on strings. `regexp.MustCompile` and its panic on a bad pattern are left out.
- `Today`, `Future`, `Past` and `BusinessDay` in time.go read the clock and are left out. An instant carries its RFC 3339 text instead of computing it.
- Reflection in struct.go is replaced by a description of T's fields. The panics on a `Validate` that returns other than one value, and on argument types that do not match, are left out.
- Schemas.TypedField: has no contract of its own. Its behaviour is stated by `TypedFieldDelegates` and `TypedFieldRejects`. Go's type assertion is a given `unbox` function.
- Errors are values, not pointers. Go writes the field name into the error object a validator returned, so a validator that returns a shared error object sees it changed. The model copies the error instead.
- StringValidation.StringValidator.AsValidator: captures the builder's constraints at the moment it is called. Go stores a pointer to the builder, so later setter calls on the same builder still affect a TransformValidator built from it. The same holds for IntValidation.IntValidator.AsValidator and TimeValidation.TimeValidator.AsValidator.
- Transforms.TransformValidator: the zero value is given when the validator is built. Go compares with `any(value) == any(zero)`, which panics for non-comparable types; that panic is not modelled.
- `StringValidator.ParseJSON` and json.go depend on `encoding/json` and are left out. `strconv.Atoi` and `time.Parse` are given functions.
- custom.go, the command-line tool and the example programs are left out. The exceptions are the schema chains of the codegen and basic examples, which are used as test vectors.
- IntValidation.IntValidator.Validate: integers are unbounded. Go's `int` is 64 bits wide, but the comparisons involve no arithmetic, so no result depends on the width.
