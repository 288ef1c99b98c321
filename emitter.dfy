/**
 * The output side of the generator (generator.go Generate, generateValidator): one Go file per schema,
 * written to `<OutputDir>/<lower-case type name>_validator.go`, rendered from a fixed template.
 * Writing a file is the environment's business: `emit` stands for the directory creation, file creation
 * and template execution steps and says which of them failed, if any.
 */
module Emitter {
  import opened Wrappers
  import opened Text
  import opened GoAst
  import opened Extractor
  import opened Scanner

  // ---------------------------------------------------------------------------------------------
  // Template text

  /** The template's `capitalizeFirst`: the first character upper-cased, the rest kept. */
  function CapitalizeFirst(s: string): (r: string)
    ensures |r| == |s|
    ensures s != [] ==> r[0] == AsciiUpper(s[0]) && r[1..] == s[1..]
  {
    if |s| == 0 then s else ToUpper(s[..1]) + s[1..]
  }

  /** The argument tokens separated by ", " (the template's `{{ if $i }}, {{ end }}{{ $arg }}`). */
  function JoinArgs(args: seq<string>): string
  {
    if args == [] then ""
    else if |args| == 1 then args[0]
    else JoinArgs(args[..|args| - 1]) + ", " + args[|args| - 1]
  }

  /** One recorded validator call: `.Method(a1, a2, ...)`. */
  function CallText(c: ValidatorCall): string
  {
    "." + c.methodName + "(" + JoinArgs(c.args) + ")"
  }

  function CallsText(calls: seq<ValidatorCall>): string
  {
    if calls == [] then "" else CallsText(calls[..|calls| - 1]) + CallText(calls[|calls| - 1])
  }

  /** The selector literal of a field: `func(v T) typ { return v.name }`. */
  function SelectorLiteralText(typeName: string, f: ValidationField): string
  {
    "func(v " + typeName + ") " + f.typ + " { return v." + f.name + " }"
  }

  /** The validator argument of a field: the type constructor `validate.Typ()`, then its validator calls. */
  function ValidatorChainText(f: ValidationField): string
  {
    "validate." + CapitalizeFirst(f.typ) + "()" + CallsText(f.validators)
  }

  /** One field on a line of its own: the selector literal, then the type constructor and its validators. */
  function FieldText(typeName: string, f: ValidationField): string
  {
    ".\n\tField(" + SelectorLiteralText(typeName, f) + ", " + ValidatorChainText(f) + ")"
  }

  function FieldsText(typeName: string, fields: seq<ValidationField>): string
  {
    if fields == [] then ""
    else FieldsText(typeName, fields[..|fields| - 1]) + FieldText(typeName, fields[|fields| - 1])
  }

  /** The fixed text before the schema variable: banner, package clause, import, the Validate<T> function. */
  function Preamble(pkg: string, typeName: string): string
  {
    "// Code generated by tibeb. DO NOT EDIT.\npackage " + pkg + "\n\nimport (\n\t\"github.com/bm-197/tibeb/pkg/validate\"\n)\n\n"
    + "// Validate" + typeName + " validates the " + typeName + " struct\n"
    + "func Validate" + typeName + "(v " + typeName + ") *validate.Errors {\n\treturn " + typeName + "Schema.Validate(v)\n}\n\n"
  }

  /** The doc comment line of the generated schema variable. */
  function SchemaDocLine(typeName: string): string
  {
    "// " + typeName + "Schema is the " + Phrase + " " + typeName
  }

  /** The schema expression: `validate.Struct[T]()` followed by one `Field` call per field. */
  function SchemaChainText(typeName: string, fields: seq<ValidationField>): string
  {
    "validate.Struct[" + typeName + "]()" + FieldsText(typeName, fields)
  }

  /** generateValidator's template applied to a package name and a schema. */
  function RenderFile(pkg: string, s: ValidationSchema): string
  {
    Preamble(pkg, s.typeName) + SchemaDocLine(s.typeName) + "\nvar " + s.typeName + "Schema = "
    + SchemaChainText(s.typeName, s.fields) + "\n"
  }

  /** `filepath.Join(dir, strings.ToLower(typeName) + "_validator.go")`. */
  function OutputPath(dir: string, typeName: string): (p: string)
    ensures HasSuffix(p, "_validator.go")
  {
    (if dir == "" then "" else dir + "/") + ToLower(typeName) + "_validator.go"
  }

  // ---------------------------------------------------------------------------------------------
  // Generate

  /** The generator's configuration (its command-line options). */
  datatype Config = Config(inputFile: string, outputDir: string, package: string, verbose: bool)

  /** A file the generator writes: its path and its content. */
  datatype OutputFile = OutputFile(path: string, content: string)

  /** The step of generateValidator that failed, with the environment's reason. */
  datatype EmitError =
    | MkdirFailed(reason: string)     // os.MkdirAll of the output directory
    | CreateFailed(reason: string)    // os.Create of the output file
    | ExecuteFailed(reason: string)   // writing the template's text

  /** The errors Generate returns. */
  datatype GenerateError =
    | ParseFailed(reason: string)                      // "parsing input file: ..."
    | NoSchemas(inputFile: string)                     // "no validation schemas found in ..."
    | EmitFailed(typeName: string, cause: EmitError)   // "generating validator for T: ..."

  /** The file generateValidator writes for one schema. */
  function Emission(config: Config, s: ValidationSchema): OutputFile
  {
    OutputFile(OutputPath(config.outputDir, s.typeName), RenderFile(config.package, s))
  }

  /** Emission for one configuration, as a function of the schema. */
  function Renderer(config: Config): ValidationSchema -> OutputFile
  {
    s => Emission(config, s)
  }

  /** What a run of Generate leaves behind: the files written, in order, and the error returned. */
  datatype Outcome = Outcome(written: seq<OutputFile>, err: Option<GenerateError>)

  /**
   * The files written for `schemas`, each made by `render`, in order, up to the first whose writing fails,
   * and the error then returned (specification of Generate's emission loop).
   */
  function EmitAll(render: ValidationSchema -> OutputFile, schemas: seq<ValidationSchema>,
                   emit: OutputFile -> Option<EmitError>): Outcome
  {
    if schemas == [] then Outcome([], None)
    else
      var file := render(schemas[0]);
      match emit(file)
      case Some(e) => Outcome([], Some(EmitFailed(schemas[0].typeName, e)))
      case None =>
        var rest := EmitAll(render, schemas[1..], emit);
        Outcome([file] + rest.written, rest.err)
  }

  /** What Generate does given the parser's outcome for the input file (specification of Generate). */
  function GenerateOutcome(config: Config, parsed: Result<seq<GenDecl>, string>,
                           emit: OutputFile -> Option<EmitError>): Outcome
  {
    match parsed
    case Err(reason) => Outcome([], Some(ParseFailed(reason)))
    case Ok(decls) =>
      var schemas := FileSchemas(decls);
      if schemas == [] then Outcome([], Some(NoSchemas(config.inputFile)))
      else EmitAll(Renderer(config), schemas, emit)
  }

  /** The loop of Generate over the schemas: one generateValidator call each, stopping at the first error. */
  method EmitSchemas(config: Config, schemas: seq<ValidationSchema>, emit: OutputFile -> Option<EmitError>)
    returns (written: seq<OutputFile>, err: Option<GenerateError>)
    ensures Outcome(written, err) == EmitAll(Renderer(config), schemas, emit)
  {
    written := [];
    var i := 0;
    assert schemas[i..] == schemas;
    while i < |schemas|
      invariant 0 <= i <= |schemas|
      invariant EmitAll(Renderer(config), schemas, emit).written == written + EmitAll(Renderer(config), schemas[i..], emit).written
      invariant EmitAll(Renderer(config), schemas, emit).err == EmitAll(Renderer(config), schemas[i..], emit).err
    {
      var file := Emission(config, schemas[i]);
      assert Renderer(config)(schemas[i]) == file;
      var failure := emit(file);
      assert schemas[i..][0] == schemas[i];
      if failure.Some? {
        return written, Some(EmitFailed(schemas[i].typeName, failure.value));
      }
      assert schemas[i..][1..] == schemas[i + 1..];
      written := written + [file];
      i := i + 1;
    }
    assert schemas[i..] == [];
    err := None;
  }

  /** generator.go Generate: finds the schemas, refuses an input without any, then emits them in order. */
  method Generate(config: Config, parsed: Result<seq<GenDecl>, string>, emit: OutputFile -> Option<EmitError>)
    returns (written: seq<OutputFile>, err: Option<GenerateError>)
    ensures Outcome(written, err) == GenerateOutcome(config, parsed, emit)
  {
    if parsed.Err? {
      return [], Some(ParseFailed(parsed.error));
    }
    var schemas := FindValidationSchemas(parsed.value);
    if |schemas| == 0 {
      return [], Some(NoSchemas(config.inputFile));
    }
    written, err := EmitSchemas(config, schemas, emit);
  }

  // ---------------------------------------------------------------------------------------------
  // Properties

  /**
   * The emission loop writes the schemas' files in order and stops at the first failure: every file
   * written succeeded, the error (if any) is the next schema's, and success means every schema was written.
   * This holds whatever the files contain, so it is stated for any `render`.
   */
  lemma {:induction false} EmitAllAbortsAtFirstFailure(render: ValidationSchema -> OutputFile,
                                                        schemas: seq<ValidationSchema>, emit: OutputFile -> Option<EmitError>)
    ensures var Outcome(written, err) := EmitAll(render, schemas, emit);
            && |written| <= |schemas|
            && (forall i :: 0 <= i < |written| ==> written[i] == render(schemas[i]) && emit(written[i]).None?)
            && (err.None? <==> |written| == |schemas|)
            && (err.Some? ==> var next := render(schemas[|written|]);
                              emit(next).Some? && err == Some(EmitFailed(schemas[|written|].typeName, emit(next).value)))
  {
    if schemas != [] {
      var rest := schemas[1..];
      EmitAllAbortsAtFirstFailure(render, rest, emit);
      var file := render(schemas[0]);
      if emit(file).None? {
        var later := EmitAll(render, rest, emit);
        var written := EmitAll(render, schemas, emit).written;
        assert written == [file] + later.written;
        forall i | 1 <= i < |written| ensures written[i] == render(schemas[i]) {
          assert written[i] == later.written[i - 1] && rest[i - 1] == schemas[i];
        }
        if later.err.Some? {
          assert rest[|later.written|] == schemas[|written|];
        }
      }
    }
  }

  /** Generate writes nothing when the input has no schema (or cannot be parsed). */
  lemma NothingWrittenWithoutSchemas(config: Config, decls: seq<GenDecl>, emit: OutputFile -> Option<EmitError>)
    requires FileSchemas(decls) == []
    ensures GenerateOutcome(config, Ok(decls), emit) == Outcome([], Some(NoSchemas(config.inputFile)))
  {
  }

  /** Two type names share an output file exactly when they agree up to letter case. */
  lemma OutputPathsCollide(dir: string, t1: string, t2: string)
    ensures OutputPath(dir, t1) == OutputPath(dir, t2) <==> ToLower(t1) == ToLower(t2)
  {
    var prefix := if dir == "" then "" else dir + "/";
    if OutputPath(dir, t1) == OutputPath(dir, t2) {
      assert |ToLower(t1)| == |ToLower(t2)|;
      assert OutputPath(dir, t1)[|prefix|..|prefix| + |t1|] == ToLower(t1);
      assert OutputPath(dir, t2)[|prefix|..|prefix| + |t2|] == ToLower(t2);
    }
  }

  /** `Invoice` in `gen` is written to `gen/invoice_validator.go`. */
  lemma InvoicePath()
    ensures OutputPath("gen", "Invoice") == "gen/invoice_validator.go"
  {
    assert ToLower("Invoice") == "invoice";
  }

  /** Capitalizing twice is capitalizing once. */
  lemma CapitalizeFirstIdempotent(s: string)
    ensures CapitalizeFirst(CapitalizeFirst(s)) == CapitalizeFirst(s)
  {
    if s != [] {
      var r := CapitalizeFirst(s);
      assert r == [r[0]] + r[1..];
      assert CapitalizeFirst(r) == [CapitalizeFirst(r)[0]] + CapitalizeFirst(r)[1..];
    }
  }

  /** The two field types the extractor elides render to the constructors it elides. */
  lemma CapitalizedConstructors()
    ensures CapitalizeFirst("string") == "String"
    ensures CapitalizeFirst("int") == "Int"
    ensures CapitalizeFirst("") == ""
  {
    assert CapitalizeFirst("string") == [CapitalizeFirst("string")[0]] + CapitalizeFirst("string")[1..];
    assert CapitalizeFirst("int") == [CapitalizeFirst("int")[0]] + CapitalizeFirst("int")[1..];
  }
}
