/**
 * The example programs' schema chains as syntax trees, and what the generator makes of them: the
 * `models` package of the code-generation example and the basic example's `main` package.
 */
module GeneratorVectors {
  import opened Wrappers
  import opened GoAst
  import opened Extractor
  import opened Scanner
  import opened Emitter
  import opened RoundTrip

  /** `func(u User) <typ> { return u.<name> }`. */
  function Getter(typ: string, name: string): Expr
  {
    FuncLit([Param("u", Ident("User"))], [Ident(typ)], [Return([Selector(Ident("u"), name)])])
  }

  /** `recv.m(args)`. */
  function Invoke(recv: Expr, m: string, args: seq<Expr>): Expr
  {
    Call(Selector(recv, m), args)
  }

  /** `validate.<ctor>()`. */
  function Ctor(ctor: string): Expr
  {
    Invoke(Ident("validate"), ctor, [])
  }

  /** `validate.String().MinLen(3).MaxLen(30)`. */
  function UsernameRules(): Expr
  {
    Invoke(Invoke(Ctor("String"), "MinLen", [BasicLit("3")]), "MaxLen", [BasicLit("30")])
  }

  /** `validate.String().Email()`. */
  function EmailRules(): Expr
  {
    Invoke(Ctor("String"), "Email", [])
  }

  /** `validate.Int().Min(13)`. */
  function AgeRules(): Expr
  {
    Invoke(Ctor("Int"), "Min", [BasicLit("13")])
  }

  /**
   * validate.Struct[User]().
   *   Field(func(u User) string { return u.Username }, validate.String().MinLen(3).MaxLen(30)).
   *   Field(func(u User) string { return u.Email }, validate.String().Email()).
   *   Field(func(u User) int { return u.Age }, validate.Int().Min(13))
   */
  function UserChain(): Expr
  {
    var root := Call(Index(Selector(Ident("validate"), "Struct"), Ident("User")), []);
    Invoke(Invoke(Invoke(root, "Field", [Getter("string", "Username"), UsernameRules()]),
                  "Field", [Getter("string", "Email"), EmailRules()]),
           "Field", [Getter("int", "Age"), AgeRules()])
  }

  function UserSchema(): ValidationSchema
  {
    ValidationSchema("User", [
      ValidationField("Username", "string", [ValidatorCall("MinLen", ["3"]), ValidatorCall("MaxLen", ["30"])]),
      ValidationField("Email", "string", [ValidatorCall("Email", [])]),
      ValidationField("Age", "int", [ValidatorCall("Min", ["13"])])
    ])
  }

  /** The three validator chains read back as their calls, the `String()`/`Int()` constructors elided. */
  lemma UserValidatorChains()
    ensures ValidatorsOf(UsernameRules()) == [ValidatorCall("MinLen", ["3"]), ValidatorCall("MaxLen", ["30"])]
    ensures ValidatorsOf(EmailRules()) == [ValidatorCall("Email", [])]
    ensures ValidatorsOf(AgeRules()) == [ValidatorCall("Min", ["13"])]
  {
    assert ArgTokens([BasicLit("3")]) == ["3"] by { assert [BasicLit("3")][..0] == []; }
    assert ArgTokens([BasicLit("30")]) == ["30"] by { assert [BasicLit("30")][..0] == []; }
    assert ArgTokens([BasicLit("13")]) == ["13"] by { assert [BasicLit("13")][..0] == []; }
  }

  /** The chain yields the User schema: three fields in source order, constructors elided, literals verbatim. */
  lemma ExtractUserChain()
    ensures ExtractSchema(UserChain()) == Some(UserSchema())
  {
    var fields := UserSchema().fields;
    UserValidatorChains();
    var root := Call(Index(Selector(Ident("validate"), "Struct"), Ident("User")), []);
    var first := Invoke(root, "Field", [Getter("string", "Username"), UsernameRules()]);
    var second := Invoke(first, "Field", [Getter("string", "Email"), EmailRules()]);
    assert FieldsOf(first) == [fields[0]];
    assert FieldsOf(second) == [fields[0], fields[1]];
    assert FieldsOf(UserChain()) == fields;
    assert RootOf(UserChain()) == root;
  }

  /** The names in the User schema are Go identifiers and not keywords. */
  lemma UserNames()
    ensures IsName("User") && IsName("Username") && IsName("Email") && IsName("Age")
    ensures IsName("string") && IsName("int") && IsName("MinLen") && IsName("MaxLen") && IsName("Min")
  {
    ExportedName("User");
    ExportedName("Username");
    ExportedName("Email");
    ExportedName("Age");
    ExportedName("MinLen");
    ExportedName("MaxLen");
    ExportedName("Min");
    assert IsIdentifier("string") by {
      forall i | 0 <= i < 6 ensures IsIdentChar("string"[i]) { }
    }
    assert IsIdentifier("int") by {
      forall i | 0 <= i < 3 ensures IsIdentChar("int"[i]) { }
    }
  }

  /** Every name, type and argument token of the User schema is one extraction produces. */
  lemma UserSchemaRenderable()
    ensures Renderable(UserSchema())
  {
    var fields := UserSchema().fields;
    UserNames();
    assert IsDecimalLit("3") && IsDecimalLit("30") && IsDecimalLit("13");
    assert RenderableCalls(fields[0].validators);
    assert RenderableCalls(fields[1].validators);
    assert RenderableCalls(fields[2].validators);
  }

  /** The file Generate writes for the User schema gives the same schema back when its chain is extracted. */
  lemma UserSchemaRoundTrip()
    ensures ExtractSchema(RenderedChain(UserSchema())) == Some(UserSchema())
  {
    UserSchemaRenderable();
    RenderThenExtractPlain(UserSchema());
  }

  /** The `models` file: its import and type declarations, then the doc-commented `var Schema = ...`. */
  function ModelsFile(): seq<GenDecl>
  {
    [ GenDecl(Import, [], [OtherSpec]),
      GenDecl(Type, [], [OtherSpec]),
      GenDecl(Var, ["// Schema is the validation schema for User"], [ValueSpec(["Schema"], [UserChain()])]) ]
  }

  /** Scanning the `models` file finds the User schema once; the type argument names it. */
  lemma ScanModelsFile()
    ensures FileSchemas(ModelsFile()) == [UserSchema()]
  {
    var decls := ModelsFile();
    ExtractUserChain();
    assert decls[..2][..1][..0] == [];
    assert decls[..2][..1] == [decls[0]] && decls[..2] == [decls[0], decls[1]];
    assert decls[..|decls| - 1] == decls[..2];
    assert FileSchemas(decls[..2][..1]) == FileSchemas([]) + DeclSchemas(decls[0]) == [];
    assert FileSchemas(decls[..2]) == FileSchemas(decls[..2][..1]) + DeclSchemas(decls[1]) == [];
    var spec := decls[2].specs[0];
    assert decls[2].specs[..0] == [];
    assert SchemaAt(decls[2].doc, spec.names, spec.values, 0) == [UserSchema()];
    assert ValueSchemas(decls[2].doc, spec.names, spec.values, 1) == [UserSchema()];
    assert SpecSchemas(decls[2].doc, decls[2].specs)
           == SpecSchemas(decls[2].doc, []) + ValueSchemas(decls[2].doc, spec.names, spec.values, 1);
    assert FileSchemas(decls) == FileSchemas(decls[..2]) + DeclSchemas(decls[2]);
  }

  /**
   * The basic example builds its chain with `schema := ...` inside `main`, not in a `var` declaration:
   * its top-level declarations hold no schema, so Generate stops before writing anything.
   */
  lemma BasicExampleHasNoSchema(config: Config, emit: OutputFile -> Option<EmitError>)
    ensures FileSchemas([GenDecl(Import, [], [OtherSpec]), GenDecl(Type, [], [OtherSpec])]) == []
    ensures GenerateOutcome(config, Ok([GenDecl(Import, [], [OtherSpec]), GenDecl(Type, [], [OtherSpec])]), emit)
            == Outcome([], Some(NoSchemas(config.inputFile)))
  {
    var decls := [GenDecl(Import, [], [OtherSpec]), GenDecl(Type, [], [OtherSpec])];
    assert decls[..1][..0] == [] && decls[..1] == [decls[0]];
  }
}
