/**
 * The schema chain generateValidator's template writes, as a syntax tree, and what the extractor recovers
 * from that tree. The tree is written here by hand; printing it back gives exactly the template's text
 * (RenderedText). It is the tree a Go parser makes of that text when the schema is Renderable: names,
 * types and argument tokens of the kinds extraction produces. Go parsing itself is not part of this model.
 */
module RoundTrip {
  import opened Wrappers
  import opened Text
  import opened GoAst
  import opened Extractor
  import opened Scanner
  import opened Emitter

  /**
   * An ASCII character that may appear in a Go identifier. Go also admits Unicode letters and digits;
   * identifiers using them are not covered by this model.
   */
  predicate IsIdentChar(c: char) {
    ('a' <= c <= 'z') || ('A' <= c <= 'Z') || ('0' <= c <= '9') || c == '_'
  }

  /** An ASCII Go identifier: a non-empty run of identifier characters not starting with a digit. */
  predicate IsIdentifier(s: string) {
    |s| > 0 && !('0' <= s[0] <= '9') && forall i :: 0 <= i < |s| ==> IsIdentChar(s[i])
  }

  /**
   * The field types the extractor produces, and so the only ones Generate renders: an identifier, or
   * "interface{}" for any other result type. A qualified type such as `time.Time` would render
   * `validate.Time.Time()`, which Go parses as a call of a selector; a compound type such as `[]string`
   * would render text that does not parse. Neither is read back here.
   */
  predicate RenderableType(typ: string) {
    IsName(typ) || typ == "interface{}"
  }

  /** The keywords of Go, which the parser never reads as identifiers. */
  const Keywords: set<string> := {"break", "case", "chan", "const", "continue", "default", "defer", "else",
    "fallthrough", "for", "func", "go", "goto", "if", "import", "interface", "map", "package", "range",
    "return", "select", "struct", "switch", "type", "var"}

  /** An identifier that is not a keyword: what an `*ast.Ident` of the extractor's input can hold. */
  predicate IsName(s: string) {
    IsIdentifier(s) && s !in Keywords
  }

  /** A run of ASCII letters starting with an upper-case one, such as an exported Go name, is a name. */
  lemma ExportedName(n: string)
    requires |n| > 0 && 'A' <= n[0] <= 'Z'
    requires forall i :: 0 <= i < |n| ==> ('a' <= n[i] <= 'z') || ('A' <= n[i] <= 'Z')
    ensures IsName(n)
  {
    forall k | k in Keywords ensures n != k {
      assert 'a' <= k[0] <= 'z';
    }
  }

  /** A decimal integer literal, such as `13`. */
  predicate IsDecimalLit(tok: string) {
    |tok| > 0 && forall i :: 0 <= i < |tok| ==> '0' <= tok[i] <= '9'
  }

  /** A double-quoted string literal without quotes, backslashes or line breaks inside, such as `"^[a-z]+$"`. */
  predicate IsPlainStringLit(tok: string) {
    && |tok| >= 2 && tok[0] == '"' && tok[|tok| - 1] == '"'
    && forall i :: 0 < i < |tok| - 1 ==> tok[i] != '"' && tok[i] != '\\' && tok[i] != '\n'
  }

  /**
   * An argument token that reads back as itself: a name, or a literal the parser makes one `*ast.BasicLit`
   * of. Other tokens (`-5`, `1+2`, `x.y`) parse as expressions the extractor drops.
   */
  predicate RenderableToken(tok: string) {
    IsName(tok) || IsDecimalLit(tok) || IsPlainStringLit(tok)
  }

  /** A validator call whose method name is a name and whose argument tokens read back as themselves. */
  predicate RenderableCall(c: ValidatorCall) {
    IsName(c.methodName) && forall k :: 0 <= k < |c.args| ==> RenderableToken(c.args[k])
  }

  predicate RenderableCalls(calls: seq<ValidatorCall>) {
    forall j :: 0 <= j < |calls| ==> RenderableCall(calls[j])
  }

  /**
   * A field as extraction produces it: a name (so `v.name` is one selector), a renderable type and
   * renderable validator calls.
   */
  predicate RenderableField(f: ValidationField) {
    IsName(f.name) && RenderableType(f.typ) && RenderableCalls(f.validators)
  }

  /**
   * A schema whose rendered text Go parses as RenderedChain: a type name (so `Struct[T]` indexes by an
   * identifier) and renderable fields.
   */
  predicate Renderable(s: ValidationSchema) {
    IsName(s.typeName) && forall i :: 0 <= i < |s.fields| ==> RenderableField(s.fields[i])
  }

  /** An argument token as the parser reads it back: an identifier, or else a literal kept as written. */
  function TokenExpr(tok: string): (e: Expr)
    ensures ArgToken(e) == Some(tok)
  {
    if IsIdentifier(tok) then Ident(tok) else BasicLit(tok)
  }

  /**
   * A field's result type as written after `func(v T)`: an identifier, or some other type expression
   * (`interface{}`, `[]string`, `*time.Time`, ...) that the extractor does not name.
   */
  function TypeExpr(typ: string): (e: Expr)
    ensures InferFieldType([e]) == if IsIdentifier(typ) then typ else "interface{}"
  {
    if IsIdentifier(typ) then Ident(typ) else OtherExpr(typ)
  }

  /** `.Method(a1, a2, ...)` for each recorded call, as chain links. */
  function CallLinks(calls: seq<ValidatorCall>): (links: seq<Link>)
    ensures |links| == |calls|
  {
    seq(|calls|, i requires 0 <= i < |calls| => Link(calls[i].methodName, TokenExprs(calls[i].args)))
  }

  function TokenExprs(toks: seq<string>): (es: seq<Expr>)
    ensures |es| == |toks|
  {
    seq(|toks|, i requires 0 <= i < |toks| => TokenExpr(toks[i]))
  }

  /**
   * The type constructor `validate.<CapitalizeFirst(typ)>()` the template starts each validator with.
   * For an identifier type it is a call of a selector. For `interface{}` it is `validate.Interface{}()`, a
   * call of the composite literal `validate.Interface{}`, not of a selector. Other types are not renderable
   * (RenderableType), and for them this tree is a stand-in, not what Go parses.
   */
  function Constructor(typ: string): (e: Expr)
    ensures e.Call? && e.args == [] && !IsChainLink(e)
    ensures e.fun.Selector? <==> IsIdentifier(typ)
  {
    if IsIdentifier(typ) then Call(Selector(Ident("validate"), CapitalizeFirst(typ)), [])
    else Call(OtherExpr("validate." + CapitalizeFirst(typ)), [])
  }

  /** The validator argument of a rendered `Field` call. */
  function RenderedValidators(f: ValidationField): Expr
  {
    Wrap(Constructor(f.typ), CallLinks(f.validators))
  }

  /** `func(v T) <typ> { return v.<name> }` for the schema's type T. */
  function RenderedSelector(typeName: string, f: ValidationField): Expr
  {
    FuncLit([Param("v", Ident(typeName))], [TypeExpr(f.typ)], [Return([Selector(Ident("v"), f.name)])])
  }

  function FieldLinks(typeName: string, fields: seq<ValidationField>): (links: seq<Link>)
    ensures |links| == |fields|
  {
    seq(|fields|, i requires 0 <= i < |fields| =>
      Link("Field", [RenderedSelector(typeName, fields[i]), RenderedValidators(fields[i])]))
  }

  /** The expression `validate.Struct[T]().Field(...)...` that RenderFile writes after `var TSchema = `. */
  function RenderedChain(s: ValidationSchema): Expr
  {
    Wrap(StructCall(s.typeName, []), FieldLinks(s.typeName, s.fields))
  }

  /** The `var` declaration RenderFile writes, with its doc comment. */
  function RenderedDecl(s: ValidationSchema): GenDecl
  {
    GenDecl(Var, [SchemaDocLine(s.typeName)], [ValueSpec([s.typeName + "Schema"], [RenderedChain(s)])])
  }

  /**
   * The constructor the extractor keeps as an ordinary entry: none for `interface{}` (its constructor is
   * not a selector call), none for `validate.String()`/`validate.Int()`, else one.
   */
  function ConstructorEntry(typ: string): seq<ValidatorCall>
  {
    var name := CapitalizeFirst(typ);
    if !IsIdentifier(typ) || name == "String" || name == "Int" then [] else [ValidatorCall(name, [])]
  }

  /** What the extractor makes of a rendered field. */
  function ReadBack(f: ValidationField): ValidationField
    requires RenderableField(f)
  {
    ValidationField(f.name, if IsIdentifier(f.typ) then f.typ else "interface{}",
                    ConstructorEntry(f.typ) + f.validators)
  }

  /** What the extractor makes of a rendered schema. */
  function ReadBackSchema(s: ValidationSchema): (r: ValidationSchema)
    requires Renderable(s)
    ensures r.typeName == s.typeName && |r.fields| == |s.fields|
    ensures forall i :: 0 <= i < |s.fields| ==> r.fields[i] == ReadBack(s.fields[i])
  {
    ValidationSchema(s.typeName, seq(|s.fields|, i requires 0 <= i < |s.fields| => ReadBack(s.fields[i])))
  }

  // ---------------------------------------------------------------------------------------------
  // Printing a tree back as Go text

  /**
   * The Go text of an expression, on one line: call arguments and parameters separated by ", ",
   * a function literal as `func(params) result { stmt; stmt }`.
   */
  function Print(e: Expr): string
    decreases e, 1
  {
    match e
    case Ident(name) => name
    case BasicLit(value) => value
    case OtherExpr(text) => text
    case Selector(x, sel) => Print(x) + "." + sel
    case Index(x, index) => Print(x) + "[" + Print(index) + "]"
    case Call(fun, args) => Print(fun) + ArgsText(args)
    case FuncLit(params, results, body) =>
      "func(" + JoinArgs(ParamTexts(params)) + ") " + ResultsText(Prints(results)) + "{ " + StmtsText(StmtTexts(body)) + " }"
  }

  /** An argument list: the printed arguments separated by ", ", in parentheses. */
  function ArgsText(args: seq<Expr>): string
    decreases args, 1
  {
    "(" + JoinArgs(Prints(args)) + ")"
  }

  /** The printed expressions, in order. */
  function Prints(es: seq<Expr>): (ts: seq<string>)
    ensures |ts| == |es|
    ensures forall i :: 0 <= i < |es| ==> ts[i] == Print(es[i])
    decreases es, 0
  {
    if es == [] then [] else Prints(es[..|es| - 1]) + [Print(es[|es| - 1])]
  }

  /** Each parameter as `name type`, in order. */
  function ParamTexts(params: seq<Param>): (ts: seq<string>)
    ensures |ts| == |params|
    ensures forall i :: 0 <= i < |params| ==> ts[i] == params[i].name + " " + Print(params[i].typ)
    decreases params, 0
  {
    if params == [] then []
    else
      var p := params[|params| - 1];
      ParamTexts(params[..|params| - 1]) + [p.name + " " + Print(p.typ)]
  }

  /** Each statement as written: `return` and its printed results, or the statement's own text. */
  function StmtTexts(body: seq<Stmt>): (ts: seq<string>)
    ensures |ts| == |body|
    decreases body, 0
  {
    if body == [] then []
    else
      var text := match body[|body| - 1]
        case Return(vals) => "return " + JoinArgs(Prints(vals))
        case OtherStmt(text) => text;
      StmtTexts(body[..|body| - 1]) + [text]
  }

  /** The result list of a function literal: nothing, one type followed by a space, or a parenthesized list. */
  function ResultsText(rs: seq<string>): string
  {
    if rs == [] then "" else if |rs| == 1 then rs[0] + " " else "(" + JoinArgs(rs) + ") "
  }

  /** Statements separated by "; ". */
  function StmtsText(ss: seq<string>): string
  {
    if ss == [] then ""
    else if |ss| == 1 then ss[0]
    else StmtsText(ss[..|ss| - 1]) + "; " + ss[|ss| - 1]
  }

  /** One link as `<sep>Method(args)`. */
  function LinkText(link: Link, sep: string): string
  {
    sep + link.methodName + ArgsText(link.args)
  }

  /** Each link as `<sep>Method(args)`, in order. */
  function LinksText(links: seq<Link>, sep: string): string
  {
    if links == [] then "" else LinksText(links[..|links| - 1], sep) + LinkText(links[|links| - 1], sep)
  }

  /** A chain laid out as the template writes a schema: every link on its own line after the root call. */
  function PrintChain(e: Expr): string
  {
    if IsChainLink(e) then PrintChain(e.fun.x) + LinkText(Link(e.fun.sel, e.args), ".\n\t")
    else Print(e)
  }

  // ---------------------------------------------------------------------------------------------
  // Properties

  lemma {:induction false} TokensReadBack(toks: seq<string>)
    requires forall k :: 0 <= k < |toks| ==> RenderableToken(toks[k])
    ensures ArgTokens(TokenExprs(toks)) == toks
  {
    ArgTokensVerbatim(TokenExprs(toks));
  }

  lemma {:induction false} CallLinksReadBack(calls: seq<ValidatorCall>)
    requires RenderableCalls(calls)
    ensures CallsOf(CallLinks(calls)) == calls
  {
    var links := CallLinks(calls);
    forall i | 0 <= i < |calls| ensures CallsOf(links)[i] == calls[i] {
      TokensReadBack(calls[i].args);
    }
  }

  /** The rendered validator chain reads back as its calls, after the constructor unless it is elided. */
  lemma {:induction false} ValidatorsReadBack(f: ValidationField)
    requires RenderableType(f.typ) && RenderableCalls(f.validators)
    ensures ValidatorsOf(RenderedValidators(f)) == ConstructorEntry(f.typ) + f.validators
  {
    ValidatorsOfChain(Constructor(f.typ), CallLinks(f.validators));
    CallLinksReadBack(f.validators);
  }

  /**
   * One rendered `Field(func(v T) typ { return v.name }, validate.Typ()...)` call reads back as the field's
   * name, its type when that is an identifier ("interface{}" otherwise) and its validator calls, preceded
   * by the type constructor unless that is `String()`, `Int()` or not a selector call.
   */
  lemma FieldReadBack(typeName: string, f: ValidationField)
    requires IsName(typeName) && RenderableField(f)
    ensures FieldOf([RenderedSelector(typeName, f), RenderedValidators(f)]) == Some(ReadBack(f))
  {
    ValidatorsReadBack(f);
  }

  /** Rendering then extracting gives back the type name and every field as ReadBack describes it, in order. */
  lemma {:induction false} RenderThenExtract(s: ValidationSchema)
    requires Renderable(s)
    ensures ExtractSchema(RenderedChain(s)) == Some(ReadBackSchema(s))
  {
    var links := FieldLinks(s.typeName, s.fields);
    ExtractChain(s.typeName, [], links);
    forall i | 0 <= i < |links| ensures links[i].methodName == "Field" && FieldOf(links[i].args) == Some(ReadBack(s.fields[i])) {
      FieldReadBack(s.typeName, s.fields[i]);
    }
    KeptFieldsInOrder(links);
    assert KeptFields(links) == ReadBackSchema(s).fields;
  }

  /** A field whose type is `string`, `int` or `interface{}` reads back unchanged. */
  lemma ReadBackPlainField(f: ValidationField)
    requires RenderableField(f) && (f.typ == "string" || f.typ == "int" || f.typ == "interface{}")
    ensures ReadBack(f) == f
  {
    CapitalizedConstructors();
    if f.typ == "interface{}" {
      assert !IsIdentChar(f.typ[9]);
    }
  }

  /**
   * For renderable schemas whose fields are all of type `string`, `int` or `interface{}`, extracting the
   * rendered chain is the identity.
   */
  lemma {:induction false} RenderThenExtractPlain(s: ValidationSchema)
    requires Renderable(s)
    requires forall i :: 0 <= i < |s.fields| ==> s.fields[i].typ in {"string", "int", "interface{}"}
    ensures ExtractSchema(RenderedChain(s)) == Some(s)
  {
    RenderThenExtract(s);
    forall i | 0 <= i < |s.fields| ensures ReadBack(s.fields[i]) == s.fields[i] {
      ReadBackPlainField(s.fields[i]);
    }
    assert ReadBackSchema(s).fields == s.fields;
  }

  /** Any other identifier field type gains its constructor as a leading validator call. */
  lemma ReadBackBoolField(name: string, validators: seq<ValidatorCall>)
    requires IsName(name) && RenderableCalls(validators)
    ensures ReadBack(ValidationField(name, "bool", validators))
            == ValidationField(name, "bool", [ValidatorCall("Bool", [])] + validators)
  {
    var ctor := CapitalizeFirst("bool");
    assert ctor == [ctor[0]] + ctor[1..];
    assert ctor == "Bool";
    assert ctor != "String" && ctor != "Int";
    assert IsIdentifier("bool");
  }

  /** Scanning the generated declaration finds exactly the schema extracted from its chain. */
  lemma {:induction false} ScanRenderedDecl(s: ValidationSchema)
    requires Renderable(s)
    ensures FileSchemas([RenderedDecl(s)]) == [ReadBackSchema(s)]
  {
    RenderThenExtract(s);
    var d := RenderedDecl(s);
    var spec := d.specs[0];
    assert [d][..0] == [];
    assert d.specs[..0] == [];
    assert SchemaAt(d.doc, spec.names, spec.values, 0) == [ReadBackSchema(s)];
    assert ValueSchemas(d.doc, spec.names, spec.values, 1) == [ReadBackSchema(s)];
    assert SpecSchemas(d.doc, d.specs) == SpecSchemas(d.doc, []) + ValueSchemas(d.doc, spec.names, spec.values, 1);
    assert FileSchemas([d]) == DeclSchemas(d);
  }

  // Printing the rendered tree gives the rendered text.

  /** A chain prints as its root followed by each link, with "." before every method name. */
  lemma {:induction false} PrintWrap(root: Expr, links: seq<Link>)
    ensures Print(Wrap(root, links)) == Print(root) + LinksText(links, ".")
  {
    if links != [] {
      var last := links[|links| - 1];
      PrintWrap(root, links[..|links| - 1]);
      Regroup(Print(Wrap(root, links[..|links| - 1])), ".", last.methodName, ArgsText(last.args));
    }
  }

  /** The same chain laid out by PrintChain puts every link on its own line. */
  lemma {:induction false} PrintChainWrap(root: Expr, links: seq<Link>)
    requires root.Call? && !IsChainLink(root)
    ensures PrintChain(Wrap(root, links)) == Print(root) + LinksText(links, ".\n\t")
  {
    if links != [] {
      var last := links[|links| - 1];
      PrintChainWrap(root, links[..|links| - 1]);
      WrapDecomposes(root, links[..|links| - 1]);
      Regroup(PrintChain(Wrap(root, links[..|links| - 1])), ".\n\t", last.methodName, ArgsText(last.args));
    }
  }

  /** Appending a link's three pieces one by one is appending its text. */
  lemma Regroup(x: string, sep: string, name: string, args: string)
    ensures x + sep + name + args == x + (sep + name + args)
  {
  }

  /** The printed form of argument tokens is the tokens themselves. */
  lemma TokensPrintBack(toks: seq<string>)
    ensures Prints(TokenExprs(toks)) == toks
  {
    forall i | 0 <= i < |toks| ensures Prints(TokenExprs(toks))[i] == toks[i] {
      assert TokenExprs(toks)[i] == TokenExpr(toks[i]);
    }
  }

  /** A field's type expression prints as the type, whether or not the extractor can name it. */
  lemma TypeExprText(typ: string)
    ensures Print(TypeExpr(typ)) == typ
  {
  }

  /** The constructor prints as `validate.Typ()`, whichever expression it is. */
  lemma ConstructorText(typ: string)
    ensures Print(Constructor(typ)) == "validate." + CapitalizeFirst(typ) + "()"
  {
    var name := CapitalizeFirst(typ);
    assert Prints([]) == [];
    assert JoinArgs([]) == "";
    if IsIdentifier(typ) {
      assert Print(Selector(Ident("validate"), name)) == "validate" + "." + name;
      assert "validate" + "." + name == "validate." + name;
    }
  }

  /** The selector literal prints as `func(v T) typ { return v.name }`. */
  lemma SelectorPrints(typeName: string, f: ValidationField)
    ensures Print(RenderedSelector(typeName, f)) == SelectorLiteralText(typeName, f)
  {
    var params := "v " + typeName;
    var ret := "return v." + f.name;
    SelectorPieces(typeName, f);
    assert Print(RenderedSelector(typeName, f)) == "func(" + params + ") " + (f.typ + " ") + "{ " + ret + " }";
    SelectorTextRegrouped(typeName, f.typ, f.name);
  }

  /** The parameter list, the result type and the body of the selector literal, each printed. */
  lemma SelectorPieces(typeName: string, f: ValidationField)
    ensures ParamTexts([Param("v", Ident(typeName))]) == ["v " + typeName]
    ensures Prints([TypeExpr(f.typ)]) == [f.typ]
    ensures StmtTexts([Return([Selector(Ident("v"), f.name)])]) == ["return v." + f.name]
  {
    var ret := Selector(Ident("v"), f.name);
    TypeExprText(f.typ);
    assert "v" + " " == "v ";
    assert Print(ret) == "v" + "." + f.name;
    assert "v" + "." + f.name == "v." + f.name;
    assert Prints([ret]) == ["v." + f.name];
    assert "return " + ("v." + f.name) == "return v." + f.name;
  }

  /** The printed pieces of the selector literal, regrouped as the template writes them. */
  lemma SelectorTextRegrouped(typeName: string, typ: string, name: string)
    ensures "func(" + ("v " + typeName) + ") " + (typ + " ") + "{ " + ("return v." + name) + " }"
            == "func(v " + typeName + ") " + typ + " { return v." + name + " }"
  {
    assert "func(" + ("v " + typeName) == "func(v " + typeName;
    assert ") " + (typ + " ") + "{ " + ("return v." + name) == ") " + typ + " { return v." + name;
  }

  /** The recorded calls, printed as links, are the template's `.Method(args)` text. */
  lemma {:induction false} CallLinksText(calls: seq<ValidatorCall>)
    ensures LinksText(CallLinks(calls), ".") == CallsText(calls)
  {
    if calls != [] {
      var links := CallLinks(calls);
      assert links[..|links| - 1] == CallLinks(calls[..|calls| - 1]);
      CallLinksText(calls[..|calls| - 1]);
      CallLinkText(calls[|calls| - 1]);
    }
  }

  /** One recorded call, printed as a link, is the template's `.Method(args)` text for it. */
  lemma CallLinkText(c: ValidatorCall)
    ensures LinkText(Link(c.methodName, TokenExprs(c.args)), ".") == CallText(c)
  {
    TokensPrintBack(c.args);
    Regroup(".", c.methodName, "(" + JoinArgs(c.args), ")");
  }

  /** The validator argument prints as `validate.Typ()` followed by the calls' text. */
  lemma ValidatorsPrint(f: ValidationField)
    ensures Print(RenderedValidators(f)) == ValidatorChainText(f)
  {
    PrintWrap(Constructor(f.typ), CallLinks(f.validators));
    ConstructorText(f.typ);
    CallLinksText(f.validators);
  }

  /** A rendered `Field` link prints as the template's text for that field. */
  lemma FieldLinkText(typeName: string, f: ValidationField)
    ensures LinkText(Link("Field", [RenderedSelector(typeName, f), RenderedValidators(f)]), ".\n\t")
            == FieldText(typeName, f)
  {
    FieldArgsText(typeName, f);
    FieldRegroup(SelectorLiteralText(typeName, f), ValidatorChainText(f));
  }

  /** The arguments of a rendered `Field` call print as the selector literal and the validator chain. */
  lemma FieldArgsText(typeName: string, f: ValidationField)
    ensures ArgsText([RenderedSelector(typeName, f), RenderedValidators(f)])
            == "(" + (SelectorLiteralText(typeName, f) + ", " + ValidatorChainText(f)) + ")"
  {
    ValidatorsPrint(f);
    SelectorPrints(typeName, f);
    var ps := Prints([RenderedSelector(typeName, f), RenderedValidators(f)]);
    assert ps == [SelectorLiteralText(typeName, f), ValidatorChainText(f)];
    assert JoinArgs(ps) == JoinArgs(ps[..1]) + ", " + ps[1];
  }

  /** The pieces of a `Field` link, regrouped as the template writes them. */
  lemma FieldRegroup(sel: string, chain: string)
    ensures ".\n\t" + "Field" + ("(" + (sel + ", " + chain) + ")") == ".\n\tField(" + sel + ", " + chain + ")"
  {
  }

  /** The rendered `Field` links, each on its own line, are the template's fields text. */
  lemma {:induction false} FieldLinksText(typeName: string, fields: seq<ValidationField>)
    ensures LinksText(FieldLinks(typeName, fields), ".\n\t") == FieldsText(typeName, fields)
  {
    if fields != [] {
      var links := FieldLinks(typeName, fields);
      assert links[..|links| - 1] == FieldLinks(typeName, fields[..|fields| - 1]);
      FieldLinksText(typeName, fields[..|fields| - 1]);
      FieldLinkText(typeName, fields[|fields| - 1]);
    }
  }

  /** The rendered chain, laid out one link per line, is the template's schema expression. */
  lemma SchemaChainPrints(s: ValidationSchema)
    ensures PrintChain(RenderedChain(s)) == SchemaChainText(s.typeName, s.fields)
  {
    PrintChainWrap(StructCall(s.typeName, []), FieldLinks(s.typeName, s.fields));
    FieldLinksText(s.typeName, s.fields);
    StructCallPrints(s.typeName);
  }

  /** The root call prints as `validate.Struct[T]()`. */
  lemma StructCallPrints(typeName: string)
    ensures Print(StructCall(typeName, [])) == "validate.Struct[" + typeName + "]()"
  {
    var generic := Index(Selector(Ident("validate"), "Struct"), Ident(typeName));
    assert Print(Selector(Ident("validate"), "Struct")) == "validate" + "." + "Struct";
    assert "validate" + "." + "Struct" == "validate.Struct";
    assert Print(generic) == "validate.Struct" + "[" + typeName + "]";
    assert "validate.Struct" + "[" == "validate.Struct[";
    assert Prints([]) == [];
    assert Print(StructCall(typeName, [])) == Print(generic) + "(" + "" + ")";
    assert "(" + "" + ")" == "()";
  }

  /**
   * The generated file is the fixed preamble, the doc comment, and `var TSchema = ` followed by the printed
   * chain whose extraction RenderThenExtract describes: the text written and the tree read back agree.
   */
  lemma RenderedText(pkg: string, s: ValidationSchema)
    ensures RenderFile(pkg, s)
            == Preamble(pkg, s.typeName) + SchemaDocLine(s.typeName) + "\nvar " + s.typeName + "Schema = "
               + PrintChain(RenderedChain(s)) + "\n"
  {
    SchemaChainPrints(s);
  }
}
