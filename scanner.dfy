/**
 * generator.go findValidationSchemas: every `var` declaration's initializers are tried as schema chains,
 * in the order the syntax-tree traversal meets them, and an extracted schema whose type name is empty
 * gets one from the doc comment or from the variable's name.
 */
module Scanner {
  import opened Wrappers
  import opened Text
  import opened GoAst
  import opened Extractor

  /** The phrase a doc comment uses to name the validated type. */
  const Phrase: string := "validation schema for"

  /** The type name the first doc-comment line gives after the phrase, trimmed; "" when it gives none. */
  function DocTypeName(doc: seq<string>): string
  {
    if |doc| > 0 then
      match SecondPart(doc[0], Phrase)
      case Some(rest) => TrimSpace(rest)
      case None => ""
    else ""
  }

  /**
   * The type name of an extracted schema: kept when non-empty; otherwise taken from the doc comment,
   * then from the variable name without a trailing "Schema", then the variable name itself.
   */
  function ResolveTypeName(extracted: string, doc: seq<string>, names: seq<string>, i: nat): (t: string)
    ensures extracted != "" ==> t == extracted
    ensures extracted == "" && i < |names| && DocTypeName(doc) != "" ==> t == DocTypeName(doc)
    ensures extracted == "" && i < |names| && DocTypeName(doc) == "" ==>
              t + (if HasSuffix(names[i], "Schema") then "Schema" else "") == names[i]
    ensures extracted == "" && i >= |names| ==> t == ""
  {
    if extracted == "" && i < |names| then
      var fromDoc := DocTypeName(doc);
      if fromDoc != "" then fromDoc else TrimSuffix(names[i], "Schema")
    else extracted
  }

  /** The schema the `i`-th initializer of a value spec contributes, if any. */
  function SchemaAt(doc: seq<string>, names: seq<string>, values: seq<Expr>, i: nat): seq<ValidationSchema>
    requires i < |values|
  {
    match ExtractSchema(values[i])
    case None => []
    case Some(s) => [s.(typeName := ResolveTypeName(s.typeName, doc, names, i))]
  }

  /** The schemas of the first `n` initializers of a value spec. */
  function ValueSchemas(doc: seq<string>, names: seq<string>, values: seq<Expr>, n: nat): seq<ValidationSchema>
    requires n <= |values|
  {
    if n == 0 then [] else ValueSchemas(doc, names, values, n - 1) + SchemaAt(doc, names, values, n - 1)
  }

  /** The schemas of the specs of one declaration. */
  function SpecSchemas(doc: seq<string>, specs: seq<Spec>): seq<ValidationSchema>
  {
    if specs == [] then []
    else
      var last := specs[|specs| - 1];
      SpecSchemas(doc, specs[..|specs| - 1])
      + (if last.ValueSpec? then ValueSchemas(doc, last.names, last.values, |last.values|) else [])
  }

  /** The schemas of one declaration: only `var` declarations count. */
  function DeclSchemas(d: GenDecl): seq<ValidationSchema>
  {
    if d.tok == Var then SpecSchemas(d.doc, d.specs) else []
  }

  /** The schemas of a file, given its declarations in traversal order (specification of FindValidationSchemas). */
  function FileSchemas(decls: seq<GenDecl>): seq<ValidationSchema>
  {
    if decls == [] then [] else FileSchemas(decls[..|decls| - 1]) + DeclSchemas(decls[|decls| - 1])
  }

  /** Lines 83-101 of findValidationSchemas: the fallbacks for an extracted schema's empty type name. */
  method FillTypeName(s: ValidationSchema, doc: seq<string>, names: seq<string>, i: nat)
    returns (named: ValidationSchema)
    ensures named == s.(typeName := ResolveTypeName(s.typeName, doc, names, i))
  {
    named := s;
    if named.typeName == "" && i < |names| {
      if |doc| > 0 {
        var text := doc[0];
        if Contains(text, Phrase) {
          var parts := SecondPart(text, Phrase);
          named := named.(typeName := TrimSpace(parts.value));
        }
      }
      if named.typeName == "" {
        var varName := names[i];
        if HasSuffix(varName, "Schema") {
          named := named.(typeName := TrimSuffix(varName, "Schema"));
        } else {
          named := named.(typeName := varName);
        }
      }
    }
  }

  /** The initializer loop of findValidationSchemas for one value spec. */
  method ScanValues(doc: seq<string>, names: seq<string>, values: seq<Expr>) returns (found: seq<ValidationSchema>)
    ensures found == ValueSchemas(doc, names, values, |values|)
  {
    found := [];
    for i := 0 to |values|
      invariant found == ValueSchemas(doc, names, values, i)
    {
      var schema := ExtractValidationSchema(values[i]);
      if schema.Some? {
        var s := FillTypeName(schema.value, doc, names, i);
        found := found + [s];
      }
      assert found == ValueSchemas(doc, names, values, i) + SchemaAt(doc, names, values, i);
    }
  }

  /** The spec loop of findValidationSchemas for one `var` declaration. */
  method ScanDecl(decl: GenDecl) returns (found: seq<ValidationSchema>)
    requires decl.tok == Var
    ensures found == DeclSchemas(decl)
  {
    found := [];
    for k := 0 to |decl.specs|
      invariant found == SpecSchemas(decl.doc, decl.specs[..k])
    {
      var spec := decl.specs[k];
      ghost var prefix := decl.specs[..k + 1];
      assert prefix[..|prefix| - 1] == decl.specs[..k] && prefix[|prefix| - 1] == spec;
      if spec.ValueSpec? {
        var values := ScanValues(decl.doc, spec.names, spec.values);
        found := found + values;
      }
    }
    assert decl.specs[..|decl.specs|] == decl.specs;
  }

  /** generator.go findValidationSchemas: appends the schemas of every `var` declaration in order. */
  method FindValidationSchemas(decls: seq<GenDecl>) returns (schemas: seq<ValidationSchema>)
    ensures schemas == FileSchemas(decls)
  {
    schemas := [];
    for d := 0 to |decls|
      invariant schemas == FileSchemas(decls[..d])
    {
      ghost var prefix := decls[..d + 1];
      assert prefix[..|prefix| - 1] == decls[..d] && prefix[|prefix| - 1] == decls[d];
      if decls[d].tok == Var {
        var found := ScanDecl(decls[d]);
        schemas := schemas + found;
      }
    }
    assert decls[..|decls|] == decls;
  }

  // ---------------------------------------------------------------------------------------------
  // Properties

  /** Schemas come out in declaration-encounter order. */
  lemma {:induction false} FileSchemasAppend(d1: seq<GenDecl>, d2: seq<GenDecl>)
    ensures FileSchemas(d1 + d2) == FileSchemas(d1) + FileSchemas(d2)
    decreases |d2|
  {
    if d2 == [] {
      assert d1 + d2 == d1;
    } else {
      var n := |d2| - 1;
      assert (d1 + d2)[..|d1 + d2| - 1] == d1 + d2[..n];
      FileSchemasAppend(d1, d2[..n]);
    }
  }

  /**
   * An extracted schema always carries its `Struct[T]` argument as its name, so the fallbacks apply only
   * to an empty identifier, which Go's parser never produces.
   */
  lemma ExtractedNameKept(doc: seq<string>, names: seq<string>, values: seq<Expr>, i: nat, s: ValidationSchema)
    requires i < |values| && ExtractSchema(values[i]) == Some(s) && s.typeName != ""
    ensures SchemaAt(doc, names, values, i) == [s]
  {
  }

  /** A type parameter wins over the doc comment and the variable name. */
  lemma TypeArgumentFirst()
    ensures ResolveTypeName("User", ["// validation schema for Order"], ["AccountSchema"], 0) == "User"
  {
  }

  /** The phrase is first found right after the comment marker. */
  lemma PhraseAfterMarker()
    ensures IndexOf("// " + Phrase + " Order", Phrase) == Some(3)
  {
    var text := "// " + Phrase + " Order";
    assert text[3..3 + |Phrase|] == Phrase;
    assert OccursAt(text, Phrase, 3);
    assert text[2] != Phrase[0] && text[1] != Phrase[0] && text[0] != Phrase[0];
    assert text[2..2 + |Phrase|][0] == text[2];
    assert text[1..1 + |Phrase|][0] == text[1];
    assert text[0..|Phrase|][0] == text[0];
  }

  lemma TrimmedOrder()
    ensures TrimSpace(" Order") == "Order"
  {
    assert SpaceEnd(" Order", 1) == 1;
    assert SpaceEnd(" Order", 0) == 1;
    assert SpaceStart(" Order", 6) == 6;
    assert " Order"[1..6] == "Order";
  }

  /** Without one, the doc comment "validation schema for Order" names the type. */
  lemma DocCommentSecond()
    ensures ResolveTypeName("", ["// " + Phrase + " Order"], ["AccountSchema"], 0) == "Order"
  {
    var text := "// " + Phrase + " Order";
    PhraseAfterMarker();
    assert text[3 + |Phrase|..] == " Order";
    assert IndexOf(" Order", Phrase) == None;
    TrimmedOrder();
  }

  /** Without either, "AccountSchema" names "Account" and "Ticket" names itself. */
  lemma {:induction false} VariableNameLast()
    ensures ResolveTypeName("", [], ["AccountSchema"], 0) == "Account"
    ensures ResolveTypeName("", [], ["Ticket"], 0) == "Ticket"
  {
    assert HasSuffix("AccountSchema", "Schema");
    assert !HasSuffix("Ticket", "Schema");
  }
}
