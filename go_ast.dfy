/**
 * The part of a Go syntax tree that the schema generator inspects. Every expression kind the generator
 * never looks into is `OtherExpr`; every statement other than `return` is `OtherStmt`. Both keep their
 * source text, so that a tree can be printed back.
 */
module GoAst {

  datatype Expr =
    | Ident(name: string)                           // a bare identifier: `validate`, `User`, `string`
    | BasicLit(value: string)                       // a literal token as written: `3`, `"^a+$"`
    | Selector(x: Expr, sel: string)                // `x.sel`
    | Index(x: Expr, index: Expr)                   // `x[index]`, also a generic instantiation
    | Call(fun: Expr, args: seq<Expr>)              // `fun(args...)`
    | FuncLit(params: seq<Param>, results: seq<Expr>, body: seq<Stmt>)
                                                    // `func(params) results { body }`; results = result types
    | OtherExpr(text: string)                       // any other expression or type expression, as written

  /** One parameter of a function literal: its name and its type. */
  datatype Param = Param(name: string, typ: Expr)

  datatype Stmt =
    | Return(results: seq<Expr>)
    | OtherStmt(text: string)

  /** The keyword of a general declaration: only `var` declarations are scanned for schemas. */
  datatype Token = Var | Const | Type | Import

  /** One specification inside a general declaration: `names = values` or anything else. */
  datatype Spec =
    | ValueSpec(names: seq<string>, values: seq<Expr>)
    | OtherSpec

  /** A general declaration with the lines of its doc comment (as written, `//` included). */
  datatype GenDecl = GenDecl(tok: Token, doc: seq<string>, specs: seq<Spec>)
}
