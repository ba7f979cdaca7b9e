/**
  The slice of the Go abstract syntax tree that the translator reads.

  Go's `ast.Expr` interface covers both value expressions and type
  expressions, so `Expr` below has the type variants as well
  (ArrayType, MapType, StarExpr, FuncType, StructType, InterfaceType).
  A Go interface value may be nil; `NoExpr` and `NoStmt` stand for that
  nil, and every place the translator tests `!= nil` tests against them.
  Operator and token spellings (`token.Op.String()`) are carried as strings.
 */
module Syntax {

  datatype Option<+T> = None | Some(value: T)

  /** A field list entry: zero or more names sharing one type. */
  datatype Field = Field(names: seq<string>, typ: Expr)

  datatype Expr =
    | NoExpr                                              // a nil ast.Expr
    | Ident(name: string)
    | BasicLit(kind: string, text: string)                // text keeps its source spelling
    | Binary(x: Expr, op: string, y: Expr)
    | Unary(op: string, operand: Expr)
    | Call(fun: Expr, args: seq<Expr>)
    | Selector(owner: Expr, sel: string)
    | Index(collection: Expr, index: Expr)
    | CompositeLit(litType: Expr, elts: seq<Expr>)        // litType is NoExpr when elided
    | TypeAssert(operand: Expr, assertType: Expr)         // assertType is NoExpr in x.(type)
    | ArrayType(elt: Expr)
    | MapType(key: Expr, value: Expr)
    | Star(base: Expr)
    | FuncType(params: seq<Field>, results: seq<Field>)
    | StructType(fields: seq<Field>)
    | InterfaceType(methods: seq<Field>)
    | OtherExpr                                           // any other node kind (ParenExpr, FuncLit, ...)

  /** A spec of a general declaration (`import`, `var`, `const`, `type`). */
  datatype Spec =
    | ImportSpec(pathLit: string)                         // the path literal, quotes included
    | ValueSpec(names: seq<string>, valueType: Expr, values: seq<Expr>)
    | TypeSpec(name: string, typeExpr: Expr)

  datatype Stmt =
    | NoStmt                                              // a nil ast.Stmt
    | ExprStmt(x: Expr)
    | Assign(lhs: seq<Expr>, tok: string, rhs: seq<Expr>) // tok is "=", ":=", "+=", ...
    | DeclStmt(specs: seq<Spec>)
    | If(init: Stmt, cond: Expr, body: seq<Stmt>, els: Stmt)
    | For(forInit: Stmt, forCond: Expr, post: Stmt, forBody: seq<Stmt>)
    | Range(key: Expr, val: Expr, source: Expr, rangeBody: seq<Stmt>)
    | Return(results: seq<Expr>)
    | Block(list: seq<Stmt>)
    | IncDec(target: Expr, incTok: string)                // incTok is "++" or "--"
    | Switch(switchInit: Stmt, tag: Expr, switchBody: seq<Stmt>)
    | TypeSwitch
    | CaseClause(labels: Option<seq<Expr>>, caseBody: seq<Stmt>)  // None is `default`
    | Branch(branchTok: string)                           // "break", "continue", "goto", "fallthrough"
    | OtherStmt                                           // go, defer, select, send, labeled, empty, ...

  datatype DeclTok = ImportTok | ConstTok | TypeTok | VarTok

  datatype Decl =
    | FuncDecl(recv: Option<Field>, name: string, params: seq<Field>, results: seq<Field>, body: Option<seq<Stmt>>)
    | GenDecl(tok: DeclTok, specs: seq<Spec>)
}
