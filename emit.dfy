/**
  The lines each statement and declaration emitter writes, as pure
  functions of the syntax node and the indentation depth at entry.
  The `Converter` class's methods are proved to append exactly these
  lines; the lemmas below state what the translation promises about them.
 */
module Emit {
  import opened Syntax
  import opened Strings
  import opened Output
  import opened Exprs
  import opened Imports

  // ---------------------------------------------------------------------
  // Simple statements

  /** `convertAssignStmt`'s text: `+=` and `-=` are spelled out, every other token becomes `=`. */
  function AssignText(lhs: string, tok: string, rhs: string): (r: string)
  {
    if tok == "+=" then lhs + " = " + lhs + " + " + rhs
    else if tok == "-=" then lhs + " = " + lhs + " - " + rhs
    else lhs + " = " + rhs
  }

  /** `convertIncDecStmt`'s text. */
  function IncDecText(x: Expr, tok: string): (r: string)
  {
    var t := ConvertExpr(x);
    if tok == "++" then t + " = " + t + " + 1" else t + " = " + t + " - 1"
  }

  /** `convertReturnStmt`'s text. */
  function ReturnText(results: seq<Expr>): (r: string)
  {
    if |results| == 0 then "return"
    else if |results| == 1 then "return " + ConvertExpr(results[0])
    else "return " + Join(ConvertExprs(results), ", ")
  }

  /** The header `convertCaseClause` writes: `default:` for a nil label list. */
  function CaseHeader(labels: Option<seq<Expr>>): (r: string)
  {
    match labels
    case None => "default:"
    case Some(l) => "case " + Join(ConvertExprs(l), ", ") + ":"
  }

  /** The header `convertRangeStmt` writes, if any: none when there is no key. */
  function RangeHeader(key: Expr, val: Expr, source: Expr, d: nat): (r: seq<Line>)
  {
    if key != NoExpr && val != NoExpr then [Line(d, "for " + ConvertExpr(key) + ", " + ConvertExpr(val) + " in " + ConvertExpr(source) + ":")]
    else if key != NoExpr then [Line(d, "for " + ConvertExpr(key) + " in " + ConvertExpr(source) + ":")]
    else []
  }

  // ---------------------------------------------------------------------
  // Value specs (local `var`/`const` and top-level groups share the rule)

  /** The rendered type of a value spec, "" when it has none. */
  function SpecType(spec: Spec): (r: string)
    requires spec.ValueSpec?
  {
    if spec.valueType != NoExpr then ConvertType(spec.valueType) else ""
  }

  /** The line written for the `i`th name: `T n = v`, `n = v`, `T n`, or nothing. */
  function ValueNameLine(name: string, typ: string, values: seq<Expr>, i: nat, d: nat): (r: seq<Line>)
  {
    if |values| > i then
      if typ != "" then [Line(d, typ + " " + name + " = " + ConvertExpr(values[i]))]
      else [Line(d, name + " = " + ConvertExpr(values[i]))]
    else if typ != "" then [Line(d, typ + " " + name)]
    else []
  }

  /** The lines for the first `n` names of a value spec. */
  function ValueNameLines(names: seq<string>, typ: string, values: seq<Expr>, n: nat, d: nat): (r: seq<Line>)
    requires n <= |names|
  {
    if n == 0 then []
    else ValueNameLines(names, typ, values, n - 1, d) + ValueNameLine(names[n - 1], typ, values, n - 1, d)
  }

  function ValueSpecLines(spec: Spec, d: nat): (r: seq<Line>)
    requires spec.ValueSpec?
  {
    ValueNameLines(spec.names, SpecType(spec), spec.values, |spec.names|, d)
  }

  /** The lines of the value specs of a group; other specs are skipped. */
  function ValueSpecsLines(specs: seq<Spec>, d: nat): (r: seq<Line>)
  {
    if specs == [] then []
    else
      var last := specs[|specs| - 1];
      ValueSpecsLines(specs[..|specs| - 1], d) + (if last.ValueSpec? then ValueSpecLines(last, d) else [])
  }

  // ---------------------------------------------------------------------
  // Statements

  /** `convertStmt`: the lines a statement writes when entered at depth `d`. */
  function StmtLines(s: Stmt, d: nat): (r: seq<Line>)
    decreases s, 1
  {
    match s
    case NoStmt => []
    case ExprStmt(x) => [Line(d, ConvertExpr(x))]
    case Assign(lhs, tok, rhs) =>
      if |lhs| == 1 && |rhs| == 1 then [Line(d, AssignText(ConvertExpr(lhs[0]), tok, ConvertExpr(rhs[0])))] else []
    case DeclStmt(specs) => ValueSpecsLines(specs, d)
    case If(_, _, _, _) => IfChainLines(s, d, "if")
    case For(_, _, _, body) => [Line(d, ForHeader(s))] + BlockLines(body, d + 1)
    case Range(key, val, source, body) =>
      RangeHeader(key, val, source, d) + BlockLines(body, d + 1)
    case Return(results) => [Line(d, ReturnText(results))]
    case Block(list) => BlockLines(list, d)
    case IncDec(x, tok) => [Line(d, IncDecText(x, tok))]
    case Switch(init, tag, body) =>
      StmtLines(init, d)
        + [Line(d, if tag != NoExpr then "switch " + ConvertExpr(tag) + ":" else "switch:")]
        + BlockLines(body, d + 1)
    case TypeSwitch => [Line(d, "# type switch not supported */")]
    case CaseClause(labels, body) => [Line(d, CaseHeader(labels))] + BlockLines(body, d + 1)
    case Branch(tok) =>
      if tok == "break" then [Line(d, "break")]
      else if tok == "continue" then [Line(d, "continue")]
      else []
    case OtherStmt => [Line(d, "# unknown statement")]
  }

  /** `convertBlockStmt`: the statements' lines in order, all at the same entry depth. */
  function BlockLines(list: seq<Stmt>, d: nat): (r: seq<Line>)
    decreases list
  {
    if list == [] then [] else BlockLines(list[..|list| - 1], d) + StmtLines(list[|list| - 1], d)
  }

  /** `convertIfStmt` (keyword `if`) and `convertElseIfStmt` (keyword `elif`). */
  function IfChainLines(s: Stmt, d: nat, keyword: string): (r: seq<Line>)
    requires s.If?
    decreases s, 0
  {
    StmtLines(s.init, d)
      + [Line(d, keyword + " " + ConvertExpr(s.cond) + ":")]
      + BlockLines(s.body, d + 1)
      + ElseLines(s.els, d)
  }

  /** The else part: an `elif` chain at the same depth, an `else:` block, or nothing. */
  function ElseLines(els: Stmt, d: nat): (r: seq<Line>)
    decreases els, 2
  {
    match els
    case If(_, _, _, _) => IfChainLines(els, d, "elif")
    case Block(list) => [Line(d, "else:")] + BlockLines(list, d + 1)
    case _ => []
  }

  /** `convertStmtToString`: a statement rendered at depth 0, white space trimmed. */
  function StmtString(s: Stmt): (r: string)
    decreases s, 2
  {
    TrimSpace(Render(StmtLines(s, 0)))
  }

  /** `convertStmtToString` already trims, so the second trim `convertForStmt` applies changes nothing. */
  lemma StmtStringTrimmed(s: Stmt)
    ensures TrimSpace(StmtString(s)) == StmtString(s)
  {
    TrimSpaceIdempotent(Render(StmtLines(s, 0)));
  }

  /**
    The header of a three-clause `for` loop from its rendered init, condition
    and post: the loop variable is the third-from-last space-separated piece
    of the init; with fewer than three pieces it degrades to `while`.
   */
  function ThreeClauseHeader(init: string, cond: string, post: string): (r: string)
  {
    var parts := Split(init, ' ');
    if |parts| >= 3 then "for " + parts[|parts| - 3] + "; " + cond + "; " + post + ":"
    else "while " + cond + ":"
  }

  /**
    The header `convertForStmt` writes: the three-clause form only when init,
    condition and post are all present; otherwise `while` with the
    condition, or `while true`.
   */
  function ForHeader(s: Stmt): (r: string)
    requires s.For?
    decreases s, 0
  {
    if s.forInit != NoStmt && s.forCond != NoExpr && s.post != NoStmt then
      ThreeClauseHeader(StmtString(s.forInit), ConvertExpr(s.forCond), StmtString(s.post))
    else if s.forCond != NoExpr then "while " + ConvertExpr(s.forCond) + ":"
    else "while true:"
  }

  // ---------------------------------------------------------------------
  // Declarations

  /** The parameters one field declares, `T name` per name. */
  function FieldParams(f: Field): (r: seq<string>)
    ensures |r| == |f.names|
    ensures forall k :: 0 <= k < |r| ==> r[k] == ConvertType(f.typ) + " " + f.names[k]
  {
    seq(|f.names|, k requires 0 <= k < |f.names| => ConvertType(f.typ) + " " + f.names[k])
  }

  /** The parameter list of a field list, in order; unnamed fields contribute nothing. */
  function ParamList(fields: seq<Field>): (r: seq<string>)
  {
    if fields == [] then [] else ParamList(fields[..|fields| - 1]) + FieldParams(fields[|fields| - 1])
  }

  /** The ` -> R` suffix of a function header: only for one result field with at most one name. */
  function ReturnSuffix(results: seq<Field>): (r: string)
  {
    if |results| > 0 && |results| == 1 && |results[0].names| <= 1 then " -> " + ConvertType(results[0].typ)
    else ""
  }

  /** The receiver text `convertFuncDecl` computes (and never writes). */
  function ReceiverText(recv: Option<Field>): (r: string)
  {
    match recv
    case None => ""
    case Some(f) => "this " + TrimPrefix(ConvertType(f.typ), "ref ")
  }

  function FuncHeader(f: Decl): (r: string)
    requires f.FuncDecl?
  {
    "fn " + f.name + "(" + Join(ParamList(f.params), ", ") + ")" + ReturnSuffix(f.results) + ":"
  }

  /** `convertFuncDecl`. */
  function FuncDeclLines(f: Decl, d: nat): (r: seq<Line>)
    requires f.FuncDecl?
  {
    if f.name == "main" && f.recv.None? then
      (if f.body.Some? then BlockLines(f.body.value, d) else [])
    else
      [Line(d, FuncHeader(f))]
        + (if f.body.Some? then BlockLines(f.body.value, d + 1) else [])
        + [Line(d, "")]
  }

  /** The `T this.name` lines one struct field declares, one per name. */
  function FieldNameLines(f: Field, d: nat): (r: seq<Line>)
    ensures |r| == |f.names|
  {
    seq(|f.names|, k requires 0 <= k < |f.names| => Line(d, ConvertType(f.typ) + " this." + f.names[k]))
  }

  /** The field lines of a struct, in order. */
  function FieldLines(fields: seq<Field>, d: nat): (r: seq<Line>)
  {
    if fields == [] then [] else FieldLines(fields[..|fields| - 1], d) + FieldNameLines(fields[|fields| - 1], d)
  }

  /** The signature line of an interface method, if the entry is a named method. */
  function MethodLine(m: Field, d: nat): (r: seq<Line>)
  {
    if |m.names| > 0 && m.typ.FuncType? then
      var ret := if |m.typ.results| > 0 then " -> " + ConvertType(m.typ.results[0].typ) else "";
      [Line(d, "fn " + m.names[0] + "(" + Join(ParamList(m.typ.params), ", ") + ")" + ret)]
    else []
  }

  function MethodLines(methods: seq<Field>, d: nat): (r: seq<Line>)
  {
    if methods == [] then [] else MethodLines(methods[..|methods| - 1], d) + MethodLine(methods[|methods| - 1], d)
  }

  /** A struct's `init:` line and, below it, one line per field name. */
  function StructInitLines(fields: seq<Field>, d: nat): (r: seq<Line>)
  {
    if |fields| > 0 then [Line(d, "init:")] + FieldLines(fields, d + 1) else [Line(d, "init:")]
  }

  /** `convertTypeSpec`: struct and interface types; any other type spec writes nothing. */
  function TypeSpecLines(name: string, typ: Expr, d: nat): (r: seq<Line>)
  {
    match typ
    case StructType(fields) =>
      [Line(d, "class " + name + ":")] + StructInitLines(fields, d + 1) + [Line(d, "")]
    case InterfaceType(methods) =>
      [Line(d, "interface " + name + ":")] + MethodLines(methods, d + 1) + [Line(d, "")]
    case _ => []
  }

  function TypeSpecsLines(specs: seq<Spec>, d: nat): (r: seq<Line>)
  {
    if specs == [] then []
    else
      var last := specs[|specs| - 1];
      TypeSpecsLines(specs[..|specs| - 1], d) + (if last.TypeSpec? then TypeSpecLines(last.name, last.typeExpr, d) else [])
  }

  /** One top-level declaration; a `var`/`const` group is followed by one blank line. */
  function DeclLines(decl: Decl, d: nat): (r: seq<Line>)
  {
    match decl
    case FuncDecl(_, _, _, _, _) => FuncDeclLines(decl, d)
    case GenDecl(tok, specs) =>
      if tok == TypeTok then TypeSpecsLines(specs, d)
      else if tok == VarTok || tok == ConstTok then ValueSpecsLines(specs, d) + [Line(d, "")]
      else []
  }

  function DeclsLines(decls: seq<Decl>, d: nat): (r: seq<Line>)
  {
    if decls == [] then [] else DeclsLines(decls[..|decls| - 1], d) + DeclLines(decls[|decls| - 1], d)
  }

  /** The `import "m"` lines for the first `n` modules. */
  function ImportLines(modules: seq<string>, n: nat, d: nat): (r: seq<Line>)
    requires n <= |modules|
    ensures |r| == n
    ensures forall k :: 0 <= k < n ==> r[k] == Line(d, "import \"" + modules[k] + "\"")
  {
    if n == 0 then [] else ImportLines(modules, n - 1, d) + [Line(d, "import \"" + modules[n - 1] + "\"")]
  }

  /** The import block: one line per module, then a blank line when there is at least one. */
  function ImportBlock(modules: seq<string>, d: nat): (r: seq<Line>)
  {
    ImportLines(modules, |modules|, d) + (if |modules| > 0 then [Line(d, "")] else [])
  }

  /** The whole document a fresh translator produces for a declaration list. */
  function Translate(decls: seq<Decl>): (r: string)
  {
    Render(ImportBlock(FileImports(decls), 0) + DeclsLines(decls, 0))
  }
}
