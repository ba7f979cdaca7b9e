/**
  Type mapping and expression translation (`convertType`, `convertExpr`,
  `convertCallExpr`, `convertCompositeLit`): total, pure functions from a
  syntax node to target text. They are mutually recursive; the second
  component of each `decreases` orders the calls made on the same node.
 */
module Exprs {
  import opened Syntax
  import opened Strings

  /** The Go identifiers the type table renames. */
  predicate IsPrimitiveName(name: string)
  {
    name in {"int", "int32", "int64", "string", "bool", "byte", "float32", "float64"}
  }

  /** `convertType`. */
  function ConvertType(t: Expr): (r: string)
    decreases t, 2
  {
    match t
    case NoExpr => ""
    case Ident(name) =>
      if name == "int" || name == "int32" then "int"
      else if name == "int64" then "i64"
      else if name == "string" then "string"
      else if name == "bool" then "bool"
      else if name == "byte" then "char"
      else if name == "float32" || name == "float64" then "float"
      else name
    case ArrayType(elt) => "list[" + ConvertType(elt) + "]"
    case MapType(key, value) => "map[" + ConvertType(key) + ": " + ConvertType(value) + "]"
    case Star(base) => "ref " + ConvertType(base)
    case Selector(_, _) => ConvertExpr(t)
    case _ => "unknown"
  }

  /** `convertExpr`. Binary operators are emitted as Go spells them. */
  function ConvertExpr(e: Expr): (r: string)
    decreases e, 1
  {
    match e
    case NoExpr => ""
    case Ident(name) => name
    case BasicLit(_, text) => text
    case Binary(x, op, y) => ConvertExpr(x) + " " + op + " " + ConvertExpr(y)
    case Unary(op, x) => op + ConvertExpr(x)
    case Call(_, _) => ConvertCallExpr(e)
    case Selector(x, sel) => ConvertExpr(x) + "." + sel
    case Index(x, i) => ConvertExpr(x) + "[" + ConvertExpr(i) + "]"
    case CompositeLit(_, _) => ConvertCompositeLit(e)
    case TypeAssert(x, typ) => "(" + ConvertType(typ) + ")" + ConvertExpr(x)
    case _ => "# unknown expression"
  }

  /** `convertExpr` applied to each element, in order. */
  function ConvertExprs(es: seq<Expr>): (r: seq<string>)
    ensures |r| == |es|
    ensures forall k :: 0 <= k < |es| ==> r[k] == ConvertExpr(es[k])
    decreases es, 0
  {
    if es == [] then [] else [ConvertExpr(es[0])] + ConvertExprs(es[1..])
  }

  /** The text of a print rewrite: `print f` or `print f | a1, a2, ...`. */
  function PrintText(args: seq<Expr>): (r: string)
    requires |args| > 0
    decreases args, 1
  {
    var format := ConvertExpr(args[0]);
    if |args| > 1 then "print " + format + " | " + Join(ConvertExprs(args[1..]), ", ")
    else "print " + format
  }

  /** The generic call spelling `callee(a1, a2, ...)`. */
  function CallText(callee: string, args: seq<Expr>): (r: string)
    decreases args, 1
  {
    callee + "(" + Join(ConvertExprs(args), ", ") + ")"
  }

  /**
    `convertCallExpr`. A bare identifier or a `fmt.X` selector may select a
    built-in rewrite; when its guard fails the call falls through to the
    generic spelling. Callees of any other shape contribute an empty name.
   */
  function ConvertCallExpr(call: Expr): (r: string)
    requires call.Call?
    decreases call, 0
  {
    var args := call.args;
    match call.fun
    case Ident(name) =>
      if (name == "fmt.Printf" || name == "printf") && |args| > 0 then PrintText(args)
      else if (name == "fmt.Println" || name == "println") && |args| > 0 then "print " + ConvertExpr(args[0])
      else if name == "make" && |args| > 0 && HasPrefix(ConvertType(args[0]), "list[") then
        if |args| > 1 then "new " + ConvertType(args[0]) + "(" + ConvertExpr(args[1]) + ")"
        else "new " + ConvertType(args[0]) + "()"
      else if name == "make" && |args| > 0 && HasPrefix(ConvertType(args[0]), "map[") then "[]"
      else if name == "len" && |args| > 0 then "len(" + ConvertExpr(args[0]) + ")"
      else if name == "append" && |args| >= 2 then ConvertExpr(args[0]) + ".add(" + ConvertExpr(args[1]) + ")"
      else CallText(name, args)
    case Selector(x, member) =>
      var obj := ConvertExpr(x);
      if obj == "fmt" && member == "Printf" && |args| > 0 then PrintText(args)
      else if obj == "fmt" && member == "Println" && |args| > 0 then "print " + ConvertExpr(args[0])
      else CallText(obj + "." + member, args)
    case _ => CallText("", args)
  }

  /** `convertCompositeLit`: only a literal whose type renders as a list becomes `[e1, e2, ...]`. */
  function ConvertCompositeLit(lit: Expr): (r: string)
    requires lit.CompositeLit?
    decreases lit, 0
  {
    if lit.litType != NoExpr && HasPrefix(ConvertType(lit.litType), "list[") then
      "[" + Join(ConvertExprs(lit.elts), ", ") + "]"
    else "# composite literal"
  }

  // ---------------------------------------------------------------------
  // The type table

  /** A named type renders as itself exactly when it is not one of the five the table renames. */
  lemma TypeTable(name: string)
    ensures ConvertType(Ident(name)) == name <==> name !in {"int32", "int64", "byte", "float32", "float64"}
    ensures name == "int" || name == "int32" ==> ConvertType(Ident(name)) == "int"
    ensures name == "int64" ==> ConvertType(Ident(name)) == "i64"
    ensures name == "byte" ==> ConvertType(Ident(name)) == "char"
    ensures name == "float32" || name == "float64" ==> ConvertType(Ident(name)) == "float"
  {
  }

  /** Characters that may occur in a Go identifier (letters, digits, `_`; every non-ASCII code point is admitted). */
  predicate IsIdentChar(c: char)
  {
    ('a' <= c <= 'z') || ('A' <= c <= 'Z') || ('0' <= c <= '9') || c == '_' || c >= '\U{0080}'
  }

  predicate IsGoIdent(n: string)
  {
    |n| > 0 && forall k :: 0 <= k < |n| ==> IsIdentChar(n[k])
  }

  /**
    The type expressions a Go parser produces: the ones the table knows, the
    literal struct, interface and func types, a generic instantiation
    `T[A]` (an `Index` over a type), the other type forms (channel, ellipsis,
    parenthesised: `OtherExpr`) and an elided type (`NoExpr`).
   */
  predicate IsGoType(t: Expr)
  {
    match t
    case Ident(n) => IsGoIdent(n)
    case ArrayType(elt) => IsGoType(elt)
    case MapType(k, v) => IsGoType(k) && IsGoType(v)
    case Star(b) => IsGoType(b)
    case Selector(x, sel) => x.Ident? && IsGoIdent(x.name) && IsGoIdent(sel)
    case FuncType(_, _) => true
    case StructType(_) => true
    case InterfaceType(_) => true
    case Index(x, _) => IsGoType(x)
    case OtherExpr => true
    case NoExpr => true
    case _ => false
  }

  /** An absent type renders as nothing; every type a Go parser produces renders as some text. */
  lemma TypeAbsent(t: Expr)
    requires IsGoType(t)
    ensures ConvertType(t) == "" <==> t == NoExpr
  {
    if t.Selector? {
      assert ConvertType(t) == ConvertExpr(t.owner) + "." + t.sel;
    }
  }

  /** A Go identifier, or a Go identifier followed by `.`, cannot start with `list[`, `map[` or `ref `. */
  lemma IdentPrefixes(pkg: string, rest: string, p: string)
    requires IsGoIdent(pkg)
    requires p == "list[" || p == "map[" || p == "ref "
    ensures !HasPrefix(pkg, p)
    ensures !HasPrefix(pkg + "." + rest, p)
  {
    var m := |p| - 1;
    assert !IsIdentChar(p[m]);
    if |pkg| > m {
      assert pkg[..|p|][m] == pkg[m] != p[m];
    }
    var s := pkg + "." + rest;
    if |s| >= |p| {
      if |pkg| > m {
        assert s[..|p|][m] == pkg[m] != p[m];
      } else {
        assert '.' !in p;
        assert s[..|p|][|pkg|] == '.' != p[|pkg|];
      }
    }
  }

  /** A text starting with one of the three marker prefixes starts with no other. */
  lemma MarkerPrefixes(s: string)
    ensures HasPrefix(s, "list[") ==> !HasPrefix(s, "map[") && !HasPrefix(s, "ref ")
    ensures HasPrefix(s, "map[") ==> !HasPrefix(s, "ref ")
  {
    if HasPrefix(s, "list[") { assert s[0] == 'l'; }
    if HasPrefix(s, "map[") { assert s[0] == 'm'; }
  }

  /** A named type renders without any of the three markers. */
  lemma NamedTypeUnmarked(n: string)
    requires IsGoIdent(n)
    ensures var r := ConvertType(Ident(n)); !HasPrefix(r, "list[") && !HasPrefix(r, "map[") && !HasPrefix(r, "ref ")
  {
    var r := ConvertType(Ident(n));
    if IsPrimitiveName(n) {
      assert r in {"int", "i64", "string", "bool", "char", "float"};
      assert r != [] && r[0] in {'i', 's', 'b', 'c', 'f'};
    } else {
      assert r == n;
      IdentPrefixes(n, "", "list[");
      IdentPrefixes(n, "", "map[");
      IdentPrefixes(n, "", "ref ");
    }
  }

  /** A package-qualified type renders without any of the three markers. */
  lemma QualifiedTypeUnmarked(x: Expr, sel: string)
    requires x.Ident? && IsGoIdent(x.name) && IsGoIdent(sel)
    ensures var r := ConvertType(Selector(x, sel)); !HasPrefix(r, "list[") && !HasPrefix(r, "map[") && !HasPrefix(r, "ref ")
  {
    var t := Selector(x, sel);
    assert ConvertExpr(x) == x.name;
    assert ConvertType(t) == ConvertExpr(t) == x.name + "." + sel;
    IdentPrefixes(x.name, sel, "list[");
    IdentPrefixes(x.name, sel, "map[");
    IdentPrefixes(x.name, sel, "ref ");
  }

  /**
    On the types a Go parser produces, the prefix tests `make`,
    composite literals and receivers rely on classify the type exactly:
    `list[` marks an array or slice type, `map[` a map type and `ref ` a `*T` type.
   */
  lemma TypePrefixes(t: Expr)
    requires IsGoType(t)
    ensures HasPrefix(ConvertType(t), "list[") <==> t.ArrayType?
    ensures HasPrefix(ConvertType(t), "map[") <==> t.MapType?
    ensures HasPrefix(ConvertType(t), "ref ") <==> t.Star?
  {
    var r := ConvertType(t);
    MarkerPrefixes(r);
    match t
    case Ident(n) =>
      NamedTypeUnmarked(n);
    case Selector(x, sel) =>
      QualifiedTypeUnmarked(x, sel);
    case ArrayType(elt) =>
      assert r == "list[" + ConvertType(elt) + "]";
      assert r[..5] == "list[";
    case MapType(k, v) =>
      assert r == "map[" + ConvertType(k) + ": " + ConvertType(v) + "]";
      assert r[..4] == "map[";
    case Star(b) =>
      assert r == "ref " + ConvertType(b);
      assert r[..4] == "ref ";
    case FuncType(_, _) =>
      assert r == "unknown";
    case StructType(_) =>
      assert r == "unknown";
    case InterfaceType(_) =>
      assert r == "unknown";
    case Index(_, _) =>
      assert r == "unknown";
    case OtherExpr =>
      assert r == "unknown";
    case NoExpr =>
      assert r == "";
  }

  // ---------------------------------------------------------------------
  // Built-in call rewrites

  /** `println(x, ...)` and `fmt.Println(x, ...)` print their first argument only. */
  lemma PrintlnRewrite(args: seq<Expr>)
    requires |args| >= 1
    ensures ConvertExpr(Call(Ident("println"), args)) == "print " + ConvertExpr(args[0])
    ensures ConvertExpr(Call(Selector(Ident("fmt"), "Println"), args)) == "print " + ConvertExpr(args[0])
  {
    var c1, c2 := Call(Ident("println"), args), Call(Selector(Ident("fmt"), "Println"), args);
    assert ConvertExpr(c1) == ConvertCallExpr(c1);
    assert ConvertExpr(Ident("fmt")) == "fmt";
    assert ConvertExpr(c2) == ConvertCallExpr(c2);
  }

  /** `printf(f, a1, a2, ...)` and `fmt.Printf(...)` become `print f | a1, a2, ...`, or `print f` alone. */
  lemma PrintfRewrite(format: Expr, rest: seq<Expr>)
    ensures ConvertExpr(Call(Ident("printf"), [format] + rest))
         == ConvertExpr(Call(Selector(Ident("fmt"), "Printf"), [format] + rest))
         == if rest == [] then "print " + ConvertExpr(format)
            else "print " + ConvertExpr(format) + " | " + Join(ConvertExprs(rest), ", ")
  {
    var args := [format] + rest;
    assert args[0] == format;
    assert args[1..] == rest;
    var c1, c2 := Call(Ident("printf"), args), Call(Selector(Ident("fmt"), "Printf"), args);
    assert ConvertExpr(c1) == ConvertCallExpr(c1) == PrintText(args);
    assert ConvertExpr(Ident("fmt")) == "fmt";
    assert ConvertExpr(c2) == ConvertCallExpr(c2) == PrintText(args);
  }

  /** `append(xs, e, ...)` becomes `xs.add(e)`; arguments after the second are dropped. */
  lemma AppendRewrite(xs: Expr, e: Expr, rest: seq<Expr>)
    ensures ConvertExpr(Call(Ident("append"), [xs, e] + rest)) == ConvertExpr(xs) + ".add(" + ConvertExpr(e) + ")"
  {
  }

  /** `len(x, ...)` becomes `len(x)`. */
  lemma LenRewrite(x: Expr, rest: seq<Expr>)
    ensures ConvertExpr(Call(Ident("len"), [x] + rest)) == "len(" + ConvertExpr(x) + ")"
  {
  }

  /**
    On a Go type, `make(T, n, ...)` becomes `new list[E](n)` or `new list[E]()` for
    a slice type, `[]` for a map type, and the plain call `make(...)` otherwise.
   */
  lemma MakeRewrite(t: Expr, rest: seq<Expr>)
    requires IsGoType(t)
    ensures var r := ConvertExpr(Call(Ident("make"), [t] + rest));
            && (t.ArrayType? && rest != [] ==> r == "new " + ConvertType(t) + "(" + ConvertExpr(rest[0]) + ")")
            && (t.ArrayType? && rest == [] ==> r == "new " + ConvertType(t) + "()")
            && (t.MapType? ==> r == "[]")
            && (!t.ArrayType? && !t.MapType? ==> r == CallText("make", [t] + rest))
  {
    TypePrefixes(t);
    assert ([t] + rest)[0] == t;
    assert rest != [] ==> ([t] + rest)[1] == rest[0];
  }

  /** The built-in names a bare identifier callee is rewritten for (when its arguments allow). */
  predicate IsBuiltinName(name: string)
  {
    name in {"fmt.Printf", "printf", "fmt.Println", "println", "make", "len", "append"}
  }

  /** Any other identifier or selector callee is translated and called with the translated arguments. */
  lemma GenericCall(fun: Expr, args: seq<Expr>)
    requires (fun.Ident? && !IsBuiltinName(fun.name))
          || (fun.Selector? && (ConvertExpr(fun.owner) != "fmt" || fun.sel !in {"Printf", "Println"}))
    ensures ConvertExpr(Call(fun, args)) == ConvertExpr(fun) + "(" + Join(ConvertExprs(args), ", ") + ")"
  {
    var c := Call(fun, args);
    assert ConvertExpr(c) == ConvertCallExpr(c);
    if fun.Selector? {
      assert ConvertExpr(fun) == ConvertExpr(fun.owner) + "." + fun.sel;
    }
  }

  /**
    Every rewrite is guarded by its arguments: a built-in called without the
    arguments its rewrite reads (none at all, or `append` with only one) is
    written as a plain call.
   */
  lemma CallGuards(name: string, args: seq<Expr>)
    requires IsBuiltinName(name)
    requires args == [] || (name == "append" && |args| == 1)
    ensures ConvertExpr(Call(Ident(name), args)) == CallText(name, args)
  {
    var c := Call(Ident(name), args);
    assert ConvertExpr(c) == ConvertCallExpr(c);
  }

  /** Each of the four print built-ins, called with no arguments, is left as a plain call. */
  lemma EmptyPrintCall()
    ensures ConvertExpr(Call(Ident("println"), [])) == "println()"
    ensures ConvertExpr(Call(Ident("printf"), [])) == "printf()"
    ensures ConvertExpr(Call(Selector(Ident("fmt"), "Println"), [])) == "fmt.Println()"
    ensures ConvertExpr(Call(Selector(Ident("fmt"), "Printf"), [])) == "fmt.Printf()"
  {
    CallGuards("println", []);
    CallGuards("printf", []);
    EmptyFmtCall("Println");
    EmptyFmtCall("Printf");
  }

  lemma EmptyFmtCall(member: string)
    ensures ConvertExpr(Call(Selector(Ident("fmt"), member), [])) == "fmt." + member + "()"
  {
    var c := Call(Selector(Ident("fmt"), member), []);
    assert ConvertExpr(Ident("fmt")) == "fmt";
    assert ConvertExpr(c) == ConvertCallExpr(c) == CallText("fmt" + "." + member, []);
  }

  /** A callee that is neither an identifier nor a selector (a function literal, a parenthesised or indexed callee) loses its name. */
  lemma NamelessCallee(fun: Expr, args: seq<Expr>)
    requires !fun.Ident? && !fun.Selector?
    ensures ConvertExpr(Call(fun, args)) == "(" + Join(ConvertExprs(args), ", ") + ")"
  {
    var c := Call(fun, args);
    assert ConvertExpr(c) == ConvertCallExpr(c) == CallText("", args);
  }

  /** `fmt.Printf("%d-%s", n, s)` becomes `print "%d-%s" | n, s`. */
  lemma PrintfExample()
    ensures ConvertExpr(Call(Selector(Ident("fmt"), "Printf"),
                             [BasicLit("STRING", "\"%d-%s\""), Ident("n"), Ident("s")]))
            == "print \"%d-%s\" | n, s"
  {
    var args := [BasicLit("STRING", "\"%d-%s\""), Ident("n"), Ident("s")];
    assert args[1..] == [Ident("n"), Ident("s")];
    assert ConvertExprs(args[1..]) == ["n", "s"];
  }

  // ---------------------------------------------------------------------
  // Other expressions

  /** Literals pass through unchanged whatever their kind; composite literals of a non-list type become a placeholder. */
  lemma Passthrough(kind: string, text: string, t: Expr, elts: seq<Expr>)
    ensures ConvertExpr(BasicLit(kind, text)) == text
    ensures IsGoType(t) && !t.ArrayType? ==> ConvertExpr(CompositeLit(t, elts)) == "# composite literal"
    ensures IsGoType(t) && t.ArrayType? ==> ConvertExpr(CompositeLit(t, elts)) == "[" + Join(ConvertExprs(elts), ", ") + "]"
  {
    if IsGoType(t) {
      TypePrefixes(t);
    }
  }

  // ---------------------------------------------------------------------
  // Expressions both languages spell alike

  /**
    Names, literals, and operators, selectors and indexing over them, none of
    whose names, literal texts or operators holds a `#`.
   */
  predicate Shared(e: Expr)
  {
    match e
    case Ident(n) => '#' !in n
    case BasicLit(_, text) => '#' !in text
    case Binary(x, op, y) => '#' !in op && Shared(x) && Shared(y)
    case Unary(op, x) => '#' !in op && Shared(x)
    case Selector(x, sel) => '#' !in sel && Shared(x)
    case Index(x, i) => Shared(x) && Shared(i)
    case _ => false
  }

  /**
    A shared expression is never degraded: no `# unknown expression` or
    `# composite literal` placeholder appears anywhere in its translation.
   */
  lemma {:induction false} SharedHasNoPlaceholder(e: Expr)
    requires Shared(e)
    ensures '#' !in ConvertExpr(e)
  {
    match e
    case Ident(_) =>
    case BasicLit(_, _) =>
    case Binary(x, op, y) =>
      SharedHasNoPlaceholder(x);
      SharedHasNoPlaceholder(y);
      assert ConvertExpr(e) == ConvertExpr(x) + " " + op + " " + ConvertExpr(y);
    case Unary(op, x) =>
      SharedHasNoPlaceholder(x);
      assert ConvertExpr(e) == op + ConvertExpr(x);
    case Selector(x, sel) =>
      SharedHasNoPlaceholder(x);
      assert ConvertExpr(e) == ConvertExpr(x) + "." + sel;
    case Index(x, i) =>
      SharedHasNoPlaceholder(x);
      SharedHasNoPlaceholder(i);
      assert ConvertExpr(e) == ConvertExpr(x) + "[" + ConvertExpr(i) + "]";
  }

  /** Every other expression form outside a call or a composite literal is replaced by the placeholder. */
  lemma UnsupportedPlaceholder(e: Expr)
    requires e.Star? || e.ArrayType? || e.MapType? || e.FuncType? || e.StructType? || e.InterfaceType? || e.OtherExpr?
    ensures ConvertExpr(e) == "# unknown expression"
    ensures '#' in ConvertExpr(e)
  {
    assert ConvertExpr(e)[0] == '#';
  }
}
