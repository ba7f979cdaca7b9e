/**
  The translator object (`ScarConverter`): an output buffer, the current
  indentation level and the collected imports, updated in place by the
  statement and declaration emitters.

  Every emitter is proved to append to `output` exactly the lines `Emit`
  specifies for its node at the entry depth, and to leave
  `indentLevel` as it found it; because `indentLevel` is a `nat`, every
  decrement is also proved to follow a matching increment.
 */
module Converter {
  import opened Syntax
  import opened Strings
  import opened Output
  import opened Exprs
  import opened Imports
  import opened Emit

  class ScarConverter {
    var indentLevel: nat
    /** The builder's contents, as the lines `writeln` appended; its text is `Render(output)`. */
    var output: seq<Line>
    var imports: seq<string>

    /** `NewScarConverter`. */
    constructor ()
      ensures indentLevel == 0 && output == [] && imports == []
    {
      indentLevel := 0;
      output := [];
      imports := [];
    }

    /** `writeln`: the current indentation, the text, a newline. */
    method Writeln(s: string)
      modifies this`output
      ensures output == old(output) + [Line(indentLevel, s)]
    {
      output := output + [Line(indentLevel, s)];
    }

    /** The `indentLevel++`, block, `indentLevel--` pattern every compound statement uses. */
    method ConvertNestedBlock(body: seq<Stmt>)
      modifies this`output, this`indentLevel
      ensures indentLevel == old(indentLevel)
      ensures output == old(output) + BlockLines(body, indentLevel + 1)
      decreases body, 1
    {
      indentLevel := indentLevel + 1;
      ConvertBlockStmt(body);
      indentLevel := indentLevel - 1;
    }

    // -------------------------------------------------------------------
    // Statements

    /** `convertStmt`. */
    method ConvertStmt(s: Stmt)
      modifies this`output, this`indentLevel
      ensures indentLevel == old(indentLevel)
      ensures output == old(output) + StmtLines(s, indentLevel)
      decreases s, 2
    {
      match s
      case NoStmt =>
      case ExprStmt(x) => Writeln(ConvertExpr(x));
      case Assign(_, _, _) => ConvertAssignStmt(s);
      case DeclStmt(specs) => ConvertValueSpecs(specs);
      case If(_, _, _, _) => ConvertIfStmt(s, "if");
      case For(_, _, _, _) => ConvertForStmt(s);
      case Range(_, _, _, _) => ConvertRangeStmt(s);
      case Return(_) => ConvertReturnStmt(s);
      case Block(list) => ConvertBlockStmt(list);
      case IncDec(_, _) => ConvertIncDecStmt(s);
      case Switch(_, _, _) => ConvertSwitchStmt(s);
      case TypeSwitch => Writeln("# type switch not supported */");
      case CaseClause(_, _) => ConvertCaseClause(s);
      case Branch(_) => ConvertBranchStmt(s);
      case OtherStmt => Writeln("# unknown statement");
    }

    /** `convertAssignStmt`: only the one-target, one-value form writes a line. */
    method ConvertAssignStmt(s: Stmt)
      requires s.Assign?
      modifies this`output
      ensures output == old(output) + StmtLines(s, indentLevel)
    {
      if |s.lhs| == 1 && |s.rhs| == 1 {
        var lhs := ConvertExpr(s.lhs[0]);
        var rhs := ConvertExpr(s.rhs[0]);
        if s.tok == "=" {
          Writeln(lhs + " = " + rhs);
        } else if s.tok == ":=" {
          Writeln(lhs + " = " + rhs);
        } else if s.tok == "+=" {
          Writeln(lhs + " = " + lhs + " + " + rhs);
        } else if s.tok == "-=" {
          Writeln(lhs + " = " + lhs + " - " + rhs);
        } else {
          Writeln(lhs + " = " + rhs);
        }
      }
    }

    /**
      The value specs of a declaration group (`convertDeclStmt`, and the
      `var`/`const` branch of `ConvertFile`); other specs are skipped.
     */
    method ConvertValueSpecs(specs: seq<Spec>)
      modifies this`output
      ensures output == old(output) + ValueSpecsLines(specs, indentLevel)
    {
      var i := 0;
      while i < |specs|
        invariant 0 <= i <= |specs|
        invariant output == old(output) + ValueSpecsLines(specs[..i], indentLevel)
      {
        assert specs[..i + 1][..i] == specs[..i];
        ghost var done := ValueSpecsLines(specs[..i], indentLevel);
        ghost var next := if specs[i].ValueSpec? then ValueSpecLines(specs[i], indentLevel) else [];
        if specs[i].ValueSpec? {
          ConvertValueSpec(specs[i]);
        }
        AppendAssoc(old(output), done, next);
        i := i + 1;
      }
      assert specs[..|specs|] == specs;
    }

    /** One value spec: a line per name by the four-way rule. */
    method ConvertValueSpec(spec: Spec)
      requires spec.ValueSpec?
      modifies this`output
      ensures output == old(output) + ValueSpecLines(spec, indentLevel)
    {
      var i := 0;
      while i < |spec.names|
        invariant 0 <= i <= |spec.names|
        invariant output == old(output) + ValueNameLines(spec.names, SpecType(spec), spec.values, i, indentLevel)
      {
        var name := spec.names[i];
        var typ := "";
        if spec.valueType != NoExpr {
          typ := ConvertType(spec.valueType);
        }
        if |spec.values| > i {
          var val := ConvertExpr(spec.values[i]);
          if typ != "" {
            Writeln(typ + " " + name + " = " + val);
          } else {
            Writeln(name + " = " + val);
          }
        } else {
          if typ != "" {
            Writeln(typ + " " + name);
          }
        }
        i := i + 1;
      }
    }

    /**
      `convertIfStmt` (keyword `if`) and `convertElseIfStmt` (keyword
      `elif`): the two Go functions differ only in the keyword of the header.
     */
    method ConvertIfStmt(s: Stmt, keyword: string)
      requires s.If?
      modifies this`output, this`indentLevel
      ensures indentLevel == old(indentLevel)
      ensures output == old(output) + IfChainLines(s, indentLevel, keyword)
      decreases s, 1
    {
      ghost var d, o := indentLevel, output;
      if s.init != NoStmt {
        ConvertStmt(s.init);
      } else {
        assert output == o + StmtLines(s.init, d);
      }
      ghost var a := StmtLines(s.init, d);
      var cond := ConvertExpr(s.cond);
      Writeln(keyword + " " + cond + ":");
      ghost var h := [Line(d, keyword + " " + cond + ":")];
      AppendAssoc(o, a, h);
      ConvertNestedBlock(s.body);
      AppendAssoc(o, a + h, BlockLines(s.body, d + 1));
      ghost var head := a + h + BlockLines(s.body, d + 1);
      ConvertElse(s.els);
      AppendAssoc(o, head, ElseLines(s.els, d));
    }

    /** The else part shared by `convertIfStmt` and `convertElseIfStmt`. */
    method ConvertElse(els: Stmt)
      modifies this`output, this`indentLevel
      ensures indentLevel == old(indentLevel)
      ensures output == old(output) + ElseLines(els, indentLevel)
      decreases els, 2
    {
      ghost var d, o := indentLevel, output;
      if els != NoStmt {
        if els.If? {
          ConvertIfStmt(els, "elif");
        } else if els.Block? {
          Writeln("else:");
          ConvertNestedBlock(els.list);
          AppendAssoc(o, [Line(d, "else:")], BlockLines(els.list, d + 1));
        } else {
          assert output == o + ElseLines(els, d);
        }
      } else {
        assert output == o + ElseLines(els, d);
      }
    }

    /** `convertForStmt`. */
    method ConvertForStmt(s: Stmt)
      requires s.For?
      modifies this`output, this`indentLevel
      ensures indentLevel == old(indentLevel)
      ensures output == old(output) + StmtLines(s, indentLevel)
      decreases s, 1
    {
      ghost var d, o := indentLevel, output;
      var header := ConvertForHeader(s);
      Writeln(header);
      ConvertNestedBlock(s.forBody);
      AppendAssoc(o, [Line(d, header)], BlockLines(s.forBody, d + 1));
    }

    /**
      The header line of `convertForStmt`: a three-clause loop keeps the
      third-from-last space-separated piece of its rendered init statement
      as the loop variable.
     */
    method ConvertForHeader(s: Stmt) returns (header: string)
      requires s.For?
      modifies this`output, this`indentLevel
      ensures output == old(output) && indentLevel == old(indentLevel)
      ensures header == ForHeader(s)
      decreases s, 0
    {
      if s.forInit != NoStmt && s.forCond != NoExpr && s.post != NoStmt {
        var init := ConvertStmtToString(s.forInit);
        StmtStringTrimmed(s.forInit);
        init := TrimSpace(init);
        var cond := ConvertExpr(s.forCond);
        var post := ConvertStmtToString(s.post);
        StmtStringTrimmed(s.post);
        post := TrimSpace(post);
        header := ThreeClauseLoopHeader(init, cond, post);
      } else if s.forCond != NoExpr {
        var cond := ConvertExpr(s.forCond);
        header := "while " + cond + ":";
      } else {
        header := "while true:";
      }
    }

    /** `convertRangeStmt`: without a key no header is written, but the body is still indented. */
    method ConvertRangeStmt(s: Stmt)
      requires s.Range?
      modifies this`output, this`indentLevel
      ensures indentLevel == old(indentLevel)
      ensures output == old(output) + StmtLines(s, indentLevel)
      decreases s, 1
    {
      ghost var d, o := indentLevel, output;
      var x := ConvertExpr(s.source);
      if s.key != NoExpr && s.val != NoExpr {
        var key := ConvertExpr(s.key);
        var value := ConvertExpr(s.val);
        Writeln("for " + key + ", " + value + " in " + x + ":");
      } else if s.key != NoExpr {
        var key := ConvertExpr(s.key);
        Writeln("for " + key + " in " + x + ":");
      }
      assert output == o + RangeHeader(s.key, s.val, s.source, d);
      ConvertNestedBlock(s.rangeBody);
      AppendAssoc(o, RangeHeader(s.key, s.val, s.source, d), BlockLines(s.rangeBody, d + 1));
    }

    /** `convertReturnStmt`. */
    method ConvertReturnStmt(s: Stmt)
      requires s.Return?
      modifies this`output
      ensures output == old(output) + StmtLines(s, indentLevel)
    {
      if |s.results| == 0 {
        Writeln("return");
      } else if |s.results| == 1 {
        var result := ConvertExpr(s.results[0]);
        Writeln("return " + result);
      } else {
        var results := ConvertExprList(s.results);
        Writeln("return " + Join(results, ", "));
      }
    }

    /** `convertBlockStmt`: every statement in order, at the current depth. */
    method ConvertBlockStmt(list: seq<Stmt>)
      modifies this`output, this`indentLevel
      ensures indentLevel == old(indentLevel)
      ensures output == old(output) + BlockLines(list, indentLevel)
      decreases list, 0
    {
      var i := 0;
      while i < |list|
        invariant 0 <= i <= |list|
        invariant indentLevel == old(indentLevel)
        invariant output == old(output) + BlockLines(list[..i], indentLevel)
      {
        assert list[..i + 1][..i] == list[..i];
        ConvertStmt(list[i]);
        AppendAssoc(old(output), BlockLines(list[..i], indentLevel), StmtLines(list[i], indentLevel));
        i := i + 1;
      }
      assert list[..|list|] == list;
    }

    /** `convertIncDecStmt`. */
    method ConvertIncDecStmt(s: Stmt)
      requires s.IncDec?
      modifies this`output
      ensures output == old(output) + StmtLines(s, indentLevel)
    {
      var x := ConvertExpr(s.target);
      if s.incTok == "++" {
        Writeln(x + " = " + x + " + 1");
      } else {
        Writeln(x + " = " + x + " - 1");
      }
    }

    /** `convertSwitchStmt`. */
    method ConvertSwitchStmt(s: Stmt)
      requires s.Switch?
      modifies this`output, this`indentLevel
      ensures indentLevel == old(indentLevel)
      ensures output == old(output) + StmtLines(s, indentLevel)
      decreases s, 1
    {
      ghost var d, o := indentLevel, output;
      if s.switchInit != NoStmt {
        ConvertStmt(s.switchInit);
      } else {
        assert output == o + StmtLines(s.switchInit, d);
      }
      ghost var a := StmtLines(s.switchInit, d);
      if s.tag != NoExpr {
        var tag := ConvertExpr(s.tag);
        Writeln("switch " + tag + ":");
      } else {
        Writeln("switch:");
      }
      ghost var h := [Line(d, if s.tag != NoExpr then "switch " + ConvertExpr(s.tag) + ":" else "switch:")];
      AppendAssoc(o, a, h);
      ConvertNestedBlock(s.switchBody);
      AppendAssoc(o, a + h, BlockLines(s.switchBody, d + 1));
    }

    /** `convertCaseClause`: a nil label list is the `default` clause. */
    method ConvertCaseClause(s: Stmt)
      requires s.CaseClause?
      modifies this`output, this`indentLevel
      ensures indentLevel == old(indentLevel)
      ensures output == old(output) + StmtLines(s, indentLevel)
      decreases s, 1
    {
      ghost var d, o := indentLevel, output;
      if s.labels.None? {
        Writeln("default:");
      } else {
        var cases := ConvertExprList(s.labels.value);
        Writeln("case " + Join(cases, ", ") + ":");
      }
      ConvertNestedBlock(s.caseBody);
      AppendAssoc(o, [Line(d, CaseHeader(s.labels))], BlockLines(s.caseBody, d + 1));
    }

    /** `convertBranchStmt`: `goto` and `fallthrough` write nothing. */
    method ConvertBranchStmt(s: Stmt)
      requires s.Branch?
      modifies this`output
      ensures output == old(output) + StmtLines(s, indentLevel)
    {
      if s.branchTok == "break" {
        Writeln("break");
      } else if s.branchTok == "continue" {
        Writeln("continue");
      }
    }

    /**
      `convertStmtToString`: renders a statement into a fresh buffer at
      depth 0 and then puts the buffer and the indentation back.
     */
    method ConvertStmtToString(s: Stmt) returns (r: string)
      modifies this`output, this`indentLevel
      ensures output == old(output) && indentLevel == old(indentLevel)
      ensures r == StmtString(s)
      decreases s, 3
    {
      var oldOutput := output;
      var oldIndent := indentLevel;
      output := [];
      indentLevel := 0;
      ConvertStmt(s);
      assert output == StmtLines(s, 0);
      var text := Render(output);
      r := TrimSpace(text);
      output := oldOutput;
      indentLevel := oldIndent;
    }

    // -------------------------------------------------------------------
    // Declarations

    /** `convertFuncDecl`. The receiver text is computed and, as in the source, never written. */
    method ConvertFuncDecl(f: Decl)
      requires f.FuncDecl?
      modifies this`output, this`indentLevel
      ensures indentLevel == old(indentLevel)
      ensures output == old(output) + FuncDeclLines(f, indentLevel)
    {
      ghost var d, o := indentLevel, output;
      if f.name == "main" && f.recv.None? {
        if f.body.Some? {
          ConvertBlockStmt(f.body.value);
        }
        return;
      }
      var receiver := ConvertReceiver(f.recv);
      var header := FuncSignature(f);
      if receiver != "" {
        Writeln(header);
      } else {
        Writeln(header);
      }
      ghost var h := [Line(d, header)];
      ghost var body := if f.body.Some? then BlockLines(f.body.value, d + 1) else [];
      if f.body.Some? {
        ConvertNestedBlock(f.body.value);
      } else {
        assert output == o + h + body;
      }
      AppendAssoc(o, h, body);
      Writeln("");
      AppendAssoc(o, h + body, [Line(d, "")]);
    }

    /** `convertTypeSpec`: struct and interface types; any other type spec writes nothing. */
    method ConvertTypeSpec(name: string, typ: Expr)
      modifies this`output, this`indentLevel
      ensures indentLevel == old(indentLevel)
      ensures output == old(output) + TypeSpecLines(name, typ, indentLevel)
    {
      match typ
      case StructType(fields) => ConvertStructType(name, fields);
      case InterfaceType(methods) => ConvertInterfaceType(name, methods);
      case _ =>
    }

    /** The struct arm of `convertTypeSpec`: a class whose `init:` block lists the fields. */
    method ConvertStructType(name: string, fields: seq<Field>)
      modifies this`output, this`indentLevel
      ensures indentLevel == old(indentLevel)
      ensures output == old(output) + TypeSpecLines(name, StructType(fields), indentLevel)
    {
      ghost var d, o := indentLevel, output;
      Writeln("class " + name + ":");
      ghost var h := [Line(d, "class " + name + ":")];
      indentLevel := indentLevel + 1;
      ConvertStructInit(fields);
      indentLevel := indentLevel - 1;
      ghost var init := StructInitLines(fields, d + 1);
      AppendAssoc(o, h, init);
      Writeln("");
      AppendAssoc(o, h + init, [Line(d, "")]);
    }

    /** The `init:` block of a struct, one level deeper than the class header. */
    method ConvertStructInit(fields: seq<Field>)
      modifies this`output, this`indentLevel
      ensures indentLevel == old(indentLevel)
      ensures output == old(output) + StructInitLines(fields, indentLevel)
    {
      ghost var d, o := indentLevel, output;
      if |fields| > 0 {
        Writeln("init:");
        ConvertNestedFields(fields);
        AppendAssoc(o, [Line(d, "init:")], FieldLines(fields, d + 1));
      } else {
        Writeln("init:");
      }
    }

    /** The field lines of a struct, one level deeper than the current one. */
    method ConvertNestedFields(fields: seq<Field>)
      modifies this`output, this`indentLevel
      ensures indentLevel == old(indentLevel)
      ensures output == old(output) + FieldLines(fields, indentLevel + 1)
    {
      indentLevel := indentLevel + 1;
      ConvertStructFields(fields);
      indentLevel := indentLevel - 1;
    }

    /** The interface arm of `convertTypeSpec`: one signature line per method. */
    method ConvertInterfaceType(name: string, methods: seq<Field>)
      modifies this`output, this`indentLevel
      ensures indentLevel == old(indentLevel)
      ensures output == old(output) + TypeSpecLines(name, InterfaceType(methods), indentLevel)
    {
      ghost var d, o := indentLevel, output;
      Writeln("interface " + name + ":");
      ghost var h := [Line(d, "interface " + name + ":")];
      indentLevel := indentLevel + 1;
      ConvertInterfaceMethods(methods);
      indentLevel := indentLevel - 1;
      AppendAssoc(o, h, MethodLines(methods, d + 1));
      Writeln("");
      AppendAssoc(o, h + MethodLines(methods, d + 1), [Line(d, "")]);
    }

    /** The field lines of a struct's `init:` block: `T this.name` per name of every field. */
    method ConvertStructFields(fields: seq<Field>)
      modifies this`output
      ensures output == old(output) + FieldLines(fields, indentLevel)
    {
      var i := 0;
      while i < |fields|
        invariant 0 <= i <= |fields|
        invariant output == old(output) + FieldLines(fields[..i], indentLevel)
      {
        assert fields[..i + 1][..i] == fields[..i];
        ghost var done := FieldLines(fields[..i], indentLevel);
        ghost var before := output;
        var field := fields[i];
        var fieldType := ConvertType(field.typ);
        var j := 0;
        while j < |field.names|
          invariant 0 <= j <= |field.names|
          invariant output == before + FieldNameLines(field, indentLevel)[..j]
        {
          ghost var l := Line(indentLevel, fieldType + " this." + field.names[j]);
          assert FieldNameLines(field, indentLevel)[..j + 1] == FieldNameLines(field, indentLevel)[..j] + [l];
          Writeln(fieldType + " this." + field.names[j]);
          j := j + 1;
        }
        assert FieldNameLines(field, indentLevel)[..|field.names|] == FieldNameLines(field, indentLevel);
        i := i + 1;
      }
      assert fields[..|fields|] == fields;
    }

    /** The signature lines of an interface's methods. */
    method ConvertInterfaceMethods(methods: seq<Field>)
      modifies this`output
      ensures output == old(output) + MethodLines(methods, indentLevel)
    {
      var i := 0;
      while i < |methods|
        invariant 0 <= i <= |methods|
        invariant output == old(output) + MethodLines(methods[..i], indentLevel)
      {
        assert methods[..i + 1][..i] == methods[..i];
        ghost var done := MethodLines(methods[..i], indentLevel);
        var m := methods[i];
        if |m.names| > 0 {
          var methodName := m.names[0];
          if m.typ.FuncType? {
            var params := ConvertParams(m.typ.params);
            var returnType := "";
            if |m.typ.results| > 0 {
              returnType := " -> " + ConvertType(m.typ.results[0].typ);
            }
            Writeln("fn " + methodName + "(" + Join(params, ", ") + ")" + returnType);
          }
        }
        i := i + 1;
      }
      assert methods[..|methods|] == methods;
    }

    /** The type specs of a `type` group, in order. */
    method ConvertTypeSpecs(specs: seq<Spec>)
      modifies this`output, this`indentLevel
      ensures indentLevel == old(indentLevel)
      ensures output == old(output) + TypeSpecsLines(specs, indentLevel)
    {
      var i := 0;
      while i < |specs|
        invariant 0 <= i <= |specs|
        invariant indentLevel == old(indentLevel)
        invariant output == old(output) + TypeSpecsLines(specs[..i], indentLevel)
      {
        assert specs[..i + 1][..i] == specs[..i];
        ghost var done := TypeSpecsLines(specs[..i], indentLevel);
        ghost var next := if specs[i].TypeSpec? then TypeSpecLines(specs[i].name, specs[i].typeExpr, indentLevel) else [];
        if specs[i].TypeSpec? {
          ConvertTypeSpec(specs[i].name, specs[i].typeExpr);
        }
        AppendAssoc(old(output), done, next);
        i := i + 1;
      }
      assert specs[..|specs|] == specs;
    }

    /** `convertImports`: appends the non-empty module of each import spec. */
    method ConvertImports(specs: seq<Spec>)
      modifies this`imports
      ensures imports == old(imports) + ImportsOf(specs)
    {
      var i := 0;
      while i < |specs|
        invariant 0 <= i <= |specs|
        invariant imports == old(imports) + ImportsOf(specs[..i])
      {
        assert specs[..i + 1][..i] == specs[..i];
        if specs[i].ImportSpec? {
          var path := TrimChar(specs[i].pathLit, '"');
          var scarImport := ConvertImportPath(path);
          if scarImport != "" {
            imports := imports + [scarImport];
            AppendAssoc(old(imports), ImportsOf(specs[..i]), [scarImport]);
          }
        }
        i := i + 1;
      }
      assert specs[..|specs|] == specs;
    }

    /** One top-level declaration of `ConvertFile`'s second walk. */
    method ConvertDecl(decl: Decl)
      modifies this`output, this`indentLevel
      ensures indentLevel == old(indentLevel)
      ensures output == old(output) + DeclLines(decl, indentLevel)
    {
      match decl
      case FuncDecl(_, _, _, _, _) =>
        ConvertFuncDecl(decl);
      case GenDecl(tok, specs) =>
        if tok == TypeTok {
          ConvertTypeSpecs(specs);
        } else if tok == VarTok || tok == ConstTok {
          ghost var o := output;
          ConvertValueSpecs(specs);
          Writeln("");
          AppendAssoc(o, ValueSpecsLines(specs, indentLevel), [Line(indentLevel, "")]);
        }
    }

    /**
      The declaration walk of `ConvertFile`: imports are collected first,
      written one per line with a blank line after them when there is at
      least one, then every declaration is written in source order; the
      result is the text of the buffer.
     */
    method ConvertFile(decls: seq<Decl>) returns (r: string)
      modifies this
      ensures indentLevel == old(indentLevel)
      ensures imports == old(imports) + FileImports(decls)
      ensures output == old(output) + ImportBlock(imports, indentLevel) + DeclsLines(decls, indentLevel)
      ensures r == Render(output)
    {
      CollectImports(decls);
      WriteImports();
      ConvertDecls(decls);
      AppendAssoc(old(output), ImportBlock(imports, indentLevel), DeclsLines(decls, indentLevel));
      r := Render(output);
    }

    /** The first walk of `ConvertFile`: every `import` group, in order. */
    method CollectImports(decls: seq<Decl>)
      modifies this`imports
      ensures imports == old(imports) + FileImports(decls)
    {
      var i := 0;
      while i < |decls|
        invariant 0 <= i <= |decls|
        invariant imports == old(imports) + FileImports(decls[..i])
      {
        assert decls[..i + 1][..i] == decls[..i];
        ghost var next := GroupImports(decls[i]);
        if decls[i].GenDecl? && decls[i].tok == ImportTok {
          ConvertImports(decls[i].specs);
        }
        AppendAssoc(old(imports), FileImports(decls[..i]), next);
        i := i + 1;
      }
      assert decls[..|decls|] == decls;
    }

    /** `import "m"` per collected module, then a blank line if there was any. */
    method WriteImports()
      modifies this`output
      ensures output == old(output) + ImportBlock(imports, indentLevel)
    {
      ghost var d := indentLevel;
      var i := 0;
      while i < |imports|
        invariant 0 <= i <= |imports|
        invariant output == old(output) + ImportLines(imports, i, d)
      {
        Writeln("import \"" + imports[i] + "\"");
        AppendAssoc(old(output), ImportLines(imports, i, d), [Line(d, "import \"" + imports[i] + "\"")]);
        i := i + 1;
      }
      if |imports| > 0 {
        Writeln("");
        AppendAssoc(old(output), ImportLines(imports, i, d), [Line(d, "")]);
      } else {
        assert output == old(output) + ImportBlock(imports, d);
      }
    }

    /** The second walk of `ConvertFile`: every declaration, in order. */
    method ConvertDecls(decls: seq<Decl>)
      modifies this`output, this`indentLevel
      ensures indentLevel == old(indentLevel)
      ensures output == old(output) + DeclsLines(decls, indentLevel)
    {
      var i := 0;
      while i < |decls|
        invariant 0 <= i <= |decls|
        invariant indentLevel == old(indentLevel)
        invariant output == old(output) + DeclsLines(decls[..i], indentLevel)
      {
        assert decls[..i + 1][..i] == decls[..i];
        ConvertDecl(decls[i]);
        AppendAssoc(old(output), DeclsLines(decls[..i], indentLevel), DeclLines(decls[i], indentLevel));
        i := i + 1;
      }
      assert decls[..|decls|] == decls;
    }
  }

  /** `convertExpr` over a list, by a loop as the emitters build their slices. */
  method ConvertExprList(es: seq<Expr>) returns (r: seq<string>)
    ensures r == ConvertExprs(es)
  {
    r := [];
    var i := 0;
    while i < |es|
      invariant 0 <= i <= |es|
      invariant |r| == i
      invariant forall k :: 0 <= k < i ==> r[k] == ConvertExpr(es[k])
    {
      r := r + [ConvertExpr(es[i])];
      i := i + 1;
    }
  }

  /** The three-clause header of `convertForStmt`, from the trimmed init and post texts. */
  method ThreeClauseLoopHeader(init: string, cond: string, post: string) returns (header: string)
    ensures header == ThreeClauseHeader(init, cond, post)
  {
    var initParts := Split(init, ' ');
    if |initParts| >= 3 {
      var varName := initParts[|initParts| - 3];
      header := "for " + varName + "; " + cond + "; " + post + ":";
    } else {
      header := "while " + cond + ":";
    }
  }

  /**
    The receiver text `convertFuncDecl` computes: the receiver's name is
    overwritten at once by `this` and the type without its `ref ` marker.
   */
  method ConvertReceiver(recv: Option<Field>) returns (receiver: string)
    ensures receiver == ReceiverText(recv)
  {
    receiver := "";
    if recv.Some? {
      var field := recv.value;
      if |field.names| > 0 {
        receiver := field.names[0];
      }
      var recvType := ConvertType(field.typ);
      if HasPrefix(recvType, "ref ") {
        recvType := TrimPrefix(recvType, "ref ");
      }
      receiver := "this " + recvType;
    }
  }

  /** The `fn name(params) -> R:` line of `convertFuncDecl`. */
  method FuncSignature(f: Decl) returns (header: string)
    requires f.FuncDecl?
    ensures header == FuncHeader(f)
  {
    var params := ConvertParams(f.params);
    var returnType := "";
    if |f.results| > 0 {
      if |f.results| == 1 && |f.results[0].names| <= 1 {
        returnType := " -> " + ConvertType(f.results[0].typ);
      }
    }
    header := "fn " + f.name + "(" + Join(params, ", ") + ")" + returnType + ":";
  }

  /** The parameter list of a field list: `T name` for every name of every field, in order. */
  method ConvertParams(fields: seq<Field>) returns (params: seq<string>)
    ensures params == ParamList(fields)
  {
    params := [];
    var i := 0;
    while i < |fields|
      invariant 0 <= i <= |fields|
      invariant params == ParamList(fields[..i])
    {
      assert fields[..i + 1][..i] == fields[..i];
      var field := fields[i];
      var paramType := ConvertType(field.typ);
      var before := params;
      var j := 0;
      while j < |field.names|
        invariant 0 <= j <= |field.names|
        invariant params == before + FieldParams(field)[..j]
      {
        assert FieldParams(field)[..j + 1] == FieldParams(field)[..j] + [paramType + " " + field.names[j]];
        params := params + [paramType + " " + field.names[j]];
        j := j + 1;
      }
      assert FieldParams(field)[..|field.names|] == FieldParams(field);
      i := i + 1;
    }
    assert fields[..|fields|] == fields;
  }

  /** A fresh translator run over a declaration list (`NewScarConverter` then `ConvertFile`). */
  method Convert(decls: seq<Decl>) returns (r: string)
    ensures r == Translate(decls)
  {
    var c := new ScarConverter();
    r := c.ConvertFile(decls);
    ghost var imps := FileImports(decls);
    assert c.imports == imps by {
      assert [] + imps == imps;
    }
    ghost var lines := ImportBlock(imps, 0) + DeclsLines(decls, 0);
    assert c.output == lines by {
      AppendAssoc([], ImportBlock(imps, 0), DeclsLines(decls, 0));
      assert [] + lines == lines;
    }
  }
}
