/**
  What the translation promises about the lines it writes, stated over the
  specification functions of `Emit` (the `Converter` methods are proved to
  append exactly those lines).
 */
module Properties {
  import opened Syntax
  import opened Strings
  import opened Output
  import opened Exprs
  import opened Imports
  import opened Emit

  // ---------------------------------------------------------------------
  // Depth: a statement's lines depend on the entry depth only by a shift

  lemma ShiftOne(l: Line, k: nat)
    ensures Shift([l], k) == [Line(l.depth + k, l.text)]
  {
  }

  lemma ShiftConcat(a: seq<Line>, b: seq<Line>, k: nat)
    ensures Shift(a + b, k) == Shift(a, k) + Shift(b, k)
  {
    var l, r := Shift(a + b, k), Shift(a, k) + Shift(b, k);
    assert |l| == |r|;
    forall i | 0 <= i < |l|
      ensures l[i] == r[i]
    {
      if i < |a| {
        assert (a + b)[i] == a[i];
      } else {
        assert (a + b)[i] == b[i - |a|];
      }
    }
  }

  /** The header of a range loop moves with the entry depth. */
  lemma RangeHeaderShift(key: Expr, val: Expr, source: Expr, d: nat, k: nat)
    ensures RangeHeader(key, val, source, d + k) == Shift(RangeHeader(key, val, source, d), k)
  {
    var h := RangeHeader(key, val, source, d);
    if h != [] {
      ShiftOne(h[0], k);
    }
  }

  lemma {:induction false} ValueNamesShift(names: seq<string>, typ: string, values: seq<Expr>, n: nat, d: nat, k: nat)
    requires n <= |names|
    ensures ValueNameLines(names, typ, values, n, d + k) == Shift(ValueNameLines(names, typ, values, n, d), k)
  {
    if n > 0 {
      ValueNamesShift(names, typ, values, n - 1, d, k);
      ValueNameShift(names[n - 1], typ, values, n - 1, d, k);
      ShiftConcat(ValueNameLines(names, typ, values, n - 1, d), ValueNameLine(names[n - 1], typ, values, n - 1, d), k);
    }
  }

  lemma ValueNameShift(name: string, typ: string, values: seq<Expr>, i: nat, d: nat, k: nat)
    ensures ValueNameLine(name, typ, values, i, d + k) == Shift(ValueNameLine(name, typ, values, i, d), k)
  {
    var last := ValueNameLine(name, typ, values, i, d);
    if last != [] {
      ShiftOne(last[0], k);
    }
  }

  lemma {:induction false} ValueSpecsShift(specs: seq<Spec>, d: nat, k: nat)
    ensures ValueSpecsLines(specs, d + k) == Shift(ValueSpecsLines(specs, d), k)
  {
    if specs != [] {
      var front, last := specs[..|specs| - 1], specs[|specs| - 1];
      ValueSpecsShift(front, d, k);
      if last.ValueSpec? {
        ValueNamesShift(last.names, SpecType(last), last.values, |last.names|, d, k);
        ShiftConcat(ValueSpecsLines(front, d), ValueSpecLines(last, d), k);
      } else {
        ShiftConcat(ValueSpecsLines(front, d), [], k);
      }
    }
  }

  /**
    A statement entered `k` levels deeper writes the same lines, each `k`
    levels deeper: nothing but the indentation depends on where it sits.
   */
  lemma {:induction false} StmtShift(s: Stmt, d: nat, k: nat)
    ensures StmtLines(s, d + k) == Shift(StmtLines(s, d), k)
    decreases s, 1
  {
    match s
    case DeclStmt(specs) => ValueSpecsShift(specs, d, k);
    case If(_, _, _, _) => IfChainShift(s, d, k, "if");
    case Block(list) => BlockShift(list, d, k);
    case For(_, _, _, _) => NestedShift(s, d, k);
    case Range(_, _, _, _) => NestedShift(s, d, k);
    case Switch(_, _, _) => SwitchShift(s, d, k);
    case CaseClause(_, _) => NestedShift(s, d, k);
    case _ => LeafShift(s, d, k);
  }

  /** The statements that write at most one line. */
  predicate IsLeaf(s: Stmt)
  {
    !(s.DeclStmt? || s.If? || s.Block? || s.For? || s.Range? || s.Switch? || s.CaseClause?)
  }

  lemma LeafShift(s: Stmt, d: nat, k: nat)
    requires IsLeaf(s)
    ensures StmtLines(s, d + k) == Shift(StmtLines(s, d), k)
  {
    var lines := StmtLines(s, d);
    assert |lines| <= 1 && forall i :: 0 <= i < |lines| ==> lines[i].depth == d;
    if lines != [] {
      ShiftOne(lines[0], k);
    }
  }

  /** The statements with a header and a body one level deeper: `for`, range and `case`. */
  lemma {:induction false} NestedShift(s: Stmt, d: nat, k: nat)
    requires s.For? || s.Range? || s.CaseClause?
    ensures StmtLines(s, d + k) == Shift(StmtLines(s, d), k)
    decreases s, 0
  {
    match s
    case For(_, _, _, body) =>
      BlockShift(body, d + 1, k);
      ShiftOne(Line(d, ForHeader(s)), k);
      ShiftConcat([Line(d, ForHeader(s))], BlockLines(body, d + 1), k);
    case Range(key, val, source, body) =>
      BlockShift(body, d + 1, k);
      RangeHeaderShift(key, val, source, d, k);
      ShiftConcat(RangeHeader(key, val, source, d), BlockLines(body, d + 1), k);
    case CaseClause(labels, body) =>
      BlockShift(body, d + 1, k);
      ShiftOne(Line(d, CaseHeader(labels)), k);
      ShiftConcat([Line(d, CaseHeader(labels))], BlockLines(body, d + 1), k);
  }

  lemma {:induction false} SwitchShift(s: Stmt, d: nat, k: nat)
    requires s.Switch?
    ensures StmtLines(s, d + k) == Shift(StmtLines(s, d), k)
    decreases s, 0
  {
    var init := StmtLines(s.switchInit, d);
    var h := [Line(d, if s.tag != NoExpr then "switch " + ConvertExpr(s.tag) + ":" else "switch:")];
    StmtShift(s.switchInit, d, k);
    ShiftOne(h[0], k);
    BlockShift(s.switchBody, d + 1, k);
    ShiftConcat(init, h, k);
    ShiftConcat(init + h, BlockLines(s.switchBody, d + 1), k);
  }

  lemma {:induction false} BlockShift(list: seq<Stmt>, d: nat, k: nat)
    ensures BlockLines(list, d + k) == Shift(BlockLines(list, d), k)
    decreases list
  {
    if list != [] {
      BlockShift(list[..|list| - 1], d, k);
      StmtShift(list[|list| - 1], d, k);
      ShiftConcat(BlockLines(list[..|list| - 1], d), StmtLines(list[|list| - 1], d), k);
    }
  }

  lemma {:induction false} IfChainShift(s: Stmt, d: nat, k: nat, keyword: string)
    requires s.If?
    ensures IfChainLines(s, d + k, keyword) == Shift(IfChainLines(s, d, keyword), k)
    decreases s, 0
  {
    var init, h := StmtLines(s.init, d), [Line(d, keyword + " " + ConvertExpr(s.cond) + ":")];
    var body, els := BlockLines(s.body, d + 1), ElseLines(s.els, d);
    StmtShift(s.init, d, k);
    ShiftOne(h[0], k);
    BlockShift(s.body, d + 1, k);
    ElseShift(s.els, d, k);
    ShiftConcat(init, h, k);
    ShiftConcat(init + h, body, k);
    ShiftConcat(init + h + body, els, k);
  }

  lemma {:induction false} ElseShift(els: Stmt, d: nat, k: nat)
    ensures ElseLines(els, d + k) == Shift(ElseLines(els, d), k)
    decreases els, 2
  {
    match els
    case If(_, _, _, _) => IfChainShift(els, d, k, "elif");
    case Block(list) =>
      BlockShift(list, d + 1, k);
      ShiftOne(Line(d, "else:"), k);
      ShiftConcat([Line(d, "else:")], BlockLines(list, d + 1), k);
    case _ =>
  }

  /** Indent balance on the written lines: nothing a statement writes lies shallower than where it started. */
  lemma StmtDepth(s: Stmt, d: nat)
    ensures AllAtLeast(StmtLines(s, d), d)
  {
    StmtShift(s, 0, d);
  }

  /** Every line of a block lies at least as deep as the block. */
  lemma BlockDepth(list: seq<Stmt>, d: nat)
    ensures AllAtLeast(BlockLines(list, d), d)
  {
    BlockShift(list, 0, d);
  }

  /** The statements of a block are emitted one after another, each independently. */
  lemma {:induction false} BlockConcat(a: seq<Stmt>, b: seq<Stmt>, d: nat)
    ensures BlockLines(a + b, d) == BlockLines(a, d) + BlockLines(b, d)
  {
    if b == [] {
      assert a + b == a;
    } else {
      var ab := a + b;
      assert ab[..|ab| - 1] == a + b[..|b| - 1];
      assert ab[|ab| - 1] == b[|b| - 1];
      BlockConcat(a, b[..|b| - 1], d);
      AppendAssoc(BlockLines(a, d), BlockLines(b[..|b| - 1], d), StmtLines(b[|b| - 1], d));
    }
  }

  // ---------------------------------------------------------------------
  // The if/else chain

  /**
    One link of an if/else chain: the statement written before its header
    (an `if` or `elif` init; nothing for `else:`), the header text and the body.
   */
  datatype Link = Link(init: Stmt, header: string, body: seq<Stmt>)

  /** The links of a chain in order: the statement itself, each chained else-if, and a closing `else` block. */
  function ChainLinks(s: Stmt, keyword: string): (r: seq<Link>)
    requires s.If?
    ensures |r| >= 1
    decreases s, 0
  {
    [Link(s.init, keyword + " " + ConvertExpr(s.cond) + ":", s.body)] + ElseLinks(s.els)
  }

  function ElseLinks(els: Stmt): (r: seq<Link>)
    decreases els, 1
  {
    match els
    case If(_, _, _, _) => ChainLinks(els, "elif")
    case Block(list) => [Link(NoStmt, "else:", list)]
    case _ => []
  }

  /**
    Links laid out flat at depth `d`: each link's init, its header at depth
    `d`, then its body as it renders on its own, moved `d + 1` levels deeper.
   */
  function FlatLines(links: seq<Link>, d: nat): (r: seq<Line>)
  {
    if links == [] then []
    else StmtLines(links[0].init, d) + [Line(d, links[0].header)]
         + Shift(BlockLines(links[0].body, 0), d + 1) + FlatLines(links[1..], d)
  }

  /** What a flat layout writes at depth `d`: for each link, its init's texts at that depth, then its header. */
  function FlatTexts(links: seq<Link>, d: nat): (r: seq<string>)
  {
    if links == [] then []
    else TextsAt(StmtLines(links[0].init, d), d) + [links[0].header] + FlatTexts(links[1..], d)
  }

  /** After the first link, every header is `elif c:`, except a closing `else:`, which has no init. */
  lemma {:induction false} ElseLinksShape(els: Stmt)
    ensures var r := ElseLinks(els);
            forall k :: 0 <= k < |r| ==>
              HasPrefix(r[k].header, "elif ") || (k == |r| - 1 && r[k].header == "else:" && r[k].init == NoStmt)
    decreases els
  {
    if els.If? {
      var p, c := "elif" + " ", ConvertExpr(els.cond);
      assert p == "elif ";
      assert HasPrefix(p, p);
      PrefixExtend(p, c, p);
      PrefixExtend(p + c, ":", p);
      ElseLinksShape(els.els);
      assert ElseLinks(els) == [Link(els.init, p + c + ":", els.body)] + ElseLinks(els.els);
    }
  }

  lemma TextsAtOne(l: Line, d: nat)
    ensures TextsAt([l], d) == if l.depth == d then [l.text] else []
  {
    assert [l][..0] == [];
  }

  /** A header line followed by lines all deeper contributes just the header at its depth. */
  lemma HeaderThenDeeper(h: Line, body: seq<Line>, d: nat)
    requires h.depth == d && AllAtLeast(body, d + 1)
    ensures TextsAt([h] + body, d) == [h.text]
  {
    TextsAtConcat([h], body, d);
    TextsAtOne(h, d);
    TextsAtDeeper(body, d);
  }

  /**
    An if-chain is written flat: each `elif` and the `else` at the chain's
    own depth (never nested deeper), each init just before its header, and
    every body exactly one level below the chain.
   */
  lemma {:induction false} ChainLayout(s: Stmt, d: nat, keyword: string)
    requires s.If?
    ensures IfChainLines(s, d, keyword) == FlatLines(ChainLinks(s, keyword), d)
    decreases s, 0
  {
    assert ChainLinks(s, keyword)[1..] == ElseLinks(s.els);
    BlockShift(s.body, 0, d + 1);
    ElseLayout(s.els, d);
  }

  lemma {:induction false} ElseLayout(els: Stmt, d: nat)
    ensures ElseLines(els, d) == FlatLines(ElseLinks(els), d)
    decreases els, 1
  {
    match els
    case If(_, _, _, _) =>
      assert ElseLines(els, d) == IfChainLines(els, d, "elif");
      assert ElseLinks(els) == ChainLinks(els, "elif");
      ChainLayout(els, d, "elif");
    case Block(list) =>
      var l := Link(NoStmt, "else:", list);
      assert ElseLinks(els) == [l] && [l][1..] == [];
      assert StmtLines(NoStmt, d) == [];
      assert FlatLines([l], d) == [] + [Line(d, "else:")] + Shift(BlockLines(list, 0), d + 1) + [];
      BlockShift(list, 0, d + 1);
    case _ =>
  }

  /** A shifted layout lies at least as deep as the shift. */
  lemma ShiftDeeper(lines: seq<Line>, k: nat)
    ensures AllAtLeast(Shift(lines, k), k)
  {
  }

  /** At its own depth a flat layout writes only the inits' texts and the headers: the bodies all lie deeper. */
  lemma {:induction false} FlatTextsAt(links: seq<Link>, d: nat)
    ensures TextsAt(FlatLines(links, d), d) == FlatTexts(links, d)
    decreases |links|
  {
    if links != [] {
      var l := links[0];
      var init, h, body := StmtLines(l.init, d), Line(d, l.header), Shift(BlockLines(l.body, 0), d + 1);
      assert FlatLines(links, d) == init + ([h] + body) + FlatLines(links[1..], d);
      ShiftDeeper(BlockLines(l.body, 0), d + 1);
      HeaderThenDeeper(h, body, d);
      TextsAtConcat(init, [h] + body, d);
      TextsAtConcat(init + ([h] + body), FlatLines(links[1..], d), d);
      FlatTextsAt(links[1..], d);
    }
  }

  /**
    An `if` statement, with or without init statements on any of its links,
    writes its links flat; at its own depth the only texts are the inits'
    and the `if c:`, `elif c:` and `else:` headers, in order.
   */
  lemma IfElseChain(s: Stmt, d: nat)
    requires s.If?
    ensures StmtLines(s, d) == FlatLines(ChainLinks(s, "if"), d)
    ensures TextsAt(StmtLines(s, d), d) == FlatTexts(ChainLinks(s, "if"), d)
  {
    ChainLayout(s, d, "if");
    FlatTextsAt(ChainLinks(s, "if"), d);
  }

  // ---------------------------------------------------------------------
  // The for-loop header

  /** A non-empty run of characters none of which is white space. */
  predicate Word(w: string)
  {
    w != [] && forall k :: 0 <= k < |w| ==> !IsSpace(w[k])
  }

  lemma WordHasNoBlank(w: string)
    requires Word(w)
    ensures ' ' !in w
  {
    forall k | 0 <= k < |w|
      ensures w[k] != ' '
    {
      assert !IsSpace(w[k]);
    }
  }

  /** A text rendered on a line of its own at depth 0 and trimmed comes back unchanged. */
  lemma TrimRenderedLine(t: string)
    requires t == [] || (!IsSpace(t[0]) && !IsSpace(t[|t| - 1]))
    ensures TrimSpace(Render([Line(0, t)])) == t
  {
    RenderOne(Line(0, t));
    assert Indent(0) == [];
    assert Render([Line(0, t)]) == t + "\n";
    TrimSpaceNewline(t);
  }

  /** A statement that writes one line `t` converts to the string `t` when `t` has no outer white space. */
  lemma OneLineString(s: Stmt, t: string)
    requires StmtLines(s, 0) == [Line(0, t)]
    requires t == [] || (!IsSpace(t[0]) && !IsSpace(t[|t| - 1]))
    ensures StmtString(s) == t
  {
    TrimRenderedLine(t);
  }

  /** `i := v` splits on blanks into `i`, `=` and the words of `v`. */
  lemma SplitDefine(i: string, v: string)
    requires Word(i)
    ensures Split(i + " = " + v, ' ') == [i, "="] + Split(v, ' ')
  {
    WordHasNoBlank(i);
    assert i + " = " + v == i + [' '] + ("=" + [' '] + v);
    SplitAppend(i, "=" + [' '] + v, ' ');
    SplitAppend("=", v, ' ');
  }

  /** A one-target assignment writes one line, at the entry depth. */
  lemma AssignLine(x: Expr, tok: string, r: Expr, d: nat)
    ensures StmtLines(Assign([x], tok, [r]), d) == [Line(d, AssignText(ConvertExpr(x), tok, ConvertExpr(r)))]
  {
  }

  /** A statement written as the one line `i = v` converts to that string. */
  lemma DefineText(s: Stmt, i: string, v: string)
    requires Word(i) && v != [] && !IsSpace(v[|v| - 1])
    requires StmtLines(s, 0) == [Line(0, i + " = " + v)]
    ensures StmtString(s) == i + " = " + v
  {
    var t := i + " = " + v;
    assert t[0] == i[0] && t[|t| - 1] == v[|v| - 1];
    OneLineString(s, t);
  }

  lemma DefineLine(i: string, init: Expr)
    ensures StmtLines(Assign([Ident(i)], ":=", [init]), 0) == [Line(0, i + " = " + ConvertExpr(init))]
  {
    AssignLine(Ident(i), ":=", init, 0);
  }

  /** The rendered init `i = v` of a short variable declaration `i := v` whose `v` does not end in white space. */
  lemma DefineString(i: string, init: Expr)
    requires Word(i)
    requires var v := ConvertExpr(init); v != [] && !IsSpace(v[|v| - 1])
    ensures StmtString(Assign([Ident(i)], ":=", [init])) == i + " = " + ConvertExpr(init)
  {
    var v, s := ConvertExpr(init), Assign([Ident(i)], ":=", [init]);
    assert v != [] && !IsSpace(v[|v| - 1]);
    DefineLine(i, init);
    assert StmtLines(s, 0) == [Line(0, i + " = " + v)];
    DefineText(s, i, v);
  }

  /** The rendered init `i = n - 1` of `i := n - 1`. */
  lemma DifferenceString(i: string, n: string)
    requires Word(i) && Word(n)
    ensures StmtString(Assign([Ident(i)], ":=", [Binary(Ident(n), "-", BasicLit("INT", "1"))])) == i + " = " + (n + " - 1")
  {
    var init := Binary(Ident(n), "-", BasicLit("INT", "1"));
    assert ConvertExpr(init) == n + " - 1";
    AssignLine(Ident(i), ":=", init, 0);
    DefineText(Assign([Ident(i)], ":=", [init]), i, n + " - 1");
  }

  /** The three-clause header of an init `i = v` with a one-word `v` names `i`. */
  lemma ThreeClauseWord(i: string, v: string, cond: string, post: string)
    requires Word(i) && Word(v)
    ensures ThreeClauseHeader(i + " = " + v, cond, post) == "for " + i + "; " + cond + "; " + post + ":"
  {
    SplitDefine(i, v);
    WordHasNoBlank(v);
    SplitFree(v, ' ');
  }

  /** The three-clause header of an init `i = n - 1` names `n`. */
  lemma ThreeClauseDifference(i: string, n: string, cond: string, post: string)
    requires Word(i) && Word(n)
    ensures ThreeClauseHeader(i + " = " + (n + " - 1"), cond, post) == "for " + n + "; " + cond + "; " + post + ":"
  {
    var v := n + " - 1";
    SplitDefine(i, v);
    WordHasNoBlank(n);
    assert v == n + [' '] + ("-" + [' '] + "1");
    SplitAppend(n, "-" + [' '] + "1", ' ');
    SplitAppend("-", "1", ' ');
    SplitFree("1", ' ');
  }

  /** With all three clauses present, the header is built from the init, condition and post strings. */
  lemma ForThreeClauses(s: Stmt)
    requires s.For? && s.forInit != NoStmt && s.forCond != NoExpr && s.post != NoStmt
    ensures ForHeader(s) == ThreeClauseHeader(StmtString(s.forInit), ConvertExpr(s.forCond), StmtString(s.post))
  {
  }

  /**
    A loop with init `i := v` (a one-word initial value), a condition and a
    post statement gets a header naming the loop variable:
    `for i; <cond>; <post>:`.
   */
  lemma ForLoopVariable(s: Stmt, i: string, v: Expr)
    requires s.For? && s.forInit == Assign([Ident(i)], ":=", [v])
    requires Word(i) && Word(ConvertExpr(v))
    requires s.forCond != NoExpr && s.post != NoStmt
    ensures ForHeader(s) == "for " + i + "; " + ConvertExpr(s.forCond) + "; " + StmtString(s.post) + ":"
  {
    ForThreeClauses(s);
    DefineString(i, v);
    ThreeClauseWord(i, ConvertExpr(v), ConvertExpr(s.forCond), StmtString(s.post));
  }

  /**
    The loop variable is recovered as the third-from-last blank-separated
    word of the rendered init, so an initial value of several words
    displaces it: `i := n - 1` gives `for n; ...`.
   */
  lemma ForLoopVariableDisplaced(s: Stmt, i: string, n: string)
    requires s.For? && s.forInit == Assign([Ident(i)], ":=", [Binary(Ident(n), "-", BasicLit("INT", "1"))])
    requires Word(i) && Word(n)
    requires s.forCond != NoExpr && s.post != NoStmt
    ensures ForHeader(s) == "for " + n + "; " + ConvertExpr(s.forCond) + "; " + StmtString(s.post) + ":"
  {
    ForThreeClauses(s);
    DifferenceString(i, n);
    ThreeClauseDifference(i, n, ConvertExpr(s.forCond), StmtString(s.post));
  }

  lemma IncDecLine(x: Expr, tok: string, d: nat)
    ensures StmtLines(IncDec(x, tok), d) == [Line(d, IncDecText(x, tok))]
  {
  }

  /** `i++` converts to the string `i = i + 1`. */
  lemma IncrementString(i: string)
    requires Word(i)
    ensures StmtString(IncDec(Ident(i), "++")) == i + " = " + (i + " + 1")
  {
    IncDecLine(Ident(i), "++", 0);
    assert IncDecText(Ident(i), "++") == i + " = " + (i + " + 1");
    DefineText(IncDec(Ident(i), "++"), i, i + " + 1");
  }

  /** A counting loop `for i := v; <cond>; i++` gets the header `for i; <cond>; i = i + 1:`. */
  lemma ForCountingLoop(s: Stmt, i: string, v: Expr)
    requires s.For? && s.forInit == Assign([Ident(i)], ":=", [v]) && s.post == IncDec(Ident(i), "++")
    requires Word(i) && Word(ConvertExpr(v)) && s.forCond != NoExpr
    ensures ForHeader(s) == "for " + i + "; " + ConvertExpr(s.forCond) + "; " + (i + " = " + (i + " + 1")) + ":"
  {
    ForLoopVariable(s, i, v);
    IncrementString(i);
  }

  /** A three-clause loop whose init renders as fewer than three words gets a `while` header. */
  lemma ThreeClauseShort(init: string, cond: string, post: string)
    requires |Split(init, ' ')| < 3
    ensures ThreeClauseHeader(init, cond, post) == "while " + cond + ":"
  {
  }

  /**
    Without all three clauses the loop is a `while`: on its condition, or
    `while true` when there is none. With all three, an init that renders as
    fewer than three words also gives `while`, and the post statement is lost.
   */
  lemma ForWhile(s: Stmt)
    requires s.For?
    ensures s.forCond == NoExpr ==> ForHeader(s) == "while true:"
    ensures s.forCond != NoExpr && (s.forInit == NoStmt || s.post == NoStmt)
            ==> ForHeader(s) == "while " + ConvertExpr(s.forCond) + ":"
    ensures s.forCond != NoExpr && |Split(StmtString(s.forInit), ' ')| < 3
            ==> ForHeader(s) == "while " + ConvertExpr(s.forCond) + ":"
  {
    if s.forCond != NoExpr && s.forInit != NoStmt && s.post != NoStmt && |Split(StmtString(s.forInit), ' ')| < 3 {
      ThreeClauseShort(StmtString(s.forInit), ConvertExpr(s.forCond), StmtString(s.post));
    }
  }

  /** An init of one word gives a `while` header. */
  lemma ThreeClauseOneWord(init: string, cond: string, post: string)
    requires Word(init)
    ensures ThreeClauseHeader(init, cond, post) == "while " + cond + ":"
  {
    WordHasNoBlank(init);
    SplitFree(init, ' ');
  }

  /** An expression statement converts to its expression's text when that text has no outer white space. */
  lemma ExprString(x: Expr)
    requires var t := ConvertExpr(x); t == [] || (!IsSpace(t[0]) && !IsSpace(t[|t| - 1]))
    ensures StmtString(ExprStmt(x)) == ConvertExpr(x)
  {
    var c := ConvertExpr(x);
    assert StmtLines(ExprStmt(x), 0) == [Line(0, c)];
    OneLineString(ExprStmt(x), c);
  }

  /** An expression statement (a call, say) whose text is one word, as the init, turns a three-clause loop into a `while` loop. */
  lemma ForCallInit(s: Stmt)
    requires s.For? && s.forInit.ExprStmt? && Word(ConvertExpr(s.forInit.x)) && s.forCond != NoExpr
    ensures ForHeader(s) == "while " + ConvertExpr(s.forCond) + ":"
  {
    if s.post != NoStmt {
      ForThreeClauses(s);
      ExprString(s.forInit.x);
      ThreeClauseOneWord(ConvertExpr(s.forInit.x), ConvertExpr(s.forCond), StmtString(s.post));
    }
  }

  /** Two words written together form one word. */
  lemma WordConcat(a: string, b: string)
    requires Word(a) && Word(b)
    ensures Word(a + b)
  {
    forall k | 0 <= k < |a + b|
      ensures !IsSpace((a + b)[k])
    {
      if k < |a| {
        assert (a + b)[k] == a[k];
      } else {
        assert (a + b)[k] == b[k - |a|];
      }
    }
  }

  /** A plain call `f(a, b, c)` converts to three blank-separated words: `f(a,`, `b,` and `c)`. */
  lemma CallWords(f: string, a: string, b: string, c: string)
    requires !IsBuiltinName(f)
    ensures ConvertExpr(Call(Ident(f), [Ident(a), Ident(b), Ident(c)]))
         == (f + "(" + a + ",") + " " + (b + ",") + " " + (c + ")")
  {
    var args := [Ident(a), Ident(b), Ident(c)];
    GenericCall(Ident(f), args);
    assert ConvertExprs(args) == [a, b, c];
    assert [a, b, c][1..] == [b, c] && [b, c][1..] == [c];
    assert Join([a, b, c], ", ") == a + ", " + (b + ", " + c);
  }

  /** An init text of exactly three words yields its first word as the loop variable. */
  lemma ThreeClauseThreeWords(w1: string, w2: string, w3: string, cond: string, post: string)
    requires Word(w1) && Word(w2) && Word(w3)
    ensures ThreeClauseHeader(w1 + " " + w2 + " " + w3, cond, post) == "for " + w1 + "; " + cond + "; " + post + ":"
  {
    WordHasNoBlank(w1);
    WordHasNoBlank(w2);
    WordHasNoBlank(w3);
    assert w1 + " " + w2 + " " + w3 == w1 + [' '] + (w2 + [' '] + w3);
    SplitAppend(w1, w2 + [' '] + w3, ' ');
    SplitAppend(w2, w3, ' ');
    SplitFree(w3, ' ');
  }

  /**
    A call whose text has several words, as the init, displaces the loop
    variable like any other init: `for f(a, b, c); k; p` gets the header
    `for f(a,; k; p:`.
   */
  lemma ForCallInitDisplaced(s: Stmt, f: string, a: string, b: string, c: string)
    requires s.For? && s.forInit == ExprStmt(Call(Ident(f), [Ident(a), Ident(b), Ident(c)]))
    requires Word(f) && !IsBuiltinName(f) && Word(a) && Word(b) && Word(c)
    requires s.forCond != NoExpr && s.post != NoStmt
    ensures ForHeader(s) == "for " + (f + "(" + a + ",") + "; " + ConvertExpr(s.forCond) + "; " + StmtString(s.post) + ":"
  {
    var w1, w2, w3 := f + "(" + a + ",", b + ",", c + ")";
    CallWords(f, a, b, c);
    WordConcat(f, "(");
    WordConcat(f + "(", a);
    WordConcat(f + "(" + a, ",");
    WordConcat(b, ",");
    WordConcat(c, ")");
    var t := w1 + " " + w2 + " " + w3;
    assert t[0] == f[0] && t[|t| - 1] == ')';
    ExprString(s.forInit.x);
    ForThreeClauses(s);
    ThreeClauseThreeWords(w1, w2, w3, ConvertExpr(s.forCond), StmtString(s.post));
  }

  // ---------------------------------------------------------------------
  // Assignment and increment

  /** An assignment writes a line exactly when it has one target and one value. */
  lemma AssignWrites(lhs: seq<Expr>, tok: string, rhs: seq<Expr>, d: nat)
    ensures |StmtLines(Assign(lhs, tok, rhs), d)| == if |lhs| == 1 && |rhs| == 1 then 1 else 0
  {
  }

  /** The text of `x op= r` for `op` one of `+`, `-`: the assignment of the binary expression. */
  lemma CompoundText(t: string, op: string, u: string)
    requires op == "+" || op == "-"
    ensures AssignText(t, op + "=", u) == AssignText(t, "=", t + " " + op + " " + u)
  {
    if op == "+" {
      assert op + "=" == "+=";
      assert t + " = " + t + " + " + u == t + " = " + (t + " " + op + " " + u);
    } else {
      assert op + "=" == "-=";
      assert t + " = " + t + " - " + u == t + " = " + (t + " " + op + " " + u);
    }
  }

  /** `x += r` and `x -= r` are written as the plain assignment of `x + r` and `x - r`. */
  lemma CompoundAssign(x: Expr, op: string, r: Expr, d: nat)
    requires op == "+" || op == "-"
    ensures StmtLines(Assign([x], op + "=", [r]), d) == StmtLines(Assign([x], "=", [Binary(x, op, r)]), d)
  {
    AssignLine(x, op + "=", r, d);
    AssignLine(x, "=", Binary(x, op, r), d);
    CompoundText(ConvertExpr(x), op, ConvertExpr(r));
  }

  /** Every other assignment token (`=`, `:=`, `*=`, `<<=`, ...) is written as a plain `=`. */
  lemma OtherAssignToken(x: Expr, tok: string, r: Expr, d: nat)
    requires tok != "+=" && tok != "-="
    ensures StmtLines(Assign([x], tok, [r]), d) == StmtLines(Assign([x], "=", [r]), d)
  {
  }

  /** `x++` is written as `x += 1` and `x--` as `x -= 1`. */
  lemma IncDecAsAssign(x: Expr, tok: string, d: nat)
    requires tok == "++" || tok == "--"
    ensures StmtLines(IncDec(x, tok), d)
            == StmtLines(Assign([x], if tok == "++" then "+=" else "-=", [BasicLit("INT", "1")]), d)
  {
    var t := ConvertExpr(x);
    AssignLine(x, if tok == "++" then "+=" else "-=", BasicLit("INT", "1"), d);
    if tok == "++" {
      assert t + " = " + t + " + 1" == t + " = " + t + " + " + "1";
    } else {
      assert t + " = " + t + " - 1" == t + " = " + t + " - " + "1";
    }
  }

  // ---------------------------------------------------------------------
  // Other statements

  /** Expression statements, returns, increments and the two placeholders write exactly one line, at the entry depth. */
  lemma OneLineStatements(s: Stmt, d: nat)
    requires s.ExprStmt? || s.Return? || s.IncDec? || s.TypeSwitch? || s.OtherStmt?
    ensures |StmtLines(s, d)| == 1 && StmtLines(s, d)[0].depth == d
  {
  }

  /** Only `break` and `continue` are written; `goto` and `fallthrough` vanish. */
  lemma BranchWrites(tok: string, d: nat)
    ensures StmtLines(Branch(tok), d) == [] <==> tok != "break" && tok != "continue"
  {
  }

  /**
    A range loop without a key writes no header, but still writes its body,
    one level deeper; its value and source do not matter.
   */
  lemma RangeWithoutKey(s: Stmt, d: nat)
    requires s.Range? && s.key == NoExpr
    ensures StmtLines(s, d) == Shift(BlockLines(s.rangeBody, d), 1)
  {
    BlockShift(s.rangeBody, d, 1);
    assert StmtLines(s, d) == [] + BlockLines(s.rangeBody, d + 1);
  }

  // ---------------------------------------------------------------------
  // Value specs

  function Min(a: nat, b: nat): nat
  {
    if a <= b then a else b
  }

  lemma {:induction false} ValueNamesCount(names: seq<string>, typ: string, values: seq<Expr>, n: nat, d: nat)
    requires n <= |names|
    ensures |ValueNameLines(names, typ, values, n, d)| == if typ != "" then n else Min(n, |values|)
  {
    if n > 0 {
      ValueNamesCount(names, typ, values, n - 1, d);
    }
  }

  /**
    A typed spec writes one line per name (`T n = v` or `T n`); an untyped
    one writes `n = v` for the names that have a value and nothing for the rest.
   */
  lemma ValueSpecCount(spec: Spec, d: nat)
    requires spec.ValueSpec?
    ensures |ValueSpecLines(spec, d)| == if SpecType(spec) != "" then |spec.names| else Min(|spec.names|, |spec.values|)
  {
    ValueNamesCount(spec.names, SpecType(spec), spec.values, |spec.names|, d);
  }

  /** A top-level `var` or `const` group writes what the same local declaration writes, then one blank line. */
  lemma TopLevelValues(tok: DeclTok, specs: seq<Spec>, d: nat)
    requires tok == VarTok || tok == ConstTok
    ensures DeclLines(GenDecl(tok, specs), d) == StmtLines(DeclStmt(specs), d) + [Line(d, "")]
  {
  }

  // ---------------------------------------------------------------------
  // Function declarations

  /** The number of names a field list declares. */
  function NameCount(fields: seq<Field>): nat
  {
    if fields == [] then 0 else NameCount(fields[..|fields| - 1]) + |fields[|fields| - 1].names|
  }

  /** The parameter list holds one `T name` per declared name, and nothing else. */
  lemma {:induction false} ParamListShape(fields: seq<Field>)
    ensures |ParamList(fields)| == NameCount(fields)
    ensures forall k, j :: 0 <= k < |fields| && 0 <= j < |fields[k].names|
              ==> ConvertType(fields[k].typ) + " " + fields[k].names[j] in ParamList(fields)
  {
    if fields != [] {
      var front, last := fields[..|fields| - 1], fields[|fields| - 1];
      ParamListShape(front);
      forall k, j | 0 <= k < |fields| && 0 <= j < |fields[k].names|
        ensures ConvertType(fields[k].typ) + " " + fields[k].names[j] in ParamList(fields)
      {
        if k < |front| {
          assert fields[k] == front[k];
        } else {
          assert FieldParams(last)[j] == ConvertType(fields[k].typ) + " " + fields[k].names[j];
        }
      }
    }
  }

  /** The ` -> R` suffix appears exactly for one result field with at most one name. */
  lemma ReturnSuffixRule(results: seq<Field>)
    ensures ReturnSuffix(results) != "" <==> |results| == 1 && |results[0].names| <= 1
    ensures ReturnSuffix(results) != "" ==> HasPrefix(ReturnSuffix(results), " -> ")
  {
  }

  /** The header of a function is `fn name(...)`, ending in `:`. */
  lemma FuncHeaderShape(f: Decl)
    requires f.FuncDecl?
    ensures HasPrefix(FuncHeader(f), "fn " + f.name + "(") && FuncHeader(f)[|FuncHeader(f)| - 1] == ':'
  {
    var p := "fn " + f.name + "(";
    var b := p + Join(ParamList(f.params), ", ");
    assert HasPrefix(p, p);
    PrefixExtend(p, Join(ParamList(f.params), ", "), p);
    PrefixExtend(b, ")", p);
    PrefixExtend(b + ")", ReturnSuffix(f.results), p);
    PrefixExtend(b + ")" + ReturnSuffix(f.results), ":", p);
  }

  /**
    Any function but a receiver-less `main` writes its `fn` header, then
    its body at least one level deeper, then a blank line.
   */
  lemma FuncDeclShape(f: Decl, d: nat)
    requires f.FuncDecl? && !(f.name == "main" && f.recv.None?)
    ensures var r := FuncDeclLines(f, d);
            && |r| >= 2 && r[0] == Line(d, FuncHeader(f)) && r[|r| - 1] == Line(d, "")
            && AllAtLeast(r[1..|r| - 1], d + 1)
  {
    var r := FuncDeclLines(f, d);
    var body := if f.body.Some? then BlockLines(f.body.value, d + 1) else [];
    assert r == [Line(d, FuncHeader(f))] + body + [Line(d, "")];
    assert r[1..|r| - 1] == body;
    if f.body.Some? {
      BlockDepth(f.body.value, d + 1);
    }
  }

  /** The receiver is computed but never written: it does not change what a method writes. */
  lemma ReceiverIgnored(f: Decl, recv: Option<Field>, d: nat)
    requires f.FuncDecl?
    requires f.name != "main" || (f.recv.Some? && recv.Some?)
    ensures FuncDeclLines(f.(recv := recv), d) == FuncDeclLines(f, d)
  {
    assert FuncHeader(f.(recv := recv)) == FuncHeader(f);
  }

  /**
    A receiver-less `main` writes its body at the current depth with no
    header and no blank line: what any other function with the same body
    writes between its header and its blank line, one level shallower.
   */
  lemma MainFlattened(f: Decl, name: string, d: nat)
    requires f.FuncDecl? && f.name == "main" && f.recv.None? && f.body.Some?
    requires name != "main"
    ensures FuncDeclLines(f.(name := name), d)
            == [Line(d, FuncHeader(f.(name := name)))] + Shift(FuncDeclLines(f, d), 1) + [Line(d, "")]
  {
    BlockShift(f.body.value, d, 1);
  }

  // ---------------------------------------------------------------------
  // Type declarations

  /** The field lines hold one line per declared name, all at one depth. */
  lemma {:induction false} FieldLinesShape(fields: seq<Field>, d: nat)
    ensures |FieldLines(fields, d)| == NameCount(fields)
    ensures forall i :: 0 <= i < |FieldLines(fields, d)| ==> FieldLines(fields, d)[i].depth == d
  {
    if fields != [] {
      var front, last := fields[..|fields| - 1], fields[|fields| - 1];
      FieldLinesShape(front, d);
      assert FieldLines(fields, d) == FieldLines(front, d) + FieldNameLines(last, d);
    }
  }

  /** Each name of each field has its `T this.name` line among the field lines. */
  lemma {:induction false} FieldLinesHold(fields: seq<Field>, d: nat)
    ensures forall k, j :: 0 <= k < |fields| && 0 <= j < |fields[k].names|
              ==> Line(d, ConvertType(fields[k].typ) + " this." + fields[k].names[j]) in FieldLines(fields, d)
  {
    if fields != [] {
      var front, last := fields[..|fields| - 1], fields[|fields| - 1];
      FieldLinesHold(front, d);
      var r := FieldLines(fields, d);
      assert r == FieldLines(front, d) + FieldNameLines(last, d);
      forall k, j | 0 <= k < |fields| && 0 <= j < |fields[k].names|
        ensures Line(d, ConvertType(fields[k].typ) + " this." + fields[k].names[j]) in r
      {
        if k < |front| {
          assert fields[k] == front[k];
        } else {
          assert FieldNameLines(last, d)[j] == Line(d, ConvertType(fields[k].typ) + " this." + fields[k].names[j]);
        }
      }
    }
  }

  /** The lines of a struct: header, `init:`, the field lines, a blank line. */
  lemma StructLines(name: string, fields: seq<Field>, d: nat)
    ensures TypeSpecLines(name, StructType(fields), d)
            == [Line(d, "class " + name + ":"), Line(d + 1, "init:")] + FieldLines(fields, d + 2) + [Line(d, "")]
  {
    var body := FieldLines(fields, d + 2);
    assert StructInitLines(fields, d + 1) == [Line(d + 1, "init:")] + body;
    assert [Line(d, "class " + name + ":")] + ([Line(d + 1, "init:")] + body)
        == [Line(d, "class " + name + ":"), Line(d + 1, "init:")] + body;
  }

  /** Lines framed by a header and a trailer: the body keeps its order and its lines. */
  lemma Framed(h: seq<Line>, body: seq<Line>, t: seq<Line>)
    ensures forall i :: |h| <= i < |h| + |body| ==> (h + body + t)[i] == body[i - |h|]
    ensures forall x :: x in body ==> x in h + body + t
  {
  }

  /**
    A struct becomes `class N:` with an `init:` block one level deeper
    (written even when there are no fields) holding one line per field
    name two levels deeper, then a blank line.
   */
  lemma StructShape(name: string, fields: seq<Field>, d: nat)
    ensures var r := TypeSpecLines(name, StructType(fields), d);
            && |r| == 3 + NameCount(fields)
            && r[0] == Line(d, "class " + name + ":") && r[1] == Line(d + 1, "init:") && r[|r| - 1] == Line(d, "")
            && (forall i :: 2 <= i < |r| - 1 ==> r[i].depth == d + 2)
  {
    var body := FieldLines(fields, d + 2);
    FieldLinesShape(fields, d + 2);
    var h, tl := [Line(d, "class " + name + ":"), Line(d + 1, "init:")], [Line(d, "")];
    var r := TypeSpecLines(name, StructType(fields), d);
    StructLines(name, fields, d);
    Framed(h, body, tl);
    forall i | 2 <= i < |r| - 1
      ensures r[i].depth == d + 2
    {
      assert r[i] == body[i - 2];
    }
  }

  /** Every name of every field of a struct gets its `T this.name` line. */
  lemma StructFields(name: string, fields: seq<Field>, d: nat)
    ensures forall k, j :: 0 <= k < |fields| && 0 <= j < |fields[k].names|
              ==> Line(d + 2, ConvertType(fields[k].typ) + " this." + fields[k].names[j])
                    in TypeSpecLines(name, StructType(fields), d)
  {
    var body := FieldLines(fields, d + 2);
    FieldLinesHold(fields, d + 2);
    StructLines(name, fields, d);
    Framed([Line(d, "class " + name + ":"), Line(d + 1, "init:")], body, [Line(d, "")]);
  }

  /** The number of interface entries that are named methods. */
  function FuncMethodCount(methods: seq<Field>): nat
  {
    if methods == [] then 0
    else
      var m := methods[|methods| - 1];
      FuncMethodCount(methods[..|methods| - 1]) + (if |m.names| > 0 && m.typ.FuncType? then 1 else 0)
  }

  /** An interface entry writes one `fn` line when it is a named method, nothing otherwise. */
  lemma MethodLineShape(m: Field, d: nat)
    ensures |MethodLine(m, d)| == if |m.names| > 0 && m.typ.FuncType? then 1 else 0
    ensures forall i :: 0 <= i < |MethodLine(m, d)|
              ==> MethodLine(m, d)[i].depth == d && HasPrefix(MethodLine(m, d)[i].text, "fn ")
  {
    if |m.names| > 0 && m.typ.FuncType? {
      var ret := if |m.typ.results| > 0 then " -> " + ConvertType(m.typ.results[0].typ) else "";
      var a := "fn " + m.names[0];
      var b := a + "(" + Join(ParamList(m.typ.params), ", ");
      PrefixExtend("fn ", m.names[0], "fn ");
      PrefixExtend(a, "(", "fn ");
      PrefixExtend(a + "(", Join(ParamList(m.typ.params), ", "), "fn ");
      PrefixExtend(b, ")", "fn ");
      PrefixExtend(b + ")", ret, "fn ");
    }
  }

  lemma PrefixExtend(a: string, b: string, p: string)
    requires HasPrefix(a, p)
    ensures HasPrefix(a + b, p)
  {
    assert (a + b)[..|p|] == a[..|p|];
  }

  lemma {:induction false} MethodLinesShape(methods: seq<Field>, d: nat)
    ensures |MethodLines(methods, d)| == FuncMethodCount(methods)
    ensures forall i :: 0 <= i < |MethodLines(methods, d)|
              ==> MethodLines(methods, d)[i].depth == d && HasPrefix(MethodLines(methods, d)[i].text, "fn ")
  {
    if methods != [] {
      var front, last := methods[..|methods| - 1], methods[|methods| - 1];
      MethodLinesShape(front, d);
      var r := MethodLines(methods, d);
      var m := MethodLine(last, d);
      assert r == MethodLines(front, d) + m;
      MethodLineShape(last, d);
      forall i | 0 <= i < |r|
        ensures r[i].depth == d && HasPrefix(r[i].text, "fn ")
      {
        if i >= |MethodLines(front, d)| {
          assert r[i] == m[i - |MethodLines(front, d)|];
        }
      }
    }
  }

  /**
    An interface becomes `interface N:`, one `fn` signature line one level
    deeper per named method entry (others are skipped), then a blank line.
   */
  lemma InterfaceShape(name: string, methods: seq<Field>, d: nat)
    ensures var r := TypeSpecLines(name, InterfaceType(methods), d);
            && |r| == 2 + FuncMethodCount(methods)
            && r[0] == Line(d, "interface " + name + ":") && r[|r| - 1] == Line(d, "")
            && forall i :: 1 <= i < |r| - 1 ==> r[i].depth == d + 1 && HasPrefix(r[i].text, "fn ")
  {
    var body := MethodLines(methods, d + 1);
    MethodLinesShape(methods, d + 1);
    var h := [Line(d, "interface " + name + ":")];
    assert TypeSpecLines(name, InterfaceType(methods), d) == h + body + [Line(d, "")];
    Framed(h, body, [Line(d, "")]);
  }

  // ---------------------------------------------------------------------
  // The file

  /** The import block has one line per module and a blank line after them exactly when there is one. */
  lemma ImportBlockShape(modules: seq<string>, d: nat)
    ensures var r := ImportBlock(modules, d);
            && |r| == |modules| + (if |modules| > 0 then 1 else 0)
            && (forall k :: 0 <= k < |modules| ==> r[k] == Line(d, "import \"" + modules[k] + "\""))
            && ((exists i :: 0 <= i < |r| && r[i].text == "") <==> |modules| > 0)
  {
    var r := ImportBlock(modules, d);
    var lines := ImportLines(modules, |modules|, d);
    if |modules| > 0 {
      assert r[|r| - 1].text == "";
    } else {
      assert r == [];
    }
    forall i | 0 <= i < |modules|
      ensures r[i].text != ""
    {
      assert r[i] == lines[i];
    }
  }

  /** Declarations are written one after another, each independently of the others. */
  lemma {:induction false} DeclsConcat(a: seq<Decl>, b: seq<Decl>, d: nat)
    ensures DeclsLines(a + b, d) == DeclsLines(a, d) + DeclsLines(b, d)
  {
    if b == [] {
      assert a + b == a;
    } else {
      var front, last := b[..|b| - 1], b[|b| - 1];
      assert a + b == (a + front) + [last];
      DeclsStep(a + front, last, d);
      DeclsConcat(a, front, d);
      AppendAssoc(DeclsLines(a, d), DeclsLines(front, d), DeclLines(last, d));
    }
  }

  lemma DeclsStep(decls: seq<Decl>, last: Decl, d: nat)
    ensures DeclsLines(decls + [last], d) == DeclsLines(decls, d) + DeclLines(last, d)
  {
    var ds := decls + [last];
    assert ds[..|ds| - 1] == decls;
  }

  /** The modules of an import group are those of its parts, in source order. */
  lemma {:induction false} ImportsOfConcat(a: seq<Spec>, b: seq<Spec>)
    ensures ImportsOf(a + b) == ImportsOf(a) + ImportsOf(b)
  {
    if b == [] {
      assert a + b == a;
    } else {
      var front, last := b[..|b| - 1], b[|b| - 1];
      assert a + b == (a + front) + [last];
      assert b == front + [last];
      ImportsStep(a + front, last);
      ImportsStep(front, last);
      ImportsOfConcat(a, front);
      AppendAssoc(ImportsOf(a), ImportsOf(front), SpecModules(last));
    }
  }

  /** The modules a declaration list contributes are those of its parts, in source order. */
  lemma {:induction false} FileImportsConcat(a: seq<Decl>, b: seq<Decl>)
    ensures FileImports(a + b) == FileImports(a) + FileImports(b)
  {
    if b == [] {
      assert a + b == a;
    } else {
      var ab, front, last := a + b, b[..|b| - 1], b[|b| - 1];
      assert ab[..|ab| - 1] == a + front;
      assert ab[|ab| - 1] == last;
      assert FileImports(ab) == FileImports(a + front) + GroupImports(last);
      FileImportsConcat(a, front);
      AppendAssoc(FileImports(a), FileImports(front), GroupImports(last));
    }
  }

  /** The translated file is the import block followed by the declarations' lines. */
  lemma TranslateLayout(decls: seq<Decl>)
    ensures Translate(decls) == Render(ImportBlock(FileImports(decls), 0)) + Render(DeclsLines(decls, 0))
  {
    RenderConcat(ImportBlock(FileImports(decls), 0), DeclsLines(decls, 0));
  }

  // ---------------------------------------------------------------------
  // The output buffer

  /** `writeln` appends `4 * depth` spaces, the text and one newline to what was there. */
  lemma WritelnAppends(lines: seq<Line>, l: Line)
    ensures Render(lines + [l]) == Render(lines) + Indent(l.depth) + l.text + "\n"
  {
    RenderConcat(lines, [l]);
    RenderOne(l);
    var prior := Render(lines);
    AppendAssoc(prior, Indent(l.depth) + l.text, "\n");
    AppendAssoc(prior, Indent(l.depth), l.text);
  }

  /** Output is append-only: what was written stays a prefix of everything written after it. */
  lemma RenderPrefix(a: seq<Line>, b: seq<Line>)
    ensures Render(a) <= Render(a + b)
    ensures |Render(a + b)| == |Render(a)| + |Render(b)|
  {
    RenderConcat(a, b);
  }
}
