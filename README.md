# gts: a Go-to-Scar source translator, modelled in Dafny

`gts.go` turns a parsed Go file into Scar source text. A `ScarConverter`
walks the declarations of the file, writing one line at a time into an
output buffer at the current indentation depth (four spaces per level):

- the `import` groups are collected first and mapped through a fixed table
  of Go standard packages;
- each function becomes a `fn name(T p, ...) -> R:` header with its body one
  level deeper and a blank line after it, except a receiver-less `main`,
  whose body is written at the top level;
- each struct becomes `class N:` with an `init:` block listing `T this.f`;
- each interface becomes `interface N:` with one `fn` signature per method;
- `var`/`const` groups become `T name = value` lines and a blank line;
- statements become Scar statements (`if`/`elif`/`else`, `for`/`while`,
  `for k, v in xs`, `switch`/`case`, `return`, assignments), and
  expressions are rewritten recursively (the type table, `fmt.Println` and
  `fmt.Printf` to `print`, `append` to `.add`, `make` to `new`).

## Layout of the model

| file | module | what it holds |
|---|---|---|
| `syntax.dfy` | `Syntax` | the Go syntax tree the translator reads: types, expressions, statements, specs, declarations; a Go `nil` is a `NoExpr`/`NoStmt` variant |
| `strings.dfy` | `Strings` | the `strings` package functions the translator calls (`HasPrefix`, `TrimPrefix`, `Trim` of a quote, `TrimSpace`, `Split`, `Join`, `Repeat`) with their properties |
| `output.dfy` | `Output` | a written line (`Line(depth, text)`), `indent`, and `Render`, the text a list of written lines amounts to |
| `exprs.dfy` | `Exprs` | `convertType`, `convertExpr`, `convertCallExpr`, `convertCompositeLit` as mutually recursive functions, with lemmas for the type table and the call rewrites |
| `imports.dfy` | `Imports` | `convertImportPath` and the modules the `import` groups contribute |
| `emit.dfy` | `Emit` | the specification: the lines each statement and declaration writes at a given depth, and the whole translated file |
| `converter.dfy` | `Converter` | the class `ScarConverter` (fields `output`, `indentLevel`, `imports`) whose methods mirror the Go methods step by step and are proved to write exactly the lines `Emit` specifies |
| `properties.dfy` | `Properties` | what the translator promises, proved about the specification: indentation balance, the if/else chain, the for-loop header, assignment desugaring, declaration shapes, the file layout |

The Go `strings.Builder` is modelled as the sequence of lines written so
far (`output: seq<Line>`). The text it holds is `Render(output)`: each line
is rendered as its depth times four spaces, the text and a newline
(`WritelnAppends`). `ConvertStmtToString` saves the buffer and the depth,
converts at depth 0, trims the rendered text and restores both.

In three places the code does something other than its structure suggests;
the model follows the code:

- the code computes a method receiver's `this T` text but writes the same
  header in both branches (gts.go:560-564), so the receiver never appears
  in the output (`ReceiverIgnored`);
- `crypto/sha256`, `crypto/sha512`, `crypto/sha1` and `io` map to no
  module, because a Go `case` with no statements does not fall through to
  the next one (gts.go:646-651, `ImportTable`);
- the loop variable of a three-clause `for` is the third-from-last word of
  the converted init, so an init whose value has several words names the
  wrong variable: `i := n - 1` gives `for n; ...`
  (`ForLoopVariableDisplaced`).

## Model

| member | source | states |
|---|---|---|
| Output.Indent | gts.go:29-31 | the indentation of depth `d` is exactly `4·d` spaces |
| Output.RenderLine | gts.go:37-39 | a written line is the indentation, then the text, then one newline |
| Properties.WritelnAppends | gts.go:37-39 | writing a line appends its indentation, text and newline to the rendered buffer and changes nothing before it |
| Properties.RenderPrefix | gts.go:37-39 | output is append-only: earlier text is a prefix of later text, and lengths add up |
| Converter.ScarConverter.constructor | gts.go:22-27 | a new converter has depth 0, an empty buffer and no imports |
| Converter.ScarConverter.Writeln | gts.go:37-39 | exactly one line, at the current depth, is appended |
| Converter.ScarConverter.ConvertNestedBlock | gts.go:402-404 | a body is written one level deeper and the depth is restored |
| Converter.ScarConverter.ConvertStmt | gts.go:244-279 | the buffer grows by exactly the statement's lines at the current depth; the depth is back where it was |
| Converter.ScarConverter.ConvertAssignStmt | gts.go:281-300 | one line for a single-target single-value assignment, nothing otherwise |
| Converter.ScarConverter.ConvertValueSpecs | gts.go:302-328 | every value spec of a local declaration is written in order; other specs write nothing |
| Converter.ScarConverter.ConvertValueSpec | gts.go:305-324 | one line per name that has a type or a value, using the name's value when there is one; an untyped name without a value writes nothing |
| Converter.ScarConverter.ConvertIfStmt | gts.go:330-352 | init, `if`/`elif` header, body one level deeper, then the else part; depth restored |
| Converter.ScarConverter.ConvertElse | gts.go:341-376 | an else-if continues the chain with `elif`, an else block writes `else:` and its body deeper |
| Converter.ScarConverter.ConvertForStmt | gts.go:378-405 | the loop header at the current depth and the body one level deeper; depth restored |
| Converter.ScarConverter.ConvertForHeader | gts.go:379-400 | computes the loop header without changing the buffer or the depth |
| Converter.ScarConverter.ConvertRangeStmt | gts.go:407-422 | the `for ... in` header (none without a key) and the body one level deeper |
| Converter.ScarConverter.ConvertReturnStmt | gts.go:424-437 | one `return` line with the results joined by commas |
| Converter.ScarConverter.ConvertBlockStmt | gts.go:439-443 | the statements' lines in order, all entered at the same depth |
| Converter.ScarConverter.ConvertIncDecStmt | gts.go:445-452 | one `x = x + 1` or `x = x - 1` line |
| Converter.ScarConverter.ConvertSwitchStmt | gts.go:454-469 | init, `switch` header, clauses one level deeper; depth restored |
| Converter.ScarConverter.ConvertCaseClause | gts.go:471-487 | `case` or `default:` header, statements one level deeper |
| Converter.ScarConverter.ConvertBranchStmt | gts.go:489-496 | `break` and `continue` write themselves; other branch statements write nothing |
| Converter.ScarConverter.ConvertStmtToString | gts.go:498-511 | returns the trimmed text of the statement at depth 0 and leaves buffer and depth exactly as they were |
| Converter.ScarConverter.ConvertFuncDecl | gts.go:513-573 | the buffer grows by exactly the function's lines; the depth is restored |
| Converter.ScarConverter.ConvertTypeSpec | gts.go:575-628 | a struct or interface spec writes its block; other type specs write nothing |
| Converter.ScarConverter.ConvertStructType | gts.go:577-597 | `class N:`, the `init:` block one level deeper, a blank line; depth restored |
| Converter.ScarConverter.ConvertStructInit | gts.go:581-594 | `init:`, then the field lines one level deeper when there are fields |
| Converter.ScarConverter.ConvertNestedFields | gts.go:583-591 | the field lines one level deeper, depth restored |
| Converter.ScarConverter.ConvertStructFields | gts.go:585-590 | one `T this.name` line per name of each field, in order |
| Converter.ScarConverter.ConvertInterfaceType | gts.go:598-627 | `interface N:`, the method lines one level deeper, a blank line |
| Converter.ScarConverter.ConvertInterfaceMethods | gts.go:601-623 | one signature line per named method entry, in order |
| Converter.ScarConverter.ConvertTypeSpecs | gts.go:710-714 | every type spec of a `type` group is written in order |
| Converter.ScarConverter.ConvertImports | gts.go:630-642 | the mapped modules of a group's import specs are appended to the import list, in order |
| Converter.ScarConverter.ConvertDecl | gts.go:704-740 | one declaration's lines: function, type group, or value group followed by a blank line |
| Converter.ScarConverter.ConvertFile | gts.go:686-744 | imports collected from every group, then the import block, then every declaration; returns the rendered buffer |
| Converter.ScarConverter.CollectImports | gts.go:687-692 | the import list grows by the modules of every `import` group in source order |
| Converter.ScarConverter.WriteImports | gts.go:694-700 | one `import "m"` line per module, then a blank line if there was any |
| Converter.ScarConverter.ConvertDecls | gts.go:702-742 | the declarations' lines in source order |
| Converter.ConvertExprList | gts.go:431-434 | the arguments converted one by one, in order |
| Converter.ConvertParams | gts.go:540-549 | one `T name` entry per parameter name, in order |
| Converter.Convert | gts.go:686-744 | a fresh converter produces the translated file |
| Exprs.ConvertExprs | gts.go:222-225 | as many converted arguments as arguments, each converted on its own |
| Exprs.TypeAbsent | gts.go:46-83 | an absent type renders as nothing; every type a Go parser produces (a generic instantiation `T[A]` included) renders as some text |
| Exprs.TypeTable | gts.go:52-68 | `int`/`int32` to `int`, `int64` to `i64`, `byte` to `char`, `float32`/`float64` to `float`; every other name is kept, and only these five change |
| Exprs.IdentPrefixes | gts.go:79-80 | a (qualified) Go identifier never begins with `list[`, `map[` or `ref ` |
| Exprs.MarkerPrefixes | gts.go:69-78 | the three type markers exclude one another |
| Exprs.NamedTypeUnmarked | gts.go:52-68 | a named type, renamed by the table or kept, starts with none of `list[`, `map[`, `ref ` |
| Exprs.QualifiedTypeUnmarked | gts.go:79-80 | a package-qualified type starts with none of `list[`, `map[`, `ref ` |
| Exprs.TypePrefixes | gts.go:46-83 | on every type a Go parser produces (generic instantiations, channel, ellipsis and elided types included) a converted type starts with `list[`, `map[` or `ref ` exactly when it is a slice, map or `*T` type |
| Exprs.PrintlnRewrite | gts.go:161-165 | `println(a, ...)` and `fmt.Println(a, ...)` become `print a`; later arguments are dropped |
| Exprs.PrintfRewrite | gts.go:148-160 | `printf` and `fmt.Printf` both become `print` and the format, followed by a bar and the other arguments joined by commas when there are any |
| Exprs.AppendRewrite | gts.go:184-189 | `append(xs, e, ...)` becomes `xs.add(e)` |
| Exprs.LenRewrite | gts.go:179-183 | `len(x)` becomes `len(x)` with `x` converted |
| Exprs.MakeRewrite | gts.go:166-178 | `make` of a slice becomes `new list[T](n)` or `new list[T]()`, of a map `[]`, of any other Go type (a channel type included) an ordinary call |
| Exprs.GenericCall | gts.go:221-227 | any other named call becomes `callee(args)` with callee and arguments converted |
| Exprs.CallGuards | gts.go:139-228 | every built-in rewrite is guarded by its arguments: a built-in called with none (or `append` with one) is an ordinary call |
| Exprs.EmptyPrintCall | gts.go:148-165 | each of `println()`, `printf()`, `fmt.Println()` and `fmt.Printf()` is left as an ordinary call |
| Exprs.NamelessCallee | gts.go:140-227 | a callee that is neither a name nor a selector is written as nothing before the argument list |
| Exprs.PrintfExample | gts.go:199-210 | a concrete `fmt.Printf` call with a format and two arguments becomes `print`, the format, a bar, then `n, s` |
| Exprs.Passthrough | gts.go:230-242 | literals pass through; a composite literal is `[e1, ...]` for a slice type and a placeholder for any other Go type, an elided type included |
| Exprs.SharedHasNoPlaceholder | gts.go:86-137 | an expression made only of names, literals, operators, selectors and indexing, none of them holding a `#`, never degrades: no `#` placeholder appears in its translation |
| Exprs.UnsupportedPlaceholder | gts.go:136 | a type expression or other unsupported form in expression position becomes the `# unknown expression` placeholder |
| Properties.CallWords | gts.go:221-227 | a plain three-argument call `f(a, b, c)` converts to the three words `f(a,`, `b,`, `c)` |
| Imports.ImportTable | gts.go:644-674 | exactly ten paths map to a module, always under `std/`; `crypto/sha256`, `crypto/sha512`, `crypto/sha1`, `io` and `fmt` are dropped |
| Imports.ImportsOf | gts.go:630-642 | at most one module per import spec |
| Imports.MappedCollected | gts.go:631-640 | every import spec whose unquoted path the table maps contributes its module to its group |
| Imports.ImportsNonEmpty | gts.go:630-642 | no import group contributes an empty module name |
| Imports.FileImportsNonEmpty | gts.go:687-692 | no module collected from a file is empty |
| Imports.QuotedImport | gts.go:633-639 | a quoted path is looked up without its quotes and kept only when mapped |
| Imports.ImportsAreMapped | gts.go:631-640 | every collected module comes from an import spec whose unquoted path is in the table |
| Properties.StmtShift | gts.go:244-279 | a statement converted `k` levels deeper writes the same lines, each exactly `k` levels deeper |
| Properties.BlockShift | gts.go:439-443 | the same for a block |
| Properties.IfChainShift | gts.go:330-352 | the same for an if/elif chain |
| Properties.ElseShift | gts.go:354-376 | the same for an else part |
| Properties.ValueSpecsShift | gts.go:302-328 | the same for local declarations |
| Properties.ValueNamesShift | gts.go:306-324 | the same for the names of one value spec |
| Properties.RangeHeaderShift | gts.go:410-417 | the same for a range header |
| Properties.NestedShift | gts.go:402-404 | the same for `for`, range and case bodies |
| Properties.SwitchShift | gts.go:454-469 | the same for a switch |
| Properties.LeafShift | gts.go:250-277 | the same for one-line statements |
| Properties.StmtDepth | gts.go:244-279 | nothing a statement writes lies shallower than the depth it was entered at |
| Properties.BlockDepth | gts.go:439-443 | the same for a block |
| Properties.BlockConcat | gts.go:439-443 | the lines of two consecutive statement lists are the lines of each, in order |
| Properties.ElseLinksShape | gts.go:354-376 | after the first link of a chain every header is `elif c:`, except a closing `else:`, which has no init |
| Properties.ChainLayout | gts.go:330-352 | an if-chain, with or without inits on any link, is written flat: per link its init, its header at the chain's depth, its body exactly one level deeper (the body's own lines shifted by depth + 1) |
| Properties.ElseLayout | gts.go:354-376 | the same for an else part: each `elif` link and the `else:` block at the chain's depth, each body one level deeper |
| Properties.FlatTextsAt | gts.go:330-376 | at the chain's own depth a flat layout writes only the inits' texts and the headers, in order; every body line lies deeper |
| Properties.IfElseChain | gts.go:330-376 | an `if` statement (inits allowed on every link) writes its links flat, and at its depth only the inits' texts and the `if`/`elif`/`else` headers appear |
| Properties.TrimRenderedLine | gts.go:505 | trimming one rendered line at depth 0 gives back its text when it has no outer blanks |
| Properties.OneLineString | gts.go:498-511 | a statement writing a single line converts to that line's text |
| Properties.SplitDefine | gts.go:386 | splitting `i = v` on blanks gives `i`, `=` and the words of `v` |
| Properties.DefineText | gts.go:498-511 | a statement writing `i = v` converts to the string `i = v` |
| Properties.DefineString | gts.go:289-291 | `i := v` converts to the string `i = v` when the converted `v` is not empty and does not end in white space |
| Properties.DifferenceString | gts.go:289-291 | `i := n - 1` converts to the string `i = n - 1` |
| Properties.ThreeClauseWord | gts.go:386-389 | with a one-word value the third-from-last word of `i = v` is `i` |
| Properties.ThreeClauseDifference | gts.go:386-389 | with the value `n - 1` the third-from-last word of `i = n - 1` is `n` |
| Properties.ForLoopVariable | gts.go:379-389 | `for i := v; c; p` with one-word `i` and `v` gets `for i; c; p:` |
| Properties.ForLoopVariableDisplaced | gts.go:386-389 | `i := n - 1` as the init names `n` as the loop variable |
| Properties.IncrementString | gts.go:445-448 | `i++` converts to the string `i = i + 1` |
| Properties.ForCountingLoop | gts.go:378-392 | `for i := 0; i < 10; i++` gets `for i; i < 10; i = i + 1:` |
| Properties.ForWhile | gts.go:390-400 | no condition gives `while true:`; a missing init or post, or a short init, gives `while c:` |
| Properties.ThreeClauseOneWord | gts.go:386-392 | a one-word init gives `while c:` |
| Properties.ExprString | gts.go:250-251 | an expression statement converts to the expression's text when that text has no outer white space |
| Properties.ForCallInit | gts.go:379-392 | an expression statement whose text is one word (a call without arguments, say) as the init turns the loop into `while c:` |
| Properties.ThreeClauseThreeWords | gts.go:386-389 | an init text of exactly three words names its first word as the loop variable |
| Properties.ForCallInitDisplaced | gts.go:379-389 | a call `f(a, b, c)` as the init gives `for f(a,; c; p:`: the loop variable is displaced as for any init of several words |
| Properties.AssignWrites | gts.go:282 | an assignment writes one line exactly when it has one target and one value |
| Properties.CompoundText | gts.go:292-295 | `t += u` and `t -= u` are written as `t = t + u` and `t = t - u` |
| Properties.CompoundAssign | gts.go:292-295 | `x += r` and `x -= r` write what `x = x + r` and `x = x - r` write |
| Properties.OtherAssignToken | gts.go:286-298 | `=`, `:=` and every other operator but `+=`/`-=` write what `=` writes |
| Properties.IncDecAsAssign | gts.go:445-452 | `x++` and `x--` write what `x += 1` and `x -= 1` write |
| Properties.OneLineStatements | gts.go:250-277 | expression, return, inc/dec, type-switch and unknown statements write exactly one line at the current depth |
| Properties.BranchWrites | gts.go:489-496 | a branch statement writes nothing exactly when it is neither `break` nor `continue` |
| Properties.RangeWithoutKey | gts.go:407-422 | a range without a key writes no header, only its body one level deeper |
| Properties.ValueNamesCount | gts.go:306-324 | with a type every name gets a line; without one only the names that have a value |
| Properties.ValueSpecCount | gts.go:305-324 | the number of lines one value spec writes |
| Properties.TopLevelValues | gts.go:715-739 | a top-level `var`/`const` group writes what a local declaration writes, then a blank line |
| Properties.ParamListShape | gts.go:540-549 | one parameter entry per name, and every `T name` appears |
| Properties.ReturnSuffixRule | gts.go:551-557 | a ` -> R` suffix is written exactly when there is one result field with at most one name |
| Properties.FuncHeaderShape | gts.go:559-564 | the header starts with `fn name(` and ends with `:` |
| Properties.FuncDeclShape | gts.go:559-573 | every function except a receiver-less `main` writes its header, its body at least one level deeper, and a blank line |
| Properties.ReceiverIgnored | gts.go:523-564 | changing the receiver does not change what is written, for every function not named `main`, and for `main` when both receivers are present (otherwise the receiver decides whether `main` is flattened) |
| Properties.MainFlattened | gts.go:515-521 | `main` writes its body where any other function would write it one level deeper, without header or blank line |
| Properties.FieldLinesShape | gts.go:585-590 | one field line per field name, all at the same depth |
| Properties.FieldLinesHold | gts.go:585-590 | every name of every field has its `T this.name` line |
| Properties.StructLines | gts.go:577-597 | a struct writes `class N:`, `init:` one level deeper, the field lines two levels deeper, a blank line |
| Properties.StructShape | gts.go:577-597 | a struct writes `3 +` its number of field names lines: header, `init:`, fields two levels deeper, blank line |
| Properties.StructFields | gts.go:584-591 | every field name appears as `T this.name` in the struct's block |
| Properties.MethodLineShape | gts.go:603-621 | an interface entry writes one `fn` line exactly when it is a named method |
| Properties.MethodLinesShape | gts.go:601-623 | one `fn` line per named method, all at the same depth |
| Properties.InterfaceShape | gts.go:598-627 | an interface writes its header, one `fn` line per named method one level deeper, and a blank line |
| Properties.ImportBlockShape | gts.go:694-700 | one `import "m"` line per module, in order, and a blank line exactly when there is a module |
| Properties.DeclsConcat | gts.go:702-742 | declarations are written one after another, independently of each other |
| Properties.ImportsOfConcat | gts.go:631-640 | the modules of an import group are those of its parts, in spec order |
| Properties.FileImportsConcat | gts.go:687-692 | the modules of a declaration list are those of its parts, in source order |
| Properties.TranslateLayout | gts.go:686-744 | the translated file is the rendered import block followed by the rendered declarations |

## Left out

- Reading the input file and parsing it (gts.go:677-685) are not part of this model: the model starts from the parsed declaration list. The command-line driver, the output file and the error paths for unreadable or unparsable input are left out for the same reason.
- The `strings.Builder` is modelled as the sequence of lines written (`output`); its text is `Render(output)` rather than a growing byte buffer.
- `write`, `writeRaw` and the fields `fset`, `inFunction`, `inStruct`, `currentFunc` (gts.go:12-19, 33-43) are never used by the translation and are not modelled.
- Go's operator token spelling (`e.Op.String()`) is modelled by carrying the operator text in the syntax tree; the identity rewrites of `&&`, `||`, `!=`, `==` (gts.go:105-114) change nothing and are not written out.
- A receiver list that is present but empty is not distinguished from no receiver. The two differ for a function named `main`: gts.go:515 tests only whether the receiver list is nil, so a `main` with an empty receiver list gets a header, a body one level deeper and a blank line, while the model writes its body at the top level as for a plain `main`. For every other function the receiver text is never written, so the two agree.
- Go strings are UTF-8 byte strings; the model uses `seq<char>` and does not model encoding. `IsSpace` lists the white-space characters `strings.TrimSpace` removes.
