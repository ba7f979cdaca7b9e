/**
  Import mapping (`convertImportPath`) and the imports a declaration list
  contributes (`convertImports` applied by `ConvertFile` to every import group).
 */
module Imports {
  import opened Syntax
  import opened Strings

  /**
    `convertImportPath`. A Go `case` arm with no statements does not fall
    through to the next one: the arms for crypto/sha256, crypto/sha512,
    crypto/sha1 and io leave the switch and end at the final `return ""`.
   */
  function ConvertImportPath(path: string): (r: string)
  {
    if path == "crypto/sha256" then ""
    else if path == "crypto/sha512" then ""
    else if path == "crypto/sha1" then ""
    else if path == "crypto/md5" then "std/crypto"
    else if path == "io" then ""
    else if path == "bufio" then "std/io"
    else if path == "json" then "std/json"
    else if path == "regexp" then "std/regex"
    else if path == "os" then "std/os"
    else if path == "strings" then "std/strings"
    else if path == "strconv" then "std/strings"
    else if path == "math" then "std/math"
    else if path == "time" then "std/time"
    else if path == "math/rand" then "std/random"
    else ""
  }

  /** The Go import paths that have a target module. */
  const MappedPaths: set<string> :=
    {"crypto/md5", "bufio", "json", "regexp", "os", "strings", "strconv", "math", "time", "math/rand"}

  /** Exactly the ten listed paths map to a module, always one under `std/`; every other import is dropped. */
  lemma ImportTable(path: string)
    ensures ConvertImportPath(path) != "" <==> path in MappedPaths
    ensures ConvertImportPath(path) != "" ==> HasPrefix(ConvertImportPath(path), "std/")
    ensures path in {"crypto/sha256", "crypto/sha512", "crypto/sha1", "io", "fmt"} ==> ConvertImportPath(path) == ""
  {
    var r := ConvertImportPath(path);
    if r != "" {
      assert r in {"std/crypto", "std/io", "std/json", "std/regex", "std/os", "std/strings", "std/time", "std/math", "std/random"};
      assert r[..4] == "std/";
    }
  }

  /** The module an import spec contributes: its path with the quotes trimmed, looked up in the table. */
  function SpecImport(spec: Spec): (r: string)
    requires spec.ImportSpec?
  {
    ConvertImportPath(TrimChar(spec.pathLit, '"'))
  }

  /** The module one spec contributes: its mapped module, or none. */
  function SpecModules(spec: Spec): (r: seq<string>)
  {
    if spec.ImportSpec? && SpecImport(spec) != "" then [SpecImport(spec)] else []
  }

  /** `convertImports`: the non-empty modules of the import specs of one group, in order. */
  function ImportsOf(specs: seq<Spec>): (r: seq<string>)
    ensures |r| <= |specs|
  {
    if specs == [] then []
    else ImportsOf(specs[..|specs| - 1]) + SpecModules(specs[|specs| - 1])
  }

  lemma ImportsStep(specs: seq<Spec>, last: Spec)
    ensures ImportsOf(specs + [last]) == ImportsOf(specs) + SpecModules(last)
  {
    var ss := specs + [last];
    assert ss[..|ss| - 1] == specs;
  }

  /** The modules one declaration contributes: those of an `import` group, none for any other declaration. */
  function GroupImports(decl: Decl): (r: seq<string>)
  {
    if decl.GenDecl? && decl.tok == ImportTok then ImportsOf(decl.specs) else []
  }

  /** The modules a whole declaration list contributes: every `import` group in source order. */
  function FileImports(decls: seq<Decl>): (r: seq<string>)
  {
    if decls == [] then []
    else FileImports(decls[..|decls| - 1]) + GroupImports(decls[|decls| - 1])
  }

  /** No import group contributes an empty module name. */
  lemma {:induction false} ImportsNonEmpty(specs: seq<Spec>)
    ensures forall m :: m in ImportsOf(specs) ==> m != ""
  {
    if specs != [] {
      ImportsNonEmpty(specs[..|specs| - 1]);
    }
  }

  /** Every module a declaration list contributes is a non-empty name. */
  lemma {:induction false} FileImportsNonEmpty(decls: seq<Decl>)
    ensures forall m :: m in FileImports(decls) ==> m != ""
  {
    if decls != [] {
      FileImportsNonEmpty(decls[..|decls| - 1]);
      var last := decls[|decls| - 1];
      if last.GenDecl? && last.tok == ImportTok {
        ImportsNonEmpty(last.specs);
      }
    }
  }

  /** A quoted standard path is looked up without its quotes. */
  lemma QuotedImport(path: string)
    requires path == [] || (path[0] != '"' && path[|path| - 1] != '"')
    ensures ImportsOf([ImportSpec("\"" + path + "\"")])
            == if path in MappedPaths then [ConvertImportPath(path)] else []
  {
    TrimCharQuoted(path, '"');
    ImportTable(path);
    var specs := [ImportSpec("\"" + path + "\"")];
    assert specs[..0] == [];
  }

  /** Conversely, every import spec whose path the table maps contributes its module. */
  lemma {:induction false} MappedCollected(specs: seq<Spec>, k: nat)
    requires k < |specs| && specs[k].ImportSpec? && SpecImport(specs[k]) != ""
    ensures SpecImport(specs[k]) in ImportsOf(specs)
  {
    var n := |specs|;
    var front := specs[..n - 1];
    assert specs == front + [specs[n - 1]];
    ImportsStep(front, specs[n - 1]);
    if k < n - 1 {
      assert front[k] == specs[k];
      MappedCollected(front, k);
    }
  }

  /** A module is contributed only by a mapped path; ones the table maps to "" never appear. */
  lemma {:induction false} ImportsAreMapped(specs: seq<Spec>, m: string)
    requires m in ImportsOf(specs)
    ensures exists k ::
              && 0 <= k < |specs| && specs[k].ImportSpec? && SpecImport(specs[k]) == m
              && TrimChar(specs[k].pathLit, '"') in MappedPaths
  {
    var n := |specs|;
    var front := specs[..n - 1];
    var last := specs[n - 1];
    if m in ImportsOf(front) {
      ImportsAreMapped(front, m);
      var k :| 0 <= k < |front| && front[k].ImportSpec? && SpecImport(front[k]) == m
               && TrimChar(front[k].pathLit, '"') in MappedPaths;
      assert specs[k] == front[k];
    } else {
      ImportTable(TrimChar(last.pathLit, '"'));
      assert specs[n - 1] == last;
    }
  }
}
