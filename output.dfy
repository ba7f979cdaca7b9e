/**
  The output buffer: what `writeln` appends.

  Each emitted line is recorded as a `Line` (its indentation depth and its
  text); `Render` gives the characters the Go `strings.Builder` holds.
 */
module Output {
  import opened Strings

  datatype Line = Line(depth: nat, text: string)

  /** `indent()`: four spaces per level. */
  function Indent(depth: nat): (r: string)
    ensures |r| == 4 * depth
    ensures forall k :: 0 <= k < |r| ==> r[k] == ' '
    ensures AllSpace(r)
  {
    var r := Repeat("    ", depth);
    assert forall k :: 0 <= k < |r| ==> r[k] == ' ';
    r
  }

  /** What `writeln(text)` appends at the given depth. */
  function RenderLine(l: Line): (r: string)
    ensures |r| == 4 * l.depth + |l.text| + 1
    ensures r[..4 * l.depth] == Indent(l.depth)
    ensures r[4 * l.depth..|r| - 1] == l.text
    ensures r[|r| - 1] == '\n'
  {
    Indent(l.depth) + l.text + "\n"
  }

  function Render(lines: seq<Line>): (r: string)
  {
    if lines == [] then "" else Render(lines[..|lines| - 1]) + RenderLine(lines[|lines| - 1])
  }

  /** Rendering distributes over concatenation of line sequences. */
  lemma {:induction false} RenderConcat(a: seq<Line>, b: seq<Line>)
    ensures Render(a + b) == Render(a) + Render(b)
  {
    if b == [] {
      assert a + b == a;
    } else {
      var ab, front, last := a + b, b[..|b| - 1], b[|b| - 1];
      assert ab[..|ab| - 1] == a + front;
      assert ab[|ab| - 1] == last;
      assert Render(ab) == Render(a + front) + RenderLine(last);
      assert Render(b) == Render(front) + RenderLine(last);
      RenderConcat(a, front);
      AppendAssoc(Render(a), Render(front), RenderLine(last));
    }
  }

  /** A single line renders as `RenderLine`. */
  lemma RenderOne(l: Line)
    ensures Render([l]) == RenderLine(l)
  {
    assert [l][..0] == [];
  }

  /** Regrouping appended line sequences, stated once so that callers need not re-derive it. */
  lemma AppendAssoc<T>(a: seq<T>, b: seq<T>, c: seq<T>)
    ensures a + b + c == a + (b + c)
  {
  }

  /** Lines shifted `k` levels deeper. */
  function Shift(lines: seq<Line>, k: nat): (r: seq<Line>)
    ensures |r| == |lines|
  {
    seq(|lines|, i requires 0 <= i < |lines| => Line(lines[i].depth + k, lines[i].text))
  }

  /** Every line lies at least `d` levels deep. */
  predicate AllAtLeast(lines: seq<Line>, d: nat)
  {
    forall i :: 0 <= i < |lines| ==> lines[i].depth >= d
  }

  /** The texts of the lines that lie exactly `d` levels deep, in order. */
  function TextsAt(lines: seq<Line>, d: nat): (r: seq<string>)
    ensures |r| <= |lines|
  {
    if lines == [] then []
    else TextsAt(lines[..|lines| - 1], d) + (if lines[|lines| - 1].depth == d then [lines[|lines| - 1].text] else [])
  }

  /** `TextsAt` distributes over concatenation. */
  lemma {:induction false} TextsAtConcat(a: seq<Line>, b: seq<Line>, d: nat)
    ensures TextsAt(a + b, d) == TextsAt(a, d) + TextsAt(b, d)
  {
    if b != [] {
      var ab := a + b;
      assert ab[..|ab| - 1] == a + b[..|b| - 1];
      assert ab[|ab| - 1] == b[|b| - 1];
      TextsAtConcat(a, b[..|b| - 1], d);
    } else {
      assert a + b == a;
    }
  }

  /** Lines all deeper than `d` contribute nothing at depth `d`. */
  lemma {:induction false} TextsAtDeeper(lines: seq<Line>, d: nat)
    requires AllAtLeast(lines, d + 1)
    ensures TextsAt(lines, d) == []
  {
    if lines != [] {
      TextsAtDeeper(lines[..|lines| - 1], d);
    }
  }
}
