/** Win-line generation for an N×N grid: every straight run of three cells,
    horizontal rows first, then vertical, then ↘ diagonals, then ↙ diagonals. */
module Lines {
  import opened Board

  datatype Dir = Horizontal | Vertical | DiagDown | DiagUp

  /** Number of start offsets of a run of three along one axis
      (`col <= gridSize - 3`); none below a 3-wide grid. */
  function Span(n: nat): nat
  {
    if n >= 3 then n - 2 else 0
  }

  /** Iterations of the outer loop generating direction `d`. */
  function Outer(n: nat, d: Dir): nat
  {
    match d
    case Horizontal => n
    case Vertical => n
    case DiagDown => Span(n)
    case DiagUp => Span(n)
  }

  /** Board index of row `r`, column `c`. */
  function Cell(n: nat, r: int, c: int): int
  {
    r * n + c
  }

  /** The line pushed at outer index `o`, inner index `i` of the loops for
      `d`: rows×columns for Horizontal, columns×rows for Vertical,
      rows×columns for DiagDown and rows×(columns - 2) for DiagUp, whose
      columns start at 2. */
  function MakeLine(n: nat, d: Dir, o: nat, i: nat): Line
  {
    match d
    case Horizontal => Line(Cell(n, o, i), Cell(n, o, i + 1), Cell(n, o, i + 2))
    case Vertical => Line(Cell(n, i, o), Cell(n, i + 1, o), Cell(n, i + 2, o))
    case DiagDown => Line(Cell(n, o, i), Cell(n, o + 1, i + 1), Cell(n, o + 2, i + 2))
    case DiagUp => Line(Cell(n, o, i + 2), Cell(n, o + 1, i + 2 - 1), Cell(n, o + 2, i + 2 - 2))
  }

  /** The first `k` lines of inner-loop pass `o`. */
  function Row(n: nat, d: Dir, o: nat, k: nat): (r: seq<Line>)
  {
    seq(k, i requires 0 <= i < k => MakeLine(n, d, o, i))
  }

  /** The inner passes 0 .. o - 1 of the loops for `d`, each complete. */
  function Passes(n: nat, d: Dir, o: nat): seq<seq<Line>>
  {
    seq(o, p requires 0 <= p < o => Row(n, d, p, Span(n)))
  }

  /** The concatenation of `rows`, in order. */
  function Flatten(rows: seq<seq<Line>>): seq<Line>
  {
    if rows == [] then [] else Flatten(rows[..|rows| - 1]) + rows[|rows| - 1]
  }

  /** All lines of direction `d`, in generation order. */
  function DirLines(n: nat, d: Dir): seq<Line>
  {
    Flatten(Passes(n, d, Outer(n, d)))
  }

  /** All win lines of an N×N grid, in generation order. */
  function AllLines(n: nat): seq<Line>
  {
    DirLines(n, Horizontal) + DirLines(n, Vertical) + DirLines(n, DiagDown) + DirLines(n, DiagUp)
  }

  // ---------------------------------------------------------------------
  // The generator, as the nested loops that build the list.

  /** One pass of the inner loop for `d`: appends the lines of outer index `o`. */
  method AppendPass(n: nat, d: Dir, o: nat, lines: seq<Line>) returns (out: seq<Line>)
    ensures out == lines + Row(n, d, o, Span(n))
  {
    out := lines;
    var i := 0;
    while i < Span(n)
      invariant 0 <= i <= Span(n)
      invariant out == lines + Row(n, d, o, i)
    {
      assert Row(n, d, o, i + 1) == Row(n, d, o, i) + [MakeLine(n, d, o, i)];
      out := out + [MakeLine(n, d, o, i)];
      i := i + 1;
    }
  }

  /** Appends the lines of direction `d` to `lines`, one inner pass at a time. */
  method AppendDir(n: nat, d: Dir, lines: seq<Line>) returns (out: seq<Line>)
    ensures out == lines + DirLines(n, d)
  {
    out := lines;
    var o := 0;
    while o < Outer(n, d)
      invariant 0 <= o <= Outer(n, d)
      invariant out == lines + Flatten(Passes(n, d, o))
    {
      out := AppendPass(n, d, o, out);
      PassesStep(n, d, o);
      o := o + 1;
    }
  }

  /** Builds the list of lines, horizontal, vertical, ↘ and ↙ in turn. */
  method GenerateLines(n: nat) returns (lines: seq<Line>)
    ensures lines == AllLines(n)
  {
    lines := AppendDir(n, Horizontal, []);
    lines := AppendDir(n, Vertical, lines);
    lines := AppendDir(n, DiagDown, lines);
    lines := AppendDir(n, DiagUp, lines);
  }

  // ---------------------------------------------------------------------
  // An independent description: a run of three along a direction vector.

  function StepRow(d: Dir): int
  {
    if d == Horizontal then 0 else 1
  }

  function StepCol(d: Dir): int
  {
    match d
    case Horizontal => 1
    case Vertical => 0
    case DiagDown => 1
    case DiagUp => -1
  }

  /** Cell (r, c) lies on the N×N grid. */
  predicate OnGrid(n: nat, r: int, c: int)
  {
    0 <= r < n && 0 <= c < n
  }

  /** The run of three starting at (r, c) and stepping along `d` stays on the grid. */
  predicate RunFits(n: nat, d: Dir, r: int, c: int)
  {
    OnGrid(n, r, c) && OnGrid(n, r + 2 * StepRow(d), c + 2 * StepCol(d))
  }

  /** The three board indices of the run starting at (r, c) along `d`. */
  function RunLine(n: nat, d: Dir, r: int, c: int): Line
  {
    var dr, dc := StepRow(d), StepCol(d);
    Line(r * n + c, (r + dr) * n + (c + dc), (r + 2 * dr) * n + (c + 2 * dc))
  }

  /** `l` is a straight run of three consecutive cells of the N×N grid. */
  ghost predicate IsRun(n: nat, l: Line)
  {
    exists d: Dir, r: int, c: int :: RunFits(n, d, r, c) && l == RunLine(n, d, r, c)
  }

  // ---------------------------------------------------------------------
  // Properties of the generated lines.

  /** One more outer pass appends one more complete row. */
  lemma PassesStep(n: nat, d: Dir, o: nat)
    ensures Flatten(Passes(n, d, o + 1)) == Flatten(Passes(n, d, o)) + Row(n, d, o, Span(n))
  {
    assert Passes(n, d, o + 1)[..o] == Passes(n, d, o);
  }

  lemma {:induction false} PassesLength(n: nat, d: Dir, o: nat)
    ensures |Flatten(Passes(n, d, o))| == o * Span(n)
  {
    if o > 0 {
      PassesStep(n, d, o - 1);
      PassesLength(n, d, o - 1);
    }
  }

  /** There are N·(N−2) horizontal, N·(N−2) vertical and (N−2)² lines in
      each diagonal direction; none below N = 3. */
  lemma LineCount(n: nat)
    ensures |DirLines(n, Horizontal)| == n * Span(n) && |DirLines(n, Vertical)| == n * Span(n)
    ensures |DirLines(n, DiagDown)| == Span(n) * Span(n) && |DirLines(n, DiagUp)| == Span(n) * Span(n)
    ensures |AllLines(n)| == 2 * (n * Span(n)) + 2 * (Span(n) * Span(n))
    ensures n < 3 ==> AllLines(n) == []
    ensures n == 3 ==> |AllLines(n)| == 8
    ensures n == 4 ==> |AllLines(n)| == 24
  {
    var s := Span(n);
    PassesLength(n, Horizontal, n);
    PassesLength(n, Vertical, n);
    PassesLength(n, DiagDown, s);
    PassesLength(n, DiagUp, s);
    assert |DirLines(n, Horizontal)| == n * s;
    assert |DirLines(n, Vertical)| == n * s;
    assert |DirLines(n, DiagDown)| == s * s;
    assert |DirLines(n, DiagUp)| == s * s;
    if n == 3 {
      assert n * s == 3 && s * s == 1;
    } else if n == 4 {
      assert n * s == 8 && s * s == 4;
    }
  }

  /** The line pushed at (o, i) is the run along `d` from the start cell
      that the loop indices denote. */
  lemma MakeLineIsRun(n: nat, d: Dir, o: nat, i: nat)
    requires o < Outer(n, d) && i < Span(n)
    ensures IsRun(n, MakeLine(n, d, o, i))
  {
    match d
    case Horizontal =>
      assert RunFits(n, d, o, i) && MakeLine(n, d, o, i) == RunLine(n, d, o, i);
    case Vertical =>
      assert RunFits(n, d, i, o) && MakeLine(n, d, o, i) == RunLine(n, d, i, o);
    case DiagDown =>
      assert RunFits(n, d, o, i) && MakeLine(n, d, o, i) == RunLine(n, d, o, i);
    case DiagUp =>
      assert RunFits(n, d, o, i + 2) && MakeLine(n, d, o, i) == RunLine(n, d, o, i + 2);
  }

  lemma RowAreRuns(n: nat, d: Dir, o: nat, k: nat)
    requires o < Outer(n, d) && k <= Span(n)
    ensures forall l :: l in Row(n, d, o, k) ==> IsRun(n, l)
  {
    forall i | 0 <= i < k
      ensures IsRun(n, Row(n, d, o, k)[i])
    {
      MakeLineIsRun(n, d, o, i);
    }
  }

  lemma {:induction false} PassesAreRuns(n: nat, d: Dir, o: nat)
    requires o <= Outer(n, d)
    ensures forall l :: l in Flatten(Passes(n, d, o)) ==> IsRun(n, l)
  {
    if o > 0 {
      PassesStep(n, d, o - 1);
      PassesAreRuns(n, d, o - 1);
      RowAreRuns(n, d, o - 1, Span(n));
    }
  }

  /** Every generated line is a straight run of three consecutive cells of
      one row, one column or one diagonal. */
  lemma LinesAreRuns(n: nat)
    ensures forall l :: l in AllLines(n) ==> IsRun(n, l)
  {
    PassesAreRuns(n, Horizontal, Outer(n, Horizontal));
    PassesAreRuns(n, Vertical, Outer(n, Vertical));
    PassesAreRuns(n, DiagDown, Outer(n, DiagDown));
    PassesAreRuns(n, DiagUp, Outer(n, DiagUp));
  }

  lemma CellIndexBound(n: nat, r: int, c: int)
    requires OnGrid(n, r, c)
    ensures 0 <= r * n + c < n * n
  {
    assert r * n + c < r * n + n == (r + 1) * n;
    assert (r + 1) * n <= n * n;
  }

  /** A run's three indices are distinct, increasing and on the board. */
  lemma RunInBounds(n: nat, d: Dir, r: int, c: int)
    requires RunFits(n, d, r, c)
    ensures var l := RunLine(n, d, r, c); 0 <= l.a < l.b < l.c < n * n
  {
    CellIndexBound(n, r, c);
    CellIndexBound(n, r + 2 * StepRow(d), c + 2 * StepCol(d));
  }

  /** Every generated line consists of three distinct indices in [0, N²). */
  lemma LinesInBounds(n: nat, l: Line)
    requires l in AllLines(n)
    ensures 0 <= l.a < l.b < l.c < n * n
  {
    LinesAreRuns(n);
    var d, r, c :| RunFits(n, d, r, c) && l == RunLine(n, d, r, c);
    RunInBounds(n, d, r, c);
  }

  /** The lines of an N×N grid only name cells of its N² cells. */
  lemma AllLinesInBounds(n: nat)
    ensures forall l :: l in AllLines(n) ==> 0 <= l.a < l.b < l.c < n * n
  {
    forall l | l in AllLines(n)
      ensures 0 <= l.a < l.b < l.c < n * n
    {
      LinesInBounds(n, l);
    }
  }

  lemma RowContains(n: nat, d: Dir, o: nat, k: nat, i: nat)
    requires i < k
    ensures MakeLine(n, d, o, i) in Row(n, d, o, k)
  {
    assert Row(n, d, o, k)[i] == MakeLine(n, d, o, i);
  }

  lemma {:induction false} PassesContain(n: nat, d: Dir, o: nat, p: nat, i: nat)
    requires p < o && i < Span(n)
    ensures MakeLine(n, d, p, i) in Flatten(Passes(n, d, o))
  {
    PassesStep(n, d, o - 1);
    if p == o - 1 {
      RowContains(n, d, p, Span(n), i);
    } else {
      PassesContain(n, d, o - 1, p, i);
    }
  }

  /** Conversely, every straight run of three on the grid is generated. */
  lemma RunsAreLines(n: nat, d: Dir, r: int, c: int)
    requires RunFits(n, d, r, c)
    ensures RunLine(n, d, r, c) in AllLines(n)
  {
    match d
    case Horizontal =>
      assert MakeLine(n, d, r, c) == RunLine(n, d, r, c);
      PassesContain(n, d, Outer(n, d), r, c);
    case Vertical =>
      assert MakeLine(n, d, c, r) == RunLine(n, d, r, c);
      PassesContain(n, d, Outer(n, d), c, r);
    case DiagDown =>
      assert MakeLine(n, d, r, c) == RunLine(n, d, r, c);
      PassesContain(n, d, Outer(n, d), r, c);
    case DiagUp =>
      assert MakeLine(n, d, r, c - 2) == RunLine(n, d, r, c);
      PassesContain(n, d, Outer(n, d), r, c - 2);
  }
}
