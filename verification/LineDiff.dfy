/** `diff_lines` (src/agentit/portal/content_diff.py): tagged rows from difflib's opcodes. The
    opcodes are an input; what difflib promises of them is `Tiling`. */
module LineDiff {
  import opened Options
  import opened Sequences

  datatype Tag = Equal | Delete | Insert | Replace

  datatype Opcode = Opcode(tag: Tag, i1: nat, i2: nat, j1: nat, j2: nat)

  datatype Kind = Context | Add | Remove

  datatype Row = Row(kind: Kind, text: string)

  predicate Fits(op: Opcode, a: seq<string>, b: seq<string>)
  {
    && op.i1 <= op.i2 <= |a| && op.j1 <= op.j2 <= |b|
    && match op.tag {
         case Equal => a[op.i1..op.i2] == b[op.j1..op.j2]
         case Delete => op.j1 == op.j2
         case Insert => op.i1 == op.i2
         case Replace => true
       }
  }

  /** Each opcode starts where the one before it ended, and together they cover a[..i] and b[..j]. */
  predicate Tiling(ops: seq<Opcode>, a: seq<string>, b: seq<string>, i: nat, j: nat)
  {
    if ops == [] then i == 0 && j == 0
    else
      var op := ops[|ops| - 1];
      Fits(op, a, b) && op.i2 == i && op.j2 == j && Tiling(ops[..|ops| - 1], a, b, op.i1, op.j1)
  }

  function Tagged(kind: Kind, lines: seq<string>): (rows: seq<Row>)
    ensures |rows| == |lines|
  {
    seq(|lines|, i requires 0 <= i < |lines| => Row(kind, lines[i]))
  }

  function RowsOf(op: Opcode, a: seq<string>, b: seq<string>): seq<Row>
    requires Fits(op, a, b)
  {
    match op.tag
    case Equal => Tagged(Context, a[op.i1..op.i2])
    case Delete => Tagged(Remove, a[op.i1..op.i2])
    case Insert => Tagged(Add, b[op.j1..op.j2])
    case Replace => Tagged(Remove, a[op.i1..op.i2]) + Tagged(Add, b[op.j1..op.j2])
  }

  function Rows(ops: seq<Opcode>, a: seq<string>, b: seq<string>): seq<Row>
    requires forall k :: 0 <= k < |ops| ==> Fits(ops[k], a, b)
  {
    if ops == [] then [] else Rows(ops[..|ops| - 1], a, b) + RowsOf(ops[|ops| - 1], a, b)
  }

  function BeforeOf(row: Row): seq<string> { if row.kind.Add? then [] else [row.text] }

  function AfterOf(row: Row): seq<string> { if row.kind.Remove? then [] else [row.text] }

  /** The lines before the edit: context and removed rows. */
  function Before(rows: seq<Row>): seq<string>
  {
    if rows == [] then []
    else Before(rows[..|rows| - 1]) + BeforeOf(rows[|rows| - 1])
  }

  /** The lines after the edit: context and added rows. */
  function After(rows: seq<Row>): seq<string>
  {
    if rows == [] then []
    else After(rows[..|rows| - 1]) + AfterOf(rows[|rows| - 1])
  }

  /** One row of this kind per line, in order. */
  ghost predicate AreRows(rows: seq<Row>, kind: Kind, lines: seq<string>)
  {
    |rows| == |lines| && forall k :: 0 <= k < |rows| ==> rows[k] == Row(kind, lines[k])
  }

  /** What an opcode is shown as: equal lines as context rows, deleted ones as removed rows, inserted ones as
      added rows, and a replaced block as its removed rows, then its added ones. */
  ghost predicate Shows(block: seq<Row>, op: Opcode, a: seq<string>, b: seq<string>)
  {
    && Fits(op, a, b)
    && var (removed, added) := (a[op.i1..op.i2], b[op.j1..op.j2]);
    match op.tag
    case Equal => AreRows(block, Context, removed)
    case Delete => AreRows(block, Remove, removed)
    case Insert => AreRows(block, Add, added)
    case Replace =>
      exists cut :: 0 <= cut <= |block| && AreRows(block[..cut], Remove, removed) && AreRows(block[cut..], Add, added)
  }

  /** The rows are what the opcodes are shown as, one block after the other. */
  ghost predicate InBlocks(rows: seq<Row>, ops: seq<Opcode>, a: seq<string>, b: seq<string>)
    decreases |ops|
  {
    if ops == [] then rows == []
    else
      exists cut :: 0 <= cut <= |rows| && InBlocks(rows[..cut], ops[..|ops| - 1], a, b) &&
                    Shows(rows[cut..], ops[|ops| - 1], a, b)
  }

  method DiffLines(a: seq<string>, b: seq<string>, ops: seq<Opcode>) returns (rows: seq<Row>)
    requires Tiling(ops, a, b, |a|, |b|)
    ensures Before(rows) == a && After(rows) == b
    ensures |rows| <= |a| + |b|
    ensures InBlocks(rows, ops, a, b)
  {
    EachFits(ops, a, b, |a|, |b|);
    rows := [];
    for k := 0 to |ops|
      invariant rows == Rows(ops[..k], a, b)
    {
      assert ops[..k + 1][..k] == ops[..k];
      var op := ops[k];
      match op.tag {
        case Equal => rows := rows + Tagged(Context, a[op.i1..op.i2]);
        case Delete => rows := rows + Tagged(Remove, a[op.i1..op.i2]);
        case Insert => rows := rows + Tagged(Add, b[op.j1..op.j2]);
        case Replace =>
          ConcatAssociates(rows, Tagged(Remove, a[op.i1..op.i2]), Tagged(Add, b[op.j1..op.j2]));
          rows := rows + Tagged(Remove, a[op.i1..op.i2]);
          rows := rows + Tagged(Add, b[op.j1..op.j2]);
      }
    }
    assert ops[..|ops|] == ops;
    TilingReconstructs(ops, a, b, |a|, |b|);
    assert a[..|a|] == a && b[..|b|] == b;
    RowsAreFew(rows);
    InBlocksIff(rows, ops, a, b);
  }

  lemma {:induction false} EachFits(ops: seq<Opcode>, a: seq<string>, b: seq<string>, i: nat, j: nat)
    requires Tiling(ops, a, b, i, j)
    ensures forall k :: 0 <= k < |ops| ==> Fits(ops[k], a, b)
    ensures i <= |a| && j <= |b|
    decreases |ops|
  {
    if ops != [] {
      var op := ops[|ops| - 1];
      EachFits(ops[..|ops| - 1], a, b, op.i1, op.j1);
    }
  }

  lemma {:induction false} RowsAreFew(rows: seq<Row>)
    ensures |rows| <= |Before(rows)| + |After(rows)|
    decreases |rows|
  {
    if rows != [] {
      RowsAreFew(rows[..|rows| - 1]);
    }
  }

  lemma ShowsIff(block: seq<Row>, op: Opcode, a: seq<string>, b: seq<string>)
    requires Fits(op, a, b)
    ensures Shows(block, op, a, b) <==> block == RowsOf(op, a, b)
  {
    if op.tag.Replace? {
      var removed := Tagged(Remove, a[op.i1..op.i2]);
      var cut := |removed|;
      if block == RowsOf(op, a, b) {
        assert block[..cut] == removed && block[cut..] == Tagged(Add, b[op.j1..op.j2]);
      }
      if Shows(block, op, a, b) {
        assert block == block[..cut] + block[cut..];
      }
    }
  }

  lemma CutApart(front: seq<Row>, back: seq<Row>)
    ensures (front + back)[..|front|] == front && (front + back)[|front|..] == back
  {
  }

  lemma {:induction false} RowsAreInBlocks(ops: seq<Opcode>, a: seq<string>, b: seq<string>)
    requires forall k :: 0 <= k < |ops| ==> Fits(ops[k], a, b)
    ensures InBlocks(Rows(ops, a, b), ops, a, b)
    decreases |ops|
  {
    if ops != [] {
      var (rest, last) := (ops[..|ops| - 1], ops[|ops| - 1]);
      RowsAreInBlocks(rest, a, b);
      CutApart(Rows(rest, a, b), RowsOf(last, a, b));
      ShowsIff(RowsOf(last, a, b), last, a, b);
    }
  }

  /** The rows of a diff are the only ones that show its opcodes. */
  lemma {:induction false} InBlocksIff(rows: seq<Row>, ops: seq<Opcode>, a: seq<string>, b: seq<string>)
    requires forall k :: 0 <= k < |ops| ==> Fits(ops[k], a, b)
    ensures InBlocks(rows, ops, a, b) <==> rows == Rows(ops, a, b)
    decreases |ops|
  {
    RowsAreInBlocks(ops, a, b);
    if ops != [] && InBlocks(rows, ops, a, b) {
      var (rest, last) := (ops[..|ops| - 1], ops[|ops| - 1]);
      var cut :| 0 <= cut <= |rows| && InBlocks(rows[..cut], rest, a, b) && Shows(rows[cut..], last, a, b);
      InBlocksIff(rows[..cut], rest, a, b);
      ShowsIff(rows[cut..], last, a, b);
      Joined(rows, cut, Rows(rest, a, b), RowsOf(last, a, b));
    }
  }

  lemma Joined(rows: seq<Row>, cut: nat, front: seq<Row>, back: seq<Row>)
    requires cut <= |rows| && rows[..cut] == front && rows[cut..] == back
    ensures rows == front + back
  {
  }

  /** A text against itself, matched throughout, is context only. */
  lemma {:induction false} EqualTextsAreContext(rows: seq<Row>, ops: seq<Opcode>, a: seq<string>, b: seq<string>)
    requires InBlocks(rows, ops, a, b) && forall k :: 0 <= k < |ops| ==> ops[k].tag.Equal?
    ensures forall k :: 0 <= k < |rows| ==> rows[k].kind.Context?
    decreases |ops|
  {
    if ops != [] {
      var (rest, last) := (ops[..|ops| - 1], ops[|ops| - 1]);
      var cut :| 0 <= cut <= |rows| && InBlocks(rows[..cut], rest, a, b) && Shows(rows[cut..], last, a, b);
      EqualTextsAreContext(rows[..cut], rest, a, b);
      forall k | 0 <= k < |rows|
        ensures rows[k].kind.Context?
      {
        assert rows[k] == if k < cut then rows[..cut][k] else rows[cut..][k - cut];
      }
    }
  }

  lemma OneMoreRow(r: seq<Row>, row: Row)
    ensures Before(r + [row]) == Before(r) + BeforeOf(row) && After(r + [row]) == After(r) + AfterOf(row)
  {
    assert (r + [row])[..|r|] == r;
  }

  lemma {:induction false} ReadsConcatenate(r: seq<Row>, s: seq<Row>)
    ensures Before(r + s) == Before(r) + Before(s) && After(r + s) == After(r) + After(s)
    decreases |s|
  {
    if s == [] {
      assert r + s == r;
    } else {
      var (rest, last) := (s[..|s| - 1], s[|s| - 1]);
      ReadsConcatenate(r, rest);
      assert s == rest + [last];
      ConcatAssociates(r, rest, [last]);
      OneMoreRow(rest, last);
      OneMoreRow(r + rest, last);
      ConcatAssociates(Before(r), Before(rest), BeforeOf(last));
      ConcatAssociates(After(r), After(rest), AfterOf(last));
    }
  }

  function BeforeAll(kind: Kind, lines: seq<string>): seq<string> { if kind.Add? then [] else lines }

  function AfterAll(kind: Kind, lines: seq<string>): seq<string> { if kind.Remove? then [] else lines }

  lemma OneMoreLine(kind: Kind, lines: seq<string>, line: string)
    ensures BeforeAll(kind, lines + [line]) == BeforeAll(kind, lines) + BeforeOf(Row(kind, line))
    ensures AfterAll(kind, lines + [line]) == AfterAll(kind, lines) + AfterOf(Row(kind, line))
  {
  }

  lemma OneMoreTagged(kind: Kind, lines: seq<string>, line: string, rows: seq<Row>)
    requires Before(rows) == BeforeAll(kind, lines) && After(rows) == AfterAll(kind, lines)
    ensures Before(rows + [Row(kind, line)]) == BeforeAll(kind, lines + [line])
    ensures After(rows + [Row(kind, line)]) == AfterAll(kind, lines + [line])
  {
    OneMoreRow(rows, Row(kind, line));
    OneMoreLine(kind, lines, line);
  }

  lemma TaggedIsSnoc(kind: Kind, lines: seq<string>, line: string)
    ensures Tagged(kind, lines + [line]) == Tagged(kind, lines) + [Row(kind, line)]
  {
  }

  lemma {:induction false} TaggedReads(kind: Kind, lines: seq<string>)
    ensures Before(Tagged(kind, lines)) == BeforeAll(kind, lines)
    ensures After(Tagged(kind, lines)) == AfterAll(kind, lines)
    decreases |lines|
  {
    if lines == [] {
      assert Tagged(kind, lines) == [];
    } else {
      var (rest, line) := (lines[..|lines| - 1], lines[|lines| - 1]);
      assert lines == rest + [line];
      TaggedIsSnoc(kind, rest, line);
      TaggedReads(kind, rest);
      OneMoreTagged(kind, rest, line, Tagged(kind, rest));
    }
  }

  lemma OpcodeReads(op: Opcode, a: seq<string>, b: seq<string>)
    requires Fits(op, a, b)
    ensures Before(RowsOf(op, a, b)) == a[op.i1..op.i2] && After(RowsOf(op, a, b)) == b[op.j1..op.j2]
  {
    match op.tag
    case Equal => TaggedReads(Context, a[op.i1..op.i2]);
    case Delete => OneSidedReads(Remove, a[op.i1..op.i2], b[op.j1..op.j2]);
    case Insert => OneSidedReads(Add, b[op.j1..op.j2], a[op.i1..op.i2]);
    case Replace => ReplaceReads(a[op.i1..op.i2], b[op.j1..op.j2]);
  }

  lemma OneSidedReads(kind: Kind, lines: seq<string>, none: seq<string>)
    requires none == [] && kind != Context
    ensures Before(Tagged(kind, lines)) == if kind == Remove then lines else none
    ensures After(Tagged(kind, lines)) == if kind == Remove then none else lines
  {
    TaggedReads(kind, lines);
  }

  lemma ReplaceReads(removed: seq<string>, added: seq<string>)
    ensures var rows := Tagged(Remove, removed) + Tagged(Add, added); Before(rows) == removed && After(rows) == added
  {
    TaggedReads(Remove, removed);
    TaggedReads(Add, added);
    ReadsConcatenate(Tagged(Remove, removed), Tagged(Add, added));
  }

  lemma Extends(s: seq<string>, i: nat, j: nat)
    requires i <= j <= |s|
    ensures s[..i] + s[i..j] == s[..j]
  {
  }

  /** Nothing of either text is lost, repeated or moved. */
  lemma {:induction false} TilingReconstructs(ops: seq<Opcode>, a: seq<string>, b: seq<string>, i: nat, j: nat)
    requires Tiling(ops, a, b, i, j)
    requires i <= |a| && j <= |b| && forall k :: 0 <= k < |ops| ==> Fits(ops[k], a, b)
    ensures Before(Rows(ops, a, b)) == a[..i] && After(Rows(ops, a, b)) == b[..j]
    decreases |ops|
  {
    if ops != [] {
      var op := ops[|ops| - 1];
      TilingReconstructs(ops[..|ops| - 1], a, b, op.i1, op.j1);
      OpcodeExtends(Rows(ops[..|ops| - 1], a, b), op, a, b);
    }
  }

  lemma OpcodeExtends(rows: seq<Row>, op: Opcode, a: seq<string>, b: seq<string>)
    requires Fits(op, a, b) && Before(rows) == a[..op.i1] && After(rows) == b[..op.j1]
    ensures Before(rows + RowsOf(op, a, b)) == a[..op.i2] && After(rows + RowsOf(op, a, b)) == b[..op.j2]
  {
    OpcodeReads(op, a, b);
    ReadsConcatenate(rows, RowsOf(op, a, b));
    Extends(a, op.i1, op.i2);
    Extends(b, op.j1, op.j2);
  }

  // ---------------------------------------------------------------- rows as a patch

  /** Applies rows to a text, checking each context and removed line against it. */
  function Patch(lines: seq<string>, rows: seq<Row>): Option<seq<string>>
    decreases |rows|
  {
    if rows == [] then (if lines == [] then Some([]) else None)
    else
      var row := rows[0];
      if row.kind.Add? then Prepend([row.text], Patch(lines, rows[1..]))
      else if lines == [] || lines[0] != row.text then None
      else Prepend(if row.kind.Context? then [row.text] else [], Patch(lines[1..], rows[1..]))
  }

  function Prepend(head: seq<string>, tail: Option<seq<string>>): Option<seq<string>>
  {
    if tail.Some? then Some(head + tail.value) else None
  }

  function Undo(rows: seq<Row>): seq<Row>
  {
    if rows == [] then []
    else
      var row := rows[|rows| - 1];
      Undo(rows[..|rows| - 1]) +
      [row.(kind := match row.kind case Context => Context case Add => Remove case Remove => Add)]
  }

  lemma OneRow(row: Row)
    ensures Before([row]) == BeforeOf(row) && After([row]) == AfterOf(row)
  {
    OneMoreRow([], row);
    assert [] + [row] == [row];
  }

  lemma ReadsSplit(rows: seq<Row>)
    requires rows != []
    ensures Before(rows) == BeforeOf(rows[0]) + Before(rows[1..])
    ensures After(rows) == AfterOf(rows[0]) + After(rows[1..])
  {
    assert rows == [rows[0]] + rows[1..];
    OneRow(rows[0]);
    ReadsConcatenate([rows[0]], rows[1..]);
  }

  /** Rows patch one text into another exactly when they read back as the two texts. */
  lemma {:induction false} PatchIff(lines: seq<string>, rows: seq<Row>, result: seq<string>)
    ensures Patch(lines, rows) == Some(result) <==> Before(rows) == lines && After(rows) == result
    decreases |rows|, 0
  {
    if rows != [] {
      ReadsSplit(rows);
      var (row, rest) := (rows[0], rows[1..]);
      if row.kind.Add? {
        PatchRest(lines, rest, [row.text], result);
      } else if lines != [] && lines[0] == row.text {
        PatchRest(lines[1..], rest, if row.kind.Context? then [row.text] else [], result);
        assert lines == [row.text] + lines[1..];
        assert [row.text] + Before(rest) == lines <==> Before(rest) == lines[1..];
      }
    }
  }

  lemma {:induction false} PatchRest(lines: seq<string>, rest: seq<Row>, head: seq<string>, result: seq<string>)
    ensures Prepend(head, Patch(lines, rest)) == Some(result) <==> Before(rest) == lines && head + After(rest) == result
    decreases |rest|, 1
  {
    PatchIff(lines, rest, After(rest));
    if Patch(lines, rest).Some? {
      PatchIff(lines, rest, Patch(lines, rest).value);
    }
  }

  lemma {:induction false} UndoSwaps(rows: seq<Row>)
    ensures Before(Undo(rows)) == After(rows) && After(Undo(rows)) == Before(rows)
    decreases |rows|
  {
    if rows != [] {
      UndoSwaps(rows[..|rows| - 1]);
    }
  }

  /** The diff patches the original into the edited text, and undone, the edited one back. */
  lemma DiffRoundTrips(a: seq<string>, b: seq<string>, ops: seq<Opcode>)
    requires Tiling(ops, a, b, |a|, |b|) && forall k :: 0 <= k < |ops| ==> Fits(ops[k], a, b)
    ensures var rows := Rows(ops, a, b); Patch(a, rows) == Some(b) && Patch(b, Undo(rows)) == Some(a)
  {
    var rows := Rows(ops, a, b);
    TilingReconstructs(ops, a, b, |a|, |b|);
    assert a[..|a|] == a && b[..|b|] == b;
    UndoSwaps(rows);
    PatchIff(a, rows, b);
    PatchIff(b, Undo(rows), a);
  }
}
