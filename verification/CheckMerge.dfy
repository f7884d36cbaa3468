/** Merging check findings into analyzer scores and suppressing findings
    (`_merge_check_findings`, `_apply_suppressions` of src/agentit/runner.py). */
module CheckMerge {
  import opened Scoring
  import opened Sequences

  datatype Scored = Scored(dimension: Dimension, score: int, maxScore: int, findings: seq<Finding>)

  function Penalty(s: Severity): int
  {
    match s case Critical => 25 case High => 20 case Medium => 10 case Low => 3 case Info => 0
  }

  function Penalties(findings: seq<Finding>): int
  {
    if findings == [] then 0 else Penalties(findings[..|findings| - 1]) + Penalty(findings[|findings| - 1].severity)
  }

  /** `calculate_score` (src/agentit/analyzers/base.py). */
  function CalculateScore(findings: seq<Finding>): int { Max(0, Min(100, 100 - Penalties(findings))) }

  // ---------------------------------------------------------------- merging

  function Keys(findings: seq<Finding>): set<(string, string)>
  {
    set f | f in findings :: (f.category, f.description)
  }

  /** The findings whose category and description are not among `known`. */
  function Unknown(findings: seq<Finding>, known: set<(string, string)>): seq<Finding>
  {
    if findings == [] then []
    else
      var last := findings[|findings| - 1];
      Unknown(findings[..|findings| - 1], known) + (if (last.category, last.description) in known then [] else [last])
  }

  /** A dictionary by dimension; `added` are the keys that were not analysed, in insertion order. */
  datatype Board = Board(byDim: map<Dimension, Scored>, added: seq<Dimension>)

  function OfScores(scores: seq<Scored>): map<Dimension, Scored>
  {
    if scores == [] then map[]
    else OfScores(scores[..|scores| - 1])[scores[|scores| - 1].dimension := scores[|scores| - 1]]
  }

  function Extended(s: Scored, findings: seq<Finding>): Scored
  {
    var unseen := Unknown(findings, Keys(s.findings));
    if unseen == [] then s
    else Scored(s.dimension, CalculateScore(s.findings + unseen), s.maxScore, s.findings + unseen)
  }

  function MergeDimension(b: Board, d: Dimension, findings: seq<Finding>): Board
  {
    if d in b.byDim then b.(byDim := b.byDim[d := Extended(b.byDim[d], findings)])
    else Board(b.byDim[d := Scored(d, CalculateScore(findings), 100, findings)], b.added + [d])
  }

  type Extra = seq<(Dimension, seq<Finding>)>

  function MergeAll(b: Board, extra: Extra): Board
  {
    if extra == [] then b
    else MergeDimension(MergeAll(b, extra[..|extra| - 1]), extra[|extra| - 1].0, extra[|extra| - 1].1)
  }

  function PadOne(b: Board, d: Dimension): Board
  {
    if d in b.byDim then b else Board(b.byDim[d := Scored(d, 100, 100, [])], b.added + [d])
  }

  /** The checked dimensions in whatever order the set is walked. */
  function Pad(b: Board, checked: seq<Dimension>): Board
  {
    if checked == [] then b else PadOne(Pad(b, checked[..|checked| - 1]), checked[|checked| - 1])
  }

  function BoardOf(scores: seq<Scored>, extra: Extra, checked: seq<Dimension>): Board
  {
    Pad(MergeAll(Board(OfScores(scores), []), extra), checked)
  }

  function Listed(scores: seq<Scored>, b: Board): (out: seq<Scored>)
    requires forall i :: 0 <= i < |scores| ==> scores[i].dimension in b.byDim
    requires forall i :: 0 <= i < |b.added| ==> b.added[i] in b.byDim
    ensures |out| == |scores| + |b.added|
  {
    seq(|scores|, i requires 0 <= i < |scores| => b.byDim[scores[i].dimension]) +
    seq(|b.added|, i requires 0 <= i < |b.added| => b.byDim[b.added[i]])
  }

  function Merged(scores: seq<Scored>, extra: Extra, checked: seq<Dimension>): seq<Scored>
  {
    BoardIsComplete(scores, extra, checked);
    Listed(scores, BoardOf(scores, extra, checked))
  }

  method MergeCheckFindings(scores: seq<Scored>, extra: Extra, checked: seq<Dimension>) returns (out: seq<Scored>)
    ensures out == Merged(scores, extra, checked)
  {
    BoardIsComplete(scores, extra, checked);
    var b := Board(map[], []);
    for i := 0 to |scores|
      invariant b == Board(OfScores(scores[..i]), [])
    {
      assert scores[..i + 1][..i] == scores[..i];
      b := b.(byDim := b.byDim[scores[i].dimension := scores[i]]);
    }
    assert scores[..|scores|] == scores;
    ghost var analysed := b;
    for i := 0 to |extra|
      invariant b == MergeAll(analysed, extra[..i])
    {
      assert extra[..i + 1][..i] == extra[..i];
      var (d, findings) := extra[i];
      if d in b.byDim {
        var existing := b.byDim[d];
        var newFindings := Unknown(findings, Keys(existing.findings));
        if newFindings != [] {
          var merged := existing.findings + newFindings;
          b := b.(byDim := b.byDim[d := Scored(existing.dimension, CalculateScore(merged), existing.maxScore, merged)]);
        } else {
          assert b.byDim[d := existing] == b.byDim;
        }
      } else {
        b := Board(b.byDim[d := Scored(d, CalculateScore(findings), 100, findings)], b.added + [d]);
      }
    }
    assert extra[..|extra|] == extra;
    ghost var filled := b;
    for i := 0 to |checked|
      invariant b == Pad(filled, checked[..i])
    {
      assert checked[..i + 1][..i] == checked[..i];
      if checked[i] !in b.byDim {
        b := Board(b.byDim[checked[i] := Scored(checked[i], 100, 100, [])], b.added + [checked[i]]);
      }
    }
    assert checked[..|checked|] == checked;
    out := Listed(scores, b);
  }

  // ---------------------------------------------------------------- what a merge keeps

  /** Keys name their entries; the added keys are distinct and not among `analysed`. */
  ghost predicate Sane(b: Board, analysed: set<Dimension>)
  {
    && (forall d :: d in b.byDim ==> b.byDim[d].dimension == d)
    && (forall d :: d in b.byDim <==> d in analysed || d in b.added)
    && Distinct(b.added) && (forall d :: d in b.added ==> d !in analysed)
  }

  /** `a` grew into `b`: no entry lost, no finding lost or moved. */
  ghost predicate Grew(a: Board, b: Board)
  {
    forall d :: d in a.byDim ==> d in b.byDim && a.byDim[d].findings <= b.byDim[d].findings
  }

  /** Every one of these findings is already known under `d`. */
  ghost predicate Covered(b: Board, d: Dimension, findings: seq<Finding>)
  {
    d in b.byDim && forall f :: f in findings ==> (f.category, f.description) in Keys(b.byDim[d].findings)
  }

  function Dims(scores: seq<Scored>): (ds: seq<Dimension>)
    ensures |ds| == |scores|
  {
    seq(|scores|, i requires 0 <= i < |scores| => scores[i].dimension)
  }

  function DimSet(scores: seq<Scored>): set<Dimension> { set s | s in scores :: s.dimension }

  lemma {:induction false} OfScoresIsSane(scores: seq<Scored>)
    ensures Sane(Board(OfScores(scores), []), DimSet(scores))
    ensures forall d :: d in OfScores(scores) ==> OfScores(scores)[d] in scores
    decreases |scores|
  {
    if scores != [] {
      var (rest, last) := (scores[..|scores| - 1], scores[|scores| - 1]);
      OfScoresIsSane(rest);
      assert scores == rest + [last];
      assert DimSet(scores) == DimSet(rest) + {last.dimension};
    }
  }

  lemma {:induction false} UnknownIs(findings: seq<Finding>, known: set<(string, string)>)
    ensures forall f :: f in Unknown(findings, known) <==> f in findings && (f.category, f.description) !in known
    decreases |findings|
  {
    if findings != [] {
      UnknownIs(findings[..|findings| - 1], known);
      assert findings == findings[..|findings| - 1] + [findings[|findings| - 1]];
    }
  }

  lemma DimensionMerges(b: Board, d: Dimension, findings: seq<Finding>, analysed: set<Dimension>)
    requires Sane(b, analysed)
    ensures var b' := MergeDimension(b, d, findings);
            Sane(b', analysed) && Grew(b, b') && Covered(b', d, findings)
  {
    if d in b.byDim {
      UnknownIs(findings, Keys(b.byDim[d].findings));
      var (known, unseen) := (b.byDim[d].findings, Unknown(findings, Keys(b.byDim[d].findings)));
      forall f | f in findings
        ensures (f.category, f.description) in Keys(known + unseen)
      {
        if (f.category, f.description) in Keys(known) {
          var g :| g in known && (g.category, g.description) == (f.category, f.description);
          assert g in known + unseen;
        } else {
          assert f in unseen && f in known + unseen;
        }
      }
    }
  }

  lemma CoveredGrows(a: Board, b: Board, d: Dimension, findings: seq<Finding>)
    requires Covered(a, d, findings) && Grew(a, b)
    ensures Covered(b, d, findings)
  {
    forall f | f in findings
      ensures (f.category, f.description) in Keys(b.byDim[d].findings)
    {
      var g :| g in a.byDim[d].findings && (g.category, g.description) == (f.category, f.description);
      assert g in b.byDim[d].findings;
    }
  }

  lemma {:induction false} AllMerges(b: Board, extra: Extra, analysed: set<Dimension>)
    requires Sane(b, analysed)
    ensures Sane(MergeAll(b, extra), analysed) && Grew(b, MergeAll(b, extra))
    decreases |extra|
  {
    if extra != [] {
      var n := |extra| - 1;
      AllMerges(b, extra[..n], analysed);
      DimensionMerges(MergeAll(b, extra[..n]), extra[n].0, extra[n].1, analysed);
      GrewTwice(b, MergeAll(b, extra[..n]), MergeAll(b, extra));
    }
  }

  lemma {:induction false} AllAreCovered(b: Board, extra: Extra, analysed: set<Dimension>, i: nat)
    requires Sane(b, analysed) && i < |extra|
    ensures Covered(MergeAll(b, extra), extra[i].0, extra[i].1)
    decreases |extra|
  {
    var n := |extra| - 1;
    AllMerges(b, extra[..n], analysed);
    DimensionMerges(MergeAll(b, extra[..n]), extra[n].0, extra[n].1, analysed);
    if i < n {
      AllAreCovered(b, extra[..n], analysed, i);
      CoveredGrows(MergeAll(b, extra[..n]), MergeAll(b, extra), extra[i].0, extra[i].1);
    }
  }

  lemma {:induction false} MergedDimensions(b: Board, extra: Extra, d: Dimension)
    requires d in MergeAll(b, extra).byDim
    ensures d in b.byDim || exists i :: 0 <= i < |extra| && extra[i].0 == d
    decreases |extra|
  {
    if extra != [] {
      var n := |extra| - 1;
      if d in MergeAll(b, extra[..n]).byDim {
        MergedDimensions(b, extra[..n], d);
        assert forall i :: 0 <= i < n ==> extra[..n][i] == extra[i];
      } else {
        assert extra[n].0 == d;
      }
    }
  }

  lemma GrewTwice(a: Board, b: Board, c: Board)
    requires Grew(a, b) && Grew(b, c)
    ensures Grew(a, c)
  {
  }

  lemma {:induction false} PadKeeps(b: Board, checked: seq<Dimension>, analysed: set<Dimension>)
    requires Sane(b, analysed)
    ensures var b' := Pad(b, checked);
            && Sane(b', analysed)
            && (forall d :: d in b.byDim ==> d in b'.byDim && b'.byDim[d] == b.byDim[d])
            && (forall d :: d in b'.byDim <==> d in b.byDim || d in checked)
    decreases |checked|
  {
    if checked != [] {
      PadKeeps(b, checked[..|checked| - 1], analysed);
      assert checked == checked[..|checked| - 1] + [checked[|checked| - 1]];
    }
  }

  /** The board after a merge: sane, grown from the analysers' scores, every check finding known,
      and exactly the analysed and checked dimensions present. */
  lemma MergeBuildsTheBoard(scores: seq<Scored>, extra: Extra, checked: seq<Dimension>)
    ensures var b := BoardOf(scores, extra, checked);
            && Sane(b, DimSet(scores))
            && Grew(Board(OfScores(scores), []), b)
            && (forall i :: 0 <= i < |extra| ==> Covered(b, extra[i].0, extra[i].1))
            && (forall d :: d in checked ==> d in b.byDim)
            && (forall d :: d in b.byDim ==> d in DimSet(scores) || d in checked || exists i :: 0 <= i < |extra| && extra[i].0 == d)
  {
    OfScoresIsSane(scores);
    var start := Board(OfScores(scores), []);
    AllMerges(start, extra, DimSet(scores));
    var m := MergeAll(start, extra);
    PadKeeps(m, checked, DimSet(scores));
    var b := BoardOf(scores, extra, checked);
    assert Grew(m, b);
    GrewTwice(start, m, b);
    forall d | d in m.byDim
      ensures d in DimSet(scores) || exists i :: 0 <= i < |extra| && extra[i].0 == d
    {
      MergedDimensions(start, extra, d);
    }
    forall i | 0 <= i < |extra|
      ensures Covered(b, extra[i].0, extra[i].1)
    {
      AllAreCovered(start, extra, DimSet(scores), i);
      CoveredGrows(m, b, extra[i].0, extra[i].1);
    }
  }

  lemma BoardIsComplete(scores: seq<Scored>, extra: Extra, checked: seq<Dimension>)
    ensures var b := BoardOf(scores, extra, checked);
            && (forall i :: 0 <= i < |scores| ==> scores[i].dimension in b.byDim)
            && (forall i :: 0 <= i < |b.added| ==> b.added[i] in b.byDim)
  {
    MergeBuildsTheBoard(scores, extra, checked);
    forall i | 0 <= i < |scores|
      ensures scores[i].dimension in DimSet(scores)
    {
      assert scores[i] in scores;
    }
  }

  lemma {:induction false} DistinctScoreIsItsEntry(scores: seq<Scored>, i: nat)
    requires i < |scores|
    requires forall j :: 0 <= j < |scores| && j != i ==> scores[j].dimension != scores[i].dimension
    ensures scores[i].dimension in OfScores(scores) && OfScores(scores)[scores[i].dimension] == scores[i]
    decreases |scores|
  {
    if i < |scores| - 1 {
      DistinctScoreIsItsEntry(scores[..|scores| - 1], i);
    }
  }

  /** Analysed dimensions keep their place and their findings as a prefix; every analysed or checked
      dimension is present, once. */
  lemma MergeKeepsAnalyzerFindings(scores: seq<Scored>, extra: Extra, checked: seq<Dimension>)
    requires Distinct(Dims(scores))
    ensures var out := Merged(scores, extra, checked);
            && |out| >= |scores|
            && (forall i :: 0 <= i < |scores| ==>
                  out[i].dimension == scores[i].dimension && scores[i].findings <= out[i].findings)
            && Distinct(Dims(out))
            && (forall d :: d in Dims(scores) || d in checked ==> d in Dims(out))
  {
    var b := BoardOf(scores, extra, checked);
    BoardIsComplete(scores, extra, checked);
    MergeBuildsTheBoard(scores, extra, checked);
    forall i | 0 <= i < |scores|
      ensures var out := Merged(scores, extra, checked);
              out[i].dimension == scores[i].dimension && scores[i].findings <= out[i].findings
    {
      assert forall j :: 0 <= j < |scores| ==> Dims(scores)[j] == scores[j].dimension;
      DistinctScoreIsItsEntry(scores, i);
    }
    ListedDims(scores, b);
    ScoresAreNotAdded(scores, b);
    DimsAreTheSet(scores);
  }

  ghost predicate DistinctKeys(extra: Extra) { forall i, j :: 0 <= i < j < |extra| ==> extra[i].0 != extra[j].0 }

  /** The check findings of one dimension, none if no check reported on it. */
  function FindingsFor(extra: Extra, d: Dimension): seq<Finding>
  {
    if extra == [] then []
    else if extra[|extra| - 1].0 == d then extra[|extra| - 1].1
    else FindingsFor(extra[..|extra| - 1], d)
  }

  /** A dimension only the checks know. */
  function FromChecks(d: Dimension, findings: seq<Finding>): Scored { Scored(d, CalculateScore(findings), 100, findings) }

  lemma {:induction false} NoKeyNoFindings(extra: Extra, d: Dimension)
    requires forall i :: 0 <= i < |extra| ==> extra[i].0 != d
    ensures FindingsFor(extra, d) == []
    decreases |extra|
  {
    if extra != [] {
      NoKeyNoFindings(extra[..|extra| - 1], d);
    }
  }

  lemma {:induction false} MergedEntry(b: Board, extra: Extra, d: Dimension)
    requires DistinctKeys(extra) && d in MergeAll(b, extra).byDim
    ensures MergeAll(b, extra).byDim[d] ==
            if d in b.byDim then Extended(b.byDim[d], FindingsFor(extra, d)) else FromChecks(d, FindingsFor(extra, d))
    decreases |extra|
  {
    if extra != [] {
      var n := |extra| - 1;
      if extra[n].0 != d {
        MergedEntry(b, extra[..n], d);
      } else {
        NoKeyNoFindings(extra[..n], d);
        if d in MergeAll(b, extra[..n]).byDim {
          MergedEntry(b, extra[..n], d);
          NoKeyIsOld(b, extra[..n], d);
        } else {
          OldStays(b, extra[..n], d);
        }
      }
    }
  }

  lemma {:induction false} NoKeyIsOld(b: Board, extra: Extra, d: Dimension)
    requires d in MergeAll(b, extra).byDim && forall i :: 0 <= i < |extra| ==> extra[i].0 != d
    ensures d in b.byDim
    decreases |extra|
  {
    if extra != [] {
      NoKeyIsOld(b, extra[..|extra| - 1], d);
    }
  }

  lemma {:induction false} OldStays(b: Board, extra: Extra, d: Dimension)
    ensures d in b.byDim ==> d in MergeAll(b, extra).byDim
    decreases |extra|
  {
    if extra != [] {
      OldStays(b, extra[..|extra| - 1], d);
    }
  }

  lemma {:induction false} PaddedEntry(b: Board, checked: seq<Dimension>, d: Dimension)
    requires d in Pad(b, checked).byDim
    ensures Pad(b, checked).byDim[d] == if d in b.byDim then b.byDim[d] else FromChecks(d, [])
    decreases |checked|
  {
    if checked != [] && d in Pad(b, checked[..|checked| - 1]).byDim {
      PaddedEntry(b, checked[..|checked| - 1], d);
    } else if checked != [] {
      PadStays(b, checked[..|checked| - 1], d);
    }
  }

  lemma {:induction false} PadStays(b: Board, checked: seq<Dimension>, d: Dimension)
    ensures d in b.byDim ==> d in Pad(b, checked).byDim
    decreases |checked|
  {
    if checked != [] {
      PadStays(b, checked[..|checked| - 1], d);
    }
  }

  lemma BoardEntry(start: Board, extra: Extra, checked: seq<Dimension>, d: Dimension)
    requires DistinctKeys(extra) && d in Pad(MergeAll(start, extra), checked).byDim
    ensures Pad(MergeAll(start, extra), checked).byDim[d] ==
            if d in start.byDim then Extended(start.byDim[d], FindingsFor(extra, d)) else FromChecks(d, FindingsFor(extra, d))
  {
    var m := MergeAll(start, extra);
    PaddedEntry(m, checked, d);
    OldStays(start, extra, d);
    if d in m.byDim {
      MergedEntry(start, extra, d);
    } else {
      UnmergedHasNoFindings(start, extra, d);
    }
  }

  lemma {:induction false} UnmergedHasNoFindings(b: Board, extra: Extra, d: Dimension)
    requires d !in MergeAll(b, extra).byDim
    ensures FindingsFor(extra, d) == []
    decreases |extra|
  {
    if extra != [] {
      UnmergedHasNoFindings(b, extra[..|extra| - 1], d);
    }
  }

  lemma AnalysedEntry(scores: seq<Scored>, extra: Extra, checked: seq<Dimension>, i: nat)
    requires Distinct(Dims(scores)) && DistinctKeys(extra) && i < |scores|
    ensures var (b, d) := (BoardOf(scores, extra, checked), scores[i].dimension);
            d in b.byDim && b.byDim[d] == Extended(scores[i], FindingsFor(extra, d))
  {
    BoardIsComplete(scores, extra, checked);
    assert forall j :: 0 <= j < |scores| ==> Dims(scores)[j] == scores[j].dimension;
    DistinctScoreIsItsEntry(scores, i);
    BoardEntry(Board(OfScores(scores), []), extra, checked, scores[i].dimension);
  }

  lemma AddedEntry(scores: seq<Scored>, extra: Extra, checked: seq<Dimension>, d: Dimension)
    requires DistinctKeys(extra) && d in BoardOf(scores, extra, checked).added
    ensures var b := BoardOf(scores, extra, checked);
            d in b.byDim && b.byDim[d] == FromChecks(d, FindingsFor(extra, d))
  {
    MergeBuildsTheBoard(scores, extra, checked);
    OfScoresIsSane(scores);
    BoardEntry(Board(OfScores(scores), []), extra, checked, d);
  }

  /** Entry by entry: an analysed dimension gets its own check findings it did not have by category
      and description, and is rescored only then; any other dimension is what the checks found. */
  lemma MergeIsPointwise(scores: seq<Scored>, extra: Extra, checked: seq<Dimension>, i: nat)
    requires Distinct(Dims(scores)) && DistinctKeys(extra) && i < |Merged(scores, extra, checked)|
    ensures var out := Merged(scores, extra, checked);
            && |scores| <= |out|
            && out[i] == if i < |scores| then Extended(scores[i], FindingsFor(extra, scores[i].dimension))
                         else FromChecks(out[i].dimension, FindingsFor(extra, out[i].dimension))
  {
    BoardIsComplete(scores, extra, checked);
    if i < |scores| {
      AnalysedEntry(scores, extra, checked, i);
    } else {
      AddedEntry(scores, extra, checked, BoardOf(scores, extra, checked).added[i - |scores|]);
    }
  }

  lemma ListedDims(scores: seq<Scored>, b: Board)
    requires Sane(b, DimSet(scores))
    requires forall i :: 0 <= i < |scores| ==> scores[i].dimension in b.byDim
    requires forall i :: 0 <= i < |b.added| ==> b.added[i] in b.byDim
    ensures Dims(Listed(scores, b)) == Dims(scores) + b.added
  {
  }

  lemma DimsAreTheSet(scores: seq<Scored>)
    ensures forall d :: d in Dims(scores) <==> d in DimSet(scores)
  {
    forall d | d in DimSet(scores)
      ensures d in Dims(scores)
    {
      var s :| s in scores && s.dimension == d;
      var i :| 0 <= i < |scores| && scores[i] == s;
      assert Dims(scores)[i] == d;
    }
    forall d | d in Dims(scores)
      ensures d in DimSet(scores)
    {
      var i :| 0 <= i < |scores| && Dims(scores)[i] == d;
      assert scores[i] in scores;
    }
  }

  lemma ScoresAreNotAdded(scores: seq<Scored>, b: Board)
    requires Sane(b, DimSet(scores)) && Distinct(Dims(scores))
    ensures Distinct(Dims(scores) + b.added)
  {
    forall i, j | 0 <= i < |scores| && 0 <= j < |b.added|
      ensures Dims(scores)[i] != b.added[j]
    {
      assert scores[i] in scores && b.added[j] in b.added;
    }
  }

  // ---------------------------------------------------------------- merging again

  lemma CoveredIsUnchanged(b: Board, d: Dimension, findings: seq<Finding>)
    requires Covered(b, d, findings)
    ensures MergeDimension(b, d, findings) == b
  {
    UnknownIs(findings, Keys(b.byDim[d].findings));
    var unseen := Unknown(findings, Keys(b.byDim[d].findings));
    NoneIn(unseen);
    assert b.byDim[d := b.byDim[d]] == b.byDim;
  }

  lemma {:induction false} NothingToMerge(b: Board, extra: Extra)
    requires forall i :: 0 <= i < |extra| ==> Covered(b, extra[i].0, extra[i].1)
    ensures MergeAll(b, extra) == b
    decreases |extra|
  {
    if extra != [] {
      var n := |extra| - 1;
      assert forall i :: 0 <= i < n ==> extra[..n][i] == extra[i];
      NothingToMerge(b, extra[..n]);
      CoveredIsUnchanged(b, extra[n].0, extra[n].1);
    }
  }

  lemma {:induction false} NothingToPad(b: Board, checked: seq<Dimension>)
    requires forall d :: d in checked ==> d in b.byDim
    ensures Pad(b, checked) == b
    decreases |checked|
  {
    if checked != [] {
      assert checked == checked[..|checked| - 1] + [checked[|checked| - 1]];
      NothingToPad(b, checked[..|checked| - 1]);
    }
  }

  lemma {:induction false} ListingIsTheMap(out: seq<Scored>, byDim: map<Dimension, Scored>)
    requires forall s :: s in out ==> s.dimension in byDim && byDim[s.dimension] == s
    ensures forall d :: d in OfScores(out) ==> d in byDim && OfScores(out)[d] == byDim[d]
    ensures forall s :: s in out ==> s.dimension in OfScores(out)
    decreases |out|
  {
    if out != [] {
      var n := |out| - 1;
      assert out == out[..n] + [out[n]];
      ListingIsTheMap(out[..n], byDim);
    }
  }

  lemma ListedEntries(scores: seq<Scored>, b: Board, analysed: set<Dimension>)
    requires Sane(b, analysed)
    requires forall i :: 0 <= i < |scores| ==> scores[i].dimension in b.byDim
    requires forall i :: 0 <= i < |b.added| ==> b.added[i] in b.byDim
    ensures forall s :: s in Listed(scores, b) ==> s.dimension in b.byDim && b.byDim[s.dimension] == s
  {
    var out := Listed(scores, b);
    forall i | 0 <= i < |out|
      ensures out[i].dimension in b.byDim && b.byDim[out[i].dimension] == out[i]
    {
      assert out[i] == b.byDim[if i < |scores| then scores[i].dimension else b.added[i - |scores|]];
    }
  }

  lemma ListedKeys(scores: seq<Scored>, b: Board, d: Dimension)
    requires Sane(b, DimSet(scores)) && d in b.byDim
    requires forall i :: 0 <= i < |scores| ==> scores[i].dimension in b.byDim
    requires forall i :: 0 <= i < |b.added| ==> b.added[i] in b.byDim
    ensures exists s :: s in Listed(scores, b) && s.dimension == d
  {
    var out := Listed(scores, b);
    if d in b.added {
      var i :| 0 <= i < |b.added| && b.added[i] == d;
      assert out[|scores| + i] == b.byDim[d];
    } else {
      var s :| s in scores && s.dimension == d;
      var i :| 0 <= i < |scores| && scores[i] == s;
      assert out[i] == b.byDim[d];
    }
  }

  lemma ListedCoversTheBoard(scores: seq<Scored>, extra: Extra, checked: seq<Dimension>)
    ensures var (b, out) := (BoardOf(scores, extra, checked), Merged(scores, extra, checked));
            && (forall s :: s in out ==> s.dimension in b.byDim && b.byDim[s.dimension] == s)
            && (forall d :: d in b.byDim ==> exists s :: s in out && s.dimension == d)
  {
    MergeBuildsTheBoard(scores, extra, checked);
    BoardIsComplete(scores, extra, checked);
    var b := BoardOf(scores, extra, checked);
    ListedEntries(scores, b, DimSet(scores));
    forall d | d in b.byDim
      ensures exists s :: s in Merged(scores, extra, checked) && s.dimension == d
    {
      ListedKeys(scores, b, d);
    }
  }

  lemma SecondBoardIsTheFirst(scores: seq<Scored>, extra: Extra, checked: seq<Dimension>)
    ensures OfScores(Merged(scores, extra, checked)) == BoardOf(scores, extra, checked).byDim
  {
    ListedCoversTheBoard(scores, extra, checked);
    ListingIsTheMap(Merged(scores, extra, checked), BoardOf(scores, extra, checked).byDim);
  }

  lemma ListingAgain(out: seq<Scored>, byDim: map<Dimension, Scored>)
    requires forall s :: s in out ==> s.dimension in byDim && byDim[s.dimension] == s
    ensures Listed(out, Board(byDim, [])) == out
  {
  }

  /** Merging the same check results a second time changes nothing. */
  lemma MergingAgainChangesNothing(scores: seq<Scored>, extra: Extra, checked: seq<Dimension>, again: seq<Dimension>)
    requires forall d :: d in again ==> d in checked
    ensures Merged(Merged(scores, extra, checked), extra, again) == Merged(scores, extra, checked)
  {
    var (b, out) := (BoardOf(scores, extra, checked), Merged(scores, extra, checked));
    MergeBuildsTheBoard(scores, extra, checked);
    ListedCoversTheBoard(scores, extra, checked);
    SecondBoardIsTheFirst(scores, extra, checked);
    var second := Board(b.byDim, []);
    NothingToMerge(second, extra);
    NothingToPad(second, again);
    ListingAgain(out, b.byDim);
  }

  // ---------------------------------------------------------------- suppressions

  function Unsuppressed(findings: seq<Finding>, sources: set<string>): seq<Finding>
  {
    if findings == [] then []
    else Unsuppressed(findings[..|findings| - 1], sources) +
         (if findings[|findings| - 1].source in sources then [] else [findings[|findings| - 1]])
  }

  function SuppressOne(s: Scored, sources: set<string>): Scored
  {
    var filtered := Unsuppressed(s.findings, sources);
    if |filtered| == |s.findings| then s else Scored(s.dimension, CalculateScore(filtered), s.maxScore, filtered)
  }

  function Suppressed(scores: seq<Scored>, sources: set<string>): (out: seq<Scored>)
    ensures |out| == |scores|
  {
    seq(|scores|, i requires 0 <= i < |scores| => SuppressOne(scores[i], sources))
  }

  method ApplySuppressions(scores: seq<Scored>, sources: set<string>) returns (result: seq<Scored>)
    ensures result == Suppressed(scores, sources)
  {
    result := [];
    for i := 0 to |scores|
      invariant result == Suppressed(scores, sources)[..i]
    {
      var s := scores[i];
      var filtered := Unsuppressed(s.findings, sources);
      if |filtered| == |s.findings| {
        result := result + [s];
      } else {
        result := result + [Scored(s.dimension, CalculateScore(filtered), s.maxScore, filtered)];
      }
    }
  }

  lemma UnsuppressedSnoc(findings: seq<Finding>, last: Finding, sources: set<string>)
    ensures Unsuppressed(findings + [last], sources) ==
            Unsuppressed(findings, sources) + if last.source in sources then [] else [last]
  {
    assert (findings + [last])[..|findings|] == findings;
  }

  lemma {:induction false} FilteringTwice(findings: seq<Finding>, s: set<string>, t: set<string>)
    ensures Unsuppressed(Unsuppressed(findings, s), t) == Unsuppressed(findings, s + t)
    decreases |findings|
  {
    if findings != [] {
      var (rest, last) := (findings[..|findings| - 1], findings[|findings| - 1]);
      FilteringTwice(rest, s, t);
      UnsuppressedSnoc(Unsuppressed(rest, s), last, t);
      assert Unsuppressed(rest, s) + [] == Unsuppressed(rest, s);
    }
  }

  lemma {:induction false} FilterKeepsAllOrShrinks(findings: seq<Finding>, s: set<string>)
    ensures |Unsuppressed(findings, s)| <= |findings|
    ensures |Unsuppressed(findings, s)| == |findings| ==> Unsuppressed(findings, s) == findings
    decreases |findings|
  {
    if findings != [] {
      var (rest, last) := (findings[..|findings| - 1], findings[|findings| - 1]);
      FilterKeepsAllOrShrinks(rest, s);
      assert findings == rest + [last];
      assert last.source in s ==> |Unsuppressed(findings, s)| < |findings|;
    }
  }

  lemma SuppressOneTwice(x: Scored, s: set<string>, t: set<string>)
    ensures SuppressOne(SuppressOne(x, s), t) == SuppressOne(x, s + t)
  {
    FilteringTwice(x.findings, s, t);
    FilterKeepsAllOrShrinks(x.findings, s);
    FilterKeepsAllOrShrinks(x.findings, s + t);
    FilterKeepsAllOrShrinks(Unsuppressed(x.findings, s), t);
  }

  /** Suppressing S and then T is suppressing their union, scores included. */
  lemma SuppressionsCompose(scores: seq<Scored>, s: set<string>, t: set<string>)
    ensures Suppressed(Suppressed(scores, s), t) == Suppressed(scores, s + t)
  {
    forall i | 0 <= i < |scores|
      ensures Suppressed(Suppressed(scores, s), t)[i] == Suppressed(scores, s + t)[i]
    {
      SuppressOneTwice(scores[i], s, t);
    }
  }
}
