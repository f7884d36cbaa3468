/** What the merged and the suppressed entries score, and in which order new dimensions come
    (src/agentit/runner.py, src/agentit/analyzers/base.py). */
module MergedScores {
  import opened CheckMerge
  import opened Scoring
  import opened Sequences

  /** The findings of this severity. */
  function Rated(findings: seq<Finding>, severity: Severity): nat
  {
    if findings == [] then 0
    else Rated(findings[..|findings| - 1], severity) + (if findings[|findings| - 1].severity == severity then 1 else 0)
  }

  /** A hundred less 25 for each critical finding, 20 for each high, 10 for each medium and 3 for each low one,
      but not below zero; mere information costs nothing. */
  function Deducted(findings: seq<Finding>): int
  {
    var left := 100 - (25 * Rated(findings, Critical) + 20 * Rated(findings, High) +
                       10 * Rated(findings, Medium) + 3 * Rated(findings, Low));
    if left < 0 then 0 else left
  }

  lemma {:induction false} PenaltiesAre(findings: seq<Finding>)
    ensures Penalties(findings) == 25 * Rated(findings, Critical) + 20 * Rated(findings, High) +
                                   10 * Rated(findings, Medium) + 3 * Rated(findings, Low)
    decreases |findings|
  {
    if findings != [] {
      PenaltiesAre(findings[..|findings| - 1]);
    }
  }

  lemma CalculatedIsDeducted(findings: seq<Finding>)
    ensures CalculateScore(findings) == Deducted(findings)
  {
    PenaltiesAre(findings);
  }

  /** Every entry of a merge that is not the analyser's own is scored from all its findings; an analysed
      dimension keeps its maximum, a new one has a hundred. */
  lemma MergedScoreIs(scores: seq<Scored>, extra: Extra, checked: seq<Dimension>, i: nat)
    requires Distinct(Dims(scores)) && DistinctKeys(extra) && i < |Merged(scores, extra, checked)|
    ensures var out := Merged(scores, extra, checked);
            && |scores| <= |out|
            && (i < |scores| ==> out[i].maxScore == scores[i].maxScore)
            && (i < |scores| && out[i].findings == scores[i].findings ==> out[i] == scores[i])
            && (i < |scores| && out[i].findings != scores[i].findings ==> out[i].score == Deducted(out[i].findings))
            && (i >= |scores| ==> out[i].maxScore == 100 && out[i].score == Deducted(out[i].findings))
  {
    MergeIsPointwise(scores, extra, checked, i);
    CalculatedIsDeducted(Merged(scores, extra, checked)[i].findings);
    if i < |scores| {
      ExtendedIs(scores[i], FindingsFor(extra, scores[i].dimension));
    }
  }

  lemma ExtendedIs(s: Scored, findings: seq<Finding>)
    ensures var e := Extended(s, findings);
            && e.maxScore == s.maxScore && (e.findings == s.findings ==> e == s)
            && (e.findings != s.findings ==> e.score == CalculateScore(e.findings))
  {
    if Unknown(findings, Keys(s.findings)) != [] {
      assert |s.findings + Unknown(findings, Keys(s.findings))| > |s.findings|;
    }
  }

  /** What an analysed dimension gets: the check findings of its own that agree with none of its findings in
      category and description. */
  lemma MergedFindingsAre(scores: seq<Scored>, extra: Extra, checked: seq<Dimension>, i: nat, f: Finding)
    requires Distinct(Dims(scores)) && DistinctKeys(extra) && i < |scores|
    ensures var out := Merged(scores, extra, checked);
            && |scores| <= |out|
            && (f in out[i].findings <==>
                  || f in scores[i].findings
                  || (&& f in FindingsFor(extra, scores[i].dimension)
                      && forall g :: g in scores[i].findings ==> g.category != f.category || g.description != f.description))
  {
    BoardIsComplete(scores, extra, checked);
    MergeIsPointwise(scores, extra, checked, i);
    UnknownIs(FindingsFor(extra, scores[i].dimension), Keys(scores[i].findings));
    KeysAre(scores[i].findings, f);
  }

  lemma KeysAre(findings: seq<Finding>, f: Finding)
    ensures (f.category, f.description) in Keys(findings) <==>
            exists g :: g in findings && g.category == f.category && g.description == f.description
  {
  }

  // ---------------------------------------------------------------- the order of new dimensions

  /** What is not known yet, in order of first appearance. */
  function FirstSeen(known: set<Dimension>, ds: seq<Dimension>): seq<Dimension>
  {
    if ds == [] then []
    else
      var (before, d) := (FirstSeen(known, ds[..|ds| - 1]), ds[|ds| - 1]);
      if d in known || d in before then before else before + [d]
  }

  function Keyed(extra: Extra): (ds: seq<Dimension>)
    ensures |ds| == |extra|
  {
    seq(|extra|, i requires 0 <= i < |extra| => extra[i].0)
  }

  lemma {:induction false} MergedAreFirstSeen(scores: seq<Scored>, extra: Extra)
    ensures MergeAll(Board(OfScores(scores), []), extra).added == FirstSeen(DimSet(scores), Keyed(extra))
    decreases |extra|
  {
    if extra != [] {
      var n := |extra| - 1;
      MergedAreFirstSeen(scores, extra[..n]);
      assert Keyed(extra)[..n] == Keyed(extra[..n]);
      OfScoresIsSane(scores);
      AllMerges(Board(OfScores(scores), []), extra[..n], DimSet(scores));
    }
  }

  lemma {:induction false} PaddedAreFirstSeen(b: Board, known: set<Dimension>, ds: seq<Dimension>,
          checked: seq<Dimension>)
    requires Sane(b, known) && b.added == FirstSeen(known, ds)
    ensures Pad(b, checked).added == FirstSeen(known, ds + checked)
    decreases |checked|
  {
    if checked == [] {
      assert ds + checked == ds;
    } else {
      var n := |checked| - 1;
      PaddedAreFirstSeen(b, known, ds, checked[..n]);
      assert (ds + checked)[..|ds + checked| - 1] == ds + checked[..n];
      PadKeeps(b, checked[..n], known);
    }
  }

  /** After the analysed dimensions come the others, in the order the checks first name them. */
  lemma NewDimensionsComeInOrder(scores: seq<Scored>, extra: Extra, checked: seq<Dimension>)
    requires Distinct(Dims(scores))
    ensures Dims(Merged(scores, extra, checked)) == Dims(scores) + FirstSeen(DimSet(scores), Keyed(extra) + checked)
  {
    var start := Board(OfScores(scores), []);
    OfScoresIsSane(scores);
    AllMerges(start, extra, DimSet(scores));
    MergedAreFirstSeen(scores, extra);
    PaddedAreFirstSeen(MergeAll(start, extra), DimSet(scores), Keyed(extra), checked);
    BoardIsComplete(scores, extra, checked);
    MergeBuildsTheBoard(scores, extra, checked);
    ListedDims(scores, BoardOf(scores, extra, checked));
  }

  // ---------------------------------------------------------------- suppressing

  lemma {:induction false} UnsuppressedAre(findings: seq<Finding>, sources: set<string>, f: Finding)
    ensures f in Unsuppressed(findings, sources) <==> f in findings && f.source !in sources
    decreases |findings|
  {
    if findings != [] {
      var n := |findings| - 1;
      UnsuppressedAre(findings[..n], sources, f);
      assert findings == findings[..n] + [findings[n]];
    }
  }

  /** Suppressing takes exactly the findings of the given sources, and rescores from the rest what lost any. */
  lemma SuppressedIs(scores: seq<Scored>, sources: set<string>, i: nat, f: Finding)
    requires i < |scores|
    ensures var s := Suppressed(scores, sources)[i];
            && (f in s.findings <==> f in scores[i].findings && f.source !in sources)
            && s.dimension == scores[i].dimension && s.maxScore == scores[i].maxScore
            && (s.findings == scores[i].findings ==> s == scores[i])
            && (s.findings != scores[i].findings ==> s.score == Deducted(s.findings))
  {
    UnsuppressedAre(scores[i].findings, sources, f);
    FilterKeepsAllOrShrinks(scores[i].findings, sources);
    CalculatedIsDeducted(Suppressed(scores, sources)[i].findings);
  }
}
