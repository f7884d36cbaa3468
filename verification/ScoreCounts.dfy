/** What a dimension's score and the overall come to, in numbers (src/agentit/scoring.py,
    src/agentit/interfaces/score_aggregate.py): how many controls are counted, and what each dimension
    weighs. */
module ScoreCounts {
  import opened Scoring

  // ---------------------------------------------------------------- counting

  ghost function Where(n: nat, p: int -> bool): set<int> { set i | 0 <= i < n && p(i) }

  lemma WhereOneMore(n: nat, p: int -> bool, q: int -> bool)
    requires forall i :: 0 <= i < n ==> p(i) == q(i)
    ensures |Where(n + 1, p)| == |Where(n, q)| + if p(n) then 1 else 0
  {
    if p(n) {
      assert Where(n + 1, p) == Where(n, q) + {n};
    } else {
      assert Where(n + 1, p) == Where(n, q);
    }
  }

  /** The findings that are no mere information. */
  ghost function Failing(findings: seq<Finding>): nat
  {
    |Where(|findings|, i => 0 <= i < |findings| && findings[i].severity != Info)|
  }

  lemma {:induction false} FailsAre(findings: seq<Finding>)
    ensures Fails(findings) == Failing(findings)
    decreases |findings|
  {
    if findings == [] {
      assert Where(0, i => 0 <= i < |findings| && findings[i].severity != Info) == {};
    } else {
      var n := |findings| - 1;
      FailsAre(findings[..n]);
      WhereOneMore(n, i => 0 <= i < |findings| && findings[i].severity != Info,
                   i => 0 <= i < n && findings[..n][i].severity != Info);
    }
  }

  /** No check row carries the finding's source or, if it has none, its category. */
  ghost predicate HasNoRow(f: Finding, rows: seq<CheckRow>)
  {
    && (f.source != "" ==> forall r :: r in rows ==> r.name != f.source)
    && (f.source == "" ==> forall r :: r in rows ==> r.name != f.category)
  }

  /** The failing findings no check row stands for. */
  ghost function Orphaned(findings: seq<Finding>, rows: seq<CheckRow>): nat
  {
    |Where(|findings|, i => 0 <= i < |findings| && findings[i].severity != Info && HasNoRow(findings[i], rows))|
  }

  lemma {:induction false} OrphansAre(findings: seq<Finding>, rows: seq<CheckRow>)
    ensures Orphans(findings, Names(rows)) == Orphaned(findings, rows)
    decreases |findings|
  {
    if findings == [] {
      assert Where(0, i => 0 <= i < |findings| && findings[i].severity != Info && HasNoRow(findings[i], rows)) == {};
    } else {
      var n := |findings| - 1;
      OrphansAre(findings[..n], rows);
      WhereOneMore(n, i => 0 <= i < |findings| && findings[i].severity != Info && HasNoRow(findings[i], rows),
                   i => 0 <= i < n && findings[..n][i].severity != Info && HasNoRow(findings[..n][i], rows));
    }
  }

  ghost function Passing(rows: seq<CheckRow>): nat
  {
    |Where(|rows|, i => 0 <= i < |rows| && rows[i].passed)|
  }

  lemma {:induction false} PassedAre(rows: seq<CheckRow>)
    ensures Passed(rows) == Passing(rows)
    decreases |rows|
  {
    if rows == [] {
      assert Where(0, i => 0 <= i < |rows| && rows[i].passed) == {};
    } else {
      var n := |rows| - 1;
      PassedAre(rows[..n]);
      WhereOneMore(n, i => 0 <= i < |rows| && rows[i].passed, i => 0 <= i < n && rows[..n][i].passed);
    }
  }

  /** A dimension's score with checks: the share of them that pass, each failing finding without a check
      counting as one more that does not. */
  lemma CheckedScoreIs(findings: seq<Finding>, rows: seq<CheckRow>)
    requires rows != []
    ensures DimensionScoreV2(findings, rows) ==
            Round((100 * Passing(rows)) as real / (|rows| + Orphaned(findings, rows)) as real)
  {
    ScoreIsCounted(findings, rows);
    PassedAre(rows);
    OrphansAre(findings, rows);
  }

  /** And without: the share of eight controls that no finding fails. */
  lemma BaselineScoreIs(findings: seq<Finding>)
    ensures DimensionScoreV2(findings, []) ==
            if Failing(findings) >= 8 then 0 else Round((100 * (8 - Failing(findings))) as real / 8.0)
  {
    ScoreIsCounted(findings, []);
    FailsAre(findings);
    ControlsScoreIs(Failing(findings));
  }

  lemma ControlsScoreIs(fails: nat)
    ensures ControlsScore(fails) == if fails >= 8 then 0 else Round((100 * (8 - fails)) as real / 8.0)
  {
    if fails >= 8 {
      assert Ratio(0, fails) == 0.0;
    }
  }

  /** A dimension is scored by the check rows of its own name, in the order given. */
  lemma {:induction false} RowsOfAre(rows: seq<(Dimension, CheckRow)>, d: Dimension, r: CheckRow)
    ensures r in RowsOf(rows, d) <==> (d, r) in rows
    decreases |rows|
  {
    if rows != [] {
      var (rest, last) := (rows[..|rows| - 1], rows[|rows| - 1]);
      RowsOfAre(rest, d, r);
      assert rows == rest + [last];
    }
  }

  lemma RowsOfOneMore(rows: seq<(Dimension, CheckRow)>, d: Dimension, other: Dimension, r: CheckRow)
    ensures RowsOf(rows + [(other, r)], d) == if other == d then RowsOf(rows, d) + [r] else RowsOf(rows, d)
  {
    assert (rows + [(other, r)])[..|rows|] == rows;
  }

  // ---------------------------------------------------------------- which finding is cleared

  ghost predicate Agrees(g: Finding, f: Finding)
  {
    && g.category == f.category && g.severity == f.severity
    && g.description == f.description && g.source == f.source
  }

  /** The finding itself is cleared where it is; else all that say the same in every field; else the first of its
      category and severity; else nothing. */
  lemma ClearedFindingsAre(s: seq<Finding>, f: Finding, g: Finding)
    ensures (exists h :: h in s && h.id == f.id) ==> (g in FindingsWithout(s, f) <==> g in s && g.id != f.id)
    ensures (forall h :: h in s ==> h.id != f.id) && (exists h :: h in s && Agrees(h, f)) ==>
              (g in FindingsWithout(s, f) <==> g in s && !Agrees(g, f))
    ensures (forall h :: h in s ==> h.id != f.id && !Agrees(h, f)) ==> FindingsWithout(s, f) == WithoutFirst(s, f)
  {
    IdKeeps(s, f, g);
    TextKeeps(s, f, g);
    TextFilterRemoves(s, f);
    IdFilterRemoves(s, f);
  }

  lemma {:induction false} IdKeeps(s: seq<Finding>, f: Finding, g: Finding)
    ensures g in WithoutId(s, f) <==> g in s && g.id != f.id
    decreases |s|
  {
    if s != [] {
      IdKeeps(s[..|s| - 1], f, g);
      assert s == s[..|s| - 1] + [s[|s| - 1]];
    }
  }

  lemma {:induction false} TextKeeps(s: seq<Finding>, f: Finding, g: Finding)
    ensures g in WithoutText(s, f) <==> g in s && !Agrees(g, f)
    decreases |s|
  {
    if s != [] {
      TextKeeps(s[..|s| - 1], f, g);
      assert s == s[..|s| - 1] + [s[|s| - 1]];
    }
  }

  /** The first of its kind: the one at `k`, and nothing else. */
  lemma {:induction false} FirstOfItsKindGoes(s: seq<Finding>, f: Finding, k: nat)
    requires k < |s| && s[k].category == f.category && s[k].severity == f.severity
    requires forall j :: 0 <= j < k ==> s[j].category != f.category || s[j].severity != f.severity
    ensures WithoutFirst(s, f) == s[..k] + s[k + 1..]
    decreases |s|
  {
    var n := |s| - 1;
    if k < n {
      FirstOfItsKindGoes(s[..n], f, k);
      assert s[..n][k] in s[..n];
      assert s[..n][..k] == s[..k] && s[..n][k + 1..] + [s[n]] == s[k + 1..];
    } else {
      assert s[..k] + s[k + 1..] == s[..k];
    }
  }

  // ---------------------------------------------------------------- what a dimension weighs

  const WEIGHTS: map<(Criticality, Dimension), real> :=
    map[(CriticalApp, Security) := 1.6, (CriticalApp, Compliance) := 1.4, (CriticalApp, HaDr) := 1.2,
        (CriticalApp, Infrastructure) := 1.1, (CriticalApp, DataGovernance) := 0.9,
        (HighApp, Security) := 1.4, (HighApp, Compliance) := 1.2, (HighApp, HaDr) := 1.15,
        (HighApp, Infrastructure) := 1.05, (HighApp, DataGovernance) := 0.95,
        (MediumApp, Security) := 1.15, (MediumApp, Compliance) := 1.05]

  /** An unknown criticality counts as medium, and what the table does not name weighs one. */
  function Listed(c: Criticality, d: Dimension): real
  {
    var key := (if c.OtherApp? then MediumApp else c, d);
    if key in WEIGHTS then WEIGHTS[key] else 1.0
  }

  lemma WeightIsListed(c: Criticality, d: Dimension)
    ensures Weight(c, d) == Listed(c, d)
  {
  }

  function Points(score: int, weight: real): real { score as real * weight }

  lemma SumsOfTwo(x: Weighed, y: Weighed)
    ensures Acc([x, y]) == Points(x.score, x.weight) + Points(y.score, y.weight)
    ensures TotalWeight([x, y]) == x.weight + y.weight
  {
    WeighedOnce([x, y], 0);
    WeighedOnce([x, y], 1);
    assert [x, y][..0] == [] && [x, y][..2] == [x, y];
  }

  lemma WeighedTwo(a: DimensionScore, b: DimensionScore, c: Criticality)
    ensures WeighedScores([a, b], c) ==
            [Weighed(a.score, Listed(c, a.dimension)), Weighed(b.score, Listed(c, b.dimension))]
  {
    WeightIsListed(c, a.dimension);
    WeightIsListed(c, b.dimension);
  }

  /** The overall of two dimensions is the mean of their scores by listed weight. */
  lemma OverallOfTwo(a: DimensionScore, b: DimensionScore, c: Criticality)
    ensures var (x, y) := (Listed(c, a.dimension), Listed(c, b.dimension));
            OverallHundredths([a, b], c) == Quotient(Points(a.score, x) + Points(b.score, y), x + y)
  {
    WeighedTwo(a, b, c);
    SumsOfTwo(Weighed(a.score, Listed(c, a.dimension)), Weighed(b.score, Listed(c, b.dimension)));
  }

  /** Without a dimension it is nothing, and of one alone it is that dimension's score. */
  lemma OverallOfFew(a: DimensionScore, c: Criticality)
    ensures OverallHundredths([], c) == 0 && OverallHundredths([a], c) == 100 * a.score
  {
    OneDimensionIsTheOverall(a, c);
    assert WeighedScores([], c) == [];
  }

  /** A better score counts for more on the dimension that weighs more. */
  lemma HeavierCountsMore(c: Criticality, d: Dimension, e: Dimension, high: int, low: int)
    requires high >= low && Listed(c, d) >= Listed(c, e)
    ensures OverallHundredths([DimensionScore(d, high, []), DimensionScore(e, low, [])], c) >=
            OverallHundredths([DimensionScore(d, low, []), DimensionScore(e, high, [])], c)
  {
    WeightIsListed(c, d);
    WeightIsListed(c, e);
    OverallOfTwo(DimensionScore(d, high, []), DimensionScore(e, low, []), c);
    OverallOfTwo(DimensionScore(d, low, []), DimensionScore(e, high, []), c);
    MeanFavours(high, low, Listed(c, d), Listed(c, e));
  }

  lemma MeanFavours(high: int, low: int, x: real, y: real)
    requires high >= low && x >= y > 0.0
    ensures Quotient(Points(low, x) + Points(high, y), x + y) <= Quotient(Points(high, x) + Points(low, y), x + y)
  {
    ExchangeFavours(high, low, x, y);
    QuotientIsMonotone(Points(low, x) + Points(high, y), Points(high, x) + Points(low, y), x + y);
  }

  lemma QuotientIsMonotone(x: real, y: real, t: real)
    requires t > 0.0 && x <= y
    ensures Quotient(x, t) <= Quotient(y, t)
  {
    HundredthsAreMonotone(x, y, t);
  }

  lemma ExchangeFavours(high: int, low: int, x: real, y: real)
    requires high >= low && x >= y
    ensures Points(low, x) + Points(high, y) <= Points(high, x) + Points(low, y)
  {
    assert (high - low) as real * (x - y) >= 0.0;
  }

  /** For every criticality the weights fall from security over compliance, availability and infrastructure to
      the rest, and data governance weighs least. */
  lemma WeightsFall(c: Criticality, d: Dimension)
    ensures Listed(c, Security) >= Listed(c, Compliance) >= Listed(c, HaDr) >= Listed(c, Infrastructure)
    ensures Listed(c, Infrastructure) >= Listed(c, DataGovernance)
    ensures Listed(c, DataGovernance) <= Listed(c, d) <= Listed(c, Security)
  {
  }
}
