/** Score model v2 (src/agentit/scoring.py) and the criticality-weighted overall
    (src/agentit/interfaces/score_aggregate.py), over exact numbers: ratios and weighted means are
    `real`, and Python's `round` is to the nearest, ties to even (section 4.3.1 of IEEE 754). */
module Scoring {

  datatype Severity = Critical | High | Medium | Low | Info

  /** `id` is the identity of the Python object. */
  datatype Finding = Finding(id: int, category: string, severity: Severity, description: string, source: string)

  datatype CheckRow = CheckRow(name: string, passed: bool)

  datatype Dimension =
    | Security | Compliance | HaDr | Infrastructure | Cicd | Observability | DataGovernance | Other(name: string)

  datatype DimensionScore = DimensionScore(dimension: Dimension, score: int, findings: seq<Finding>)

  // ---------------------------------------------------------------- rounding

  function Round(x: real): int
  {
    var f := x.Floor;
    var d := x - f as real;
    if d < 0.5 then f else if d > 0.5 then f + 1 else if f % 2 == 0 then f else f + 1
  }

  lemma RoundIsNearest(x: real)
    ensures -0.5 <= Round(x) as real - x <= 0.5
    ensures Round(x) as real - x == 0.5 || x - Round(x) as real == 0.5 ==> Round(x) % 2 == 0
  {
  }

  lemma RoundIsMonotone(x: real, y: real)
    requires x <= y
    ensures Round(x) <= Round(y)
  {
    assert x.Floor <= y.Floor;
  }

  lemma RoundBetween(lo: int, x: real, hi: int)
    requires lo as real <= x <= hi as real
    ensures lo <= Round(x) <= hi
  {
    RoundIsMonotone(lo as real, x);
    RoundIsMonotone(x, hi as real);
  }

  // ---------------------------------------------------------------- one dimension

  const BASELINE_CONTROLS := 8

  predicate IsFail(f: Finding) { f.severity != Info }

  function Fails(findings: seq<Finding>): nat
  {
    if findings == [] then 0
    else Fails(findings[..|findings| - 1]) + (if IsFail(findings[|findings| - 1]) then 1 else 0)
  }

  predicate IsOrphan(f: Finding, names: set<string>)
  {
    IsFail(f) && (if f.source != "" then f.source else f.category) !in names
  }

  function Orphans(findings: seq<Finding>, names: set<string>): nat
  {
    if findings == [] then 0
    else Orphans(findings[..|findings| - 1], names) + (if IsOrphan(findings[|findings| - 1], names) then 1 else 0)
  }

  function Passed(rows: seq<CheckRow>): (n: nat)
    ensures n <= |rows|
  {
    if rows == [] then 0 else Passed(rows[..|rows| - 1]) + (if rows[|rows| - 1].passed then 1 else 0)
  }

  function Names(rows: seq<CheckRow>): set<string> { set r | r in rows :: r.name }

  function Max(a: int, b: int): int { if a < b then b else a }

  function Min(a: int, b: int): int { if a < b then a else b }

  function Ratio(passed: int, applicable: int): real
    requires applicable > 0
  {
    (100 * passed) as real / applicable as real
  }

  function DimensionScoreV2(findings: seq<Finding>, rows: seq<CheckRow>): int
  {
    var fails := Fails(findings);
    var applicable := if rows != [] then |rows| + Orphans(findings, Names(rows)) else Max(BASELINE_CONTROLS, fails);
    var passed := if rows != [] then Passed(rows) else Max(0, applicable - fails);
    Max(0, Min(100, Round(Ratio(passed, applicable))))
  }

  method CalculateDimensionScoreV2(findings: seq<Finding>, rows: seq<CheckRow>) returns (score: int)
    ensures score == DimensionScoreV2(findings, rows)
    ensures 0 <= score <= 100
  {
    var applicable, passed := 0, 0;
    var names := Names(rows);
    var orphanFails, fails := 0, 0;
    for i := 0 to |findings|
      invariant orphanFails == Orphans(findings[..i], names) && fails == Fails(findings[..i])
    {
      assert findings[..i + 1][..i] == findings[..i];
      orphanFails := orphanFails + if IsOrphan(findings[i], names) then 1 else 0;
      fails := fails + if IsFail(findings[i]) then 1 else 0;
    }
    assert findings[..|findings|] == findings;
    if rows != [] {
      for i := 0 to |rows|
        invariant passed == Passed(rows[..i])
      {
        assert rows[..i + 1][..i] == rows[..i];
        passed := passed + if rows[i].passed then 1 else 0;
      }
      assert rows[..|rows|] == rows;
      applicable := |rows| + orphanFails;
    } else {
      applicable := Max(BASELINE_CONTROLS, fails);
      passed := Max(0, applicable - fails);
    }
    score := Max(0, Min(100, Round(Ratio(passed, applicable))));
  }

  /** `part` is `whole` with elements removed. */
  predicate Within(part: seq<Finding>, whole: seq<Finding>)
    decreases |whole|
  {
    if part == [] then true
    else if whole == [] then false
    else
      || (part[|part| - 1] == whole[|whole| - 1] && Within(part[..|part| - 1], whole[..|whole| - 1]))
      || Within(part, whole[..|whole| - 1])
  }

  lemma {:induction false} FewerFindingsFewerFails(part: seq<Finding>, whole: seq<Finding>, names: set<string>)
    requires Within(part, whole)
    ensures Fails(part) <= Fails(whole) && Orphans(part, names) <= Orphans(whole, names)
    decreases |whole|
  {
    if part != [] {
      var (p, w) := (part[..|part| - 1], whole[..|whole| - 1]);
      if part[|part| - 1] == whole[|whole| - 1] && Within(p, w) {
        FewerFindingsFewerFails(p, w, names);
      } else {
        FewerFindingsFewerFails(part, w, names);
      }
    }
  }

  lemma RatioFalls(passed: nat, a: int, b: int)
    requires 0 < a <= b
    ensures Ratio(passed, b) <= Ratio(passed, a)
  {
    var (n, x, y) := ((100 * passed) as real, a as real, b as real);
    assert n / y * y == n && n / x * x == n;
    if n / y > n / x {
      assert n / y * y >= n / y * x > n / x * x;
    }
  }

  lemma BaselineRatioFalls(few: nat, many: nat)
    requires few <= many
    ensures var (a, b) := (Max(BASELINE_CONTROLS, few), Max(BASELINE_CONTROLS, many));
            Ratio(Max(0, b - many), b) <= Ratio(Max(0, a - few), a)
  {
    if many >= BASELINE_CONTROLS {
      assert Ratio(0, Max(BASELINE_CONTROLS, many)) == 0.0;
    }
  }

  lemma RoundedRatioFalls(passed: nat, a: int, b: int)
    requires 0 < a <= b
    ensures Round(Ratio(passed, b)) <= Round(Ratio(passed, a))
  {
    RatioFalls(passed, a, b);
    RoundIsMonotone(Ratio(passed, b), Ratio(passed, a));
  }

  lemma RoundedBaselineFalls(few: nat, many: nat)
    requires few <= many
    ensures var (a, b) := (Max(BASELINE_CONTROLS, few), Max(BASELINE_CONTROLS, many));
            Round(Ratio(Max(0, b - many), b)) <= Round(Ratio(Max(0, a - few), a))
  {
    var (a, b) := (Max(BASELINE_CONTROLS, few), Max(BASELINE_CONTROLS, many));
    BaselineRatioFalls(few, many);
    RoundIsMonotone(Ratio(Max(0, b - many), b), Ratio(Max(0, a - few), a));
  }

  /** Removing findings never lowers a dimension's score, with or without check rows. */
  lemma FewerFindingsNeverScoreLower(part: seq<Finding>, whole: seq<Finding>, rows: seq<CheckRow>)
    requires Within(part, whole)
    ensures 0 <= DimensionScoreV2(whole, rows) <= DimensionScoreV2(part, rows) <= 100
  {
    FewerFindingsFewerFails(part, whole, Names(rows));
    if rows != [] {
      RoundedRatioFalls(Passed(rows), |rows| + Orphans(part, Names(rows)), |rows| + Orphans(whole, Names(rows)));
    } else {
      RoundedBaselineFalls(Fails(part), Fails(whole));
    }
  }

  // ---------------------------------------------------------------- rescoring

  function RowsOf(rows: seq<(Dimension, CheckRow)>, dimension: Dimension): seq<CheckRow>
  {
    if rows == [] then []
    else RowsOf(rows[..|rows| - 1], dimension) + (if rows[|rows| - 1].0 == dimension then [rows[|rows| - 1].1] else [])
  }

  function Rescored(scores: seq<DimensionScore>, rows: seq<(Dimension, CheckRow)>): (out: seq<DimensionScore>)
    ensures |out| == |scores|
  {
    seq(|scores|, i requires 0 <= i < |scores| => RescoredOne(scores[i], rows))
  }

  function RescoredOne(s: DimensionScore, rows: seq<(Dimension, CheckRow)>): DimensionScore
  {
    s.(score := DimensionScoreV2(s.findings, RowsOf(rows, s.dimension)))
  }

  method GroupByDimension(rows: seq<(Dimension, CheckRow)>) returns (byDim: map<Dimension, seq<CheckRow>>)
    ensures forall d :: (if d in byDim then byDim[d] else []) == RowsOf(rows, d)
  {
    byDim := map[];
    for i := 0 to |rows|
      invariant forall d :: (if d in byDim then byDim[d] else []) == RowsOf(rows[..i], d)
    {
      assert rows[..i + 1][..i] == rows[..i];
      var (d, row) := rows[i];
      byDim := byDim[d := (if d in byDim then byDim[d] else []) + [row]];
    }
    assert rows[..|rows|] == rows;
  }

  method ApplyScoreModelV2(scores: seq<DimensionScore>, rows: seq<(Dimension, CheckRow)>)
    returns (out: seq<DimensionScore>)
    ensures out == Rescored(scores, rows)
    ensures forall i :: 0 <= i < |out| ==> 0 <= out[i].score <= 100
  {
    var byDim := GroupByDimension(rows);
    out := [];
    for i := 0 to |scores|
      invariant |out| == i
      invariant forall j :: 0 <= j < i ==> out[j] == RescoredOne(scores[j], rows) && 0 <= out[j].score <= 100
    {
      var d := scores[i].dimension;
      var newScore := CalculateDimensionScoreV2(scores[i].findings, if d in byDim then byDim[d] else []);
      out := out + [scores[i].(score := newScore)];
    }
  }

  // ---------------------------------------------------------------- the weighted overall

  datatype Criticality = CriticalApp | HighApp | MediumApp | LowApp | OtherApp

  function Weight(c: Criticality, dimension: Dimension): (w: real)
    ensures 0.9 <= w <= 1.6
  {
    match (c, dimension)
    case (CriticalApp, Security) => 1.6
    case (CriticalApp, Compliance) => 1.4
    case (CriticalApp, HaDr) => 1.2
    case (CriticalApp, Infrastructure) => 1.1
    case (CriticalApp, DataGovernance) => 0.9
    case (HighApp, Security) => 1.4
    case (HighApp, Compliance) => 1.2
    case (HighApp, HaDr) => 1.15
    case (HighApp, Infrastructure) => 1.05
    case (HighApp, DataGovernance) => 0.95
    case (MediumApp, Security) => 1.15
    case (MediumApp, Compliance) => 1.05
    case (OtherApp, Security) => 1.15
    case (OtherApp, Compliance) => 1.05
    case _ => 1.0
  }

  datatype Weighed = Weighed(score: int, weight: real)

  function WeighedScores(scores: seq<DimensionScore>, c: Criticality): (ws: seq<Weighed>)
    ensures |ws| == |scores|
  {
    seq(|scores|, i requires 0 <= i < |scores| => Weighed(scores[i].score, Weight(c, scores[i].dimension)))
  }

  function Acc(ws: seq<Weighed>): real
  {
    if ws == [] then 0.0 else Acc(ws[..|ws| - 1]) + ws[|ws| - 1].score as real * ws[|ws| - 1].weight
  }

  function TotalWeight(ws: seq<Weighed>): real
  {
    if ws == [] then 0.0 else TotalWeight(ws[..|ws| - 1]) + ws[|ws| - 1].weight
  }

  function Quotient(acc: real, totalW: real): int
  {
    if totalW <= 0.0 then 0 else Round(100.0 * (acc / totalW))
  }

  function MeanHundredths(ws: seq<Weighed>): int
  {
    Quotient(Acc(ws), TotalWeight(ws))
  }

  /** In hundredths, so that the rounding to two places is exact. */
  function OverallHundredths(scores: seq<DimensionScore>, c: Criticality): int
  {
    MeanHundredths(WeighedScores(scores, c))
  }

  lemma WeighedOnce(ws: seq<Weighed>, i: nat)
    requires i < |ws|
    ensures Acc(ws[..i + 1]) == Acc(ws[..i]) + ws[i].score as real * ws[i].weight
    ensures TotalWeight(ws[..i + 1]) == TotalWeight(ws[..i]) + ws[i].weight
  {
    assert ws[..i + 1][..i] == ws[..i];
  }

  method WeightedOverallScore(scores: seq<DimensionScore>, c: Criticality) returns (hundredths: int)
    ensures hundredths == OverallHundredths(scores, c)
  {
    var totalW, acc := 0.0, 0.0;
    ghost var ws := WeighedScores(scores, c);
    for i := 0 to |scores|
      invariant acc == Acc(ws[..i]) && totalW == TotalWeight(ws[..i])
    {
      WeighedOnce(ws, i);
      var w := Weight(c, scores[i].dimension);
      acc := acc + scores[i].score as real * w;
      totalW := totalW + w;
    }
    assert ws[..|scores|] == ws;
    return Quotient(acc, totalW);
  }

  ghost predicate Positive(ws: seq<Weighed>) { forall i :: 0 <= i < |ws| ==> ws[i].weight > 0.0 }

  lemma ScaleKeepsOrder(a: real, b: real, w: real)
    requires a <= b && w >= 0.0
    ensures a * w <= b * w
  {
  }

  lemma ScaleStrictly(a: real, b: real, w: real)
    requires a < b && w > 0.0
    ensures a * w < b * w
  {
  }

  lemma WeightedStep(lo: real, hi: real, acc: real, t: real, s: real, w: real, acc': real, t': real)
    requires lo * t <= acc <= hi * t && lo <= s <= hi && w >= 0.0
    requires t' == t + w && acc' == acc + s * w
    ensures lo * t' <= acc' <= hi * t'
  {
    ScaleKeepsOrder(lo, s, w);
    ScaleKeepsOrder(s, hi, w);
    assert lo * (t + w) == lo * t + lo * w && hi * (t + w) == hi * t + hi * w;
  }

  lemma {:induction false} AccBetween(ws: seq<Weighed>, lo: real, hi: real)
    requires Positive(ws) && forall i :: 0 <= i < |ws| ==> lo <= ws[i].score as real <= hi
    ensures lo * TotalWeight(ws) <= Acc(ws) <= hi * TotalWeight(ws)
    ensures TotalWeight(ws) >= 0.0 && (ws != [] ==> TotalWeight(ws) > 0.0)
    decreases |ws|
  {
    if ws != [] {
      var n := |ws| - 1;
      AccBetween(ws[..n], lo, hi);
      WeightedStep(lo, hi, Acc(ws[..n]), TotalWeight(ws[..n]), ws[n].score as real, ws[n].weight, Acc(ws), TotalWeight(ws));
    }
  }

  lemma DivIsMonotone(x: real, y: real, t: real)
    requires t > 0.0 && x <= y
    ensures x / t <= y / t
  {
    var (p, q) := (x / t, y / t);
    assert p * t == x && q * t == y;
    if p > q {
      ScaleStrictly(q, p, t);
    }
  }

  lemma HundredthsAreMonotone(x: real, y: real, t: real)
    requires t > 0.0 && x <= y
    ensures Round(100.0 * (x / t)) <= Round(100.0 * (y / t))
  {
    DivIsMonotone(x, y, t);
    RoundIsMonotone(100.0 * (x / t), 100.0 * (y / t));
  }

  lemma HundredthsBetween(lo: int, x: real, hi: int, t: real)
    requires t > 0.0 && lo as real * t <= x <= hi as real * t
    ensures 100 * lo <= Round(100.0 * (x / t)) <= 100 * hi
  {
    DivIsMonotone(lo as real * t, x, t);
    DivIsMonotone(x, hi as real * t, t);
    assert lo as real * t / t == lo as real && hi as real * t / t == hi as real;
    RoundBetween(100 * lo, 100.0 * (x / t), 100 * hi);
  }

  /** The weighted overall lies between the lowest and the highest dimension score. */
  lemma OverallIsBetween(scores: seq<DimensionScore>, c: Criticality, lo: int, hi: int)
    requires scores != [] && forall i :: 0 <= i < |scores| ==> lo <= scores[i].score <= hi
    ensures 100 * lo <= OverallHundredths(scores, c) <= 100 * hi
  {
    WeighedBetween(scores, c, lo, hi);
    MeanIsBetween(WeighedScores(scores, c), lo, hi);
  }

  lemma WeighedBetween(scores: seq<DimensionScore>, c: Criticality, lo: int, hi: int)
    requires forall i :: 0 <= i < |scores| ==> lo <= scores[i].score <= hi
    ensures var ws := WeighedScores(scores, c);
            Positive(ws) && forall i :: 0 <= i < |ws| ==> lo as real <= ws[i].score as real <= hi as real
  {
  }

  lemma MeanIsBetween(ws: seq<Weighed>, lo: int, hi: int)
    requires ws != [] && Positive(ws) && forall i :: 0 <= i < |ws| ==> lo as real <= ws[i].score as real <= hi as real
    ensures 100 * lo <= MeanHundredths(ws) <= 100 * hi
  {
    AccBetween(ws, lo as real, hi as real);
    HundredthsBetween(lo, Acc(ws), hi, TotalWeight(ws));
  }

  /** The same dimensions, none scored lower. */
  ghost predicate NotLower(a: seq<DimensionScore>, b: seq<DimensionScore>)
  {
    |a| == |b| && forall i :: 0 <= i < |a| ==> a[i].dimension == b[i].dimension && a[i].score <= b[i].score
  }

  lemma {:induction false} AccIsMonotone(a: seq<Weighed>, b: seq<Weighed>)
    requires |a| == |b| && Positive(a)
    requires forall i :: 0 <= i < |a| ==> a[i].weight == b[i].weight && a[i].score <= b[i].score
    ensures Acc(a) <= Acc(b) && TotalWeight(a) == TotalWeight(b)
    decreases |a|
  {
    if a != [] {
      var n := |a| - 1;
      AccIsMonotone(a[..n], b[..n]);
      ScaleKeepsOrder(a[n].score as real, b[n].score as real, a[n].weight);
    }
  }

  lemma OverallIsMonotone(a: seq<DimensionScore>, b: seq<DimensionScore>, c: Criticality)
    requires NotLower(a, b)
    ensures OverallHundredths(a, c) <= OverallHundredths(b, c)
  {
    var (x, y) := (WeighedScores(a, c), WeighedScores(b, c));
    AccIsMonotone(x, y);
    if TotalWeight(x) > 0.0 {
      HundredthsAreMonotone(Acc(x), Acc(y), TotalWeight(x));
    }
  }

  // ---------------------------------------------------------------- clearing one finding

  function IdPiece(g: Finding, f: Finding): seq<Finding> { if g.id == f.id then [] else [g] }

  function WithoutId(findings: seq<Finding>, f: Finding): seq<Finding>
  {
    if findings == [] then []
    else WithoutId(findings[..|findings| - 1], f) + IdPiece(findings[|findings| - 1], f)
  }

  predicate SameText(a: Finding, b: Finding)
  {
    a.category == b.category && a.severity == b.severity && a.description == b.description && a.source == b.source
  }

  function TextPiece(g: Finding, f: Finding): seq<Finding> { if SameText(g, f) then [] else [g] }

  function WithoutText(findings: seq<Finding>, f: Finding): seq<Finding>
  {
    if findings == [] then []
    else WithoutText(findings[..|findings| - 1], f) + TextPiece(findings[|findings| - 1], f)
  }

  predicate SameKind(a: Finding, b: Finding) { a.category == b.category && a.severity == b.severity }

  predicate HasKind(findings: seq<Finding>, f: Finding) { exists g :: g in findings && SameKind(g, f) }

  /** Without the first finding of this category and severity. */
  function WithoutFirst(findings: seq<Finding>, f: Finding): seq<Finding>
  {
    if findings == [] then []
    else
      var (rest, last) := (findings[..|findings| - 1], findings[|findings| - 1]);
      if HasKind(rest, f) then WithoutFirst(rest, f) + [last] else if SameKind(last, f) then rest else findings
  }

  function FindingsWithout(findings: seq<Finding>, f: Finding): seq<Finding>
  {
    var byId := WithoutId(findings, f);
    if |byId| != |findings| then byId
    else
      var byText := WithoutText(findings, f);
      if |byText| != |findings| then byText else WithoutFirst(findings, f)
  }

  method RemoveFinding(findings: seq<Finding>, f: Finding) returns (out: seq<Finding>)
    ensures out == FindingsWithout(findings, f)
  {
    var remaining := WithoutId(findings, f);
    if |remaining| != |findings| {
      return remaining;
    }
    remaining := WithoutText(findings, f);
    if |remaining| != |findings| {
      return remaining;
    }
    out := RemoveFirst(findings, f);
  }

  method RemoveFirst(findings: seq<Finding>, f: Finding) returns (out: seq<Finding>)
    ensures out == WithoutFirst(findings, f)
  {
    var removed := false;
    out := [];
    for i := 0 to |findings|
      invariant out == WithoutFirst(findings[..i], f)
      invariant removed <==> HasKind(findings[..i], f)
      invariant !removed ==> out == findings[..i]
    {
      assert findings[..i + 1] == findings[..i] + [findings[i]] && findings[..i + 1][..i] == findings[..i];
      if !removed && SameKind(findings[i], f) {
        removed := true;
      } else {
        out := out + [findings[i]];
      }
    }
    assert findings[..|findings|] == findings;
  }

  lemma {:induction false} WithinIsReflexive(s: seq<Finding>)
    ensures Within(s, s)
  {
    if s != [] {
      WithinIsReflexive(s[..|s| - 1]);
    }
  }

  lemma WithinSnoc(part: seq<Finding>, whole: seq<Finding>, x: Finding)
    requires Within(part, whole)
    ensures Within(part, whole + [x]) && Within(part + [x], whole + [x])
  {
    assert (part + [x])[..|part|] == part && (whole + [x])[..|whole|] == whole;
  }

  lemma WithinEither(part: seq<Finding>, whole: seq<Finding>, x: Finding, more: seq<Finding>)
    requires Within(part, whole) && (more == [] || more == [x])
    ensures Within(part + more, whole + [x])
  {
    WithinSnoc(part, whole, x);
    assert part + [] == part;
  }

  lemma {:induction false} IdFilterIsWithin(s: seq<Finding>, f: Finding)
    ensures Within(WithoutId(s, f), s)
    decreases |s|
  {
    if s != [] {
      var (rest, last) := (s[..|s| - 1], s[|s| - 1]);
      IdFilterIsWithin(rest, f);
      assert s == rest + [last];
      WithinEither(WithoutId(rest, f), rest, last, IdPiece(last, f));
    }
  }

  lemma {:induction false} IdFilterRemoves(s: seq<Finding>, f: Finding)
    ensures |WithoutId(s, f)| <= |s|
    ensures |WithoutId(s, f)| == |s| <==> forall g :: g in s ==> g.id != f.id
    ensures forall g :: g in WithoutId(s, f) ==> g in s && g.id != f.id
    decreases |s|
  {
    if s != [] {
      IdFilterRemoves(s[..|s| - 1], f);
      assert s == s[..|s| - 1] + [s[|s| - 1]];
    }
  }

  lemma {:induction false} TextFilterIsWithin(s: seq<Finding>, f: Finding)
    ensures Within(WithoutText(s, f), s)
    decreases |s|
  {
    if s != [] {
      var (rest, last) := (s[..|s| - 1], s[|s| - 1]);
      TextFilterIsWithin(rest, f);
      assert s == rest + [last];
      WithinEither(WithoutText(rest, f), rest, last, TextPiece(last, f));
    }
  }

  lemma {:induction false} TextFilterRemoves(s: seq<Finding>, f: Finding)
    ensures |WithoutText(s, f)| <= |s|
    ensures |WithoutText(s, f)| == |s| <==> forall g :: g in s ==> !SameText(g, f)
    ensures forall g :: g in WithoutText(s, f) ==> g in s && !SameText(g, f)
    decreases |s|
  {
    if s != [] {
      TextFilterRemoves(s[..|s| - 1], f);
      assert s == s[..|s| - 1] + [s[|s| - 1]];
    }
  }

  lemma {:induction false} FirstIsWithin(s: seq<Finding>, f: Finding)
    ensures Within(WithoutFirst(s, f), s)
    ensures |WithoutFirst(s, f)| == |s| - (if HasKind(s, f) then 1 else 0)
    decreases |s|
  {
    WithinIsReflexive(s);
    if s != [] {
      var (rest, last) := (s[..|s| - 1], s[|s| - 1]);
      assert s == rest + [last];
      FirstIsWithin(rest, f);
      WithinSnoc(WithoutFirst(rest, f), rest, last);
      WithinIsReflexive(rest);
      WithinSnoc(rest, rest, last);
    }
  }

  /** Clearing a finding only removes findings, never keeps the finding itself, and removes something
      exactly when the dimension has one of that category and severity. */
  lemma ClearingOnlyRemoves(s: seq<Finding>, f: Finding)
    requires forall g :: g in s && g.id == f.id ==> g == f
    ensures Within(FindingsWithout(s, f), s)
    ensures f in s ==> f !in FindingsWithout(s, f)
    ensures |FindingsWithout(s, f)| < |s| <==> HasKind(s, f)
  {
    IdFilterIsWithin(s, f);
    IdFilterRemoves(s, f);
    TextFilterIsWithin(s, f);
    TextFilterRemoves(s, f);
    FirstIsWithin(s, f);
  }

  function ClearedOne(s: DimensionScore, f: Finding, dimension: Dimension): DimensionScore
  {
    if s.dimension != dimension then s
    else
      var remaining := FindingsWithout(s.findings, f);
      DimensionScore(s.dimension, DimensionScoreV2(remaining, []), remaining)
  }

  function Cleared(scores: seq<DimensionScore>, f: Finding, dimension: Dimension): (out: seq<DimensionScore>)
    ensures |out| == |scores|
  {
    seq(|scores|, i requires 0 <= i < |scores| => ClearedOne(scores[i], f, dimension))
  }

  /** The estimated gain in tenths. */
  function DeltaTenths(scores: seq<DimensionScore>, c: Criticality, f: Finding, dimension: Dimension): int
  {
    if f.severity == Info then 0
    else Round((OverallHundredths(Cleared(scores, f, dimension), c) - OverallHundredths(scores, c)) as real / 10.0)
  }

  method EstimateFindingOverallDelta(scores: seq<DimensionScore>, c: Criticality, f: Finding, dimension: Dimension)
    returns (tenths: int)
    ensures tenths == DeltaTenths(scores, c, f, dimension)
  {
    if f.severity == Info {
      return 0;
    }
    var newDims := ClearDimension(scores, f, dimension);
    var newOverall := WeightedOverallScore(newDims, c);
    var oldOverall := WeightedOverallScore(scores, c);
    tenths := Round((newOverall - oldOverall) as real / 10.0);
  }

  method ClearDimension(scores: seq<DimensionScore>, f: Finding, dimension: Dimension)
    returns (newDims: seq<DimensionScore>)
    ensures newDims == Cleared(scores, f, dimension)
  {
    newDims := [];
    for i := 0 to |scores|
      invariant |newDims| == i
      invariant forall j :: 0 <= j < i ==> newDims[j] == ClearedOne(scores[j], f, dimension)
    {
      if scores[i].dimension != dimension {
        newDims := newDims + [scores[i]];
      } else {
        var remaining := RemoveFinding(scores[i].findings, f);
        var score := CalculateDimensionScoreV2(remaining, []);
        newDims := newDims + [DimensionScore(scores[i].dimension, score, remaining)];
      }
    }
  }

  /** The sign of the estimate follows the dimension: no gain is predicted from a rescored dimension
      that is lower, no loss from one that is higher. */
  lemma DeltaFollowsTheDimension(scores: seq<DimensionScore>, c: Criticality, f: Finding, dimension: Dimension)
    ensures NotLower(scores, Cleared(scores, f, dimension)) ==> DeltaTenths(scores, c, f, dimension) >= 0
    ensures NotLower(Cleared(scores, f, dimension), scores) ==> DeltaTenths(scores, c, f, dimension) <= 0
  {
    var cleared := Cleared(scores, f, dimension);
    var d := (OverallHundredths(cleared, c) - OverallHundredths(scores, c)) as real / 10.0;
    if NotLower(scores, cleared) {
      OverallIsMonotone(scores, cleared, c);
      RoundIsMonotone(0.0, d);
    }
    if NotLower(cleared, scores) {
      OverallIsMonotone(cleared, scores, c);
      RoundIsMonotone(d, 0.0);
    }
  }

  /** When the dimension was scored without check rows, fixing a finding never loses points. */
  lemma FixNeverLosesPoints(scores: seq<DimensionScore>, c: Criticality, f: Finding, dimension: Dimension)
    requires forall i :: 0 <= i < |scores| && scores[i].dimension == dimension ==>
               && scores[i].score == DimensionScoreV2(scores[i].findings, [])
               && forall g :: g in scores[i].findings && g.id == f.id ==> g == f
    ensures DeltaTenths(scores, c, f, dimension) >= 0
  {
    forall i | 0 <= i < |scores| && scores[i].dimension == dimension
      ensures scores[i].score <= Cleared(scores, f, dimension)[i].score
    {
      ClearingOnlyRemoves(scores[i].findings, f);
      FewerFindingsNeverScoreLower(FindingsWithout(scores[i].findings, f), scores[i].findings, []);
    }
    DeltaFollowsTheDimension(scores, c, f, dimension);
  }

  // ---------------------------------------------------------------- exactly when the estimate is a loss

  ghost predicate DistinctDimensions(scores: seq<DimensionScore>)
  {
    forall i, j :: 0 <= i < j < |scores| ==> scores[i].dimension != scores[j].dimension
  }

  /** One score changes: the weighted sum moves by its weight times the change. */
  lemma {:induction false} AccMoves(a: seq<Weighed>, b: seq<Weighed>, k: nat)
    requires k < |a| == |b| && a[k].weight == b[k].weight
    requires forall i :: 0 <= i < |a| && i != k ==> a[i] == b[i]
    ensures Acc(b) - Acc(a) == (b[k].score - a[k].score) as real * a[k].weight
    ensures TotalWeight(a) == TotalWeight(b)
    decreases |a|
  {
    var n := |a| - 1;
    if k < n {
      AccMoves(a[..n], b[..n], k);
    } else {
      assert a[..n] == b[..n];
      assert (b[k].score as real - a[k].score as real) * a[k].weight ==
             b[k].score as real * a[k].weight - a[k].score as real * a[k].weight;
    }
  }

  lemma GapTimes(p: real, q: real, t: real, gap: real)
    requires gap == 100.0 * q - 100.0 * p
    ensures gap * t == 100.0 * (q * t) - 100.0 * (p * t)
  {
  }

  lemma QuotientGap(x: real, y: real, t: real, w: real, d: real)
    requires t > 0.0 && y - x == d * w && d >= 1.0 && w > 0.0 && 6.0 * t < 100.0 * w
    ensures 100.0 * (y / t) - 100.0 * (x / t) > 6.0
  {
    var (p, q) := (x / t, y / t);
    assert p * t == x && q * t == y;
    WideGap(p, q, t, w, d);
  }

  lemma WideGap(p: real, q: real, t: real, w: real, d: real)
    requires t > 0.0 && q * t - p * t == d * w && d >= 1.0 && w > 0.0 && 6.0 * t < 100.0 * w
    ensures 100.0 * q - 100.0 * p > 6.0
  {
    var gap := 100.0 * q - 100.0 * p;
    GapTimes(p, q, t, gap);
    ScaleKeepsOrder(1.0, d, w);
    MoreThanSix(gap, t, gap * t, 100.0 * w);
  }

  lemma MoreThanSix(gap: real, t: real, product: real, w: real)
    requires t > 0.0 && 6.0 * t < w <= product && product == gap * t
    ensures gap > 6.0
  {
    if gap <= 6.0 {
      ScaleKeepsOrder(gap, 6.0, t);
    }
  }

  lemma RoundedGap(x: real, y: real)
    requires y - x > 6.0
    ensures Round(y) - Round(x) >= 6
  {
    RoundIsNearest(x);
    RoundIsNearest(y);
  }

  /** The mean is strictly monotone in each score that weighs enough: six hundredths or more per point. */
  lemma MeanMoves(a: seq<Weighed>, b: seq<Weighed>, k: nat)
    requires k < |a| == |b| && Positive(a) && a[k].weight == b[k].weight && a[k].score < b[k].score
    requires forall i :: 0 <= i < |a| && i != k ==> a[i] == b[i]
    requires 6.0 * TotalWeight(a) < 100.0 * a[k].weight
    ensures MeanHundredths(b) - MeanHundredths(a) >= 6
  {
    AccMoves(a, b, k);
    WeightIsPositive(a);
    QuotientsMove(Acc(a), Acc(b), TotalWeight(a), a[k].weight, b[k].score - a[k].score);
  }

  lemma QuotientsMove(x: real, y: real, t: real, w: real, d: int)
    requires t > 0.0 && y - x == d as real * w && d >= 1 && w > 0.0 && 6.0 * t < 100.0 * w
    ensures Round(100.0 * (y / t)) - Round(100.0 * (x / t)) >= 6
  {
    QuotientGap(x, y, t, w, d as real);
    RoundedGap(100.0 * (x / t), 100.0 * (y / t));
  }

  lemma {:induction false} WeightIsPositive(ws: seq<Weighed>)
    requires Positive(ws)
    ensures TotalWeight(ws) >= 0.0 && (ws != [] ==> TotalWeight(ws) > 0.0)
    decreases |ws|
  {
    if ws != [] {
      WeightIsPositive(ws[..|ws| - 1]);
    }
  }

  /** Whether the estimate for a finding is a loss, in one number: the score its dimension is given
      once the finding is cleared and the check rows are forgotten. */
  function BaselineScore(findings: seq<Finding>, f: Finding): int { DimensionScoreV2(FindingsWithout(findings, f), []) }

  lemma ClearedMovesOne(scores: seq<DimensionScore>, c: Criticality, f: Finding, k: nat)
    requires k < |scores| && DistinctDimensions(scores)
    ensures var (a, b) := (WeighedScores(scores, c), WeighedScores(Cleared(scores, f, scores[k].dimension), c));
            && a[k] == Weighed(scores[k].score, Weight(c, scores[k].dimension))
            && b[k] == Weighed(BaselineScore(scores[k].findings, f), Weight(c, scores[k].dimension))
            && (forall i :: 0 <= i < |a| && i != k ==> a[i] == b[i])
            && Positive(a) && Positive(b)
  {
    var cleared := Cleared(scores, f, scores[k].dimension);
    forall i | 0 <= i < |scores| && i != k
      ensures cleared[i] == scores[i]
    {
      assert scores[if i < k then i else k].dimension != scores[if i < k then k else i].dimension;
    }
  }

  /** With distinct dimensions, a finding that is not Info, and a dimension that weighs more than six
      hundredths of the whole: the estimate is negative exactly when the score the dimension holds is
      above its baseline score without the finding. */
  lemma EstimateIsALossIff(scores: seq<DimensionScore>, c: Criticality, f: Finding, k: nat)
    requires k < |scores| && DistinctDimensions(scores) && f.severity != Info
    requires 6.0 * TotalWeight(WeighedScores(scores, c)) < 100.0 * Weight(c, scores[k].dimension)
    ensures DeltaTenths(scores, c, f, scores[k].dimension) < 0 <==>
            scores[k].score > BaselineScore(scores[k].findings, f)
  {
    var (cleared, d) := (Cleared(scores, f, scores[k].dimension), scores[k].dimension);
    var (a, b) := (WeighedScores(scores, c), WeighedScores(cleared, c));
    ClearedMovesOne(scores, c, f, k);
    if scores[k].score > BaselineScore(scores[k].findings, f) {
      AccMoves(a, b, k);
      MeanMoves(b, a, k);
      RoundIsMonotone((OverallHundredths(cleared, c) - OverallHundredths(scores, c)) as real / 10.0, -0.6);
    } else {
      AccIsMonotone(a, b);
      MeansKeepOrder(a, b);
      RoundIsMonotone(0.0, (OverallHundredths(cleared, c) - OverallHundredths(scores, c)) as real / 10.0);
    }
  }

  lemma MeansKeepOrder(a: seq<Weighed>, b: seq<Weighed>)
    requires Acc(a) <= Acc(b) && TotalWeight(a) == TotalWeight(b)
    ensures MeanHundredths(a) <= MeanHundredths(b)
  {
    if TotalWeight(a) > 0.0 {
      HundredthsAreMonotone(Acc(a), Acc(b), TotalWeight(a));
    }
  }

  lemma RatioIsAPercentage(passed: nat, applicable: int)
    requires passed <= applicable && applicable > 0
    ensures 0.0 <= Ratio(passed, applicable) <= 100.0
    ensures 0 <= Round(Ratio(passed, applicable)) <= 100
  {
    var r := Ratio(passed, applicable);
    assert r * applicable as real == (100 * passed) as real;
    if r > 100.0 {
      ScaleStrictly(100.0, r, applicable as real);
    }
    RoundBetween(0, r, 100);
  }

  /** Counted out, from check rows: the rounded share of checks passed among checks and orphaned
      failures. */
  function ChecksScore(passed: int, checks: int, orphans: int): int
    requires checks + orphans > 0
  {
    Round(Ratio(passed, checks + orphans))
  }

  /** Without rows: the rounded share of the controls, eight or as many as failed, left by the failures. */
  function ControlsScore(fails: nat): int
  {
    Round(Ratio(Max(BASELINE_CONTROLS, fails) - fails, Max(BASELINE_CONTROLS, fails)))
  }

  lemma ScoreIsCounted(findings: seq<Finding>, rows: seq<CheckRow>)
    ensures DimensionScoreV2(findings, rows) ==
            if rows == [] then ControlsScore(Fails(findings))
            else ChecksScore(Passed(rows), |rows|, Orphans(findings, Names(rows)))
  {
    if rows == [] {
      var controls := Max(BASELINE_CONTROLS, Fails(findings));
      RatioIsAPercentage(controls - Fails(findings), controls);
    } else {
      RatioIsAPercentage(Passed(rows), |rows| + Orphans(findings, Names(rows)));
    }
  }

  /** So for a dimension scored from check rows: the estimate is a loss exactly when its passed checks
      make a better score than the baseline controls with the failures that stay. */
  lemma CheckedEstimateIsALossIff(scores: seq<DimensionScore>, c: Criticality, f: Finding, k: nat, rows: seq<CheckRow>)
    requires k < |scores| && DistinctDimensions(scores) && f.severity != Info && rows != []
    requires 6.0 * TotalWeight(WeighedScores(scores, c)) < 100.0 * Weight(c, scores[k].dimension)
    requires scores[k].score == DimensionScoreV2(scores[k].findings, rows)
    ensures DeltaTenths(scores, c, f, scores[k].dimension) < 0 <==>
            ChecksScore(Passed(rows), |rows|, Orphans(scores[k].findings, Names(rows))) >
            ControlsScore(Fails(FindingsWithout(scores[k].findings, f)))
  {
    EstimateIsALossIff(scores, c, f, k);
    ScoreIsCounted(scores[k].findings, rows);
    ScoreIsCounted(FindingsWithout(scores[k].findings, f), []);
  }

  lemma {:induction false} TotalWeightIsBounded(scores: seq<DimensionScore>, c: Criticality)
    ensures TotalWeight(WeighedScores(scores, c)) <= 1.6 * |scores| as real
    decreases |scores|
  {
    if scores != [] {
      var n := |scores| - 1;
      assert WeighedScores(scores, c)[..n] == WeighedScores(scores[..n], c);
      TotalWeightIsBounded(scores[..n], c);
    }
  }

  /** Nine dimensions or fewer always meet the weight condition. */
  lemma FewDimensionsWeighEnough(scores: seq<DimensionScore>, c: Criticality, k: nat)
    requires k < |scores| <= 9
    ensures 6.0 * TotalWeight(WeighedScores(scores, c)) < 100.0 * Weight(c, scores[k].dimension)
  {
    TotalWeightIsBounded(scores, c);
  }

  lemma OneDimensionIsTheOverall(s: DimensionScore, c: Criticality)
    ensures OverallHundredths([s], c) == 100 * s.score
  {
    OverallIsBetween([s], c, s.score, s.score);
  }

  lemma ScoreWithTenRows(rows: seq<CheckRow>, a: Finding, b: Finding)
    requires |rows| == 10 && Passed(rows) == 9
    requires a.source != "" && a.source == b.source && a.source in Names(rows)
    ensures DimensionScoreV2([a, b], rows) == 90
  {
    assert [a, b][..1] == [a] && [a][..0] == [];
    assert Orphans([a], Names(rows)) == 0;
    assert Ratio(9, 10) == 90.0;
  }

  lemma ScoreOfOneFail(b: Finding)
    requires IsFail(b)
    ensures DimensionScoreV2([b], []) == 88
  {
    assert [b][..0] == [];
    assert Fails([]) == 0 && Fails([b]) == 1;
    assert Ratio(7, 8) == 87.5 && Round(87.5) == 88;
  }

  lemma OneLeft(a: Finding, b: Finding)
    requires a.id != b.id
    ensures FindingsWithout([a, b], a) == [b]
  {
    assert [a, b][..1] == [a] && [a][..0] == [];
    assert WithoutId([a], a) == [];
  }

  /** With check rows it can lose: nine of ten checks passing scores 90, and clearing one of two
      findings the checks already count re-scores the other against the baseline of eight. */
  lemma ChecksCanMakeAFixLosePoints(rows: seq<CheckRow>, a: Finding, b: Finding, c: Criticality, dimension: Dimension)
    requires |rows| == 10 && Passed(rows) == 9
    requires a.id != b.id && IsFail(a) && IsFail(b) && a.source != "" && a.source == b.source && a.source in Names(rows)
    ensures var s := DimensionScore(dimension, DimensionScoreV2([a, b], rows), [a, b]);
            s.score == 90 && DeltaTenths([s], c, a, dimension) == -20
  {
    ScoreWithTenRows(rows, a, b);
    ScoreOfOneFail(b);
    OneLeft(a, b);
    var (s, cleared) := (DimensionScore(dimension, 90, [a, b]), DimensionScore(dimension, 88, [b]));
    assert Cleared([s], a, dimension) == [cleared];
    OneDimensionIsTheOverall(s, c);
    OneDimensionIsTheOverall(cleared, c);
  }
}
