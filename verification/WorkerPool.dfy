/** The two thread pools: `SkillEngine.run_all` (src/agentit/skill_engine.py) and
    `_run_analyzers_concurrent` (src/agentit/runner.py). The order in which jobs complete is any
    permutation; both collect by key, and the question is what that order can change. */
module WorkerPool {
  import opened Sequences

  // ---------------------------------------------------------------- collecting by key

  /** Every job completes, once. */
  ghost predicate IsOrder(order: seq<nat>, n: nat)
  {
    && |order| == n
    && (forall i :: 0 <= i < n ==> order[i] < n)
    && (forall k: nat :: k < n ==> k in order)
  }

  /** A dictionary filled in completion order, on top of `base`. */
  function Filled<K, V>(base: map<K, V>, keys: seq<K>, values: seq<V>, order: seq<nat>): map<K, V>
    requires |keys| == |values| && forall i :: 0 <= i < |order| ==> order[i] < |keys|
  {
    if order == [] then base
    else
      var last := order[|order| - 1];
      Filled(base, keys, values, order[..|order| - 1])[keys[last] := values[last]]
  }

  /** A key set more than once was always set to the same value. */
  ghost predicate Agree<K, V>(keys: seq<K>, values: seq<V>)
    requires |keys| == |values|
  {
    forall i, j :: 0 <= i < |keys| && 0 <= j < |keys| && keys[i] == keys[j] ==> values[i] == values[j]
  }

  lemma {:induction false} FilledIs<K, V>(base: map<K, V>, keys: seq<K>, values: seq<V>, order: seq<nat>)
    requires |keys| == |values| && forall i :: 0 <= i < |order| ==> order[i] < |keys|
    requires Agree(keys, values)
    ensures var m := Filled(base, keys, values, order);
            && (forall k :: k in order ==> keys[k] in m && m[keys[k]] == values[k])
            && (forall key :: key in m <==> key in base || exists k :: k in order && keys[k] == key)
            && (forall key :: key in base && (forall k :: k in order ==> keys[k] != key) ==> m[key] == base[key])
    decreases |order|
  {
    if order != [] {
      var (rest, last) := (order[..|order| - 1], order[|order| - 1]);
      FilledIs(base, keys, values, rest);
      assert order == rest + [last];
      assert forall k :: k in order <==> k in rest || k == last;
    }
  }

  /** When equal keys agree, the completion order cannot be seen in the dictionary. */
  lemma FilledIgnoresOrder<K, V>(base: map<K, V>, keys: seq<K>, values: seq<V>, order: seq<nat>, other: seq<nat>)
    requires |keys| == |values| && IsOrder(order, |keys|) && IsOrder(other, |keys|) && Agree(keys, values)
    ensures Filled(base, keys, values, order) == Filled(base, keys, values, other)
  {
    FilledIs(base, keys, values, order);
    FilledIs(base, keys, values, other);
    assert forall k :: k in order <==> k in other by {
      assert forall k :: k in order ==> k < |keys|;
      assert forall k :: k in other ==> k < |keys|;
    }
    var (m, m') := (Filled(base, keys, values, order), Filled(base, keys, values, other));
    forall key | key in m
      ensures key in m' && m[key] == m'[key]
    {
      if k :| k in order && keys[k] == key {
        assert k in other;
      }
    }
  }

  // ---------------------------------------------------------------- run_all

  datatype Outcome<T> = Done(files: seq<T>) | Raised

  datatype Job<T> = Job(name: string, outcome: Outcome<T>)

  datatype Result<T> = Files(files: seq<T>) | Error

  /** A failing skill contributes nothing. */
  function FilesOf<T>(j: Job<T>): seq<T> { if j.outcome.Done? then j.outcome.files else [] }

  function Sequential<T>(work: seq<Job<T>>): seq<T>
  {
    if work == [] then [] else Sequential(work[..|work| - 1]) + FilesOf(work[|work| - 1])
  }

  function JobNames<T>(work: seq<Job<T>>): (names: seq<string>)
    ensures |names| == |work|
  {
    seq(|work|, i requires 0 <= i < |work| => work[i].name)
  }

  function JobFiles<T>(work: seq<Job<T>>): (files: seq<seq<T>>)
    ensures |files| == |work|
  {
    seq(|work|, i requires 0 <= i < |work| => FilesOf(work[i]))
  }

  function Empties<T>(work: seq<Job<T>>): map<string, seq<T>>
  {
    map n | n in JobNames(work) :: []
  }

  function Collected<T>(work: seq<Job<T>>, bySkill: map<string, seq<T>>): seq<T>
  {
    if work == [] then []
    else
      var name := work[|work| - 1].name;
      Collected(work[..|work| - 1], bySkill) + (if name in bySkill then bySkill[name] else [])
  }

  /** What is stored once the jobs of `rest` have completed. */
  function After<T>(work: seq<Job<T>>, rest: seq<nat>): map<string, seq<T>>
    requires forall k :: 0 <= k < |rest| ==> rest[k] < |work|
  {
    Filled(Empties(work), JobNames(work), JobFiles(work), rest)
  }

  function Pooled<T>(work: seq<Job<T>>, order: seq<nat>): seq<T>
    requires forall i :: 0 <= i < |order| ==> order[i] < |work|
  {
    Collected(work, After(work, order))
  }

  function RunAll<T>(work: seq<Job<T>>, order: seq<nat>): Result<T>
    requires forall i :: 0 <= i < |order| ==> order[i] < |work|
  {
    if work == [] then Files([])
    else if |work| == 1 then (if work[0].outcome.Done? then Files(work[0].outcome.files) else Error)
    else Files(Pooled(work, order))
  }

  method RunWork<T>(work: seq<Job<T>>, order: seq<nat>) returns (r: Result<T>)
    requires forall i :: 0 <= i < |order| ==> order[i] < |work|
    ensures r == RunAll(work, order)
  {
    if work == [] {
      return Files([]);
    }
    if |work| == 1 {
      return if work[0].outcome.Done? then Files(work[0].outcome.files) else Error;
    }
    var bySkill: map<string, seq<T>> := map[];
    for i := 0 to |work|
      invariant bySkill == Empties(work[..i])
    {
      assert JobNames(work[..i + 1]) == JobNames(work[..i]) + [work[i].name];
      bySkill := bySkill[work[i].name := []];
    }
    assert work[..|work|] == work;
    for i := 0 to |order|
      invariant bySkill == Filled(Empties(work), JobNames(work), JobFiles(work), order[..i])
    {
      assert order[..i + 1][..i] == order[..i];
      var job := work[order[i]];
      match job.outcome {
        case Done(files) => bySkill := bySkill[job.name := files];
        case Raised => bySkill := bySkill[job.name := []];
      }
    }
    assert order[..|order|] == order;
    var allFiles := [];
    for i := 0 to |work|
      invariant allFiles == Collected(work[..i], bySkill)
    {
      assert work[..i + 1][..i] == work[..i];
      allFiles := allFiles + if work[i].name in bySkill then bySkill[work[i].name] else [];
    }
    r := Files(allFiles);
  }

  lemma {:induction false} CollectedIsSequential<T>(work: seq<Job<T>>, bySkill: map<string, seq<T>>)
    requires forall i :: 0 <= i < |work| ==> work[i].name in bySkill && bySkill[work[i].name] == FilesOf(work[i])
    ensures Collected(work, bySkill) == Sequential(work)
    decreases |work|
  {
    if work != [] {
      CollectedIsSequential(work[..|work| - 1], bySkill);
    }
  }

  /** Same-named jobs produce the same files. */
  ghost predicate NamesAgree<T>(work: seq<Job<T>>) { Agree(JobNames(work), JobFiles(work)) }

  lemma PooledIsSequential<T>(work: seq<Job<T>>, order: seq<nat>)
    requires IsOrder(order, |work|) && NamesAgree(work)
    ensures Pooled(work, order) == Sequential(work)
  {
    var bySkill := Filled(Empties(work), JobNames(work), JobFiles(work), order);
    FilledIs(Empties(work), JobNames(work), JobFiles(work), order);
    forall i | 0 <= i < |work|
      ensures work[i].name in bySkill && bySkill[work[i].name] == FilesOf(work[i])
    {
      assert i in order && JobNames(work)[i] == work[i].name && JobFiles(work)[i] == FilesOf(work[i]);
    }
    CollectedIsSequential(work, bySkill);
  }

  /** Two or more skills with distinct names: whatever completes first, the result is the files of
      each skill in match order, a failing one contributing nothing. */
  lemma RunAllIsSequential<T>(work: seq<Job<T>>, order: seq<nat>)
    requires IsOrder(order, |work|) && |work| >= 2
    requires forall i, j :: 0 <= i < j < |work| ==> work[i].name != work[j].name
    ensures RunAll(work, order) == Files(Sequential(work))
  {
    PooledIsSequential(work, order);
  }

  /** No skill makes no files. A skill alone makes its own files, and its failure is an error; among others no
      failure is. */
  lemma FewSkillsAre<T>(work: seq<Job<T>>, order: seq<nat>)
    requires IsOrder(order, |work|)
    ensures work == [] ==> RunAll(work, order) == Files([])
    ensures |work| == 1 ==>
              RunAll(work, order) == match work[0].outcome case Done(files) => Files(files) case Raised => Error
    ensures RunAll(work, order) == Error <==> |work| == 1 && work[0].outcome.Raised?
  {
  }

  // ---------------------------------------------------------------- exactly when order matters

  function Others(n: nat, i: nat, j: nat): seq<nat>
  {
    if n == 0 then [] else Others(n - 1, i, j) + (if n - 1 == i || n - 1 == j then [] else [n - 1])
  }

  lemma {:induction false} OthersAre(n: nat, i: nat, j: nat)
    requires i < j
    ensures forall k: nat :: k in Others(n, i, j) <==> k < n && k != i && k != j
    ensures |Others(n, i, j)| == n - (if i < n then 1 else 0) - (if j < n then 1 else 0)
  {
    if n > 0 {
      OthersAre(n - 1, i, j);
    }
  }

  lemma SwapsAreOrders(n: nat, i: nat, j: nat)
    requires i < j < n
    ensures IsOrder(Others(n, i, j) + [i, j], n) && IsOrder(Others(n, i, j) + [j, i], n)
  {
    OthersAre(n, i, j);
    var rest := Others(n, i, j);
    forall k | 0 <= k < |rest|
      ensures rest[k] < n
    {
      assert rest[k] in rest;
    }
  }

  function Uses<T>(work: seq<Job<T>>, name: string): nat
  {
    if work == [] then 0 else Uses(work[..|work| - 1], name) + (if work[|work| - 1].name == name then 1 else 0)
  }

  lemma {:induction false} CollectedLengths<T>(work: seq<Job<T>>, m: map<string, seq<T>>, name: string, a: seq<T>,
          b: seq<T>)
    ensures |Collected(work, m[name := a])| - |Collected(work, m[name := b])| == Uses(work, name) * (|a| - |b|)
    decreases |work|
  {
    if work != [] {
      var rest := work[..|work| - 1];
      CollectedLengths(rest, m, name, a, b);
      if work[|work| - 1].name == name {
        assert (Uses(rest, name) + 1) * (|a| - |b|) == Uses(rest, name) * (|a| - |b|) + (|a| - |b|);
      }
    }
  }

  lemma SplitEqual<T>(a: seq<T>, x: seq<T>, b: seq<T>, y: seq<T>)
    requires a + x == b + y && |x| == |y|
    ensures a == b && x == y
  {
    assert a == (a + x)[..|a|] && b == (b + y)[..|b|];
    assert x == (a + x)[|a|..] && y == (b + y)[|b|..];
  }

  lemma {:induction false} CollectedTellsApart<T>(work: seq<Job<T>>, m: map<string, seq<T>>, name: string, a: seq<T>,
          b: seq<T>)
    requires Uses(work, name) > 0 && |a| == |b|
    requires Collected(work, m[name := a]) == Collected(work, m[name := b])
    ensures a == b
    decreases |work|
  {
    var (rest, last) := (work[..|work| - 1], work[|work| - 1].name);
    var (x, y) := (Piece(m[name := a], last), Piece(m[name := b], last));
    SplitEqual(Collected(rest, m[name := a]), x, Collected(rest, m[name := b]), y);
    if last != name {
      CollectedTellsApart(rest, m, name, a, b);
    }
  }

  function Piece<T>(m: map<string, seq<T>>, name: string): seq<T> { if name in m then m[name] else [] }

  lemma {:induction false} UsesIsPositive<T>(work: seq<Job<T>>, i: nat)
    requires i < |work|
    ensures Uses(work, work[i].name) > 0
    decreases |work|
  {
    if i < |work| - 1 {
      UsesIsPositive(work[..|work| - 1], i);
    }
  }

  lemma OneMore<T>(work: seq<Job<T>>, rest: seq<nat>, i: nat)
    requires i < |work| && forall k :: 0 <= k < |rest| ==> rest[k] < |work|
    ensures After(work, rest + [i]) == After(work, rest)[work[i].name := FilesOf(work[i])]
  {
    assert (rest + [i])[..|rest|] == rest;
  }

  lemma LastOfTwoWins<T>(work: seq<Job<T>>, rest: seq<nat>, i: nat, j: nat)
    requires i < |work| && j < |work| && work[i].name == work[j].name
    requires forall k :: 0 <= k < |rest| ==> rest[k] < |work|
    ensures After(work, rest + [i, j]) == After(work, rest)[work[i].name := FilesOf(work[j])]
  {
    OneMore(work, rest, i);
    OneMore(work, rest + [i], j);
    assert rest + [i, j] == rest + [i] + [j];
  }

  /** No two completion orders can be told apart. */
  ghost predicate OrderIsInvisible<T>(work: seq<Job<T>>)
  {
    forall order, other :: IsOrder(order, |work|) && IsOrder(other, |work|) ==> Pooled(work, order) == Pooled(work, other)
  }

  lemma SwapIsInvisible<T>(work: seq<Job<T>>, i: nat, j: nat)
    requires i < j < |work| && OrderIsInvisible(work)
    ensures var rest := Others(|work|, i, j);
            && IsOrder(rest + [i, j], |work|) && IsOrder(rest + [j, i], |work|)
            && Pooled(work, rest + [i, j]) == Pooled(work, rest + [j, i])
  {
    SwapsAreOrders(|work|, i, j);
  }

  lemma AreIndices(n: nat, i: nat, j: nat)
    requires i < j
    ensures var rest := Others(n, i, j); forall k :: 0 <= k < |rest| ==> rest[k] < n
  {
    OthersAre(n, i, j);
    assert forall k :: 0 <= k < |Others(n, i, j)| ==> Others(n, i, j)[k] in Others(n, i, j);
  }

  lemma SwappedOrdersAreEqual<T>(work: seq<Job<T>>, i: nat, j: nat) returns (m: map<string, seq<T>>)
    requires i < j < |work| && work[i].name == work[j].name && OrderIsInvisible(work)
    ensures Collected(work, m[work[i].name := FilesOf(work[i])]) == Collected(work, m[work[i].name := FilesOf(work[j])])
  {
    var rest := Others(|work|, i, j);
    SwapIsInvisible(work, i, j);
    AreIndices(|work|, i, j);
    LastOfTwoWins(work, rest, i, j);
    LastOfTwoWins(work, rest, j, i);
    m := After(work, rest);
  }

  lemma SameNameMustAgree<T>(work: seq<Job<T>>, i: nat, j: nat)
    requires i < j < |work| && work[i].name == work[j].name && OrderIsInvisible(work)
    ensures FilesOf(work[i]) == FilesOf(work[j])
  {
    var m := SwappedOrdersAreEqual(work, i, j);
    TellFilesApart(work, m, i, FilesOf(work[i]), FilesOf(work[j]));
  }

  lemma TellFilesApart<T>(work: seq<Job<T>>, m: map<string, seq<T>>, i: nat, a: seq<T>, b: seq<T>)
    requires i < |work| && Collected(work, m[work[i].name := a]) == Collected(work, m[work[i].name := b])
    ensures a == b
  {
    UsesIsPositive(work, i);
    CollectedLengths(work, m, work[i].name, a, b);
    NoProductIsZero(Uses(work, work[i].name), |a| - |b|);
    CollectedTellsApart(work, m, work[i].name, a, b);
  }

  lemma NoProductIsZero(n: nat, d: int)
    requires n > 0 && n * d == 0
    ensures d == 0
  {
  }

  /** The pool's result is independent of the completion order exactly when same-named jobs produce
      the same files. */
  lemma OrderIsInvisibleIff<T>(work: seq<Job<T>>)
    ensures OrderIsInvisible(work) <==> NamesAgree(work)
  {
    if NamesAgree(work) {
      forall order, other | IsOrder(order, |work|) && IsOrder(other, |work|)
        ensures Pooled(work, order) == Pooled(work, other)
      {
        PooledIsSequential(work, order);
        PooledIsSequential(work, other);
      }
    }
    if OrderIsInvisible(work) {
      forall i, j | 0 <= i < |work| && 0 <= j < |work| && JobNames(work)[i] == JobNames(work)[j]
        ensures JobFiles(work)[i] == JobFiles(work)[j]
      {
        if i < j {
          SameNameMustAgree(work, i, j);
        } else if j < i {
          SameNameMustAgree(work, j, i);
        }
      }
    }
  }

  // ---------------------------------------------------------------- the analyzer pool

  datatype Entry<S> = Entry(dimension: string, score: S)

  datatype Run<S> = Scored(dimension: string, score: S) | Failed

  datatype Assessment<S> = Scores(scores: seq<Entry<S>>) | Failure

  const ANALYZER_ORDER := ["security", "observability", "cicd", "infrastructure", "compliance", "data_governance", "ha_dr"]

  /** The scores that came in, in the order of the dimensions listed. */
  function Present<S>(order: seq<string>, byDim: map<string, S>): seq<Entry<S>>
  {
    if order == [] then []
    else
      var d := order[|order| - 1];
      Present(order[..|order| - 1], byDim) + (if d in byDim then [Entry(d, byDim[d])] else [])
  }

  function Extras<S>(fixed: seq<string>, byDim: map<string, S>): set<string> { set d | d in byDim && d !in fixed }

  /** `sorted` lists a set of dimensions in its one order. */
  function Listed<S>(fixed: seq<string>, byDim: map<string, S>, sorted: set<string> -> seq<string>): seq<Entry<S>>
  {
    Present(fixed, byDim) + Present(sorted(Extras(fixed, byDim)), byDim)
  }

  predicate AllScored<S>(runs: seq<Run<S>>) { forall i :: 0 <= i < |runs| ==> runs[i].Scored? }

  function Dimensions<S>(runs: seq<Run<S>>): (ds: seq<string>)
    requires AllScored(runs)
    ensures |ds| == |runs|
  {
    seq(|runs|, i requires 0 <= i < |runs| => runs[i].dimension)
  }

  function ScoresOf<S>(runs: seq<Run<S>>): (ss: seq<S>)
    requires AllScored(runs)
    ensures |ss| == |runs|
  {
    seq(|runs|, i requires 0 <= i < |runs| => runs[i].score)
  }

  function RunAnalyzers<S>(runs: seq<Run<S>>, order: seq<nat>, fixed: seq<string>,
          sorted: set<string> -> seq<string>): Assessment<S>
    requires IsOrder(order, |runs|)
  {
    if !AllScored(runs) then Failure
    else if |runs| <= 1 then Scores(seq(|runs|, i requires 0 <= i < |runs| => Entry(runs[i].dimension, runs[i].score)))
    else Scores(Listed(fixed, Filled(map[], Dimensions(runs), ScoresOf(runs), order), sorted))
  }

  method RunAnalyzersConcurrent<S>(runs: seq<Run<S>>, order: seq<nat>, fixed: seq<string>,
          sorted: set<string> -> seq<string>)
    returns (a: Assessment<S>)
    requires IsOrder(order, |runs|)
    ensures a == RunAnalyzers(runs, order, fixed, sorted)
  {
    if |runs| <= 1 {
      if |runs| == 1 && runs[0].Failed? {
        return Failure;
      }
      return Scores(seq(|runs|, i requires 0 <= i < |runs| => Entry(runs[i].dimension, runs[i].score)));
    }
    var byDim: map<string, S> := map[];
    var i := 0;
    while i < |order|
      invariant 0 <= i <= |order|
      invariant forall k :: 0 <= k < i ==> runs[order[k]].Scored?
      invariant AllScored(runs) ==> byDim == Filled(map[], Dimensions(runs), ScoresOf(runs), order[..i])
    {
      var run := runs[order[i]];
      if run.Failed? {
        return Failure;
      }
      assert order[..i + 1][..i] == order[..i];
      byDim := byDim[run.dimension := run.score];
      i := i + 1;
    }
    assert order[..|order|] == order;
    forall k: nat | k < |runs|
      ensures runs[k].Scored?
    {
      assert k in order;
    }
    return Scores(Listed(fixed, byDim, sorted));
  }

  // ------------------------------------------------------------ what the pool reports

  /** The dimensions of a list that are in a set, in list order. */
  function Kept(order: seq<string>, ds: set<string>): seq<string>
  {
    if order == [] then []
    else Kept(order[..|order| - 1], ds) + (if order[|order| - 1] in ds then [order[|order| - 1]] else [])
  }

  function Names<S>(entries: seq<Entry<S>>): (names: seq<string>)
    ensures |names| == |entries|
  {
    seq(|entries|, i requires 0 <= i < |entries| => entries[i].dimension)
  }

  lemma {:induction false} PresentIs<S>(order: seq<string>, byDim: map<string, S>)
    ensures Names(Present(order, byDim)) == Kept(order, byDim.Keys)
    ensures forall e :: e in Present(order, byDim) ==> e.dimension in byDim && e.score == byDim[e.dimension]
    decreases |order|
  {
    if order != [] {
      PresentIs(order[..|order| - 1], byDim);
    }
  }

  lemma {:induction false} KeptAll(order: seq<string>, ds: set<string>)
    requires forall d :: d in order ==> d in ds
    ensures Kept(order, ds) == order
    decreases |order|
  {
    if order != [] {
      KeptAll(order[..|order| - 1], ds);
    }
  }

  ghost predicate Sorts(sorted: set<string> -> seq<string>)
  {
    forall ds, d :: d in sorted(ds) <==> d in ds
  }

  function DimensionSet<S>(runs: seq<Run<S>>): set<string>
    requires AllScored(runs)
  {
    set d | d in Dimensions(runs)
  }

  function Unknown(ds: set<string>, fixed: seq<string>): set<string> { set d | d in ds && d !in fixed }

  predicate DistinctDimensions<S>(runs: seq<Run<S>>)
    requires AllScored(runs)
  {
    forall i, j :: 0 <= i < j < |runs| ==> runs[i].dimension != runs[j].dimension
  }

  lemma FilledByDimension<S>(runs: seq<Run<S>>, order: seq<nat>)
    requires IsOrder(order, |runs|) && AllScored(runs) && DistinctDimensions(runs)
    ensures var m := Filled(map[], Dimensions(runs), ScoresOf(runs), order);
            && m.Keys == DimensionSet(runs)
            && forall k :: 0 <= k < |runs| ==> runs[k].dimension in m && m[runs[k].dimension] == runs[k].score
  {
    var (ds, ss) := (Dimensions(runs), ScoresOf(runs));
    var m := Filled(map[], ds, ss, order);
    FilledIs(map[], ds, ss, order);
    forall k: nat | k < |runs|
      ensures runs[k].dimension in m && m[runs[k].dimension] == runs[k].score
    {
      assert k in order && ds[k] == runs[k].dimension && ss[k] == runs[k].score;
    }
    forall d
      ensures d in m <==> d in ds
    {
      if d in ds {
        var k :| 0 <= k < |ds| && ds[k] == d;
        assert k in order;
      }
    }
  }

  lemma ListedNames<S>(fixed: seq<string>, byDim: map<string, S>, sorted: set<string> -> seq<string>)
    requires Sorts(sorted)
    ensures Names(Listed(fixed, byDim, sorted)) == Kept(fixed, byDim.Keys) + sorted(Unknown(byDim.Keys, fixed))
    ensures forall e :: e in Listed(fixed, byDim, sorted) ==> e.dimension in byDim && e.score == byDim[e.dimension]
  {
    var extras := sorted(Extras(fixed, byDim));
    assert Extras(fixed, byDim) == Unknown(byDim.Keys, fixed);
    PresentIs(fixed, byDim);
    PresentIs(extras, byDim);
    KeptAll(extras, byDim.Keys);
    NamesConcatenate(Present(fixed, byDim), Present(extras, byDim));
  }

  lemma NamesConcatenate<S>(a: seq<Entry<S>>, b: seq<Entry<S>>)
    ensures Names(a + b) == Names(a) + Names(b)
  {
  }

  /** No failure and distinct dimensions: whatever completes first, the report lists the known
      dimensions in the fixed order, then the unknown ones sorted, each with its analyzer's score. */
  lemma AnalyzersAreListedInOrder<S>(runs: seq<Run<S>>, order: seq<nat>, fixed: seq<string>,
          sorted: set<string> -> seq<string>)
    requires IsOrder(order, |runs|) && |runs| >= 2 && AllScored(runs) && DistinctDimensions(runs)
    requires Sorts(sorted)
    ensures var (out, ds) := (RunAnalyzers(runs, order, fixed, sorted), DimensionSet(runs));
            && out.Scores?
            && Names(out.scores) == Kept(fixed, ds) + sorted(Unknown(ds, fixed))
            && forall e, k :: e in out.scores && 0 <= k < |runs| && runs[k].dimension == e.dimension ==> e.score == runs[k].score
  {
    FilledByDimension(runs, order);
    ListedNames(fixed, Filled(map[], Dimensions(runs), ScoresOf(runs), order), sorted);
  }

  lemma {:induction false} KeptIs(order: seq<string>, ds: set<string>)
    ensures forall d :: d in Kept(order, ds) <==> d in order && d in ds
    ensures Distinct(order) ==> Distinct(Kept(order, ds))
    decreases |order|
  {
    if order != [] {
      var (rest, last) := (order[..|order| - 1], order[|order| - 1]);
      KeptIs(rest, ds);
      assert order == rest + [last];
    }
  }

  /** That listing has every analysed dimension, and has it once. */
  lemma ListingIsComplete(fixed: seq<string>, ds: set<string>, sorted: set<string> -> seq<string>)
    requires Sorts(sorted) && Distinct(fixed) && Distinct(sorted(Unknown(ds, fixed)))
    ensures var names := Kept(fixed, ds) + sorted(Unknown(ds, fixed));
            && Distinct(names)
            && forall d :: d in names <==> d in ds
  {
    KeptIs(fixed, ds);
    var (known, rest) := (Kept(fixed, ds), sorted(Unknown(ds, fixed)));
    assert forall i, j :: 0 <= i < |known| && 0 <= j < |rest| ==> known[i] in known && rest[j] in rest;
  }

  /** The shipped analyzers: the report is the fixed order itself, each dimension with its own score. */
  lemma ShippedAnalyzersAreInTheFixedOrder<S>(runs: seq<Run<S>>, order: seq<nat>, sorted: set<string> -> seq<string>)
    requires IsOrder(order, |runs|) && |runs| >= 2 && AllScored(runs) && DistinctDimensions(runs) && Sorts(sorted)
    requires forall d :: d in ANALYZER_ORDER <==> d in DimensionSet(runs)
    ensures var out := RunAnalyzers(runs, order, ANALYZER_ORDER, sorted);
            && out.Scores? && Names(out.scores) == ANALYZER_ORDER
            && Names(out.scores) ==
               ["security", "observability", "cicd", "infrastructure", "compliance", "data_governance", "ha_dr"]
  {
    AnalyzersAreListedInOrder(runs, order, ANALYZER_ORDER, sorted);
    KeptAll(ANALYZER_ORDER, DimensionSet(runs));
    var rest := sorted(Unknown(DimensionSet(runs), ANALYZER_ORDER));
    assert Unknown(DimensionSet(runs), ANALYZER_ORDER) == {};
    assert forall d :: d !in rest;
    NoneIn(rest);
  }

  /** A failing analyzer fails the run, and otherwise the list is the same for every completion order. */
  lemma AnalyzerOrderIsInvisible<S>(runs: seq<Run<S>>, order: seq<nat>, other: seq<nat>, fixed: seq<string>,
                                    sorted: set<string> -> seq<string>)
    requires IsOrder(order, |runs|) && IsOrder(other, |runs|)
    requires AllScored(runs) ==> DistinctDimensions(runs)
    ensures RunAnalyzers(runs, order, fixed, sorted) == RunAnalyzers(runs, other, fixed, sorted)
  {
    if AllScored(runs) {
      FilledIgnoresOrder(map[], Dimensions(runs), ScoresOf(runs), order, other);
    }
  }
}
