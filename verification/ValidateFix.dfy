/** The bounded validate -> fix -> re-validate loop, `validate_and_fix_manifests`, with
    `_merge_fix_files`, `_drop_paths` and `_category_is_in_scope`
    (src/agentit/portal/auto_delivery.py).

    The dry run, the property checks and the fix dispatcher are functions of a `World`; the
    dispatcher may answer differently on every call of one validation. */
module ValidateFix {
  import opened Options
  import DryRun

  datatype File = File(path: string, category: string, content: string)

  datatype Property = NetworkIsolation | Rbac | Autoscaling | Monitoring | HealthProbes

  function FixCategory(p: Property): string
  {
    match p
    case NetworkIsolation => "network"
    case Rbac => "rbac"
    case Autoscaling => "autoscaling"
    case Monitoring => "monitoring"
    case HealthProbes => "health"
  }

  datatype DryResult = DryResult(hard: seq<string>, soft: seq<string>, placeholders: set<string>, skipped: seq<string>)

  datatype World = World(
    dryRun: seq<File> -> DryResult,
    failedProperties: seq<File> -> seq<Property>,
    dispatch: (nat, string) -> seq<File>,       // the n-th dispatch, for a category
    iterate: set<string> -> seq<string>)        // in whatever order a set is walked

  /** Normalised finding categories: of this cluster, if given, and of the whole report, if any. */
  datatype Scope = Scope(target: Option<seq<string>>, report: Option<seq<string>>)

  predicate Contains(text: string, part: string)
  {
    part <= text || (text != "" && Contains(text[1..], part))
  }

  predicate MatchesAny(categories: seq<string>, category: string)
  {
    exists c :: c in categories && (Contains(c, category) || Contains(category, c))
  }

  predicate InScope(scope: Scope, category: string)
  {
    if scope.target.Some? then MatchesAny(scope.target.value, category)
    else scope.report.Some? && MatchesAny(scope.report.value, category)
  }

  // ---------------------------------------------------------------- merging fixes

  function LastIndex(files: seq<File>, path: string): (i: int)
    ensures -1 <= i < |files|
  {
    if files == [] then -1
    else if files[|files| - 1].path == path then |files| - 1
    else LastIndex(files[..|files| - 1], path)
  }

  lemma {:induction false} LastIndexMeans(files: seq<File>, path: string)
    ensures var i := LastIndex(files, path);
            && (i >= 0 ==> files[i].path == path)
            && (forall j :: i < j < |files| ==> files[j].path != path)
    decreases |files|
  {
    if files != [] {
      LastIndexMeans(files[..|files| - 1], path);
    }
  }

  function MergeOne(merged: seq<File>, current: seq<File>, fix: File): seq<File>
  {
    var i := LastIndex(current, fix.path);
    if 0 <= i < |merged| then merged[i := fix] else merged + [fix]
  }

  function Merge(current: seq<File>, fixes: seq<File>): seq<File>
  {
    if fixes == [] then current
    else MergeOne(Merge(current, fixes[..|fixes| - 1]), current, fixes[|fixes| - 1])
  }

  /** The batch with, at each path's last entry, the last fix for that path if there is one. */
  function Replaced(current: seq<File>, fixes: seq<File>): (r: seq<File>)
    ensures |r| == |current|
  {
    seq(|current|, i requires 0 <= i < |current| =>
      var fix := LastIndex(fixes, current[i].path);
      if i == LastIndex(current, current[i].path) && fix >= 0 then fixes[fix] else current[i])
  }

  function NewPaths(current: seq<File>, fixes: seq<File>): seq<File>
  {
    if fixes == [] then []
    else NewPaths(current, fixes[..|fixes| - 1]) +
         (if LastIndex(current, fixes[|fixes| - 1].path) < 0 then [fixes[|fixes| - 1]] else [])
  }

  /** A fix for a path the batch carries replaces that file in place, the last fix winning; fixes for
      new paths follow in order; nothing else moves. */
  lemma {:induction false} MergeReplacesInPlace(current: seq<File>, fixes: seq<File>)
    ensures Merge(current, fixes) == Replaced(current, fixes) + NewPaths(current, fixes)
    decreases |fixes|
  {
    if fixes == [] {
      assert Replaced(current, fixes) == current;
    } else {
      var n := |fixes| - 1;
      MergeReplacesInPlace(current, fixes[..n]);
      ReplacedByOneMore(current, fixes, n);
      MergeIntoTheFront(Replaced(current, fixes[..n]), NewPaths(current, fixes[..n]), current, fixes[n]);
    }
  }

  lemma MergeIntoTheFront(front: seq<File>, back: seq<File>, current: seq<File>, fix: File)
    requires |front| == |current|
    ensures var at := LastIndex(current, fix.path);
            MergeOne(front + back, current, fix) == if at >= 0 then front[at := fix] + back else front + (back + [fix])
  {
    UpdateFront(front, back, LastIndex(current, fix.path), fix);
  }

  lemma UpdateFront<T>(front: seq<T>, back: seq<T>, at: int, x: T)
    requires at < |front|
    ensures at >= 0 ==> (front + back)[at := x] == front[at := x] + back
    ensures front + back + [x] == front + (back + [x])
  {
  }

  lemma LastIndexOneMore(fixes: seq<File>, n: nat, path: string)
    requires |fixes| == n + 1
    ensures LastIndex(fixes, path) == if fixes[n].path == path then n else LastIndex(fixes[..n], path)
  {
  }

  lemma ReplacedByOneMore(current: seq<File>, fixes: seq<File>, n: nat)
    requires |fixes| == n + 1
    ensures var at := LastIndex(current, fixes[n].path);
            var before := Replaced(current, fixes[..n]);
            Replaced(current, fixes) == if at >= 0 then before[at := fixes[n]] else before
  {
    forall i | 0 <= i < |current|
      ensures var at := LastIndex(current, fixes[n].path);
              Replaced(current, fixes)[i] == if i == at then fixes[n] else Replaced(current, fixes[..n])[i]
    {
      LastIndexOneMore(fixes, n, current[i].path);
      LastIndexMeans(current, fixes[n].path);
    }
  }

  method MergeFixFiles(current: seq<File>, fixes: seq<File>) returns (merged: seq<File>)
    ensures merged == Merge(current, fixes)
  {
    var byPath: map<string, int> := map[];
    for i := 0 to |current|
      invariant forall p :: p in byPath <==> LastIndex(current[..i], p) >= 0
      invariant forall p :: p in byPath ==> byPath[p] == LastIndex(current[..i], p)
    {
      assert current[..i + 1][..i] == current[..i];
      byPath := byPath[current[i].path := i];
    }
    assert current[..|current|] == current;
    merged := current;
    for i := 0 to |fixes|
      invariant merged == Merge(current, fixes[..i])
      invariant |merged| >= |current|
    {
      assert fixes[..i + 1][..i] == fixes[..i];
      if fixes[i].path in byPath {
        merged := merged[byPath[fixes[i].path] := fixes[i]];
      } else {
        merged := merged + [fixes[i]];
      }
    }
    assert fixes[..|fixes|] == fixes;
  }

  // ---------------------------------------------------------------- one pass

  function Drop(files: seq<File>, paths: seq<string>): seq<File>
  {
    if files == [] then []
    else Drop(files[..|files| - 1], paths) + (if files[|files| - 1].path in paths then [] else [files[|files| - 1]])
  }

  function Relevant(failed: seq<Property>, scope: Scope): seq<Property>
  {
    if failed == [] then []
    else Relevant(failed[..|failed| - 1], scope) +
         (if InScope(scope, FixCategory(failed[|failed| - 1])) then [failed[|failed| - 1]] else [])
  }

  datatype Label = ForProperty(property: Property) | ForPlaceholder(category: string)

  function CategoryOf(l: Label): string
  {
    match l case ForProperty(p) => FixCategory(p) case ForPlaceholder(c) => c
  }

  /** Dispatching each label in turn: the files, the labels that brought a fix, the next call number. */
  function FixAll(w: World, files: seq<File>, labels: seq<Label>, calls: nat): (seq<File>, seq<Label>, nat)
  {
    if labels == [] then (files, [], calls)
    else
      var (cur, fixed, n) := FixAll(w, files, labels[..|labels| - 1], calls);
      var fixes := w.dispatch(n, CategoryOf(labels[|labels| - 1]));
      if fixes == [] then (cur, fixed, n + 1) else (Merge(cur, fixes), fixed + [labels[|labels| - 1]], n + 1)
  }

  function PropertyLabels(failed: seq<Property>): (labels: seq<Label>)
    ensures |labels| == |failed|
  {
    seq(|failed|, i requires 0 <= i < |failed| => ForProperty(failed[i]))
  }

  function PlaceholderLabels(w: World, files: seq<File>, placeholders: set<string>): seq<Label>
  {
    var order := w.iterate(set f | f in files && f.path in placeholders :: f.category);
    seq(|order|, i requires 0 <= i < |order| => ForPlaceholder(order[i]))
  }

  function FixPass(w: World, files: seq<File>, failed: seq<Property>, placeholders: set<string>, calls: nat)
    : (seq<File>, seq<Label>, nat)
  {
    var (cur, fixed, n) := FixAll(w, files, PropertyLabels(failed), calls);
    if placeholders == {} then (cur, fixed, n)
    else
      var (cur2, fixed2, n2) := FixAll(w, cur, PlaceholderLabels(w, cur, placeholders), n);
      (cur2, fixed + fixed2, n2)
  }

  // ---------------------------------------------------------------- the loop

  datatype Pass = Pass(errors: seq<string>, warnings: seq<string>, skipped: seq<string>, failed: seq<Property>, fixed: seq<Label>)

  datatype Loop = Loop(files: seq<File>, passes: seq<Pass>, warnings: seq<string>, skipped: seq<string>, calls: nat)

  datatype Verdict = Verdict(files: seq<File>, clean: bool, passes: seq<Pass>, warnings: seq<string>, skippedPaths: seq<string>,
                             remainingErrors: seq<string>, remainingFailed: seq<Property>)

  function Last(l: Loop): Pass
    requires l.passes != []
  {
    l.passes[|l.passes| - 1]
  }

  function GiveUp(l: Loop): Verdict
  {
    if l.passes == [] then Verdict(l.files, false, [], l.warnings, l.skipped, [], [])
    else
      Verdict(l.files, false, l.passes, if l.warnings != [] then l.warnings else Last(l).warnings, l.skipped,
              Last(l).errors, Last(l).failed)
  }

  function Accept(l: Loop): Verdict
    requires l.passes != []
  {
    Verdict(l.files, true, l.passes, if l.warnings != [] then l.warnings else Last(l).warnings, l.skipped, [], [])
  }

  predicate Fine(p: Pass) { p.errors == [] && p.failed == [] }

  function Kept(files: seq<File>, d: DryResult): seq<File>
  {
    if d.skipped == [] then files else Drop(files, d.skipped)
  }

  /** One pass: dry run, drop what is softly skipped, check properties, and fix unless all is fine. */
  function PassOnce(w: World, scope: Scope, l: Loop): (l': Loop)
    ensures |l'.passes| == |l.passes| + 1 && l'.passes[..|l.passes|] == l.passes
    ensures Fine(Last(l')) ==> Last(l').fixed == []
  {
    var d := w.dryRun(l.files);
    var kept := Kept(l.files, d);
    var failed := Relevant(w.failedProperties(kept), scope);
    var (files, fixed, calls) :=
      if d.hard == [] && failed == [] then (kept, [], l.calls) else FixPass(w, kept, failed, d.placeholders, l.calls);
    Loop(files, l.passes + [Pass(d.hard, d.soft, d.skipped, failed, fixed)], l.warnings + d.soft, l.skipped + d.skipped, calls)
  }

  function Iterate(w: World, scope: Scope, l: Loop, left: nat): (v: Verdict)
    ensures l.passes <= v.passes
    decreases left
  {
    if left == 0 then GiveUp(l)
    else
      var l' := PassOnce(w, scope, l);
      if Fine(Last(l')) then Accept(l')
      else if Last(l').fixed == [] then GiveUp(l')
      else Iterate(w, scope, l', left - 1)
  }

  function Passes(maxIterations: int): nat { if maxIterations < 0 then 0 else maxIterations }

  function Validate(w: World, scope: Scope, files: seq<File>, maxIterations: int): Verdict
  {
    Iterate(w, scope, Loop(files, [], [], [], 0), Passes(maxIterations))
  }

  method DispatchFixes(w: World, files: seq<File>, labels: seq<Label>, calls: nat)
    returns (cur: seq<File>, fixed: seq<Label>, n: nat)
    ensures (cur, fixed, n) == FixAll(w, files, labels, calls)
  {
    cur, fixed, n := files, [], calls;
    for i := 0 to |labels|
      invariant (cur, fixed, n) == FixAll(w, files, labels[..i], calls)
    {
      assert labels[..i + 1][..i] == labels[..i];
      var fixes := w.dispatch(n, CategoryOf(labels[i]));
      n := n + 1;
      if fixes != [] {
        cur := MergeFixFiles(cur, fixes);
        fixed := fixed + [labels[i]];
      }
    }
    assert labels[..|labels|] == labels;
  }

  method RunPass(w: World, scope: Scope, l: Loop) returns (l': Loop)
    ensures l' == PassOnce(w, scope, l)
  {
    var currentFiles, allSkipped, allWarnings, calls := l.files, l.skipped, l.warnings, l.calls;
    var d := w.dryRun(currentFiles);
    if d.skipped != [] {
      allSkipped := allSkipped + d.skipped;
      currentFiles := Drop(currentFiles, d.skipped);
    }
    allWarnings := allWarnings + d.soft;
    var relevantFailed := Relevant(w.failedProperties(currentFiles), scope);
    var fixed := [];
    if d.hard != [] || relevantFailed != [] {
      currentFiles, fixed, calls := DispatchFixes(w, currentFiles, PropertyLabels(relevantFailed), calls);
      if d.placeholders != {} {
        var retried;
        currentFiles, retried, calls := DispatchFixes(w, currentFiles, PlaceholderLabels(w, currentFiles, d.placeholders), calls);
        fixed := fixed + retried;
      }
    }
    l' := Loop(currentFiles, l.passes + [Pass(d.hard, d.soft, d.skipped, relevantFailed, fixed)], allWarnings, allSkipped, calls);
  }

  method ValidateAndFix(w: World, scope: Scope, files: seq<File>, maxIterations: int) returns (v: Verdict)
    ensures v == Validate(w, scope, files, maxIterations)
  {
    var l := Loop(files, [], [], [], 0);
    for i := 0 to Passes(maxIterations)
      invariant Iterate(w, scope, l, Passes(maxIterations) - i) == Validate(w, scope, files, maxIterations)
    {
      var stop;
      stop, l, v := TryPass(w, scope, l, Passes(maxIterations) - i);
      if stop {
        return;
      }
    }
    return GiveUp(l);
  }

  method TryPass(w: World, scope: Scope, l: Loop, ghost left: nat) returns (stop: bool, l': Loop, v: Verdict)
    requires left > 0
    ensures Iterate(w, scope, l, left) == if stop then v else Iterate(w, scope, l', left - 1)
  {
    IterateOnce(w, scope, l, left);
    l' := RunPass(w, scope, l);
    if Fine(Last(l')) {
      return true, l', Accept(l');
    }
    v := GiveUp(l');
    stop := Last(l').fixed == [];
  }

  lemma IterateOnce(w: World, scope: Scope, l: Loop, left: nat)
    requires left > 0
    ensures var l' := PassOnce(w, scope, l);
            Iterate(w, scope, l, left) ==
            if Fine(Last(l')) then Accept(l') else if Last(l').fixed == [] then GiveUp(l') else Iterate(w, scope, l', left - 1)
  {
  }

  // ---------------------------------------------------------------- bounded and honest

  ghost predicate AllRetried(passes: seq<Pass>)
  {
    forall i :: 0 <= i < |passes| ==> passes[i].fixed != [] && !Fine(passes[i])
  }

  /** Every pass but the last had a failure and made a fix; the verdict is clean exactly when the last
      pass had no failure; an unclean one names the last failures and stopped only because nothing was
      fixed or `atMost` passes were up. */
  ghost predicate Honest(v: Verdict, atMost: nat)
  {
    && 0 < |v.passes| <= atMost
    && AllRetried(v.passes[..|v.passes| - 1])
    && var last := v.passes[|v.passes| - 1];
    && (v.clean <==> Fine(last))
    && (!v.clean ==> v.remainingErrors == last.errors && v.remainingFailed == last.failed)
    && (!v.clean ==> last.fixed == [] || |v.passes| == atMost)
  }

  lemma StopIsHonest(before: seq<Pass>, l: Loop, atMost: nat)
    requires l.passes != [] && l.passes[..|l.passes| - 1] == before && AllRetried(before) && |l.passes| <= atMost
    ensures Fine(Last(l)) ==> Honest(Accept(l), atMost)
    ensures !Fine(Last(l)) && (Last(l).fixed == [] || |l.passes| == atMost) ==> Honest(GiveUp(l), atMost)
  {
  }

  lemma RetriedOneMore(w: World, scope: Scope, l: Loop)
    requires AllRetried(l.passes)
    ensures var l' := PassOnce(w, scope, l);
            !Fine(Last(l')) && Last(l').fixed != [] ==> AllRetried(l'.passes)
  {
    var l' := PassOnce(w, scope, l);
    assert forall i :: 0 <= i < |l.passes| ==> l'.passes[i] == l.passes[i];
  }

  predicate GoesOn(l: Loop)
    requires l.passes != []
  {
    !Fine(Last(l)) && Last(l).fixed != []
  }

  lemma HonestStep(w: World, scope: Scope, l: Loop, left: nat)
    requires AllRetried(l.passes) && left > 0
    requires var l' := PassOnce(w, scope, l);
             GoesOn(l') && left > 1 ==> Honest(Iterate(w, scope, l', left - 1), |l.passes| + left)
    ensures Honest(Iterate(w, scope, l, left), |l.passes| + left)
  {
    var l' := PassOnce(w, scope, l);
    IterateOnce(w, scope, l, left);
    StopIsHonest(l.passes, l', |l.passes| + left);
    if GoesOn(l') && left == 1 {
      assert Iterate(w, scope, l', 0) == GiveUp(l');
    }
  }

  lemma {:induction false} LoopIsHonest(w: World, scope: Scope, l: Loop, left: nat)
    requires AllRetried(l.passes) && left > 0
    ensures Honest(Iterate(w, scope, l, left), |l.passes| + left)
    decreases left
  {
    var l' := PassOnce(w, scope, l);
    if GoesOn(l') && left > 1 {
      RetriedOneMore(w, scope, l);
      LoopIsHonest(w, scope, l', left - 1);
    }
    HonestStep(w, scope, l, left);
  }

  /** At most `max_iterations` passes, and an honest verdict. */
  lemma ValidateIsBoundedAndHonest(w: World, scope: Scope, files: seq<File>, maxIterations: int)
    ensures var v := Validate(w, scope, files, maxIterations);
            && (maxIterations >= 1 ==> Honest(v, maxIterations))
            && (maxIterations < 1 ==> v == Verdict(files, false, [], [], [], [], []))
  {
    if maxIterations >= 1 {
      LoopIsHonest(w, scope, Loop(files, [], [], [], 0), maxIterations);
    }
  }

  ghost predicate Passing(w: World, scope: Scope, files: seq<File>)
  {
    w.dryRun(files).hard == [] && w.dryRun(files).skipped == [] && Relevant(w.failedProperties(files), scope) == []
  }

  lemma PassingIsCleanAtOnce(w: World, scope: Scope, files: seq<File>, maxIterations: int)
    requires maxIterations >= 1 && Passing(w, scope, files)
    ensures var v := Validate(w, scope, files, maxIterations);
            v.clean && v.files == files && |v.passes| == 1 && v.passes[0].fixed == [] && v.skippedPaths == []
  {
  }

  lemma {:induction false} PassesOnlyGrow(w: World, scope: Scope, l: Loop, left: nat)
    ensures |Iterate(w, scope, l, left).passes| >= |l.passes| + (if left > 0 then 1 else 0)
    ensures left == 0 ==> !Iterate(w, scope, l, left).clean
    decreases left
  {
    if left > 0 {
      IterateOnce(w, scope, l, left);
      PassesOnlyGrow(w, scope, PassOnce(w, scope, l), left - 1);
    }
  }

  /** A batch is clean at once exactly when nothing fails hard and, once the soft skips are dropped,
      no property in scope fails. Placeholders are not asked about. */
  lemma CleanAtOnceIff(w: World, scope: Scope, files: seq<File>, maxIterations: int)
    requires maxIterations >= 1
    ensures var v := Validate(w, scope, files, maxIterations);
            v.clean && |v.passes| == 1 <==>
            w.dryRun(files).hard == [] && Relevant(w.failedProperties(Kept(files, w.dryRun(files))), scope) == []
  {
    var start := Loop(files, [], [], [], 0);
    IterateOnce(w, scope, start, maxIterations);
    PassesOnlyGrow(w, scope, PassOnce(w, scope, start), maxIterations - 1);
  }

  // ---------------------------------------------------------------- "clean" and placeholders

  /** The dry run blocks each file with an unresolved placeholder, on its own. */
  ghost predicate BlocksPerFile(w: World, blocked: File -> bool)
  {
    forall files: seq<File> :: w.dryRun(files).placeholders == set f | f in files && blocked(f) :: f.path
  }

  /** What a clean verdict returns is free of placeholders exactly when its last pass dropped every
      blocked file it met for another reason: that pass does not come to the retry of blocked files. */
  lemma CleanLeavesNoPlaceholderIff(w: World, scope: Scope, files: seq<File>, maxIterations: int, blocked: File -> bool)
    returns (last: Loop)
    requires BlocksPerFile(w, blocked) && Validate(w, scope, files, maxIterations).clean
    ensures Fine(Last(PassOnce(w, scope, last)))
    ensures Validate(w, scope, files, maxIterations).files == Kept(last.files, w.dryRun(last.files))
    ensures |Validate(w, scope, files, maxIterations).passes| == 1 ==> last.files == files
    ensures w.dryRun(Validate(w, scope, files, maxIterations).files).placeholders == {} <==>
            forall f :: f in last.files && blocked(f) ==> f.path in w.dryRun(last.files).skipped
  {
    var start := Loop(files, [], [], [], 0);
    last := CleanComesFromAFinePass(w, scope, start, Passes(maxIterations));
    if |Validate(w, scope, files, maxIterations).passes| == 1 {
      PassesOnlyGrow(w, scope, PassOnce(w, scope, start), Passes(maxIterations) - 1);
      IterateOnce(w, scope, start, Passes(maxIterations));
      last := start;
    }
    KeptIsUnblockedIff(w, last.files, blocked);
  }

  lemma KeptIsUnblockedIff(w: World, files: seq<File>, blocked: File -> bool)
    requires BlocksPerFile(w, blocked)
    ensures w.dryRun(Kept(files, w.dryRun(files))).placeholders == {} <==>
            forall f :: f in files && blocked(f) ==> f.path in w.dryRun(files).skipped
  {
    var (d, kept) := (w.dryRun(files), Kept(files, w.dryRun(files)));
    DropKeepsTheRest(files, d.skipped);
    if f :| f in kept && blocked(f) {
      assert f.path in w.dryRun(kept).placeholders;
    }
  }

  const TEMPLATE := File("app.yaml", "skills", "image: {{ image }}")

  /** The file above is blocked, and nothing else is wrong with any. */
  function PlaceholderWorld(): World
  {
    World(files => DryResult([], [], set f | f in files && f == TEMPLATE :: f.path, []), files => [],
          (n, category) => [], categories => [])
  }

  /** A batch whose only defect is an unresolved placeholder is clean at once, placeholder and all. */
  lemma PlaceholderPassesAsClean(scope: Scope, maxIterations: int)
    requires maxIterations >= 1
    ensures var (w, v) := (PlaceholderWorld(), Validate(PlaceholderWorld(), scope, [TEMPLATE], maxIterations));
            && v.clean && v.files == [TEMPLATE] && v.passes[0].fixed == []
            && w.dryRun([TEMPLATE]).placeholders == w.dryRun(v.files).placeholders == {"app.yaml"}
  {
    PassingIsCleanAtOnce(PlaceholderWorld(), scope, [TEMPLATE], maxIterations);
    assert TEMPLATE in [TEMPLATE] && TEMPLATE.path == "app.yaml";
  }

  const ROLE := File("role.yaml", "rbac", "Role")

  /** The template again, beside a failing property that asks for a role; the dispatcher has the role,
      and nothing for the template's category. */
  function RetryWorld(): World
  {
    PlaceholderWorld().(failedProperties := files => if ROLE in files then [] else [Rbac],
                        dispatch := (n, category) => if category == "rbac" then [ROLE] else [],
                        iterate := categories => if "skills" in categories then ["skills"] else [])
  }

  lemma RbacIsRelevant()
    ensures Relevant([Rbac], Scope(Some(["rbac"]), None)) == [Rbac]
  {
    assert Contains("rbac", "rbac");
    assert MatchesAny(["rbac"], "rbac") by {
      assert "rbac" in ["rbac"];
    }
    assert [Rbac][..0] == [];
  }

  lemma FixBesidesTheTemplate()
    ensures FixPass(RetryWorld(), [TEMPLATE], [Rbac], {"app.yaml"}, 0) == ([TEMPLATE, ROLE], [ForProperty(Rbac)], 2)
  {
    var (w, labels, retried) := (RetryWorld(), [ForProperty(Rbac)], [ForPlaceholder("skills")]);
    assert PropertyLabels([Rbac]) == labels && labels[..0] == [] && [ROLE][..0] == [];
    assert LastIndex([TEMPLATE], ROLE.path) == -1 && Merge([TEMPLATE], [ROLE]) == [TEMPLATE, ROLE];
    assert FixAll(w, [TEMPLATE], labels[..0], 0) == ([TEMPLATE], [], 0);
    assert CategoryOf(labels[0]) == "rbac" && [] + [labels[0]] == labels;
    assert FixAll(w, [TEMPLATE], labels, 0) == ([TEMPLATE, ROLE], labels, 1);
    TemplateIsRetried();
    assert retried[..0] == [] && CategoryOf(retried[0]) == "skills";
    assert FixAll(w, [TEMPLATE, ROLE], retried, 1) == ([TEMPLATE, ROLE], [], 2);
    assert labels + [] == labels;
  }

  lemma TemplateIsRetried()
    ensures PlaceholderLabels(RetryWorld(), [TEMPLATE, ROLE], {"app.yaml"}) == [ForPlaceholder("skills")]
  {
    var files := [TEMPLATE, ROLE];
    var categories := set f | f in files && f.path in {"app.yaml"} :: f.category;
    assert TEMPLATE in files && TEMPLATE.path in {"app.yaml"} && TEMPLATE.category in categories;
    assert RetryWorld().iterate(categories) == ["skills"];
  }

  lemma TemplateStaysBlocked(files: seq<File>)
    requires TEMPLATE in files
    ensures RetryWorld().dryRun(files) == DryResult([], [], {"app.yaml"}, [])
  {
    assert TEMPLATE.path in RetryWorld().dryRun(files).placeholders;
    assert forall p :: p in RetryWorld().dryRun(files).placeholders ==> p == "app.yaml";
  }

  /** The retry of the blocked file is reached and brings nothing; the role is fixed; and the second pass
      is clean, placeholder and all. */
  lemma PlaceholderOutlivesItsRetry()
    ensures var (w, scope) := (RetryWorld(), Scope(Some(["rbac"]), None));
            var v := Validate(w, scope, [TEMPLATE], 3);
            && v.clean && |v.passes| == 2 && v.passes[0].fixed == [ForProperty(Rbac)]
            && v.files == [TEMPLATE, ROLE] && w.dryRun(v.files).placeholders == {"app.yaml"}
  {
    var (w, scope) := (RetryWorld(), Scope(Some(["rbac"]), None));
    FirstPassFixesTheRole();
    SecondPassIsFine();
    IterateOnce(w, scope, Loop([TEMPLATE], [], [], [], 0), 3);
    IterateOnce(w, scope, AFTER_THE_ROLE, 2);
    TemplateStaysBlocked([TEMPLATE, ROLE]);
  }

  const AFTER_THE_ROLE := Loop([TEMPLATE, ROLE], [Pass([], [], [], [Rbac], [ForProperty(Rbac)])], [], [], 2)

  lemma FirstPassFixesTheRole()
    ensures PassOnce(RetryWorld(), Scope(Some(["rbac"]), None), Loop([TEMPLATE], [], [], [], 0)) == AFTER_THE_ROLE
  {
    TemplateStaysBlocked([TEMPLATE]);
    RbacIsRelevant();
    assert RetryWorld().failedProperties([TEMPLATE]) == [Rbac];
    FixBesidesTheTemplate();
  }

  lemma SecondPassIsFine()
    ensures var l := PassOnce(RetryWorld(), Scope(Some(["rbac"]), None), AFTER_THE_ROLE);
            && l.files == [TEMPLATE, ROLE] && Fine(Last(l))
            && |l.passes| == 2 && l.passes[0] == AFTER_THE_ROLE.passes[0]
  {
    TemplateStaysBlocked([TEMPLATE, ROLE]);
    assert ROLE in [TEMPLATE, ROLE] && RetryWorld().failedProperties([TEMPLATE, ROLE]) == [];
    assert Relevant([], Scope(Some(["rbac"]), None)) == [];
  }

  // ---------------------------------------------------------------- "clean" is a fixpoint

  lemma {:induction false} DropKeepsTheRest(files: seq<File>, paths: seq<string>)
    ensures forall f :: f in Drop(files, paths) <==> f in files && f.path !in paths
    decreases |files|
  {
    if files != [] {
      DropKeepsTheRest(files[..|files| - 1], paths);
      assert files == files[..|files| - 1] + [files[|files| - 1]];
    }
  }

  /** The dry run judges each file on its own. */
  ghost predicate PerFile(w: World, fails: File -> bool, skips: File -> bool)
  {
    forall files: seq<File> ::
      var d := w.dryRun(files);
      && (d.hard == [] <==> forall f :: f in files ==> !fails(f))
      && (d.skipped == [] <==> forall f :: f in files ==> !skips(f))
      && (forall f :: f in files && skips(f) ==> f.path in d.skipped)
  }

  lemma RestPasses(w: World, files: seq<File>, fails: File -> bool, skips: File -> bool)
    requires PerFile(w, fails, skips) && w.dryRun(files).hard == []
    ensures var d := w.dryRun(Kept(files, w.dryRun(files)));
            d.hard == [] && d.skipped == []
  {
    DropKeepsTheRest(files, w.dryRun(files).skipped);
  }

  lemma FinePassLeavesKept(w: World, scope: Scope, l: Loop, fails: File -> bool, skips: File -> bool)
    requires PerFile(w, fails, skips) && Fine(Last(PassOnce(w, scope, l)))
    ensures Passing(w, scope, PassOnce(w, scope, l).files)
  {
    RestPasses(w, l.files, fails, skips);
  }

  /** A clean verdict returns what its last pass left. */
  lemma {:induction false} CleanComesFromAFinePass(w: World, scope: Scope, l: Loop, left: nat) returns (last: Loop)
    requires Iterate(w, scope, l, left).clean
    ensures Fine(Last(PassOnce(w, scope, last))) && Iterate(w, scope, l, left).files == PassOnce(w, scope, last).files
    decreases left
  {
    IterateOnce(w, scope, l, left);
    var l' := PassOnce(w, scope, l);
    if Fine(Last(l')) {
      last := l;
    } else {
      last := CleanComesFromAFinePass(w, scope, l', left - 1);
    }
  }

  /** With a per-file dry run, a clean verdict stands: validating the returned files again returns
      them unchanged, clean, in one pass, with nothing skipped. */
  lemma CleanIsAFixpoint(w: World, scope: Scope, files: seq<File>, maxIterations: int, again: int,
                         fails: File -> bool, skips: File -> bool)
    requires PerFile(w, fails, skips) && again >= 1
    requires Validate(w, scope, files, maxIterations).clean
    ensures var v := Validate(w, scope, Validate(w, scope, files, maxIterations).files, again);
            && v.clean && v.files == Validate(w, scope, files, maxIterations).files
            && |v.passes| == 1 && v.skippedPaths == []
  {
    var last := CleanComesFromAFinePass(w, scope, Loop(files, [], [], [], 0), Passes(maxIterations));
    FinePassLeavesKept(w, scope, last, fails, skips);
    PassingIsCleanAtOnce(w, scope, PassOnce(w, scope, last).files, again);
  }

  // ---------------------------------------------------------------- a cluster's own findings only

  lemma {:induction false} RelevantIgnoresReport(failed: seq<Property>, target: seq<string>, r1: Option<seq<string>>,
          r2: Option<seq<string>>)
    ensures Relevant(failed, Scope(Some(target), r1)) == Relevant(failed, Scope(Some(target), r2))
    decreases |failed|
  {
    if failed != [] {
      RelevantIgnoresReport(failed[..|failed| - 1], target, r1, r2);
    }
  }

  lemma PassIgnoresReport(w: World, l: Loop, target: seq<string>, r1: Option<seq<string>>, r2: Option<seq<string>>)
    ensures PassOnce(w, Scope(Some(target), r1), l) == PassOnce(w, Scope(Some(target), r2), l)
  {
    RelevantIgnoresReport(w.failedProperties(Kept(l.files, w.dryRun(l.files))), target, r1, r2);
  }

  lemma {:induction false} LoopIgnoresReport(w: World, l: Loop, left: nat, target: seq<string>,
                                             r1: Option<seq<string>>, r2: Option<seq<string>>)
    ensures Iterate(w, Scope(Some(target), r1), l, left) == Iterate(w, Scope(Some(target), r2), l, left)
    decreases left
  {
    if left > 0 {
      IterateOnce(w, Scope(Some(target), r1), l, left);
      IterateOnce(w, Scope(Some(target), r2), l, left);
      PassIgnoresReport(w, l, target, r1, r2);
      LoopIgnoresReport(w, PassOnce(w, Scope(Some(target), r1), l), left - 1, target, r1, r2);
    }
  }

  /** Given a cluster's own findings, nothing else in the report can change its verdict. */
  lemma OtherFindingsCannotVeto(w: World, files: seq<File>, maxIterations: int, target: seq<string>,
                                r1: Option<seq<string>>, r2: Option<seq<string>>)
    ensures Validate(w, Scope(Some(target), r1), files, maxIterations) == Validate(w, Scope(Some(target), r2), files, maxIterations)
  {
    LoopIgnoresReport(w, Loop(files, [], [], [], 0), Passes(maxIterations), target, r1, r2);
  }

  // ---------------------------------------------------------------- the dry run of DryRun.dfy is one

  function Parsed(parse: File -> seq<DryRun.Doc>, isYaml: File -> bool, files: seq<File>): (r: seq<DryRun.File>)
    ensures |r| == |files|
  {
    seq(|files|, i requires 0 <= i < |files| => DryRun.File(files[i].path, isYaml(files[i]), parse(files[i])))
  }

  /** What the loop reads off the cluster's answer. */
  ghost predicate UsesClusterDryRun(w: World, cluster: DryRun.World, namespace: string,
                                    parse: File -> seq<DryRun.Doc>, isYaml: File -> bool)
  {
    forall files: seq<File> ::
      var r := DryRun.DryRunFiles(cluster, Parsed(parse, isYaml, files), namespace);
      (w.dryRun(files).hard == [] <==> r.errors == []) && w.dryRun(files).skipped == r.skippedPaths
  }

  lemma ParsedMembers(parse: File -> seq<DryRun.Doc>, isYaml: File -> bool, files: seq<File>)
    ensures forall f :: f in files ==> DryRun.File(f.path, isYaml(f), parse(f)) in Parsed(parse, isYaml, files)
    ensures forall g :: g in Parsed(parse, isYaml, files) ==>
              exists f :: f in files && g == DryRun.File(f.path, isYaml(f), parse(f))
  {
    var parsed := Parsed(parse, isYaml, files);
    forall f | f in files
      ensures DryRun.File(f.path, isYaml(f), parse(f)) in parsed
    {
      var i :| 0 <= i < |files| && files[i] == f;
      assert parsed[i] == DryRun.File(f.path, isYaml(f), parse(f));
    }
    forall g | g in parsed
      ensures exists f :: f in files && g == DryRun.File(f.path, isYaml(f), parse(f))
    {
      var i :| 0 <= i < |parsed| && parsed[i] == g;
      assert files[i] in files;
    }
  }

  lemma NoErrorsIffNoneFails(cluster: DryRun.World, namespace: string, files: seq<DryRun.File>)
    ensures DryRun.DryRunFiles(cluster, files, namespace).errors == [] <==>
            forall f :: f in files ==> !DryRun.FailsHard(cluster, f, namespace)
  {
    var errors := DryRun.DryRunFiles(cluster, files, namespace).errors;
    if errors != [] {
      assert DryRun.Mentions(errors, errors[0].path);
      DryRun.ErrorsAreHardFailures(cluster, files, namespace, errors[0].path);
    }
    forall f | f in files && DryRun.FailsHard(cluster, f, namespace)
      ensures errors != []
    {
      DryRun.ErrorsAreHardFailures(cluster, files, namespace, f.path);
    }
  }

  lemma NoSkipsIffNoneSkips(cluster: DryRun.World, namespace: string, files: seq<DryRun.File>)
    ensures var skipped := DryRun.DryRunFiles(cluster, files, namespace).skippedPaths;
            && (skipped == [] <==> forall f :: f in files ==> !DryRun.Skips(cluster, f, namespace))
            && (forall f :: f in files && DryRun.Skips(cluster, f, namespace) ==> f.path in skipped)
  {
    var skipped := DryRun.DryRunFiles(cluster, files, namespace).skippedPaths;
    if skipped != [] {
      DryRun.SkippedPathsArePerFile(cluster, files, namespace, skipped[0]);
    }
    forall f | f in files && DryRun.Skips(cluster, f, namespace)
      ensures f.path in skipped
    {
      DryRun.SkippedPathsArePerFile(cluster, files, namespace, f.path);
    }
  }

  function HardOn(cluster: DryRun.World, namespace: string, parse: File -> seq<DryRun.Doc>,
          isYaml: File -> bool): File -> bool
  {
    (f: File) => DryRun.FileReport(cluster, DryRun.File(f.path, isYaml(f), parse(f)), namespace).errors != []
  }

  function SkippedOn(cluster: DryRun.World, namespace: string, parse: File -> seq<DryRun.Doc>,
          isYaml: File -> bool): File -> bool
  {
    (f: File) => DryRun.FileReport(cluster, DryRun.File(f.path, isYaml(f), parse(f)), namespace).skippedPaths != []
  }

  /** The dry run against the cluster is per file, by what DryRun proves about it. */
  lemma ClusterDryRunIsPerFile(w: World, cluster: DryRun.World, namespace: string,
                               parse: File -> seq<DryRun.Doc>, isYaml: File -> bool)
    requires UsesClusterDryRun(w, cluster, namespace, parse, isYaml)
    ensures PerFile(w, HardOn(cluster, namespace, parse, isYaml), SkippedOn(cluster, namespace, parse, isYaml))
  {
    var (fails, skips) := (HardOn(cluster, namespace, parse, isYaml), SkippedOn(cluster, namespace, parse, isYaml));
    forall files: seq<File>
      ensures var d := w.dryRun(files);
              && (d.hard == [] <==> forall f :: f in files ==> !fails(f))
              && (d.skipped == [] <==> forall f :: f in files ==> !skips(f))
              && (forall f :: f in files && skips(f) ==> f.path in d.skipped)
    {
      var parsed := Parsed(parse, isYaml, files);
      ParsedMembers(parse, isYaml, files);
      NoErrorsIffNoneFails(cluster, namespace, parsed);
      NoSkipsIffNoneSkips(cluster, namespace, parsed);
      forall f | f in files
        ensures fails(f) <==> DryRun.FailsHard(cluster, DryRun.File(f.path, isYaml(f), parse(f)), namespace)
      {
        DryRun.FileErrorsAreHardFailures(cluster, DryRun.File(f.path, isYaml(f), parse(f)), namespace);
      }
    }
  }

  /** So a clean verdict reached through the cluster's own dry run stands. */
  lemma CleanIsAFixpointOnTheCluster(w: World, cluster: DryRun.World, namespace: string,
                                     parse: File -> seq<DryRun.Doc>, isYaml: File -> bool,
                                     scope: Scope, files: seq<File>, maxIterations: int, again: int)
    requires UsesClusterDryRun(w, cluster, namespace, parse, isYaml) && again >= 1
    requires Validate(w, scope, files, maxIterations).clean
    ensures var v := Validate(w, scope, Validate(w, scope, files, maxIterations).files, again);
            && v.clean && v.files == Validate(w, scope, files, maxIterations).files
            && |v.passes| == 1 && v.skippedPaths == []
  {
    ClusterDryRunIsPerFile(w, cluster, namespace, parse, isYaml);
    CleanIsAFixpoint(w, scope, files, maxIterations, again, HardOn(cluster, namespace, parse, isYaml),
                     SkippedOn(cluster, namespace, parse, isYaml));
  }
}
