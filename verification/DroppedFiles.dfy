/** What the validate/fix loop drops (src/agentit/portal/auto_delivery.py). A file with a hard and a soft
    refusal is among the errors and among the paths to skip (src/agentit/portal/cluster_apply.py): the
    loop drops it, and its hard refusal with it. */
module DroppedFiles {
  import DryRun
  import opened Options
  import opened Sequences
  import opened ValidateFix

  /** The states the passes start from. */
  function Starts(w: World, scope: Scope, l: Loop, left: nat): seq<Loop>
    decreases left
  {
    if left == 0 then []
    else
      var l' := PassOnce(w, scope, l);
      [l] + (if GoesOn(l') then Starts(w, scope, l', left - 1) else [])
  }

  function Skipped(w: World, starts: seq<Loop>): seq<string>
  {
    if starts == [] then [] else w.dryRun(starts[0].files).skipped + Skipped(w, starts[1..])
  }

  lemma SkippedOfOne(w: World, l: Loop, rest: seq<Loop>)
    ensures Skipped(w, [l] + rest) == w.dryRun(l.files).skipped + Skipped(w, rest)
  {
    assert ([l] + rest)[1..] == rest;
  }

  lemma StartsOnce(w: World, scope: Scope, l: Loop, left: nat)
    requires left > 0 && GoesOn(PassOnce(w, scope, l))
    ensures Starts(w, scope, l, left) == [l] + Starts(w, scope, PassOnce(w, scope, l), left - 1)
  {
  }

  lemma PassSkips(w: World, scope: Scope, l: Loop)
    ensures PassOnce(w, scope, l).skipped == l.skipped + w.dryRun(l.files).skipped
  {
  }

  /** The verdict's skipped paths are those of its passes, in turn. */
  predicate SkipsAddUp(w: World, scope: Scope, l: Loop, left: nat)
  {
    Iterate(w, scope, l, left).skippedPaths == l.skipped + Skipped(w, Starts(w, scope, l, left))
  }

  lemma LastPassSkips(w: World, scope: Scope, l: Loop, left: nat)
    requires left > 0 && !GoesOn(PassOnce(w, scope, l))
    ensures SkipsAddUp(w, scope, l, left)
  {
    IterateOnce(w, scope, l, left);
    assert Starts(w, scope, l, left) == [l] + [];
    SkippedOfOne(w, l, []);
    PassSkips(w, scope, l);
  }

  lemma Regroup(all: seq<string>, upTo: seq<string>, before: seq<string>, now: seq<string>, after: seq<string>)
    requires all == upTo + after && upTo == before + now
    ensures all == before + (now + after)
  {
    ConcatAssociates(before, now, after);
  }

  lemma NextPassSkips(w: World, scope: Scope, l: Loop, left: nat)
    requires left > 0 && GoesOn(PassOnce(w, scope, l)) && SkipsAddUp(w, scope, PassOnce(w, scope, l), left - 1)
    ensures SkipsAddUp(w, scope, l, left)
  {
    var l' := PassOnce(w, scope, l);
    var rest := Starts(w, scope, l', left - 1);
    IterateOnce(w, scope, l, left);
    PassSkips(w, scope, l);
    StartsOnce(w, scope, l, left);
    SkippedOfOne(w, l, rest);
    Regroup(Iterate(w, scope, l', left - 1).skippedPaths, l'.skipped, l.skipped, w.dryRun(l.files).skipped, Skipped(w, rest));
  }

  lemma NoPassSkipsNothing(w: World, scope: Scope, l: Loop)
    ensures SkipsAddUp(w, scope, l, 0)
  {
    assert l.skipped + [] == l.skipped;
  }

  lemma {:induction false} SkippedPathsAre(w: World, scope: Scope, l: Loop, left: nat)
    ensures SkipsAddUp(w, scope, l, left)
    decreases left
  {
    if left == 0 {
      NoPassSkipsNothing(w, scope, l);
    } else {
      var l' := PassOnce(w, scope, l);
      if GoesOn(l') {
        SkippedPathsAre(w, scope, l', left - 1);
        NextPassSkips(w, scope, l, left);
      } else {
        LastPassSkips(w, scope, l, left);
      }
    }
  }

  /** What the passes warned of, in turn. */
  function Warned(passes: seq<Pass>): seq<string>
  {
    if passes == [] then [] else Warned(passes[..|passes| - 1]) + passes[|passes| - 1].warnings
  }

  predicate LoopWarns(l: Loop) { l.warnings == Warned(l.passes) }

  /** The warnings are the soft refusals of the passes' dry runs, in turn. */
  predicate VerdictWarns(v: Verdict) { v.warnings == Warned(v.passes) }

  lemma PassWarns(w: World, scope: Scope, l: Loop)
    requires LoopWarns(l)
    ensures var l' := PassOnce(w, scope, l); LoopWarns(l') && Last(l').warnings == w.dryRun(l.files).soft
  {
    var l' := PassOnce(w, scope, l);
    assert l'.passes[..|l'.passes| - 1] == l.passes;
  }

  lemma StopWarns(l: Loop)
    requires l.passes != [] && LoopWarns(l)
    ensures VerdictWarns(Accept(l)) && VerdictWarns(GiveUp(l))
  {
    if l.warnings == [] {
      assert |l.warnings| == |Warned(l.passes[..|l.passes| - 1])| + |Last(l).warnings|;
    }
  }

  lemma LastPassWarns(w: World, scope: Scope, l: Loop, left: nat)
    requires LoopWarns(l) && (left > 0 ==> !GoesOn(PassOnce(w, scope, l)))
    ensures VerdictWarns(Iterate(w, scope, l, left))
  {
    if left > 0 {
      PassWarns(w, scope, l);
      StopWarns(PassOnce(w, scope, l));
      IterateOnce(w, scope, l, left);
    } else if l.passes != [] {
      StopWarns(l);
    }
  }

  lemma {:induction false} WarningsAre(w: World, scope: Scope, l: Loop, left: nat)
    requires LoopWarns(l)
    ensures VerdictWarns(Iterate(w, scope, l, left))
    decreases left
  {
    if left > 0 && GoesOn(PassOnce(w, scope, l)) {
      PassWarns(w, scope, l);
      IterateOnce(w, scope, l, left);
      WarningsAre(w, scope, PassOnce(w, scope, l), left - 1);
    } else {
      LastPassWarns(w, scope, l, left);
    }
  }

  // ---------------------------------------------------------------- paths are not lost otherwise

  predicate HasPath(files: seq<File>, path: string) { exists f :: f in files && f.path == path }

  lemma MergeOneKeepsPaths(merged: seq<File>, current: seq<File>, fix: File, path: string)
    requires |current| <= |merged|
    requires forall i :: 0 <= i < |current| ==> merged[i].path == current[i].path
    requires HasPath(merged, path)
    ensures HasPath(MergeOne(merged, current, fix), path)
    ensures var out := MergeOne(merged, current, fix);
            |current| <= |out| && forall i :: 0 <= i < |current| ==> out[i].path == current[i].path
  {
    var (i, out) := (LastIndex(current, fix.path), MergeOne(merged, current, fix));
    LastIndexMeans(current, fix.path);
    var k :| 0 <= k < |merged| && merged[k].path == path;
    assert out[k] in out && out[k].path == path;
  }

  lemma {:induction false} MergeKeepsPaths(current: seq<File>, fixes: seq<File>, path: string)
    requires HasPath(current, path)
    ensures HasPath(Merge(current, fixes), path)
    ensures var out := Merge(current, fixes);
            |current| <= |out| && forall i :: 0 <= i < |current| ==> out[i].path == current[i].path
    decreases |fixes|
  {
    if fixes != [] {
      MergeKeepsPaths(current, fixes[..|fixes| - 1], path);
      MergeOneKeepsPaths(Merge(current, fixes[..|fixes| - 1]), current, fixes[|fixes| - 1], path);
    }
  }

  lemma {:induction false} FixAllKeepsPaths(w: World, files: seq<File>, labels: seq<Label>, calls: nat, path: string)
    requires HasPath(files, path)
    ensures HasPath(FixAll(w, files, labels, calls).0, path)
    decreases |labels|
  {
    if labels != [] {
      var rest := FixAll(w, files, labels[..|labels| - 1], calls);
      FixAllKeepsPaths(w, files, labels[..|labels| - 1], calls, path);
      MergeKeepsPaths(rest.0, w.dispatch(rest.2, CategoryOf(labels[|labels| - 1])), path);
    }
  }

  lemma FixPassKeepsPaths(w: World, files: seq<File>, failed: seq<Property>, placeholders: set<string>, calls: nat,
          path: string)
    requires HasPath(files, path)
    ensures HasPath(FixPass(w, files, failed, placeholders, calls).0, path)
  {
    var first := FixAll(w, files, PropertyLabels(failed), calls);
    FixAllKeepsPaths(w, files, PropertyLabels(failed), calls, path);
    FixAllKeepsPaths(w, first.0, PlaceholderLabels(w, first.0, placeholders), first.2, path);
  }

  lemma PassKeepsPaths(w: World, scope: Scope, l: Loop, path: string)
    requires HasPath(l.files, path)
    ensures HasPath(PassOnce(w, scope, l).files, path) || path in w.dryRun(l.files).skipped
  {
    var d := w.dryRun(l.files);
    var kept := Kept(l.files, d);
    if path !in d.skipped {
      DropKeepsTheRest(l.files, d.skipped);
      var f :| f in l.files && f.path == path;
      assert f in kept;
      FixPassKeepsPaths(w, kept, Relevant(w.failedProperties(kept), scope), d.placeholders, l.calls, path);
    }
  }

  /** A path of the batch is in the files returned or among the skipped paths. */
  lemma {:induction false} LoopKeepsPaths(w: World, scope: Scope, l: Loop, left: nat, path: string)
    requires HasPath(l.files, path) || path in l.skipped
    ensures var v := Iterate(w, scope, l, left); HasPath(v.files, path) || path in v.skippedPaths
    decreases left
  {
    if left > 0 {
      IterateOnce(w, scope, l, left);
      if HasPath(l.files, path) {
        PassKeepsPaths(w, scope, l, path);
      }
      LoopKeepsPaths(w, scope, PassOnce(w, scope, l), left - 1, path);
    }
  }

  lemma MissingPathsWereSkipped(w: World, scope: Scope, files: seq<File>, maxIterations: int, path: string)
    requires HasPath(files, path)
    ensures var v := Validate(w, scope, files, maxIterations); !HasPath(v.files, path) ==> path in v.skippedPaths
  {
    LoopKeepsPaths(w, scope, Loop(files, [], [], [], 0), Passes(maxIterations), path);
  }

  // ---------------------------------------------------------------- dropped for soft reasons alone

  function AllStarts(w: World, scope: Scope, files: seq<File>, maxIterations: int): seq<Loop>
  {
    Starts(w, scope, Loop(files, [], [], [], 0), Passes(maxIterations))
  }

  /** The i-th pass dropped, at this path, a file that fails hard. */
  ghost predicate DroppedHardIn(w: World, starts: seq<Loop>, i: nat, fails: File -> bool, path: string)
    requires i < |starts|
  {
    path in w.dryRun(starts[i].files).skipped && exists f :: f in starts[i].files && f.path == path && fails(f)
  }

  ghost predicate DroppedHard(w: World, starts: seq<Loop>, fails: File -> bool, path: string)
  {
    exists i :: 0 <= i < |starts| && DroppedHardIn(w, starts, i, fails, path)
  }

  /** A pass met, at this path, an entry with a hard refusal and one with a soft one. */
  ghost predicate MetMixed(starts: seq<Loop>, fails: File -> bool, skips: File -> bool, path: string)
  {
    exists i, f, g :: 0 <= i < |starts| && f in starts[i].files && g in starts[i].files &&
                      f.path == g.path == path && fails(f) && skips(g)
  }

  /** A path is skipped only for a file that is. */
  ghost predicate SkipsOnlyItsOwn(w: World, skips: File -> bool)
  {
    forall files: seq<File>, path ::
      path in w.dryRun(files).skipped ==> exists g :: g in files && g.path == path && skips(g)
  }

  lemma DroppedHardIff(w: World, starts: seq<Loop>, fails: File -> bool, skips: File -> bool, path: string)
    requires PerFile(w, fails, skips) && SkipsOnlyItsOwn(w, skips)
    ensures DroppedHard(w, starts, fails, path) <==> MetMixed(starts, fails, skips, path)
  {
    if MetMixed(starts, fails, skips, path) {
      var i, f, g :| 0 <= i < |starts| && f in starts[i].files && g in starts[i].files &&
                     f.path == g.path == path && fails(f) && skips(g);
      assert DroppedHardIn(w, starts, i, fails, path);
    }
    if DroppedHard(w, starts, fails, path) {
      var i :| 0 <= i < |starts| && DroppedHardIn(w, starts, i, fails, path);
      var f :| f in starts[i].files && f.path == path && fails(f);
      var g :| g in starts[i].files && g.path == path && skips(g);
    }
  }

  predicate Missing(files: seq<File>, v: Verdict, path: string) { HasPath(files, path) && !HasPath(v.files, path) }

  /** Every path missing from what comes back was dropped by some pass, and for soft reasons alone exactly
      when no pass met it with both a hard and a soft refusal. */
  lemma DroppedSoftlyIff(w: World, scope: Scope, files: seq<File>, maxIterations: int, fails: File -> bool,
                         skips: File -> bool)
    requires PerFile(w, fails, skips) && SkipsOnlyItsOwn(w, skips)
    ensures var (starts, v) := (AllStarts(w, scope, files, maxIterations), Validate(w, scope, files, maxIterations));
            && (forall path :: Missing(files, v, path) ==> path in Skipped(w, starts))
            && ((forall path :: Missing(files, v, path) ==> !DroppedHard(w, starts, fails, path)) <==>
                (forall path :: Missing(files, v, path) ==> !MetMixed(starts, fails, skips, path)))
  {
    var (starts, v) := (AllStarts(w, scope, files, maxIterations), Validate(w, scope, files, maxIterations));
    SkippedPathsAre(w, scope, Loop(files, [], [], [], 0), Passes(maxIterations));
    assert [] + Skipped(w, starts) == Skipped(w, starts);
    forall path | Missing(files, v, path)
      ensures path in Skipped(w, starts)
      ensures DroppedHard(w, starts, fails, path) <==> MetMixed(starts, fails, skips, path)
    {
      MissingPathsWereSkipped(w, scope, files, maxIterations, path);
      DroppedHardIff(w, starts, fails, skips, path);
    }
  }

  lemma {:induction false} LastStartHasNoHardRefusal(w: World, scope: Scope, l: Loop, left: nat)
    requires left > 0 && Iterate(w, scope, l, left).clean
    ensures var starts := Starts(w, scope, l, left);
            starts != [] && w.dryRun(starts[|starts| - 1].files).hard == []
    decreases left
  {
    var l' := PassOnce(w, scope, l);
    IterateOnce(w, scope, l, left);
    if !Fine(Last(l')) && left > 1 {
      LastStartHasNoHardRefusal(w, scope, l', left - 1);
    }
  }

  lemma DroppedHardIsReported(w: World, starts: seq<Loop>, i: nat, fails: File -> bool, skips: File -> bool,
          path: string)
    requires PerFile(w, fails, skips) && i < |starts| && DroppedHardIn(w, starts, i, fails, path)
    ensures w.dryRun(starts[i].files).hard != []
  {
  }

  /** What a clean verdict dropped in spite of a hard refusal went before the last pass; so a batch that is
      clean at once has dropped nothing so. */
  lemma CleanDropsHardBeforeItsLastPass(w: World, scope: Scope, files: seq<File>, maxIterations: int,
                                        fails: File -> bool, skips: File -> bool, i: nat, path: string)
    requires PerFile(w, fails, skips)
    requires Validate(w, scope, files, maxIterations).clean
    requires var starts := AllStarts(w, scope, files, maxIterations);
             i < |starts| && DroppedHardIn(w, starts, i, fails, path)
    ensures i + 1 < |AllStarts(w, scope, files, maxIterations)|
  {
    LastStartHasNoHardRefusal(w, scope, Loop(files, [], [], [], 0), Passes(maxIterations));
    DroppedHardIsReported(w, AllStarts(w, scope, files, maxIterations), i, fails, skips, path);
  }

  /** The cluster's own dry run skips only what it refuses softly. */
  lemma ClusterSkipsOnlyItsOwn(w: World, cluster: DryRun.World, namespace: string,
                               parse: File -> seq<DryRun.Doc>, isYaml: File -> bool)
    requires UsesClusterDryRun(w, cluster, namespace, parse, isYaml)
    ensures SkipsOnlyItsOwn(w, SkippedOn(cluster, namespace, parse, isYaml))
  {
    forall files: seq<File>, path | path in w.dryRun(files).skipped
      ensures exists g :: g in files && g.path == path && SkippedOn(cluster, namespace, parse, isYaml)(g)
    {
      DryRun.SkippedPathsArePerFile(cluster, Parsed(parse, isYaml, files), namespace, path);
      ParsedMembers(parse, isYaml, files);
    }
  }

  lemma DroppedSoftlyOnTheClusterIff(w: World, cluster: DryRun.World, namespace: string,
                                     parse: File -> seq<DryRun.Doc>, isYaml: File -> bool,
                                     scope: Scope, files: seq<File>, maxIterations: int)
    requires UsesClusterDryRun(w, cluster, namespace, parse, isYaml)
    ensures var (starts, v) := (AllStarts(w, scope, files, maxIterations), Validate(w, scope, files, maxIterations));
            var (fails, skips) := (HardOn(cluster, namespace, parse, isYaml), SkippedOn(cluster, namespace, parse, isYaml));
            (forall path :: Missing(files, v, path) ==> !DroppedHard(w, starts, fails, path)) <==>
            (forall path :: Missing(files, v, path) ==> !MetMixed(starts, fails, skips, path))
  {
    ClusterDryRunIsPerFile(w, cluster, namespace, parse, isYaml);
    ClusterSkipsOnlyItsOwn(w, cluster, namespace, parse, isYaml);
    DroppedSoftlyIff(w, scope, files, maxIterations, HardOn(cluster, namespace, parse, isYaml),
                     SkippedOn(cluster, namespace, parse, isYaml));
  }

  // ---------------------------------------------------------------- such a run

  const MIXED := File("mixed.yaml", "skills", "a Secret and a broken Deployment")

  /** The file above is refused hard and softly; a role is asked for until it is there. */
  function MixedWorld(): World
  {
    RetryWorld().(dryRun := files => if MIXED in files then DryResult(["mixed.yaml: invalid"], ["mixed.yaml: forbidden"], {}, [MIXED.path])
                                     else DryResult([], [], {}, []))
  }

  const RBAC_ONLY := Scope(Some(["rbac"]), None)

  const AFTER_THE_DROP :=
    Loop([ROLE], [Pass(["mixed.yaml: invalid"], ["mixed.yaml: forbidden"], [MIXED.path], [Rbac], [ForProperty(Rbac)])],
         ["mixed.yaml: forbidden"], [MIXED.path], 1)

  lemma MixedIsPerFile()
    ensures PerFile(MixedWorld(), f => f == MIXED, f => f == MIXED) && SkipsOnlyItsOwn(MixedWorld(), f => f == MIXED)
  {
  }

  lemma TheRoleIsFixed()
    ensures FixPass(MixedWorld(), [], [Rbac], {}, 0) == ([ROLE], [ForProperty(Rbac)], 1)
  {
    var (w, labels) := (MixedWorld(), [ForProperty(Rbac)]);
    assert PropertyLabels([Rbac]) == labels && labels[..0] == [] && [ROLE][..0] == [];
    assert LastIndex([], ROLE.path) == -1 && Merge([], [ROLE]) == [ROLE];
    assert FixAll(w, [], labels[..0], 0) == ([], [], 0);
    assert CategoryOf(labels[0]) == "rbac" && [] + [labels[0]] == labels;
  }

  lemma NothingIsKept()
    ensures Kept([MIXED], MixedWorld().dryRun([MIXED])) == []
  {
    var d := MixedWorld().dryRun([MIXED]);
    assert MIXED in [MIXED] && MIXED.path in d.skipped;
    DropKeepsTheRest([MIXED], d.skipped);
    assert forall f :: f !in Kept([MIXED], d);
    NoneIn(Kept([MIXED], d));
  }

  lemma FirstPassDrops()
    ensures PassOnce(MixedWorld(), RBAC_ONLY, Loop([MIXED], [], [], [], 0)) == AFTER_THE_DROP
  {
    var w := MixedWorld();
    assert MIXED in [MIXED] && w.dryRun([MIXED]).hard != [] && w.failedProperties([]) == [Rbac];
    NothingIsKept();
    RbacIsRelevant();
    TheRoleIsFixed();
  }

  lemma SecondPassHasNothingLeft()
    ensures var l := PassOnce(MixedWorld(), RBAC_ONLY, AFTER_THE_DROP);
            l.files == [ROLE] && Fine(Last(l)) && l.skipped == [MIXED.path]
  {
    assert ROLE in [ROLE] && MixedWorld().failedProperties([ROLE]) == [];
    assert Relevant([], RBAC_ONLY) == [];
    DropKeepsTheRest([ROLE], []);
  }

  /** The file goes with its hard refusal, the role lands, and the next pass is clean. */
  lemma HardRefusalGoesWithTheFile()
    ensures var (w, v) := (MixedWorld(), Validate(MixedWorld(), RBAC_ONLY, [MIXED], 3));
            && w.dryRun([MIXED]).hard == ["mixed.yaml: invalid"]
            && v.clean && v.files == [ROLE] && v.skippedPaths == [MIXED.path] && v.remainingErrors == []
  {
    assert MIXED in [MIXED];
    FirstPassDrops();
    SecondPassHasNothingLeft();
    IterateOnce(MixedWorld(), RBAC_ONLY, Loop([MIXED], [], [], [], 0), 3);
    IterateOnce(MixedWorld(), RBAC_ONLY, AFTER_THE_DROP, 2);
  }
}
