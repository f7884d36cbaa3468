/** The per-cluster half of `auto_validate_and_deliver` (src/agentit/portal/auto_delivery.py): gates,
    validation, delivery, and what the clusters share: the accumulators, and the store's reject counts,
    which a refusal by the clear-evidence simulation raises and the fix dispatcher of every later
    cluster reads.

    Gates, collisions and `route_and_deliver` are functions of the cluster and its files. */
module ClusterDelivery {
  import opened CoolDown
  import opened Options
  import opened Sequences
  import V = ValidateFix

  datatype Cluster = Cluster(key: string, files: seq<V.File>, targets: seq<string>)

  datatype Enriched = Enriched(files: seq<V.File>, targets: seq<string>, raised: bool)

  datatype Outcome = Outcome(prUrl: Option<string>, error: Option<string>)

  datatype World = World(
    strip: Cluster -> seq<V.File>,
    selfManaged: bool,
    hpaGate: (Cluster, seq<V.File>) -> seq<V.File>,
    hasRepo: bool,
    enrich: (Cluster, seq<V.File>) -> Enriched,
    simulation: (Cluster, seq<V.File>, seq<string>) -> Option<string>,   // why a merge would not clear the finding
    isSource: V.File -> bool,
    dryRun: seq<V.File> -> V.DryResult,
    failedProperties: seq<V.File> -> seq<V.Property>,
    iterate: set<string> -> seq<string>,
    lookup: string -> Option<string>,               // the skill that fixes a finding category
    generate: string -> seq<V.File>,                // what that skill renders, from its template
    rejectKey: string -> string,                    // the stable prefix of a reject reason
    accepts: (string, string) -> bool,              // the store takes the reject of a skill for a reason key
    report: Option<seq<string>>,
    collisions: seq<V.File> -> seq<string>,
    deliver: (Cluster, seq<V.File>) -> seq<Outcome>,
    namesAGate: seq<string> -> bool)                // the wording test on the refusals

  const MAX_VALIDATION_ITERATIONS := 3

  const PATCH_BASE_IMAGE := "patch_base_image"

  // ---------------------------------------------------------------- the fix dispatcher

  /** The skill of this category is cooling down; patching a base image never is. */
  predicate IsCool(w: World, l: Ledger, category: string)
  {
    var skill := w.lookup(category);
    skill.Some? && skill.value != PATCH_BASE_IMAGE && Cooling(l, skill.value)
  }

  function Dispatch(w: World, l: Ledger, category: string): seq<V.File>
  {
    if w.lookup(category).None? || IsCool(w, l, category) then [] else w.generate(category)
  }

  /** A validation makes its own dispatcher, which keeps nothing: its answers depend on the category
      and on the store alone. */
  function LoopWorld(w: World, l: Ledger): V.World
  {
    V.World(w.dryRun, w.failedProperties, (n, category) => Dispatch(w, l, category), w.iterate)
  }

  function VerdictOf(w: World, l: Ledger, files: seq<V.File>, targets: seq<string>): V.Verdict
  {
    V.Validate(LoopWorld(w, l), V.Scope(Some(targets), w.report), files, MAX_VALIDATION_ITERATIONS)
  }

  // ---------------------------------------------------------------- one cluster

  datatype Fate = Skipped | Refused(reason: string) | Validated(files: seq<V.File>)

  /** The gates before the simulation: a fate, or what is left to simulate. */
  datatype Gate = Stop(fate: Fate) | Simulate(files: seq<V.File>, targets: seq<string>)

  function Gated(w: World, c: Cluster): Gate
  {
    var stripped := w.strip(c);
    if stripped == [] then Stop(Refused("solution contract emptied cluster"))
    else
      var gated := if w.selfManaged then stripped else w.hpaGate(c, stripped);
      if gated == [] then Stop(Refused("HPA gate emptied cluster"))
      else if !w.hasRepo then Simulate(gated, c.targets)
      else
        var e := w.enrich(c, gated);
        if !e.raised && e.files == [] then
          Stop(if e.targets == [] then Skipped else Refused("pre-enrich emptied cluster"))
        else Simulate(e.files, e.targets)
  }

  /** Why the simulation refuses the cluster, if it does. */
  function SimulationRefusal(w: World, c: Cluster): Option<string>
  {
    match Gated(w, c)
    case Stop(_) => None
    case Simulate(files, targets) => w.simulation(c, files, targets)
  }

  function Validation(w: World, l: Ledger, files: seq<V.File>, targets: seq<string>): Fate
  {
    if forall f :: f in files ==> w.isSource(f) then Validated(files)
    else
      var v := VerdictOf(w, l, files, targets);
      if v.files == [] then Refused("all manifests skipped")
      else if w.collisions(v.files) != [] then Refused("resource collision")
      else if !v.clean then Refused("could not converge")
      else Validated(v.files)
  }

  function FateOf(w: World, l: Ledger, c: Cluster): Fate
  {
    match Gated(w, c)
    case Stop(fate) => fate
    case Simulate(files, targets) =>
      match w.simulation(c, files, targets)
      case Some(reason) => Refused(reason)
      case None => Validation(w, l, files, targets)
  }

  function RefusalKey(w: World, reason: string): string { w.rejectKey("clear-evidence: " + reason) }

  /** What the store holds once the cluster has been processed. */
  function LedgerAfter(w: World, l: Ledger, c: Cluster): Ledger
  {
    match SimulationRefusal(w, c)
    case None => l
    case Some(reason) => Recorded(l, SkillNames(w.lookup, c.targets), RefusalKey(w, reason), w.accepts)
  }

  function LedgerAfterAll(w: World, l: Ledger, clusters: seq<Cluster>): Ledger
  {
    if clusters == [] then l
    else LedgerAfter(w, LedgerAfterAll(w, l, clusters[..|clusters| - 1]), clusters[|clusters| - 1])
  }

  function PrUrls(outcomes: seq<Outcome>): seq<string>
  {
    if outcomes == [] then []
    else PrUrls(outcomes[..|outcomes| - 1]) +
         (if outcomes[|outcomes| - 1].prUrl.Some? then [outcomes[|outcomes| - 1].prUrl.value] else [])
  }

  predicate HasError(outcomes: seq<Outcome>) { exists o :: o in outcomes && o.error.Some? }

  /** What one cluster adds to the run. */
  datatype Share = Share(files: seq<V.File>, prUrls: seq<string>, refusals: seq<string>, sameAsDeployed: bool)

  function ShareOf(w: World, l: Ledger, c: Cluster): Share
  {
    match FateOf(w, l, c)
    case Skipped => Share([], [], [], false)
    case Refused(reason) => Share([], [], [c.key + ": " + reason], false)
    case Validated(files) =>
      var outcomes := w.deliver(c, files);
      var prs := PrUrls(outcomes);
      Share(files, prs, if prs == [] && HasError(outcomes) then [c.key + ": delivery error"] else [],
            prs == [] && !HasError(outcomes))
  }

  // ---------------------------------------------------------------- the run

  /** A dictionary keyed by path, in insertion order: an equal path keeps its place, the later file wins. */
  function Put(d: seq<V.File>, f: V.File): seq<V.File>
  {
    var i := V.LastIndex(d, f.path);
    if i >= 0 then d[i := f] else d + [f]
  }

  function PutAll(d: seq<V.File>, files: seq<V.File>): seq<V.File>
  {
    if files == [] then d else Put(PutAll(d, files[..|files| - 1]), files[|files| - 1])
  }

  datatype Totals = Totals(byPath: seq<V.File>, prUrls: seq<string>, refusals: seq<string>, unchangedAny: bool)

  function Add(t: Totals, s: Share): Totals
  {
    Totals(PutAll(t.byPath, s.files), t.prUrls + s.prUrls, t.refusals + s.refusals, t.unchangedAny || s.sameAsDeployed)
  }

  function TotalsOf(sourceLayer: seq<V.File>, shares: seq<Share>): Totals
  {
    if shares == [] then Totals(PutAll([], sourceLayer), [], [], false)
    else Add(TotalsOf(sourceLayer, shares[..|shares| - 1]), shares[|shares| - 1])
  }

  /** The cluster at `i` meets the store as the clusters before it left it. */
  function ShareAt(w: World, l: Ledger, clusters: seq<Cluster>, i: nat): Share
    requires i < |clusters|
  {
    ShareOf(w, LedgerAfterAll(w, l, clusters[..i]), clusters[i])
  }

  function SharesOf(w: World, l: Ledger, clusters: seq<Cluster>): (shares: seq<Share>)
    ensures |shares| == |clusters|
  {
    seq(|clusters|, i requires 0 <= i < |clusters| => ShareAt(w, l, clusters, i))
  }

  function Sum(w: World, l: Ledger, sourceLayer: seq<V.File>, clusters: seq<Cluster>): Totals
  {
    TotalsOf(sourceLayer, SharesOf(w, l, clusters))
  }

  datatype Status = Delivered | NeedsAttention | DeliveryFailed | Unchanged

  function StatusOf(w: World, t: Totals): Status
  {
    if t.prUrls != [] then Delivered
    else if t.refusals != [] && !t.unchangedAny then
      if w.namesAGate(t.refusals) then NeedsAttention else DeliveryFailed
    else Unchanged
  }

  method ProcessCluster(w: World, l: Ledger, c: Cluster) returns (fate: Fate, l': Ledger)
    ensures fate == FateOf(w, l, c) && l' == LedgerAfter(w, l, c)
  {
    l' := l;
    var clusterFiles := w.strip(c);
    var targets := c.targets;
    if clusterFiles == [] {
      return Refused("solution contract emptied cluster"), l';
    }
    if !w.selfManaged {
      clusterFiles := w.hpaGate(c, clusterFiles);
      if clusterFiles == [] {
        return Refused("HPA gate emptied cluster"), l';
      }
    }
    if w.hasRepo {
      var e := w.enrich(c, clusterFiles);
      clusterFiles, targets := e.files, e.targets;
      if !e.raised && clusterFiles == [] {
        return if targets == [] then Skipped else Refused("pre-enrich emptied cluster"), l';
      }
    }
    var reason := w.simulation(c, clusterFiles, targets);
    if reason.Some? {
      l' := RecordRejects(l, SkillNames(w.lookup, c.targets), RefusalKey(w, reason.value), w.accepts);
      return Refused(reason.value), l';
    }
    fate := ValidateCluster(w, l, clusterFiles, targets);
  }

  method ValidateCluster(w: World, l: Ledger, files: seq<V.File>, targets: seq<string>) returns (fate: Fate)
    ensures fate == Validation(w, l, files, targets)
  {
    if forall f :: f in files ==> w.isSource(f) {
      return Validated(files);
    }
    var v := V.ValidateAndFix(LoopWorld(w, l), V.Scope(Some(targets), w.report), files, MAX_VALIDATION_ITERATIONS);
    if v.files == [] {
      return Refused("all manifests skipped");
    }
    if w.collisions(v.files) != [] {
      return Refused("resource collision");
    }
    if !v.clean {
      return Refused("could not converge");
    }
    return Validated(v.files);
  }

  method PutFiles(d: seq<V.File>, files: seq<V.File>) returns (byPath: seq<V.File>)
    ensures byPath == PutAll(d, files)
  {
    byPath := d;
    for i := 0 to |files|
      invariant byPath == PutAll(d, files[..i])
    {
      assert files[..i + 1][..i] == files[..i];
      byPath := Put(byPath, files[i]);
    }
    assert files[..|files|] == files;
  }

  method DeliverCluster(w: World, l: Ledger, c: Cluster) returns (share: Share, l': Ledger)
    ensures share == ShareOf(w, l, c) && l' == LedgerAfter(w, l, c)
  {
    share := Share([], [], [], false);
    var fate;
    fate, l' := ProcessCluster(w, l, c);
    match fate {
      case Skipped =>
      case Refused(reason) => share := share.(refusals := [c.key + ": " + reason]);
      case Validated(files) =>
        share := share.(files := files);
        var outcomes := w.deliver(c, files);
        var clusterPrs := PrUrls(outcomes);
        if clusterPrs != [] {
          share := share.(prUrls := clusterPrs);
        } else if HasError(outcomes) {
          share := share.(refusals := [c.key + ": delivery error"]);
        } else {
          share := share.(sameAsDeployed := true);
        }
    }
  }

  lemma TotalsOneMore(sourceLayer: seq<V.File>, shares: seq<Share>, s: Share)
    ensures TotalsOf(sourceLayer, shares + [s]) == Add(TotalsOf(sourceLayer, shares), s)
  {
    assert (shares + [s])[..|shares|] == shares;
  }

  lemma LedgerOneMore(w: World, l: Ledger, clusters: seq<Cluster>, c: Cluster)
    ensures LedgerAfterAll(w, l, clusters + [c]) == LedgerAfter(w, LedgerAfterAll(w, l, clusters), c)
  {
    assert (clusters + [c])[..|clusters|] == clusters;
  }

  lemma SharesOneMore(w: World, l: Ledger, clusters: seq<Cluster>, c: Cluster)
    ensures SharesOf(w, l, clusters + [c]) == SharesOf(w, l, clusters) + [ShareOf(w, LedgerAfterAll(w, l, clusters), c)]
  {
    var more := clusters + [c];
    LedgerOneMore(w, l, clusters, c);
    assert more[..|clusters|] == clusters;
    forall i | 0 <= i < |clusters|
      ensures ShareAt(w, l, more, i) == ShareAt(w, l, clusters, i)
    {
      assert more[..i] == clusters[..i];
    }
  }

  lemma SumOneMore(w: World, l: Ledger, sourceLayer: seq<V.File>, clusters: seq<Cluster>, c: Cluster)
    ensures Sum(w, l, sourceLayer, clusters + [c]) ==
            Add(Sum(w, l, sourceLayer, clusters), ShareOf(w, LedgerAfterAll(w, l, clusters), c))
  {
    SharesOneMore(w, l, clusters, c);
    TotalsOneMore(sourceLayer, SharesOf(w, l, clusters), ShareOf(w, LedgerAfterAll(w, l, clusters), c));
  }

  lemma RunOneMore(w: World, l: Ledger, sourceLayer: seq<V.File>, clusters: seq<Cluster>, i: nat)
    requires i < |clusters|
    ensures var (before, own) := (Sum(w, l, sourceLayer, clusters[..i]), ShareAt(w, l, clusters, i));
            Sum(w, l, sourceLayer, clusters[..i + 1]) ==
            Totals(PutAll(before.byPath, own.files), before.prUrls + own.prUrls, before.refusals + own.refusals,
                   before.unchangedAny || own.sameAsDeployed)
    ensures LedgerAfterAll(w, l, clusters[..i + 1]) == LedgerAfter(w, LedgerAfterAll(w, l, clusters[..i]), clusters[i])
  {
    SumOneMore(w, l, sourceLayer, clusters[..i], clusters[i]);
    LedgerOneMore(w, l, clusters[..i], clusters[i]);
    assert clusters[..i + 1] == clusters[..i] + [clusters[i]];
  }

  method DeliverClusters(w: World, l: Ledger, sourceLayer: seq<V.File>, clusters: seq<Cluster>)
    returns (status: Status, finalFiles: seq<V.File>, prUrls: seq<string>, refusals: seq<string>, l': Ledger)
    ensures var t := Sum(w, l, sourceLayer, clusters);
            status == StatusOf(w, t) && finalFiles == t.byPath && prUrls == t.prUrls && refusals == t.refusals
    ensures l' == LedgerAfterAll(w, l, clusters)
  {
    finalFiles := PutFiles([], sourceLayer);
    prUrls, refusals, l' := [], [], l;
    var unchangedAny := false;
    for i := 0 to |clusters|
      invariant Totals(finalFiles, prUrls, refusals, unchangedAny) == Sum(w, l, sourceLayer, clusters[..i])
      invariant l' == LedgerAfterAll(w, l, clusters[..i])
    {
      RunOneMore(w, l, sourceLayer, clusters, i);
      var share;
      share, l' := DeliverCluster(w, l', clusters[i]);
      finalFiles := PutFiles(finalFiles, share.files);
      prUrls := prUrls + share.prUrls;
      refusals := refusals + share.refusals;
      unchangedAny := unchangedAny || share.sameAsDeployed;
    }
    assert clusters[..|clusters|] == clusters;
    status := StatusOf(w, Totals(finalFiles, prUrls, refusals, unchangedAny));
  }

  // ---------------------------------------------------------------- what earlier clusters leave behind

  /** The simulation refuses this cluster for a reason with this key, and its findings name the skill. */
  predicate Rejects(w: World, c: Cluster, skill: string, key: string)
  {
    && SimulationRefusal(w, c).Some?
    && RefusalKey(w, SimulationRefusal(w, c).value) == key
    && skill in SkillNames(w.lookup, c.targets)
  }

  predicate RejectedBy(w: World, clusters: seq<Cluster>, skill: string, key: string)
  {
    exists c :: c in clusters && Rejects(w, c, skill, key)
  }

  lemma LedgerAfterCounts(w: World, l: Ledger, c: Cluster, skill: string, key: string)
    ensures var l' := LedgerAfter(w, l, c);
            && ((skill, key) in l'.recorded <==> (skill, key) in l.recorded || Rejects(w, c, skill, key))
            && Count(l'.rejects, skill, key) == Count(l.rejects, skill, key) +
               (if Rejects(w, c, skill, key) && (skill, key) !in l.recorded && w.accepts(skill, key) then 1 else 0)
  {
    match SimulationRefusal(w, c)
    case None =>
    case Some(reason) =>
      SkillNamesAre(w.lookup, c.targets, skill);
      RecordedCounts(l, SkillNames(w.lookup, c.targets), RefusalKey(w, reason), w.accepts, skill, key);
  }

  lemma RejectedByOneMore(w: World, clusters: seq<Cluster>, c: Cluster, skill: string, key: string)
    ensures RejectedBy(w, clusters + [c], skill, key) <==>
            RejectedBy(w, clusters, skill, key) || Rejects(w, c, skill, key)
  {
    assert forall d :: d in clusters + [c] <==> d in clusters || d == c;
  }

  /** However many clusters are refused, a run adds at most one reject per skill and reason key. */
  lemma {:induction false} LedgerAfterAllCounts(w: World, l: Ledger, clusters: seq<Cluster>, skill: string, key: string)
    ensures var l' := LedgerAfterAll(w, l, clusters);
            && ((skill, key) in l'.recorded <==> (skill, key) in l.recorded || RejectedBy(w, clusters, skill, key))
            && Count(l'.rejects, skill, key) == Count(l.rejects, skill, key) +
               (if RejectedBy(w, clusters, skill, key) && (skill, key) !in l.recorded && w.accepts(skill, key) then 1 else 0)
    decreases |clusters|
  {
    if clusters != [] {
      var (rest, c) := (clusters[..|clusters| - 1], clusters[|clusters| - 1]);
      LedgerAfterAllCounts(w, l, rest, skill, key);
      LedgerAfterCounts(w, LedgerAfterAll(w, l, rest), c, skill, key);
      RejectedByOneMore(w, rest, c, skill, key);
      assert clusters == rest + [c];
    }
  }

  /** A skill one reject short of cooling down, and an earlier cluster refused for that same reason. */
  ghost predicate PushedOver(w: World, l: Ledger, clusters: seq<Cluster>, skill: string)
  {
    exists key :: Pushes(w, l, clusters, skill, key)
  }

  predicate Pushes(w: World, l: Ledger, clusters: seq<Cluster>, skill: string, key: string)
  {
    && Count(l.rejects, skill, key) == COOLDOWN_SAME_REASON - 1
    && RejectedBy(w, clusters, skill, key) && (skill, key) !in l.recorded && w.accepts(skill, key)
  }

  /** Which skills are cooling down after some clusters: those that were, and those pushed over. */
  lemma CoolingAfterIff(w: World, l: Ledger, clusters: seq<Cluster>, skill: string)
    ensures Cooling(LedgerAfterAll(w, l, clusters), skill) <==> Cooling(l, skill) || PushedOver(w, l, clusters, skill)
  {
    var l' := LedgerAfterAll(w, l, clusters);
    CoolingIff(l, skill);
    CoolingIff(l', skill);
    forall key
      ensures Count(l'.rejects, skill, key) >= COOLDOWN_SAME_REASON <==>
              Count(l.rejects, skill, key) >= COOLDOWN_SAME_REASON || Pushes(w, l, clusters, skill, key)
    {
      LedgerAfterAllCounts(w, l, clusters, skill, key);
    }
  }

  // ---------------------------------------------------------------- when a verdict is the cluster's own

  /** The loop used a fix for this category. */
  predicate Uses(v: V.Verdict, category: string)
  {
    exists i, j :: 0 <= i < |v.passes| && 0 <= j < |v.passes[i].fixed| && V.CategoryOf(v.passes[i].fixed[j]) == category
  }

  /** `l'` cools every skill that `l` does. */
  ghost predicate Cooler(l: Ledger, l': Ledger) { forall skill :: Cooling(l, skill) ==> Cooling(l', skill) }

  lemma UsesNoneIff(v: V.Verdict, silent: string -> bool)
    ensures UsesNone(v.passes, 0, silent) <==> forall category :: Uses(v, category) ==> !silent(category)
  {
    if forall category :: Uses(v, category) ==> !silent(category) {
      forall i, j | 0 <= i < |v.passes| && 0 <= j < |v.passes[i].fixed|
        ensures !silent(V.CategoryOf(v.passes[i].fixed[j]))
      {
        assert Uses(v, V.CategoryOf(v.passes[i].fixed[j]));
      }
    }
  }

  /** Validating against a store with more skills cooled comes to the same verdict, pass by pass,
      exactly when no fix the loop used is for a category that is cool now. */
  lemma VerdictUnderCoolerStoreIff(w: World, l: Ledger, l': Ledger, files: seq<V.File>, targets: seq<string>)
    requires Cooler(l, l')
    ensures VerdictOf(w, l', files, targets) == VerdictOf(w, l, files, targets) <==>
            forall category :: Uses(VerdictOf(w, l, files, targets), category) ==> !IsCool(w, l', category)
  {
    var silent := category => IsCool(w, l', category);
    assert Silences(LoopWorld(w, l), LoopWorld(w, l'), silent) by {
      forall category
        ensures Dispatch(w, l', category) == if silent(category) then [] else Dispatch(w, l, category)
      {
      }
    }
    ValidateSilencedIff(LoopWorld(w, l), LoopWorld(w, l'), silent, V.Scope(Some(targets), w.report), files,
                        MAX_VALIDATION_ITERATIONS);
    UsesNoneIff(VerdictOf(w, l, files, targets), silent);
  }

  /** An earlier refusal has pushed the skill of this category over the threshold. */
  ghost predicate Sunk(w: World, l: Ledger, before: seq<Cluster>, category: string)
  {
    var skill := w.lookup(category);
    skill.Some? && skill.value != PATCH_BASE_IMAGE && PushedOver(w, l, before, skill.value)
  }

  lemma AfterIsCooler(w: World, l: Ledger, before: seq<Cluster>)
    ensures Cooler(l, LedgerAfterAll(w, l, before))
  {
    forall skill | Cooling(l, skill)
      ensures Cooling(LedgerAfterAll(w, l, before), skill)
    {
      CoolingAfterIff(w, l, before, skill);
    }
  }

  /** After some clusters the loop comes to the verdict it comes to alone exactly when no fix it uses
      alone is by a skill that one of their refusals pushed over the threshold. */
  lemma VerdictAfterIff(w: World, l: Ledger, before: seq<Cluster>, files: seq<V.File>, targets: seq<string>)
    ensures VerdictOf(w, LedgerAfterAll(w, l, before), files, targets) == VerdictOf(w, l, files, targets) <==>
            forall category :: Uses(VerdictOf(w, l, files, targets), category) ==> !Sunk(w, l, before, category)
  {
    var l' := LedgerAfterAll(w, l, before);
    AfterIsCooler(w, l, before);
    VerdictUnderCoolerStoreIff(w, l, l', files, targets);
    VerdictUnderCoolerStoreIff(w, l, l, files, targets);
    forall category
      ensures IsCool(w, l', category) <==> IsCool(w, l, category) || Sunk(w, l, before, category)
    {
      if w.lookup(category).Some? {
        CoolingAfterIff(w, l, before, w.lookup(category).value);
      }
    }
  }

  /** The verdict of the cluster's validate/fix loop, if it comes to that. */
  function ClusterVerdict(w: World, l: Ledger, c: Cluster): Option<V.Verdict>
  {
    match Gated(w, c)
    case Stop(_) => None
    case Simulate(files, targets) =>
      if w.simulation(c, files, targets).Some? || forall f :: f in files ==> w.isSource(f) then None
      else Some(VerdictOf(w, l, files, targets))
  }

  ghost predicate Undisturbed(w: World, l: Ledger, before: seq<Cluster>, c: Cluster)
  {
    var v := ClusterVerdict(w, l, c);
    v.Some? ==> forall category :: Uses(v.value, category) ==> !Sunk(w, l, before, category)
  }

  /** A cluster's verdict after others is its verdict alone exactly when none of their refusals sank a
      fix it uses. */
  lemma ClusterVerdictIff(w: World, l: Ledger, before: seq<Cluster>, c: Cluster)
    ensures ClusterVerdict(w, LedgerAfterAll(w, l, before), c) == ClusterVerdict(w, l, c) <==>
            Undisturbed(w, l, before, c)
  {
    match Gated(w, c)
    case Stop(_) =>
    case Simulate(files, targets) => VerdictAfterIff(w, l, before, files, targets);
  }

  /** The fate, and so the share, depends on the store through the verdict alone. */
  lemma VerdictDecides(w: World, l: Ledger, l': Ledger, c: Cluster)
    requires ClusterVerdict(w, l, c) == ClusterVerdict(w, l', c)
    ensures FateOf(w, l, c) == FateOf(w, l', c) && ShareOf(w, l, c) == ShareOf(w, l', c)
  {
  }

  // ---------------------------------------------------------------- isolation

  function Join(a: Share, b: Share): Share
  {
    Share(a.files + b.files, a.prUrls + b.prUrls, a.refusals + b.refusals, a.sameAsDeployed || b.sameAsDeployed)
  }

  function JoinAll(shares: seq<Share>): Share
  {
    if shares == [] then Share([], [], [], false) else Join(JoinAll(shares[..|shares| - 1]), shares[|shares| - 1])
  }

  lemma {:induction false} PutAllAppends(d: seq<V.File>, a: seq<V.File>, b: seq<V.File>)
    ensures PutAll(d, a + b) == PutAll(PutAll(d, a), b)
    decreases |b|
  {
    if b == [] {
      assert a + b == a;
    } else {
      assert (a + b)[..|a + b| - 1] == a + b[..|b| - 1];
      PutAllAppends(d, a, b[..|b| - 1]);
    }
  }

  lemma PutAllAppendsThird(source: seq<V.File>, a: seq<V.File>, b: seq<V.File>)
    ensures PutAll(PutAll([], source + a), b) == PutAll([], source + (a + b))
  {
    ConcatAssociates(source, a, b);
    PutAllAppends([], source + a, b);
  }

  lemma {:induction false} TotalsAreJoined(sourceLayer: seq<V.File>, shares: seq<Share>)
    ensures var (t, s) := (TotalsOf(sourceLayer, shares), JoinAll(shares));
            t == Totals(PutAll([], sourceLayer + s.files), s.prUrls, s.refusals, s.sameAsDeployed)
    decreases |shares|
  {
    if shares == [] {
      assert sourceLayer + [] == sourceLayer;
    } else {
      var n := |shares| - 1;
      TotalsAreJoined(sourceLayer, shares[..n]);
      PutAllAppendsThird(sourceLayer, JoinAll(shares[..n]).files, shares[n].files);
    }
  }

  lemma JoinAssociates(a: Share, b: Share, c: Share)
    ensures Join(Join(a, b), c) == Join(a, Join(b, c))
  {
  }

  lemma {:induction false} JoinAllAppends(a: seq<Share>, b: seq<Share>)
    ensures JoinAll(a + b) == Join(JoinAll(a), JoinAll(b))
    decreases |b|
  {
    if b == [] {
      assert a + b == a;
    } else {
      var n := |b| - 1;
      assert (a + b)[..|a + b| - 1] == a + b[..n];
      JoinAllAppends(a, b[..n]);
      JoinAssociates(JoinAll(a), JoinAll(b[..n]), b[n]);
    }
  }

  lemma TotalsSplit(sourceLayer: seq<V.File>, before: seq<Share>, own: Share, after: seq<Share>)
    ensures var (t, b, a) := (TotalsOf(sourceLayer, before + [own] + after), JoinAll(before), JoinAll(after));
            && t.prUrls == b.prUrls + own.prUrls + a.prUrls
            && t.refusals == b.refusals + own.refusals + a.refusals
            && t.byPath == PutAll([], sourceLayer + (b.files + own.files + a.files))
            && t.unchangedAny == (b.sameAsDeployed || own.sameAsDeployed || a.sameAsDeployed)
  {
    TotalsAreJoined(sourceLayer, before + [own] + after);
    JoinAllAppends(before + [own], after);
    assert (before + [own])[..|before|] == before;
  }

  /** What each cluster adds when it runs alone. */
  function Alone(w: World, l: Ledger, clusters: seq<Cluster>): seq<Share>
  {
    if clusters == [] then []
    else Alone(w, l, clusters[..|clusters| - 1]) + [ShareOf(w, l, clusters[|clusters| - 1])]
  }

  ghost predicate AllUndisturbed(w: World, l: Ledger, clusters: seq<Cluster>)
  {
    forall i :: 0 <= i < |clusters| ==> Undisturbed(w, l, clusters[..i], clusters[i])
  }

  lemma UndisturbedShare(w: World, l: Ledger, before: seq<Cluster>, c: Cluster)
    requires Undisturbed(w, l, before, c)
    ensures ShareOf(w, LedgerAfterAll(w, l, before), c) == ShareOf(w, l, c)
  {
    ClusterVerdictIff(w, l, before, c);
    VerdictDecides(w, LedgerAfterAll(w, l, before), l, c);
  }

  lemma FirstAreUndisturbed(w: World, l: Ledger, clusters: seq<Cluster>, n: nat)
    requires n <= |clusters| && AllUndisturbed(w, l, clusters)
    ensures AllUndisturbed(w, l, clusters[..n])
  {
    forall i | 0 <= i < n
      ensures Undisturbed(w, l, clusters[..n][..i], clusters[..n][i])
    {
      assert clusters[..n][..i] == clusters[..i];
    }
  }

  lemma {:induction false} SharesAreAlone(w: World, l: Ledger, clusters: seq<Cluster>)
    requires AllUndisturbed(w, l, clusters)
    ensures SharesOf(w, l, clusters) == Alone(w, l, clusters)
    decreases |clusters|
  {
    if clusters != [] {
      var n := |clusters| - 1;
      FirstAreUndisturbed(w, l, clusters, n);
      SharesAreAlone(w, l, clusters[..n]);
      SharesOneMore(w, l, clusters[..n], clusters[n]);
      UndisturbedShare(w, l, clusters[..n], clusters[n]);
      assert clusters == clusters[..n] + [clusters[n]];
    }
  }

  lemma AloneOneMore(w: World, l: Ledger, clusters: seq<Cluster>, c: Cluster)
    ensures Alone(w, l, clusters + [c]) == Alone(w, l, clusters) + [ShareOf(w, l, c)]
  {
    assert (clusters + [c])[..|clusters|] == clusters;
  }

  lemma {:induction false} AloneConcat(w: World, l: Ledger, a: seq<Cluster>, b: seq<Cluster>)
    ensures Alone(w, l, a + b) == Alone(w, l, a) + Alone(w, l, b)
    decreases |b|
  {
    if b == [] {
      assert a + b == a;
    } else {
      var (rest, last) := (b[..|b| - 1], b[|b| - 1]);
      AloneConcat(w, l, a, rest);
      AloneOneMore(w, l, a + rest, last);
      LastApart(a, b);
      ConcatAssociates(Alone(w, l, a), Alone(w, l, rest), [ShareOf(w, l, last)]);
    }
  }

  /** When no refusal sinks a fix another cluster uses, the whole run is what each cluster does alone:
      pull requests and refusals one cluster after the other, the saved files a dictionary over the
      source layer and then each cluster. */
  lemma ClustersAreIsolated(w: World, l: Ledger, sourceLayer: seq<V.File>, before: seq<Cluster>, c: Cluster,
                            after: seq<Cluster>)
    requires AllUndisturbed(w, l, before + [c] + after)
    ensures var (t, b, own, a) := (Sum(w, l, sourceLayer, before + [c] + after), JoinAll(Alone(w, l, before)),
                                   ShareOf(w, l, c), JoinAll(Alone(w, l, after)));
            && t.prUrls == b.prUrls + own.prUrls + a.prUrls
            && t.refusals == b.refusals + own.refusals + a.refusals
            && t.byPath == PutAll([], sourceLayer + (b.files + own.files + a.files))
            && t.unchangedAny == (b.sameAsDeployed || own.sameAsDeployed || a.sameAsDeployed)
  {
    SharesAreAlone(w, l, before + [c] + after);
    AloneConcat(w, l, before + [c], after);
    AloneOneMore(w, l, before, c);
    TotalsSplit(sourceLayer, Alone(w, l, before), ShareOf(w, l, c), Alone(w, l, after));
  }

  lemma NoRefusalNoPush(w: World, l: Ledger, before: seq<Cluster>, c: Cluster)
    requires forall d :: d in before ==> SimulationRefusal(w, d).None?
    ensures Undisturbed(w, l, before, c)
  {
  }

  /** In particular when the simulation refuses none. */
  lemma WithoutSimulationRefusalsAllAreUndisturbed(w: World, l: Ledger, clusters: seq<Cluster>)
    requires forall c :: c in clusters ==> SimulationRefusal(w, c).None?
    ensures AllUndisturbed(w, l, clusters)
  {
    forall i | 0 <= i < |clusters|
      ensures Undisturbed(w, l, clusters[..i], clusters[i])
    {
      NoRefusalNoPush(w, l, clusters[..i], clusters[i]);
    }
  }

  // ---------------------------------------------------------------- leaving one refused cluster out

  lemma TotalsWithout(sourceLayer: seq<V.File>, before: seq<Share>, own: Share, after: seq<Share>)
    requires own.files == [] && own.prUrls == [] && !own.sameAsDeployed
    ensures var (t, without) := (TotalsOf(sourceLayer, before + [own] + after), TotalsOf(sourceLayer, before + after));
            t.byPath == without.byPath && t.prUrls == without.prUrls && t.unchangedAny == without.unchangedAny
  {
    TotalsSplit(sourceLayer, before, own, after);
    TotalsAreJoined(sourceLayer, before + after);
    JoinAllAppends(before, after);
    assert JoinAll(before).files + [] == JoinAll(before).files && JoinAll(before).prUrls + [] == JoinAll(before).prUrls;
  }

  /** What `after` adds on top of `before`. */
  function SharesAfter(w: World, l: Ledger, before: seq<Cluster>, after: seq<Cluster>): (shares: seq<Share>)
    ensures |shares| == |after|
  {
    seq(|after|, i requires 0 <= i < |after| => ShareOf(w, LedgerAfterAll(w, l, before + after[..i]), after[i]))
  }

  lemma SharesAfterOneMore(w: World, l: Ledger, before: seq<Cluster>, after: seq<Cluster>, c: Cluster)
    ensures SharesAfter(w, l, before, after + [c]) ==
            SharesAfter(w, l, before, after) + [ShareOf(w, LedgerAfterAll(w, l, before + after), c)]
  {
    var more := after + [c];
    assert more[..|after|] == after;
    forall i | 0 <= i < |after|
      ensures more[..i] == after[..i] && more[i] == after[i]
    {
    }
  }

  lemma {:induction false} SharesSplit(w: World, l: Ledger, before: seq<Cluster>, after: seq<Cluster>)
    ensures SharesOf(w, l, before + after) == SharesOf(w, l, before) + SharesAfter(w, l, before, after)
    decreases |after|
  {
    if after == [] {
      assert before + after == before && SharesAfter(w, l, before, after) == [];
    } else {
      var (rest, last) := (after[..|after| - 1], after[|after| - 1]);
      SharesSplit(w, l, before, rest);
      SharesSplitOneMore(w, l, before, rest, last);
      assert after == rest + [last];
    }
  }

  lemma SharesSplitOneMore(w: World, l: Ledger, before: seq<Cluster>, after: seq<Cluster>, c: Cluster)
    requires SharesOf(w, l, before + after) == SharesOf(w, l, before) + SharesAfter(w, l, before, after)
    ensures SharesOf(w, l, before + (after + [c])) == SharesOf(w, l, before) + SharesAfter(w, l, before, after + [c])
  {
    SharesOneMore(w, l, before + after, c);
    SharesAfterOneMore(w, l, before, after, c);
    ConcatAssociates(before, after, [c]);
    ConcatAssociates(SharesOf(w, l, before), SharesAfter(w, l, before, after),
                     [ShareOf(w, LedgerAfterAll(w, l, before + after), c)]);
  }

  /** The cluster comes to the same verdict whether the store is `l` or the cooler `l'`. */
  ghost predicate Spared(w: World, l: Ledger, l': Ledger, c: Cluster)
  {
    var v := ClusterVerdict(w, l, c);
    v.Some? ==> forall category :: Uses(v.value, category) ==> !IsCool(w, l', category)
  }

  lemma SparedIff(w: World, l: Ledger, l': Ledger, c: Cluster)
    requires Cooler(l, l')
    ensures ClusterVerdict(w, l', c) == ClusterVerdict(w, l, c) <==> Spared(w, l, l', c)
  {
    match Gated(w, c)
    case Stop(_) =>
    case Simulate(files, targets) => VerdictUnderCoolerStoreIff(w, l, l', files, targets);
  }

  lemma OneMoreIsCooler(w: World, l: Ledger, before: seq<Cluster>, c: Cluster, after: seq<Cluster>)
    ensures Cooler(LedgerAfterAll(w, l, before + after), LedgerAfterAll(w, l, before + [c] + after))
  {
    var (few, many) := (before + after, before + [c] + after);
    forall skill | Cooling(LedgerAfterAll(w, l, few), skill)
      ensures Cooling(LedgerAfterAll(w, l, many), skill)
    {
      CoolingAfterIff(w, l, few, skill);
      CoolingAfterIff(w, l, many, skill);
      if key :| Pushes(w, l, few, skill, key) {
        assert Pushes(w, l, many, skill, key);
      }
    }
  }

  /** A refused or skipped cluster changes neither the saved files nor the pull requests, as long as
      its refusal cools no skill whose fix a later cluster uses. */
  lemma RefusalIsHarmless(w: World, l: Ledger, sourceLayer: seq<V.File>, before: seq<Cluster>, c: Cluster,
                          after: seq<Cluster>)
    requires !FateOf(w, LedgerAfterAll(w, l, before), c).Validated?
    requires forall i :: 0 <= i < |after| ==>
               Spared(w, LedgerAfterAll(w, l, before + after[..i]), LedgerAfterAll(w, l, before + [c] + after[..i]), after[i])
    ensures var (t, without) := (Sum(w, l, sourceLayer, before + [c] + after), Sum(w, l, sourceLayer, before + after));
            t.byPath == without.byPath && t.prUrls == without.prUrls && t.unchangedAny == without.unchangedAny
  {
    SharesSplit(w, l, before + [c], after);
    SharesSplit(w, l, before, after);
    SharesOneMore(w, l, before, c);
    forall i | 0 <= i < |after|
      ensures SharesAfter(w, l, before + [c], after)[i] == SharesAfter(w, l, before, after)[i]
    {
      var (few, many) := (LedgerAfterAll(w, l, before + after[..i]), LedgerAfterAll(w, l, before + [c] + after[..i]));
      OneMoreIsCooler(w, l, before, c, after[..i]);
      SparedIff(w, few, many, after[i]);
      VerdictDecides(w, few, many, after[i]);
    }
    assert SharesAfter(w, l, before + [c], after) == SharesAfter(w, l, before, after);
    TotalsWithout(sourceLayer, SharesOf(w, l, before), ShareOf(w, LedgerAfterAll(w, l, before), c),
                  SharesAfter(w, l, before, after));
  }

  lemma {:induction false} LedgerWithout(w: World, l: Ledger, before: seq<Cluster>, c: Cluster, after: seq<Cluster>)
    requires SimulationRefusal(w, c).None?
    ensures LedgerAfterAll(w, l, before + [c] + after) == LedgerAfterAll(w, l, before + after)
    decreases |after|
  {
    if after == [] {
      assert before + [c] + after == before + [c] && before + after == before;
      LedgerOneMore(w, l, before, c);
    } else {
      var (rest, last) := (after[..|after| - 1], after[|after| - 1]);
      LedgerWithout(w, l, before, c, rest);
      LedgerOneMore(w, l, before + [c] + rest, last);
      LedgerOneMore(w, l, before + rest, last);
      LastApart(before + [c], after);
      LastApart(before, after);
    }
  }

  lemma LastApart(a: seq<Cluster>, b: seq<Cluster>)
    requires b != []
    ensures a + b == a + b[..|b| - 1] + [b[|b| - 1]]
  {
  }

  /** Any refusal but the simulation's is harmless whatever comes after. */
  lemma OtherRefusalsAreHarmless(w: World, l: Ledger, sourceLayer: seq<V.File>, before: seq<Cluster>, c: Cluster,
                                 after: seq<Cluster>)
    requires !FateOf(w, LedgerAfterAll(w, l, before), c).Validated? && SimulationRefusal(w, c).None?
    ensures var (t, without) := (Sum(w, l, sourceLayer, before + [c] + after), Sum(w, l, sourceLayer, before + after));
            t.byPath == without.byPath && t.prUrls == without.prUrls && t.unchangedAny == without.unchangedAny
  {
    forall i | 0 <= i < |after|
      ensures Spared(w, LedgerAfterAll(w, l, before + after[..i]), LedgerAfterAll(w, l, before + [c] + after[..i]), after[i])
    {
      LedgerWithout(w, l, before, c, after[..i]);
      var few := LedgerAfterAll(w, l, before + after[..i]);
      SparedIff(w, few, few, after[i]);
    }
    RefusalIsHarmless(w, l, sourceLayer, before, c, after);
  }

  // ---------------------------------------------------------------- a refusal that sinks a sibling

  const BINDING := V.File("binding.yaml", "rbac", "RoleBinding")

  predicate HoldsRbac(f: V.File) { f.content == "Role" || f.content == "RoleBinding" }

  /** The simulation refuses files without an RBAC object; the RBAC property asks for a Role, which the
      skill for the category brings. */
  function RbacWorld(): World
  {
    World((c: Cluster) => c.files, true, (c: Cluster, files) => files, false,
          (c: Cluster, files) => Enriched(files, c.targets, false),
          (c, files: seq<V.File>, targets) =>
            if exists f :: f in files && HoldsRbac(f) then None else Some("no RBAC object is staged"),
          f => false, files => V.DryResult([], [], {}, []), files => if V.ROLE in files then [] else [V.Rbac], s => [],
          category => if category == "rbac" then Some("rbac") else None, category => [V.ROLE],
          reason => "clear-evidence", (skill, key) => true, None, files => [], (c, files) => [], refusals => false)
  }

  /** Two chunks of one finding. */
  function RbacCluster(key: string, files: seq<V.File>): Cluster { Cluster(key, files, ["rbac"]) }

  /** The skill has been rejected once before, for the same reason. */
  const ONE_REJECT := Ledger(map[("rbac", "clear-evidence") := 1], {})

  lemma FirstPass(x: V.World, fixes: seq<V.File>)
    requires x.dryRun([BINDING]) == V.DryResult([], [], {}, []) && x.failedProperties([BINDING]) == [V.Rbac]
    requires x.dispatch(0, "rbac") == fixes && (fixes == [] || fixes == [V.ROLE])
    ensures V.PassOnce(x, V.Scope(Some(["rbac"]), None), V.Loop([BINDING], [], [], [], 0)) ==
            (if fixes == [] then V.Loop([BINDING], [V.Pass([], [], [], [V.Rbac], [])], [], [], 1)
             else V.Loop([BINDING, V.ROLE], [V.Pass([], [], [], [V.Rbac], [V.ForProperty(V.Rbac)])], [], [], 1))
  {
    V.RbacIsRelevant();
    var labels := [V.ForProperty(V.Rbac)];
    assert V.PropertyLabels([V.Rbac]) == labels;
    assert labels[..0] == [] && [V.ROLE][..0] == [];
    assert V.LastIndex([BINDING], V.ROLE.path) == -1;
    assert V.Merge([BINDING], [V.ROLE]) == [BINDING, V.ROLE];
    assert V.FixAll(x, [BINDING], labels[..0], 0) == ([BINDING], [], 0);
    assert V.CategoryOf(labels[0]) == "rbac" && [] + [labels[0]] == labels;
    assert V.FixAll(x, [BINDING], labels, 0) == if fixes == [] then ([BINDING], [], 1) else ([BINDING, V.ROLE], labels, 1);
  }

  lemma Converges(x: V.World)
    requires x.dryRun([BINDING]) == V.DryResult([], [], {}, []) && x.failedProperties([BINDING]) == [V.Rbac]
    requires x.dryRun([BINDING, V.ROLE]) == V.DryResult([], [], {}, []) && x.failedProperties([BINDING, V.ROLE]) == []
    ensures var v := V.Validate(x, V.Scope(Some(["rbac"]), None), [BINDING], MAX_VALIDATION_ITERATIONS);
            && (x.dispatch(0, "rbac") == [V.ROLE] ==> v.clean && v.files == [BINDING, V.ROLE])
            && (x.dispatch(0, "rbac") == [] ==> !v.clean && v.files == [BINDING])
  {
    var scope := V.Scope(Some(["rbac"]), None);
    var start := V.Loop([BINDING], [], [], [], 0);
    V.IterateOnce(x, scope, start, 3);
    if x.dispatch(0, "rbac") == [V.ROLE] {
      FirstPass(x, [V.ROLE]);
      V.IterateOnce(x, scope, V.PassOnce(x, scope, start), 2);
    } else if x.dispatch(0, "rbac") == [] {
      FirstPass(x, []);
    }
  }

  lemma SiblingFate(l: Ledger)
    ensures FateOf(RbacWorld(), l, RbacCluster("rbac#2", [BINDING])) ==
            if Cooling(l, "rbac") then Refused("could not converge") else Validated([BINDING, V.ROLE])
  {
    Converges(LoopWorld(RbacWorld(), l));
    assert BINDING in [BINDING];
  }

  /** Six files for one finding are cut into two clusters. The simulation refuses the first; the skill,
      rejected once before, cools down; and the second, which alone would have been fixed and passed,
      is refused. */
  lemma RefusalSinksASibling(first: seq<V.File>)
    requires |first| == 5 && forall f :: f in first ==> !HoldsRbac(f)
    ensures var (w, a, b) := (RbacWorld(), RbacCluster("rbac", first), RbacCluster("rbac#2", [BINDING]));
            && FateOf(w, ONE_REJECT, a).Refused?
            && FateOf(w, ONE_REJECT, b) == Validated([BINDING, V.ROLE])
            && FateOf(w, LedgerAfterAll(w, ONE_REJECT, [a]), b) == Refused("could not converge")
            && !Undisturbed(w, ONE_REJECT, [a], b)
  {
    var (w, a, b) := (RbacWorld(), RbacCluster("rbac", first), RbacCluster("rbac#2", [BINDING]));
    SecondRejectCools(a);
    SiblingFate(ONE_REJECT);
    SiblingFate(LedgerAfterAll(w, ONE_REJECT, [a]));
    ClusterVerdictIff(w, ONE_REJECT, [a], b);
    if Undisturbed(w, ONE_REJECT, [a], b) {
      VerdictDecides(w, ONE_REJECT, LedgerAfterAll(w, ONE_REJECT, [a]), b);
    }
  }

  lemma SecondRejectCools(a: Cluster)
    requires a.targets == ["rbac"] && a.files != [] && forall f :: f in a.files ==> !HoldsRbac(f)
    ensures !Cooling(ONE_REJECT, "rbac") && Cooling(LedgerAfterAll(RbacWorld(), ONE_REJECT, [a]), "rbac")
  {
    FirstChunkIsRejected(a);
    assert a in [a];
    assert Count(ONE_REJECT.rejects, "rbac", "clear-evidence") == 1;
    assert Pushes(RbacWorld(), ONE_REJECT, [a], "rbac", "clear-evidence");
    CoolingAfterIff(RbacWorld(), ONE_REJECT, [a], "rbac");
  }

  lemma FirstChunkIsRejected(a: Cluster)
    requires a.targets == ["rbac"] && a.files != [] && forall f :: f in a.files ==> !HoldsRbac(f)
    ensures Rejects(RbacWorld(), a, "rbac", "clear-evidence")
  {
    var w := RbacWorld();
    SkillNamesAre(w.lookup, a.targets, "rbac");
    assert "rbac" in a.targets && w.lookup("rbac") == Some("rbac");
    assert Gated(w, a) == Simulate(a.files, a.targets);
    assert SimulationRefusal(w, a).Some?;
  }

  // ---------------------------------------------------------------- the saved files

  ghost predicate DistinctPaths(files: seq<V.File>)
  {
    forall i, j :: 0 <= i < j < |files| ==> files[i].path != files[j].path
  }

  lemma PutKeepsDistinct(d: seq<V.File>, f: V.File)
    requires DistinctPaths(d)
    ensures DistinctPaths(Put(d, f))
    ensures f in Put(d, f)
    ensures forall g: V.File :: g.path != f.path ==> (g in Put(d, f) <==> g in d)
    ensures forall g :: g in Put(d, f) && g.path == f.path ==> g == f
  {
    var i := V.LastIndex(d, f.path);
    V.LastIndexMeans(d, f.path);
    var r := Put(d, f);
    assert r[if i >= 0 then i else |d|] == f;
    forall g | g in d && g.path != f.path
      ensures g in r
    {
      var j :| 0 <= j < |d| && d[j] == g;
      assert r[j] == g;
    }
  }

  lemma PutHas(d: seq<V.File>, g: V.File, f: V.File)
    requires DistinctPaths(d)
    ensures f in Put(d, g) <==> f == g || (f.path != g.path && f in d)
  {
    PutKeepsDistinct(d, g);
  }

  /** `f` is the last of `files` at its path. */
  ghost predicate IsLast(files: seq<V.File>, f: V.File)
  {
    exists i :: 0 <= i < |files| && files[i] == f && forall j :: i < j < |files| ==> files[j].path != f.path
  }

  lemma IsLastOneMore(files: seq<V.File>, g: V.File, f: V.File)
    ensures IsLast(files + [g], f) <==> f == g || (f.path != g.path && IsLast(files, f))
  {
    var more := files + [g];
    if f == g {
      assert more[|files|] == f;
    } else if IsLast(more, f) {
      var i :| 0 <= i < |more| && more[i] == f && forall j :: i < j < |more| ==> more[j].path != f.path;
      assert more[|files|].path != f.path && files[i] == f;
      assert forall j :: i < j < |files| ==> files[j] == more[j];
    }
    if f.path != g.path && IsLast(files, f) {
      var i :| 0 <= i < |files| && files[i] == f && forall j :: i < j < |files| ==> files[j].path != f.path;
      assert more[i] == f;
    }
  }

  lemma {:induction false} PutAllIsDistinct(files: seq<V.File>)
    ensures DistinctPaths(PutAll([], files))
    decreases |files|
  {
    if files != [] {
      PutAllIsDistinct(files[..|files| - 1]);
      PutKeepsDistinct(PutAll([], files[..|files| - 1]), files[|files| - 1]);
    }
  }

  lemma {:induction false} PutAllKeepsTheLast(files: seq<V.File>, f: V.File)
    ensures f in PutAll([], files) <==> IsLast(files, f)
    decreases |files|
  {
    if files != [] {
      var (rest, g) := (files[..|files| - 1], files[|files| - 1]);
      PutAllKeepsTheLast(rest, f);
      PutAllIsDistinct(rest);
      PutHas(PutAll([], rest), g, f);
      IsLastOneMore(rest, g, f);
      assert files == rest + [g];
    }
  }

  /** The cluster at `i` passed its validation with `f` among its files. */
  predicate Ships(w: World, l: Ledger, clusters: seq<Cluster>, i: nat, f: V.File)
  {
    && i < |clusters|
    && var fate := FateOf(w, LedgerAfterAll(w, l, clusters[..i]), clusters[i]);
    fate.Validated? && f in fate.files
  }

  lemma {:induction false} JoinedFiles(shares: seq<Share>, f: V.File)
    ensures f in JoinAll(shares).files <==> exists i :: 0 <= i < |shares| && f in shares[i].files
    decreases |shares|
  {
    if shares != [] {
      var n := |shares| - 1;
      JoinedFiles(shares[..n], f);
      if i :| 0 <= i < |shares[..n]| && f in shares[..n][i].files {
        assert f in shares[i].files;
      }
      if i :| 0 <= i < n && f in shares[i].files {
        assert shares[..n][i] == shares[i];
      }
    }
  }

  lemma SharedFiles(w: World, l: Ledger, clusters: seq<Cluster>, f: V.File)
    ensures f in JoinAll(SharesOf(w, l, clusters)).files <==> exists i :: Ships(w, l, clusters, i, f)
  {
    var shares := SharesOf(w, l, clusters);
    JoinedFiles(shares, f);
    assert forall i: nat :: i < |clusters| ==> (f in shares[i].files <==> Ships(w, l, clusters, i, f));
  }

  lemma SomeFileIsLast(files: seq<V.File>, path: string)
    requires exists f :: f in files && f.path == path
    ensures exists f :: IsLast(files, f) && f.path == path
  {
    var i := V.LastIndex(files, path);
    V.LastIndexMeans(files, path);
    assert IsLast(files, files[i]);
  }

  /** `f` came from the source layer or from a cluster that passed its own validation. */
  ghost predicate Came(w: World, l: Ledger, sourceLayer: seq<V.File>, clusters: seq<Cluster>, f: V.File)
  {
    f in sourceLayer || exists i :: Ships(w, l, clusters, i, f)
  }

  /** Everything that came, in order. */
  function Arrivals(w: World, l: Ledger, sourceLayer: seq<V.File>, clusters: seq<Cluster>): seq<V.File>
  {
    sourceLayer + JoinAll(SharesOf(w, l, clusters)).files
  }

  lemma ArrivalsCame(w: World, l: Ledger, sourceLayer: seq<V.File>, clusters: seq<Cluster>, f: V.File)
    ensures f in Arrivals(w, l, sourceLayer, clusters) <==> Came(w, l, sourceLayer, clusters, f)
  {
    SharedFiles(w, l, clusters, f);
  }

  lemma FinalIsTheLastArrival(w: World, l: Ledger, sourceLayer: seq<V.File>, clusters: seq<Cluster>, f: V.File)
    ensures f in Sum(w, l, sourceLayer, clusters).byPath <==> IsLast(Arrivals(w, l, sourceLayer, clusters), f)
  {
    TotalsAreJoined(sourceLayer, SharesOf(w, l, clusters));
    PutAllKeepsTheLast(Arrivals(w, l, sourceLayer, clusters), f);
  }

  lemma PathIsSaved(w: World, l: Ledger, sourceLayer: seq<V.File>, clusters: seq<Cluster>, f: V.File)
    requires Came(w, l, sourceLayer, clusters, f)
    ensures exists g :: g in Sum(w, l, sourceLayer, clusters).byPath && g.path == f.path
  {
    ArrivalsCame(w, l, sourceLayer, clusters, f);
    SomeFileIsLast(Arrivals(w, l, sourceLayer, clusters), f.path);
    var g :| IsLast(Arrivals(w, l, sourceLayer, clusters), g) && g.path == f.path;
    FinalIsTheLastArrival(w, l, sourceLayer, clusters, g);
  }

  /** The saved files: exactly one at each path of the source layer and of the clusters that passed
      their own validation, and it is the last one that came for that path. */
  lemma FinalFilesAreTheValidatedOnes(w: World, l: Ledger, sourceLayer: seq<V.File>, clusters: seq<Cluster>)
    ensures var final := Sum(w, l, sourceLayer, clusters).byPath;
            && DistinctPaths(final)
            && (forall f :: f in final <==> IsLast(Arrivals(w, l, sourceLayer, clusters), f))
            && (forall f :: f in final ==> Came(w, l, sourceLayer, clusters, f))
            && (forall f :: Came(w, l, sourceLayer, clusters, f) ==> exists g :: g in final && g.path == f.path)
  {
    TotalsAreJoined(sourceLayer, SharesOf(w, l, clusters));
    PutAllIsDistinct(Arrivals(w, l, sourceLayer, clusters));
    forall f: V.File
      ensures f in Sum(w, l, sourceLayer, clusters).byPath <==> IsLast(Arrivals(w, l, sourceLayer, clusters), f)
      ensures f in Sum(w, l, sourceLayer, clusters).byPath ==> Came(w, l, sourceLayer, clusters, f)
    {
      FinalIsTheLastArrival(w, l, sourceLayer, clusters, f);
      ArrivalsCame(w, l, sourceLayer, clusters, f);
    }
    forall f | Came(w, l, sourceLayer, clusters, f)
      ensures exists g :: g in Sum(w, l, sourceLayer, clusters).byPath && g.path == f.path
    {
      PathIsSaved(w, l, sourceLayer, clusters, f);
    }
  }

  // ---------------------------------------------------------------- the status

  predicate OpensPr(s: Share) { s.prUrls != [] }

  predicate IsRefused(s: Share) { s.refusals != [] }

  lemma {:induction false} JoinedPrs(shares: seq<Share>)
    ensures JoinAll(shares).prUrls != [] <==> exists i :: 0 <= i < |shares| && OpensPr(shares[i])
    decreases |shares|
  {
    if shares != [] {
      var n := |shares| - 1;
      JoinedPrs(shares[..n]);
      assert forall i :: 0 <= i < n ==> shares[..n][i] == shares[i];
    }
  }

  lemma {:induction false} JoinedUnchanged(shares: seq<Share>)
    ensures JoinAll(shares).sameAsDeployed <==> exists i :: 0 <= i < |shares| && shares[i].sameAsDeployed
    decreases |shares|
  {
    if shares != [] {
      var n := |shares| - 1;
      JoinedUnchanged(shares[..n]);
      assert forall i :: 0 <= i < n ==> shares[..n][i] == shares[i];
    }
  }

  lemma {:induction false} JoinedRefusals(shares: seq<Share>)
    ensures JoinAll(shares).refusals != [] <==> exists i :: 0 <= i < |shares| && IsRefused(shares[i])
    decreases |shares|
  {
    if shares != [] {
      var n := |shares| - 1;
      JoinedRefusals(shares[..n]);
      assert forall i :: 0 <= i < n ==> shares[..n][i] == shares[i];
    }
  }

  /** "delivered" exactly when some cluster opened a pull request; a failure status exactly when none
      did, something was refused, and no validated cluster was found unchanged. */
  lemma StatusIsHonest(w: World, l: Ledger, sourceLayer: seq<V.File>, clusters: seq<Cluster>)
    ensures var (status, shares) := (StatusOf(w, Sum(w, l, sourceLayer, clusters)), SharesOf(w, l, clusters));
            && (status == Delivered <==> exists i :: 0 <= i < |shares| && OpensPr(shares[i]))
            && (status == NeedsAttention || status == DeliveryFailed <==>
                && (forall i :: 0 <= i < |shares| ==> !OpensPr(shares[i]) && !shares[i].sameAsDeployed)
                && (exists i :: 0 <= i < |shares| && IsRefused(shares[i])))
  {
    TotalsAreJoined(sourceLayer, SharesOf(w, l, clusters));
    JoinedPrs(SharesOf(w, l, clusters));
    JoinedUnchanged(SharesOf(w, l, clusters));
    JoinedRefusals(SharesOf(w, l, clusters));
  }
}
