/** Which clusters pass the gates of `auto_validate_and_deliver` (src/agentit/portal/auto_delivery.py), and
    with which files, said of the gates themselves. */
module ClusterGates {
  import opened ClusterDelivery
  import opened CoolDown
  import opened Options
  import V = ValidateFix

  /** What the wrong-layer strip and, unless the application manages its own scaling, the HPA gate leave. */
  ghost predicate LeavesStripAndHpa(w: World, c: Cluster, files: seq<V.File>)
  {
    && w.strip(c) != [] && files != []
    && (w.selfManaged ==> files == w.strip(c))
    && (!w.selfManaged ==> files == w.hpaGate(c, w.strip(c)))
  }

  /** The files and findings that come to the simulation. Without a repository nothing is enriched; an
      enrichment that raises leaves what it has, even if that is nothing. */
  ghost predicate ComesToSimulation(w: World, c: Cluster, files: seq<V.File>, targets: seq<string>)
  {
    exists gated ::
      && LeavesStripAndHpa(w, c, gated)
      && (!w.hasRepo ==> files == gated && targets == c.targets)
      && (w.hasRepo ==> files == w.enrich(c, gated).files && targets == w.enrich(c, gated).targets)
      && (w.hasRepo && files == [] ==> w.enrich(c, gated).raised)
  }

  ghost predicate AllSource(w: World, files: seq<V.File>) { forall f :: f in files ==> w.isSource(f) }

  /** Source files pass as they are; others as the files of a clean verdict, if there are any and they
      collide with nothing. */
  ghost predicate PassesValidation(w: World, l: Ledger, files: seq<V.File>, targets: seq<string>, out: seq<V.File>)
  {
    && (AllSource(w, files) ==> out == files)
    && (!AllSource(w, files) ==>
          var v := V.Validate(LoopWorld(w, l), V.Scope(Some(targets), w.report), files, 3);
          v.clean && v.files == out && out != [] && w.collisions(out) == [])
  }

  /** The cluster comes through every gate with these files. */
  ghost predicate Passes(w: World, l: Ledger, c: Cluster, out: seq<V.File>)
  {
    exists files, targets ::
      && ComesToSimulation(w, c, files, targets)
      && w.simulation(c, files, targets).None?
      && PassesValidation(w, l, files, targets, out)
  }

  lemma GatedIff(w: World, c: Cluster, files: seq<V.File>, targets: seq<string>)
    ensures Gated(w, c) == Simulate(files, targets) <==> ComesToSimulation(w, c, files, targets)
  {
    if Gated(w, c) == Simulate(files, targets) {
      assert LeavesStripAndHpa(w, c, if w.selfManaged then w.strip(c) else w.hpaGate(c, w.strip(c)));
    }
  }

  lemma ValidationIff(w: World, l: Ledger, files: seq<V.File>, targets: seq<string>, out: seq<V.File>)
    ensures Validation(w, l, files, targets) == Validated(out) <==> PassesValidation(w, l, files, targets, out)
  {
  }

  /** A cluster is delivered and saved with these files exactly when it comes through every gate with them. */
  lemma ClusterPassesIff(w: World, l: Ledger, c: Cluster, out: seq<V.File>)
    ensures FateOf(w, l, c) == Validated(out) <==> Passes(w, l, c, out)
  {
    match Gated(w, c)
    case Stop(fate) =>
      forall files, targets
        ensures !ComesToSimulation(w, c, files, targets)
      {
        GatedIff(w, c, files, targets);
      }
    case Simulate(files, targets) =>
      forall fs, ts
        ensures ComesToSimulation(w, c, fs, ts) <==> fs == files && ts == targets
      {
        GatedIff(w, c, fs, ts);
      }
      ValidationIff(w, l, files, targets, out);
  }

  /** The enrichment, without raising, leaves neither files nor findings. */
  ghost predicate IsSkipped(w: World, c: Cluster)
  {
    w.hasRepo && exists gated :: LeavesStripAndHpa(w, c, gated) && w.enrich(c, gated) == Enriched([], [], false)
  }

  /** It is passed over in silence exactly then. */
  lemma ClusterIsSkippedIff(w: World, l: Ledger, c: Cluster)
    ensures FateOf(w, l, c) == Skipped <==> IsSkipped(w, c)
  {
    assert forall gated :: LeavesStripAndHpa(w, c, gated) ==>
             gated == if w.selfManaged then w.strip(c) else w.hpaGate(c, w.strip(c));
    var gated := if w.selfManaged then w.strip(c) else w.hpaGate(c, w.strip(c));
    if w.strip(c) != [] && gated != [] {
      assert LeavesStripAndHpa(w, c, gated);
    }
  }

  lemma ShippedFilesPassed(w: World, l: Ledger, clusters: seq<Cluster>, i: nat, f: V.File)
    requires Ships(w, l, clusters, i, f)
    ensures SavedBy(w, LedgerAfterAll(w, l, clusters[..i]), clusters[i], f)
  {
    var l' := LedgerAfterAll(w, l, clusters[..i]);
    ClusterPassesIff(w, l', clusters[i], FateOf(w, l', clusters[i]).files);
  }

  /** The cluster comes through every gate with this file among its files. */
  ghost predicate SavedBy(w: World, l: Ledger, c: Cluster, f: V.File) { exists out :: f in out && Passes(w, l, c, out) }

  /** Over a whole run, every saved file is of the source layer or of a cluster that came through every gate
      against the store as it then was. */
  lemma SavedFilesPassedTheGates(w: World, l: Ledger, sourceLayer: seq<V.File>, clusters: seq<Cluster>, f: V.File)
    requires f in Sum(w, l, sourceLayer, clusters).byPath && f !in sourceLayer
    ensures exists i: nat :: i < |clusters| && SavedBy(w, LedgerAfterAll(w, l, clusters[..i]), clusters[i], f)
  {
    FinalFilesAreTheValidatedOnes(w, l, sourceLayer, clusters);
    assert Came(w, l, sourceLayer, clusters, f);
    var i: nat :| Ships(w, l, clusters, i, f);
    ShippedFilesPassed(w, l, clusters, i, f);
  }

  /** And the path of every file that comes through the gates is saved. */
  lemma WhatPassesIsSaved(w: World, l: Ledger, sourceLayer: seq<V.File>, clusters: seq<Cluster>, i: nat, f: V.File)
    requires i < |clusters| && SavedBy(w, LedgerAfterAll(w, l, clusters[..i]), clusters[i], f)
    ensures exists g :: g in Sum(w, l, sourceLayer, clusters).byPath && g.path == f.path
  {
    var out :| f in out && Passes(w, LedgerAfterAll(w, l, clusters[..i]), clusters[i], out);
    ClusterPassesIff(w, LedgerAfterAll(w, l, clusters[..i]), clusters[i], out);
    assert Ships(w, l, clusters, i, f);
    PathIsSaved(w, l, sourceLayer, clusters, f);
  }

  /** What the fix dispatcher brings for a category: nothing without a skill for it, or when that skill has been
      rejected twice for one reason; patching a base image is no skill and never silenced. */
  lemma DispatchIs(w: World, l: Ledger, category: string)
    ensures w.lookup(category).None? ==> Dispatch(w, l, category) == []
    ensures w.lookup(category) == Some("patch_base_image") ==> Dispatch(w, l, category) == w.generate(category)
    ensures w.lookup(category).Some? && w.lookup(category).value != "patch_base_image" ==>
              var skill := w.lookup(category).value;
              Dispatch(w, l, category) ==
              if exists key :: (skill, key) in l.rejects && l.rejects[(skill, key)] >= 2 then [] else w.generate(category)
  {
    if w.lookup(category).Some? {
      CoolingIff(l, w.lookup(category).value);
    }
  }

  // ---------------------------------------------------------------- what a cluster adds to the run

  /** Delivering these files of the cluster opens this pull request. */
  ghost predicate Opens(w: World, c: Cluster, out: seq<V.File>, url: string)
  {
    exists o :: o in w.deliver(c, out) && o.prUrl == Some(url)
  }

  ghost predicate FailsToDeliver(w: World, c: Cluster, out: seq<V.File>)
  {
    (forall o :: o in w.deliver(c, out) ==> o.prUrl.None?) && exists o :: o in w.deliver(c, out) && o.error.Some?
  }

  ghost predicate IsDeployedAlready(w: World, c: Cluster, out: seq<V.File>)
  {
    forall o :: o in w.deliver(c, out) ==> o.prUrl.None? && o.error.None?
  }

  lemma {:induction false} PrUrlsAre(outcomes: seq<Outcome>, url: string)
    ensures url in PrUrls(outcomes) <==> exists o :: o in outcomes && o.prUrl == Some(url)
    decreases |outcomes|
  {
    if outcomes != [] {
      var (rest, last) := (outcomes[..|outcomes| - 1], outcomes[|outcomes| - 1]);
      PrUrlsAre(rest, url);
      assert outcomes == rest + [last];
    }
  }

  lemma NoPrUrlsIff(outcomes: seq<Outcome>)
    ensures PrUrls(outcomes) == [] <==> forall o :: o in outcomes ==> o.prUrl.None?
  {
    if PrUrls(outcomes) != [] {
      PrUrlsAre(outcomes, PrUrls(outcomes)[0]);
    }
    if o :| o in outcomes && o.prUrl.Some? {
      PrUrlsAre(outcomes, o.prUrl.value);
    }
  }

  /** A cluster that passes adds its files and the pull requests its delivery opens; with none opened, an error
      is a refusal, and without one it is deployed already. */
  lemma PassingClusterAdds(w: World, l: Ledger, c: Cluster, out: seq<V.File>)
    requires Passes(w, l, c, out)
    ensures var s := ShareOf(w, l, c);
            && s.files == out && (forall url :: url in s.prUrls <==> Opens(w, c, out, url))
            && (s.refusals != [] <==> FailsToDeliver(w, c, out))
            && (s.sameAsDeployed <==> IsDeployedAlready(w, c, out))
  {
    ClusterPassesIff(w, l, c, out);
    NoPrUrlsIff(w.deliver(c, out));
    forall url
      ensures url in PrUrls(w.deliver(c, out)) <==> Opens(w, c, out, url)
    {
      PrUrlsAre(w.deliver(c, out), url);
    }
  }

  /** Any other adds a refusal, unless it is skipped, and nothing else. */
  lemma OtherClusterAdds(w: World, l: Ledger, c: Cluster)
    requires forall out :: !Passes(w, l, c, out)
    ensures var s := ShareOf(w, l, c);
            && s.files == [] && s.prUrls == [] && !s.sameAsDeployed
            && (s.refusals != [] <==> !IsSkipped(w, c))
  {
    ClusterIsSkippedIff(w, l, c);
    if FateOf(w, l, c).Validated? {
      ClusterPassesIff(w, l, c, FateOf(w, l, c).files);
    }
  }

  ghost predicate OpensAny(w: World, l: Ledger, c: Cluster)
  {
    exists out, url :: Passes(w, l, c, out) && Opens(w, c, out, url)
  }

  ghost predicate IsUnchanged(w: World, l: Ledger, c: Cluster)
  {
    exists out :: Passes(w, l, c, out) && IsDeployedAlready(w, c, out)
  }

  ghost predicate EndsRefused(w: World, l: Ledger, c: Cluster)
  {
    || (!IsSkipped(w, c) && forall out :: !Passes(w, l, c, out))
    || exists out :: Passes(w, l, c, out) && FailsToDeliver(w, c, out)
  }

  lemma ShareIs(w: World, l: Ledger, c: Cluster)
    ensures var s := ShareOf(w, l, c);
            && (OpensPr(s) <==> OpensAny(w, l, c))
            && (s.sameAsDeployed <==> IsUnchanged(w, l, c))
            && (IsRefused(s) <==> EndsRefused(w, l, c))
  {
    if out :| Passes(w, l, c, out) {
      PassingClusterAdds(w, l, c, out);
      OnlyOneOutcome(w, l, c, out);
      var s := ShareOf(w, l, c);
      if s.prUrls != [] {
        assert Opens(w, c, out, s.prUrls[0]);
      }
    } else {
      OtherClusterAdds(w, l, c);
    }
  }

  lemma OnlyOneOutcome(w: World, l: Ledger, c: Cluster, out: seq<V.File>)
    requires Passes(w, l, c, out)
    ensures forall other :: Passes(w, l, c, other) ==> other == out
  {
    ClusterPassesIff(w, l, c, out);
    forall other | Passes(w, l, c, other)
      ensures other == out
    {
      ClusterPassesIff(w, l, c, other);
    }
  }

  /** The store as the cluster at `i` meets it. */
  function StoreAt(w: World, l: Ledger, clusters: seq<Cluster>, i: nat): Ledger
    requires i <= |clusters|
  {
    LedgerAfterAll(w, l, clusters[..i])
  }

  /** The status of a run: delivered exactly when some cluster comes through its gates and opens a pull request;
      a failure exactly when none does or is deployed already and some cluster ends refused, and then one for
      a human's attention exactly when the wording of the refusals says so. */
  lemma RunStatusIs(w: World, l: Ledger, sourceLayer: seq<V.File>, clusters: seq<Cluster>)
    ensures var t := Sum(w, l, sourceLayer, clusters);
            var status := StatusOf(w, t);
            var failed := && (forall i: nat :: i < |clusters| ==> !OpensAny(w, StoreAt(w, l, clusters, i), clusters[i]))
                          && (forall i: nat :: i < |clusters| ==> !IsUnchanged(w, StoreAt(w, l, clusters, i), clusters[i]))
                          && (exists i: nat :: i < |clusters| && EndsRefused(w, StoreAt(w, l, clusters, i), clusters[i]));
            && (status == Delivered <==> exists i: nat :: i < |clusters| && OpensAny(w, StoreAt(w, l, clusters, i), clusters[i]))
            && (status == NeedsAttention <==> failed && w.namesAGate(t.refusals))
            && (status == DeliveryFailed <==> failed && !w.namesAGate(t.refusals))
  {
    StatusIsHonest(w, l, sourceLayer, clusters);
    var shares := SharesOf(w, l, clusters);
    forall i: nat | i < |clusters|
      ensures OpensPr(shares[i]) <==> OpensAny(w, StoreAt(w, l, clusters, i), clusters[i])
      ensures shares[i].sameAsDeployed <==> IsUnchanged(w, StoreAt(w, l, clusters, i), clusters[i])
      ensures IsRefused(shares[i]) <==> EndsRefused(w, StoreAt(w, l, clusters, i), clusters[i])
    {
      ShareIs(w, StoreAt(w, l, clusters, i), clusters[i]);
    }
  }
}
