/** Which failing properties count against a batch (`_category_is_in_scope` and the table of fix categories,
    src/agentit/portal/auto_delivery.py), said of the texts themselves. */
module PropertyScope {
  import opened Options
  import opened ValidateFix

  /** `part` stands at `i`. */
  predicate StandsAt(part: string, text: string, i: int)
  {
    0 <= i && i + |part| <= |text| && text[i..i + |part|] == part
  }

  /** `part` stands somewhere in `text`. */
  ghost predicate Within(part: string, text: string) { exists i :: StandsAt(part, text, i) }

  lemma {:induction false} ContainsIff(text: string, part: string)
    ensures Contains(text, part) <==> Within(part, text)
    decreases |text|
  {
    if part <= text {
      assert StandsAt(part, text, 0);
    } else if text != "" {
      ContainsIff(text[1..], part);
      WithinTheRest(text, part);
    }
  }

  lemma WithinTheRest(text: string, part: string)
    requires text != "" && !(part <= text)
    ensures Within(part, text) <==> Within(part, text[1..])
  {
    if i :| StandsAt(part, text, i) {
      assert i > 0;
      assert StandsAt(part, text[1..], i - 1);
    }
    if i :| StandsAt(part, text[1..], i) {
      assert StandsAt(part, text, i + 1);
    }
  }

  /** The property is fixed under this category. */
  predicate IsFixedUnder(p: Property, category: string)
  {
    || (p == NetworkIsolation && category == "network")
    || (p == Rbac && category == "rbac")
    || (p == Autoscaling && category == "autoscaling")
    || (p == Monitoring && category == "monitoring")
    || (p == HealthProbes && category == "health")
  }

  /** The findings the batch is held to: its own, or else the report's. */
  function Given(scope: Scope): seq<string>
  {
    match scope.target
    case Some(categories) => categories
    case None => if scope.report.Some? then scope.report.value else []
  }

  /** One of those findings is in a category that contains the property's, or is contained in it. */
  ghost predicate IsAskedFor(scope: Scope, p: Property)
  {
    exists own, c :: IsFixedUnder(p, own) && c in Given(scope) && (Within(own, c) || Within(c, own))
  }

  lemma InScopeIff(scope: Scope, p: Property)
    ensures InScope(scope, FixCategory(p)) <==> IsAskedFor(scope, p)
  {
    assert forall own :: IsFixedUnder(p, own) <==> own == FixCategory(p);
    forall c
      ensures Contains(c, FixCategory(p)) <==> Within(FixCategory(p), c)
      ensures Contains(FixCategory(p), c) <==> Within(c, FixCategory(p))
    {
      ContainsIff(c, FixCategory(p));
      ContainsIff(FixCategory(p), c);
    }
  }

  lemma {:induction false} RelevantAre(failed: seq<Property>, scope: Scope, p: Property)
    ensures p in Relevant(failed, scope) <==> p in failed && IsAskedFor(scope, p)
    decreases |failed|
  {
    if failed != [] {
      var (rest, last) := (failed[..|failed| - 1], failed[|failed| - 1]);
      RelevantAre(rest, scope, p);
      InScopeIff(scope, last);
      assert failed == rest + [last];
    }
  }

  /** What a clean verdict returns fails no property its findings ask for. */
  lemma CleanFailsNothingAskedFor(w: World, scope: Scope, files: seq<File>, maxIterations: int, p: Property)
    requires Validate(w, scope, files, maxIterations).clean && IsAskedFor(scope, p)
    ensures p !in w.failedProperties(Validate(w, scope, files, maxIterations).files)
  {
    var last := CleanComesFromAFinePass(w, scope, Loop(files, [], [], [], 0), Passes(maxIterations));
    RelevantAre(w.failedProperties(PassOnce(w, scope, last).files), scope, p);
  }

  /** A batch is clean at once exactly when nothing is refused hard and, once the soft skips are dropped, no
      property that fails is asked for. */
  lemma CleanAtOnceIffNothingAskedForFails(w: World, scope: Scope, files: seq<File>, maxIterations: int)
    requires maxIterations >= 1
    ensures var (v, d) := (Validate(w, scope, files, maxIterations), w.dryRun(files));
            v.clean && |v.passes| == 1 <==>
            d.hard == [] && forall p :: p in w.failedProperties(Drop(files, d.skipped)) ==> !IsAskedFor(scope, p)
  {
    var d := w.dryRun(files);
    if d.skipped == [] {
      DropNothing(files, d.skipped);
    }
    CleanAtOnceIff(w, scope, files, maxIterations);
    var failed := w.failedProperties(Kept(files, d));
    forall p
      ensures p in Relevant(failed, scope) <==> p in failed && IsAskedFor(scope, p)
    {
      RelevantAre(failed, scope, p);
    }
    if Relevant(failed, scope) != [] {
      assert Relevant(failed, scope)[0] in Relevant(failed, scope);
    }
  }

  lemma {:induction false} DropNothing(files: seq<File>, paths: seq<string>)
    requires paths == []
    ensures Drop(files, paths) == files
    decreases |files|
  {
    if files != [] {
      DropNothing(files[..|files| - 1], paths);
    }
  }

  /** A batch for a "scaling" finding is held to the autoscaling property: while that fails, it is not clean. */
  lemma ScalingAsksForAutoscaling(w: World, report: Option<seq<string>>, files: seq<File>, maxIterations: int)
    requires forall batch :: w.failedProperties(batch) == [Autoscaling]
    ensures !Validate(w, Scope(Some(["scaling"]), report), files, maxIterations).clean
  {
    var scope := Scope(Some(["scaling"]), report);
    assert StandsAt("scaling", "autoscaling", 4);
    assert IsFixedUnder(Autoscaling, "autoscaling") && "scaling" in Given(scope) && Within("scaling", "autoscaling");
    assert IsAskedFor(scope, Autoscaling);
    if Validate(w, scope, files, maxIterations).clean {
      CleanFailsNothingAskedFor(w, scope, files, maxIterations, Autoscaling);
    }
  }

  // ---------------------------------------------------------------- what one pass fixes

  /** The dispatcher's answer depends on the category alone, and sets are walked in full. */
  ghost predicate Steady(w: World)
  {
    && (forall n, m, c :: w.dispatch(n, c) == w.dispatch(m, c))
    && (forall categories, c :: c in w.iterate(categories) <==> c in categories)
  }

  /** Each label is dispatched once, and is listed exactly when that brought something. */
  lemma {:induction false} FixedAre(w: World, files: seq<File>, labels: seq<Label>, calls: nat, tag: Label)
    requires Steady(w)
    ensures var done := FixAll(w, files, labels, calls);
            done.2 == calls + |labels| && (tag in done.1 <==> tag in labels && w.dispatch(0, CategoryOf(tag)) != [])
    decreases |labels|
  {
    if labels != [] {
      var (rest, last) := (labels[..|labels| - 1], labels[|labels| - 1]);
      FixedAre(w, files, rest, calls, tag);
      assert labels == rest + [last];
      assert w.dispatch(FixAll(w, files, rest, calls).2, CategoryOf(last)) == w.dispatch(0, CategoryOf(last));
    }
  }

  /** The files once the properties in scope that fail have been fixed. */
  function AfterProperties(w: World, scope: Scope, l: Loop): seq<File>
  {
    var kept := Kept(l.files, w.dryRun(l.files));
    FixAll(w, kept, PropertyLabels(Relevant(w.failedProperties(kept), scope)), l.calls).0
  }

  lemma PropertyLabelsAre(failed: seq<Property>, tag: Label)
    ensures tag in PropertyLabels(failed) <==> tag.ForProperty? && tag.property in failed
  {
    if tag.ForProperty? && tag.property in failed {
      var i :| 0 <= i < |failed| && failed[i] == tag.property;
      assert PropertyLabels(failed)[i] == tag;
    }
  }

  lemma PlaceholderLabelsAre(w: World, files: seq<File>, placeholders: set<string>, tag: Label)
    requires Steady(w)
    ensures tag in PlaceholderLabels(w, files, placeholders) <==>
            tag.ForPlaceholder? && exists f :: f in files && f.path in placeholders && f.category == tag.category
  {
    var order := w.iterate(set f | f in files && f.path in placeholders :: f.category);
    if tag.ForPlaceholder? && tag.category in order {
      var i :| 0 <= i < |order| && order[i] == tag.category;
      assert PlaceholderLabels(w, files, placeholders)[i] == tag;
    }
  }

  /** A pass that is not fine fixes the failing properties that are asked for, under their categories, and then
      the categories of the files it then has at paths an unresolved placeholder blocks, as far as the
      dispatcher has something. */
  lemma PassFixes(w: World, scope: Scope, l: Loop, tag: Label)
    requires Steady(w) && !Fine(Last(PassOnce(w, scope, l)))
    ensures var (d, failed) := (w.dryRun(l.files), w.failedProperties(Kept(l.files, w.dryRun(l.files))));
            tag in Last(PassOnce(w, scope, l)).fixed <==>
            match tag
            case ForProperty(p) =>
              p in failed && IsAskedFor(scope, p) && exists own :: IsFixedUnder(p, own) && w.dispatch(0, own) != []
            case ForPlaceholder(category) =>
              && (exists f :: f in AfterProperties(w, scope, l) && f.path in d.placeholders && f.category == category)
              && w.dispatch(0, category) != []
  {
    var d := w.dryRun(l.files);
    var kept := Kept(l.files, d);
    var failed := Relevant(w.failedProperties(kept), scope);
    var first := FixAll(w, kept, PropertyLabels(failed), l.calls);
    FixedAre(w, kept, PropertyLabels(failed), l.calls, tag);
    PropertyLabelsAre(failed, tag);
    FixedAre(w, first.0, PlaceholderLabels(w, first.0, d.placeholders), first.2, tag);
    PlaceholderLabelsAre(w, first.0, d.placeholders, tag);
    FixPassIs(w, kept, failed, d.placeholders, l.calls, tag);
    if tag.ForProperty? {
      RelevantAre(w.failedProperties(kept), scope, tag.property);
      assert IsFixedUnder(tag.property, CategoryOf(tag));
    }
  }

  lemma FixPassIs(w: World, kept: seq<File>, failed: seq<Property>, placeholders: set<string>, calls: nat, tag: Label)
    ensures var first := FixAll(w, kept, PropertyLabels(failed), calls);
            var second := FixAll(w, first.0, PlaceholderLabels(w, first.0, placeholders), first.2);
            tag in FixPass(w, kept, failed, placeholders, calls).1 <==>
            tag in first.1 || (placeholders != {} && tag in second.1)
  {
  }
}
