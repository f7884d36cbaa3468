/** Skill cool-down: repeated rejects of a skill (src/agentit/portal/store/skills.py) silence the fix
    dispatcher (src/agentit/remediation/dispatcher.py), and a cluster refused by the clear-evidence
    simulation (src/agentit/portal/auto_delivery.py) records such a reject. What a silenced dispatcher
    changes about the validate/fix loop is exact. */
module CoolDown {
  import opened Options
  import opened Sequences
  import V = ValidateFix

  // ---------------------------------------------------------------- a dispatcher with less to offer

  /** `x` is `w` with a dispatcher that brings nothing for some categories. */
  ghost predicate Silences(w: V.World, x: V.World, silent: string -> bool)
  {
    && x.dryRun == w.dryRun && x.failedProperties == w.failedProperties && x.iterate == w.iterate
    && forall n, category :: x.dispatch(n, category) == if silent(category) then [] else w.dispatch(n, category)
  }

  function Heard(labels: seq<V.Label>, silent: string -> bool): seq<V.Label>
  {
    if labels == [] then []
    else
      var last := labels[|labels| - 1];
      Heard(labels[..|labels| - 1], silent) + (if silent(V.CategoryOf(last)) then [] else [last])
  }

  predicate NoneSilent(labels: seq<V.Label>, silent: string -> bool)
  {
    forall i :: 0 <= i < |labels| ==> !silent(V.CategoryOf(labels[i]))
  }

  lemma {:induction false} HeardIff(labels: seq<V.Label>, silent: string -> bool)
    ensures |Heard(labels, silent)| <= |labels|
    ensures Heard(labels, silent) == labels <==> NoneSilent(labels, silent)
    ensures |Heard(labels, silent)| == |labels| ==> NoneSilent(labels, silent)
    decreases |labels|
  {
    if labels != [] {
      var (rest, last) := (labels[..|labels| - 1], labels[|labels| - 1]);
      HeardIff(rest, silent);
      assert labels == rest + [last];
    }
  }

  lemma NoneSilentSplit(rest: seq<V.Label>, last: V.Label, silent: string -> bool)
    ensures NoneSilent(rest + [last], silent) <==> NoneSilent(rest, silent) && !silent(V.CategoryOf(last))
  {
    assert (rest + [last])[|rest|] == last;
    assert forall i :: 0 <= i < |rest| ==> (rest + [last])[i] == rest[i];
  }

  /** The same labels are dispatched; the fixes brought are the heard ones. */
  lemma {:induction false} FixAllSilenced(w: V.World, x: V.World, silent: string -> bool, files: seq<V.File>,
                                          labels: seq<V.Label>, calls: nat)
    requires Silences(w, x, silent)
    ensures var (a, b) := (V.FixAll(w, files, labels, calls), V.FixAll(x, files, labels, calls));
            b.1 == Heard(a.1, silent) && b.2 == a.2 && (NoneSilent(a.1, silent) ==> b == a)
    decreases |labels|
  {
    if labels != [] {
      var (rest, last) := (labels[..|labels| - 1], labels[|labels| - 1]);
      FixAllSilenced(w, x, silent, files, rest, calls);
      var a := V.FixAll(w, files, rest, calls);
      assert (a.1 + [last])[..|a.1|] == a.1;
      NoneSilentSplit(a.1, last, silent);
      HeardIff(a.1, silent);
    }
  }

  predicate AllForProperties(labels: seq<V.Label>) { forall i :: 0 <= i < |labels| ==> labels[i].ForProperty? }

  predicate AllForPlaceholders(labels: seq<V.Label>) { forall i :: 0 <= i < |labels| ==> labels[i].ForPlaceholder? }

  lemma {:induction false} FixedAreAmongLabels(w: V.World, files: seq<V.File>, labels: seq<V.Label>, calls: nat)
    ensures AllForProperties(labels) ==> AllForProperties(V.FixAll(w, files, labels, calls).1)
    ensures AllForPlaceholders(labels) ==> AllForPlaceholders(V.FixAll(w, files, labels, calls).1)
    decreases |labels|
  {
    if labels != [] {
      FixedAreAmongLabels(w, files, labels[..|labels| - 1], calls);
    }
  }

  function Properties(labels: seq<V.Label>): nat
  {
    if labels == [] then 0
    else Properties(labels[..|labels| - 1]) + (if labels[|labels| - 1].ForProperty? then 1 else 0)
  }

  lemma {:induction false} PropertiesAre(a: seq<V.Label>, b: seq<V.Label>)
    requires AllForProperties(a) && AllForPlaceholders(b)
    ensures Properties(a + b) == |a|
    decreases |a| + |b|
  {
    if b != [] {
      assert (a + b)[..|a + b| - 1] == a + b[..|b| - 1];
      PropertiesAre(a, b[..|b| - 1]);
    } else if a != [] {
      assert (a + b)[..|a + b| - 1] == a[..|a| - 1] + [];
      PropertiesAre(a[..|a| - 1], []);
    }
  }

  lemma SplitByKind(a: seq<V.Label>, b: seq<V.Label>, c: seq<V.Label>, d: seq<V.Label>)
    requires AllForProperties(a) && AllForProperties(c) && AllForPlaceholders(b) && AllForPlaceholders(d)
    requires a + b == c + d
    ensures a == c && b == d
  {
    PropertiesAre(a, b);
    PropertiesAre(c, d);
    assert a == (a + b)[..|a|] && c == (c + d)[..|c|] && b == (a + b)[|a|..] && d == (c + d)[|c|..];
  }

  lemma NoneSilentConcat(a: seq<V.Label>, b: seq<V.Label>, silent: string -> bool)
    ensures NoneSilent(a + b, silent) <==> NoneSilent(a, silent) && NoneSilent(b, silent)
  {
    var all := a + b;
    if NoneSilent(all, silent) {
      assert forall i :: 0 <= i < |a| ==> all[i] == a[i];
      assert forall i :: 0 <= i < |b| ==> all[|a| + i] == b[i];
    }
  }

  /** One pass of fixes is the same exactly when no fix it brings comes from a silenced category. */
  lemma FixPassSilenced(w: V.World, x: V.World, silent: string -> bool, files: seq<V.File>, failed: seq<V.Property>,
                        placeholders: set<string>, calls: nat)
    requires Silences(w, x, silent)
    ensures var (a, b) := (V.FixPass(w, files, failed, placeholders, calls), V.FixPass(x, files, failed, placeholders, calls));
            && (NoneSilent(a.1, silent) ==> a == b)
            && (a.1 == b.1 ==> NoneSilent(a.1, silent))
  {
    var labels := V.PropertyLabels(failed);
    var (a1, b1) := (V.FixAll(w, files, labels, calls), V.FixAll(x, files, labels, calls));
    FixAllSilenced(w, x, silent, files, labels, calls);
    HeardIff(a1.1, silent);
    if placeholders != {} {
      var (la, lb) := (V.PlaceholderLabels(w, a1.0, placeholders), V.PlaceholderLabels(x, b1.0, placeholders));
      var (a2, b2) := (V.FixAll(w, a1.0, la, a1.2), V.FixAll(x, b1.0, lb, b1.2));
      FixedAreAmongLabels(w, files, labels, calls);
      FixedAreAmongLabels(x, files, labels, calls);
      FixedAreAmongLabels(w, a1.0, la, a1.2);
      FixedAreAmongLabels(x, b1.0, lb, b1.2);
      TwoStages(w, x, silent, a1, b1, placeholders);
      NoneSilentConcat(a1.1, a2.1, silent);
      if a1.1 + a2.1 == b1.1 + b2.1 {
        SplitByKind(a1.1, a2.1, b1.1, b2.1);
      }
    }
  }

  lemma TwoStages(w: V.World, x: V.World, silent: string -> bool, a: (seq<V.File>, seq<V.Label>, nat),
                  b: (seq<V.File>, seq<V.Label>, nat), placeholders: set<string>)
    requires Silences(w, x, silent)
    ensures a == b ==>
              var a2 := V.FixAll(w, a.0, V.PlaceholderLabels(w, a.0, placeholders), a.2);
              var b2 := V.FixAll(x, b.0, V.PlaceholderLabels(x, b.0, placeholders), b.2);
              (NoneSilent(a2.1, silent) ==> a2 == b2) && (a2.1 == b2.1 ==> NoneSilent(a2.1, silent))
  {
    if a == b {
      var labels := V.PlaceholderLabels(w, a.0, placeholders);
      assert labels == V.PlaceholderLabels(x, a.0, placeholders);
      FixAllSilenced(w, x, silent, a.0, labels, a.2);
      HeardIff(V.FixAll(w, a.0, labels, a.2).1, silent);
    }
  }

  lemma PassSilenced(w: V.World, x: V.World, silent: string -> bool, scope: V.Scope, l: V.Loop)
    requires Silences(w, x, silent)
    ensures var (a, b) := (V.PassOnce(w, scope, l), V.PassOnce(x, scope, l));
            && (NoneSilent(V.Last(a).fixed, silent) ==> a == b)
            && (V.Last(a) == V.Last(b) ==> NoneSilent(V.Last(a).fixed, silent))
  {
    var d := w.dryRun(l.files);
    var kept := V.Kept(l.files, d);
    var failed := V.Relevant(w.failedProperties(kept), scope);
    FixPassSilenced(w, x, silent, kept, failed, d.placeholders, l.calls);
  }

  /** No pass from `from` on used a fix from a silenced category. */
  predicate UsesNone(passes: seq<V.Pass>, from: nat, silent: string -> bool)
  {
    forall i :: from <= i < |passes| ==> NoneSilent(passes[i].fixed, silent)
  }

  lemma NextPassIsKept(w: V.World, scope: V.Scope, l: V.Loop, left: nat)
    requires left > 0
    ensures var (n, v) := (|l.passes|, V.Iterate(w, scope, l, left));
            n < |v.passes| && v.passes[n] == V.Last(V.PassOnce(w, scope, l))
  {
    V.IterateOnce(w, scope, l, left);
    var l' := V.PassOnce(w, scope, l);
    var passes := V.Iterate(w, scope, l', left - 1).passes;
    assert passes[|l.passes|] == l'.passes[|l.passes|];
  }

  lemma UsesNoneFrom(passes: seq<V.Pass>, n: nat, silent: string -> bool)
    requires n < |passes|
    ensures UsesNone(passes, n, silent) <==> NoneSilent(passes[n].fixed, silent) && UsesNone(passes, n + 1, silent)
  {
  }

  lemma PassesDiffer(w: V.World, x: V.World, silent: string -> bool, scope: V.Scope, l: V.Loop, left: nat)
    requires Silences(w, x, silent) && left > 0 && V.PassOnce(w, scope, l) != V.PassOnce(x, scope, l)
    ensures V.Iterate(x, scope, l, left) != V.Iterate(w, scope, l, left)
    ensures !UsesNone(V.Iterate(w, scope, l, left).passes, |l.passes|, silent)
  {
    PassSilenced(w, x, silent, scope, l);
    NextPassIsKept(w, scope, l, left);
    NextPassIsKept(x, scope, l, left);
    UsesNoneFrom(V.Iterate(w, scope, l, left).passes, |l.passes|, silent);
  }

  lemma SamePassSilenced(w: V.World, x: V.World, silent: string -> bool, scope: V.Scope, l: V.Loop, left: nat)
    requires Silences(w, x, silent) && left > 0
    requires V.PassOnce(w, scope, l) == V.PassOnce(x, scope, l)
    requires var a := V.PassOnce(w, scope, l);
             V.Fine(V.Last(a)) || V.Last(a).fixed == [] || Alike(w, x, silent, scope, a, left - 1)
    ensures Alike(w, x, silent, scope, l, left)
  {
    PassSilenced(w, x, silent, scope, l);
    NextPassIsKept(w, scope, l, left);
    UsesNoneFrom(V.Iterate(w, scope, l, left).passes, |l.passes|, silent);
    V.IterateOnce(w, scope, l, left);
    V.IterateOnce(x, scope, l, left);
  }

  ghost predicate Alike(w: V.World, x: V.World, silent: string -> bool, scope: V.Scope, l: V.Loop, left: nat)
  {
    V.Iterate(x, scope, l, left) == V.Iterate(w, scope, l, left) <==>
    UsesNone(V.Iterate(w, scope, l, left).passes, |l.passes|, silent)
  }

  lemma {:induction false} LoopSilenced(w: V.World, x: V.World, silent: string -> bool, scope: V.Scope, l: V.Loop,
          left: nat)
    requires Silences(w, x, silent)
    ensures Alike(w, x, silent, scope, l, left)
    decreases left
  {
    if left > 0 {
      var a := V.PassOnce(w, scope, l);
      if a != V.PassOnce(x, scope, l) {
        PassesDiffer(w, x, silent, scope, l, left);
      } else {
        if !V.Fine(V.Last(a)) && V.Last(a).fixed != [] {
          LoopSilenced(w, x, silent, scope, a, left - 1);
        }
        SamePassSilenced(w, x, silent, scope, l, left);
      }
    }
  }

  /** The loop comes to the same verdict, pass by pass, exactly when no fix it used comes from a
      category the dispatcher is now silent about. */
  lemma ValidateSilencedIff(w: V.World, x: V.World, silent: string -> bool, scope: V.Scope, files: seq<V.File>,
                            maxIterations: int)
    requires Silences(w, x, silent)
    ensures V.Validate(x, scope, files, maxIterations) == V.Validate(w, scope, files, maxIterations) <==>
            UsesNone(V.Validate(w, scope, files, maxIterations).passes, 0, silent)
  {
    LoopSilenced(w, x, silent, scope, V.Loop(files, [], [], [], 0), V.Passes(maxIterations));
  }

  // ---------------------------------------------------------------- counting rejects

  const COOLDOWN_SAME_REASON := 2

  /** `rejects` counts a skill's rejects per reason key since a human last cleared it; `recorded` are
      the pairs the current run has recorded already. */
  datatype Ledger = Ledger(rejects: map<(string, string), nat>, recorded: set<(string, string)>)

  function Count(rejects: map<(string, string), nat>, skill: string, key: string): nat
  {
    if (skill, key) in rejects then rejects[(skill, key)] else 0
  }

  /** `is_skill_cooling_down`: enough rejects of the skill share a reason key. */
  predicate Cooling(l: Ledger, skill: string)
  {
    exists k :: k in l.rejects && k.0 == skill && l.rejects[k] >= COOLDOWN_SAME_REASON
  }

  lemma CoolingIff(l: Ledger, skill: string)
    ensures Cooling(l, skill) <==> exists key :: Count(l.rejects, skill, key) >= COOLDOWN_SAME_REASON
    ensures Cooling(l, skill) <==> exists key :: (skill, key) in l.rejects && l.rejects[(skill, key)] >= 2
  {
    if Cooling(l, skill) {
      var k :| k in l.rejects && k.0 == skill && l.rejects[k] >= COOLDOWN_SAME_REASON;
      assert Count(l.rejects, skill, k.1) >= COOLDOWN_SAME_REASON;
    }
    if key :| Count(l.rejects, skill, key) >= COOLDOWN_SAME_REASON {
      assert (skill, key) in l.rejects && (skill, key).0 == skill;
    }
  }

  /** The skills of the finding categories, without repetition. */
  function SkillNames(lookup: string -> Option<string>, categories: seq<string>): seq<string>
  {
    if categories == [] then []
    else
      var before := SkillNames(lookup, categories[..|categories| - 1]);
      var hit := lookup(categories[|categories| - 1]);
      if hit.Some? && hit.value !in before then before + [hit.value] else before
  }

  function Pending(recorded: set<(string, string)>, names: seq<string>, key: string): seq<string>
  {
    if names == [] then []
    else
      var last := names[|names| - 1];
      Pending(recorded, names[..|names| - 1], key) + (if (last, key) in recorded then [] else [last])
  }

  /** One more reject for each name; `accepts` is whether the store takes the row. */
  function Bumped(rejects: map<(string, string), nat>, names: seq<string>, key: string, accepts: (string,
          string) -> bool)
    : map<(string, string), nat>
  {
    if names == [] then rejects
    else
      var (before, last) := (Bumped(rejects, names[..|names| - 1], key, accepts), names[|names| - 1]);
      if accepts(last, key) then before[(last, key) := Count(before, last, key) + 1] else before
  }

  function Recorded(l: Ledger, names: seq<string>, key: string, accepts: (string, string) -> bool): Ledger
  {
    var pending := Pending(l.recorded, names, key);
    Ledger(Bumped(l.rejects, pending, key, accepts), l.recorded + set n | n in pending :: (n, key))
  }

  method RecordRejects(l: Ledger, names: seq<string>, key: string, accepts: (string,
          string) -> bool) returns (l': Ledger)
    ensures l' == Recorded(l, names, key, accepts)
  {
    var pending := [];
    for i := 0 to |names|
      invariant pending == Pending(l.recorded, names[..i], key)
    {
      assert names[..i + 1][..i] == names[..i];
      if (names[i], key) !in l.recorded {
        pending := pending + [names[i]];
      }
    }
    assert names[..|names|] == names;
    var recorded, rejects := l.recorded, l.rejects;
    for i := 0 to |pending|
      invariant recorded == l.recorded + set n | n in pending[..i] :: (n, key)
      invariant rejects == Bumped(l.rejects, pending[..i], key, accepts)
    {
      assert pending[..i + 1] == pending[..i] + [pending[i]] && pending[..i + 1][..i] == pending[..i];
      recorded := recorded + {(pending[i], key)};
      if accepts(pending[i], key) {
        rejects := rejects[(pending[i], key) := Count(rejects, pending[i], key) + 1];
      }
    }
    assert pending[..|pending|] == pending;
    l' := Ledger(rejects, recorded);
  }

  lemma {:induction false} SkillNamesAre(lookup: string -> Option<string>, categories: seq<string>, skill: string)
    ensures skill in SkillNames(lookup, categories) <==> exists c :: c in categories && lookup(c) == Some(skill)
    ensures Distinct(SkillNames(lookup, categories))
    decreases |categories|
  {
    if categories != [] {
      var (rest, last) := (categories[..|categories| - 1], categories[|categories| - 1]);
      SkillNamesAre(lookup, rest, skill);
      assert categories == rest + [last];
      assert forall c :: c in categories <==> c in rest || c == last;
    }
  }

  lemma {:induction false} PendingIs(recorded: set<(string, string)>, names: seq<string>, key: string)
    ensures forall n :: n in Pending(recorded, names, key) <==> n in names && (n, key) !in recorded
    ensures Distinct(names) ==> Distinct(Pending(recorded, names, key))
    decreases |names|
  {
    if names != [] {
      PendingIs(recorded, names[..|names| - 1], key);
      assert names == names[..|names| - 1] + [names[|names| - 1]];
    }
  }

  lemma {:induction false} BumpedCounts(rejects: map<(string, string), nat>, names: seq<string>, key: string,
                                        accepts: (string, string) -> bool, s: string, k: string)
    requires Distinct(names)
    ensures Count(Bumped(rejects, names, key, accepts), s, k) ==
            Count(rejects, s, k) + (if k == key && s in names && accepts(s, k) then 1 else 0)
    decreases |names|
  {
    if names != [] {
      var (rest, last) := (names[..|names| - 1], names[|names| - 1]);
      BumpedCounts(rejects, rest, key, accepts, s, k);
      assert names == rest + [last];
    }
  }

  /** A rejection adds one reject to each of its skills that this run has not recorded for that reason
      yet, and marks it recorded, taken by the store or not. */
  lemma RecordedCounts(l: Ledger, names: seq<string>, key: string, accepts: (string, string) -> bool, s: string,
          k: string)
    requires Distinct(names)
    ensures var l' := Recorded(l, names, key, accepts);
            && ((s, k) in l'.recorded <==> (s, k) in l.recorded || (k == key && s in names))
            && Count(l'.rejects, s, k) ==
               Count(l.rejects, s, k) + (if k == key && s in names && (s, k) !in l.recorded && accepts(s, k) then 1 else 0)
  {
    PendingIs(l.recorded, names, key);
    BumpedCounts(l.rejects, Pending(l.recorded, names, key), key, accepts, s, k);
  }

  /** From an empty store, the refusal of one run leaves a skill available, however often that run repeats it;
      the same refusal in a second run cools it down. */
  lemma SecondRunCools(skill: string, key: string, taken: (string, string) -> bool)
    requires taken(skill, key)
    ensures var once := Recorded(Ledger(map[], {}), [skill], key, taken);
            && !Cooling(once, skill) && Recorded(once, [skill], key, taken) == once
            && Cooling(Recorded(Ledger(once.rejects, {}), [skill], key, taken), skill)
  {
    var once := Recorded(Ledger(map[], {}), [skill], key, taken);
    FirstReject(skill, key, map[], taken);
    assert once == Ledger(map[(skill, key) := 1], {(skill, key)});
    FirstReject(skill, key, once.rejects, taken);
    var twice := Recorded(Ledger(once.rejects, {}), [skill], key, taken);
    assert twice.rejects[(skill, key)] == 2;
    NothingPending(once, skill, key, taken);
    CoolingIff(once, skill);
    CoolingIff(twice, skill);
  }

  lemma NothingPending(l: Ledger, skill: string, key: string, taken: (string, string) -> bool)
    requires (skill, key) in l.recorded
    ensures Recorded(l, [skill], key, taken) == l
  {
    assert [skill][..0] == [] && Pending(l.recorded, [skill], key) == [];
    assert l.recorded + (set n | n in [] :: (n, key)) == l.recorded;
  }

  function OneMore(rejects: map<(string, string), nat>, skill: string, key: string): map<(string, string), nat>
  {
    rejects[(skill, key) := (if (skill, key) in rejects then rejects[(skill, key)] else 0) + 1]
  }

  lemma BumpedOnce(rejects: map<(string, string), nat>, skill: string, key: string, taken: (string, string) -> bool)
    requires taken(skill, key)
    ensures Bumped(rejects, [skill], key, taken) == OneMore(rejects, skill, key)
  {
    assert Bumped(rejects, [skill][..0], key, taken) == rejects;
  }

  lemma PendingAlone(skill: string, key: string)
    ensures Pending({}, [skill], key) == [skill]
  {
    assert Pending({}, [skill][..0], key) == [];
  }

  lemma FirstReject(skill: string, key: string, rejects: map<(string, string), nat>, taken: (string, string) -> bool)
    requires taken(skill, key)
    ensures Recorded(Ledger(rejects, {}), [skill], key, taken) == Ledger(OneMore(rejects, skill, key), {(skill, key)})
  {
    PendingAlone(skill, key);
    BumpedOnce(rejects, skill, key, taken);
    assert {} + (set n | n in [skill] :: (n, key)) == {(skill, key)};
  }
}
