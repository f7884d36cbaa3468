/** Which skills run for a report: `SkillEngine.match`, `skill_for_category` and
    `_resolve_conflicts` (src/agentit/skill_engine.py).

    The remediation registry and the trigger searches are functions of a `Registry`. */
module SkillMatch {
  import opened Options
  import opened Sequences

  datatype Status = Active | Deprecated | Retired | Draft

  datatype Skill = Skill(name: string, version: int, status: Status, detect: bool, conflictsWith: seq<string>)

  // ---------------------------------------------------------------- resolving conflicts

  function ByName(skills: seq<Skill>): map<string, Skill>
  {
    if skills == [] then map[]
    else ByName(skills[..|skills| - 1])[skills[|skills| - 1].name := skills[|skills| - 1]]
  }

  /** Who goes when `skill` lists `other` as a conflict. */
  function Loser(skill: Skill, other: Skill): Skill
  {
    if skill.status == Active && other.status == Deprecated then other
    else if skill.status == Deprecated && other.status == Active then skill
    else if skill.version >= other.version then other
    else skill
  }

  function LosersOf(skill: Skill, names: seq<string>, byName: map<string, Skill>): set<string>
  {
    set c | c in names && c in byName :: Loser(skill, byName[c]).name
  }

  function Removed(skills: seq<Skill>, byName: map<string, Skill>): set<string>
  {
    set s, n | s in skills && n in LosersOf(s, s.conflictsWith, byName) :: n
  }

  function Without(skills: seq<Skill>, removed: set<string>): seq<Skill>
  {
    if skills == [] then []
    else Without(skills[..|skills| - 1], removed) + (if skills[|skills| - 1].name in removed then [] else [skills[|skills| - 1]])
  }

  function Resolved(skills: seq<Skill>): seq<Skill>
  {
    Without(skills, Removed(skills, ByName(skills)))
  }

  method ResolveConflicts(skills: seq<Skill>) returns (survivors: seq<Skill>)
    ensures survivors == Resolved(skills)
  {
    var byName: map<string, Skill> := map[];
    for i := 0 to |skills|
      invariant byName == ByName(skills[..i])
    {
      assert skills[..i + 1][..i] == skills[..i];
      byName := byName[skills[i].name := skills[i]];
    }
    assert skills[..|skills|] == skills;
    var toRemove := CollectLosers(skills, byName);
    survivors := [];
    for i := 0 to |skills|
      invariant survivors == Without(skills[..i], toRemove)
    {
      assert skills[..i + 1][..i] == skills[..i];
      if skills[i].name !in toRemove {
        survivors := survivors + [skills[i]];
      }
    }
  }

  method CollectLosers(skills: seq<Skill>, byName: map<string, Skill>) returns (toRemove: set<string>)
    ensures toRemove == Removed(skills, byName)
  {
    toRemove := {};
    for i := 0 to |skills|
      invariant toRemove == Removed(skills[..i], byName)
    {
      var skill := skills[i];
      ghost var before := toRemove;
      for k := 0 to |skill.conflictsWith|
        invariant toRemove == before + LosersOf(skill, skill.conflictsWith[..k], byName)
      {
        var conflictName := skill.conflictsWith[k];
        assert skill.conflictsWith[..k + 1] == skill.conflictsWith[..k] + [conflictName];
        if conflictName !in byName {
          continue;
        }
        toRemove := toRemove + {Loser(skill, byName[conflictName]).name};
      }
      assert skill.conflictsWith[..|skill.conflictsWith|] == skill.conflictsWith;
      RemovedSnoc(skills[..i], skill, byName);
      assert skills[..i + 1] == skills[..i] + [skill];
    }
    assert skills[..|skills|] == skills;
  }

  lemma RemovedSnoc(skills: seq<Skill>, s: Skill, byName: map<string, Skill>)
    ensures Removed(skills + [s], byName) == Removed(skills, byName) + LosersOf(s, s.conflictsWith, byName)
  {
  }

  lemma {:induction false} WithoutIs(skills: seq<Skill>, removed: set<string>)
    ensures forall s :: s in Without(skills, removed) <==> s in skills && s.name !in removed
    decreases |skills|
  {
    if skills != [] {
      WithoutIs(skills[..|skills| - 1], removed);
      assert skills == skills[..|skills| - 1] + [skills[|skills| - 1]];
    }
  }

  lemma {:induction false} ByNameIs(skills: seq<Skill>)
    ensures forall n :: n in ByName(skills) <==> exists s :: s in skills && s.name == n
    ensures forall n :: n in ByName(skills) ==> ByName(skills)[n] in skills && ByName(skills)[n].name == n
    decreases |skills|
  {
    if skills != [] {
      ByNameIs(skills[..|skills| - 1]);
      assert skills == skills[..|skills| - 1] + [skills[|skills| - 1]];
    }
  }

  lemma ConflictRemovesOne(skills: seq<Skill>, a: Skill, b: Skill)
    requires a in skills && b in skills && b.name in a.conflictsWith
    ensures var removed := Removed(skills, ByName(skills)); a.name in removed || b.name in removed
  {
    var byName := ByName(skills);
    ByNameIs(skills);
    assert Loser(a, byName[b.name]).name in LosersOf(a, a.conflictsWith, byName);
  }

  /** No survivor lists a survivor as a conflict, itself included. */
  lemma SurvivorsDoNotConflict(skills: seq<Skill>, a: Skill, b: Skill)
    requires a in Resolved(skills) && b in Resolved(skills)
    ensures b.name !in a.conflictsWith
  {
    WithoutIs(skills, Removed(skills, ByName(skills)));
    if b.name in a.conflictsWith {
      ConflictRemovesOne(skills, a, b);
    }
  }

  ghost predicate DistinctNames(skills: seq<Skill>)
  {
    forall s, t :: s in skills && t in skills && s.name == t.name ==> s == t
  }

  /** Strictly outranks: active over deprecated, then the higher version. */
  predicate Outranks(a: Skill, b: Skill)
  {
    if a.status == Active && b.status == Deprecated then true
    else if a.status == Deprecated && b.status == Active then false
    else a.version > b.version
  }

  /** `s` loses to `t`: `s` lists `t` and is outranked, or is listed by `t` and does not outrank it. */
  predicate LosesTo(s: Skill, t: Skill)
  {
    || (t.name in s.conflictsWith && (Outranks(t, s) || s == t))
    || (s.name in t.conflictsWith && !Outranks(s, t))
  }

  lemma LoserIs(a: Skill, b: Skill)
    requires a.name == b.name ==> a == b
    ensures Loser(a, b).name == a.name <==> Outranks(b, a) || a == b
    ensures Loser(a, b).name == b.name <==> !Outranks(b, a)
  {
  }

  /** Exactly who survives: those that lose to nobody. */
  lemma SurvivesIff(skills: seq<Skill>, s: Skill)
    requires DistinctNames(skills) && s in skills
    ensures s in Resolved(skills) <==> forall t :: t in skills ==> !LosesTo(s, t)
  {
    var byName := ByName(skills);
    var removed := Removed(skills, byName);
    WithoutIs(skills, removed);
    ByNameIs(skills);
    if s.name in removed {
      var a, n :| a in skills && n in LosersOf(a, a.conflictsWith, byName) && n == s.name;
      var c :| c in a.conflictsWith && c in byName && Loser(a, byName[c]).name == n;
      LoserIs(a, byName[c]);
      assert LosesTo(s, if a == s then byName[c] else a);
    }
    forall t | t in skills && LosesTo(s, t)
      ensures s.name in removed
    {
      assert byName[t.name] == t && byName[s.name] == s;
      LoserIs(s, t);
      LoserIs(t, s);
      if t.name in s.conflictsWith && (Outranks(t, s) || s == t) {
        assert s.name in LosersOf(s, s.conflictsWith, byName);
      } else {
        assert s.name in LosersOf(t, t.conflictsWith, byName);
      }
    }
  }

  /** Resolving leaves nothing exactly when every skill loses to one of them. */
  lemma NothingSurvivesIff(skills: seq<Skill>)
    requires DistinctNames(skills)
    ensures Resolved(skills) == [] <==> forall s :: s in skills ==> exists t :: t in skills && LosesTo(s, t)
  {
    WithoutIs(skills, Removed(skills, ByName(skills)));
    forall s | s in skills
      ensures s in Resolved(skills) <==> forall t :: t in skills ==> !LosesTo(s, t)
    {
      SurvivesIff(skills, s);
    }
    NoneIn(Resolved(skills));
  }

  predicate Conflict(a: Skill, b: Skill) { b.name in a.conflictsWith || a.name in b.conflictsWith }

  /** A skill that strictly outranks every skill it conflicts with survives. */
  lemma StrictWinnerSurvives(skills: seq<Skill>, s: Skill)
    requires DistinctNames(skills) && s in skills
    requires forall t :: t in skills && Conflict(s, t) ==> Outranks(s, t)
    ensures s in Resolved(skills)
  {
    SurvivesIff(skills, s);
    forall t | t in skills
      ensures !LosesTo(s, t)
    {
      assert Conflict(s, t) ==> Outranks(s, t);
    }
  }

  predicate Eligible(s: Skill) { !s.detect && (s.status == Active || s.status == Deprecated) }

  lemma {:induction false} SomeoneIsUnbeaten(skills: seq<Skill>) returns (best: Skill)
    requires skills != [] && forall s :: s in skills ==> Eligible(s)
    ensures best in skills && forall t :: t in skills ==> !Outranks(t, best)
    decreases |skills|
  {
    var n := |skills| - 1;
    assert skills == skills[..n] + [skills[n]];
    best := skills[n];
    if n > 0 {
      var champion := SomeoneIsUnbeaten(skills[..n]);
      if !Outranks(skills[n], champion) {
        best := champion;
      }
    }
  }

  /** Without ties between conflicting skills, resolving never leaves nothing. */
  lemma WithoutTiesSomeoneSurvives(skills: seq<Skill>)
    requires skills != [] && DistinctNames(skills) && forall s :: s in skills ==> Eligible(s)
    requires forall s, t :: s in skills && t in skills && Conflict(s, t) ==> Outranks(s, t) || Outranks(t, s)
    ensures Resolved(skills) != []
  {
    var best := SomeoneIsUnbeaten(skills);
    StrictWinnerSurvives(skills, best);
  }

  /** Two skills of equal rank that list each other remove each other. */
  lemma MutualTieRemovesBoth(a: Skill, b: Skill)
    requires a.name != b.name && a.status == b.status && a.version == b.version
    requires b.name in a.conflictsWith && a.name in b.conflictsWith
    ensures Resolved([a, b]) == []
  {
    SurvivesIff([a, b], a);
    SurvivesIff([a, b], b);
    var survivors := Resolved([a, b]);
    WithoutIs([a, b], Removed([a, b], ByName([a, b])));
    assert LosesTo(a, b) && LosesTo(b, a);
    NoneIn(survivors);
  }

  // ---------------------------------------------------------------- matching

  datatype Contract = Contract(autoPr: bool, refuses: set<string>)

  datatype FindingText = FindingText(category: string, text: string)

  datatype Registry = Registry(
    contractFor: string -> Option<Contract>,
    lookup: string -> Option<string>,                    // the one skill that fixes a category
    categoryTriggers: (Skill, string) -> bool,
    textTriggers: (Skill, seq<string>) -> bool,
    reportTriggers: Skill -> bool)

  function Named(skills: seq<Skill>, name: string): Option<Skill>
  {
    if skills == [] then None else if skills[0].name == name then Some(skills[0]) else Named(skills[1..], name)
  }

  function FirstTriggered(r: Registry, skills: seq<Skill>, category: string, cooled: set<string>): Option<Skill>
  {
    if skills == [] then None
    else if skills[0].name !in cooled && r.categoryTriggers(skills[0], category) then Some(skills[0])
    else FirstTriggered(r, skills[1..], category, cooled)
  }

  function SkillForCategory(r: Registry, skills: seq<Skill>, category: string, cooled: set<string>): Option<Skill>
  {
    match r.lookup(category)
    case Some(name) => if name in cooled then None else Named(skills, name)
    case None =>
      if r.contractFor(category).Some? && !r.contractFor(category).value.autoPr then None
      else FirstTriggered(r, skills, category, cooled)
  }

  /** Dictionary by name in insertion order, refused companions, uncontracted text. */
  datatype Gathered = Gathered(byName: seq<Skill>, refused: set<string>, text: seq<string>)

  predicate HasName(skills: seq<Skill>, name: string) { exists s :: s in skills && s.name == name }

  function GatherOne(r: Registry, skills: seq<Skill>, cooled: set<string>, g: Gathered, f: FindingText): Gathered
  {
    match r.contractFor(f.category)
    case None => g.(text := g.text + [f.text])
    case Some(contract) =>
      var g1 := g.(refused := g.refused + contract.refuses);
      var s := SkillForCategory(r, skills, f.category, cooled);
      if s.None? || HasName(g.byName, s.value.name) || !Eligible(s.value) then g1
      else g1.(byName := g.byName + [s.value])
  }

  function Gather(r: Registry, skills: seq<Skill>, cooled: set<string>, findings: seq<FindingText>): Gathered
  {
    if findings == [] then Gathered([], {}, [])
    else GatherOne(r, skills, cooled, Gather(r, skills, cooled, findings[..|findings| - 1]), findings[|findings| - 1])
  }

  function AddTriggered(r: Registry, skills: seq<Skill>, cooled: set<string>, g: Gathered): seq<Skill>
  {
    if skills == [] then g.byName
    else
      var (before, s) := (AddTriggered(r, skills[..|skills| - 1], cooled, g), skills[|skills| - 1]);
      if !HasName(before, s.name) && s.name !in g.refused && s.name !in cooled && Eligible(s) && r.textTriggers(s, g.text)
      then before + [s] else before
  }

  function Greenfield(r: Registry, skills: seq<Skill>, cooled: set<string>): seq<Skill>
  {
    if skills == [] then []
    else
      var s := skills[|skills| - 1];
      Greenfield(r, skills[..|skills| - 1], cooled) +
      (if s.name !in cooled && Eligible(s) && r.reportTriggers(s) then [s] else [])
  }

  function Candidates(r: Registry, skills: seq<Skill>, cooled: set<string>, findings: seq<FindingText>): seq<Skill>
  {
    if findings == [] then Greenfield(r, skills, cooled)
    else
      var g := Gather(r, skills, cooled, findings);
      if g.text == [] then g.byName else AddTriggered(r, skills, cooled, g)
  }

  function Matched(r: Registry, skills: seq<Skill>, cooled: set<string>, findings: seq<FindingText>): seq<Skill>
  {
    Resolved(Candidates(r, skills, cooled, findings))
  }

  method Match(r: Registry, skills: seq<Skill>, cooled: set<string>, findings: seq<FindingText>)
    returns (out: seq<Skill>)
    ensures out == Matched(r, skills, cooled, findings)
  {
    if findings == [] {
      var matched := [];
      for i := 0 to |skills|
        invariant matched == Greenfield(r, skills[..i], cooled)
      {
        assert skills[..i + 1][..i] == skills[..i];
        if skills[i].name !in cooled && Eligible(skills[i]) && r.reportTriggers(skills[i]) {
          matched := matched + [skills[i]];
        }
      }
      assert skills[..|skills|] == skills;
      out := ResolveConflicts(matched);
      return;
    }
    var g := Gathered([], {}, []);
    for i := 0 to |findings|
      invariant g == Gather(r, skills, cooled, findings[..i])
    {
      assert findings[..i + 1][..i] == findings[..i];
      g := GatherOne(r, skills, cooled, g, findings[i]);
    }
    assert findings[..|findings|] == findings;
    var byName := g.byName;
    if g.text != [] {
      for i := 0 to |skills|
        invariant byName == AddTriggered(r, skills[..i], cooled, g)
      {
        assert skills[..i + 1][..i] == skills[..i];
        var s := skills[i];
        if HasName(byName, s.name) || s.name in g.refused || s.name in cooled || !Eligible(s) {
          continue;
        }
        if r.textTriggers(s, g.text) {
          byName := byName + [s];
        }
      }
      assert skills[..|skills|] == skills;
    }
    out := ResolveConflicts(byName);
  }

  lemma {:induction false} NamedIs(skills: seq<Skill>, name: string)
    ensures Named(skills, name).Some? ==> Named(skills, name).value in skills && Named(skills, name).value.name == name
    decreases |skills|
  {
    if skills != [] {
      NamedIs(skills[1..], name);
    }
  }

  lemma {:induction false} FirstTriggeredIs(r: Registry, skills: seq<Skill>, category: string, cooled: set<string>)
    ensures var s := FirstTriggered(r, skills, category, cooled);
            s.Some? ==> s.value in skills && s.value.name !in cooled && r.categoryTriggers(s.value, category)
    decreases |skills|
  {
    if skills != [] {
      FirstTriggeredIs(r, skills[1..], category, cooled);
    }
  }

  lemma CategorySkillIsNotCooled(r: Registry, skills: seq<Skill>, category: string, cooled: set<string>)
    ensures var s := SkillForCategory(r, skills, category, cooled);
            s.Some? ==> s.value in skills && s.value.name !in cooled
  {
    if r.lookup(category).Some? {
      NamedIs(skills, r.lookup(category).value);
    }
    FirstTriggeredIs(r, skills, category, cooled);
  }

  /** The clearing skill of a contracted finding. */
  predicate Clears(r: Registry, skills: seq<Skill>, cooled: set<string>, f: FindingText, s: Skill)
  {
    r.contractFor(f.category).Some? && SkillForCategory(r, skills, f.category, cooled) == Some(s)
  }

  ghost predicate Admitted(skills: seq<Skill>, cooled: set<string>, s: Skill)
  {
    s in skills && s.name !in cooled && Eligible(s)
  }

  lemma {:induction false} GatheredAreClearing(r: Registry, skills: seq<Skill>, cooled: set<string>,
          findings: seq<FindingText>)
    ensures var g := Gather(r, skills, cooled, findings);
            && DistinctNames(g.byName)
            && (forall s :: s in g.byName ==> Admitted(skills, cooled, s) && exists f :: f in findings && Clears(r, skills, cooled, f, s))
            && (g.text == [] <==> forall f :: f in findings ==> r.contractFor(f.category).Some?)
    decreases |findings|
  {
    if findings != [] {
      var (rest, f) := (findings[..|findings| - 1], findings[|findings| - 1]);
      GatheredAreClearing(r, skills, cooled, rest);
      CategorySkillIsNotCooled(r, skills, f.category, cooled);
      assert findings == rest + [f];
      assert forall x :: x in findings <==> x in rest || x == f;
    }
  }

  lemma {:induction false} TriggeredAreAdmitted(r: Registry, skills: seq<Skill>, all: seq<Skill>, cooled: set<string>,
          g: Gathered)
    requires DistinctNames(g.byName) && forall s :: s in skills ==> s in all
    ensures var out := AddTriggered(r, skills, cooled, g);
            && DistinctNames(out)
            && (forall s :: s in out ==>
                  (s in g.byName || (Admitted(all, cooled, s) && s.name !in g.refused && r.textTriggers(s, g.text))))
    decreases |skills|
  {
    if skills != [] {
      assert skills == skills[..|skills| - 1] + [skills[|skills| - 1]];
      TriggeredAreAdmitted(r, skills[..|skills| - 1], all, cooled, g);
    }
  }

  lemma {:induction false} GreenfieldAreAdmitted(r: Registry, skills: seq<Skill>, all: seq<Skill>, cooled: set<string>)
    requires forall s :: s in skills ==> s in all
    ensures forall s :: s in Greenfield(r, skills, cooled) ==> Admitted(all, cooled, s)
    decreases |skills|
  {
    if skills != [] {
      assert skills == skills[..|skills| - 1] + [skills[|skills| - 1]];
      GreenfieldAreAdmitted(r, skills[..|skills| - 1], all, cooled);
    }
  }

  /** Some contract among the findings refuses this companion. */
  predicate RefusedCompanion(r: Registry, findings: seq<FindingText>, name: string)
  {
    exists f :: f in findings && r.contractFor(f.category).Some? && name in r.contractFor(f.category).value.refuses
  }

  lemma {:induction false} GatherIs(r: Registry, skills: seq<Skill>, cooled: set<string>, findings: seq<FindingText>,
          s: Skill)
    requires DistinctNames(skills)
    ensures s in Gather(r, skills, cooled, findings).byName <==>
            Eligible(s) && exists f :: f in findings && Clears(r, skills, cooled, f, s)
    decreases |findings|
  {
    if findings != [] {
      var (rest, f) := (findings[..|findings| - 1], findings[|findings| - 1]);
      GatherIs(r, skills, cooled, rest, s);
      OneMoreGathered(r, skills, cooled, rest, f, s);
      assert findings == rest + [f];
    }
  }

  lemma OneMoreGathered(r: Registry, skills: seq<Skill>, cooled: set<string>, rest: seq<FindingText>, f: FindingText,
          s: Skill)
    requires DistinctNames(skills)
    ensures var g := Gather(r, skills, cooled, rest);
            s in GatherOne(r, skills, cooled, g, f).byName <==> s in g.byName || (Eligible(s) && Clears(r, skills, cooled, f, s))
  {
    GatheredAreClearing(r, skills, cooled, rest);
    CategorySkillIsNotCooled(r, skills, f.category, cooled);
  }

  lemma {:induction false} RefusedAre(r: Registry, skills: seq<Skill>, cooled: set<string>,
          findings: seq<FindingText>, name: string)
    ensures name in Gather(r, skills, cooled, findings).refused <==> RefusedCompanion(r, findings, name)
    decreases |findings|
  {
    if findings != [] {
      RefusedAre(r, skills, cooled, findings[..|findings| - 1], name);
      assert findings == findings[..|findings| - 1] + [findings[|findings| - 1]];
    }
  }

  lemma {:induction false} AddTriggeredIs(r: Registry, skills: seq<Skill>, all: seq<Skill>, cooled: set<string>,
          g: Gathered, s: Skill)
    requires DistinctNames(all) && (forall t :: t in skills ==> t in all) && s in all
    requires forall t :: t in g.byName ==> t in all
    ensures s in AddTriggered(r, skills, cooled, g) <==>
            || s in g.byName
            || (s in skills && s.name !in g.refused && s.name !in cooled && Eligible(s) && r.textTriggers(s, g.text))
    ensures forall t :: t in AddTriggered(r, skills, cooled, g) ==> t in all
    decreases |skills|
  {
    if skills != [] {
      assert skills == skills[..|skills| - 1] + [skills[|skills| - 1]];
      AddTriggeredIs(r, skills[..|skills| - 1], all, cooled, g, s);
    }
  }

  // ---------------------------------------------------------------- which skill, exactly

  /** The first of the skills that passes. */
  ghost predicate IsFirst(skills: seq<Skill>, s: Skill, passes: Skill -> bool)
  {
    exists i :: 0 <= i < |skills| && skills[i] == s && passes(s) && forall j :: 0 <= j < i ==> !passes(skills[j])
  }

  lemma FirstOfTheRest(skills: seq<Skill>, s: Skill, passes: Skill -> bool)
    requires skills != []
    ensures IsFirst(skills, s, passes) <==>
            if passes(skills[0]) then s == skills[0] else IsFirst(skills[1..], s, passes)
  {
    if !passes(skills[0]) {
      if i :| 0 <= i < |skills| && skills[i] == s && passes(s) && forall j :: 0 <= j < i ==> !passes(skills[j]) {
        assert skills[1..][i - 1] == s && forall j :: 0 <= j < i - 1 ==> skills[1..][j] == skills[j + 1];
      }
      if i :| 0 <= i < |skills[1..]| && skills[1..][i] == s && passes(s) && forall j :: 0 <= j < i ==> !passes(skills[1..][j]) {
        assert skills[i + 1] == s && forall j :: 0 < j < i + 1 ==> skills[j] == skills[1..][j - 1];
      }
    }
  }

  lemma {:induction false} NamedIff(skills: seq<Skill>, name: string, s: Skill)
    ensures Named(skills, name) == Some(s) <==> IsFirst(skills, s, (t: Skill) => t.name == name)
    decreases |skills|
  {
    if skills != [] {
      FirstOfTheRest(skills, s, (t: Skill) => t.name == name);
      NamedIff(skills[1..], name, s);
    }
  }

  lemma {:induction false} FirstTriggeredIff(r: Registry, skills: seq<Skill>, category: string, cooled: set<string>,
          s: Skill)
    ensures FirstTriggered(r, skills, category, cooled) == Some(s) <==>
            IsFirst(skills, s, (t: Skill) => t.name !in cooled && r.categoryTriggers(t, category))
    decreases |skills|
  {
    if skills != [] {
      FirstOfTheRest(skills, s, (t: Skill) => t.name !in cooled && r.categoryTriggers(t, category));
      FirstTriggeredIff(r, skills[1..], category, cooled, s);
    }
  }

  /** The skill of a category, exactly. A registered category gets the first skill of the registered name,
      unless that is cooled; one under a contract without automatic pull requests gets none; any other gets
      the first uncooled skill its name triggers. */
  lemma CategorySkillIff(r: Registry, skills: seq<Skill>, category: string, cooled: set<string>, s: Skill)
    ensures SkillForCategory(r, skills, category, cooled) == Some(s) <==>
            match r.lookup(category)
            case Some(name) => name !in cooled && IsFirst(skills, s, (t: Skill) => t.name == name)
            case None =>
              && (r.contractFor(category).Some? ==> r.contractFor(category).value.autoPr)
              && IsFirst(skills, s, (t: Skill) => t.name !in cooled && r.categoryTriggers(t, category))
  {
    if r.lookup(category).Some? {
      NamedIff(skills, r.lookup(category).value, s);
    } else {
      FirstTriggeredIff(r, skills, category, cooled, s);
    }
  }

  /** Without findings the candidates are the skills the whole report triggers: not cooled, not for
      detection, neither retired nor drafts. */
  lemma {:induction false} GreenfieldCandidatesAre(r: Registry, skills: seq<Skill>, cooled: set<string>, s: Skill)
    ensures s in Candidates(r, skills, cooled, []) <==>
            && s in skills && s.name !in cooled && r.reportTriggers(s)
            && !s.detect && s.status != Retired && s.status != Draft
    decreases |skills|
  {
    if skills != [] {
      var (rest, last) := (skills[..|skills| - 1], skills[|skills| - 1]);
      GreenfieldCandidatesAre(r, rest, cooled, s);
      assert skills == rest + [last];
    }
  }

  /** They come in loading order. */
  lemma {:induction false} GreenfieldKeepsLoadingOrder(r: Registry, first: seq<Skill>, second: seq<Skill>,
          cooled: set<string>)
    ensures Candidates(r, first + second, cooled, []) ==
            Candidates(r, first, cooled, []) + Candidates(r, second, cooled, [])
    decreases |second|
  {
    if second == [] {
      assert first + second == first;
    } else {
      var n := |second| - 1;
      assert (first + second)[..|first + second| - 1] == first + second[..n];
      GreenfieldKeepsLoadingOrder(r, first, second[..n], cooled);
    }
  }

  /** One more finding adds its text after the others if it has no contract, and otherwise at most its clearing
      skill, after the skills of the findings before. */
  lemma OneMoreFinding(r: Registry, skills: seq<Skill>, cooled: set<string>, findings: seq<FindingText>, f: FindingText)
    ensures var (g, more) := (Gather(r, skills, cooled, findings), Gather(r, skills, cooled, findings + [f]));
            && more.text == g.text + (if r.contractFor(f.category).None? then [f.text] else [])
            && (more.byName == g.byName ||
                exists s :: Clears(r, skills, cooled, f, s) && more.byName == g.byName + [s])
  {
    assert (findings + [f])[..|findings|] == findings;
  }

  /** The clearing skills come before the triggered ones, and these in loading order. */
  lemma TriggeredComeAfter(r: Registry, skills: seq<Skill>, cooled: set<string>, g: Gathered, s: Skill)
    ensures AddTriggered(r, [], cooled, g) == g.byName
    ensures var (before, more) := (AddTriggered(r, skills, cooled, g), AddTriggered(r, skills + [s], cooled, g));
            more == before || more == before + [s]
  {
    assert (skills + [s])[..|skills|] == skills;
  }

  /** The candidates, exactly: with open findings, the eligible clearing skill of each contracted
      finding, and, if some finding has no contract, every eligible skill its text triggers that is
      neither cooled nor a refused companion. */
  lemma CandidatesAre(r: Registry, skills: seq<Skill>, cooled: set<string>, findings: seq<FindingText>, s: Skill)
    requires DistinctNames(skills) && s in skills && findings != []
    ensures s in Candidates(r, skills, cooled, findings) <==>
            && Eligible(s)
            && (|| (exists f :: f in findings && Clears(r, skills, cooled, f, s))
                || (&& (exists f :: f in findings && r.contractFor(f.category).None?)
                    && s.name !in cooled && !RefusedCompanion(r, findings, s.name)
                    && r.textTriggers(s, Gather(r, skills, cooled, findings).text)))
  {
    var g := Gather(r, skills, cooled, findings);
    GatherIs(r, skills, cooled, findings, s);
    RefusedAre(r, skills, cooled, findings, s.name);
    GatheredAreClearing(r, skills, cooled, findings);
    AddTriggeredIs(r, skills, skills, cooled, g, s);
  }

  /** `match` never returns a cooled, draft, retired or detect skill. With open findings the names are
      distinct, and a returned skill either is the clearing skill of a contracted finding or was
      triggered by uncontracted text and refused by no contract. */
  lemma MatchedSkillsAreAdmitted(r: Registry, skills: seq<Skill>, cooled: set<string>, findings: seq<FindingText>,
          s: Skill)
    requires s in Matched(r, skills, cooled, findings)
    ensures Admitted(skills, cooled, s)
    ensures findings != [] ==>
              || (exists f :: f in findings && Clears(r, skills, cooled, f, s))
              || (&& (exists f :: f in findings && r.contractFor(f.category).None?)
                  && var g := Gather(r, skills, cooled, findings);
                     s.name !in g.refused && r.textTriggers(s, g.text))
    ensures findings != [] ==> DistinctNames(Candidates(r, skills, cooled, findings))
  {
    var candidates := Candidates(r, skills, cooled, findings);
    WithoutIs(candidates, Removed(candidates, ByName(candidates)));
    GreenfieldAreAdmitted(r, skills, skills, cooled);
    GatheredAreClearing(r, skills, cooled, findings);
    TriggeredAreAdmitted(r, skills, skills, cooled, Gather(r, skills, cooled, findings));
  }
}
