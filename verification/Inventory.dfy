/** The skill/check inventory (src/agentit/skill_inventory.py): snapshots, their differences as
    logged events, and what the event log is worth as a record of the catalog. */
module Inventory {
  import opened Options

  datatype Id = Id(domain: string, name: string)

  datatype Snapshot = Snapshot(skills: set<Id>, checks: set<Id>)

  /** The stored dictionary; a key may be missing. */
  datatype Saved = Saved(skills: Option<seq<Id>>, checks: Option<seq<Id>>)

  datatype Diff = Diff(skillsAdded: seq<Id>, skillsRemoved: seq<Id>, checksAdded: seq<Id>, checksRemoved: seq<Id>)

  datatype Kind = Skill | Check

  datatype Action = Action(kind: Kind, added: bool)

  datatype Severity = Info | Warning

  datatype Event = Event(action: Action, severity: Severity, summary: string)

  /** `sorted` lists a set of pairs in their one order. */
  ghost predicate Enumerates(sorted: set<Id> -> seq<Id>)
  {
    forall ids, x :: x in sorted(ids) <==> x in ids
  }

  // ---------------------------------------------------------------- snapshots

  function ToDict(s: Snapshot, sorted: set<Id> -> seq<Id>): Saved
  {
    Saved(Some(sorted(s.skills)), Some(sorted(s.checks)))
  }

  function Members(items: Option<seq<Id>>): set<Id> { if items.Some? then set x | x in items.value else {} }

  function FromDict(d: Saved): Snapshot { Snapshot(Members(d.skills), Members(d.checks)) }

  /** A snapshot survives being stored. */
  lemma SnapshotRoundTrips(s: Snapshot, sorted: set<Id> -> seq<Id>)
    requires Enumerates(sorted)
    ensures FromDict(ToDict(s, sorted)) == s
  {
    assert Members(Some(sorted(s.skills))) == s.skills;
    assert Members(Some(sorted(s.checks))) == s.checks;
  }

  function DiffSnapshots(previous: Option<Snapshot>, current: Snapshot, sorted: set<Id> -> seq<Id>): Diff
  {
    var p := if previous.Some? then previous.value else Snapshot({}, {});
    Diff(sorted(current.skills - p.skills), sorted(p.skills - current.skills),
         sorted(current.checks - p.checks), sorted(p.checks - current.checks))
  }

  predicate HasChanges(d: Diff)
  {
    d.skillsAdded != [] || d.skillsRemoved != [] || d.checksAdded != [] || d.checksRemoved != []
  }

  lemma ChangesIff(previous: Snapshot, current: Snapshot, sorted: set<Id> -> seq<Id>)
    requires Enumerates(sorted)
    ensures HasChanges(DiffSnapshots(Some(previous), current, sorted)) <==> previous != current
  {
    EmptyIff(current.skills - previous.skills, sorted);
    EmptyIff(previous.skills - current.skills, sorted);
    EmptyIff(current.checks - previous.checks, sorted);
    EmptyIff(previous.checks - current.checks, sorted);
    assert current.skills - previous.skills == {} && previous.skills - current.skills == {} ==>
        previous.skills == current.skills;
    assert current.checks - previous.checks == {} && previous.checks - current.checks == {} ==>
        previous.checks == current.checks;
  }

  lemma EmptyIff(ids: set<Id>, sorted: set<Id> -> seq<Id>)
    requires Enumerates(sorted)
    ensures sorted(ids) == [] <==> ids == {}
  {
    if sorted(ids) != [] {
      assert sorted(ids)[0] in sorted(ids);
    } else {
      assert forall x :: x in ids ==> x in sorted(ids);
    }
  }

  // ---------------------------------------------------------------- events

  function Prefix(action: Action): string
  {
    match action
    case Action(Skill, true) => "New skill added: "
    case Action(Skill, false) => "Skill removed: "
    case Action(Check, true) => "New check added: "
    case Action(Check, false) => "Check removed: "
  }

  function Text(id: Id): string { id.domain + ['/'] + id.name }

  function EventFor(action: Action, id: Id): Event
  {
    Event(action, if action.added then Info else Warning, Prefix(action) + Text(id))
  }

  function Batch(action: Action, ids: seq<Id>): seq<Event>
  {
    if ids == [] then [] else Batch(action, ids[..|ids| - 1]) + [EventFor(action, ids[|ids| - 1])]
  }

  function EventsForDiff(d: Diff): seq<Event>
  {
    Batch(Action(Skill, true), d.skillsAdded) + Batch(Action(Skill, false), d.skillsRemoved) +
    Batch(Action(Check, true), d.checksAdded) + Batch(Action(Check, false), d.checksRemoved)
  }

  method BatchEvents(action: Action, ids: seq<Id>) returns (events: seq<Event>)
    ensures events == Batch(action, ids)
  {
    events := [];
    for i := 0 to |ids|
      invariant events == Batch(action, ids[..i])
    {
      assert ids[..i + 1][..i] == ids[..i];
      events := events + [EventFor(action, ids[i])];
    }
    assert ids[..|ids|] == ids;
  }

  lemma {:induction false} BatchHas(action: Action, ids: seq<Id>, e: Event)
    ensures e in Batch(action, ids) <==> exists id :: id in ids && e == EventFor(action, id)
    decreases |ids|
  {
    if ids != [] {
      var n := |ids| - 1;
      BatchHas(action, ids[..n], e);
      assert ids == ids[..n] + [ids[n]];
    }
  }

  /** What an event says of an item. */
  predicate Announces(e: Event, action: Action, severity: Severity, words: string, ids: seq<Id>)
  {
    exists id :: id in ids && e == Event(action, severity, words + id.domain + "/" + id.name)
  }

  /** The events of a difference: an addition is news, a removal a warning, and each names its item. */
  lemma EventsSay(d: Diff, e: Event)
    ensures e in EventsForDiff(d) <==>
            || Announces(e, Action(Skill, true), Info, "New skill added: ", d.skillsAdded)
            || Announces(e, Action(Skill, false), Warning, "Skill removed: ", d.skillsRemoved)
            || Announces(e, Action(Check, true), Info, "New check added: ", d.checksAdded)
            || Announces(e, Action(Check, false), Warning, "Check removed: ", d.checksRemoved)
  {
    AnnouncesIff(Action(Skill, true), Info, "New skill added: ", d.skillsAdded, e);
    AnnouncesIff(Action(Skill, false), Warning, "Skill removed: ", d.skillsRemoved, e);
    AnnouncesIff(Action(Check, true), Info, "New check added: ", d.checksAdded, e);
    AnnouncesIff(Action(Check, false), Warning, "Check removed: ", d.checksRemoved, e);
  }

  lemma AnnouncesIff(action: Action, severity: Severity, words: string, ids: seq<Id>, e: Event)
    requires severity == (if action.added then Info else Warning) && words == Prefix(action)
    ensures e in Batch(action, ids) <==> Announces(e, action, severity, words, ids)
  {
    BatchHas(action, ids, e);
    forall id: Id
      ensures EventFor(action, id) == Event(action, severity, words + id.domain + "/" + id.name)
    {
      assert words + id.domain + "/" + id.name == words + (id.domain + "/" + id.name);
    }
  }

  // ---------------------------------------------------------------- reading a summary back

  /** Splits at the first slash. */
  function Split(text: string): Id
  {
    if text == [] then Id([], [])
    else if text[0] == '/' then Id([], text[1..])
    else
      var rest := Split(text[1..]);
      Id([text[0]] + rest.domain, rest.name)
  }

  function Read(e: Event): Id
  {
    Split(if |Prefix(e.action)| <= |e.summary| then e.summary[|Prefix(e.action)|..] else e.summary)
  }

  predicate SlashFree(id: Id) { '/' !in id.domain }

  lemma {:induction false} SplitIsSlashFree(text: string)
    ensures SlashFree(Split(text))
    decreases |text|
  {
    if text != [] && text[0] != '/' {
      SplitIsSlashFree(text[1..]);
    }
  }

  lemma {:induction false} SplitJoins(id: Id)
    requires SlashFree(id)
    ensures Split(Text(id)) == id
    decreases |id.domain|
  {
    if id.domain == [] {
      assert Text(id) == ['/'] + id.name;
    } else {
      var shorter := Id(id.domain[1..], id.name);
      SplitJoins(shorter);
      assert Text(id)[1..] == Text(shorter);
      assert [id.domain[0]] + id.domain[1..] == id.domain;
    }
  }

  /** An event names its item unambiguously exactly when the domain has no slash. */
  lemma SummaryReadsBackIff(action: Action, id: Id)
    ensures Read(EventFor(action, id)) == id <==> SlashFree(id)
  {
    assert (Prefix(action) + Text(id))[|Prefix(action)|..] == Text(id);
    SplitIsSlashFree(Text(id));
    if SlashFree(id) {
      SplitJoins(id);
    }
  }

  // ---------------------------------------------------------------- replaying a log

  function Replace(ids: set<Id>, id: Id, present: bool): set<Id>
  {
    if present then ids + {id} else ids - {id}
  }

  function Applied(s: Snapshot, e: Event): Snapshot
  {
    if e.action.kind.Skill? then s.(skills := Replace(s.skills, Read(e), e.action.added))
    else s.(checks := Replace(s.checks, Read(e), e.action.added))
  }

  function Replay(s: Snapshot, log: seq<Event>): Snapshot
  {
    if log == [] then s else Applied(Replay(s, log[..|log| - 1]), log[|log| - 1])
  }

  predicate Has(s: Snapshot, kind: Kind, id: Id) { if kind.Skill? then id in s.skills else id in s.checks }

  lemma SameMembers(s: Snapshot, t: Snapshot)
    requires forall kind, id :: Has(s, kind, id) <==> Has(t, kind, id)
    ensures s == t
  {
    assert forall id :: id in s.skills <==> Has(s, Skill, id);
    assert forall id :: id in t.skills <==> Has(t, Skill, id);
    assert forall id :: id in s.checks <==> Has(s, Check, id);
    assert forall id :: id in t.checks <==> Has(t, Check, id);
  }

  lemma ReplaySnoc(s: Snapshot, log: seq<Event>, e: Event)
    ensures Replay(s, log + [e]) == Applied(Replay(s, log), e)
  {
    assert (log + [e])[..|log|] == log;
  }

  lemma LastApart(log: seq<Event>, more: seq<Event>)
    requires more != []
    ensures var (rest, last) := (more[..|more| - 1], more[|more| - 1]);
            more == rest + [last] && log + more == log + rest + [last]
  {
  }

  lemma {:induction false} ReplayConcatenates(s: Snapshot, log: seq<Event>, more: seq<Event>)
    ensures Replay(s, log + more) == Replay(Replay(s, log), more)
    decreases |more|
  {
    if more == [] {
      assert log + more == log;
    } else {
      var (rest, last) := (more[..|more| - 1], more[|more| - 1]);
      ReplayConcatenates(s, log, rest);
      ReplaySnoc(s, log + rest, last);
      ReplaySnoc(Replay(s, log), rest, last);
      LastApart(log, more);
    }
  }

  /** The log says that this item was added (or removed). */
  predicate Says(log: seq<Event>, kind: Kind, added: bool, id: Id)
  {
    exists i :: 0 <= i < |log| && log[i].action == Action(kind, added) && Read(log[i]) == id
  }

  lemma SaysSnoc(log: seq<Event>, e: Event, kind: Kind, added: bool, id: Id)
    ensures Says(log + [e], kind, added, id) <==>
            Says(log, kind, added, id) || (e.action == Action(kind, added) && Read(e) == id)
  {
    var more := log + [e];
    assert more[|log|] == e;
    if Says(log, kind, added, id) {
      var i :| 0 <= i < |log| && log[i].action == Action(kind, added) && Read(log[i]) == id;
      assert more[i] == log[i];
    }
  }

  lemma AppliedMembers(s: Snapshot, e: Event, kind: Kind, id: Id)
    ensures Has(Applied(s, e), kind, id) <==>
            if e.action.kind == kind && Read(e) == id then e.action.added else Has(s, kind, id)
  {
  }

  lemma {:induction false} ReplayMembers(s: Snapshot, log: seq<Event>, kind: Kind, id: Id)
    requires !(Says(log, kind, true, id) && Says(log, kind, false, id))
    ensures Has(Replay(s, log), kind, id) <==>
            Says(log, kind, true, id) || (Has(s, kind, id) && !Says(log, kind, false, id))
    decreases |log|
  {
    if log != [] {
      var (rest, e) := (log[..|log| - 1], log[|log| - 1]);
      assert log == rest + [e];
      SaysSnoc(rest, e, kind, true, id);
      SaysSnoc(rest, e, kind, false, id);
      ReplayMembers(s, rest, kind, id);
      AppliedMembers(Replay(s, rest), e, kind, id);
    }
  }

  /** An item whose domain has a slash is out of reach of every log. */
  lemma {:induction false} ReplayMissesSlashes(s: Snapshot, log: seq<Event>, kind: Kind, id: Id)
    requires !SlashFree(id)
    ensures Has(Replay(s, log), kind, id) <==> Has(s, kind, id)
    decreases |log|
  {
    if log != [] {
      var e := log[|log| - 1];
      ReplayMissesSlashes(s, log[..|log| - 1], kind, id);
      SplitIsSlashFree(if |Prefix(e.action)| <= |e.summary| then e.summary[|Prefix(e.action)|..] else e.summary);
    }
  }

  // ------------------------------------------------------------ what one diff logs

  predicate Changed(p: Snapshot, c: Snapshot, kind: Kind, added: bool, id: Id)
  {
    Has(p, kind, id) == !added && Has(c, kind, id) == added
  }

  lemma {:induction false} BatchSays(action: Action, ids: seq<Id>, kind: Kind, added: bool, id: Id)
    requires forall x :: x in ids ==> SlashFree(x)
    ensures Says(Batch(action, ids), kind, added, id) <==> action == Action(kind, added) && id in ids
    decreases |ids|
  {
    if ids != [] {
      var (rest, last) := (ids[..|ids| - 1], ids[|ids| - 1]);
      BatchSays(action, rest, kind, added, id);
      SaysSnoc(Batch(action, rest), EventFor(action, last), kind, added, id);
      SummaryReadsBackIff(action, last);
      assert ids == rest + [last];
    }
  }

  lemma {:induction false} SaysConcatenates(log: seq<Event>, more: seq<Event>, kind: Kind, added: bool, id: Id)
    ensures Says(log + more, kind, added, id) <==> Says(log, kind, added, id) || Says(more, kind, added, id)
    decreases |more|
  {
    if more == [] {
      assert log + more == log;
    } else {
      var (rest, last) := (more[..|more| - 1], more[|more| - 1]);
      SaysConcatenates(log, rest, kind, added, id);
      SaysSnoc(log + rest, last, kind, added, id);
      SaysSnoc(rest, last, kind, added, id);
      assert log + more == log + rest + [last] && more == rest + [last];
    }
  }

  ghost predicate ChangesAreSlashFree(p: Snapshot, c: Snapshot)
  {
    forall kind, added, id :: Changed(p, c, kind, added, id) ==> SlashFree(id)
  }

  function Logged(p: Snapshot, c: Snapshot, sorted: set<Id> -> seq<Id>): seq<Event>
  {
    EventsForDiff(DiffSnapshots(Some(p), c, sorted))
  }

  function Listing(p: Snapshot, c: Snapshot, action: Action): set<Id>
  {
    match action
    case Action(Skill, true) => c.skills - p.skills
    case Action(Skill, false) => p.skills - c.skills
    case Action(Check, true) => c.checks - p.checks
    case Action(Check, false) => p.checks - c.checks
  }

  lemma ListingSays(p: Snapshot, c: Snapshot, sorted: set<Id> -> seq<Id>, action: Action, kind: Kind, added: bool,
          id: Id)
    requires Enumerates(sorted) && ChangesAreSlashFree(p, c)
    ensures Says(Batch(action, sorted(Listing(p, c, action))), kind, added, id) <==>
            action == Action(kind, added) && Changed(p, c, kind, added, id)
  {
    forall x | x in sorted(Listing(p, c, action))
      ensures SlashFree(x)
    {
      assert Changed(p, c, action.kind, action.added, x);
    }
    BatchSays(action, sorted(Listing(p, c, action)), kind, added, id);
  }

  lemma LoggedSays(p: Snapshot, c: Snapshot, sorted: set<Id> -> seq<Id>, kind: Kind, added: bool, id: Id)
    requires Enumerates(sorted) && ChangesAreSlashFree(p, c)
    ensures Says(Logged(p, c, sorted), kind, added, id) <==> Changed(p, c, kind, added, id)
  {
    var (sa, sr) := (Action(Skill, true), Action(Skill, false));
    var (ca, cr) := (Action(Check, true), Action(Check, false));
    ListingSays(p, c, sorted, sa, kind, added, id);
    ListingSays(p, c, sorted, sr, kind, added, id);
    ListingSays(p, c, sorted, ca, kind, added, id);
    ListingSays(p, c, sorted, cr, kind, added, id);
    FourSay(Batch(sa, sorted(Listing(p, c, sa))), Batch(sr, sorted(Listing(p, c, sr))),
            Batch(ca, sorted(Listing(p, c, ca))), Batch(cr, sorted(Listing(p, c, cr))), kind, added, id);
  }

  lemma FourSay(w: seq<Event>, x: seq<Event>, y: seq<Event>, z: seq<Event>, kind: Kind, added: bool, id: Id)
    ensures Says(w + x + y + z, kind, added, id) <==>
            Says(w, kind, added, id) || Says(x, kind, added, id) || Says(y, kind, added, id) || Says(z, kind, added, id)
  {
    SaysConcatenates(w, x, kind, added, id);
    SaysConcatenates(w + x, y, kind, added, id);
    SaysConcatenates(w + x + y, z, kind, added, id);
  }

  lemma LogReplays(p: Snapshot, c: Snapshot, sorted: set<Id> -> seq<Id>)
    requires Enumerates(sorted) && ChangesAreSlashFree(p, c)
    ensures Replay(p, Logged(p, c, sorted)) == c
  {
    forall kind, id
      ensures Has(Replay(p, Logged(p, c, sorted)), kind, id) <==> Has(c, kind, id)
    {
      LoggedSays(p, c, sorted, kind, true, id);
      LoggedSays(p, c, sorted, kind, false, id);
      ReplayMembers(p, Logged(p, c, sorted), kind, id);
    }
    SameMembers(Replay(p, Logged(p, c, sorted)), c);
  }

  /** Replaying one call's events on the old snapshot gives the new one exactly when no changed item
      has a slash in its domain. */
  lemma LogReplaysIff(p: Snapshot, c: Snapshot, sorted: set<Id> -> seq<Id>)
    requires Enumerates(sorted)
    ensures Replay(p, Logged(p, c, sorted)) == c <==> ChangesAreSlashFree(p, c)
  {
    if ChangesAreSlashFree(p, c) {
      LogReplays(p, c, sorted);
    }
    if Replay(p, Logged(p, c, sorted)) == c {
      forall kind, added, id | Changed(p, c, kind, added, id)
        ensures SlashFree(id)
      {
        if !SlashFree(id) {
          ReplayMissesSlashes(p, Logged(p, c, sorted), kind, id);
        }
      }
    }
  }

  // ---------------------------------------------------------------- the store

  datatype Store = Store(saved: Option<Saved>, log: seq<Event>)

  function Previous(st: Store): Option<Snapshot> { if st.saved.Some? then Some(FromDict(st.saved.value)) else None }

  /** One call of `diff_and_log_inventory_changes` that is not interrupted. */
  function Call(st: Store, current: Snapshot, sorted: set<Id> -> seq<Id>): Store
  {
    match Previous(st)
    case None => Store(Some(ToDict(current, sorted)), st.log)
    case Some(p) =>
      if !HasChanges(DiffSnapshots(Some(p), current, sorted)) then st
      else Store(Some(ToDict(current, sorted)), st.log + Logged(p, current, sorted))
  }

  class InventoryStore {
    var saved: Option<Saved>
    var log: seq<Event>

    ghost function State(): Store
      reads this
    {
      Store(saved, log)
    }

    constructor ()
      ensures State() == Store(None, [])
    {
      saved, log := None, [];
    }

    method LogEvent(e: Event)
      modifies this`log
      ensures log == old(log) + [e]
    {
      log := log + [e];
    }

    method LogAll(events: seq<Event>)
      modifies this`log
      ensures log == old(log) + events
    {
      for i := 0 to |events|
        invariant log == old(log) + events[..i]
      {
        LogEvent(events[i]);
      }
    }

    method DiffAndLogInventoryChanges(current: Snapshot, sorted: set<Id> -> seq<Id>) returns (diff: Diff)
      modifies this
      ensures State() == Call(old(State()), current, sorted)
      ensures diff == if old(saved).None? then Diff([], [], [], [])
                      else DiffSnapshots(Previous(old(State())), current, sorted)
    {
      var previous := if saved.Some? then Some(FromDict(saved.value)) else None;
      diff := DiffSnapshots(previous, current, sorted);
      if previous.None? {
        saved := Some(ToDict(current, sorted));
        return Diff([], [], [], []);
      }
      if !HasChanges(diff) {
        return;
      }
      var events := EventsOf(diff);
      LogAll(events);
      saved := Some(ToDict(current, sorted));
    }
  }

  method EventsOf(d: Diff) returns (events: seq<Event>)
    ensures events == EventsForDiff(d)
  {
    events := BatchEvents(Action(Skill, true), d.skillsAdded);
    var more := BatchEvents(Action(Skill, false), d.skillsRemoved);
    events := events + more;
    more := BatchEvents(Action(Check, true), d.checksAdded);
    events := events + more;
    more := BatchEvents(Action(Check, false), d.checksRemoved);
    events := events + more;
  }

  // ---------------------------------------------------------------- histories

  function Run(catalogs: seq<Snapshot>, sorted: set<Id> -> seq<Id>): Store
  {
    if catalogs == [] then Store(None, [])
    else Call(Run(catalogs[..|catalogs| - 1], sorted), catalogs[|catalogs| - 1], sorted)
  }

  lemma CallSaves(st: Store, current: Snapshot, sorted: set<Id> -> seq<Id>)
    requires Enumerates(sorted)
    ensures Previous(Call(st, current, sorted)) == Some(current)
  {
    SnapshotRoundTrips(current, sorted);
    if st.saved.Some? {
      ChangesIff(FromDict(st.saved.value), current, sorted);
    }
  }

  /** After every call the stored snapshot is the catalog just seen. */
  lemma LastCatalogIsSaved(catalogs: seq<Snapshot>, sorted: set<Id> -> seq<Id>)
    requires Enumerates(sorted) && catalogs != []
    ensures Previous(Run(catalogs, sorted)) == Some(catalogs[|catalogs| - 1])
  {
    CallSaves(Run(catalogs[..|catalogs| - 1], sorted), catalogs[|catalogs| - 1], sorted);
  }

  lemma CallReplays(st: Store, baseline: Snapshot, current: Snapshot, sorted: set<Id> -> seq<Id>)
    requires Enumerates(sorted) && st.saved.Some? && Replay(baseline, st.log) == FromDict(st.saved.value)
    ensures Replay(baseline, Call(st, current, sorted).log) == current <==>
            ChangesAreSlashFree(FromDict(st.saved.value), current)
  {
    var p := FromDict(st.saved.value);
    ChangesIff(p, current, sorted);
    if p != current {
      ReplayConcatenates(baseline, st.log, Logged(p, current, sorted));
      LogReplaysIff(p, current, sorted);
    }
  }

  /** At every boundary up to `n` calls, the log replayed on the first catalog is the last one seen. */
  ghost predicate LogIsFaithful(catalogs: seq<Snapshot>, sorted: set<Id> -> seq<Id>)
  {
    forall n :: 1 <= n <= |catalogs| ==> Replay(catalogs[0], Run(catalogs[..n], sorted).log) == catalogs[n - 1]
  }

  ghost predicate HistoryIsSlashFree(catalogs: seq<Snapshot>)
  {
    forall n, m :: 0 <= n && m == n + 1 < |catalogs| ==> ChangesAreSlashFree(catalogs[n], catalogs[m])
  }

  lemma RunExtends(catalogs: seq<Snapshot>, n: nat, sorted: set<Id> -> seq<Id>)
    requires 1 <= n < |catalogs|
    ensures Run(catalogs[..n + 1], sorted) == Call(Run(catalogs[..n], sorted), catalogs[n], sorted)
  {
    assert catalogs[..n + 1][..n] == catalogs[..n];
  }

  lemma BoundaryReplaysIff(catalogs: seq<Snapshot>, n: nat, sorted: set<Id> -> seq<Id>)
    requires Enumerates(sorted) && 1 <= n < |catalogs|
    requires Replay(catalogs[0], Run(catalogs[..n], sorted).log) == catalogs[n - 1]
    ensures Replay(catalogs[0], Run(catalogs[..n + 1], sorted).log) == catalogs[n] <==>
            ChangesAreSlashFree(catalogs[n - 1], catalogs[n])
  {
    LastCatalogIsSaved(catalogs[..n], sorted);
    CallReplays(Run(catalogs[..n], sorted), catalogs[0], catalogs[n], sorted);
    RunExtends(catalogs, n, sorted);
  }

  lemma {:induction false} ReplaysUpTo(catalogs: seq<Snapshot>, n: nat, sorted: set<Id> -> seq<Id>)
    requires Enumerates(sorted) && 1 <= n <= |catalogs| && HistoryIsSlashFree(catalogs)
    ensures Replay(catalogs[0], Run(catalogs[..n], sorted).log) == catalogs[n - 1]
    decreases n
  {
    if n == 1 {
      assert catalogs[..1][..0] == [];
    } else {
      ReplaysUpTo(catalogs, n - 1, sorted);
      BoundaryReplaysIff(catalogs, n - 1, sorted);
      var m := n - 1;
      assert ChangesAreSlashFree(catalogs[n - 2], catalogs[m]);
    }
  }

  /** Over any history of catalogs: the log, replayed on the first catalog, agrees with the saved
      snapshot at every call boundary exactly when no item that ever changed has a slash in its
      domain. */
  lemma LogIsFaithfulIff(catalogs: seq<Snapshot>, sorted: set<Id> -> seq<Id>)
    requires Enumerates(sorted)
    ensures LogIsFaithful(catalogs, sorted) <==> HistoryIsSlashFree(catalogs)
  {
    if HistoryIsSlashFree(catalogs) {
      forall n | 1 <= n <= |catalogs|
        ensures Replay(catalogs[0], Run(catalogs[..n], sorted).log) == catalogs[n - 1]
      {
        ReplaysUpTo(catalogs, n, sorted);
      }
    }
    if LogIsFaithful(catalogs, sorted) {
      forall n, m | 0 <= n && m == n + 1 < |catalogs|
        ensures ChangesAreSlashFree(catalogs[n], catalogs[m])
      {
        BoundaryReplaysIff(catalogs, m, sorted);
      }
    }
  }

  // ---------------------------------------------------------------- interrupted calls

  /** The first `k` events of a call, or all of them. */
  function LoggedPart(p: Snapshot, c: Snapshot, k: nat, sorted: set<Id> -> seq<Id>): seq<Event>
  {
    var events := Logged(p, c, sorted);
    if k <= |events| then events[..k] else events
  }

  /** The process stops after logging `k` events and before the snapshot is saved. */
  function Interrupted(st: Store, current: Snapshot, k: nat, sorted: set<Id> -> seq<Id>): Store
  {
    match Previous(st)
    case None => st
    case Some(p) => st.(log := st.log + LoggedPart(p, current, k, sorted))
  }

  /** What was already logged still holds of `c`. */
  ghost predicate StillHolds(log: seq<Event>, c: Snapshot)
  {
    forall kind, added, id :: Says(log, kind, added, id) ==> Has(c, kind, id) == added
  }

  lemma PartSays(p: Snapshot, c: Snapshot, k: nat, sorted: set<Id> -> seq<Id>, kind: Kind, added: bool, id: Id)
    requires Enumerates(sorted) && ChangesAreSlashFree(p, c) && Says(LoggedPart(p, c, k, sorted), kind, added, id)
    ensures Changed(p, c, kind, added, id)
  {
    var events := Logged(p, c, sorted);
    LoggedSays(p, c, sorted, kind, added, id);
    if k <= |events| {
      SaysConcatenates(events[..k], events[k..], kind, added, id);
      assert events[..k] + events[k..] == events;
    }
  }

  lemma PartMembers(p: Snapshot, c: Snapshot, d: Snapshot, k: nat, sorted: set<Id> -> seq<Id>, kind: Kind, id: Id)
    requires Enumerates(sorted) && ChangesAreSlashFree(p, c) && ChangesAreSlashFree(p, d)
    ensures var part := LoggedPart(p, c, k, sorted);
            Has(Replay(Replay(p, part), Logged(p, d, sorted)), kind, id) == Has(d, kind, id) <==>
            (Says(part, kind, true, id) ==> Has(d, kind, id)) && (Says(part, kind, false, id) ==> !Has(d, kind, id))
  {
    var part := LoggedPart(p, c, k, sorted);
    if Says(part, kind, true, id) {
      PartSays(p, c, k, sorted, kind, true, id);
    }
    if Says(part, kind, false, id) {
      PartSays(p, c, k, sorted, kind, false, id);
    }
    LoggedSays(p, d, sorted, kind, true, id);
    LoggedSays(p, d, sorted, kind, false, id);
    ReplayMembers(p, part, kind, id);
    ReplayMembers(Replay(p, part), Logged(p, d, sorted), kind, id);
  }

  lemma PartThenNextIff(p: Snapshot, c: Snapshot, d: Snapshot, k: nat, sorted: set<Id> -> seq<Id>)
    requires Enumerates(sorted) && ChangesAreSlashFree(p, c) && ChangesAreSlashFree(p, d)
    ensures var part := LoggedPart(p, c, k, sorted);
            Replay(Replay(p, part), Logged(p, d, sorted)) == d <==> StillHolds(part, d)
  {
    var (part, next) := (LoggedPart(p, c, k, sorted), Logged(p, d, sorted));
    var result := Replay(Replay(p, part), next);
    if StillHolds(part, d) {
      forall kind, id
        ensures Has(result, kind, id) <==> Has(d, kind, id)
      {
        PartMembers(p, c, d, k, sorted, kind, id);
      }
      SameMembers(result, d);
    }
    if result == d {
      forall kind, added, id | Says(part, kind, added, id)
        ensures Has(d, kind, id) == added
      {
        PartMembers(p, c, d, k, sorted, kind, id);
      }
    }
  }

  lemma CallAppends(st: Store, current: Snapshot, sorted: set<Id> -> seq<Id>)
    requires Enumerates(sorted) && st.saved.Some?
    ensures Call(st, current, sorted).log == st.log + Logged(FromDict(st.saved.value), current, sorted)
  {
  }

  /** After an interrupted call the next call repairs the log exactly when everything the first one
      had logged is still true of the catalog by then. */
  lemma InterruptionIsRepairedIff(st: Store, baseline: Snapshot, c: Snapshot, d: Snapshot, k: nat,
          sorted: set<Id> -> seq<Id>)
    requires Enumerates(sorted) && st.saved.Some? && Replay(baseline, st.log) == FromDict(st.saved.value)
    requires ChangesAreSlashFree(FromDict(st.saved.value), c) && ChangesAreSlashFree(FromDict(st.saved.value), d)
    ensures Replay(baseline, Call(Interrupted(st, c, k, sorted), d, sorted).log) == d <==>
            StillHolds(LoggedPart(FromDict(st.saved.value), c, k, sorted), d)
  {
    var p := FromDict(st.saved.value);
    var (part, next) := (LoggedPart(p, c, k, sorted), Logged(p, d, sorted));
    CallAppends(Interrupted(st, c, k, sorted), d, sorted);
    ReplayConcatenates(baseline, st.log + part, next);
    ReplayConcatenates(baseline, st.log, part);
    PartThenNextIff(p, c, d, k, sorted);
  }

  /** So a retry on an unchanged catalog always repairs it. */
  lemma RetryRepairs(st: Store, baseline: Snapshot, c: Snapshot, k: nat, sorted: set<Id> -> seq<Id>)
    requires Enumerates(sorted) && st.saved.Some? && Replay(baseline, st.log) == FromDict(st.saved.value)
    requires ChangesAreSlashFree(FromDict(st.saved.value), c)
    ensures Replay(baseline, Call(Interrupted(st, c, k, sorted), c, sorted).log) == c
  {
    var p := FromDict(st.saved.value);
    forall kind, added, id | Says(LoggedPart(p, c, k, sorted), kind, added, id)
      ensures Has(c, kind, id) == added
    {
      PartSays(p, c, k, sorted, kind, added, id);
    }
    InterruptionIsRepairedIff(st, baseline, c, c, k, sorted);
  }
}
