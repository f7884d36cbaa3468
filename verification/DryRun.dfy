/** The dry run of a manifest pack: `apply_yaml`'s document loop (src/agentit/kube.py) under
    `dry_run_manifests_against_cluster`'s file loop (src/agentit/portal/cluster_apply.py).

    What the apiserver, discovery and the message patterns answer is a `World`; the breaker is
    closed throughout. */
module DryRun {
  import opened Options

  datatype Doc = Doc(kind: string, apiVersion: string, name: Option<string>, generateName: Option<string>,
                     namespace: string, rest: string)

  datatype File = File(path: string, yaml: bool, docs: seq<Doc>)

  datatype Served = Accepted | Conflicted(message: string) | Refused(message: string)

  datatype World = World(
    operatorNamespaces: set<string>,
    clusterScoped: set<string>,
    missingApi: string -> bool,            // kinds are known, and this one is not among them
    operators: set<string>,                // kinds an installable operator provides
    soft: string -> bool,                  // the Forbidden and missing-CRD patterns
    saysMissing: string -> bool,           // the "not found" wordings
    client: Option<string>,                // why no API client could be had, if so
    lookup: Doc -> Option<string>,         // why the kind was not found, if so
    serve: (Doc, string) -> Served)

  datatype Note = Note(path: string, message: string)

  // ---------------------------------------------------------------- one document

  function RStripDash(s: string): string
  {
    if s != "" && s[|s| - 1] == '-' then RStripDash(s[..|s| - 1]) else s
  }

  datatype Action = Apply(doc: Doc) | SkipNonK8s | SkipCrdMissing

  function ClassifyAndFix(w: World, doc: Doc, namespace: string): Action
  {
    if doc.kind == "" || doc.apiVersion == "" then SkipNonK8s
    else if w.missingApi(doc.kind) then SkipCrdMissing
    else
      var placed :=
        if doc.kind in w.clusterScoped || doc.namespace in w.operatorNamespaces then doc
        else doc.(namespace := namespace);
      Apply(if placed.generateName.Some? && placed.name.None? then
              placed.(name := Some(RStripDash(placed.generateName.value) + "-applied"), generateName := None)
            else placed)
  }

  /** `stem` is `text` without the dashes at its end. */
  predicate IsUndashed(stem: string, text: string)
  {
    && stem <= text && (stem != "" ==> stem[|stem| - 1] != '-')
    && forall k :: |stem| <= k < |text| ==> text[k] == '-'
  }

  lemma {:induction false} RStripDashIs(s: string)
    ensures IsUndashed(RStripDash(s), s)
    decreases |s|
  {
    if s != "" && s[|s| - 1] == '-' {
      RStripDashIs(s[..|s| - 1]);
    }
  }

  /** The namespace a document is moved to: cluster-scoped kinds and documents of an operator's namespace stay,
      all others go to the application's. */
  predicate IsPlaced(w: World, doc: Doc, namespace: string, sent: Doc)
  {
    && (doc.kind in w.clusterScoped || doc.namespace in w.operatorNamespaces ==> sent.namespace == doc.namespace)
    && (doc.kind !in w.clusterScoped && doc.namespace !in w.operatorNamespaces ==> sent.namespace == namespace)
  }

  /** A document without a name that asks for a generated one is named after that, less its dashes; any other
      is named as it was. */
  ghost predicate IsNamed(doc: Doc, sent: Doc)
  {
    if doc.name.None? && doc.generateName.Some? then
      exists stem :: sent.name == Some(stem + "-applied") && IsUndashed(stem, doc.generateName.value) && sent.generateName.None?
    else sent.name == doc.name && sent.generateName == doc.generateName
  }

  /** What is sent to the cluster: documents of a kind and version that is served there, placed and named so,
      and otherwise as they are. */
  lemma SentDocumentIs(w: World, doc: Doc, namespace: string)
    ensures var action := ClassifyAndFix(w, doc, namespace);
            && (action.Apply? <==> doc.kind != "" && doc.apiVersion != "" && !w.missingApi(doc.kind))
            && (action.SkipCrdMissing? <==> doc.kind != "" && doc.apiVersion != "" && w.missingApi(doc.kind))
            && (action.Apply? ==>
                  && IsPlaced(w, doc, namespace, action.doc) && IsNamed(doc, action.doc)
                  && action.doc.kind == doc.kind && action.doc.apiVersion == doc.apiVersion && action.doc.rest == doc.rest)
  {
    if doc.generateName.Some? {
      RStripDashIs(doc.generateName.value);
      assert IsUndashed(RStripDash(doc.generateName.value), doc.generateName.value);
    }
  }

  predicate HasName(doc: Doc) { doc.name.Some? && doc.name.value != "" }

  /** How one document of `apply_yaml` ends. */
  function Outcome(w: World, doc: Doc, namespace: string): Served
  {
    if doc.kind == "" || doc.apiVersion == "" || !HasName(doc) then
      Refused("document missing kind/apiVersion/name")
    else
      match w.lookup(doc)
      case Some(message) => Refused(message)
      case None => w.serve(doc, if doc.namespace == "" then namespace else doc.namespace)
  }

  // ---------------------------------------------------------------- apply_yaml

  datatype ApplyResult = Raised(message: string) | Ended(
    applied: bool, error: Option<string>, errors: seq<string>, conflict: bool, conflictDetails: seq<string>)

  function Failures(w: World, docs: seq<Doc>, namespace: string): seq<string>
  {
    if docs == [] then []
    else Failures(w, docs[..|docs| - 1], namespace) +
         match Outcome(w, docs[|docs| - 1], namespace) case Refused(m) => [m] case _ => []
  }

  function Conflicts(w: World, docs: seq<Doc>, namespace: string): seq<string>
  {
    if docs == [] then []
    else Conflicts(w, docs[..|docs| - 1], namespace) +
         match Outcome(w, docs[|docs| - 1], namespace) case Conflicted(m) => [m] case _ => []
  }

  function FirstError(w: World, docs: seq<Doc>, namespace: string): Option<string>
  {
    if docs == [] then None
    else
      var first := FirstError(w, docs[..|docs| - 1], namespace);
      if first.Some? then first
      else match Outcome(w, docs[|docs| - 1], namespace) case Accepted => None case o => Some(o.message)
  }

  function ApplyYaml(w: World, docs: seq<Doc>, namespace: string): ApplyResult
  {
    var (failures, conflicts) := (Failures(w, docs, namespace), Conflicts(w, docs, namespace));
    if docs == [] then Ended(true, None, [], false, [])
    else if w.client.Some? then Raised(w.client.value)
    else if failures == [] && conflicts == [] then Ended(true, None, [], false, [])
    else Ended(false, FirstError(w, docs, namespace), failures, failures == [], if failures == [] then conflicts else [])
  }

  method ApplyDocuments(w: World, docs: seq<Doc>, namespace: string) returns (r: ApplyResult)
    ensures r == ApplyYaml(w, docs, namespace)
  {
    if docs == [] {
      return Ended(true, None, [], false, []);
    }
    if w.client.Some? {
      return Raised(w.client.value);
    }
    var conflictDetails, errors := [], [];
    var first := None;
    var anyConflict, anyFailure := false, false;
    for i := 0 to |docs|
      invariant errors == Failures(w, docs[..i], namespace)
      invariant conflictDetails == Conflicts(w, docs[..i], namespace)
      invariant first == FirstError(w, docs[..i], namespace)
      invariant anyFailure <==> errors != []
      invariant anyConflict <==> conflictDetails != []
    {
      assert docs[..i + 1][..i] == docs[..i];
      match Outcome(w, docs[i], namespace) {
        case Accepted =>
        case Conflicted(message) =>
          anyConflict := true;
          conflictDetails := conflictDetails + [message];
          first := if first.Some? then first else Some(message);
        case Refused(message) =>
          anyFailure := true;
          errors := errors + [message];
          first := if first.Some? then first else Some(message);
      }
    }
    assert docs[..|docs|] == docs;
    if !anyFailure && !anyConflict {
      return Ended(true, None, [], false, []);
    }
    return Ended(false, first, errors, anyConflict && !anyFailure,
                 if anyConflict && !anyFailure then conflictDetails else []);
  }

  lemma {:induction false} FailuresAre(w: World, docs: seq<Doc>, namespace: string, message: string)
    ensures message in Failures(w, docs, namespace) <==>
            exists d :: d in docs && Outcome(w, d, namespace) == Refused(message)
    decreases |docs|
  {
    if docs != [] {
      var last := docs[|docs| - 1];
      FailuresAre(w, docs[..|docs| - 1], namespace, message);
      assert docs == docs[..|docs| - 1] + [last];
      assert forall d :: d in docs <==> d in docs[..|docs| - 1] || d == last;
    }
  }

  lemma {:induction false} SomethingWentWrong(w: World, docs: seq<Doc>, namespace: string)
    ensures FirstError(w, docs, namespace).None? <==>
            Failures(w, docs, namespace) == [] && Conflicts(w, docs, namespace) == []
    decreases |docs|
  {
    if docs != [] {
      SomethingWentWrong(w, docs[..|docs| - 1], namespace);
    }
  }

  /** A result that neither applied nor is a pure conflict names the failure of every failed document;
      a conflict is flagged only when no document failed. */
  lemma ApplyReportsEveryFailure(w: World, docs: seq<Doc>, namespace: string)
    ensures var r := ApplyYaml(w, docs, namespace);
            r.Ended? ==>
              && (!r.applied && !r.conflict ==> r.errors != [])
              && (r.applied ==> !r.conflict && r.error.None?)
              && (!r.applied ==> r.error.Some?)
              && (r.conflict ==> forall d :: d in docs ==> !Outcome(w, d, namespace).Refused?)
              && (docs != [] ==> forall d :: d in docs && Outcome(w, d, namespace).Refused? ==>
                                   Outcome(w, d, namespace).message in r.errors)
  {
    SomethingWentWrong(w, docs, namespace);
    forall d | d in docs && Outcome(w, d, namespace).Refused?
      ensures Outcome(w, d, namespace).message in Failures(w, docs, namespace)
    {
      FailuresAre(w, docs, namespace, Outcome(w, d, namespace).message);
    }
  }

  // ---------------------------------------------------------------- one file

  datatype Report = Report(
    applied: seq<string>, skipped: seq<string>, skippedPaths: seq<string>, errors: seq<Note>,
    warnings: seq<Note>, conflicts: seq<Note>, missingOperators: set<string>, repoFiles: seq<string>)

  const EMPTY := Report([], [], [], [], [], [], {}, [])

  function Plus(a: Report, b: Report): Report
  {
    Report(a.applied + b.applied, a.skipped + b.skipped, a.skippedPaths + b.skippedPaths, a.errors + b.errors,
           a.warnings + b.warnings, a.conflicts + b.conflicts, a.missingOperators + b.missingOperators,
           a.repoFiles + b.repoFiles)
  }

  predicate Blank(message: string) { forall c :: c in message ==> c in " \t\n\r" }

  predicate IsSoft(w: World, message: string) { !Blank(message) && w.soft(message) }

  function ApplyDocs(w: World, docs: seq<Doc>, namespace: string): seq<Doc>
  {
    if docs == [] then []
    else ApplyDocs(w, docs[..|docs| - 1], namespace) +
         match ClassifyAndFix(w, docs[|docs| - 1], namespace) case Apply(d) => [d] case _ => []
  }

  function MissingKinds(w: World, docs: seq<Doc>, namespace: string): set<string>
  {
    set d | d in docs && ClassifyAndFix(w, d, namespace) == SkipCrdMissing && d.kind in w.operators :: d.kind
  }

  function Kinds(w: World, docs: seq<Doc>): set<string>
  {
    set d | d in docs && d.kind in w.operators :: d.kind
  }

  function Tagged(path: string, messages: seq<string>): (notes: seq<Note>)
    ensures |notes| == |messages|
  {
    seq(|messages|, i requires 0 <= i < |messages| => Note(path, messages[i]))
  }

  function Select(w: World, messages: seq<string>, soft: bool): seq<string>
  {
    if messages == [] then []
    else Select(w, messages[..|messages| - 1], soft) +
         (if IsSoft(w, messages[|messages| - 1]) == soft then [messages[|messages| - 1]] else [])
  }

  const UNKNOWN := "unknown dry-run failure"

  /** The operators a file's soft failures call for: those of all its kinds once one says "not found". */
  function Named(w: World, applyDocs: seq<Doc>, soft: seq<string>): set<string>
  {
    if exists m | m in soft :: w.saysMissing(m) then Kinds(w, applyDocs) else {}
  }

  lemma NamedOneMore(w: World, applyDocs: seq<Doc>, soft: seq<string>, m: string)
    ensures Named(w, applyDocs, soft + [m]) == if w.saysMissing(m) then Kinds(w, applyDocs) else Named(w, applyDocs, soft)
  {
    assert forall x :: x in soft + [m] <==> x in soft || x == m;
  }

  function FailedReport(w: World, path: string, applyDocs: seq<Doc>, missing: set<string>, perDoc: seq<string>): Report
  {
    var hard, soft := Select(w, perDoc, false), Select(w, perDoc, true);
    var named := Named(w, applyDocs, soft);
    EMPTY.(
      errors := Tagged(path, hard) + (if hard == [] && soft == [] then [Note(path, UNKNOWN)] else []),
      skipped := if soft == [] then [] else [path],
      skippedPaths := if soft == [] then [] else [path],
      warnings := Tagged(path, soft),
      missingOperators := missing + named)
  }

  function FileReport(w: World, f: File, namespace: string): Report
  {
    if !f.yaml then EMPTY.(repoFiles := [f.path])
    else if f.docs == [] then EMPTY.(skipped := [f.path])
    else
      var applyDocs := ApplyDocs(w, f.docs, namespace);
      var missing := MissingKinds(w, f.docs, namespace);
      if applyDocs == [] then
        EMPTY.(skipped := [f.path], skippedPaths := [f.path], missingOperators := missing,
               warnings := [Note(f.path, "skipped - missing API / unsupported on cluster")])
      else
        match ApplyYaml(w, applyDocs, namespace)
        case Raised(message) =>
          if IsSoft(w, message) then
            EMPTY.(skipped := [f.path], skippedPaths := [f.path], warnings := [Note(f.path, message)], missingOperators := missing)
          else EMPTY.(errors := [Note(f.path, message)], missingOperators := missing)
        case Ended(applied, error, errors, conflict, details) =>
          if applied then EMPTY.(applied := [f.path], missingOperators := missing)
          else if conflict then
            var note := Note(f.path, if error.Some? then error.value else "");
            EMPTY.(conflicts := [note], warnings := [note], missingOperators := missing)
          else
            FailedReport(w, f.path, applyDocs, missing,
                         if errors == [] && error.Some? then [error.value] else errors)
  }

  // ---------------------------------------------------------------- the pack

  function DryRunFiles(w: World, files: seq<File>, namespace: string): Report
  {
    if files == [] then EMPTY
    else Plus(DryRunFiles(w, files[..|files| - 1], namespace), FileReport(w, files[|files| - 1], namespace))
  }

  method DryRunManifests(w: World, files: seq<File>, namespace: string) returns (r: Report)
    ensures r == DryRunFiles(w, files, namespace)
  {
    r := EMPTY;
    for i := 0 to |files|
      invariant r == DryRunFiles(w, files[..i], namespace)
    {
      assert files[..i + 1][..i] == files[..i];
      var one := DryRunOne(w, files[i], namespace);
      r := Plus(r, one);
    }
    assert files[..|files|] == files;
  }

  method DryRunOne(w: World, f: File, namespace: string) returns (r: Report)
    ensures r == FileReport(w, f, namespace)
  {
    if !f.yaml {
      return EMPTY.(repoFiles := [f.path]);
    }
    if f.docs == [] {
      return EMPTY.(skipped := [f.path]);
    }
    var applyDocs := [];
    var missing: set<string> := {};
    for i := 0 to |f.docs|
      invariant applyDocs == ApplyDocs(w, f.docs[..i], namespace)
      invariant missing == MissingKinds(w, f.docs[..i], namespace)
    {
      assert f.docs[..i + 1] == f.docs[..i] + [f.docs[i]];
      assert f.docs[..i + 1][..i] == f.docs[..i];
      match ClassifyAndFix(w, f.docs[i], namespace) {
        case Apply(doc) => applyDocs := applyDocs + [doc];
        case SkipNonK8s =>
        case SkipCrdMissing =>
          if f.docs[i].kind in w.operators {
            missing := missing + {f.docs[i].kind};
          }
      }
    }
    assert f.docs[..|f.docs|] == f.docs;
    if applyDocs == [] {
      return EMPTY.(skipped := [f.path], skippedPaths := [f.path], missingOperators := missing,
                    warnings := [Note(f.path, "skipped - missing API / unsupported on cluster")]);
    }
    var result := ApplyDocuments(w, applyDocs, namespace);
    match result {
      case Raised(message) =>
        if IsSoft(w, message) {
          return EMPTY.(skipped := [f.path], skippedPaths := [f.path], warnings := [Note(f.path, message)],
                        missingOperators := missing);
        }
        return EMPTY.(errors := [Note(f.path, message)], missingOperators := missing);
      case Ended(applied, error, errors, conflict, details) =>
        if applied {
          return EMPTY.(applied := [f.path], missingOperators := missing);
        }
        if conflict {
          var note := Note(f.path, if error.Some? then error.value else "");
          return EMPTY.(conflicts := [note], warnings := [note], missingOperators := missing);
        }
        var perDoc := if errors == [] && error.Some? then [error.value] else errors;
        r := SortFailures(w, f.path, applyDocs, missing, perDoc);
    }
  }

  method SortFailures(w: World, path: string, applyDocs: seq<Doc>, missing: set<string>, perDoc: seq<string>)
    returns (r: Report)
    ensures r == FailedReport(w, path, applyDocs, missing, perDoc)
  {
    var fileHard, fileSoft := [], [];
    var named: set<string> := {};
    for i := 0 to |perDoc|
      invariant fileHard == Tagged(path, Select(w, perDoc[..i], false))
      invariant fileSoft == Tagged(path, Select(w, perDoc[..i], true))
      invariant named == Named(w, applyDocs, Select(w, perDoc[..i], true))
    {
      assert perDoc[..i + 1][..i] == perDoc[..i];
      if IsSoft(w, perDoc[i]) {
        NamedOneMore(w, applyDocs, Select(w, perDoc[..i], true), perDoc[i]);
        fileSoft := fileSoft + [Note(path, perDoc[i])];
        if w.saysMissing(perDoc[i]) {
          named := Kinds(w, applyDocs);
        }
      } else {
        fileHard := fileHard + [Note(path, perDoc[i])];
      }
    }
    assert perDoc[..|perDoc|] == perDoc;
    r := EMPTY.(errors := fileHard, missingOperators := missing + named);
    if fileSoft != [] {
      r := r.(skipped := [path], skippedPaths := [path], warnings := fileSoft);
    }
    if fileHard == [] && fileSoft == [] {
      r := r.(errors := [Note(path, UNKNOWN)]);
    }
  }

  // ---------------------------------------------------------------- what a dry run promises

  lemma PlusAssociates(a: Report, b: Report, c: Report)
    ensures Plus(Plus(a, b), c) == Plus(a, Plus(b, c))
    ensures Plus(a, EMPTY) == a == Plus(EMPTY, a)
  {
  }

  /** No file's verdict depends on the files it is checked with. */
  lemma {:induction false} DryRunDistributes(w: World, a: seq<File>, b: seq<File>, namespace: string)
    ensures DryRunFiles(w, a + b, namespace) == Plus(DryRunFiles(w, a, namespace), DryRunFiles(w, b, namespace))
    decreases |b|
  {
    if b == [] {
      assert a + b == a;
      PlusAssociates(DryRunFiles(w, a, namespace), EMPTY, EMPTY);
    } else {
      var n := |b| - 1;
      assert (a + b)[..|a + b| - 1] == a + b[..n];
      DryRunDistributes(w, a, b[..n], namespace);
      PlusAssociates(DryRunFiles(w, a, namespace), DryRunFiles(w, b[..n], namespace), FileReport(w, b[n], namespace));
    }
  }

  lemma {:induction false} SelectIs(w: World, messages: seq<string>, soft: bool, m: string)
    ensures m in Select(w, messages, soft) <==> m in messages && IsSoft(w, m) == soft
    decreases |messages|
  {
    if messages != [] {
      SelectIs(w, messages[..|messages| - 1], soft, m);
      assert messages == messages[..|messages| - 1] + [messages[|messages| - 1]];
    }
  }

  /** The file cannot be applied and the reason is not one the loop may skip over. */
  ghost predicate FailsHard(w: World, f: File, namespace: string)
  {
    var docs := ApplyDocs(w, f.docs, namespace);
    && f.yaml && docs != []
    && match w.client
       case Some(message) => !IsSoft(w, message)
       case None => exists d :: d in docs && Outcome(w, d, namespace).Refused? && !IsSoft(w, Outcome(w, d, namespace).message)
  }

  lemma FailedReportErrors(w: World, path: string, applyDocs: seq<Doc>, missing: set<string>, perDoc: seq<string>)
    requires perDoc != []
    ensures var r := FailedReport(w, path, applyDocs, missing, perDoc);
            && (r.errors != [] <==> exists m :: m in perDoc && !IsSoft(w, m))
            && (forall note :: note in r.errors ==> note.path == path)
            && (r.skippedPaths == [] || r.skippedPaths == [path])
  {
    var hard := Select(w, perDoc, false);
    if hard != [] {
      SelectIs(w, perDoc, false, hard[0]);
    } else {
      SelectIs(w, perDoc, IsSoft(w, perDoc[0]), perDoc[0]);
      forall m | m in perDoc
        ensures IsSoft(w, m)
      {
        SelectIs(w, perDoc, false, m);
      }
    }
  }

  lemma RefusalsAreFailures(w: World, docs: seq<Doc>, namespace: string)
    ensures (exists m :: m in Failures(w, docs, namespace) && !IsSoft(w, m)) <==>
            exists d :: d in docs && Outcome(w, d, namespace).Refused? && !IsSoft(w, Outcome(w, d, namespace).message)
  {
    if m :| m in Failures(w, docs, namespace) && !IsSoft(w, m) {
      FailuresAre(w, docs, namespace, m);
    }
    if d :| d in docs && Outcome(w, d, namespace).Refused? && !IsSoft(w, Outcome(w, d, namespace).message) {
      FailuresAre(w, docs, namespace, Outcome(w, d, namespace).message);
    }
  }

  lemma FileErrorsAreHardFailures(w: World, f: File, namespace: string)
    ensures var r := FileReport(w, f, namespace);
            && (r.errors != [] <==> FailsHard(w, f, namespace))
            && (forall note :: note in r.errors ==> note.path == f.path)
            && (r.skippedPaths == [] || r.skippedPaths == [f.path])
  {
    var docs := ApplyDocs(w, f.docs, namespace);
    if f.yaml && f.docs != [] && docs != [] && w.client.None? {
      RefusalsAreFailures(w, docs, namespace);
      ApplyReportsEveryFailure(w, docs, namespace);
      var r := ApplyYaml(w, docs, namespace);
      if !r.applied && !r.conflict {
        FailedReportErrors(w, f.path, docs, MissingKinds(w, f.docs, namespace), r.errors);
      }
    }
  }

  ghost predicate Mentions(notes: seq<Note>, path: string)
  {
    exists i :: 0 <= i < |notes| && notes[i].path == path
  }

  ghost predicate SomeFailsHard(w: World, files: seq<File>, namespace: string, path: string)
  {
    exists f :: f in files && f.path == path && FailsHard(w, f, namespace)
  }

  lemma MentionsEither(a: seq<Note>, b: seq<Note>, path: string)
    ensures Mentions(a + b, path) <==> Mentions(a, path) || Mentions(b, path)
  {
    if i :| 0 <= i < |a| && a[i].path == path {
      assert (a + b)[i].path == path;
    }
    if i :| 0 <= i < |b| && b[i].path == path {
      assert (a + b)[|a| + i].path == path;
    }
    if i :| 0 <= i < |a + b| && (a + b)[i].path == path {
      assert if i < |a| then a[i].path == path else b[i - |a|].path == path;
    }
  }

  lemma FileIsMentioned(w: World, f: File, namespace: string, path: string)
    ensures Mentions(FileReport(w, f, namespace).errors, path) <==> f.path == path && FailsHard(w, f, namespace)
  {
    FileErrorsAreHardFailures(w, f, namespace);
    var errors := FileReport(w, f, namespace).errors;
    if errors != [] {
      assert errors[0] in errors && errors[0].path == f.path;
    }
    if i :| 0 <= i < |errors| && errors[i].path == path {
      assert errors[i] in errors;
    }
  }

  lemma OneMoreFailsHard(w: World, files: seq<File>, f: File, namespace: string, path: string)
    ensures SomeFailsHard(w, files + [f], namespace, path) <==>
            SomeFailsHard(w, files, namespace, path) || (f.path == path && FailsHard(w, f, namespace))
  {
    assert forall g :: g in files + [f] <==> g in files || g == f;
  }

  /** A path is among the errors exactly when one of its files fails hard: a soft failure or a
      conflict on one document never hides a hard one, and nothing else is ever an error. */
  lemma {:induction false} ErrorsAreHardFailures(w: World, files: seq<File>, namespace: string, path: string)
    ensures Mentions(DryRunFiles(w, files, namespace).errors, path) <==> SomeFailsHard(w, files, namespace, path)
    decreases |files|
  {
    if files != [] {
      var (rest, last) := (files[..|files| - 1], files[|files| - 1]);
      ErrorsAreHardFailures(w, rest, namespace, path);
      FileIsMentioned(w, last, namespace, path);
      MentionsEither(DryRunFiles(w, rest, namespace).errors, FileReport(w, last, namespace).errors, path);
      OneMoreFailsHard(w, rest, last, namespace, path);
      assert files == rest + [last];
    }
  }

  /** Every hard-failing document's own message is reported under its file. */
  lemma HardDocumentIsReported(w: World, f: File, namespace: string, d: Doc)
    requires f.yaml && w.client.None? && d in ApplyDocs(w, f.docs, namespace)
    requires Outcome(w, d, namespace).Refused? && !IsSoft(w, Outcome(w, d, namespace).message)
    ensures Note(f.path, Outcome(w, d, namespace).message) in FileReport(w, f, namespace).errors
  {
    var docs := ApplyDocs(w, f.docs, namespace);
    var m := Outcome(w, d, namespace).message;
    ApplyReportsEveryFailure(w, docs, namespace);
    FailuresAre(w, docs, namespace, m);
    var hard := Select(w, Failures(w, docs, namespace), false);
    SelectIs(w, Failures(w, docs, namespace), false, m);
    var i :| 0 <= i < |hard| && hard[i] == m;
    assert Tagged(f.path, hard)[i] == Note(f.path, m);
  }

  /** The fallback error of the code is dead: without a hard or soft message there is no failure. */
  lemma FailureAlwaysHasAReason(w: World, f: File, namespace: string)
    requires f.yaml && ApplyDocs(w, f.docs, namespace) != []
    ensures var r := ApplyYaml(w, ApplyDocs(w, f.docs, namespace), namespace);
            r.Ended? && !r.applied && !r.conflict ==> Select(w, r.errors, false) != [] || Select(w, r.errors, true) != []
  {
    var docs := ApplyDocs(w, f.docs, namespace);
    ApplyReportsEveryFailure(w, docs, namespace);
    var messages := Failures(w, docs, namespace);
    if messages != [] {
      SelectIs(w, messages, IsSoft(w, messages[0]), messages[0]);
    }
  }

  lemma {:induction false} ConflictsAre(w: World, docs: seq<Doc>, namespace: string)
    ensures Conflicts(w, docs, namespace) != [] <==> exists d :: d in docs && Outcome(w, d, namespace).Conflicted?
    decreases |docs|
  {
    if docs != [] {
      var last := docs[|docs| - 1];
      ConflictsAre(w, docs[..|docs| - 1], namespace);
      assert docs == docs[..|docs| - 1] + [last];
      assert forall d :: d in docs <==> d in docs[..|docs| - 1] || d == last;
    }
  }

  lemma NoFailuresIff(w: World, docs: seq<Doc>, namespace: string)
    ensures Failures(w, docs, namespace) == [] <==> forall d :: d in docs ==> !Outcome(w, d, namespace).Refused?
  {
    var failures := Failures(w, docs, namespace);
    if failures != [] {
      FailuresAre(w, docs, namespace, failures[0]);
    }
    forall d | d in docs && Outcome(w, d, namespace).Refused?
      ensures failures != []
    {
      FailuresAre(w, docs, namespace, Outcome(w, d, namespace).message);
    }
  }

  /** `apply_yaml` on a reachable cluster: applied exactly when every document was accepted, a pure
      conflict exactly when none was refused and some conflicted. */
  lemma ApplyVerdictIs(w: World, docs: seq<Doc>, namespace: string)
    requires docs != [] && w.client.None?
    ensures var r := ApplyYaml(w, docs, namespace);
            && r.Ended?
            && (r.applied <==> forall d :: d in docs ==> Outcome(w, d, namespace).Accepted?)
            && (r.conflict <==> (forall d :: d in docs ==> !Outcome(w, d, namespace).Refused?) &&
                                exists d :: d in docs && Outcome(w, d, namespace).Conflicted?)
  {
    NoFailuresIff(w, docs, namespace);
    ConflictsAre(w, docs, namespace);
  }

  /** Some refusal is soft: a missing kind or a Forbidden. */
  ghost predicate RefusedSoftly(w: World, docs: seq<Doc>, namespace: string)
  {
    exists d :: d in docs && Outcome(w, d, namespace).Refused? && IsSoft(w, Outcome(w, d, namespace).message)
  }

  lemma SoftRefusals(w: World, docs: seq<Doc>, namespace: string)
    ensures Select(w, Failures(w, docs, namespace), true) != [] <==> RefusedSoftly(w, docs, namespace)
  {
    var (failures, soft) := (Failures(w, docs, namespace), Select(w, Failures(w, docs, namespace), true));
    if soft != [] {
      SelectIs(w, failures, true, soft[0]);
      FailuresAre(w, docs, namespace, soft[0]);
    }
    if d :| d in docs && Outcome(w, d, namespace).Refused? && IsSoft(w, Outcome(w, d, namespace).message) {
      FailuresAre(w, docs, namespace, Outcome(w, d, namespace).message);
      SelectIs(w, failures, true, Outcome(w, d, namespace).message);
    }
  }

  /** Which verdict a parsed manifest gets, in terms of its documents alone: validated, in conflict,
      dropped from the pack. (Errors: FileErrorsAreHardFailures.) */
  lemma FileVerdictIs(w: World, f: File, namespace: string)
    requires f.yaml && f.docs != []
    ensures var (r, docs) := (FileReport(w, f, namespace), ApplyDocs(w, f.docs, namespace));
            && (r.applied != [] <==>
                docs != [] && w.client.None? && forall d :: d in docs ==> Outcome(w, d, namespace).Accepted?)
            && (r.conflicts != [] <==>
                && docs != [] && w.client.None? && (forall d :: d in docs ==> !Outcome(w, d, namespace).Refused?)
                && exists d :: d in docs && Outcome(w, d, namespace).Conflicted?)
            && (r.skippedPaths != [] <==>
                if docs == [] then true
                else if w.client.Some? then IsSoft(w, w.client.value)
                else RefusedSoftly(w, docs, namespace))
  {
    var docs := ApplyDocs(w, f.docs, namespace);
    if docs != [] && w.client.None? {
      ApplyVerdictIs(w, docs, namespace);
      SoftRefusals(w, docs, namespace);
      NoFailuresIff(w, docs, namespace);
      ApplyReportsEveryFailure(w, docs, namespace);
    }
  }

  predicate HasVerdict(r: Report, path: string)
  {
    path in r.applied || path in r.skipped || path in r.repoFiles ||
    (exists note | note in r.errors :: note.path == path) || (exists note | note in r.conflicts :: note.path == path)
  }

  lemma FileHasVerdict(w: World, f: File, namespace: string)
    ensures HasVerdict(FileReport(w, f, namespace), f.path)
  {
    var docs := ApplyDocs(w, f.docs, namespace);
    if f.yaml && f.docs != [] && docs != [] && w.client.None? {
      var r := ApplyYaml(w, docs, namespace);
      if !r.applied && !r.conflict {
        FailureAlwaysHasAReason(w, f, namespace);
        ApplyReportsEveryFailure(w, docs, namespace);
        var hard := Select(w, r.errors, false);
        if hard != [] {
          assert Tagged(f.path, hard)[0].path == f.path;
          assert Tagged(f.path, hard)[0] in FileReport(w, f, namespace).errors;
        }
      } else if r.conflict {
        assert FileReport(w, f, namespace).conflicts[0].path == f.path;
      }
    }
  }

  lemma VerdictsAddUp(a: Report, b: Report, path: string)
    requires HasVerdict(a, path) || HasVerdict(b, path)
    ensures HasVerdict(Plus(a, b), path)
  {
  }

  /** Every file gets a verdict, wherever it stands in the pack. */
  lemma {:induction false} EveryFileHasVerdict(w: World, files: seq<File>, namespace: string, f: File)
    requires f in files
    ensures HasVerdict(DryRunFiles(w, files, namespace), f.path)
    decreases |files|
  {
    var n := |files| - 1;
    if f == files[n] {
      FileHasVerdict(w, f, namespace);
    } else {
      EveryFileHasVerdict(w, files[..n], namespace, f);
    }
    VerdictsAddUp(DryRunFiles(w, files[..n], namespace), FileReport(w, files[n], namespace), f.path);
  }

  ghost predicate Skips(w: World, f: File, namespace: string)
  {
    FileReport(w, f, namespace).skippedPaths != []
  }

  ghost predicate SomeSkips(w: World, files: seq<File>, namespace: string, path: string)
  {
    exists f :: f in files && f.path == path && Skips(w, f, namespace)
  }

  lemma OneMoreSkip(w: World, files: seq<File>, f: File, namespace: string, path: string)
    requires path in DryRunFiles(w, files, namespace).skippedPaths <==> SomeSkips(w, files, namespace, path)
    ensures path in Plus(DryRunFiles(w, files, namespace), FileReport(w, f, namespace)).skippedPaths <==>
            SomeSkips(w, files + [f], namespace, path)
  {
    FileErrorsAreHardFailures(w, f, namespace);
    assert forall g :: g in files + [f] <==> g in files || g == f;
  }

  /** The paths to drop are exactly those of files that are skipped on their own. */
  lemma {:induction false} SkippedPathsArePerFile(w: World, files: seq<File>, namespace: string, path: string)
    ensures path in DryRunFiles(w, files, namespace).skippedPaths <==> SomeSkips(w, files, namespace, path)
    decreases |files|
  {
    if files != [] {
      var n := |files| - 1;
      SkippedPathsArePerFile(w, files[..n], namespace, path);
      OneMoreSkip(w, files[..n], files[n], namespace, path);
      assert files == files[..n] + [files[n]];
    }
  }
}
