/** What a dry run reports of a file, said of the documents as they stand in it
    (src/agentit/portal/cluster_apply.py, src/agentit/kube.py). */
module DryRunReports {
  import opened DryRun
  import opened Options
  import opened Sequences

  // ---------------------------------------------------------------- what is sent

  /** `sent` is what the cluster gets for `doc`. */
  ghost predicate IsSent(w: World, doc: Doc, namespace: string, sent: Doc)
  {
    && doc.kind != "" && doc.apiVersion != "" && !w.missingApi(doc.kind)
    && IsPlaced(w, doc, namespace, sent) && IsNamed(doc, sent)
    && sent.kind == doc.kind && sent.apiVersion == doc.apiVersion && sent.rest == doc.rest
  }

  lemma LongerEndsInADash(stem: string, longer: string, text: string)
    requires IsUndashed(stem, text) && longer <= text && |stem| < |longer|
    ensures longer[|longer| - 1] == '-'
  {
  }

  lemma UndashedIsUnique(stem: string, other: string, text: string)
    requires IsUndashed(stem, text) && IsUndashed(other, text)
    ensures stem == other
  {
    if |stem| < |other| {
      LongerEndsInADash(stem, other, text);
    } else if |other| < |stem| {
      LongerEndsInADash(other, stem, text);
    }
  }

  lemma SentIff(w: World, doc: Doc, namespace: string, sent: Doc)
    ensures ClassifyAndFix(w, doc, namespace) == Apply(sent) <==> IsSent(w, doc, namespace, sent)
  {
    SentDocumentIs(w, doc, namespace);
    if IsSent(w, doc, namespace, sent) {
      var own := ClassifyAndFix(w, doc, namespace).doc;
      if doc.name.None? && doc.generateName.Some? {
        SameName(doc, sent, own);
      }
      assert sent.namespace == own.namespace;
    }
  }

  lemma SameName(doc: Doc, a: Doc, b: Doc)
    requires doc.name.None? && doc.generateName.Some? && IsNamed(doc, a) && IsNamed(doc, b)
    ensures a.name == b.name && a.generateName == b.generateName
  {
    var s :| a.name == Some(s + "-applied") && IsUndashed(s, doc.generateName.value);
    var t :| b.name == Some(t + "-applied") && IsUndashed(t, doc.generateName.value);
    UndashedIsUnique(s, t, doc.generateName.value);
  }

  ghost predicate IsSentFor(w: World, docs: seq<Doc>, namespace: string, sent: Doc)
  {
    exists doc :: doc in docs && IsSent(w, doc, namespace, sent)
  }

  lemma {:induction false} ApplyDocsAre(w: World, docs: seq<Doc>, namespace: string, sent: Doc)
    ensures sent in ApplyDocs(w, docs, namespace) <==> IsSentFor(w, docs, namespace, sent)
    decreases |docs|
  {
    if docs != [] {
      var (rest, last) := (docs[..|docs| - 1], docs[|docs| - 1]);
      ApplyDocsAre(w, rest, namespace, sent);
      SentIff(w, last, namespace, sent);
      assert docs == rest + [last];
    }
  }

  // ---------------------------------------------------------------- what becomes of it

  predicate IsNameless(doc: Doc) { doc.kind == "" || doc.apiVersion == "" || doc.name.None? || doc.name == Some("") }

  /** The cluster takes it, in its own namespace or, without one, in the application's. */
  predicate IsTaken(w: World, sent: Doc, namespace: string)
  {
    && !IsNameless(sent) && w.lookup(sent).None?
    && (sent.namespace == "" ==> w.serve(sent, namespace) == Accepted)
    && (sent.namespace != "" ==> w.serve(sent, sent.namespace) == Accepted)
  }

  /** Why it is refused: it has no name, its kind is not found, or the cluster says so. */
  predicate IsRefusedFor(w: World, sent: Doc, namespace: string, reason: string)
  {
    || (IsNameless(sent) && reason == "document missing kind/apiVersion/name")
    || (!IsNameless(sent) && w.lookup(sent) == Some(reason))
    || (!IsNameless(sent) && w.lookup(sent).None? && sent.namespace == "" && w.serve(sent, namespace) == Refused(reason))
    || (!IsNameless(sent) && w.lookup(sent).None? && sent.namespace != "" && w.serve(sent, sent.namespace) == Refused(reason))
  }

  lemma OutcomeIs(w: World, sent: Doc, namespace: string, reason: string)
    ensures Outcome(w, sent, namespace).Accepted? <==> IsTaken(w, sent, namespace)
    ensures Outcome(w, sent, namespace) == Refused(reason) <==> IsRefusedFor(w, sent, namespace, reason)
  {
  }

  /** A file is validated exactly when the cluster is reachable, something of it is sent, and all of that is
      taken. */
  lemma FileIsAppliedIff(w: World, f: File, namespace: string)
    requires f.yaml && f.docs != []
    ensures FileReport(w, f, namespace).applied == [f.path] <==>
            && w.client.None?
            && (exists sent :: IsSentFor(w, f.docs, namespace, sent))
            && (forall sent :: IsSentFor(w, f.docs, namespace, sent) ==> IsTaken(w, sent, namespace))
  {
    var docs := ApplyDocs(w, f.docs, namespace);
    FileVerdictIs(w, f, namespace);
    assert FileReport(w, f, namespace).applied != [] ==> FileReport(w, f, namespace).applied == [f.path];
    forall sent
      ensures sent in docs <==> IsSentFor(w, f.docs, namespace, sent)
      ensures Outcome(w, sent, namespace).Accepted? <==> IsTaken(w, sent, namespace)
    {
      ApplyDocsAre(w, f.docs, namespace, sent);
      OutcomeIs(w, sent, namespace, "");
    }
    if docs != [] {
      assert docs[0] in docs;
    }
  }

  /** Some of it is refused for a reason that a cluster without the kind or the right gives. */
  ghost predicate IsRefusedSoftly(w: World, docs: seq<Doc>, namespace: string, reason: string)
  {
    w.soft(reason) && (exists c :: c in reason && c != ' ' && c != '\t' && c != '\n' && c != '\r') &&
    exists sent :: IsSentFor(w, docs, namespace, sent) && IsRefusedFor(w, sent, namespace, reason)
  }

  lemma SoftIff(w: World, message: string)
    ensures IsSoft(w, message) <==>
            w.soft(message) && exists c :: c in message && c != ' ' && c != '\t' && c != '\n' && c != '\r'
  {
  }

  /** A file is dropped exactly when nothing of it is sent, the cluster cannot be reached for a soft reason, or
      some of it is refused softly. */
  lemma FileIsDroppedIff(w: World, f: File, namespace: string)
    requires f.yaml && f.docs != []
    ensures FileReport(w, f, namespace).skippedPaths == [f.path] <==>
            || (forall sent :: !IsSentFor(w, f.docs, namespace, sent))
            || (w.client.Some? && IsSoft(w, w.client.value))
            || (w.client.None? && exists reason :: IsRefusedSoftly(w, f.docs, namespace, reason))
  {
    var docs := ApplyDocs(w, f.docs, namespace);
    FileVerdictIs(w, f, namespace);
    FileErrorsAreHardFailures(w, f, namespace);
    forall sent
      ensures sent in docs <==> IsSentFor(w, f.docs, namespace, sent)
    {
      ApplyDocsAre(w, f.docs, namespace, sent);
    }
    if docs != [] {
      assert docs[0] in docs;
    }
    RefusedSoftlyIff(w, f.docs, namespace);
  }

  lemma RefusedSoftlyIff(w: World, docs: seq<Doc>, namespace: string)
    ensures RefusedSoftly(w, ApplyDocs(w, docs, namespace), namespace) <==>
            exists reason :: IsRefusedSoftly(w, docs, namespace, reason)
  {
    var sents := ApplyDocs(w, docs, namespace);
    if d :| d in sents && Outcome(w, d, namespace).Refused? && IsSoft(w, Outcome(w, d, namespace).message) {
      var reason := Outcome(w, d, namespace).message;
      ApplyDocsAre(w, docs, namespace, d);
      OutcomeIs(w, d, namespace, reason);
      SoftIff(w, reason);
      assert IsRefusedSoftly(w, docs, namespace, reason);
    }
    if reason :| IsRefusedSoftly(w, docs, namespace, reason) {
      var sent :| IsSentFor(w, docs, namespace, sent) && IsRefusedFor(w, sent, namespace, reason);
      ApplyDocsAre(w, docs, namespace, sent);
      OutcomeIs(w, sent, namespace, reason);
      SoftIff(w, reason);
    }
  }

  // ---------------------------------------------------------------- operators, conflicts, the first error

  /** Which operators a file asks for: those of its kinds that are missing on the cluster and, once some of it is
      refused softly as not found, those of every kind that was sent. */
  lemma MissingOperatorsAre(w: World, f: File, namespace: string, kind: string)
    requires f.yaml && f.docs != []
    ensures kind in FileReport(w, f, namespace).missingOperators <==>
            && kind in w.operators
            && (|| (exists doc :: doc in f.docs && doc.kind == kind && kind != "" && doc.apiVersion != "" && w.missingApi(kind))
                || (&& w.client.None?
                    && (exists reason :: IsRefusedSoftly(w, f.docs, namespace, reason) && w.saysMissing(reason))
                    && exists sent :: IsSentFor(w, f.docs, namespace, sent) && sent.kind == kind))
  {
    var docs := ApplyDocs(w, f.docs, namespace);
    MissingKindsAre(w, f.docs, namespace, kind);
    if docs == [] {
      forall sent
        ensures !IsSentFor(w, f.docs, namespace, sent)
      {
        ApplyDocsAre(w, f.docs, namespace, sent);
      }
    } else if w.client.None? {
      NamedIs(w, f.docs, namespace, kind);
    }
    OperatorsAre(w, f, namespace);
  }

  lemma OperatorsAre(w: World, f: File, namespace: string)
    requires f.yaml && f.docs != []
    ensures var docs := ApplyDocs(w, f.docs, namespace);
            FileReport(w, f, namespace).missingOperators ==
            MissingKinds(w, f.docs, namespace) +
            if docs == [] || w.client.Some? then {} else Named(w, docs, Select(w, Failures(w, docs, namespace), true))
  {
    var docs := ApplyDocs(w, f.docs, namespace);
    if docs != [] && w.client.None? {
      ApplyReportsEveryFailure(w, docs, namespace);
    }
  }

  lemma MissingKindsAre(w: World, docs: seq<Doc>, namespace: string, kind: string)
    ensures kind in MissingKinds(w, docs, namespace) <==>
            kind in w.operators && exists doc :: doc in docs && doc.kind == kind && kind != "" && doc.apiVersion != "" && w.missingApi(kind)
  {
    forall doc
      ensures ClassifyAndFix(w, doc, namespace) == SkipCrdMissing <==>
              doc.kind != "" && doc.apiVersion != "" && w.missingApi(doc.kind)
    {
      SentDocumentIs(w, doc, namespace);
    }
  }

  lemma NamedIs(w: World, docs: seq<Doc>, namespace: string, kind: string)
    ensures var sents := ApplyDocs(w, docs, namespace);
            kind in Named(w, sents, Select(w, Failures(w, sents, namespace), true)) <==>
            && kind in w.operators
            && (exists reason :: IsRefusedSoftly(w, docs, namespace, reason) && w.saysMissing(reason))
            && exists sent :: IsSentFor(w, docs, namespace, sent) && sent.kind == kind
  {
    var sents := ApplyDocs(w, docs, namespace);
    var soft := Select(w, Failures(w, sents, namespace), true);
    forall m
      ensures m in soft <==> IsRefusedSoftly(w, docs, namespace, m)
    {
      SoftMessageIff(w, docs, namespace, m);
    }
    forall sent
      ensures sent in sents <==> IsSentFor(w, docs, namespace, sent)
    {
      ApplyDocsAre(w, docs, namespace, sent);
    }
  }

  lemma SoftMessageIff(w: World, docs: seq<Doc>, namespace: string, m: string)
    ensures var sents := ApplyDocs(w, docs, namespace);
            m in Select(w, Failures(w, sents, namespace), true) <==> IsRefusedSoftly(w, docs, namespace, m)
  {
    var sents := ApplyDocs(w, docs, namespace);
    SelectIs(w, Failures(w, sents, namespace), true, m);
    FailuresAre(w, sents, namespace, m);
    SoftIff(w, m);
    forall sent
      ensures sent in sents <==> IsSentFor(w, docs, namespace, sent)
      ensures Outcome(w, sent, namespace) == Refused(m) <==> IsRefusedFor(w, sent, namespace, m)
    {
      ApplyDocsAre(w, docs, namespace, sent);
      OutcomeIs(w, sent, namespace, m);
    }
  }

  lemma TaggedIs(path: string, messages: seq<string>, m: string)
    ensures Note(path, m) in Tagged(path, messages) <==> m in messages
  {
    if i :| 0 <= i < |messages| && messages[i] == m {
      assert Tagged(path, messages)[i] == Note(path, m);
    }
    if i :| 0 <= i < |messages| && Tagged(path, messages)[i] == Note(path, m) {
      assert messages[i] == m;
    }
  }

  /** What a file is refused for, on a cluster that can be reached: each soft reason is a warning and each other
      one an error, and there are no more errors than these. */
  lemma ReasonsAre(w: World, f: File, namespace: string, reason: string)
    requires f.yaml && w.client.None? && exists sent, m :: IsSentFor(w, f.docs, namespace, sent) && IsRefusedFor(w, sent, namespace, m)
    ensures var r := FileReport(w, f, namespace);
            && (Note(f.path, reason) in r.warnings <==> IsRefusedSoftly(w, f.docs, namespace, reason))
            && (Note(f.path, reason) in r.errors <==>
                !IsSoft(w, reason) && exists sent :: IsSentFor(w, f.docs, namespace, sent) && IsRefusedFor(w, sent, namespace, reason))
  {
    var docs := ApplyDocs(w, f.docs, namespace);
    var failures := Failures(w, docs, namespace);
    var sent, m :| IsSentFor(w, f.docs, namespace, sent) && IsRefusedFor(w, sent, namespace, m);
    FailureIff(w, f.docs, namespace, m);
    FailureIff(w, f.docs, namespace, reason);
    assert m in failures;
    FailedFileReport(w, f, namespace);
    SelectIs(w, failures, IsSoft(w, m), m);
    SelectIs(w, failures, false, reason);
    SoftMessageIff(w, f.docs, namespace, reason);
    TaggedIs(f.path, Select(w, failures, true), reason);
    TaggedIs(f.path, Select(w, failures, false), reason);
  }

  /** When the cluster cannot be reached, its reason is a warning if it is soft and an error if not; a pure conflict
      is noted, and warned of, with the first error. */
  lemma OtherReasonsAre(w: World, f: File, namespace: string)
    requires f.yaml && f.docs != [] && ApplyDocs(w, f.docs, namespace) != []
    ensures var r := FileReport(w, f, namespace);
            && (w.client.Some? ==>
                  r.warnings == (if IsSoft(w, w.client.value) then [Note(f.path, w.client.value)] else []) &&
                  r.errors == if IsSoft(w, w.client.value) then [] else [Note(f.path, w.client.value)])
            && (r.conflicts != [] ==>
                  var first := FirstError(w, ApplyDocs(w, f.docs, namespace), namespace);
                  first.Some? && r.conflicts == r.warnings == [Note(f.path, first.value)] && r.errors == [])
  {
    SomethingWentWrong(w, ApplyDocs(w, f.docs, namespace), namespace);
  }

  lemma FailureIff(w: World, docs: seq<Doc>, namespace: string, m: string)
    ensures m in Failures(w, ApplyDocs(w, docs, namespace), namespace) <==>
            exists sent :: IsSentFor(w, docs, namespace, sent) && IsRefusedFor(w, sent, namespace, m)
  {
    FailuresAre(w, ApplyDocs(w, docs, namespace), namespace, m);
    forall sent
      ensures sent in ApplyDocs(w, docs, namespace) <==> IsSentFor(w, docs, namespace, sent)
      ensures Outcome(w, sent, namespace) == Refused(m) <==> IsRefusedFor(w, sent, namespace, m)
    {
      ApplyDocsAre(w, docs, namespace, sent);
      OutcomeIs(w, sent, namespace, m);
    }
  }

  lemma FailedFileReport(w: World, f: File, namespace: string)
    requires f.yaml && w.client.None? && Failures(w, ApplyDocs(w, f.docs, namespace), namespace) != []
    ensures var (r, failures) := (FileReport(w, f, namespace), Failures(w, ApplyDocs(w, f.docs, namespace), namespace));
            && r.warnings == Tagged(f.path, Select(w, failures, true))
            && r.errors == Tagged(f.path, Select(w, failures, false)) +
                           if Select(w, failures, true) == [] && Select(w, failures, false) == [] then [Note(f.path, UNKNOWN)] else []
  {
  }

  lemma {:induction false} ConflictMessagesAre(w: World, docs: seq<Doc>, namespace: string, message: string)
    ensures message in Conflicts(w, docs, namespace) <==>
            exists d :: d in docs && Outcome(w, d, namespace) == Conflicted(message)
    decreases |docs|
  {
    if docs != [] {
      var (rest, last) := (docs[..|docs| - 1], docs[|docs| - 1]);
      ConflictMessagesAre(w, rest, namespace, message);
      assert docs == rest + [last];
    }
  }

  /** A pure conflict tells of every conflicting document, and of nothing else. */
  lemma ConflictDetailsAre(w: World, docs: seq<Doc>, namespace: string, message: string)
    requires w.client.None? && docs != []
    ensures var r := ApplyYaml(w, docs, namespace);
            message in r.conflictDetails <==>
            r.conflict && exists d :: d in docs && Outcome(w, d, namespace) == Conflicted(message)
  {
    ConflictMessagesAre(w, docs, namespace, message);
  }

  /** The one error named is that of the first document that was not accepted. */
  lemma {:induction false} FirstErrorIs(w: World, docs: seq<Doc>, namespace: string, k: nat)
    requires k < |docs| && !Outcome(w, docs[k], namespace).Accepted?
    requires forall j :: 0 <= j < k ==> Outcome(w, docs[j], namespace).Accepted?
    ensures FirstError(w, docs, namespace) == Some(Outcome(w, docs[k], namespace).message)
    decreases |docs|
  {
    var n := |docs| - 1;
    if k < n {
      FirstErrorIs(w, docs[..n], namespace, k);
    } else {
      NoErrorYet(w, docs[..n], namespace);
    }
  }

  lemma {:induction false} NoErrorYet(w: World, docs: seq<Doc>, namespace: string)
    requires forall j :: 0 <= j < |docs| ==> Outcome(w, docs[j], namespace).Accepted?
    ensures FirstError(w, docs, namespace).None?
    decreases |docs|
  {
    if docs != [] {
      NoErrorYet(w, docs[..|docs| - 1], namespace);
    }
  }

  /** Every list of the report keeps the order of the files. */
  lemma ReportKeepsFileOrder(w: World, a: seq<File>, b: seq<File>, namespace: string)
    ensures var (r, x, y) := (DryRunFiles(w, a + b, namespace), DryRunFiles(w, a, namespace), DryRunFiles(w, b, namespace));
            && r.applied == x.applied + y.applied && r.skipped == x.skipped + y.skipped
            && r.skippedPaths == x.skippedPaths + y.skippedPaths && r.errors == x.errors + y.errors
            && r.warnings == x.warnings + y.warnings && r.conflicts == x.conflicts + y.conflicts
            && r.repoFiles == x.repoFiles + y.repoFiles && r.missingOperators == x.missingOperators + y.missingOperators
  {
    DryRunDistributes(w, a, b, namespace);
  }
}
