/** Secret scanning with a verdict cache: `SecurityAnalyzer._check_secrets`
    (src/agentit/analyzers/security.py) over `InMemorySecretClassifyCache`
    (src/agentit/secret_classify_cache.py), against scanning without one.

    A row's fingerprint is the stripped line itself: the hash is taken to be free of collisions. */
module SecretScan {
  import opened Options
  import opened Sequences

  type Key = (string, string, string)     // application, file path, fingerprint

  datatype Verdict = Verdict(isSecret: bool, confidence: real, reason: string)

  /** Path, matched line, lines around it. */
  type Classifier = (string, string, seq<string>) -> Option<Verdict>

  const DROP_CONFIDENCE := 0.7

  datatype Outcome = Kept | Dropped

  datatype Row = Row(secretType: string, outcome: Outcome, confidence: real, reason: string, hits: nat)

  /** The first match of one secret pattern in one file. */
  datatype Hit = Hit(secretType: string, line: string, context: seq<string>, falsePositive: bool)

  datatype SourceFile = SourceFile(path: string, excluded: bool, matches: seq<Option<Hit>>)

  datatype Finding = Finding(path: string, secretType: string)

  datatype Decision = Decision(key: Key, secretType: string, verdict: Verdict, kept: bool)

  datatype Env = Env(app: string, caching: bool, llm: Option<Classifier>, strip: string -> string)

  /** `asked` is the record of classifier calls, and whether each was answered. */
  datatype State = State(rows: map<Key, Row>, findings: seq<Finding>, decisions: seq<Decision>, asked: seq<(Key, bool)>)

  // ---------------------------------------------------------------- the cache

  function Touched(rows: map<Key, Row>, key: Key): map<Key, Row>
  {
    if key in rows then rows[key := rows[key].(hits := rows[key].hits + 1)] else rows
  }

  function Upserted(rows: map<Key, Row>, key: Key, secretType: string, outcome: Outcome, v: Verdict): map<Key, Row>
  {
    rows[key := Row(secretType, outcome, v.confidence, v.reason, if key in rows then rows[key].hits + 1 else 1)]
  }

  class InMemorySecretClassifyCache {
    var rows: map<Key, Row>

    constructor ()
      ensures rows == map[]
    {
      rows := map[];
    }

    method Lookup(key: Key) returns (row: Option<Row>)
      ensures row == if key in rows then Some(rows[key]) else None
    {
      row := if key in rows then Some(rows[key]) else None;
    }

    method Touch(key: Key)
      modifies this
      ensures rows == Touched(old(rows), key)
    {
      if key in rows {
        rows := rows[key := rows[key].(hits := rows[key].hits + 1)];
      }
    }

    method Upsert(key: Key, secretType: string, outcome: Outcome, v: Verdict)
      modifies this
      ensures rows == Upserted(old(rows), key, secretType, outcome, v)
    {
      var hits := if key in rows then rows[key].hits + 1 else 1;
      rows := rows[key := Row(secretType, outcome, v.confidence, v.reason, hits)];
    }

    method Delete(key: Key)
      modifies this
      ensures rows == old(rows) - {key}
    {
      rows := rows - {key};
    }
  }

  // ---------------------------------------------------------------- one match

  function KeyOf(env: Env, path: string, h: Hit): Key { (env.app, path, env.strip(h.line)) }

  function OutcomeOf(v: Verdict): Outcome
  {
    if !v.isSecret && v.confidence > DROP_CONFIDENCE then Dropped else Kept
  }

  predicate Settled(row: Row) { row.outcome == Kept || row.confidence > DROP_CONFIDENCE }

  function ScanHit(env: Env, s: State, path: string, h: Hit): State
  {
    var key := KeyOf(env, path, h);
    var found := s.findings + [Finding(path, h.secretType)];
    if env.caching && key in s.rows && Settled(s.rows[key]) then
      s.(rows := Touched(s.rows, key), findings := if s.rows[key].outcome == Dropped then s.findings else found)
    else if env.llm.None? then
      s.(findings := found)
    else
      var answer := env.llm.value(path, h.line, h.context);
      var s1 := s.(asked := s.asked + [(key, answer.Some?)]);
      match answer
      case None => s1.(findings := found)
      case Some(v) =>
        var known := env.caching && key in s.rows && s.rows[key].outcome == OutcomeOf(v);
        s1.(rows := if env.caching then Upserted(s.rows, key, h.secretType, OutcomeOf(v), v) else s.rows,
            decisions := if known then s.decisions
                         else s.decisions + [Decision(key, h.secretType, v, OutcomeOf(v) == Kept)],
            findings := if OutcomeOf(v) == Dropped then s.findings else found)
  }

  /** The matches `_check_secrets` looks at, in its order. */
  datatype Candidate = Candidate(path: string, hit: Hit)

  function Real(path: string, matches: seq<Option<Hit>>): seq<Candidate>
  {
    if matches == [] then []
    else
      var m := matches[|matches| - 1];
      Real(path, matches[..|matches| - 1]) + (if m.Some? && !m.value.falsePositive then [Candidate(path, m.value)] else [])
  }

  function Candidates(files: seq<SourceFile>): seq<Candidate>
  {
    if files == [] then []
    else
      var f := files[|files| - 1];
      Candidates(files[..|files| - 1]) + (if f.excluded then [] else Real(f.path, f.matches))
  }

  function Scan(env: Env, s: State, cs: seq<Candidate>): State
  {
    if cs == [] then s else
      var c := cs[|cs| - 1];
      ScanHit(env, Scan(env, s, cs[..|cs| - 1]), c.path, c.hit)
  }

  lemma ScanOneMore(env: Env, s: State, cs: seq<Candidate>, c: Candidate)
    ensures Scan(env, s, cs + [c]) == ScanHit(env, Scan(env, s, cs), c.path, c.hit)
  {
    assert (cs + [c])[..|cs|] == cs;
  }

  // ---------------------------------------------------------------- the code

  lemma {:induction false} ScanAppends(env: Env, s: State, a: seq<Candidate>, b: seq<Candidate>)
    ensures Scan(env, s, a + b) == Scan(env, Scan(env, s, a), b)
    decreases |b|
  {
    if b == [] {
      assert a + b == a;
    } else {
      assert (a + b)[..|a + b| - 1] == a + b[..|b| - 1];
      ScanAppends(env, s, a, b[..|b| - 1]);
    }
  }

  lemma MatchOnce(env: Env, s: State, path: string, matches: seq<Option<Hit>>, i: nat)
    requires i < |matches|
    ensures var (m, before) := (matches[i], Scan(env, s, Real(path, matches[..i])));
            Scan(env, s, Real(path, matches[..i + 1])) ==
            if m.Some? && !m.value.falsePositive then ScanHit(env, before, path, m.value) else before
  {
    assert matches[..i + 1][..i] == matches[..i];
    var cs := Real(path, matches[..i]);
    if matches[i].Some? {
      ScanOneMore(env, s, cs, Candidate(path, matches[i].value));
    }
    assert cs + [] == cs;
  }

  class SecurityAnalyzer {
    const env: Env
    const cache: InMemorySecretClassifyCache
    var decisions: seq<Decision>
    ghost var asked: seq<(Key, bool)>

    constructor (env: Env, cache: InMemorySecretClassifyCache)
      ensures this.env == env && this.cache == cache && decisions == [] && asked == []
    {
      this.env, this.cache, decisions, asked := env, cache, [], [];
    }

    ghost function Snapshot(findings: seq<Finding>): State
      reads this, cache
    {
      State(cache.rows, findings, decisions, asked)
    }

    method CheckHit(path: string, h: Hit, findings: seq<Finding>) returns (out: seq<Finding>)
      modifies this, cache
      ensures Snapshot(out) == ScanHit(env, old(Snapshot(findings)), path, h)
    {
      var key := (env.app, path, env.strip(h.line));
      var cached := None;
      if env.caching {
        cached := cache.Lookup(key);
      }
      if cached.Some? {
        if cached.value.outcome == Dropped && cached.value.confidence > DROP_CONFIDENCE {
          cache.Touch(key);
          return findings;
        }
        if cached.value.outcome == Kept {
          cache.Touch(key);
          return findings + [Finding(path, h.secretType)];
        }
      }
      if env.llm.Some? {
        var verdict := env.llm.value(path, h.line, h.context);
        asked := asked + [(key, verdict.Some?)];
        if verdict.Some? {
          var v := verdict.value;
          var dropped := !v.isSecret && v.confidence > DROP_CONFIDENCE;
          var outcome := if dropped then Dropped else Kept;
          var shouldLog := cached.None? || cached.value.outcome != outcome;
          if env.caching {
            cache.Upsert(key, h.secretType, outcome, v);
          }
          if shouldLog {
            decisions := decisions + [Decision(key, h.secretType, v, !dropped)];
          }
          if dropped {
            return findings;
          }
        }
      }
      return findings + [Finding(path, h.secretType)];
    }

    method CheckFile(f: SourceFile, before: seq<Finding>) returns (findings: seq<Finding>)
      modifies this, cache
      ensures Snapshot(findings) == Scan(env, old(Snapshot(before)), Real(f.path, f.matches))
    {
      findings := before;
      ghost var start := Snapshot(before);
      for i := 0 to |f.matches|
        invariant Snapshot(findings) == Scan(env, start, Real(f.path, f.matches[..i]))
      {
        var m := f.matches[i];
        MatchOnce(env, start, f.path, f.matches, i);
        if m.Some? && !m.value.falsePositive {
          findings := CheckHit(f.path, m.value, findings);
        }
      }
      assert f.matches[..|f.matches|] == f.matches;
    }

    method CheckSecrets(files: seq<SourceFile>) returns (findings: seq<Finding>)
      modifies this, cache
      ensures Snapshot(findings) == Scan(env, old(Snapshot([])), Candidates(files))
    {
      findings := [];
      ghost var start := Snapshot([]);
      for i := 0 to |files|
        invariant Snapshot(findings) == Scan(env, start, Candidates(files[..i]))
      {
        assert files[..i + 1][..i] == files[..i];
        if !files[i].excluded {
          ScanAppends(env, start, Candidates(files[..i]), Real(files[i].path, files[i].matches));
          findings := CheckFile(files[i], findings);
        } else {
          assert Candidates(files[..i + 1]) == Candidates(files[..i]);
        }
      }
      assert files[..|files|] == files;
    }
  }

  // ---------------------------------------------------------------- which matches, and what is recorded

  /** `f` has the match, in a file that is scanned, and the match is no false positive. */
  ghost predicate Matches(f: SourceFile, h: Hit) { !f.excluded && Some(h) in f.matches && !h.falsePositive }

  lemma {:induction false} RealAre(path: string, matches: seq<Option<Hit>>, c: Candidate)
    ensures c in Real(path, matches) <==> c.path == path && Some(c.hit) in matches && !c.hit.falsePositive
    decreases |matches|
  {
    if matches != [] {
      var n := |matches| - 1;
      RealAre(path, matches[..n], c);
      assert matches == matches[..n] + [matches[n]];
    }
  }

  /** The matches looked at: those in scanned files that are no false positives. */
  lemma {:induction false} CandidatesAre(files: seq<SourceFile>, c: Candidate)
    ensures c in Candidates(files) <==> exists f :: f in files && c.path == f.path && Matches(f, c.hit)
    decreases |files|
  {
    if files != [] {
      var (rest, f) := (files[..|files| - 1], files[|files| - 1]);
      CandidatesAre(rest, c);
      RealAre(f.path, f.matches, c);
      assert files == rest + [f];
    }
  }

  lemma OneMoreFile(files: seq<SourceFile>, f: SourceFile)
    ensures Candidates(files + [f]) == Candidates(files) + Candidates([f])
  {
    assert (files + [f])[..|files|] == files && [f][..0] == [];
  }

  /** They are looked at file by file. */
  lemma {:induction false} CandidatesComeInOrder(first: seq<SourceFile>, second: seq<SourceFile>)
    ensures Candidates(first + second) == Candidates(first) + Candidates(second)
    decreases |second|
  {
    if second == [] {
      assert first + second == first;
    } else {
      var (rest, f) := (second[..|second| - 1], second[|second| - 1]);
      CandidatesComeInOrder(first, rest);
      OneMoreFile(first + rest, f);
      OneMoreFile(rest, f);
      assert second == rest + [f];
      ConcatAssociates(first, rest, [f]);
      ConcatAssociates(Candidates(first), Candidates(rest), Candidates([f]));
    }
  }

  // ---------------------------------------------------------------- against scanning without a cache

  /** A verdict per path and stripped line. */
  type Judge = (string, string) -> Option<Verdict>

  function Ask(env: Env, path: string, line: string, context: seq<string>): Option<Verdict>
  {
    if env.llm.None? then None else env.llm.value(path, line, context)
  }

  /** The classifier of a scan looks at nothing but path and stripped line. */
  ghost predicate Follows(env: Env, judge: Judge)
  {
    forall path, line, context :: Ask(env, path, line, context) == judge(path, env.strip(line))
  }

  /** It may stay silent where `truth` would answer, but never contradicts it. */
  ghost predicate Within(judge: Judge, truth: Judge)
  {
    forall path, line :: judge(path, line).None? || judge(path, line) == truth(path, line)
  }

  /** Every row of this application says what the classifier said. */
  ghost predicate Truthful(rows: map<Key, Row>, app: string, truth: Judge)
  {
    forall key :: key in rows && key.0 == app ==>
      && truth(key.1, key.2).Some?
      && rows[key].outcome == OutcomeOf(truth(key.1, key.2).value)
      && Settled(rows[key])
  }

  function Plain(cs: seq<Candidate>, strip: string -> string, judge: Judge): seq<Finding>
  {
    if cs == [] then []
    else
      var c := cs[|cs| - 1];
      var v := judge(c.path, strip(c.hit.line));
      Plain(cs[..|cs| - 1], strip, judge) +
      (if v.Some? && OutcomeOf(v.value) == Dropped then [] else [Finding(c.path, c.hit.secretType)])
  }

  /** `Plain` is what scanning reports without a cache. */
  lemma {:induction false} UncachedIsPlain(env: Env, s: State, cs: seq<Candidate>, judge: Judge)
    requires Follows(env, judge)
    ensures var s' := Scan(env.(caching := false), s, cs);
            s'.findings == s.findings + Plain(cs, env.strip, judge) && s'.rows == s.rows
    decreases |cs|
  {
    if cs != [] {
      UncachedIsPlain(env, s, cs[..|cs| - 1], judge);
      var c := cs[|cs| - 1];
      assert Ask(env, c.path, c.hit.line, c.hit.context) == judge(c.path, env.strip(c.hit.line));
    }
  }

  /** The cache remembers a drop the classifier would not repeat now. */
  predicate Stale(rows: map<Key, Row>, env: Env, judge: Judge, c: Candidate)
  {
    var key := KeyOf(env, c.path, c.hit);
    key in rows && rows[key].outcome == Dropped && judge(key.1, key.2).None?
  }

  function StaleCount(rows: map<Key, Row>, env: Env, judge: Judge, cs: seq<Candidate>): nat
  {
    if cs == [] then 0
    else StaleCount(rows, env, judge, cs[..|cs| - 1]) + (if Stale(rows, env, judge, cs[|cs| - 1]) then 1 else 0)
  }

  /** Rows learnt during a scan never make a match stale that was not. */
  ghost predicate Grown(rows: map<Key, Row>, now: map<Key, Row>, env: Env, judge: Judge)
  {
    forall c :: Stale(now, env, judge, c) <==> Stale(rows, env, judge, c)
  }

  lemma HitKeepsTruth(env: Env, s: State, c: Candidate, judge: Judge, truth: Judge)
    requires env.caching && Follows(env, judge) && Within(judge, truth) && Truthful(s.rows, env.app, truth)
    ensures var s' := ScanHit(env, s, c.path, c.hit);
            && Truthful(s'.rows, env.app, truth)
            && Grown(s.rows, s'.rows, env, judge)
            && var v := judge(c.path, env.strip(c.hit.line));
            s'.findings == s.findings +
              (if Stale(s.rows, env, judge, c) || (v.Some? && OutcomeOf(v.value) == Dropped) then [] else [Finding(c.path, c.hit.secretType)])
  {
    assert Ask(env, c.path, c.hit.line, c.hit.context) == judge(c.path, env.strip(c.hit.line));
  }

  lemma {:induction false} CachedScan(env: Env, s: State, cs: seq<Candidate>, judge: Judge, truth: Judge)
    requires env.caching && Follows(env, judge) && Within(judge, truth) && Truthful(s.rows, env.app, truth)
    ensures var s' := Scan(env, s, cs);
            && Truthful(s'.rows, env.app, truth)
            && Grown(s.rows, s'.rows, env, judge)
            && |s'.findings| + StaleCount(s.rows, env, judge, cs) == |s.findings| + |Plain(cs, env.strip, judge)|
            && (StaleCount(s.rows, env, judge, cs) == 0 ==> s'.findings == s.findings + Plain(cs, env.strip, judge))
    decreases |cs|
  {
    if cs != [] {
      var (rest, c) := (cs[..|cs| - 1], cs[|cs| - 1]);
      CachedScan(env, s, rest, judge, truth);
      HitKeepsTruth(env, Scan(env, s, rest), c, judge, truth);
      assert Stale(Scan(env, s, rest).rows, env, judge, c) <==> Stale(s.rows, env, judge, c);
    }
  }

  lemma {:induction false} StaleCountIsZero(rows: map<Key, Row>, env: Env, judge: Judge, cs: seq<Candidate>)
    ensures StaleCount(rows, env, judge, cs) == 0 <==> forall i :: 0 <= i < |cs| ==> !Stale(rows, env, judge, cs[i])
    decreases |cs|
  {
    if cs != [] {
      var n := |cs| - 1;
      StaleCountIsZero(rows, env, judge, cs[..n]);
      assert forall i :: 0 <= i < n ==> cs[..n][i] == cs[i];
    }
  }

  /** With any classifier that may fall silent, the cached scan reports what the uncached one reports
      exactly when no match hits a remembered drop the classifier is silent about now. */
  lemma CachedEqualsUncachedIff(env: Env, s: State, cs: seq<Candidate>, judge: Judge, truth: Judge)
    requires env.caching && Follows(env, judge) && Within(judge, truth) && Truthful(s.rows, env.app, truth)
    ensures Scan(env, s, cs).findings == Scan(env.(caching := false), s, cs).findings <==>
            forall i :: 0 <= i < |cs| ==> !Stale(s.rows, env, judge, cs[i])
  {
    CachedScan(env, s, cs, judge, truth);
    UncachedIsPlain(env, s, cs, judge);
    StaleCountIsZero(s.rows, env, judge, cs);
  }

  // ---------------------------------------------------------------- any classifier

  /** Whether the match is kept or dropped in this state. */
  function HitVerdict(env: Env, s: State, c: Candidate): Outcome
  {
    if |ScanHit(env, s, c.path, c.hit).findings| == |s.findings| then Dropped else Kept
  }

  /** One verdict per match, as the scan goes along. */
  function ScanVerdicts(env: Env, s: State, cs: seq<Candidate>): (vs: seq<Outcome>)
    ensures |vs| == |cs|
  {
    if cs == [] then []
    else
      var (rest, c) := (cs[..|cs| - 1], cs[|cs| - 1]);
      ScanVerdicts(env, s, rest) + [HitVerdict(env, Scan(env, s, rest), c)]
  }

  function Report(cs: seq<Candidate>, vs: seq<Outcome>): seq<Finding>
    requires |cs| == |vs|
  {
    if cs == [] then []
    else
      var n := |cs| - 1;
      Report(cs[..n], vs[..n]) + Reported(cs[n], vs[n])
  }

  function Reported(c: Candidate, v: Outcome): seq<Finding>
  {
    if v == Dropped then [] else [Finding(c.path, c.hit.secretType)]
  }

  lemma HitReports(env: Env, s: State, c: Candidate)
    ensures ScanHit(env, s, c.path, c.hit).findings == s.findings + Reported(c, HitVerdict(env, s, c))
  {
  }

  /** The verdicts are all there is to a report. */
  lemma {:induction false} VerdictsMakeTheReport(env: Env, s: State, cs: seq<Candidate>)
    ensures Scan(env, s, cs).findings == s.findings + Report(cs, ScanVerdicts(env, s, cs))
    decreases |cs|
  {
    if cs != [] {
      var (rest, c) := (cs[..|cs| - 1], cs[|cs| - 1]);
      VerdictsMakeTheReport(env, s, rest);
      HitReports(env, Scan(env, s, rest), c);
      assert ScanVerdicts(env, s, cs)[..|cs| - 1] == ScanVerdicts(env, s, rest);
      ConcatAssociates(s.findings, Report(rest, ScanVerdicts(env, s, rest)), Reported(c, ScanVerdicts(env, s, cs)[|cs| - 1]));
    }
  }

  /** What asking about this very match comes to; silence keeps it. */
  function AskedVerdict(env: Env, c: Candidate): Outcome
  {
    match Ask(env, c.path, c.hit.line, c.hit.context)
    case None => Kept
    case Some(v) => OutcomeOf(v)
  }

  /** The outcome of the first match with this key that the classifier answered. */
  function FirstAnswer(env: Env, cs: seq<Candidate>, key: Key): Option<Outcome>
  {
    if cs == [] then None
    else
      var (first, c) := (FirstAnswer(env, cs[..|cs| - 1], key), cs[|cs| - 1]);
      var answer := Ask(env, c.path, c.hit.line, c.hit.context);
      if first.Some? then first
      else if KeyOf(env, c.path, c.hit) == key && answer.Some? then Some(OutcomeOf(answer.value)) else None
  }

  /** The stored outcome of the key, or else that of the first answered match before. */
  function Remembered(env: Env, rows: map<Key, Row>, before: seq<Candidate>, key: Key): Option<Outcome>
  {
    if key in rows then Some(rows[key].outcome) else FirstAnswer(env, before, key)
  }

  ghost predicate AllSettled(rows: map<Key, Row>) { forall key :: key in rows ==> Settled(rows[key]) }

  function OutcomeAt(rows: map<Key, Row>, key: Key): Option<Outcome>
  {
    if key in rows then Some(rows[key].outcome) else None
  }

  lemma HitRemembers(env: Env, s: State, c: Candidate, key: Key)
    requires env.caching && AllSettled(s.rows)
    ensures var (rows, answer) := (ScanHit(env, s, c.path, c.hit).rows, Ask(env, c.path, c.hit.line, c.hit.context));
            && AllSettled(rows)
            && OutcomeAt(rows, key) ==
               if key in s.rows then Some(s.rows[key].outcome)
               else if KeyOf(env, c.path, c.hit) == key && answer.Some? then Some(OutcomeOf(answer.value)) else None
  {
  }

  lemma {:induction false} ScanRemembers(env: Env, s: State, cs: seq<Candidate>, key: Key)
    requires env.caching && AllSettled(s.rows)
    ensures AllSettled(Scan(env, s, cs).rows)
    ensures OutcomeAt(Scan(env, s, cs).rows, key) == Remembered(env, s.rows, cs, key)
    decreases |cs|
  {
    if cs != [] {
      var rest := cs[..|cs| - 1];
      ScanRemembers(env, s, rest, key);
      HitRemembers(env, Scan(env, s, rest), cs[|cs| - 1], key);
    }
  }

  lemma CachedHitVerdict(env: Env, s: State, c: Candidate)
    requires env.caching && AllSettled(s.rows)
    ensures var known := OutcomeAt(s.rows, KeyOf(env, c.path, c.hit));
            HitVerdict(env, s, c) == if known.Some? then known.value else AskedVerdict(env, c)
  {
  }

  lemma UncachedHitVerdict(env: Env, s: State, c: Candidate)
    requires !env.caching
    ensures HitVerdict(env, s, c) == AskedVerdict(env, c)
  {
  }

  /** At its `i`-th match the cache has nothing to say, or says what asking would. */
  predicate AgreesAt(env: Env, rows: map<Key, Row>, cs: seq<Candidate>, i: nat)
    requires i < |cs|
  {
    var known := Remembered(env, rows, cs[..i], KeyOf(env, cs[i].path, cs[i].hit));
    known.Some? ==> known.value == AskedVerdict(env, cs[i])
  }

  lemma {:induction false} VerdictsAt(env: Env, s: State, cs: seq<Candidate>, i: nat)
    requires i < |cs|
    ensures ScanVerdicts(env, s, cs)[i] == HitVerdict(env, Scan(env, s, cs[..i]), cs[i])
    decreases |cs|
  {
    if i < |cs| - 1 {
      VerdictsAt(env, s, cs[..|cs| - 1], i);
      assert cs[..|cs| - 1][..i] == cs[..i];
    }
  }

  /** For any classifier whatever, and any settled rows: the cached scan keeps and drops the same
      matches as the uncached one exactly when, at every match, the stored outcome, or else that of the
      first earlier answered match with the same key, is what asking about this match comes to. */
  lemma SameVerdictsIff(env: Env, s: State, cs: seq<Candidate>)
    requires env.caching && AllSettled(s.rows)
    ensures ScanVerdicts(env, s, cs) == ScanVerdicts(env.(caching := false), s, cs) <==>
            forall i :: 0 <= i < |cs| ==> AgreesAt(env, s.rows, cs, i)
  {
    var uncached := env.(caching := false);
    forall i | 0 <= i < |cs|
      ensures ScanVerdicts(env, s, cs)[i] == ScanVerdicts(uncached, s, cs)[i] <==> AgreesAt(env, s.rows, cs, i)
    {
      var key := KeyOf(env, cs[i].path, cs[i].hit);
      VerdictsAt(env, s, cs, i);
      VerdictsAt(uncached, s, cs, i);
      ScanRemembers(env, s, cs[..i], key);
      CachedHitVerdict(env, Scan(env, s, cs[..i]), cs[i]);
      UncachedHitVerdict(uncached, Scan(uncached, s, cs[..i]), cs[i]);
      assert AskedVerdict(uncached, cs[i]) == AskedVerdict(env, cs[i]);
    }
  }

  lemma {:induction false} FollowersFirstAnswer(env: Env, cs: seq<Candidate>, judge: Judge, key: Key)
    requires Follows(env, judge) && key.0 == env.app
    ensures FirstAnswer(env, cs, key).Some? ==>
              judge(key.1, key.2).Some? && FirstAnswer(env, cs, key).value == OutcomeOf(judge(key.1, key.2).value)
    decreases |cs|
  {
    if cs != [] {
      var c := cs[|cs| - 1];
      FollowersFirstAnswer(env, cs[..|cs| - 1], judge, key);
      assert Ask(env, c.path, c.hit.line, c.hit.context) == judge(c.path, env.strip(c.hit.line));
    }
  }

  /** For a classifier that looks at path and stripped line alone, the only disagreement is a remembered
      drop the classifier is silent about now. */
  lemma AgreesUnlessStale(env: Env, rows: map<Key, Row>, cs: seq<Candidate>, i: nat, judge: Judge, truth: Judge)
    requires Follows(env, judge) && Within(judge, truth) && Truthful(rows, env.app, truth) && i < |cs|
    ensures AgreesAt(env, rows, cs, i) <==> !Stale(rows, env, judge, cs[i])
  {
    var (c, key) := (cs[i], KeyOf(env, cs[i].path, cs[i].hit));
    assert Ask(env, c.path, c.hit.line, c.hit.context) == judge(key.1, key.2);
    FollowersFirstAnswer(env, cs[..i], judge, key);
    assert judge(key.1, key.2).None? || judge(key.1, key.2) == truth(key.1, key.2);
  }

  /** The lines around a match are given to the classifier but are not part of the key: one line that
      is dropped in one place is dropped in all of its places in that file. */
  lemma ContextIsNotPartOfTheKey(env: Env, path: string, a: Hit, b: Hit)
    requires env.caching && env.llm.Some? && a.line == b.line
    requires env.llm.value(path, a.line, a.context).Some? && OutcomeOf(env.llm.value(path, a.line, a.context).value) == Dropped
    requires env.llm.value(path, b.line, b.context).Some? && OutcomeOf(env.llm.value(path, b.line, b.context).value) == Kept
    ensures var (s, cs) := (State(map[], [], [], []), [Candidate(path, a), Candidate(path, b)]);
            Scan(env, s, cs).findings == [] && Scan(env.(caching := false), s, cs).findings == [Finding(path, b.secretType)]
  {
    var s := State(map[], [], [], []);
    assert [Candidate(path, a), Candidate(path, b)] == [Candidate(path, a)] + [Candidate(path, b)];
    assert [Candidate(path, a)] == [] + [Candidate(path, a)];
    ScanOneMore(env, s, [Candidate(path, a)], Candidate(path, b));
    ScanOneMore(env, s, [], Candidate(path, a));
    ScanOneMore(env.(caching := false), s, [Candidate(path, a)], Candidate(path, b));
    ScanOneMore(env.(caching := false), s, [], Candidate(path, a));
  }

  // ---------------------------------------------------------------- histories

  /** Scans of changing repositories by fresh analyzers over one cache, and rows deleted in between. */
  datatype Event = Rescan(cs: seq<Candidate>) | Forget(path: string, line: string)

  datatype History = History(rows: map<Key, Row>, reports: seq<seq<Finding>>, decisions: seq<Decision>, asked: seq<(Key, bool)>)

  function After(env: Env, h: History, e: Event): History
  {
    match e
    case Rescan(cs) =>
      var s := Scan(env, State(h.rows, [], h.decisions, h.asked), cs);
      History(s.rows, h.reports + [s.findings], s.decisions, s.asked)
    case Forget(path, line) => h.(rows := h.rows - {(env.app, path, line)})
  }

  function Live(env: Env, h: History, events: seq<Event>): History
  {
    if events == [] then h else After(env, Live(env, h, events[..|events| - 1]), events[|events| - 1])
  }

  function PlainReports(env: Env, truth: Judge, events: seq<Event>): seq<seq<Finding>>
  {
    if events == [] then []
    else
      var e := events[|events| - 1];
      PlainReports(env, truth, events[..|events| - 1]) + (if e.Rescan? then [Plain(e.cs, env.strip, truth)] else [])
  }

  lemma NothingIsStale(rows: map<Key, Row>, env: Env, truth: Judge, cs: seq<Candidate>)
    requires Truthful(rows, env.app, truth)
    ensures StaleCount(rows, env, truth, cs) == 0
  {
    StaleCountIsZero(rows, env, truth, cs);
  }

  /** For a fixed classifier, every scan of every history reports what it would without the cache. */
  lemma {:induction false} HistoryReportsArePlain(env: Env, events: seq<Event>, truth: Judge)
    requires env.caching && Follows(env, truth)
    ensures var h := Live(env, History(map[], [], [], []), events);
            h.reports == PlainReports(env, truth, events) && Truthful(h.rows, env.app, truth)
    decreases |events|
  {
    if events != [] {
      var n := |events| - 1;
      HistoryReportsArePlain(env, events[..n], truth);
      var h := Live(env, History(map[], [], [], []), events[..n]);
      match events[n] {
        case Rescan(cs) =>
          CachedScan(env, State(h.rows, [], h.decisions, h.asked), cs, truth, truth);
          NothingIsStale(h.rows, env, truth, cs);
          assert [] + Plain(cs, env.strip, truth) == Plain(cs, env.strip, truth);
        case Forget(path, line) =>
      }
    }
  }

  // ---------------------------------------------------------------- what is left out, in the verdict's own words

  /** The classifier says this is no secret, and is surer of it than 0.7. */
  predicate RulesOut(answer: Option<Verdict>)
  {
    answer.Some? && !answer.value.isSecret && answer.value.confidence > 0.7
  }

  /** A key without a row, or whose row is a drop at 0.7 or less, is asked about again: the answer becomes the
      row, and is recorded unless it repeats the drop. */
  lemma AskedIsRecorded(env: Env, s: State, c: Candidate, v: Verdict)
    requires env.caching && Ask(env, c.path, c.hit.line, c.hit.context) == Some(v)
    requires var key := KeyOf(env, c.path, c.hit);
             key in s.rows ==> s.rows[key].outcome == Dropped && s.rows[key].confidence <= 0.7
    ensures var (key, s') := (KeyOf(env, c.path, c.hit), ScanHit(env, s, c.path, c.hit));
            && s'.rows == s.rows[key := s'.rows[key]]
            && (s'.rows[key].outcome == Dropped <==> RulesOut(Some(v)))
            && s'.rows[key].confidence == v.confidence
            && s'.rows[key].hits == (if key in s.rows then s.rows[key].hits else 0) + 1
            && s'.decisions == s.decisions + if key in s.rows && RulesOut(Some(v)) then []
                                             else [Decision(key, c.hit.secretType, v, !RulesOut(Some(v)))]
  {
  }

  /** A finding for each match but some, in order. */
  function AllBut(cs: seq<Candidate>, out: Candidate -> bool): seq<Finding>
  {
    if cs == [] then []
    else
      var c := cs[|cs| - 1];
      AllBut(cs[..|cs| - 1], out) + (if out(c) then [] else [Finding(c.path, c.hit.secretType)])
  }

  lemma {:induction false} TheRestIsReported(cs: seq<Candidate>, out: Candidate -> bool, c: Candidate)
    requires c in cs && !out(c)
    ensures Finding(c.path, c.hit.secretType) in AllBut(cs, out)
    decreases |cs|
  {
    if c != cs[|cs| - 1] {
      assert c in cs[..|cs| - 1];
      TheRestIsReported(cs[..|cs| - 1], out, c);
    }
  }

  /** Without a cache, a match is left out of the report exactly when the classifier's answer about it rules
      it out; silence, doubt and a confident "is a secret" report it. */
  lemma {:induction false} UncachedLeavesOut(env: Env, s: State, cs: seq<Candidate>)
    ensures var ruledOut := (c: Candidate) => RulesOut(Ask(env, c.path, c.hit.line, c.hit.context));
            && Scan(env.(caching := false), s, cs).findings == s.findings + AllBut(cs, ruledOut)
            && forall c :: c in cs && !ruledOut(c) ==> Finding(c.path, c.hit.secretType) in AllBut(cs, ruledOut)
    decreases |cs|
  {
    var ruledOut := (c: Candidate) => RulesOut(Ask(env, c.path, c.hit.line, c.hit.context));
    if cs != [] {
      UncachedLeavesOut(env, s, cs[..|cs| - 1]);
    }
    forall c | c in cs && !ruledOut(c)
      ensures Finding(c.path, c.hit.secretType) in AllBut(cs, ruledOut)
    {
      TheRestIsReported(cs, ruledOut, c);
    }
  }

  lemma {:induction false} PlainLeavesOut(cs: seq<Candidate>, strip: string -> string, judge: Judge)
    ensures Plain(cs, strip, judge) == AllBut(cs, (c: Candidate) => RulesOut(judge(c.path, strip(c.hit.line))))
    decreases |cs|
  {
    if cs != [] {
      PlainLeavesOut(cs[..|cs| - 1], strip, judge);
    }
  }

  /** And so does, from an empty cache and for a fixed classifier, every scan of every history. */
  lemma HistoryLeavesOut(env: Env, events: seq<Event>, cs: seq<Candidate>, truth: Judge)
    requires env.caching && Follows(env, truth)
    ensures var ruledOut := (c: Candidate) => RulesOut(truth(c.path, env.strip(c.hit.line)));
            && Live(env, History(map[], [], [], []), events + [Rescan(cs)]).reports ==
               Live(env, History(map[], [], [], []), events).reports + [AllBut(cs, ruledOut)]
            && forall c :: c in cs && !ruledOut(c) ==> Finding(c.path, c.hit.secretType) in AllBut(cs, ruledOut)
  {
    var more := events + [Rescan(cs)];
    assert more[..|events|] == events;
    HistoryReportsArePlain(env, events, truth);
    HistoryReportsArePlain(env, more, truth);
    PlainLeavesOut(cs, env.strip, truth);
    var ruledOut := (c: Candidate) => RulesOut(truth(c.path, env.strip(c.hit.line)));
    forall c | c in cs && !ruledOut(c)
      ensures Finding(c.path, c.hit.secretType) in AllBut(cs, ruledOut)
    {
      TheRestIsReported(cs, ruledOut, c);
    }
  }

  function Answered(asked: seq<(Key, bool)>, key: Key): nat
  {
    if asked == [] then 0
    else Answered(asked[..|asked| - 1], key) + (if asked[|asked| - 1] == (key, true) then 1 else 0)
  }

  function Recorded(decisions: seq<Decision>, key: Key): nat
  {
    if decisions == [] then 0
    else Recorded(decisions[..|decisions| - 1], key) + (if decisions[|decisions| - 1].key == key then 1 else 0)
  }

  function Occurrences(env: Env, cs: seq<Candidate>, key: Key): nat
  {
    if cs == [] then 0
    else Occurrences(env, cs[..|cs| - 1], key) + (if KeyOf(env, cs[|cs| - 1].path, cs[|cs| - 1].hit) == key then 1 else 0)
  }

  function Hits(rows: map<Key, Row>, key: Key): nat { if key in rows then rows[key].hits else 0 }

  function Present(rows: map<Key, Row>, key: Key): nat { if key in rows then 1 else 0 }

  lemma HitAccounts(env: Env, s: State, c: Candidate, truth: Judge, key: Key)
    requires env.caching && Follows(env, truth) && Truthful(s.rows, env.app, truth)
    ensures var s' := ScanHit(env, s, c.path, c.hit);
            && Answered(s'.asked, key) - Present(s'.rows, key) == Answered(s.asked, key) - Present(s.rows, key)
            && Recorded(s'.decisions, key) - Present(s'.rows, key) == Recorded(s.decisions, key) - Present(s.rows, key)
            && (key.0 == env.app && truth(key.1, key.2).Some? ==>
                  Hits(s'.rows, key) == Hits(s.rows, key) + (if KeyOf(env, c.path, c.hit) == key then 1 else 0))
            && (key in s.rows ==> key in s'.rows)
  {
    assert Ask(env, c.path, c.hit.line, c.hit.context) == truth(c.path, env.strip(c.hit.line));
  }

  lemma {:induction false} ScanAccounts(env: Env, s: State, cs: seq<Candidate>, truth: Judge, key: Key)
    requires env.caching && Follows(env, truth) && Truthful(s.rows, env.app, truth)
    ensures var s' := Scan(env, s, cs);
            && Answered(s'.asked, key) - Present(s'.rows, key) == Answered(s.asked, key) - Present(s.rows, key)
            && Recorded(s'.decisions, key) - Present(s'.rows, key) == Recorded(s.decisions, key) - Present(s.rows, key)
            && (key.0 == env.app && truth(key.1, key.2).Some? ==>
                  Hits(s'.rows, key) == Hits(s.rows, key) + Occurrences(env, cs, key))
    decreases |cs|
  {
    if cs != [] {
      var rest := cs[..|cs| - 1];
      ScanAccounts(env, s, rest, truth, key);
      CachedScan(env, s, rest, truth, truth);
      HitAccounts(env, Scan(env, s, rest), cs[|cs| - 1], truth, key);
    }
  }

  function Forgets(env: Env, events: seq<Event>, key: Key): nat
  {
    if events == [] then 0
    else
      var e := events[|events| - 1];
      Forgets(env, events[..|events| - 1], key) + (if e.Forget? && (env.app, e.path, e.line) == key then 1 else 0)
  }

  function AllOccurrences(env: Env, events: seq<Event>, key: Key): nat
  {
    if events == [] then 0
    else
      var e := events[|events| - 1];
      AllOccurrences(env, events[..|events| - 1], key) + (if e.Rescan? then Occurrences(env, e.cs, key) else 0)
  }

  /** Over any history the classifier answers for a key once, and once more per deletion at most;
      every answer is recorded as one decision; and without deletions the row's counter is the
      number of times the key was matched. */
  lemma {:induction false} HistoryAccounts(env: Env, events: seq<Event>, truth: Judge, key: Key)
    requires env.caching && Follows(env, truth)
    ensures var h := Live(env, History(map[], [], [], []), events);
            && Answered(h.asked, key) == Recorded(h.decisions, key)
            && Present(h.rows, key) <= Answered(h.asked, key) <= Present(h.rows, key) + Forgets(env, events, key)
            && (Forgets(env, events, key) == 0 && key.0 == env.app && truth(key.1, key.2).Some? ==>
                  Hits(h.rows, key) == AllOccurrences(env, events, key))
    decreases |events|
  {
    if events != [] {
      var n := |events| - 1;
      HistoryAccounts(env, events[..n], truth, key);
      HistoryReportsArePlain(env, events[..n], truth);
      var h := Live(env, History(map[], [], [], []), events[..n]);
      if events[n].Rescan? {
        ScanAccounts(env, State(h.rows, [], h.decisions, h.asked), events[n].cs, truth, key);
      }
    }
  }
}
