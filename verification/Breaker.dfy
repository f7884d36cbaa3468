/** `CircuitBreaker` (src/agentit/interfaces/breakers.py) as `_kube_breaker_scope`
    (src/agentit/kube.py) drives it: two counters that are proved to mean a statement about the
    whole history of calls. */
module Breaker {

  /** How a Kubernetes call ended; `Failed` is an exception without an HTTP status. */
  datatype Result = Returned | Offline | Failed | FailedWith(status: int)

  datatype Call = Call(start: real, at: real, result: Result, benign: set<int>)

  datatype State = State(failures: nat, lastFailure: real)

  predicate Resets(c: Call)
  {
    c.result.Returned? || (c.result.FailedWith? && c.result.status in c.benign)
  }

  predicate Counts(c: Call)
  {
    c.result.Failed? || (c.result.FailedWith? && c.result.status !in c.benign)
  }

  function Step(s: State, c: Call): State
  {
    match c.result
    case Offline => s
    case Returned => s.(failures := 0)
    case Failed => State(s.failures + 1, c.at)
    case FailedWith(status) => if status in c.benign then s.(failures := 0) else State(s.failures + 1, c.at)
  }

  function Run(trace: seq<Call>): State
  {
    if trace == [] then State(0, 0.0) else Step(Run(trace[..|trace| - 1]), trace[|trace| - 1])
  }

  predicate IsOpen(s: State, threshold: int, resetAfter: real, now: real)
  {
    s.failures >= threshold && now - s.lastFailure < resetAfter
  }

  // ---------------------------------------------------------------- against the history

  function FailureTimes(trace: seq<Call>): seq<real>
  {
    if trace == [] then []
    else FailureTimes(trace[..|trace| - 1]) + (if Counts(trace[|trace| - 1]) then [trace[|trace| - 1].at] else [])
  }

  /** The calls from `k` on are those since the last success or benign status. */
  ghost predicate SinceReset(trace: seq<Call>, k: nat)
  {
    && k <= |trace|
    && (k > 0 ==> Resets(trace[k - 1]))
    && (forall i :: k <= i < |trace| ==> !Resets(trace[i]))
  }

  lemma {:induction false} CountersMeanHistory(trace: seq<Call>, k: nat)
    requires SinceReset(trace, k)
    ensures var times := FailureTimes(trace[k..]);
            && Run(trace).failures == |times|
            && (times != [] ==> Run(trace).lastFailure == times[|times| - 1])
    decreases |trace|
  {
    if k < |trace| {
      var n := |trace| - 1;
      CountersMeanHistory(trace[..n], k);
      assert trace[k..][..n - k] == trace[..n][k..];
      assert trace[k..][n - k] == trace[n];
    } else {
      assert trace[k..] == [];
    }
  }

  /** Open exactly when the failures since the last success or benign status reach the threshold
      and the last of them is younger than the reset time. */
  lemma OpenIffRecentFailures(trace: seq<Call>, k: nat, threshold: int, resetAfter: real, now: real)
    requires threshold >= 1 && SinceReset(trace, k)
    ensures var times := FailureTimes(trace[k..]);
            IsOpen(Run(trace), threshold, resetAfter, now) <==>
            |times| >= threshold && now - times[|times| - 1] < resetAfter
  {
    CountersMeanHistory(trace, k);
  }

  function Online(trace: seq<Call>): seq<Call>
  {
    if trace == [] then []
    else Online(trace[..|trace| - 1]) + (if trace[|trace| - 1].result.Offline? then [] else [trace[|trace| - 1]])
  }

  /** Offline outcomes never change it: the state is that of the trace without them. */
  lemma {:induction false} OfflineIsIgnored(trace: seq<Call>)
    ensures Run(Online(trace)) == Run(trace)
    decreases |trace|
  {
    if trace != [] {
      var n := |trace| - 1;
      OfflineIsIgnored(trace[..n]);
      if !trace[n].result.Offline? {
        assert Online(trace)[..|Online(trace)| - 1] == Online(trace[..n]);
      } else {
        assert Online(trace) == Online(trace[..n]);
      }
    }
  }

  // ---------------------------------------------------------------- what the guard buys

  /** Every call was let through by `is_open`, one after the other, on a clock that does not go back. */
  ghost predicate Guarded(trace: seq<Call>, threshold: int, resetAfter: real)
  {
    && (forall i :: 0 <= i < |trace| ==> trace[i].start <= trace[i].at)
    && (forall i, j :: 0 <= i < j < |trace| ==> trace[i].at <= trace[j].start)
    && (forall i :: 0 <= i < |trace| ==> !IsOpen(Run(trace[..i]), threshold, resetAfter, trace[i].start))
  }

  lemma {:induction false} StaysAtThreshold(trace: seq<Call>, i: nat, j: nat)
    requires i < j <= |trace| && Counts(trace[i])
    requires forall m :: 0 <= m < |trace| - 1 ==> trace[m].at <= trace[m + 1].at
    requires forall m :: i < m < j ==> !Resets(trace[m])
    ensures Run(trace[..j]).failures >= Run(trace[..i + 1]).failures
    ensures Run(trace[..j]).lastFailure >= trace[i].at
    ensures Run(trace[..j]).lastFailure <= trace[j - 1].at
    decreases j
  {
    assert trace[..j][..j - 1] == trace[..j - 1];
    if j > i + 1 {
      StaysAtThreshold(trace, i, j - 1);
    }
  }

  /** One caller, or callers that take turns: once the threshold is reached and until something
      succeeds, they start a call at most once per reset time. Calls that overlap, as threads sharing
      the breaker may make them, can all pass the guard before the first of them fails. */
  lemma OpenBreakerSpacesFailures(trace: seq<Call>, threshold: int, resetAfter: real, i: nat, j: nat)
    requires Guarded(trace, threshold, resetAfter)
    requires i < j < |trace| && Counts(trace[i]) && Run(trace[..i + 1]).failures >= threshold
    requires forall m :: i < m < j ==> !Resets(trace[m])
    ensures trace[j].start - trace[i].at >= resetAfter
  {
    forall m | 0 <= m < |trace| - 1
      ensures trace[m].at <= trace[m + 1].at
    {
      assert trace[m].at <= trace[m + 1].start <= trace[m + 1].at;
    }
    StaysAtThreshold(trace, i, j);
    assert !IsOpen(Run(trace[..j]), threshold, resetAfter, trace[j].start);
  }

  // ---------------------------------------------------------------- the code

  class CircuitBreaker {
    const threshold: int
    const resetAfter: real
    var failures: nat
    var lastFailure: real

    function Snapshot(): State
      reads this
    {
      State(failures, lastFailure)
    }

    constructor (threshold: int, resetAfter: real)
      ensures this.threshold == threshold && this.resetAfter == resetAfter && Snapshot() == Run([])
    {
      this.threshold, this.resetAfter := threshold, resetAfter;
      failures, lastFailure := 0, 0.0;
    }

    method Open(now: real) returns (open: bool)
      ensures open == IsOpen(Snapshot(), threshold, resetAfter, now)
    {
      if failures < threshold {
        return false;
      }
      return now - lastFailure < resetAfter;
    }

    method RecordFailure(now: real)
      modifies this
      ensures Snapshot() == State(old(failures) + 1, now)
    {
      failures := failures + 1;
      lastFailure := now;
    }

    method RecordSuccess()
      modifies this
      ensures Snapshot() == State(0, old(lastFailure))
    {
      failures := 0;
    }

    /** `_kube_breaker_scope` around one call. */
    method Scope(c: Call, ghost trace: seq<Call>)
      requires Snapshot() == Run(trace)
      modifies this
      ensures Snapshot() == Run(trace + [c])
    {
      assert (trace + [c])[..|trace|] == trace;
      match c.result {
        case Offline =>
        case Returned => RecordSuccess();
        case Failed => RecordFailure(c.at);
        case FailedWith(status) =>
          if status in c.benign {
            RecordSuccess();
          } else {
            RecordFailure(c.at);
          }
      }
    }
  }
}
