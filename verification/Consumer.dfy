/** The retry and commit protocol of `EventConsumer` (src/agentit/consumer.py).

    `State` is everything one consumer and its broker-side offsets hold; the functions over it say
    what each call does, class `EventConsumer` is the imperative code proved against them, and the
    lemmas speak about whole runs: deliveries, rewinds to the committed offset and process restarts
    in any order, with handlers, commits and the dead-letter publish failing at will. */
module Consumer {

  datatype Partition = Partition(topic: string, index: int)

  /** Retry counts are keyed by topic and offset only: the partition is not part of the key. */
  type RetryKey = (string, int)

  datatype HandlerResult = Handled | Raised | Interrupted

  /** What the outside world does to one delivery: the handler, the commit after it, the
      dead-letter publish, and the commit after that. */
  datatype Env = Env(handler: HandlerResult, commitOk: bool, deadLetterOk: bool, lateCommitOk: bool)

  datatype State = State(
    retries: map<RetryKey, int>,
    blocked: map<Partition, int>,
    position: map<Partition, int>,
    committed: map<Partition, int>,
    resolved: set<(Partition, int)>,      // handled or dead-lettered, over all process lives
    deadLettered: set<(Partition, int)>,
    running: bool)

  // ---------------------------------------------------------------- one message

  /** Second result: whether `commit()` raised. A successful `commit()` takes the position of every
      assigned partition. */
  function CommitResolved(s: State, tp: Partition, offset: int, commitOk: bool): (r: (State, bool))
    ensures r.0.position == s.position
  {
    if tp in s.blocked && s.blocked[tp] != offset then
      (s, false)
    else
      var s1 := s.(blocked := s.blocked - {tp});
      if commitOk then (s1.(committed := s1.position), false) else (s1, true)
  }

  function OnFailure(s: State, maxRetries: int, tp: Partition, offset: int, env: Env): (s': State)
    ensures s'.position == s.position
  {
    var key := (tp.topic, offset);
    var count := (if key in s.retries then s.retries[key] else 0) + 1;
    var s1 := s.(retries := s.retries[key := count]);
    if count >= maxRetries then
      if !env.deadLetterOk then
        s1.(running := false)
      else
        var s2 := s1.(retries := s1.retries - {key},
                      resolved := s1.resolved + {(tp, offset)},
                      deadLettered := s1.deadLettered + {(tp, offset)});
        var (s3, raised) := CommitResolved(s2, tp, offset, env.lateCommitOk);
        if raised then s3.(running := false) else s3
    else
      s1.(blocked := if tp in s1.blocked then s1.blocked else s1.blocked[tp := offset])
  }

  function OnMessage(s: State, maxRetries: int, tp: Partition, offset: int, env: Env): (s': State)
    ensures s'.position == s.position
  {
    match env.handler
    case Handled =>
      var s1 := s.(retries := s.retries - {(tp.topic, offset)}, resolved := s.resolved + {(tp, offset)});
      var (s2, raised) := CommitResolved(s1, tp, offset, env.commitOk);
      if raised then OnFailure(s2, maxRetries, tp, offset, env) else s2
    case Raised => OnFailure(s, maxRetries, tp, offset, env)
    case Interrupted => s.(running := false)
  }

  // ---------------------------------------------------------------- runs

  datatype Step =
    | Deliver(tp: Partition, env: Env)   // the client yields the message at its position
    | Rewind                             // positions go back to the committed offsets, memory is kept
    | Restart                            // a new process: memory is lost too

  function Moved(s: State, tp: Partition): State
    requires tp in s.position
  {
    s.(position := s.position[tp := s.position[tp] + 1])
  }

  function Apply(s: State, maxRetries: int, step: Step): State
  {
    match step
    case Deliver(tp, env) =>
      if s.running && tp in s.position then
        OnMessage(Moved(s, tp), maxRetries, tp, s.position[tp], env)
      else s
    case Rewind => if s.running then s.(position := s.committed) else s
    case Restart => s.(retries := map[], blocked := map[], position := s.committed, running := true)
  }

  function Run(s: State, maxRetries: int, steps: seq<Step>): State
    decreases |steps|
  {
    if steps == [] then s else Run(Apply(s, maxRetries, steps[0]), maxRetries, steps[1..])
  }

  function Fresh(tp: Partition, start: int): State
  {
    State(map[], map[], map[tp := start], map[tp := start], {}, {}, true)
  }

  // ---------------------------------------------------------------- safety, one assigned partition

  /** `m` speaks of no partition but `tp`. */
  ghost predicate Only(m: map<Partition, int>, tp: Partition)
  {
    forall q :: q in m ==> q == tp
  }

  ghost predicate Safe(s: State, tp: Partition, start: int)
  {
    && Only(s.position, tp) && tp in s.position && Only(s.committed, tp) && tp in s.committed && Only(s.blocked, tp)
    && start <= s.committed[tp] <= s.position[tp]
    && (tp in s.blocked ==> s.blocked[tp] == s.committed[tp])
    && (s.running && tp !in s.blocked ==> s.position[tp] == s.committed[tp])
    && (forall o :: start <= o < s.committed[tp] ==> (tp, o) in s.resolved)
  }

  /** The message at `o` has been handed over and its fate is open. */
  ghost predicate InFlight(s: State, tp: Partition, start: int, o: int)
  {
    && Only(s.position, tp) && tp in s.position && Only(s.committed, tp) && tp in s.committed && Only(s.blocked, tp)
    && s.position[tp] == o + 1
    && start <= s.committed[tp] <= o
    && (if tp in s.blocked then s.blocked[tp] == s.committed[tp] else s.committed[tp] == o)
    && (forall i :: start <= i < s.committed[tp] ==> (tp, i) in s.resolved)
  }

  lemma CommitKeepsSafe(s: State, tp: Partition, start: int, o: int, commitOk: bool)
    requires InFlight(s, tp, start, o) && (tp, o) in s.resolved
    ensures var (s', raised) := CommitResolved(s, tp, o, commitOk);
            && (if raised then InFlight(s', tp, start, o) else Safe(s', tp, start))
            && s.committed[tp] <= s'.committed[tp]
  {
  }

  lemma FailureKeepsSafe(s: State, maxRetries: int, tp: Partition, start: int, o: int, env: Env)
    requires InFlight(s, tp, start, o)
    ensures var s' := OnFailure(s, maxRetries, tp, o, env);
            Safe(s', tp, start) && s.committed[tp] <= s'.committed[tp]
  {
    var key := (tp.topic, o);
    var count := (if key in s.retries then s.retries[key] else 0) + 1;
    if count >= maxRetries && env.deadLetterOk {
      var s1 := s.(retries := s.retries[key := count]);
      CommitKeepsSafe(s1.(retries := s1.retries - {key}, resolved := s1.resolved + {(tp, o)},
                          deadLettered := s1.deadLettered + {(tp, o)}), tp, start, o, env.lateCommitOk);
    }
  }

  lemma StepKeepsSafe(s: State, maxRetries: int, step: Step, tp: Partition, start: int)
    requires Safe(s, tp, start)
    ensures Safe(Apply(s, maxRetries, step), tp, start)
    ensures s.committed[tp] <= Apply(s, maxRetries, step).committed[tp]
  {
    match step {
      case Deliver(q, env) =>
        if q == tp {
          DeliveryKeepsSafe(s, maxRetries, tp, start, env);
        } else {
          assert q !in s.position;
        }
      case Rewind =>
      case Restart =>
    }
  }

  lemma DeliveryKeepsSafe(s: State, maxRetries: int, tp: Partition, start: int, env: Env)
    requires Safe(s, tp, start)
    ensures var s' := Apply(s, maxRetries, Deliver(tp, env));
            Safe(s', tp, start) && s.committed[tp] <= s'.committed[tp]
  {
    if s.running {
      DeliveryIsInFlight(s, tp, start);
      MessageKeepsSafe(Moved(s, tp), maxRetries, tp, start, s.position[tp], env);
    }
  }

  lemma DeliveryIsInFlight(s: State, tp: Partition, start: int)
    requires Safe(s, tp, start) && s.running
    ensures InFlight(Moved(s, tp), tp, start, s.position[tp])
  {
  }

  lemma MessageKeepsSafe(s: State, maxRetries: int, tp: Partition, start: int, o: int, env: Env)
    requires InFlight(s, tp, start, o)
    ensures var s' := OnMessage(s, maxRetries, tp, o, env);
            Safe(s', tp, start) && s.committed[tp] <= s'.committed[tp]
  {
    match env.handler {
      case Handled =>
        var done := s.(retries := s.retries - {(tp.topic, o)}, resolved := s.resolved + {(tp, o)});
        CommitKeepsSafe(done, tp, start, o, env.commitOk);
        var (s2, raised) := CommitResolved(done, tp, o, env.commitOk);
        if raised {
          FailureKeepsSafe(s2, maxRetries, tp, start, o, env);
        }
      case Raised => FailureKeepsSafe(s, maxRetries, tp, start, o, env);
      case Interrupted =>
    }
  }

  /** Whatever succeeds, fails, is dead-lettered, rewound or restarted, nothing below the committed
      offset is unresolved, the committed offset never moves back, and a blocked offset is the
      committed one. */
  lemma {:induction false} EveryRunIsSafe(s: State, maxRetries: int, steps: seq<Step>, tp: Partition, start: int)
    requires Safe(s, tp, start)
    ensures Safe(Run(s, maxRetries, steps), tp, start)
    ensures s.committed[tp] <= Run(s, maxRetries, steps).committed[tp]
    decreases |steps|
  {
    if steps != [] {
      StepKeepsSafe(s, maxRetries, steps[0], tp, start);
      EveryRunIsSafe(Apply(s, maxRetries, steps[0]), maxRetries, steps[1..], tp, start);
    }
  }

  // ---------------------------------------------------------------- progress within one process life

  /** Deliveries needed at most per head message; `max_retries` below 1 still takes one. */
  function Attempts(maxRetries: int): int { if maxRetries < 1 then 1 else maxRetries }

  /** No restart, no interrupt, and the broker accepts commits and dead letters; handlers are free. */
  predicate Live(step: Step)
  {
    step.Rewind? ||
    (step.Deliver? && !step.env.handler.Interrupted? && step.env.commitOk && step.env.deadLetterOk && step.env.lateCommitOk)
  }

  predicate IsHead(s: State, step: Step)
  {
    step.Deliver? && step.tp in s.position && step.tp in s.committed && s.position[step.tp] == s.committed[step.tp]
  }

  function HeadDeliveries(s: State, maxRetries: int, steps: seq<Step>): nat
    decreases |steps|
  {
    if steps == [] then 0
    else (if IsHead(s, steps[0]) then 1 else 0) + HeadDeliveries(Apply(s, maxRetries, steps[0]), maxRetries, steps[1..])
  }

  function Tries(s: State, tp: Partition): int
  {
    if tp in s.committed && (tp.topic, s.committed[tp]) in s.retries then s.retries[(tp.topic, s.committed[tp])] else 0
  }

  ghost predicate CountsBelowMax(s: State, maxRetries: int)
  {
    forall key :: key in s.retries ==> 1 <= s.retries[key] < maxRetries
  }

  /** How far a run has come: whole messages first, then tries of the head message. */
  function Potential(s: State, maxRetries: int, tp: Partition): int
    requires tp in s.committed
  {
    s.committed[tp] * Attempts(maxRetries) + Tries(s, tp)
  }

  /** One live step: the head's tries grow with each delivery of it until the head moves on. */
  lemma StepAdvances(s: State, maxRetries: int, step: Step, tp: Partition, start: int)
    requires Safe(s, tp, start) && s.running && CountsBelowMax(s, maxRetries) && Live(step)
    ensures var s' := Apply(s, maxRetries, step);
            && Safe(s', tp, start) && s'.running && CountsBelowMax(s', maxRetries)
            && (|| (s'.committed[tp] == s.committed[tp] && Tries(s', tp) == Tries(s, tp) + (if IsHead(s, step) then 1 else 0))
                || (s'.committed[tp] == s.committed[tp] + 1 && IsHead(s, step)))
  {
    StepKeepsSafe(s, maxRetries, step, tp, start);
  }

  lemma StepRaisesPotential(s: State, maxRetries: int, step: Step, tp: Partition, start: int)
    requires Safe(s, tp, start) && s.running && CountsBelowMax(s, maxRetries) && Live(step)
    ensures var s' := Apply(s, maxRetries, step);
            && Safe(s', tp, start) && s'.running && CountsBelowMax(s', maxRetries)
            && Potential(s', maxRetries, tp) >= Potential(s, maxRetries, tp) + (if IsHead(s, step) then 1 else 0)
  {
    StepAdvances(s, maxRetries, step, tp, start);
    var s' := Apply(s, maxRetries, step);
    TriesBounds(s, maxRetries, tp);
    TriesBounds(s', maxRetries, tp);
    Carry(s.committed[tp], s'.committed[tp], Attempts(maxRetries), Tries(s, tp), Tries(s', tp), if IsHead(s, step) then 1 else 0);
  }

  lemma TriesBounds(s: State, maxRetries: int, tp: Partition)
    requires CountsBelowMax(s, maxRetries)
    ensures 0 <= Tries(s, tp) < Attempts(maxRetries)
  {
  }

  lemma Carry(c: int, c': int, m: int, tries: int, tries': int, h: int)
    requires 0 <= tries < m && 0 <= tries' < m && h <= 1
    requires (c' == c && tries' == tries + h) || c' == c + 1
    ensures c' * m + tries' >= c * m + tries + h
  {
    assert (c + 1) * m == c * m + m;
  }

  /** Every `max_retries` deliveries of head messages move the committed offset: over a whole live
      run, heads delivered are at most `max_retries` per committed message, plus the tries the last
      head has used up. */
  lemma {:induction false} HeadsAreBounded(s: State, maxRetries: int, steps: seq<Step>, tp: Partition, start: int)
    requires Safe(s, tp, start) && s.running && CountsBelowMax(s, maxRetries)
    requires forall i :: 0 <= i < |steps| ==> Live(steps[i])
    ensures var s' := Run(s, maxRetries, steps);
            && tp in s'.committed
            && Tries(s', tp) < Attempts(maxRetries)
            && HeadDeliveries(s, maxRetries, steps) <= Potential(s', maxRetries, tp) - Potential(s, maxRetries, tp)
    decreases |steps|
  {
    if steps != [] {
      StepRaisesPotential(s, maxRetries, steps[0], tp, start);
      HeadsAreBounded(Apply(s, maxRetries, steps[0]), maxRetries, steps[1..], tp, start);
    }
  }

  /** `max_retries` deliveries of the head are enough: whatever the handler does, the committed
      offset has advanced. */
  lemma HeadAdvances(s: State, maxRetries: int, steps: seq<Step>, tp: Partition, start: int)
    requires Safe(s, tp, start) && s.running && CountsBelowMax(s, maxRetries)
    requires forall i :: 0 <= i < |steps| ==> Live(steps[i])
    requires HeadDeliveries(s, maxRetries, steps) >= Attempts(maxRetries)
    ensures tp in Run(s, maxRetries, steps).committed
    ensures Run(s, maxRetries, steps).committed[tp] > s.committed[tp]
  {
    HeadsAreBounded(s, maxRetries, steps, tp, start);
    assert Tries(s, tp) >= 0;
    Dominates(s.committed[tp], Run(s, maxRetries, steps).committed[tp], Attempts(maxRetries));
  }

  lemma Dominates(c: int, c': int, m: int)
    requires m > 0 && c * m < c' * m
    ensures c < c'
  {
  }

  // ------------------------------------------------------------ the policy "rewind whenever blocked"

  function Delivery(tp: Partition, handled: bool): Step
  {
    Deliver(tp, Env(if handled then Handled else Raised, true, true, true))
  }

  function Replayed(s: State, maxRetries: int, tp: Partition, handled: seq<bool>): State
    decreases |handled|
  {
    if handled == [] then s
    else
      var s1 := Apply(s, maxRetries, Delivery(tp, handled[0]));
      Replayed(if tp in s1.blocked then Apply(s1, maxRetries, Rewind) else s1, maxRetries, tp, handled[1..])
  }

  ghost predicate AtHead(s: State, maxRetries: int, tp: Partition, start: int)
  {
    Safe(s, tp, start) && s.running && CountsBelowMax(s, maxRetries) && s.position[tp] == s.committed[tp]
  }

  lemma ReplayStep(s: State, maxRetries: int, tp: Partition, start: int, handled: bool)
    requires AtHead(s, maxRetries, tp, start)
    ensures var s1 := Apply(s, maxRetries, Delivery(tp, handled));
            var s2 := if tp in s1.blocked then Apply(s1, maxRetries, Rewind) else s1;
            AtHead(s2, maxRetries, tp, start) && Potential(s2, maxRetries, tp) >= Potential(s, maxRetries, tp) + 1
  {
    StepRaisesPotential(s, maxRetries, Delivery(tp, handled), tp, start);
    var s1 := Apply(s, maxRetries, Delivery(tp, handled));
    if tp in s1.blocked {
      StepRaisesPotential(s1, maxRetries, Rewind, tp, start);
    }
  }

  lemma {:induction false} ReplayRaisesPotential(s: State, maxRetries: int, tp: Partition, start: int,
          handled: seq<bool>)
    requires AtHead(s, maxRetries, tp, start)
    ensures var s' := Replayed(s, maxRetries, tp, handled);
            AtHead(s', maxRetries, tp, start) && Potential(s', maxRetries, tp) >= Potential(s, maxRetries, tp) + |handled|
    decreases |handled|
  {
    if handled != [] {
      ReplayStep(s, maxRetries, tp, start, handled[0]);
      var s1 := Apply(s, maxRetries, Delivery(tp, handled[0]));
      var s2 := if tp in s1.blocked then Apply(s1, maxRetries, Rewind) else s1;
      ReplayRaisesPotential(s2, maxRetries, tp, start, handled[1..]);
    }
  }

  /** Rewinding whenever blocked, every delivery is of the head, and `n` deliveries commit at least one
      message in `max_retries`, whatever the handlers do. */
  lemma ReplayCommits(s: State, maxRetries: int, tp: Partition, start: int, handled: seq<bool>)
    requires AtHead(s, maxRetries, tp, start)
    ensures var s' := Replayed(s, maxRetries, tp, handled);
            && AtHead(s', maxRetries, tp, start)
            && s'.committed[tp] >= s.committed[tp] + |handled| / Attempts(maxRetries)
  {
    var s' := Replayed(s, maxRetries, tp, handled);
    ReplayRaisesPotential(s, maxRetries, tp, start, handled);
    TriesBounds(s, maxRetries, tp);
    TriesBounds(s', maxRetries, tp);
    Quotient(s'.committed[tp], s.committed[tp], Attempts(maxRetries), Tries(s', tp) - Tries(s, tp), |handled|);
  }

  /** A new process starts over at the committed offset, whatever had become of the old one, and then commits as
      steadily. */
  lemma RestartResumes(s: State, maxRetries: int, tp: Partition, start: int, handled: seq<bool>)
    requires Safe(s, tp, start)
    ensures var s0 := Apply(s, maxRetries, Restart);
            && s0 == Fresh(tp, s.committed[tp]).(resolved := s.resolved, deadLettered := s.deadLettered)
            && var s' := Replayed(s0, maxRetries, tp, handled);
               AtHead(s', maxRetries, tp, start) && s'.committed[tp] >= s.committed[tp] + |handled| / Attempts(maxRetries)
  {
    StepKeepsSafe(s, maxRetries, Restart, tp, start);
    assert s.committed == map[tp := s.committed[tp]];
    ReplayCommits(Apply(s, maxRetries, Restart), maxRetries, tp, start, handled);
  }

  lemma Quotient(c': int, c: int, m: int, tries: int, n: nat)
    requires m > 0 && tries < m && c' * m + tries >= c * m + n
    ensures c' >= c + n / m
  {
    var q := n / m;
    assert n >= q * m;
    assert (c' - c - q) * m == c' * m - c * m - q * m;
    if c' - c - q <= -1 {
      ScaledDown(c' - c - q, m);
    }
  }

  lemma ScaledDown(d: int, m: int)
    requires d <= -1 && m > 0
    ensures d * m <= -m
  {
  }

  /** One delivery of the head to a handler that raises: the `n`-th failure in a row. */
  lemma HeadRaises(s: State, maxRetries: int, tp: Partition, o: int, n: nat)
    requires s.running && s.position == s.committed == map[tp := o] && n < Attempts(maxRetries)
    requires s.retries == (if n > 0 then map[(tp.topic, o) := n] else map[])
    requires s.blocked == (if n > 0 then map[tp := o] else map[])
    ensures Apply(s, maxRetries, Deliver(tp, Env(Raised, true, true, true))) ==
            if n + 1 == Attempts(maxRetries) then
              s.(retries := map[], blocked := map[], position := map[tp := o + 1], committed := map[tp := o + 1],
                 resolved := s.resolved + {(tp, o)}, deadLettered := s.deadLettered + {(tp, o)})
            else
              s.(retries := map[(tp.topic, o) := n + 1], blocked := map[tp := o], position := map[tp := o + 1])
  {
    var key, env := (tp.topic, o), Env(Raised, true, true, true);
    assert Moved(s, tp).position == map[tp := o + 1];
    assert s.retries[key := n + 1] == map[key := n + 1];
    assert s.retries[key := n + 1] - {key} == map[];
    assert s.blocked - {tp} == map[];
    assert Apply(s, maxRetries, Deliver(tp, env)) == OnFailure(Moved(s, tp), maxRetries, tp, o, env);
  }

  lemma HeadIsHandled(s: State, maxRetries: int, tp: Partition, o: int)
    requires s.running && s.position == s.committed == map[tp := o] && s.retries == map[] && s.blocked == map[]
    ensures Apply(s, maxRetries, Deliver(tp, Env(Handled, true, true, true))) ==
            s.(position := map[tp := o + 1], committed := map[tp := o + 1], resolved := s.resolved + {(tp, o)})
  {
    assert s.position[tp := o + 1] == map[tp := o + 1];
    assert s.retries - {(tp.topic, o)} == map[];
    assert s.blocked - {tp} == map[];
  }

  /** A message whose handler always raises, replayed `n` times from the committed offset. */
  function Poison(tp: Partition, n: nat): seq<Step>
  {
    if n == 0 then [] else Poison(tp, n - 1) + [Deliver(tp, Env(Raised, true, true, true)), Rewind]
  }

  lemma {:induction false} RunAppend(s: State, maxRetries: int, a: seq<Step>, b: seq<Step>)
    ensures Run(s, maxRetries, a + b) == Run(Run(s, maxRetries, a), maxRetries, b)
    decreases |a|
  {
    if a == [] {
      assert a + b == b;
    } else {
      assert (a + b)[0] == a[0] && (a + b)[1..] == a[1..] + b;
      RunAppend(Apply(s, maxRetries, a[0]), maxRetries, a[1..], b);
    }
  }

  /** It reaches the dead-letter topic on the `max_retries`-th failure, no sooner and no later. */
  lemma {:induction false} PoisonIsDeadLetteredOnTheLastRetry(tp: Partition, start: int, maxRetries: int, n: nat)
    requires n <= Attempts(maxRetries)
    ensures var s := Run(Fresh(tp, start), maxRetries, Poison(tp, n));
            && s.running
            && ((tp, start) in s.deadLettered <==> n == Attempts(maxRetries))
            && s.committed == map[tp := if n == Attempts(maxRetries) then start + 1 else start]
            && s.position == s.committed
            && s.retries == (if 0 < n < Attempts(maxRetries) then map[(tp.topic, start) := n] else map[])
            && s.blocked == (if 0 < n < Attempts(maxRetries) then map[tp := start] else map[])
  {
    if n > 0 {
      PoisonIsDeadLetteredOnTheLastRetry(tp, start, maxRetries, n - 1);
      var last := [Deliver(tp, Env(Raised, true, true, true)), Rewind];
      RunAppend(Fresh(tp, start), maxRetries, Poison(tp, n - 1), last);
      var before := Run(Fresh(tp, start), maxRetries, Poison(tp, n - 1));
      HeadRaises(before, maxRetries, tp, start, n - 1);
      RunTwo(before, maxRetries, last[0], last[1]);
    }
  }

  // ---------------------------------------------------------------- without a replay

  function Deliveries(tp: Partition, handled: seq<bool>): seq<Step>
  {
    seq(|handled|, i requires 0 <= i < |handled| =>
      Deliver(tp, Env(if handled[i] then Handled else Raised, true, true, true)))
  }

  function HandledPrefix(handled: seq<bool>): nat
  {
    if handled == [] || !handled[0] then 0 else 1 + HandledPrefix(handled[1..])
  }

  /** `consume()` itself never seeks back. Once blocked past the failed message, deliveries alone
      can no longer move the committed offset. */
  lemma {:induction false} BlockedStaysPut(s: State, maxRetries: int, tp: Partition, start: int, handled: seq<bool>)
    requires Safe(s, tp, start) && s.running && tp in s.blocked && s.committed[tp] < s.position[tp]
    ensures var s' := Run(s, maxRetries, Deliveries(tp, handled));
            s'.committed == s.committed && s'.blocked == s.blocked
    decreases |handled|
  {
    if handled != [] {
      var steps := Deliveries(tp, handled);
      assert steps[1..] == Deliveries(tp, handled[1..]);
      StepKeepsSafe(s, maxRetries, steps[0], tp, start);
      BlockedStaysPut(Apply(s, maxRetries, steps[0]), maxRetries, tp, start, handled[1..]);
    }
  }

  /** What one pass over the log commits, exactly: everything up to the first failure, or everything
      when a single failure already exhausts the retries. The documented retries need a replay. */
  lemma {:induction false} OnePassCommits(s: State, maxRetries: int, tp: Partition, start: int, handled: seq<bool>)
    requires Safe(s, tp, start) && s.running && s.blocked == map[] && s.retries == map[]
    ensures var s' := Run(s, maxRetries, Deliveries(tp, handled));
            tp in s'.committed &&
            s'.committed[tp] == s.committed[tp] + if maxRetries <= 1 then |handled| else HandledPrefix(handled)
    decreases |handled|
  {
    if handled != [] {
      var steps := Deliveries(tp, handled);
      assert steps[1..] == Deliveries(tp, handled[1..]);
      StepKeepsSafe(s, maxRetries, steps[0], tp, start);
      var s' := Apply(s, maxRetries, steps[0]);
      assert s.position == s.committed == map[tp := s.committed[tp]];
      if handled[0] {
        HeadIsHandled(s, maxRetries, tp, s.committed[tp]);
      } else {
        HeadRaises(s, maxRetries, tp, s.committed[tp], 0);
      }
      if handled[0] || maxRetries <= 1 {
        OnePassCommits(s', maxRetries, tp, start, handled[1..]);
      } else {
        BlockedStaysPut(s', maxRetries, tp, start, handled[1..]);
      }
    }
  }

  // ---------------------------------------------------------------- more than one partition

  /** Every partition's committed offset is at or below its own oldest open failure. */
  ghost predicate CommitsHoldBack(s: State)
  {
    forall q :: q in s.blocked && q in s.committed ==> s.committed[q] <= s.blocked[q]
  }

  /** `commit()` covers all assigned partitions, so resolving a message keeps that promise exactly
      when no other blocked partition has been read past its failure. */
  lemma CommitIsSafeIffNoOtherPartitionIsBlocked(s: State, tp: Partition, offset: int)
    requires s.position.Keys == s.committed.Keys && s.blocked.Keys <= s.position.Keys
    requires CommitsHoldBack(s)
    requires tp in s.blocked ==> s.blocked[tp] == offset
    ensures CommitsHoldBack(CommitResolved(s, tp, offset, true).0) <==>
            forall q :: q in s.blocked && q != tp ==> s.position[q] <= s.blocked[q]
  {
    var s' := CommitResolved(s, tp, offset, true).0;
    if CommitsHoldBack(s') {
      forall q | q in s.blocked && q != tp
        ensures s.position[q] <= s.blocked[q]
      {
        assert q in s'.blocked;
      }
    }
  }

  function TwoPartitions(topic: string): State
  {
    var both := map[Partition(topic, 0) := 5, Partition(topic, 1) := 5];
    State(map[], map[], both, both, {}, {}, true)
  }

  /** Two partitions of one topic: the second one's success commits past the first one's failure. */
  lemma CommitSkipsTheOtherPartition(topic: string)
    ensures var (a, b) := (Partition(topic, 0), Partition(topic, 1));
            var s := Run(TwoPartitions(topic), 3, [Deliver(a, Env(Raised, true, true, true)), Deliver(b, Env(Handled, true, true, true))]);
            s.committed == map[a := 6, b := 6] && (a, 5) !in s.resolved
  {
    var (a, b) := (Partition(topic, 0), Partition(topic, 1));
    RunTwo(TwoPartitions(topic), 3, Deliver(a, Env(Raised, true, true, true)), Deliver(b, Env(Handled, true, true, true)));
    assert TwoPartitions(topic).position[a := 6][b := 6] == map[a := 6, b := 6];
  }

  /** ... and the second one's very first failure is dead-lettered on the first one's retry count. */
  lemma RetriesAreSharedAcrossPartitions(topic: string)
    ensures var fails := Env(Raised, true, true, true);
            (Partition(topic, 1), 5) in
            Run(TwoPartitions(topic), 2, [Deliver(Partition(topic, 0), fails), Deliver(Partition(topic, 1), fails)]).deadLettered
  {
    var fails := Env(Raised, true, true, true);
    RunTwo(TwoPartitions(topic), 2, Deliver(Partition(topic, 0), fails), Deliver(Partition(topic, 1), fails));
  }

  lemma RunTwo(s: State, maxRetries: int, x: Step, y: Step)
    ensures Run(s, maxRetries, [x, y]) == Apply(Apply(s, maxRetries, x), maxRetries, y)
  {
    assert [x, y][1..] == [y] && [y][1..] == [];
    assert Run(Apply(s, maxRetries, x), maxRetries, [y]) == Apply(Apply(s, maxRetries, x), maxRetries, y);
  }

  // ---------------------------------------------------------------- the code

  class EventConsumer {
    const maxRetries: int
    var retryCounts: map<RetryKey, int>
    var blockedOffset: map<Partition, int>
    var position: map<Partition, int>     // the Kafka client's side
    var committed: map<Partition, int>
    var running: bool
    ghost var resolved: set<(Partition, int)>
    ghost var deadLettered: set<(Partition, int)>

    ghost function Snapshot(): State
      reads this
    {
      State(retryCounts, blockedOffset, position, committed, resolved, deadLettered, running)
    }

    constructor (maxRetries: int, committed: map<Partition, int>)
      ensures this.maxRetries == maxRetries
      ensures Snapshot() == State(map[], map[], committed, committed, {}, {}, true)
    {
      this.maxRetries := maxRetries;
      retryCounts, blockedOffset := map[], map[];
      position, this.committed := committed, committed;
      running := true;
      resolved, deadLettered := {}, {};
    }

    method CommitResolvedOffset(tp: Partition, offset: int, commitOk: bool) returns (raised: bool)
      modifies this
      ensures (Snapshot(), raised) == CommitResolved(old(Snapshot()), tp, offset, commitOk)
    {
      if tp in blockedOffset && blockedOffset[tp] != offset {
        return false;
      }
      blockedOffset := blockedOffset - {tp};
      if !commitOk {
        return true;
      }
      committed := position;
      return false;
    }

    method HandleFailure(tp: Partition, offset: int, env: Env)
      modifies this
      ensures Snapshot() == OnFailure(old(Snapshot()), maxRetries, tp, offset, env)
    {
      var key := (tp.topic, offset);
      var count := (if key in retryCounts then retryCounts[key] else 0) + 1;
      retryCounts := retryCounts[key := count];
      if count >= maxRetries {
        if !env.deadLetterOk {
          running := false;
          return;
        }
        resolved, deadLettered := resolved + {(tp, offset)}, deadLettered + {(tp, offset)};
        retryCounts := retryCounts - {key};
        var raised := CommitResolvedOffset(tp, offset, env.lateCommitOk);
        if raised {
          running := false;
        }
      } else if tp !in blockedOffset {
        blockedOffset := blockedOffset[tp := offset];
      }
    }

    method HandleMessage(tp: Partition, offset: int, env: Env)
      modifies this
      ensures Snapshot() == OnMessage(old(Snapshot()), maxRetries, tp, offset, env)
    {
      match env.handler {
        case Handled =>
          resolved := resolved + {(tp, offset)};
          retryCounts := retryCounts - {(tp.topic, offset)};
          var raised := CommitResolvedOffset(tp, offset, env.commitOk);
          if raised {
            HandleFailure(tp, offset, env);
          }
        case Raised =>
          HandleFailure(tp, offset, env);
        case Interrupted =>
          running := false;
      }
    }

    method HandleNext(tp: Partition, env: Env)
      requires running && tp in position
      modifies this
      ensures Snapshot() == Apply(old(Snapshot()), maxRetries, Deliver(tp, env))
    {
      var offset := position[tp];
      position := position[tp := offset + 1];
      HandleMessage(tp, offset, env);
    }

    /** The blocking loop over one client's messages; it ends by closing the client. */
    method Consume(arrivals: seq<(Partition, Env)>)
      requires running
      requires forall i :: 0 <= i < |arrivals| ==> arrivals[i].0 in position
      modifies this
      ensures Snapshot() == Run(old(Snapshot()), maxRetries, Arrivals(arrivals)).(running := false)
    {
      var i := 0;
      while i < |arrivals| && running
        invariant 0 <= i <= |arrivals|
        invariant Snapshot().position.Keys == old(position.Keys)
        invariant Run(Snapshot(), maxRetries, Arrivals(arrivals[i..])) == Run(old(Snapshot()), maxRetries, Arrivals(arrivals))
      {
        var (tp, env) := arrivals[i];
        RunArrival(Snapshot(), maxRetries, arrivals, i);
        DeliverKeepsPartitions(Snapshot(), maxRetries, tp, env);
        HandleNext(tp, env);
        i := i + 1;
      }
      if !running {
        StoppedIsInert(Snapshot(), maxRetries, arrivals[i..]);
      }
      running := false;
    }
  }

  function Arrivals(arrivals: seq<(Partition, Env)>): seq<Step>
  {
    seq(|arrivals|, i requires 0 <= i < |arrivals| => Deliver(arrivals[i].0, arrivals[i].1))
  }

  lemma RunArrival(s: State, maxRetries: int, arrivals: seq<(Partition, Env)>, i: nat)
    requires i < |arrivals|
    ensures Run(s, maxRetries, Arrivals(arrivals[i..])) ==
            Run(Apply(s, maxRetries, Deliver(arrivals[i].0, arrivals[i].1)), maxRetries, Arrivals(arrivals[i + 1..]))
  {
    assert Arrivals(arrivals[i..])[1..] == Arrivals(arrivals[i + 1..]);
  }

  lemma DeliverKeepsPartitions(s: State, maxRetries: int, tp: Partition, env: Env)
    ensures Apply(s, maxRetries, Deliver(tp, env)).position.Keys == s.position.Keys
  {
  }

  lemma {:induction false} StoppedIsInert(s: State, maxRetries: int, arrivals: seq<(Partition, Env)>)
    requires !s.running
    ensures Run(s, maxRetries, Arrivals(arrivals)) == s
    decreases |arrivals|
  {
    if arrivals != [] {
      assert Arrivals(arrivals)[1..] == Arrivals(arrivals[1..]);
      StoppedIsInert(s, maxRetries, arrivals[1..]);
    }
  }
}
