/** What the consumer's retry counts mean (src/agentit/consumer.py). They are keyed by topic and offset,
    so they speak of every partition of a topic at once: over any run, from the log of what happened. */
module RetryCounts {
  import opened Consumer
  import opened Sequences

  /** What happened to the message at an offset; `Restarted` is a new process. */
  datatype Event = Failed(tp: Partition, offset: int) | Succeeded(tp: Partition, offset: int)
                 | DeadLettered(tp: Partition, offset: int) | Restarted

  function CountOf(retries: map<RetryKey, int>, topic: string, offset: int): int
  {
    if (topic, offset) in retries then retries[(topic, offset)] else 0
  }

  /** A failure in this state sends the message to the dead-letter topic. */
  predicate GivesUp(s: State, maxRetries: int, tp: Partition, offset: int, env: Env)
  {
    CountOf(s.retries, tp.topic, offset) + 1 >= maxRetries && env.deadLetterOk
  }

  function FailureEvents(s: State, maxRetries: int, tp: Partition, offset: int, env: Env): seq<Event>
  {
    [Failed(tp, offset)] + (if GivesUp(s, maxRetries, tp, offset, env) then [DeadLettered(tp, offset)] else [])
  }

  /** The state once the handler has returned and its commit has been tried. */
  function AfterSuccess(s: State, tp: Partition, offset: int, commitOk: bool): (State, bool)
  {
    CommitResolved(s.(retries := s.retries - {(tp.topic, offset)}, resolved := s.resolved + {(tp, offset)}), tp, offset, commitOk)
  }

  function MessageEvents(s: State, maxRetries: int, tp: Partition, offset: int, env: Env): seq<Event>
  {
    match env.handler
    case Handled =>
      var (s1, raised) := AfterSuccess(s, tp, offset, env.commitOk);
      [Succeeded(tp, offset)] + (if raised then FailureEvents(s1, maxRetries, tp, offset, env) else [])
    case Raised => FailureEvents(s, maxRetries, tp, offset, env)
    case Interrupted => []
  }

  function Happened(s: State, maxRetries: int, step: Step): seq<Event>
  {
    match step
    case Deliver(tp, env) =>
      if s.running && tp in s.position then MessageEvents(Moved(s, tp), maxRetries, tp, s.position[tp], env) else []
    case Rewind => []
    case Restart => [Restarted]
  }

  function Log(s: State, maxRetries: int, steps: seq<Step>): seq<Event>
    decreases |steps|
  {
    if steps == [] then []
    else Happened(s, maxRetries, steps[0]) + Log(Apply(s, maxRetries, steps[0]), maxRetries, steps[1..])
  }

  /** A dead letter is in the log exactly when the message joins the dead-lettered ones. */
  lemma DeadLettersAreLogged(s: State, maxRetries: int, step: Step, tp: Partition, offset: int)
    ensures var s' := Apply(s, maxRetries, step);
            (tp, offset) in s'.deadLettered <==>
            (tp, offset) in s.deadLettered || DeadLettered(tp, offset) in Happened(s, maxRetries, step)
  {
    if step.Deliver? && s.running && step.tp in s.position {
      var (s0, at) := (Moved(s, step.tp), s.position[step.tp]);
      FailureIsLogged(s0, maxRetries, step.tp, at, step.env);
      FailureIsLogged(AfterSuccess(s0, step.tp, at, step.env.commitOk).0, maxRetries, step.tp, at, step.env);
    }
  }

  lemma FailureIsLogged(s: State, maxRetries: int, tp: Partition, offset: int, env: Env)
    ensures OnFailure(s, maxRetries, tp, offset, env).deadLettered ==
            s.deadLettered + if GivesUp(s, maxRetries, tp, offset, env) then {(tp, offset)} else {}
  {
  }

  // ---------------------------------------------------------------- the count is a tally

  predicate Concerns(e: Event, topic: string, offset: int) { !e.Restarted? && e.tp.topic == topic && e.offset == offset }

  /** Failures of this offset, on any partition of the topic, since one of them was last handled or
      dead-lettered, in this process life. */
  function Tally(log: seq<Event>, topic: string, offset: int): nat
  {
    if log == [] then 0
    else
      var (rest, e) := (log[..|log| - 1], log[|log| - 1]);
      if e.Restarted? then 0
      else if !Concerns(e, topic, offset) then Tally(rest, topic, offset)
      else if e.Failed? then Tally(rest, topic, offset) + 1
      else 0
  }

  ghost predicate Counted(retries: map<RetryKey, int>, log: seq<Event>)
  {
    forall topic, offset :: CountOf(retries, topic, offset) == Tally(log, topic, offset)
  }

  lemma TallySnoc(log: seq<Event>, e: Event, topic: string, offset: int)
    ensures Tally(log + [e], topic, offset) ==
            if e.Restarted? then 0
            else if !Concerns(e, topic, offset) then Tally(log, topic, offset)
            else if e.Failed? then Tally(log, topic, offset) + 1
            else 0
  {
    assert (log + [e])[..|log|] == log;
  }

  function Bumped(retries: map<RetryKey, int>, tp: Partition, offset: int): map<RetryKey, int>
  {
    retries[(tp.topic, offset) := CountOf(retries, tp.topic, offset) + 1]
  }

  lemma FailureIsCounted(retries: map<RetryKey, int>, log: seq<Event>, tp: Partition, offset: int)
    requires Counted(retries, log)
    ensures Counted(Bumped(retries, tp, offset), log + [Failed(tp, offset)])
  {
    forall topic, o
      ensures CountOf(Bumped(retries, tp, offset), topic, o) == Tally(log + [Failed(tp, offset)], topic, o)
    {
      TallySnoc(log, Failed(tp, offset), topic, o);
    }
  }

  lemma SettlingIsCounted(retries: map<RetryKey, int>, log: seq<Event>, e: Event)
    requires Counted(retries, log) && (e.Succeeded? || e.DeadLettered?)
    ensures Counted(retries - {(e.tp.topic, e.offset)}, log + [e])
  {
    forall topic, o
      ensures CountOf(retries - {(e.tp.topic, e.offset)}, topic, o) == Tally(log + [e], topic, o)
    {
      TallySnoc(log, e, topic, o);
    }
  }

  lemma FailureRetries(s: State, maxRetries: int, tp: Partition, offset: int, env: Env)
    ensures OnFailure(s, maxRetries, tp, offset, env).retries ==
            if GivesUp(s, maxRetries, tp, offset, env) then Bumped(s.retries, tp, offset) - {(tp.topic, offset)}
            else Bumped(s.retries, tp, offset)
  {
  }

  lemma OnFailureIsCounted(s: State, maxRetries: int, tp: Partition, offset: int, env: Env, log: seq<Event>)
    requires Counted(s.retries, log)
    ensures Counted(OnFailure(s, maxRetries, tp, offset, env).retries, log + FailureEvents(s, maxRetries, tp, offset, env))
  {
    FailureRetries(s, maxRetries, tp, offset, env);
    FailureIsCounted(s.retries, log, tp, offset);
    if GivesUp(s, maxRetries, tp, offset, env) {
      SettlingIsCounted(Bumped(s.retries, tp, offset), log + [Failed(tp, offset)], DeadLettered(tp, offset));
      ConcatAssociates(log, [Failed(tp, offset)], [DeadLettered(tp, offset)]);
    } else {
      assert [Failed(tp, offset)] + [] == [Failed(tp, offset)];
    }
  }

  lemma MessageIsCounted(s: State, maxRetries: int, tp: Partition, offset: int, env: Env, log: seq<Event>)
    requires Counted(s.retries, log)
    ensures Counted(OnMessage(s, maxRetries, tp, offset, env).retries, log + MessageEvents(s, maxRetries, tp, offset, env))
  {
    match env.handler
    case Handled =>
      var (s1, raised) := AfterSuccess(s, tp, offset, env.commitOk);
      SettlingIsCounted(s.retries, log, Succeeded(tp, offset));
      if raised {
        OnFailureIsCounted(s1, maxRetries, tp, offset, env, log + [Succeeded(tp, offset)]);
        ConcatAssociates(log, [Succeeded(tp, offset)], FailureEvents(s1, maxRetries, tp, offset, env));
      } else {
        assert [Succeeded(tp, offset)] + [] == [Succeeded(tp, offset)];
      }
    case Raised => OnFailureIsCounted(s, maxRetries, tp, offset, env, log);
    case Interrupted => assert log + [] == log;
  }

  lemma StepIsCounted(s: State, maxRetries: int, step: Step, log: seq<Event>)
    requires Counted(s.retries, log)
    ensures Counted(Apply(s, maxRetries, step).retries, log + Happened(s, maxRetries, step))
  {
    if step.Deliver? && s.running && step.tp in s.position {
      MessageIsCounted(Moved(s, step.tp), maxRetries, step.tp, s.position[step.tp], step.env, log);
    } else if step.Restart? {
      forall topic, o
        ensures Tally(log + [Restarted], topic, o) == 0
      {
        TallySnoc(log, Restarted, topic, o);
      }
    } else {
      assert log + [] == log;
    }
  }

  lemma {:induction false} RunIsCounted(s: State, maxRetries: int, steps: seq<Step>, log: seq<Event>)
    requires Counted(s.retries, log)
    ensures Counted(Run(s, maxRetries, steps).retries, log + Log(s, maxRetries, steps))
    decreases |steps|
  {
    if steps == [] {
      assert log + [] == log;
    } else {
      var (now, s1) := (Happened(s, maxRetries, steps[0]), Apply(s, maxRetries, steps[0]));
      StepIsCounted(s, maxRetries, steps[0], log);
      RunIsCounted(s1, maxRetries, steps[1..], log + now);
      ConcatAssociates(log, now, Log(s1, maxRetries, steps[1..]));
    }
  }

  /** Over any run from empty counts, on any partitions: the count held for a topic and offset is the
      number of failures of that offset, on whichever partition, since one of them was last settled. */
  lemma CountIsTally(s: State, maxRetries: int, steps: seq<Step>, topic: string, offset: int)
    requires s.retries == map[]
    ensures CountOf(Run(s, maxRetries, steps).retries, topic, offset) == Tally(Log(s, maxRetries, steps), topic, offset)
  {
    RunIsCounted(s, maxRetries, steps, []);
    assert [] + Log(s, maxRetries, steps) == Log(s, maxRetries, steps);
  }

  // ---------------------------------------------------------------- who is dead-lettered when

  ghost predicate LowWhileRunning(s: State, maxRetries: int) { s.running ==> CountsBelowMax(s, maxRetries) }

  lemma FailureKeepsLow(s: State, maxRetries: int, tp: Partition, offset: int, env: Env)
    requires CountsBelowMax(s, maxRetries)
    ensures LowWhileRunning(OnFailure(s, maxRetries, tp, offset, env), maxRetries)
  {
    FailureRetries(s, maxRetries, tp, offset, env);
  }

  lemma StepKeepsLow(s: State, maxRetries: int, step: Step)
    requires LowWhileRunning(s, maxRetries)
    ensures LowWhileRunning(Apply(s, maxRetries, step), maxRetries)
  {
    if step.Deliver? && s.running && step.tp in s.position {
      var (s0, tp, offset) := (Moved(s, step.tp), step.tp, s.position[step.tp]);
      FailureKeepsLow(s0, maxRetries, tp, offset, step.env);
      FailureKeepsLow(AfterSuccess(s0, tp, offset, step.env.commitOk).0, maxRetries, tp, offset, step.env);
    }
  }

  lemma {:induction false} RunKeepsLow(s: State, maxRetries: int, steps: seq<Step>)
    requires LowWhileRunning(s, maxRetries)
    ensures LowWhileRunning(Run(s, maxRetries, steps), maxRetries)
    decreases |steps|
  {
    if steps != [] {
      StepKeepsLow(s, maxRetries, steps[0]);
      RunKeepsLow(Apply(s, maxRetries, steps[0]), maxRetries, steps[1..]);
    }
  }

  /** A delivery of the next message of `tp` to a handler that raises, the dead-letter publish working. */
  predicate Fails(s: State, tp: Partition, env: Env)
  {
    s.running && tp in s.position && env.handler.Raised? && env.deadLetterOk
  }

  lemma GivesUpNow(s: State, maxRetries: int, tp: Partition, env: Env)
    requires Fails(s, tp, env) && (tp, s.position[tp]) !in s.deadLettered
    ensures (tp, s.position[tp]) in Apply(s, maxRetries, Deliver(tp, env)).deadLettered <==>
            GivesUp(s, maxRetries, tp, s.position[tp], env)
  {
  }

  /** After any run from empty counts, a message that fails is dead-lettered exactly when, with this
      one, the failures of its offset on any partition since the last of them was settled come to
      `max_retries`. */
  lemma DeadLetteredIff(s: State, maxRetries: int, steps: seq<Step>, tp: Partition, env: Env)
    requires s.retries == map[] && Fails(Run(s, maxRetries, steps), tp, env)
    requires var now := Run(s, maxRetries, steps); (tp, now.position[tp]) !in now.deadLettered
    ensures var now := Run(s, maxRetries, steps);
            (tp, now.position[tp]) in Apply(now, maxRetries, Deliver(tp, env)).deadLettered <==>
            Tally(Log(s, maxRetries, steps), tp.topic, now.position[tp]) + 1 == Attempts(maxRetries)
  {
    var now := Run(s, maxRetries, steps);
    CountIsTally(s, maxRetries, steps, tp.topic, now.position[tp]);
    RunKeepsLow(s, maxRetries, steps);
    GivesUpNow(now, maxRetries, tp, env);
  }

  /** A message's own failures since it was itself last settled, in this process life. */
  function OwnFailures(log: seq<Event>, tp: Partition, offset: int): nat
  {
    if log == [] then 0
    else
      var (rest, e) := (log[..|log| - 1], log[|log| - 1]);
      if e.Restarted? then 0
      else if e.tp != tp || e.offset != offset then OwnFailures(rest, tp, offset)
      else if e.Failed? then OwnFailures(rest, tp, offset) + 1
      else 0
  }

  /** A message that is dead-lettered now has had its own `max_retries` tries exactly when the tally is
      the number of its own failures. */
  lemma LastTryIsItsOwnIff(s: State, maxRetries: int, steps: seq<Step>, tp: Partition, env: Env)
    requires s.retries == map[] && Fails(Run(s, maxRetries, steps), tp, env)
    requires var now := Run(s, maxRetries, steps);
             && (tp, now.position[tp]) !in now.deadLettered
             && (tp, now.position[tp]) in Apply(now, maxRetries, Deliver(tp, env)).deadLettered
    ensures var (log, offset) := (Log(s, maxRetries, steps), Run(s, maxRetries, steps).position[tp]);
            OwnFailures(log, tp, offset) + 1 == Attempts(maxRetries) <==>
            Tally(log, tp.topic, offset) == OwnFailures(log, tp, offset)
  {
    DeadLetteredIff(s, maxRetries, steps, tp, env);
  }

  /** No other partition of the topic has met this offset. */
  predicate MetAlone(log: seq<Event>, tp: Partition, offset: int)
  {
    forall i :: 0 <= i < |log| && Concerns(log[i], tp.topic, offset) ==> log[i].tp == tp
  }

  lemma {:induction false} AloneTheTallyIsOwn(log: seq<Event>, tp: Partition, offset: int)
    requires MetAlone(log, tp, offset)
    ensures Tally(log, tp.topic, offset) == OwnFailures(log, tp, offset)
    decreases |log|
  {
    if log != [] {
      AloneTheTallyIsOwn(log[..|log| - 1], tp, offset);
    }
  }

  /** So a message whose offset no other partition of the topic has met is dead-lettered on its own
      `max_retries`-th failure, no sooner and no later. */
  lemma AloneItGetsAllItsTries(s: State, maxRetries: int, steps: seq<Step>, tp: Partition, env: Env)
    requires s.retries == map[] && Fails(Run(s, maxRetries, steps), tp, env)
    requires var now := Run(s, maxRetries, steps);
             && (tp, now.position[tp]) !in now.deadLettered
             && MetAlone(Log(s, maxRetries, steps), tp, now.position[tp])
    ensures var now := Run(s, maxRetries, steps);
            (tp, now.position[tp]) in Apply(now, maxRetries, Deliver(tp, env)).deadLettered <==>
            OwnFailures(Log(s, maxRetries, steps), tp, now.position[tp]) + 1 == Attempts(maxRetries)
  {
    DeadLetteredIff(s, maxRetries, steps, tp, env);
    AloneTheTallyIsOwn(Log(s, maxRetries, steps), tp, Run(s, maxRetries, steps).position[tp]);
  }

  /** Two partitions whose messages fail in turns: with three retries, a message is dead-lettered on its
      own second failure. */
  lemma InterleavedFailuresShortenTheTries(topic: string)
    ensures var (a, b, fails) := (Partition(topic, 0), Partition(topic, 1), Env(Raised, true, true, true));
            var steps := [Deliver(a, fails), Deliver(b, fails), Rewind];
            && (a, 5) in Apply(Run(TwoPartitions(topic), 3, steps), 3, Deliver(a, fails)).deadLettered
            && OwnFailures(Log(TwoPartitions(topic), 3, steps), a, 5) == 1
  {
    var (a, b, fails) := (Partition(topic, 0), Partition(topic, 1), Env(Raised, true, true, true));
    var (s, steps) := (TwoPartitions(topic), [Deliver(a, fails), Deliver(b, fails), Rewind]);
    var s1 := Apply(s, 3, Deliver(a, fails));
    var s2 := Apply(s1, 3, Deliver(b, fails));
    assert steps[1..] == [Deliver(b, fails), Rewind] && steps[1..][1..] == [Rewind];
    assert Run(s, 3, steps) == Run(s1, 3, steps[1..]);
    RunTwo(s1, 3, Deliver(b, fails), Rewind);
    assert Happened(s, 3, steps[0]) == [Failed(a, 5)] && Happened(s1, 3, Deliver(b, fails)) == [Failed(b, 5)];
    assert Log(s2, 3, [Rewind]) == [];
    assert Log(s, 3, steps) == [Failed(a, 5), Failed(b, 5)];
    assert [Failed(a, 5), Failed(b, 5)][..1] == [Failed(a, 5)] && [Failed(a, 5)][..0] == [];
    assert OwnFailures([Failed(a, 5)], a, 5) == 1;
  }
}
