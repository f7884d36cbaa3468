/** The consumer and the publisher of one process together (src/agentit/consumer.py, src/agentit/events.py):
    a dead letter is an event like any other, so what has become of a message whose offset is committed
    is a question about both. */
module DeadLetters {
  import C = Consumer
  import P = Publisher
  import R = RetryCounts
  import opened Options
  import opened Sequences

  datatype State = State(c: C.State, p: P.State)

  /** `Consumes` is one step of the consumer, with what its dead letter would meet at the publisher and,
      at a restart, what the new publisher meets; `Publishes` is anyone else's event. */
  datatype Step = Consumes(step: C.Step, env: P.PublishEnv, connect: P.ConnectEnv) | Publishes(call: P.Call)

  /** The event that stands for a dead letter. */
  type Letter = (C.Partition, int) -> P.Item

  /** The message this step sends to the dead-letter topic, if it does. */
  function GivenUp(c: C.State, maxRetries: int, step: C.Step): Option<C.Partition>
  {
    if step.Deliver? && step.tp in c.position &&
       R.DeadLettered(step.tp, c.position[step.tp]) in R.Happened(c, maxRetries, step) then Some(step.tp)
    else None
  }

  /** A new process finds the table, and the broker, as the last one left them. */
  function Reopened(p: P.State, connect: P.ConnectEnv): P.State
  {
    var closed := p.(producer := false, lastReconnect := 0.0);
    if p.bootstrap then P.Connect(closed, connect) else closed
  }

  function Apply(s: State, maxRetries: int, letter: Letter, step: Step): State
  {
    match step
    case Publishes(call) => s.(p := P.Publish(s.p, call.item, call.env))
    case Consumes(own, env, connect) =>
      var c := C.Apply(s.c, maxRetries, own);
      var up := GivenUp(s.c, maxRetries, own);
      if up.Some? then State(c, P.Publish(s.p, letter(up.value, s.c.position[up.value]), env))
      else if own.Restart? then State(c, Reopened(s.p, connect))
      else s.(c := c)
  }

  function Run(s: State, maxRetries: int, letter: Letter, steps: seq<Step>): State
    decreases |steps|
  {
    if steps == [] then s else Run(Apply(s, maxRetries, letter, steps[0]), maxRetries, letter, steps[1..])
  }

  function Consumed(steps: seq<Step>): seq<C.Step>
  {
    if steps == [] then [] else (if steps[0].Consumes? then [steps[0].step] else []) + Consumed(steps[1..])
  }

  /** Whoever else publishes, the consumer's run is its own. */
  lemma {:induction false} ConsumerRuns(s: State, maxRetries: int, letter: Letter, steps: seq<Step>)
    ensures Run(s, maxRetries, letter, steps).c == C.Run(s.c, maxRetries, Consumed(steps))
    decreases |steps|
  {
    if steps != [] {
      var s1 := Apply(s, maxRetries, letter, steps[0]);
      ConsumerRuns(s1, maxRetries, letter, steps[1..]);
      if steps[0].Consumes? {
        assert Consumed(steps)[0] == steps[0].step && Consumed(steps)[1..] == Consumed(steps[1..]);
      } else {
        assert Consumed(steps) == Consumed(steps[1..]);
      }
    }
  }

  // ---------------------------------------------------------------- no dead letter disappears

  /** Every dead letter is somewhere: copies are counted less the doubled ones. */
  ghost predicate Accounted(s: State, letter: Letter)
  {
    && P.Ascending(s.p.table)
    && (forall x :: P.Copies(s.p, x) >= 0)
    && (forall tp, offset :: (tp, offset) in s.c.deadLettered ==> P.Copies(s.p, letter(tp, offset)) >= 1)
  }

  lemma ReopenedConserves(p: P.State, connect: P.ConnectEnv, x: P.Item)
    requires P.Ascending(p.table)
    ensures var p' := Reopened(p, connect); P.Ascending(p'.table) && P.Copies(p', x) == P.Copies(p, x) && p'.lost == p.lost
  {
    P.ConnectConserves(p.(producer := false, lastReconnect := 0.0), connect, x);
  }

  lemma OnlyThatLetter(c: C.State, maxRetries: int, step: C.Step, tp: C.Partition, offset: int)
    ensures (tp, offset) in C.Apply(c, maxRetries, step).deadLettered <==>
            (tp, offset) in c.deadLettered ||
            (GivenUp(c, maxRetries, step) == Some(tp) && offset == c.position[tp])
  {
    R.DeadLettersAreLogged(c, maxRetries, step, tp, offset);
  }

  lemma PublishAccounts(p: P.State, item: P.Item, env: P.PublishEnv)
    requires P.Ascending(p.table)
    ensures var p' := P.Publish(p, item, env);
            && P.Ascending(p'.table)
            && (forall x :: P.Copies(p', x) == P.Copies(p, x) + (if item == x then 1 else 0))
            && (env.bufferOk ==> p'.lost == p.lost)
  {
    forall x
      ensures P.Copies(P.Publish(p, item, env), x) == P.Copies(p, x) + (if item == x then 1 else 0)
    {
      P.PublishConserves(p, item, env, x);
    }
    P.PublishConserves(p, item, env, item);
  }

  predicate TableWorks(step: Step)
  {
    match step case Consumes(_, env, _) => env.bufferOk case Publishes(call) => call.env.bufferOk
  }

  lemma StepAccounts(s: State, maxRetries: int, letter: Letter, step: Step)
    requires Accounted(s, letter)
    ensures Accounted(Apply(s, maxRetries, letter, step), letter)
    ensures TableWorks(step) ==> Apply(s, maxRetries, letter, step).p.lost == s.p.lost
  {
    match step
    case Publishes(call) => PublishAccounts(s.p, call.item, call.env);
    case Consumes(own, env, connect) =>
      var up := GivenUp(s.c, maxRetries, own);
      forall tp, offset
        ensures (tp, offset) in C.Apply(s.c, maxRetries, own).deadLettered <==>
                (tp, offset) in s.c.deadLettered || (up == Some(tp) && offset == s.c.position[tp])
      {
        OnlyThatLetter(s.c, maxRetries, own, tp, offset);
      }
      if up.Some? {
        PublishAccounts(s.p, letter(up.value, s.c.position[up.value]), env);
      } else if own.Restart? {
        forall x
          ensures P.Copies(Reopened(s.p, connect), x) == P.Copies(s.p, x)
        {
          ReopenedConserves(s.p, connect, x);
        }
        ReopenedConserves(s.p, connect, P.Item("", ""));
      }
  }

  lemma {:induction false} RunAccounts(s: State, maxRetries: int, letter: Letter, steps: seq<Step>)
    requires Accounted(s, letter)
    ensures Accounted(Run(s, maxRetries, letter, steps), letter)
    ensures (forall i :: 0 <= i < |steps| ==> TableWorks(steps[i])) ==>
            Run(s, maxRetries, letter, steps).p.lost == s.p.lost
    decreases |steps|
  {
    if steps != [] {
      StepAccounts(s, maxRetries, letter, steps[0]);
      RunAccounts(Apply(s, maxRetries, letter, steps[0]), maxRetries, letter, steps[1..]);
    }
  }

  lemma {:induction false} CountedIsIn(items: seq<P.Item>, x: P.Item)
    ensures P.Count(items, x) > 0 <==> x in items
    decreases |items|
  {
    if items != [] {
      CountedIsIn(items[1..], x);
      assert items == [items[0]] + items[1..];
    }
  }

  // ---------------------------------------------------------------- what became of committed messages

  lemma StepResolves(c: C.State, maxRetries: int, step: C.Step, tp: C.Partition, offset: int)
    ensures (tp, offset) in C.Apply(c, maxRetries, step).resolved ==>
              || (tp, offset) in c.resolved
              || R.Succeeded(tp, offset) in R.Happened(c, maxRetries, step)
              || R.DeadLettered(tp, offset) in R.Happened(c, maxRetries, step)
  {
    if step.Deliver? && c.running && step.tp in c.position {
      var (c0, at) := (C.Moved(c, step.tp), c.position[step.tp]);
      FailureResolves(c0, maxRetries, step.tp, at, step.env);
      FailureResolves(R.AfterSuccess(c0, step.tp, at, step.env.commitOk).0, maxRetries, step.tp, at, step.env);
    }
  }

  lemma FailureResolves(c: C.State, maxRetries: int, tp: C.Partition, offset: int, env: C.Env)
    ensures C.OnFailure(c, maxRetries, tp, offset, env).resolved ==
            c.resolved + if R.GivesUp(c, maxRetries, tp, offset, env) then {(tp, offset)} else {}
  {
  }

  lemma {:induction false} RunResolves(c: C.State, maxRetries: int, steps: seq<C.Step>, tp: C.Partition, offset: int)
    requires (tp, offset) in C.Run(c, maxRetries, steps).resolved
    ensures || (tp, offset) in c.resolved
            || R.Succeeded(tp, offset) in R.Log(c, maxRetries, steps)
            || (tp, offset) in C.Run(c, maxRetries, steps).deadLettered
    decreases |steps|
  {
    if steps != [] {
      var c1 := C.Apply(c, maxRetries, steps[0]);
      RunResolves(c1, maxRetries, steps[1..], tp, offset);
      if (tp, offset) in c1.resolved {
        StepResolves(c, maxRetries, steps[0], tp, offset);
        R.DeadLettersAreLogged(c, maxRetries, steps[0], tp, offset);
        if (tp, offset) in c1.deadLettered {
          DeadLettersStay(c1, maxRetries, steps[1..], tp, offset);
        }
      }
    }
  }

  lemma {:induction false} DeadLettersStay(c: C.State, maxRetries: int, steps: seq<C.Step>, tp: C.Partition,
          offset: int)
    requires (tp, offset) in c.deadLettered
    ensures (tp, offset) in C.Run(c, maxRetries, steps).deadLettered
    decreases |steps|
  {
    if steps != [] {
      R.DeadLettersAreLogged(c, maxRetries, steps[0], tp, offset);
      DeadLettersStay(C.Apply(c, maxRetries, steps[0]), maxRetries, steps[1..], tp, offset);
    }
  }

  /** The dead letter has reached the broker or waits in the local table, or was lost. */
  predicate IsSomewhere(p: P.State, item: P.Item) { item in p.delivered || item in P.Items(p.table) || item in p.lost }

  lemma CopiesAreSomewhere(p: P.State, item: P.Item)
    requires P.Copies(p, item) >= 1
    ensures IsSomewhere(p, item)
  {
    CountedIsIn(p.delivered, item);
    CountedIsIn(P.Items(p.table), item);
    CountedIsIn(p.lost, item);
  }

  /** Over any run of one consumed partition, whoever else publishes: every offset below the committed
      one was handled, or its dead letter is delivered, buffered or lost; and nothing is lost unless the
      local table failed. */
  lemma CommittedIsHandledOrDeadLettered(s: State, maxRetries: int, letter: Letter, steps: seq<Step>, tp: C.Partition,
                                         start: int, offset: int)
    requires s.c == C.Fresh(tp, start) && Accounted(s, letter)
    requires var c := Run(s, maxRetries, letter, steps).c; tp in c.committed && start <= offset < c.committed[tp]
    ensures || R.Succeeded(tp, offset) in R.Log(s.c, maxRetries, Consumed(steps))
            || IsSomewhere(Run(s, maxRetries, letter, steps).p, letter(tp, offset))
    ensures (forall i :: 0 <= i < |steps| ==> TableWorks(steps[i])) ==>
            Run(s, maxRetries, letter, steps).p.lost == s.p.lost
  {
    var last := Run(s, maxRetries, letter, steps);
    ConsumerRuns(s, maxRetries, letter, steps);
    RunAccounts(s, maxRetries, letter, steps);
    C.EveryRunIsSafe(s.c, maxRetries, Consumed(steps), tp, start);
    RunResolves(s.c, maxRetries, Consumed(steps), tp, offset);
    if (tp, offset) in last.c.deadLettered {
      CopiesAreSomewhere(last.p, letter(tp, offset));
    }
  }

  /** A committed message can be gone: its dead letter finds neither broker nor table. */
  lemma CommittedDeadLetterCanBeLost(tp: C.Partition, start: int, letter: Letter, now: real)
    ensures var s := State(C.Fresh(tp, start), P.State(false, false, 0.0, [], [], [], [], []));
            var env := P.PublishEnv(now, P.ConnectEnv(false, P.DrainEnv(false, i => P.RowEnv(P.NotSent, false))), P.NotSent, false);
            var s' := Apply(s, 1, letter, Consumes(C.Deliver(tp, C.Env(C.Raised, true, true, true)), env, env.connect));
            && s'.c.committed == map[tp := start + 1]
            && s'.p.delivered == [] && s'.p.table == [] && s'.p.lost == [letter(tp, start)]
  {
    C.HeadRaises(C.Fresh(tp, start), 1, tp, start, 0);
    var step := C.Deliver(tp, C.Env(C.Raised, true, true, true));
    assert R.Happened(C.Fresh(tp, start), 1, step) == [R.Failed(tp, start), R.DeadLettered(tp, start)];
    assert R.Happened(C.Fresh(tp, start), 1, step)[1] == R.DeadLettered(tp, start);
  }
}
