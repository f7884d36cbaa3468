/** Collapsing watcher ticks (src/agentit/ledger.py): per agent, in time order, each run of clean
    ticks becomes one row and each failed tick keeps its own. */
module TickLedger {
  import opened Options
  import opened Sequences

  /** `at` is the ISO timestamp as seconds, `chain` the correlation id, `text` the summary and
      `details` every other key of the event. */
  datatype Tick = Tick(agent: string, complete: bool, at: int, chain: Option<string>, text: string, details: string)

  /** A collapsed run is its last tick with no chain and the text replaced by agent, count, since. */
  datatype Row = One(tick: Tick) | Summary(agent: string, at: int, details: string, count: nat, since: int)

  /** The first sixteen characters of an ISO timestamp stop at the minute. */
  function Minute(at: int): int { at - at % 60 }

  lemma MinuteIs(at: int)
    ensures Minute(at) % 60 == 0 && Minute(at) <= at < Minute(at) + 60
  {
  }

  /** A clean tick alone stays as it is; several become one row at the last one's time, with their number and
      the minute of the first. */
  lemma SummaryIs(agent: string, run: seq<Tick>, first: Tick, last: Tick)
    requires |run| >= 2 && run[0] == first && run[|run| - 1] == last
    ensures TickRunSummary(agent, [first]) == One(first)
    ensures var row := TickRunSummary(agent, run);
            && row.Summary? && row.agent == agent && row.at == last.at && row.details == last.details
            && row.count == |run| && row.since % 60 == 0 && row.since <= first.at < row.since + 60
  {
    MinuteIs(first.at);
  }

  function TickRunSummary(agent: string, run: seq<Tick>): Row
    requires run != []
  {
    if |run| == 1 then One(run[0])
    else
      var last := run[|run| - 1];
      Summary(agent, last.at, last.details, |run|, Minute(run[0].at))
  }

  // ---------------------------------------------------------------- sorted(..., key=timestamp)

  function Insert(s: seq<Tick>, t: Tick): seq<Tick>
  {
    if s == [] || s[|s| - 1].at <= t.at then s + [t]
    else Insert(s[..|s| - 1], t) + [s[|s| - 1]]
  }

  function Ordered(s: seq<Tick>): seq<Tick>
  {
    if s == [] then [] else Insert(Ordered(s[..|s| - 1]), s[|s| - 1])
  }

  function AtTime(s: seq<Tick>, at: int): seq<Tick>
  {
    if s == [] then []
    else AtTime(s[..|s| - 1], at) + (if s[|s| - 1].at == at then [s[|s| - 1]] else [])
  }

  predicate InOrder(s: seq<Tick>) { forall i, j :: 0 <= i < j < |s| ==> s[i].at <= s[j].at }

  lemma {:induction false} InsertKeepsAll(s: seq<Tick>, t: Tick)
    ensures multiset(Insert(s, t)) == multiset(s) + multiset{t}
    decreases |s|
  {
    if s != [] && s[|s| - 1].at > t.at {
      InsertKeepsAll(s[..|s| - 1], t);
      assert s == s[..|s| - 1] + [s[|s| - 1]];
    }
  }

  lemma {:induction false} InsertAddsOne(s: seq<Tick>, t: Tick)
    ensures forall u :: u in Insert(s, t) ==> u in s || u == t
    decreases |s|
  {
    if s != [] && s[|s| - 1].at > t.at {
      InsertAddsOne(s[..|s| - 1], t);
    }
  }

  lemma {:induction false} InsertKeepsOrder(s: seq<Tick>, t: Tick)
    requires InOrder(s)
    ensures InOrder(Insert(s, t))
    decreases |s|
  {
    if s != [] && s[|s| - 1].at > t.at {
      var (inserted, last) := (Insert(s[..|s| - 1], t), s[|s| - 1]);
      InsertKeepsOrder(s[..|s| - 1], t);
      InsertAddsOne(s[..|s| - 1], t);
      forall i | 0 <= i < |inserted|
        ensures inserted[i].at <= last.at
      {
        assert inserted[i] in inserted;
      }
    }
  }

  lemma {:induction false} InsertIsStable(s: seq<Tick>, t: Tick, at: int)
    requires InOrder(s)
    ensures AtTime(Insert(s, t), at) == AtTime(s, at) + (if t.at == at then [t] else [])
    decreases |s|
  {
    if s == [] || s[|s| - 1].at <= t.at {
      assert (s + [t])[..|s|] == s;
    } else {
      var (rest, last) := (s[..|s| - 1], s[|s| - 1]);
      InsertIsStable(rest, t, at);
      assert (Insert(rest, t) + [last])[..|Insert(rest, t)|] == Insert(rest, t);
      if t.at == at {
        assert AtTime(s, at) == AtTime(rest, at);
      }
    }
  }

  /** The sort orders by time ... */
  lemma {:induction false} OrderedIsInOrder(s: seq<Tick>)
    ensures InOrder(Ordered(s))
    decreases |s|
  {
    if s != [] {
      OrderedIsInOrder(s[..|s| - 1]);
      InsertKeepsOrder(Ordered(s[..|s| - 1]), s[|s| - 1]);
    }
  }

  lemma OneMoreTick(s: seq<Tick>, t: Tick)
    ensures multiset(s + [t]) == multiset(s) + multiset{t}
  {
  }

  /** ... loses nothing ... */
  lemma {:induction false} OrderedKeepsAll(s: seq<Tick>)
    ensures multiset(Ordered(s)) == multiset(s)
    decreases |s|
  {
    if s != [] {
      var (rest, last) := (s[..|s| - 1], s[|s| - 1]);
      OrderedKeepsAll(rest);
      InsertKeepsAll(Ordered(rest), last);
      OneMoreTick(rest, last);
      assert s == rest + [last];
    }
  }

  /** ... and keeps ticks of one time in the order given. */
  lemma {:induction false} OrderedIsStable(s: seq<Tick>, at: int)
    ensures AtTime(Ordered(s), at) == AtTime(s, at)
    decreases |s|
  {
    if s != [] {
      var (rest, last) := (s[..|s| - 1], s[|s| - 1]);
      OrderedIsStable(rest, at);
      OrderedIsInOrder(rest);
      InsertIsStable(Ordered(rest), last, at);
    }
  }

  // ---------------------------------------------------------------- one agent's ticks

  datatype Fold = Fold(rows: seq<Row>, run: seq<Tick>)

  function Flushed(agent: string, f: Fold): seq<Row>
  {
    if f.run == [] then f.rows else f.rows + [TickRunSummary(agent, f.run)]
  }

  function Step(agent: string, f: Fold, t: Tick): Fold
  {
    if t.complete then Fold(f.rows, f.run + [t]) else Fold(Flushed(agent, f) + [One(t)], [])
  }

  function Folded(agent: string, ticks: seq<Tick>): Fold
  {
    if ticks == [] then Fold([], []) else Step(agent, Folded(agent, ticks[..|ticks| - 1]), ticks[|ticks| - 1])
  }

  function Collapsed(agent: string, ticks: seq<Tick>): seq<Row> { Flushed(agent, Folded(agent, ticks)) }

  // ---------------------------------------------------------------- what the rows mean

  function Width(row: Row): nat { if row.One? then 1 else row.count }

  predicate AllComplete(ticks: seq<Tick>) { forall i :: 0 <= i < |ticks| ==> ticks[i].complete }

  /** A row stands for these consecutive ticks. */
  predicate StandsFor(agent: string, row: Row, ticks: seq<Tick>)
  {
    match row
    case One(t) => ticks == [t]
    case Summary(a, at, details, count, since) =>
      && a == agent && count == |ticks| >= 2 && AllComplete(ticks)
      && at == ticks[|ticks| - 1].at && details == ticks[|ticks| - 1].details && since == Minute(ticks[0].at)
  }

  /** The rows cut the ticks into consecutive pieces, none left over, and stand for them in turn. */
  predicate Explains(agent: string, rows: seq<Row>, ticks: seq<Tick>)
  {
    if rows == [] then ticks == []
    else
      var w := Width(rows[|rows| - 1]);
      && w <= |ticks|
      && StandsFor(agent, rows[|rows| - 1], ticks[|ticks| - w..])
      && Explains(agent, rows[..|rows| - 1], ticks[..|ticks| - w])
  }

  predicate IsSuccess(row: Row) { row.One? ==> row.tick.complete }

  predicate NoAdjacentSuccesses(rows: seq<Row>)
  {
    forall i :: 0 < i < |rows| ==> !(IsSuccess(rows[i - 1]) && IsSuccess(rows[i]))
  }

  lemma ExplainsOneMore(agent: string, rows: seq<Row>, row: Row, before: seq<Tick>, piece: seq<Tick>)
    requires Explains(agent, rows, before) && StandsFor(agent, row, piece)
    ensures Explains(agent, rows + [row], before + piece)
  {
    var all := before + piece;
    assert (rows + [row])[..|rows|] == rows;
    assert all[|all| - Width(row)..] == piece && all[..|all| - Width(row)] == before;
  }

  /** `before` are the ticks already given rows; `f.run` are the clean ones since. */
  predicate FoldMeans(agent: string, f: Fold, before: seq<Tick>)
  {
    && AllComplete(f.run)
    && Explains(agent, f.rows, before)
    && NoAdjacentSuccesses(f.rows)
    && (f.rows != [] ==> !IsSuccess(f.rows[|f.rows| - 1]))
  }

  lemma FlushMeans(agent: string, f: Fold, before: seq<Tick>)
    requires FoldMeans(agent, f, before)
    ensures Explains(agent, Flushed(agent, f), before + f.run) && NoAdjacentSuccesses(Flushed(agent, f))
  {
    if f.run == [] {
      assert before + f.run == before;
    } else {
      ExplainsOneMore(agent, f.rows, TickRunSummary(agent, f.run), before, f.run);
    }
  }

  lemma AppendFailure(agent: string, rows: seq<Row>, ticks: seq<Tick>, t: Tick)
    requires Explains(agent, rows, ticks) && NoAdjacentSuccesses(rows) && !t.complete
    ensures FoldMeans(agent, Fold(rows + [One(t)], []), ticks + [t])
  {
    ExplainsOneMore(agent, rows, One(t), ticks, [t]);
  }

  lemma FailureMeans(agent: string, f: Fold, before: seq<Tick>, t: Tick)
    requires FoldMeans(agent, f, before) && !t.complete
    ensures FoldMeans(agent, Step(agent, f, t), before + f.run + [t])
  {
    FlushMeans(agent, f, before);
    AppendFailure(agent, Flushed(agent, f), before + f.run, t);
  }

  lemma StepMeans(agent: string, f: Fold, before: seq<Tick>, t: Tick) returns (after: seq<Tick>)
    requires FoldMeans(agent, f, before)
    ensures before + f.run + [t] == after + Step(agent, f, t).run && FoldMeans(agent, Step(agent, f, t), after)
  {
    if t.complete {
      after := before;
      assert before + f.run + [t] == before + (f.run + [t]);
    } else {
      FailureMeans(agent, f, before, t);
      after := before + f.run + [t];
      assert after + [] == after;
    }
  }

  lemma {:induction false} FoldedMeans(agent: string, ticks: seq<Tick>) returns (before: seq<Tick>)
    ensures ticks == before + Folded(agent, ticks).run && FoldMeans(agent, Folded(agent, ticks), before)
    decreases |ticks|
  {
    if ticks == [] {
      before := [];
    } else {
      var (rest, last) := (ticks[..|ticks| - 1], ticks[|ticks| - 1]);
      var earlier := FoldedMeans(agent, rest);
      before := StepMeans(agent, Folded(agent, rest), earlier, last);
      assert ticks == rest + [last];
    }
  }

  // ------------------------------------------------------------ ... and only these rows mean it

  /** The last `w` ticks are clean and nothing clean comes just before them. */
  predicate IsLastRun(ticks: seq<Tick>, w: nat)
  {
    && w <= |ticks|
    && (forall i :: |ticks| - w <= i < |ticks| ==> ticks[i].complete)
    && (w < |ticks| ==> !ticks[|ticks| - w - 1].complete)
  }

  lemma LastRunIsUnique(ticks: seq<Tick>, v: nat, w: nat)
    requires IsLastRun(ticks, v) && IsLastRun(ticks, w)
    ensures v == w
  {
  }

  lemma LastFailureStandsAlone(agent: string, row: Row, ticks: seq<Tick>)
    requires ticks != [] && !ticks[|ticks| - 1].complete
    requires Width(row) <= |ticks| && StandsFor(agent, row, ticks[|ticks| - Width(row)..])
    ensures row == One(ticks[|ticks| - 1])
  {
    var piece := ticks[|ticks| - Width(row)..];
    assert piece[|piece| - 1] == ticks[|ticks| - 1];
  }

  lemma FailedRowIsLastTick(agent: string, rows: seq<Row>, ticks: seq<Tick>)
    requires rows != [] && !IsSuccess(rows[|rows| - 1]) && Explains(agent, rows, ticks)
    ensures ticks != [] && !ticks[|ticks| - 1].complete
  {
    assert ticks[|ticks| - 1..][0] == ticks[|ticks| - 1];
  }

  lemma PieceIsComplete(agent: string, row: Row, ticks: seq<Tick>)
    requires ticks != [] && ticks[|ticks| - 1].complete
    requires Width(row) <= |ticks| && StandsFor(agent, row, ticks[|ticks| - Width(row)..])
    ensures IsSuccess(row) && Width(row) > 0
    ensures forall i :: |ticks| - Width(row) <= i < |ticks| ==> ticks[i].complete
  {
    var (w, piece) := (Width(row), ticks[|ticks| - Width(row)..]);
    assert piece[|piece| - 1] == ticks[|ticks| - 1];
    assert forall i :: |ticks| - w <= i < |ticks| ==> ticks[i] == piece[i - (|ticks| - w)];
  }

  lemma LastRowIsLastRun(agent: string, rows: seq<Row>, ticks: seq<Tick>)
    requires Explains(agent, rows, ticks) && NoAdjacentSuccesses(rows) && ticks != [] && ticks[|ticks| - 1].complete
    ensures rows != [] && IsLastRun(ticks, Width(rows[|rows| - 1]))
  {
    var (n, w) := (|rows| - 1, Width(rows[|rows| - 1]));
    PieceIsComplete(agent, rows[n], ticks);
    if w < |ticks| {
      assert rows[..n] != [];
      assert rows[..n][n - 1] == rows[n - 1];
      FailedRowIsLastTick(agent, rows[..n], ticks[..|ticks| - w]);
    }
  }

  lemma LastRowsAgree(agent: string, rows: seq<Row>, others: seq<Row>, ticks: seq<Tick>)
    requires Explains(agent, rows, ticks) && NoAdjacentSuccesses(rows)
    requires Explains(agent, others, ticks) && NoAdjacentSuccesses(others)
    requires ticks != []
    ensures rows != [] && others != [] && rows[|rows| - 1] == others[|others| - 1]
  {
    var (row, other) := (rows[|rows| - 1], others[|others| - 1]);
    if ticks[|ticks| - 1].complete {
      LastRowIsLastRun(agent, rows, ticks);
      LastRowIsLastRun(agent, others, ticks);
      LastRunIsUnique(ticks, Width(row), Width(other));
    } else {
      LastFailureStandsAlone(agent, row, ticks);
      LastFailureStandsAlone(agent, other, ticks);
    }
  }

  lemma {:induction false} RowsAreUnique(agent: string, rows: seq<Row>, others: seq<Row>, ticks: seq<Tick>)
    requires Explains(agent, rows, ticks) && NoAdjacentSuccesses(rows)
    requires Explains(agent, others, ticks) && NoAdjacentSuccesses(others)
    ensures rows == others
    decreases |ticks|
  {
    if ticks == [] {
      NoRowsForNoTicks(agent, rows);
      NoRowsForNoTicks(agent, others);
    } else {
      LastRowsAgree(agent, rows, others, ticks);
      var w := Width(rows[|rows| - 1]);
      RowsAreUnique(agent, rows[..|rows| - 1], others[..|others| - 1], ticks[..|ticks| - w]);
      assert rows == rows[..|rows| - 1] + [rows[|rows| - 1]];
      assert others == others[..|others| - 1] + [others[|others| - 1]];
    }
  }

  lemma NoRowsForNoTicks(agent: string, rows: seq<Row>)
    requires Explains(agent, rows, [])
    ensures rows == []
  {
  }

  /** Collapsing is the one reading of the ticks in which every failure and every maximal clean run
      has its own row. */
  lemma CollapsedIff(agent: string, ticks: seq<Tick>, rows: seq<Row>)
    ensures rows == Collapsed(agent, ticks) <==> Explains(agent, rows, ticks) && NoAdjacentSuccesses(rows)
  {
    var before := FoldedMeans(agent, ticks);
    FlushMeans(agent, Folded(agent, ticks), before);
    if Explains(agent, rows, ticks) && NoAdjacentSuccesses(rows) {
      RowsAreUnique(agent, rows, Collapsed(agent, ticks), ticks);
    }
  }

  // ------------------------------------------------------------ what can be read back

  function Outcomes(ticks: seq<Tick>): seq<bool>
  {
    seq(|ticks|, i requires 0 <= i < |ticks| => ticks[i].complete)
  }

  function Failures(ticks: seq<Tick>): seq<Tick>
  {
    if ticks == [] then []
    else Failures(ticks[..|ticks| - 1]) + (if ticks[|ticks| - 1].complete then [] else [ticks[|ticks| - 1]])
  }

  function OutcomesOf(row: Row): seq<bool>
  {
    if row.One? then [row.tick.complete] else seq(row.count, _ => true)
  }

  function ReadOutcomes(rows: seq<Row>): seq<bool>
  {
    if rows == [] then [] else ReadOutcomes(rows[..|rows| - 1]) + OutcomesOf(rows[|rows| - 1])
  }

  function ReadFailures(rows: seq<Row>): seq<Tick>
  {
    if rows == [] then []
    else
      var row := rows[|rows| - 1];
      ReadFailures(rows[..|rows| - 1]) + (if IsSuccess(row) then [] else [row.tick])
  }

  lemma {:induction false} CleanTicksHaveNoFailures(before: seq<Tick>, clean: seq<Tick>)
    requires AllComplete(clean)
    ensures Failures(before + clean) == Failures(before)
    decreases |clean|
  {
    if clean == [] {
      assert before + clean == before;
    } else {
      var rest := clean[..|clean| - 1];
      CleanTicksHaveNoFailures(before, rest);
      assert (before + clean)[..|before + clean| - 1] == before + rest;
    }
  }

  lemma PieceReads(agent: string, row: Row, before: seq<Tick>, piece: seq<Tick>)
    requires StandsFor(agent, row, piece)
    ensures Outcomes(before + piece) == Outcomes(before) + OutcomesOf(row)
    ensures Failures(before + piece) == Failures(before) + (if IsSuccess(row) then [] else [row.tick])
  {
    if IsSuccess(row) {
      CleanTicksHaveNoFailures(before, piece);
    } else {
      assert (before + piece)[..|before|] == before;
    }
  }

  /** From the rows alone: the outcome of every tick in time order, and every failed tick whole. */
  lemma {:induction false} RowsReadBack(agent: string, rows: seq<Row>, ticks: seq<Tick>)
    requires Explains(agent, rows, ticks)
    ensures ReadOutcomes(rows) == Outcomes(ticks) && ReadFailures(rows) == Failures(ticks)
    decreases |rows|
  {
    if rows != [] {
      var (row, cut) := (rows[|rows| - 1], |ticks| - Width(rows[|rows| - 1]));
      RowsReadBack(agent, rows[..|rows| - 1], ticks[..cut]);
      PieceReads(agent, row, ticks[..cut], ticks[cut..]);
      assert ticks[..cut] + ticks[cut..] == ticks;
    }
  }

  // ---------------------------------------------------------------- every agent's ticks

  function Of(events: seq<Tick>, agent: string): seq<Tick>
  {
    if events == [] then []
    else Of(events[..|events| - 1], agent) + (if events[|events| - 1].agent == agent then [events[|events| - 1]] else [])
  }

  /** The keys of the grouping dictionary, in insertion order. */
  function Agents(events: seq<Tick>): seq<string>
  {
    if events == [] then []
    else
      var (before, agent) := (Agents(events[..|events| - 1]), events[|events| - 1].agent);
      if agent in before then before else before + [agent]
  }

  lemma {:induction false} AgentsAre(events: seq<Tick>, agent: string)
    ensures agent in Agents(events) <==> exists t :: t in events && t.agent == agent
    decreases |events|
  {
    if events != [] {
      AgentsAre(events[..|events| - 1], agent);
      assert events == events[..|events| - 1] + [events[|events| - 1]];
    }
  }

  /** A new event moves no agent; its own comes last, unless some event before was of that agent. */
  lemma AgentsComeAsFirstSeen(events: seq<Tick>, e: Tick)
    ensures Agents(events + [e]) ==
            if exists t :: t in events && t.agent == e.agent then Agents(events) else Agents(events) + [e.agent]
  {
    assert (events + [e])[..|events|] == events;
    AgentsAre(events, e.agent);
  }

  /** The rows of one agent's group. */
  function Share(agent: string, events: seq<Tick>): seq<Row> { Collapsed(agent, Ordered(Of(events, agent))) }

  function Grouped(agents: seq<string>, events: seq<Tick>): seq<Row>
  {
    if agents == [] then []
    else Grouped(agents[..|agents| - 1], events) + Share(agents[|agents| - 1], events)
  }

  function Ledger(events: seq<Tick>): seq<Row> { Grouped(Agents(events), events) }

  lemma {:induction false} UnseenAgentHasNoTicks(events: seq<Tick>, agent: string)
    requires agent !in Agents(events)
    ensures Of(events, agent) == []
    decreases |events|
  {
    if events != [] {
      UnseenAgentHasNoTicks(events[..|events| - 1], agent);
    }
  }

  /** The event joins its agent's list, which is made if the agent is new. */
  function Appended(byAgent: map<string, seq<Tick>>, e: Tick): map<string, seq<Tick>>
  {
    byAgent[e.agent := (if e.agent in byAgent then byAgent[e.agent] else []) + [e]]
  }

  function ByAgent(events: seq<Tick>): map<string, seq<Tick>>
  {
    if events == [] then map[] else Appended(ByAgent(events[..|events| - 1]), events[|events| - 1])
  }

  /** The dictionary holds each agent's ticks in the order given. */
  lemma {:induction false} ByAgentIs(events: seq<Tick>, agent: string)
    ensures agent in ByAgent(events) <==> agent in Agents(events)
    ensures agent in ByAgent(events) ==> ByAgent(events)[agent] == Of(events, agent)
    decreases |events|
  {
    if events != [] {
      var rest := events[..|events| - 1];
      ByAgentIs(rest, agent);
      if agent !in Agents(rest) {
        UnseenAgentHasNoTicks(rest, agent);
      }
    }
  }

  method CollapseAgent(agent: string, ticks: seq<Tick>) returns (rows: seq<Row>)
    ensures rows == Collapsed(agent, ticks)
  {
    rows := [];
    var run: seq<Tick> := [];
    for i := 0 to |ticks|
      invariant Folded(agent, ticks[..i]) == Fold(rows, run)
    {
      assert ticks[..i + 1][..i] == ticks[..i];
      var t := ticks[i];
      if t.complete {
        run := run + [t];
        continue;
      }
      if run != [] {
        rows := rows + [TickRunSummary(agent, run)];
        run := [];
      }
      rows := rows + [One(t)];
    }
    assert ticks[..|ticks|] == ticks;
    if run != [] {
      rows := rows + [TickRunSummary(agent, run)];
    }
  }

  method GroupByAgent(events: seq<Tick>) returns (keys: seq<string>, byAgent: map<string, seq<Tick>>)
    ensures keys == Agents(events) && byAgent == ByAgent(events)
  {
    keys, byAgent := [], map[];
    for i := 0 to |events|
      invariant keys == Agents(events[..i]) && byAgent == ByAgent(events[..i])
    {
      assert events[..i + 1][..i] == events[..i];
      ByAgentIs(events[..i], events[i].agent);
      if events[i].agent !in byAgent {
        keys := keys + [events[i].agent];
      }
      byAgent := Appended(byAgent, events[i]);
    }
    assert events[..|events|] == events;
  }

  method CollapseTickEvents(events: seq<Tick>) returns (rows: seq<Row>)
    ensures rows == Ledger(events)
  {
    var keys, byAgent := GroupByAgent(events);
    rows := [];
    for i := 0 to |keys|
      invariant rows == Grouped(keys[..i], events)
    {
      assert keys[..i + 1][..i] == keys[..i];
      ByAgentIs(events, keys[i]);
      var group := CollapseAgent(keys[i], Ordered(byAgent[keys[i]]));
      rows := rows + group;
    }
    assert keys[..|keys|] == keys;
  }

  // ------------------------------------------------------------ one agent's share of the rows

  function RowAgent(row: Row): string { if row.One? then row.tick.agent else row.agent }

  function RowsFor(rows: seq<Row>, agent: string): seq<Row>
  {
    if rows == [] then []
    else RowsFor(rows[..|rows| - 1], agent) + (if RowAgent(rows[|rows| - 1]) == agent then [rows[|rows| - 1]] else [])
  }

  predicate AllBelong(rows: seq<Row>, agent: string) { forall i :: 0 <= i < |rows| ==> RowAgent(rows[i]) == agent }

  function Mine(owner: string, agent: string, rows: seq<Row>): seq<Row> { if owner == agent then rows else [] }

  lemma OneMoreRow(rows: seq<Row>, row: Row, agent: string)
    ensures RowsFor(rows + [row], agent) == RowsFor(rows, agent) + Mine(RowAgent(row), agent, [row])
  {
    assert (rows + [row])[..|rows|] == rows;
  }

  lemma OneMoreMine(rows: seq<Row>, more: seq<Row>, row: Row, owner: string, agent: string)
    requires RowsFor(rows + more, agent) == RowsFor(rows, agent) + Mine(owner, agent, more) && RowAgent(row) == owner
    ensures RowsFor(rows + (more + [row]), agent) == RowsFor(rows, agent) + Mine(owner, agent, more + [row])
  {
    OneMoreRow(rows + more, row, agent);
    ConcatAssociates(rows, more, [row]);
    ConcatAssociates(RowsFor(rows, agent), more, [row]);
  }

  lemma {:induction false} RowsForOneAgent(rows: seq<Row>, more: seq<Row>, owner: string, agent: string)
    requires AllBelong(more, owner)
    ensures RowsFor(rows + more, agent) == RowsFor(rows, agent) + Mine(owner, agent, more)
    decreases |more|
  {
    if more == [] {
      assert rows + more == rows;
    } else {
      var (rest, last) := (more[..|more| - 1], more[|more| - 1]);
      RowsForOneAgent(rows, rest, owner, agent);
      OneMoreMine(rows, rest, last, owner, agent);
      assert more == rest + [last];
    }
  }

  lemma {:induction false} RowsBelongToAgent(agent: string, rows: seq<Row>, ticks: seq<Tick>)
    requires Explains(agent, rows, ticks) && forall t :: t in ticks ==> t.agent == agent
    ensures AllBelong(rows, agent)
    decreases |rows|
  {
    if rows != [] {
      var (row, cut) := (rows[|rows| - 1], |ticks| - Width(rows[|rows| - 1]));
      RowsBelongToAgent(agent, rows[..|rows| - 1], ticks[..cut]);
      if row.One? {
        assert row.tick == ticks[cut..][0];
      }
    }
  }

  lemma {:induction false} OfIs(events: seq<Tick>, agent: string)
    ensures forall t :: t in Of(events, agent) <==> t in events && t.agent == agent
    decreases |events|
  {
    if events != [] {
      OfIs(events[..|events| - 1], agent);
      assert events == events[..|events| - 1] + [events[|events| - 1]];
    }
  }

  lemma GroupRowsBelong(events: seq<Tick>, agent: string)
    ensures AllBelong(Share(agent, events), agent)
  {
    var ticks := Ordered(Of(events, agent));
    OfIs(events, agent);
    OrderedKeepsAll(Of(events, agent));
    forall t | t in ticks
      ensures t.agent == agent
    {
      assert t in multiset(ticks);
    }
    CollapsedIff(agent, ticks, Collapsed(agent, ticks));
    RowsBelongToAgent(agent, Collapsed(agent, ticks), ticks);
  }

  lemma LastIsNew(agents: seq<string>, agent: string)
    requires agents != [] && Distinct(agents)
    ensures var (rest, last) := (agents[..|agents| - 1], agents[|agents| - 1]);
            last !in rest && (agent in agents <==> agent in rest || agent == last)
  {
    assert agents == agents[..|agents| - 1] + [agents[|agents| - 1]];
  }

  lemma {:induction false} GroupsAreSeparate(agents: seq<string>, events: seq<Tick>, agent: string)
    requires Distinct(agents)
    ensures RowsFor(Grouped(agents, events), agent) == if agent in agents then Share(agent, events) else []
    decreases |agents|
  {
    if agents != [] {
      var (rest, last) := (agents[..|agents| - 1], agents[|agents| - 1]);
      GroupsAreSeparate(rest, events, agent);
      GroupRowsBelong(events, last);
      RowsForOneAgent(Grouped(rest, events), Share(last, events), last, agent);
      LastIsNew(agents, agent);
    }
  }

  lemma {:induction false} AgentsAreDistinct(events: seq<Tick>)
    ensures Distinct(Agents(events))
    decreases |events|
  {
    if events != [] {
      AgentsAreDistinct(events[..|events| - 1]);
    }
  }

  /** For every agent: the ledger's rows for it explain its ticks in time order, each failure and
      each maximal clean run once, and give back all outcomes and all failures. */
  lemma LedgerIsLossless(events: seq<Tick>, agent: string)
    ensures var (mine, ticks) := (RowsFor(Ledger(events), agent), Ordered(Of(events, agent)));
            && Explains(agent, mine, ticks) && NoAdjacentSuccesses(mine)
            && ReadOutcomes(mine) == Outcomes(ticks) && ReadFailures(mine) == Failures(ticks)
  {
    var ticks := Ordered(Of(events, agent));
    AgentsAreDistinct(events);
    GroupsAreSeparate(Agents(events), events, agent);
    if agent !in Agents(events) {
      UnseenAgentHasNoTicks(events, agent);
    }
    CollapsedIff(agent, ticks, Collapsed(agent, ticks));
    RowsReadBack(agent, Collapsed(agent, ticks), ticks);
  }
}
