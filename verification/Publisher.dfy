/** `EventPublisher` (src/agentit/events.py): a durable local queue in front of Kafka.

    Every attempt to reach Kafka, the local table or the table's delete may fail; a failed send may
    even have reached the broker. The ledger `published + doubled == delivered + buffered + lost`
    holds on every run, and nothing is reordered as long as no drain is cut short. */
module Publisher {
  import opened Sequences

  datatype Item = Item(topic: string, event: string)

  datatype Row = Row(id: int, item: Item)

  /** `Unacked`: the send or flush raised although the broker has the event. */
  datatype Sent = Acked | NotSent | Unacked

  datatype RowEnv = RowEnv(sent: Sent, deleteOk: bool)
  datatype DrainEnv = DrainEnv(readOk: bool, row: int -> RowEnv)
  datatype ConnectEnv = ConnectEnv(producerOk: bool, drain: DrainEnv)
  datatype PublishEnv = PublishEnv(now: real, connect: ConnectEnv, sent: Sent, bufferOk: bool)

  const RECONNECT_COOLDOWN := 60.0

  datatype State = State(
    bootstrap: bool,
    producer: bool,
    lastReconnect: real,
    table: seq<Row>,          // buffered_events, oldest id first
    delivered: seq<Item>,     // what the broker has, in arrival order
    lost: seq<Item>,          // neither sent nor buffered
    doubled: seq<Item>,       // delivered once too often, or delivered and still buffered
    attempts: seq<real>)      // when a reconnect was tried

  function Items(table: seq<Row>): (items: seq<Item>)
    ensures |items| == |table|
  {
    seq(|table|, i requires 0 <= i < |table| => table[i].item)
  }

  /** SQLite gives a new row the largest id plus one, or 1. */
  function NextId(table: seq<Row>): int
  {
    if table == [] then 1 else var rest := NextId(table[..|table| - 1]);
                               var last := table[|table| - 1].id + 1;
                               if last > rest then last else rest
  }

  function Without(table: seq<Row>, id: int): seq<Row>
  {
    if table == [] then []
    else (if table[0].id == id then [] else [table[0]]) + Without(table[1..], id)
  }

  function BufferLocally(s: State, item: Item, bufferOk: bool): State
  {
    if bufferOk then s.(table := s.table + [Row(NextId(s.table), item)]) else s
  }

  function DrainFrom(s: State, rows: seq<Row>, i: nat, env: DrainEnv): State
    decreases |rows| - i
  {
    if i >= |rows| then s
    else
      var e := env.row(i);
      var s1 := if e.sent == NotSent then s else s.(delivered := s.delivered + [rows[i].item]);
      if e.sent == Acked && e.deleteOk then
        DrainFrom(s1.(table := Without(s1.table, rows[i].id)), rows, i + 1, env)
      else if e.sent == NotSent then s1
      else s1.(doubled := s1.doubled + [rows[i].item])
  }

  function DrainBuffer(s: State, env: DrainEnv): State
  {
    if s.producer && env.readOk then DrainFrom(s, s.table, 0, env) else s
  }

  function Connect(s: State, env: ConnectEnv): State
  {
    if env.producerOk then DrainBuffer(s.(producer := true), env.drain) else s.(producer := false)
  }

  function TryReconnect(s: State, now: real, env: ConnectEnv): State
  {
    if !s.bootstrap || now - s.lastReconnect < RECONNECT_COOLDOWN then s
    else Connect(s.(lastReconnect := now, attempts := s.attempts + [now]), env)
  }

  /** `publish` once a reconnect has been tried. */
  function SendOrBuffer(s: State, item: Item, env: PublishEnv): State
  {
    if !s.producer then
      NotDelivered(s, item, env.bufferOk)
    else
      match env.sent
      case Acked => s.(delivered := s.delivered + [item])
      case NotSent => NotDelivered(s, item, env.bufferOk).(producer := false)
      case Unacked =>
        var s1 := BufferLocally(s.(delivered := s.delivered + [item]), item, env.bufferOk);
        s1.(producer := false, doubled := if env.bufferOk then s.doubled + [item] else s.doubled)
  }

  function NotDelivered(s: State, item: Item, bufferOk: bool): State
  {
    BufferLocally(s, item, bufferOk).(lost := if bufferOk then s.lost else s.lost + [item])
  }

  function Publish(s: State, item: Item, env: PublishEnv): State
  {
    SendOrBuffer(if s.producer then s else TryReconnect(s, env.now, env.connect), item, env)
  }

  function Start(bootstrap: bool, table: seq<Row>, delivered: seq<Item>, env: ConnectEnv): State
  {
    var s := State(bootstrap, false, 0.0, table, delivered, [], [], []);
    if bootstrap then Connect(s, env) else s
  }

  datatype Call = Call(item: Item, env: PublishEnv)

  function Run(s: State, calls: seq<Call>): State
    decreases |calls|
  {
    if calls == [] then s else Run(Publish(s, calls[0].item, calls[0].env), calls[1..])
  }

  function Published(calls: seq<Call>): seq<Item>
  {
    if calls == [] then [] else [calls[0].item] + Published(calls[1..])
  }

  // ---------------------------------------------------------------- the table

  ghost predicate Ascending(table: seq<Row>)
  {
    forall i, j :: 0 <= i < j < |table| ==> table[i].id < table[j].id
  }

  lemma {:induction false} NextIdIsAbove(table: seq<Row>)
    ensures forall i :: 0 <= i < |table| ==> table[i].id < NextId(table)
    decreases |table|
  {
    if table != [] {
      NextIdIsAbove(table[..|table| - 1]);
    }
  }

  lemma {:induction false} WithoutAbsent(table: seq<Row>, id: int)
    requires forall i :: 0 <= i < |table| ==> table[i].id != id
    ensures Without(table, id) == table
  {
    if table != [] {
      WithoutAbsent(table[1..], id);
    }
  }

  lemma DeleteTakesTheHead(table: seq<Row>)
    requires table != [] && Ascending(table)
    ensures Without(table, table[0].id) == table[1..]
  {
    WithoutAbsent(table[1..], table[0].id);
  }

  lemma BufferAppends(s: State, item: Item)
    requires Ascending(s.table)
    ensures Ascending(BufferLocally(s, item, true).table)
    ensures Items(BufferLocally(s, item, true).table) == Items(s.table) + [item]
  {
    NextIdIsAbove(s.table);
  }

  // ---------------------------------------------------------------- one drain

  /** How many rows of `rows`, from `i` on, are sent and deleted before the drain stops. */
  function Drained(n: nat, i: nat, env: DrainEnv): nat
    decreases n - i
  {
    if i >= n || env.row(i) != RowEnv(Acked, true) then 0 else 1 + Drained(n, i + 1, env)
  }

  /** The row the drain stopped at, if the broker has it all the same. */
  function Again(rows: seq<Row>, k: nat, env: DrainEnv): seq<Item>
  {
    if k < |rows| && env.row(k).sent != NotSent then [rows[k].item] else []
  }

  function AfterDrain(s: State, rows: seq<Row>, i: nat, k: nat, env: DrainEnv): State
    requires i <= k <= |rows|
  {
    s.(table := rows[k..], delivered := s.delivered + Items(rows[i..k]) + Again(rows, k, env),
       doubled := s.doubled + Again(rows, k, env))
  }

  lemma AfterDrainStep(s: State, rows: seq<Row>, i: nat, k: nat, env: DrainEnv)
    requires i < k <= |rows|
    ensures AfterDrain(s.(delivered := s.delivered + [rows[i].item], table := rows[i + 1..]), rows, i + 1, k, env) ==
            AfterDrain(s, rows, i, k, env)
  {
    assert Items(rows[i..k]) == [rows[i].item] + Items(rows[i + 1..k]);
    Regroup(s.delivered, rows[i].item, Items(rows[i + 1..k]), Items(rows[i..k]));
  }

  lemma Regroup(a: seq<Item>, x: Item, b: seq<Item>, c: seq<Item>)
    requires c == [x] + b
    ensures a + [x] + b == a + c
  {
  }

  lemma DrainStopsHere(s: State, rows: seq<Row>, i: nat, env: DrainEnv)
    requires i <= |rows| && s.table == rows[i..]
    requires i < |rows| ==> env.row(i) != RowEnv(Acked, true)
    ensures DrainFrom(s, rows, i, env) == AfterDrain(s, rows, i, i, env)
  {
    assert Items(rows[i..i]) == [];
    assert s.delivered + Items(rows[i..i]) == s.delivered;
    if i == |rows| {
      assert s.delivered + [] == s.delivered && s.doubled + [] == s.doubled;
    }
  }

  lemma DrainOneRow(s: State, rows: seq<Row>, i: nat, env: DrainEnv)
    requires i < |rows| && s.table == rows[i..] && Ascending(s.table)
    requires env.row(i) == RowEnv(Acked, true)
    ensures DrainFrom(s, rows, i, env) ==
            DrainFrom(s.(delivered := s.delivered + [rows[i].item], table := rows[i + 1..]), rows, i + 1, env)
    ensures Ascending(rows[i + 1..])
  {
    DeleteTakesTheHead(s.table);
    assert s.table[1..] == rows[i + 1..];
  }

  lemma {:induction false} DrainStops(s: State, rows: seq<Row>, i: nat, env: DrainEnv)
    requires i <= |rows| && s.table == rows[i..] && Ascending(s.table)
    ensures i + Drained(|rows|, i, env) <= |rows|
    ensures DrainFrom(s, rows, i, env) == AfterDrain(s, rows, i, i + Drained(|rows|, i, env), env)
    decreases |rows| - i
  {
    if i < |rows| && env.row(i) == RowEnv(Acked, true) {
      DrainOneRow(s, rows, i, env);
      DrainStops(s.(delivered := s.delivered + [rows[i].item], table := rows[i + 1..]), rows, i + 1, env);
      AfterDrainStep(s, rows, i, i + Drained(|rows|, i, env), env);
    } else {
      DrainStopsHere(s, rows, i, env);
    }
  }

  /** A drain leaves exactly a suffix of the buffer and sends exactly the rows before it, in order,
      and at most one row more: one that reached the broker but was not acknowledged or deleted. */
  lemma DrainLeavesASuffix(s: State, env: DrainEnv)
    requires Ascending(s.table) && s.producer && env.readOk
    ensures var k := Drained(|s.table|, 0, env);
            && k <= |s.table|
            && DrainBuffer(s, env) ==
               s.(table := s.table[k..], delivered := s.delivered + Items(s.table[..k]) + Again(s.table, k, env),
                  doubled := s.doubled + Again(s.table, k, env))
  {
    assert s.table[0..] == s.table;
    DrainStops(s, s.table, 0, env);
  }

  // ---------------------------------------------------------------- a new publisher, and when one reconnects

  predicate GoesThrough(e: RowEnv) { e.sent == Acked && e.deleteOk }

  /** Row `k` is the first of `n` that is not sent, acknowledged and deleted. */
  ghost predicate StopsAt(env: DrainEnv, n: nat, k: nat)
  {
    k <= n && (forall j :: 0 <= j < k ==> GoesThrough(env.row(j))) && (k < n ==> !GoesThrough(env.row(k)))
  }

  lemma {:induction false} DrainedStopsAt(n: nat, i: nat, env: DrainEnv, k: nat)
    requires i <= k && StopsAt(env, n, k)
    ensures Drained(n, i, env) == k - i
    decreases n - i
  {
    if i < k {
      assert GoesThrough(env.row(i));
      DrainedStopsAt(n, i + 1, env, k);
    }
  }

  /** A publisher is connected from the start exactly when it is configured and the broker is there. It has then
      sent the rows before the first that fails, in order, and keeps the others; a row that reached the
      broker and failed all the same is both sent and kept. Any other publisher starts with all of them. */
  lemma NewPublisherIs(bootstrap: bool, table: seq<Row>, delivered: seq<Item>, env: ConnectEnv, k: nat)
    requires Ascending(table) && StopsAt(env.drain, |table|, k)
    ensures var s := Start(bootstrap, table, delivered, env);
            && (s.producer <==> bootstrap && env.producerOk)
            && (if s.producer && env.drain.readOk then
                  var both := k < |table| && env.drain.row(k).sent != NotSent;
                  && s.table == table[k..]
                  && s.delivered == delivered + Items(table[..k]) + if both then [table[k].item] else []
                else s.table == table && s.delivered == delivered)
  {
    if bootstrap && env.producerOk && env.drain.readOk {
      DrainLeavesASuffix(State(bootstrap, true, 0.0, table, delivered, [], [], []), env.drain);
      DrainedStopsAt(|table|, 0, env.drain, k);
    }
  }

  // ---------------------------------------------------------------- conservation on every run

  function Count(items: seq<Item>, x: Item): nat
  {
    if items == [] then 0 else (if items[0] == x then 1 else 0) + Count(items[1..], x)
  }

  lemma {:induction false} CountConcat(a: seq<Item>, b: seq<Item>, x: Item)
    ensures Count(a + b, x) == Count(a, x) + Count(b, x)
  {
    if a == [] {
      assert a + b == b;
    } else {
      assert (a + b)[1..] == a[1..] + b;
      CountConcat(a[1..], b, x);
    }
  }

  lemma CountOne(a: seq<Item>, item: Item, x: Item)
    ensures Count(a + [item], x) == Count(a, x) + if item == x then 1 else 0
  {
    CountConcat(a, [item], x);
  }

  lemma {:induction false} CountIsMultiplicity(a: seq<Item>, x: Item)
    ensures multiset(a)[x] == Count(a, x)
  {
    if a != [] {
      assert a == [a[0]] + a[1..];
      CountIsMultiplicity(a[1..], x);
    }
  }

  /** Copies of `x` that are anywhere, less the doubled ones. */
  function Copies(s: State, x: Item): int
  {
    Count(s.delivered, x) + Count(Items(s.table), x) + Count(s.lost, x) - Count(s.doubled, x)
  }

  lemma DrainConserves(s: State, env: DrainEnv, x: Item)
    requires Ascending(s.table)
    ensures var s' := DrainBuffer(s, env);
            && Ascending(s'.table) && Copies(s', x) == Copies(s, x)
            && s'.lost == s.lost && s'.attempts == s.attempts && s'.lastReconnect == s.lastReconnect
  {
    if s.producer && env.readOk {
      DrainLeavesASuffix(s, env);
      var k := Drained(|s.table|, 0, env);
      var again := Again(s.table, k, env);
      assert Items(s.table) == Items(s.table[..k]) + Items(s.table[k..]);
      CountConcat(Items(s.table[..k]), Items(s.table[k..]), x);
      CountConcat(s.delivered + Items(s.table[..k]), again, x);
      CountConcat(s.delivered, Items(s.table[..k]), x);
      CountConcat(s.doubled, again, x);
    }
  }

  lemma ConnectConserves(s: State, env: ConnectEnv, x: Item)
    requires Ascending(s.table)
    ensures var s' := Connect(s, env);
            && Ascending(s'.table) && Copies(s', x) == Copies(s, x)
            && s'.lost == s.lost && s'.attempts == s.attempts && s'.lastReconnect == s.lastReconnect
  {
    DrainConserves(s.(producer := true), env.drain, x);
  }

  lemma SendConserves(s: State, item: Item, env: PublishEnv, x: Item)
    requires Ascending(s.table)
    ensures var s' := SendOrBuffer(s, item, env);
            && Ascending(s'.table)
            && Copies(s', x) == Copies(s, x) + (if item == x then 1 else 0)
            && (env.bufferOk ==> s'.lost == s.lost)
            && s'.attempts == s.attempts && s'.lastReconnect == s.lastReconnect
  {
    BufferAppends(s, item);
    if s.producer && env.sent != NotSent {
      BufferAppends(s.(delivered := s.delivered + [item]), item);
      CountOne(s.delivered, item, x);
      CountOne(s.doubled, item, x);
    } else {
      CountOne(s.lost, item, x);
    }
    CountOne(Items(s.table), item, x);
  }

  lemma ReconnectConserves(s: State, now: real, env: ConnectEnv, x: Item)
    requires Ascending(s.table)
    ensures var s' := TryReconnect(s, now, env);
            && Ascending(s'.table) && Copies(s', x) == Copies(s, x) && s'.lost == s.lost
            && (Spaced(s) ==> Spaced(s'))
  {
    ConnectConserves(s.(lastReconnect := now, attempts := s.attempts + [now]), env, x);
  }

  lemma PublishConserves(s: State, item: Item, env: PublishEnv, x: Item)
    requires Ascending(s.table)
    ensures var s' := Publish(s, item, env);
            && Ascending(s'.table)
            && Copies(s', x) == Copies(s, x) + (if item == x then 1 else 0)
            && (env.bufferOk ==> s'.lost == s.lost)
            && (Spaced(s) ==> Spaced(s'))
  {
    ReconnectConserves(s, env.now, env.connect, x);
    SendConserves(if s.producer then s else TryReconnect(s, env.now, env.connect), item, env, x);
  }

  lemma {:induction false} RunConserves(s: State, calls: seq<Call>, x: Item)
    requires Ascending(s.table)
    ensures var s' := Run(s, calls);
            && Ascending(s'.table)
            && Copies(s', x) == Copies(s, x) + Count(Published(calls), x)
            && ((forall i :: 0 <= i < |calls| ==> calls[i].env.bufferOk) ==> s'.lost == s.lost)
    decreases |calls|
  {
    if calls != [] {
      PublishConserves(s, calls[0].item, calls[0].env, x);
      RunConserves(Publish(s, calls[0].item, calls[0].env), calls[1..], x);
      assert Published(calls)[1..] == Published(calls[1..]);
    }
  }

  /** The whole life of a publisher, its constructor included: what was there, what was published
      and the doubled copies are together exactly what is delivered, buffered or lost, over every mix
      of failures; and nothing is lost while the local table takes new rows. */
  lemma EveryEventIsAccountedFor(bootstrap: bool, table: seq<Row>, delivered: seq<Item>, connect: ConnectEnv,
          calls: seq<Call>)
    requires Ascending(table)
    ensures var s := Run(Start(bootstrap, table, delivered, connect), calls);
            && multiset(s.delivered + Items(s.table) + s.lost) ==
               multiset(delivered + Items(table) + Published(calls) + s.doubled)
            && ((forall i :: 0 <= i < |calls| ==> calls[i].env.bufferOk) ==> s.lost == [])
  {
    var s := Run(Start(bootstrap, table, delivered, connect), calls);
    var (have, due) := (s.delivered + Items(s.table) + s.lost, delivered + Items(table) + Published(calls) + s.doubled);
    forall x: Item
      ensures multiset(have)[x] == multiset(due)[x]
    {
      LifeConserves(bootstrap, table, delivered, connect, calls, x);
      LedgerBalances(s, delivered, Items(table), Published(calls), x);
    }
    LifeConserves(bootstrap, table, delivered, connect, calls, Item("", ""));
  }

  lemma LedgerBalances(s: State, delivered: seq<Item>, buffered: seq<Item>, published: seq<Item>, x: Item)
    requires Copies(s, x) == Count(delivered, x) + Count(buffered, x) + Count(published, x)
    ensures multiset(s.delivered + Items(s.table) + s.lost)[x] ==
            multiset(delivered + buffered + published + s.doubled)[x]
  {
    CountThree(s.delivered, Items(s.table), s.lost, x);
    CountThree(delivered, buffered, published, x);
    CountConcat(delivered + buffered + published, s.doubled, x);
    CountIsMultiplicity(s.delivered + Items(s.table) + s.lost, x);
    CountIsMultiplicity(delivered + buffered + published + s.doubled, x);
  }

  lemma CountThree(a: seq<Item>, b: seq<Item>, c: seq<Item>, x: Item)
    ensures Count(a + b + c, x) == Count(a, x) + Count(b, x) + Count(c, x)
  {
    CountConcat(a + b, c, x);
    CountConcat(a, b, x);
  }

  lemma LifeConserves(bootstrap: bool, table: seq<Row>, delivered: seq<Item>, connect: ConnectEnv, calls: seq<Call>,
          x: Item)
    requires Ascending(table)
    ensures var s := Run(Start(bootstrap, table, delivered, connect), calls);
            && Copies(s, x) == Count(delivered, x) + Count(Items(table), x) + Count(Published(calls), x)
            && ((forall i :: 0 <= i < |calls| ==> calls[i].env.bufferOk) ==> s.lost == [])
  {
    ConnectConserves(State(bootstrap, false, 0.0, table, delivered, [], [], []), connect, x);
    RunConserves(Start(bootstrap, table, delivered, connect), calls, x);
  }

  // ---------------------------------------------------------------- order

  /** The drain, if it happens, goes through to the last row. */
  ghost predicate Uninterrupted(env: DrainEnv)
  {
    env.readOk && forall i :: env.row(i) == RowEnv(Acked, true)
  }

  ghost predicate Tidy(env: PublishEnv)
  {
    Uninterrupted(env.connect.drain) && env.bufferOk && !env.sent.Unacked?
  }

  lemma {:induction false} DrainsAll(n: nat, i: nat, env: DrainEnv)
    requires Uninterrupted(env) && i <= n
    ensures Drained(n, i, env) == n - i
    decreases n - i
  {
    if i < n {
      DrainsAll(n, i + 1, env);
    }
  }

  lemma ConnectDrainsAll(s: State, env: ConnectEnv)
    requires Ascending(s.table) && Uninterrupted(env.drain) && env.producerOk
    ensures Connect(s, env) == s.(producer := true, table := [], delivered := s.delivered + Items(s.table))
  {
    DrainsAll(|s.table|, 0, env.drain);
    DrainLeavesASuffix(s.(producer := true), env.drain);
    assert s.table[..|s.table|] == s.table;
  }

  lemma PublishKeepsOrder(s: State, item: Item, env: PublishEnv)
    requires Ascending(s.table) && Tidy(env) && (s.producer ==> s.table == [])
    ensures var s' := Publish(s, item, env);
            && Ascending(s'.table) && (s'.producer ==> s'.table == [])
            && s'.delivered + Items(s'.table) == s.delivered + Items(s.table) + [item]
            && s'.doubled == s.doubled && s'.lost == s.lost
  {
    if s.bootstrap && env.connect.producerOk {
      ConnectDrainsAll(s.(lastReconnect := env.now, attempts := s.attempts + [env.now]), env.connect);
    }
    BufferAppends(if s.producer then s else TryReconnect(s, env.now, env.connect), item);
  }

  /** Through every mix of send failures and reconnects, delivered followed by buffered is the
      published order, once each, provided no drain is cut short and the local table works. */
  lemma {:induction false} OrderIsKept(s: State, calls: seq<Call>)
    requires Ascending(s.table) && (s.producer ==> s.table == [])
    requires forall i :: 0 <= i < |calls| ==> Tidy(calls[i].env)
    ensures var s' := Run(s, calls);
            && s'.delivered + Items(s'.table) == s.delivered + Items(s.table) + Published(calls)
            && s'.doubled == s.doubled && s'.lost == s.lost
    decreases |calls|
  {
    if calls != [] {
      var s1 := Publish(s, calls[0].item, calls[0].env);
      PublishKeepsOrder(s, calls[0].item, calls[0].env);
      OrderIsKept(s1, calls[1..]);
      Regroup(s.delivered + Items(s.table), calls[0].item, Published(calls[1..]), Published(calls));
    }
  }

  /** Nothing is left in the table: it was empty, or every row was sent and deleted. */
  predicate DrainsThrough(table: seq<Row>, env: DrainEnv)
  {
    table == [] || (env.readOk && Drained(|table|, 0, env) == |table|)
  }

  lemma Overtaken(d: seq<Item>, sent: seq<Item>, again: seq<Item>, rest: seq<Item>, item: Item)
    requires rest != [] && rest[0] != item
    ensures d + sent + again + [item] + rest != d + (sent + rest) + [item]
  {
    var (got, due) := (d + sent + again + [item] + rest, d + (sent + rest) + [item]);
    if again == [] {
      assert got[|d| + |sent|] == item && due[|d| + |sent|] == rest[0];
    } else {
      assert |got| > |due|;
    }
  }

  lemma StoppedDrainReorders(s: State, item: Item, env: PublishEnv, k: nat, again: seq<Item>)
    requires k < |s.table| && item !in Items(s.table) && env.sent == Acked
    requires var s1 := Connect(s.(lastReconnect := env.now, attempts := s.attempts + [env.now]), env.connect);
             && s1.producer && s1.table == s.table[k..] && s1.delivered == s.delivered + Items(s.table[..k]) + again
             && Publish(s, item, env) == SendOrBuffer(s1, item, env)
    ensures var s' := Publish(s, item, env);
            s'.delivered + Items(s'.table) != s.delivered + Items(s.table) + [item]
  {
    var (sent, rest) := (Items(s.table[..k]), Items(s.table[k..]));
    assert Items(s.table) == sent + rest;
    assert rest[0] == Items(s.table)[k];
    Overtaken(s.delivered, sent, again, rest, item);
  }

  /** The event that reconnects: a new event is sent in order exactly when the drain before it goes
      through. A drain cut short leaves the producer connected, so the event overtakes the buffer. */
  lemma ReconnectKeepsOrderIff(s: State, item: Item, env: PublishEnv)
    requires Ascending(s.table) && !s.producer && s.bootstrap && env.now - s.lastReconnect >= RECONNECT_COOLDOWN
    requires env.connect.producerOk && env.sent == Acked && item !in Items(s.table)
    ensures var s' := Publish(s, item, env);
            s'.delivered + Items(s'.table) == s.delivered + Items(s.table) + [item] <==> DrainsThrough(s.table, env.connect.drain)
  {
    var (s0, drain) := (s.(lastReconnect := env.now, attempts := s.attempts + [env.now], producer := true), env.connect.drain);
    if s.table == [] {
      EmptyDrain(s0, drain);
    } else if !drain.readOk {
      assert Items(s.table[..0]) == [];
      assert s.delivered + Items(s.table[..0]) + [] == s.delivered;
      StoppedDrainReorders(s, item, env, 0, []);
    } else {
      DrainLeavesASuffix(s0, drain);
      var k := Drained(|s.table|, 0, drain);
      if k < |s.table| {
        StoppedDrainReorders(s, item, env, k, Again(s.table, k, drain));
      } else {
        assert s.table[..k] == s.table && Items(s.table[k..]) == [];
      }
    }
  }

  lemma EmptyDrain(s: State, env: DrainEnv)
    requires s.table == []
    ensures DrainBuffer(s, env) == s
  {
  }

  /** An event sent by a producer that is connected already is sent in order exactly when nothing is
      buffered; rows a drain cut short has left are overtaken. */
  lemma ConnectedKeepsOrderIff(s: State, item: Item, env: PublishEnv)
    requires s.producer && env.sent == Acked && item !in Items(s.table)
    ensures var s' := Publish(s, item, env);
            s'.delivered + Items(s'.table) == s.delivered + Items(s.table) + [item] <==> s.table == []
  {
    if s.table == [] {
      assert Items(s.table) == [];
    } else {
      assert Items(s.table)[0] in Items(s.table);
      Overtaken(s.delivered, [], [], Items(s.table), item);
      assert s.delivered + [] + [] + [item] == s.delivered + [item] && [] + Items(s.table) == Items(s.table);
    }
  }

  // ------------------------------------------------------------ order over whole runs, exactly

  /** Delivered, then buffered. */
  function Flow(s: State): seq<Item> { s.delivered + Items(s.table) }

  /** The state `publish` sends in. */
  function Sending(s: State, env: PublishEnv): State
  {
    if s.producer then s else TryReconnect(s, env.now, env.connect)
  }

  /** The local table works, and a send that raises has not reached the broker. */
  predicate Clear(env: PublishEnv) { env.bufferOk && !env.sent.Unacked? }

  /** No drain leaves a doubled row, and nothing is sent while rows are left. */
  predicate InTurn(s: State, env: PublishEnv)
  {
    var s1 := Sending(s, env);
    s1.doubled == s.doubled && (s1.producer && env.sent.Acked? ==> s1.table == [])
  }

  predicate AllInTurn(s: State, calls: seq<Call>)
    decreases |calls|
  {
    calls == [] || (InTurn(s, calls[0].env) && AllInTurn(Publish(s, calls[0].item, calls[0].env), calls[1..]))
  }

  lemma DrainFlows(s: State, env: DrainEnv)
    requires Ascending(s.table)
    ensures var s' := DrainBuffer(s, env);
            && s.delivered <= s'.delivered && Ascending(s'.table)
            && |s.doubled| <= |s'.doubled| && |Flow(s')| == |Flow(s)| + |s'.doubled| - |s.doubled|
            && (|s'.doubled| == |s.doubled| ==> s'.doubled == s.doubled && Flow(s') == Flow(s))
  {
    if s.producer && env.readOk {
      DrainLeavesASuffix(s, env);
      var k := Drained(|s.table|, 0, env);
      assert Items(s.table) == Items(s.table[..k]) + Items(s.table[k..]);
    }
  }

  lemma SendingFlows(s: State, env: PublishEnv)
    requires Ascending(s.table)
    ensures var s' := Sending(s, env);
            && s.delivered <= s'.delivered && Ascending(s'.table)
            && |s.doubled| <= |s'.doubled| && |Flow(s')| == |Flow(s)| + |s'.doubled| - |s.doubled|
            && (|s'.doubled| == |s.doubled| ==> s'.doubled == s.doubled && Flow(s') == Flow(s))
  {
    var s0 := s.(lastReconnect := env.now, attempts := s.attempts + [env.now], producer := true);
    DrainFlows(s0, env.connect.drain);
  }

  lemma SendFlows(s: State, item: Item, env: PublishEnv)
    requires Ascending(s.table) && Clear(env)
    ensures var s' := SendOrBuffer(s, item, env);
            && s.delivered <= s'.delivered && Ascending(s'.table) && s'.doubled == s.doubled
            && |Flow(s')| == |Flow(s)| + 1
            && (!(s.producer && env.sent.Acked?) || s.table == [] ==> Flow(s') == Flow(s) + [item])
            && (s.producer && env.sent.Acked? && s.table != [] && item !in Flow(s) ==> !(s'.delivered <= Flow(s) + [item]))
  {
    BufferAppends(s, item);
    ConcatAssociates(s.delivered, Items(s.table), [item]);
    if s.producer && env.sent.Acked? {
      if s.table == [] {
        assert Items(s.table) == [];
      } else if item !in Flow(s) {
        assert Flow(s)[|s.delivered|] in Flow(s);
        assert (s.delivered + [item])[|s.delivered|] == item && (Flow(s) + [item])[|s.delivered|] == Flow(s)[|s.delivered|];
      }
    }
  }

  /** `published` can no longer come out in order: too much has been sent, or something too early. */
  predicate Broken(s: State, published: seq<Item>) { |Flow(s)| > |published| || !(s.delivered <= published) }

  lemma BrokenStays(s: State, item: Item, env: PublishEnv, published: seq<Item>)
    requires Ascending(s.table) && Clear(env) && Broken(s, published)
    ensures Broken(Publish(s, item, env), published + [item])
    ensures Ascending(Publish(s, item, env).table)
  {
    var s1 := Sending(s, env);
    SendingFlows(s, env);
    SendFlows(s1, item, env);
    PrefixShortens(s.delivered, s1.delivered, Publish(s, item, env).delivered, published, item);
  }

  lemma PrefixShortens(a: seq<Item>, b: seq<Item>, c: seq<Item>, published: seq<Item>, item: Item)
    requires a <= b && b <= c
    ensures |a| <= |published| && c <= published + [item] ==> a <= published
  {
    if |a| <= |published| && c <= published + [item] {
      assert a == c[..|a|] == (published + [item])[..|a|] == published[..|a|];
    }
  }

  lemma {:induction false} BrokenForGood(s: State, calls: seq<Call>, published: seq<Item>)
    requires Ascending(s.table) && Broken(s, published)
    requires forall i :: 0 <= i < |calls| ==> Clear(calls[i].env)
    ensures Flow(Run(s, calls)) != published + Published(calls)
    decreases |calls|
  {
    if calls == [] {
      assert published + [] == published;
      assert s.delivered <= Flow(s);
    } else {
      BrokenStays(s, calls[0].item, calls[0].env, published);
      BrokenForGood(Publish(s, calls[0].item, calls[0].env), calls[1..], published + [calls[0].item]);
      ConcatAssociates(published, [calls[0].item], Published(calls[1..]));
    }
  }

  lemma StepInTurnIff(s: State, item: Item, env: PublishEnv)
    requires Ascending(s.table) && Clear(env) && item !in Flow(s)
    ensures var s' := Publish(s, item, env);
            && Ascending(s'.table)
            && (InTurn(s, env) ==> Flow(s') == Flow(s) + [item])
            && (!InTurn(s, env) ==> Broken(s', Flow(s) + [item]))
  {
    SendingFlows(s, env);
    SendFlows(Sending(s, env), item, env);
  }

  /** Over any run with distinct events, a working local table and no unacknowledged send: delivered
      followed by buffered is the published order exactly when no drain leaves a doubled row and nothing
      is sent while rows are left. */
  lemma {:induction false} OrderIsKeptIff(s: State, calls: seq<Call>)
    requires Ascending(s.table) && Distinct(Flow(s) + Published(calls))
    requires forall i :: 0 <= i < |calls| ==> Clear(calls[i].env)
    ensures Flow(Run(s, calls)) == Flow(s) + Published(calls) <==> AllInTurn(s, calls)
    decreases |calls|
  {
    if calls == [] {
      assert Flow(s) + [] == Flow(s);
    } else {
      var (item, env, s1) := (calls[0].item, calls[0].env, Publish(s, calls[0].item, calls[0].env));
      ConcatAssociates(Flow(s), [item], Published(calls[1..]));
      NextIsNew(Flow(s), item, Published(calls[1..]));
      StepInTurnIff(s, item, env);
      if InTurn(s, env) {
        OrderIsKeptIff(s1, calls[1..]);
      } else {
        BrokenForGood(s1, calls[1..], Flow(s) + [item]);
      }
    }
  }

  lemma NextIsNew(before: seq<Item>, item: Item, after: seq<Item>)
    requires Distinct(before + ([item] + after))
    ensures item !in before
  {
    var all := before + ([item] + after);
    assert all[|before|] == item && forall i :: 0 <= i < |before| ==> all[i] == before[i];
  }

  // ---------------------------------------------------------------- reconnect cooldown

  ghost predicate Spaced(s: State)
  {
    && (forall i :: 0 <= i < |s.attempts| - 1 ==> s.attempts[i + 1] - s.attempts[i] >= RECONNECT_COOLDOWN)
    && (s.attempts != [] ==> s.attempts[|s.attempts| - 1] == s.lastReconnect)
  }

  /** A reconnect is tried exactly when a configured publisher without a producer publishes sixty seconds or more
      after the last try; if the broker is there, the event that tried it has a producer. What reaches the broker
      arrives after what was there. */
  lemma ReconnectsWhenDue(s: State, item: Item, env: PublishEnv)
    ensures var (s', due) := (Publish(s, item, env), !s.producer && s.bootstrap && env.now - s.lastReconnect >= 60.0);
            && s'.attempts == s.attempts + (if due then [env.now] else [])
            && s'.lastReconnect == (if due then env.now else s.lastReconnect)
            && (s'.producer <==> (s.producer || (due && env.connect.producerOk)) && env.sent == Acked)
            && s'.delivered == Sending(s, env).delivered + if Sending(s, env).producer && env.sent != NotSent then [item] else []
  {
    if !s.producer && s.bootstrap && env.now - s.lastReconnect >= 60.0 {
      var s0 := s.(lastReconnect := env.now, attempts := s.attempts + [env.now], producer := true);
      DrainOnlyMovesRows(s0, s0.table, 0, env.connect.drain);
    }
  }

  lemma {:induction false} DrainOnlyMovesRows(s: State, rows: seq<Row>, i: nat, env: DrainEnv)
    ensures var s' := DrainFrom(s, rows, i, env);
            s'.producer == s.producer && s'.attempts == s.attempts && s'.lastReconnect == s.lastReconnect
    decreases |rows| - i
  {
    if i < |rows| && GoesThrough(env.row(i)) {
      var s1 := s.(delivered := s.delivered + [rows[i].item], table := Without(s.table, rows[i].id));
      DrainOnlyMovesRows(s1, rows, i + 1, env);
    }
  }

  /** However often `publish` runs, reconnects are at least the cooldown apart. */
  lemma {:induction false} ReconnectsAreSpaced(s: State, calls: seq<Call>)
    requires Ascending(s.table) && Spaced(s)
    ensures Spaced(Run(s, calls))
    decreases |calls|
  {
    if calls != [] {
      PublishConserves(s, calls[0].item, calls[0].env, calls[0].item);
      ReconnectsAreSpaced(Publish(s, calls[0].item, calls[0].env), calls[1..]);
    }
  }

  // ---------------------------------------------------------------- the code

  class EventPublisher {
    const bootstrap: bool
    var producer: bool
    var lastReconnect: real
    var table: seq<Row>
    ghost var delivered: seq<Item>
    ghost var lost: seq<Item>
    ghost var doubled: seq<Item>
    ghost var attempts: seq<real>

    ghost function Snapshot(): State
      reads this
    {
      State(bootstrap, producer, lastReconnect, table, delivered, lost, doubled, attempts)
    }

    constructor (bootstrap: bool, table: seq<Row>, ghost delivered: seq<Item>, env: ConnectEnv)
      ensures Snapshot() == Start(bootstrap, table, delivered, env)
    {
      this.bootstrap := bootstrap;
      producer, lastReconnect := false, 0.0;
      this.table := table;
      this.delivered, lost, doubled, attempts := delivered, [], [], [];
      new;
      if bootstrap {
        ConnectProducer(env);
      }
    }

    method ConnectProducer(env: ConnectEnv)
      modifies this
      ensures Snapshot() == Connect(old(Snapshot()), env)
    {
      producer := env.producerOk;
      if producer {
        Drain(env.drain);
      }
    }

    method Drain(env: DrainEnv)
      modifies this
      ensures Snapshot() == DrainBuffer(old(Snapshot()), env)
    {
      if !producer || !env.readOk {
        return;
      }
      var rows := table;
      var i := 0;
      while i < |rows|
        invariant i <= |rows|
        invariant DrainFrom(Snapshot(), rows, i, env) == DrainFrom(old(Snapshot()), rows, 0, env)
      {
        var e := env.row(i);
        if e.sent != NotSent {
          delivered := delivered + [rows[i].item];
        }
        if e.sent != Acked || !e.deleteOk {
          if e.sent != NotSent {
            doubled := doubled + [rows[i].item];
          }
          break;
        }
        table := Without(table, rows[i].id);
        i := i + 1;
      }
    }

    method Reconnect(now: real, env: ConnectEnv)
      modifies this
      ensures Snapshot() == TryReconnect(old(Snapshot()), now, env)
    {
      if !bootstrap {
        return;
      }
      if now - lastReconnect < RECONNECT_COOLDOWN {
        return;
      }
      lastReconnect, attempts := now, attempts + [now];
      ConnectProducer(env);
    }

    method Buffer(item: Item, bufferOk: bool)
      modifies this`table
      ensures Snapshot() == BufferLocally(old(Snapshot()), item, bufferOk)
    {
      if bufferOk {
        table := table + [Row(NextId(table), item)];
      }
    }

    method PublishItem(item: Item, env: PublishEnv)
      modifies this
      ensures Snapshot() == Publish(old(Snapshot()), item, env)
    {
      if !producer {
        Reconnect(env.now, env.connect);
      }
      if !producer {
        Buffer(item, env.bufferOk);
        lost := if env.bufferOk then lost else lost + [item];
        return;
      }
      if env.sent != NotSent {
        delivered := delivered + [item];
      }
      if env.sent != Acked {
        Buffer(item, env.bufferOk);
        producer := false;
        if env.sent == NotSent && !env.bufferOk {
          lost := lost + [item];
        } else if env.sent == Unacked && env.bufferOk {
          doubled := doubled + [item];
        }
      }
    }
  }
}
