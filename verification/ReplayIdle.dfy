/**
 A book that has not traded. Its mornings change nothing but what is remembered,
 so a replay stays idle until a decision queues something.
 */
module ReplayIdle {
  import opened Basics
  import opened Market
  import opened Replay
  import opened ReplayBooks

  ghost predicate Idle(b: Book, seed: real) {
    && b.cash == seed && b.positions == map[] && b.entries == map[] && b.exits == map[] && b.exitOrder == []
    && b.trades == []
  }

  lemma {:induction false} IdleWriteOffs(rules: Rules, d: int, names: seq<Ticker>, n: nat, b: Book, seed: real)
    requires n <= |names| && Idle(b, seed)
    ensures WriteOffs(rules, d, names, n, b) == b
  {
    hide ClosePosition, ExitReason;
    if n > 0 {
      IdleWriteOffs(rules, d, names, n - 1, b, seed);
    }
  }

  lemma {:induction false} IdleEntries(rules: Rules, day: map<Ticker, Bar>, n: nat, b: Book, seed: real)
    requires n <= |rules.tickers| && Idle(b, seed)
    ensures WorkEntries(rules, day, n, b) == b
  {
    if n > 0 {
      IdleEntries(rules, day, n - 1, b, seed);
    }
  }

  lemma {:induction false} IdleGate(rules: Rules, d: int, names: seq<Ticker>, n: nat, b: Book, seed: real)
    requires n <= |names| && Idle(b, seed)
    ensures Gate(rules, d, names, n, b) == b
  {
    if n > 0 {
      IdleGate(rules, d, names, n - 1, b, seed);
    }
  }

  /** The morning of an idle book: only the bars it has seen change. */
  lemma IdleBeforeFlows(rules: Rules, d: int, day: map<Ticker, Bar>, b: Book, seed: real)
    requires Idle(b, seed)
    ensures Idle(BeforeFlows(rules, d, day, b), seed)
    ensures BeforeFlows(rules, d, day, b).funnel == b.funnel
  {
    hide WriteOffs, WorkEntries, Gate, Names;
    var names := Names(rules);
    var aged := b.(stale := Aged(day, b.stale));
    IdleWriteOffs(rules, d, names, |names|, aged, seed);
    assert AfterExits(rules, d, day, b) == aged;
    IdleEntries(rules, day, |rules.tickers|, aged, seed);
    IdleGate(rules, d, names, |names|, Recorded(day, Expired(aged)), seed);
  }

  lemma IdleNav(rules: Rules, day: map<Ticker, Bar>, b: Book)
    requires b.positions == map[]
    ensures Nav(rules, day, b) == b.cash
  {
    var f := HoldingValue(b, day);
    SumAgree(rules.tickers, |rules.tickers|, f, (t: int) => 0.0);
    SumZero(rules.tickers, |rules.tickers|);
  }

  lemma IdleClosed(day: map<Ticker, Bar>, b: Book, seed: real)
    requires Idle(b, seed)
    ensures Idle(Closed(day, b), seed)
  {
  }

  lemma StartIdle(rules: Rules, plan: Plan)
    ensures Idle(Start(rules, plan).book, rules.initial) && Start(rules, plan).values == [rules.initial]
  {
  }
}
