/**
 Keeping sells within holdings: what the broker holds uncovered, what one daily
 pass may ask to sell, and what one pass over the outbox may publish.
 */
module SellControl {
  import opened Basics

  // ---- What is available to sell ----

  datatype Holding = Holding(conId: int, symbol: string, quantity: real)

  datatype OpenOrder = OpenOrder(orderId: string, conId: int, sell: bool, total: real, filled: real)

  datatype Status = Proposed | Approved | Submitted | PartiallyFilled | Cancelled | Finished

  datatype Intent = Intent(
    id: string, account: string, mode: string, conId: int, symbol: string, sell: bool, status: Status, published: bool,
    orderId: Option<string>, requested: real, filled: real)

  /** A broker account as captured: positions by contract and open orders by id. */
  datatype Snapshot = Snapshot(account: string, mode: string, positions: seq<Holding>, orders: seq<OpenOrder>)

  function Remaining(total: real, filled: real): (r: real)
    ensures r >= 0.0
  {
    Max(0.0, total - filled)
  }

  function Get<K>(m: map<K, real>, k: K): real {
    if k in m then m[k] else 0.0
  }

  function HeldOf(positions: seq<Holding>, n: nat, c: int): (r: real)
    requires n <= |positions|
    ensures r >= 0.0
  {
    if n == 0 then 0.0
    else if positions[n - 1].conId == c then Max(0.0, positions[n - 1].quantity)
    else HeldOf(positions, n - 1, c)
  }

  /** What the first n open sell orders still cover of a contract. */
  function OrdersCover(orders: seq<OpenOrder>, n: nat, c: int): (r: real)
    requires n <= |orders|
    ensures r >= 0.0
  {
    if n == 0 then 0.0
    else
      var o := orders[n - 1];
      OrdersCover(orders, n - 1, c) + if o.sell && o.conId == c then Remaining(o.total, o.filled) else 0.0
  }

  function SellOrderIds(orders: seq<OpenOrder>, n: nat): set<string>
    requires n <= |orders|
  {
    if n == 0 then {}
    else SellOrderIds(orders, n - 1) + if orders[n - 1].sell then {orders[n - 1].orderId} else {}
  }

  /** A sell of this account that is live, or proposed and already published. */
  predicate PendingSell(s: Snapshot, i: Intent) {
    && i.account == s.account && i.mode == s.mode && i.sell
    && (i.status == Approved || i.status == Submitted || i.status == PartiallyFilled
        || (i.status == Proposed && i.published))
  }

  /** A pending sell the broker is not itself working. */
  predicate Uncounted(s: Snapshot, i: Intent) {
    PendingSell(s, i) && !(i.orderId.Some? && i.orderId.value in SellOrderIds(s.orders, |s.orders|))
  }

  function IntentsCover(s: Snapshot, intents: seq<Intent>, n: nat, c: int): (r: real)
    requires n <= |intents|
    ensures r >= 0.0
  {
    if n == 0 then 0.0
    else
      var i := intents[n - 1];
      IntentsCover(s, intents, n - 1, c) + if Uncounted(s, i) && i.conId == c then Remaining(i.requested, i.filled)
          else 0.0
  }

  /** A contract's uncovered holding: what is held, less every active sell of it, never below zero. */
  function Uncovered(s: Snapshot, intents: seq<Intent>, c: int): (r: real)
    ensures r >= 0.0
  {
    Max(0.0, HeldOf(s.positions, |s.positions|, c) - OrdersCover(s.orders, |s.orders|, c)
        - IntentsCover(s, intents, |intents|, c))
  }

  /** Uncovered holdings by symbol; of two contracts with one symbol the later listed counts. */
  function AvailabilityTo(s: Snapshot, intents: seq<Intent>, n: nat): map<string, real>
    requires n <= |s.positions|
  {
    if n == 0 then map[]
    else AvailabilityTo(s, intents, n - 1)[s.positions[n - 1].symbol := Uncovered(s, intents, s.positions[n - 1].conId)]
  }

  function Availability(s: Snapshot, intents: seq<Intent>): map<string, real> {
    AvailabilityTo(s, intents, |s.positions|)
  }

  /** Broker-held quantity by contract, short positions counted as none. */
  method HoldPositions(positions: seq<Holding>) returns (left: map<int, real>)
    ensures forall c :: Get(left, c) == HeldOf(positions, |positions|, c)
  {
    left := map[];
    for n := 0 to |positions|
      invariant forall c :: Get(left, c) == HeldOf(positions, n, c)
    {
      left := left[positions[n].conId := Max(0.0, positions[n].quantity)];
    }
  }

  lemma ClampTwice(held: real, covered: real, more: real)
    requires more >= 0.0
    ensures Max(0.0, Max(0.0, held - covered) - more) == Max(0.0, held - (covered + more))
  {
  }

  /** Takes the broker's own open sells off what is held, clamping at every step. */
  method CoverOrders(held: map<int, real>, orders: seq<OpenOrder>)
    returns (left: map<int, real>, brokerIds: set<string>)
    requires forall c :: Get(held, c) >= 0.0
    ensures forall c :: Get(left, c) == Max(0.0, Get(held, c) - OrdersCover(orders, |orders|, c))
    ensures brokerIds == SellOrderIds(orders, |orders|)
  {
    hide Get, Remaining, Max;
    ClampNothing(held);
    left, brokerIds := held, {};
    for n := 0 to |orders|
      invariant brokerIds == SellOrderIds(orders, n)
      invariant forall c :: Get(left, c) == Max(0.0, Get(held, c) - OrdersCover(orders, n, c))
    {
      var o := orders[n];
      if o.sell {
        brokerIds := brokerIds + {o.orderId};
        var rest := Max(0.0, Get(left, o.conId) - Remaining(o.total, o.filled));
        ClampTwice(Get(held, o.conId), OrdersCover(orders, n, o.conId), Remaining(o.total, o.filled));
        PutGet(left, left[o.conId := rest], o.conId, rest);
        left := left[o.conId := rest];
      }
    }
  }

  lemma ClampNothing(held: map<int, real>)
    requires forall c :: Get(held, c) >= 0.0
    ensures forall c :: Get(held, c) == Max(0.0, Get(held, c) - 0.0)
  {
  }

  lemma PutGet(m: map<int, real>, n: map<int, real>, k: int, v: real)
    requires n == m[k := v]
    ensures forall c :: Get(n, c) == if c == k then v else Get(m, c)
  {
  }

  /** Takes every pending sell the broker is not working off what is left, clamping at every step. */
  method CoverIntents(s: Snapshot, held: map<int, real>, brokerIds: set<string>, intents: seq<Intent>)
    returns (left: map<int, real>)
    requires brokerIds == SellOrderIds(s.orders, |s.orders|) && forall c :: Get(held, c) >= 0.0
    ensures forall c :: Get(left, c) == Max(0.0, Get(held, c) - IntentsCover(s, intents, |intents|, c))
  {
    hide Get, Remaining, Max, PendingSell, SellOrderIds;
    ClampNothing(held);
    left := held;
    for n := 0 to |intents|
      invariant forall c :: Get(left, c) == Max(0.0, Get(held, c) - IntentsCover(s, intents, n, c))
    {
      var i := intents[n];
      if PendingSell(s, i) {
        if i.orderId.Some? && i.orderId.value in brokerIds {
          continue;
        }
        var rest := Max(0.0, Get(left, i.conId) - Remaining(i.requested, i.filled));
        ClampTwice(Get(held, i.conId), IntentsCover(s, intents, n, i.conId), Remaining(i.requested, i.filled));
        PutGet(left, left[i.conId := rest], i.conId, rest);
        left := left[i.conId := rest];
      }
    }
  }

  /** build_sell_availability: clamped at every step, it comes to holdings less all the cover. */
  method BuildSellAvailability(s: Snapshot, intents: seq<Intent>) returns (available: map<string, real>)
    ensures available == Availability(s, intents)
  {
    var held := HoldPositions(s.positions);
    var afterOrders, brokerIds := CoverOrders(held, s.orders);
    var left := CoverIntents(s, afterOrders, brokerIds, intents);
    forall c
      ensures Get(left, c) == Uncovered(s, intents, c)
    {
      ClampTwice(HeldOf(s.positions, |s.positions|, c), OrdersCover(s.orders, |s.orders|, c),
                 IntentsCover(s, intents, |intents|, c));
    }
    hide Get, Uncovered;
    available := map[];
    for n := 0 to |s.positions|
      invariant available == AvailabilityTo(s, intents, n)
    {
      available := available[s.positions[n].symbol := Get(left, s.positions[n].conId)];
    }
  }

  lemma {:induction false} AvailabilityNonNegative(s: Snapshot, intents: seq<Intent>, n: nat, symbol: string)
    requires n <= |s.positions|
    ensures Get(AvailabilityTo(s, intents, n), symbol) >= 0.0
  {
    hide Uncovered;
    if n > 0 {
      AvailabilityNonNegative(s, intents, n - 1, symbol);
    }
  }

  // ---- The daily pass ----

  /** A sell signal of a sleeve: the quantity asked for, none or zero for all of it. */
  datatype Ask = Ask(sleeve: string, symbol: string, quantity: Option<real>, dataDriven: bool)

  datatype Accepted = Accepted(sleeve: string, symbol: string, quantity: real)

  /** What is left to sell, if the pass was given an availability at all, and the sells accepted so far. */
  datatype Pass = Pass(remaining: Option<map<string, real>>, accepted: seq<Accepted>)

  function Asked(a: Ask, uncovered: real): real {
    if a.quantity.Some? && a.quantity.value != 0.0 then a.quantity.value else uncovered
  }

  predicate Skipped(a: Ask, degraded: set<string>) {
    a.sleeve in degraded && a.dataDriven
  }

  function AsGiven(a: Ask): Accepted {
    Accepted(a.sleeve, a.symbol, if a.quantity.Some? then a.quantity.value else 0.0)
  }

  /**
   One sell signal: skipped when its sleeve's data is degraded and the exit
   rests on it; let through as given when there is no availability to hold it
   to; else capped at what is uncovered.
   */
  function Considered(p: Pass, a: Ask, degraded: set<string>): Pass {
    if Skipped(a, degraded) then p
    else if p.remaining.None? then p.(accepted := p.accepted + [AsGiven(a)])
    else
      var uncovered := Max(0.0, Get(p.remaining.value, a.symbol));
      var q := Min(Asked(a, uncovered), uncovered);
      if q <= 0.0 then p
      else Pass(Some(p.remaining.value[a.symbol := uncovered - q]), p.accepted + [Accepted(a.sleeve, a.symbol, q)])
  }

  function ConsideredAll(p: Pass, asks: seq<Ask>, degraded: set<string>): Pass {
    if asks == [] then p
    else Considered(ConsideredAll(p, asks[..|asks| - 1], degraded), asks[|asks| - 1], degraded)
  }

  function Flat(sleeves: seq<seq<Ask>>): seq<Ask> {
    if sleeves == [] then [] else Flat(sleeves[..|sleeves| - 1]) + sleeves[|sleeves| - 1]
  }

  /** The sells of one sleeve, on the availability shared by all. */
  method AcceptSleeve(start: Pass, asks: seq<Ask>, degraded: set<string>) returns (p: Pass)
    ensures p == ConsideredAll(start, asks, degraded)
  {
    var capped, accepted := start.remaining.Some?, start.accepted;
    var remaining := if capped then start.remaining.value else map[];
    for j := 0 to |asks|
      invariant Pass(if capped then Some(remaining) else None, accepted) == ConsideredAll(start, asks[..j], degraded)
    {
      var a := asks[j];
      ConsideredPush(start, asks[..j], a, degraded);
      assert asks[..j + 1] == asks[..j] + [a];
      hide ConsideredAll;
      if a.sleeve in degraded && a.dataDriven {
        continue;
      }
      if !capped {
        accepted := accepted + [Accepted(a.sleeve, a.symbol, if a.quantity.Some? then a.quantity.value else 0.0)];
        continue;
      }
      var uncovered := Max(0.0, Get(remaining, a.symbol));
      var q := Min(if a.quantity.Some? && a.quantity.value != 0.0 then a.quantity.value else uncovered, uncovered);
      if q <= 0.0 {
        continue;
      }
      remaining := remaining[a.symbol := uncovered - q];
      accepted := accepted + [Accepted(a.sleeve, a.symbol, q)];
    }
    assert asks[..|asks|] == asks;
    p := Pass(if capped then Some(remaining) else None, accepted);
  }

  /** The sell side of run_daily, sleeve by sleeve, on one shared availability. */
  method AcceptSells(available: Option<map<string, real>>, sleeves: seq<seq<Ask>>, degraded: set<string>)
    returns (p: Pass)
    ensures p == ConsideredAll(Pass(available, []), Flat(sleeves), degraded)
  {
    hide ConsideredAll;
    p := Pass(available, []);
    ConsideredNone(p, degraded);
    for i := 0 to |sleeves|
      invariant p == ConsideredAll(Pass(available, []), Flat(sleeves[..i]), degraded)
    {
      p := AcceptSleeve(p, sleeves[i], degraded);
      ConsideredJoin(Pass(available, []), Flat(sleeves[..i]), sleeves[i], degraded);
      assert sleeves[..i + 1][..i] == sleeves[..i];
    }
    assert sleeves[..|sleeves|] == sleeves;
  }

  lemma ConsideredNone(p: Pass, degraded: set<string>)
    ensures ConsideredAll(p, [], degraded) == p
  {
  }

  lemma {:induction false} ConsideredJoin(p: Pass, a: seq<Ask>, b: seq<Ask>, degraded: set<string>)
    ensures ConsideredAll(p, a + b, degraded) == ConsideredAll(ConsideredAll(p, a, degraded), b, degraded)
  {
    hide Considered;
    if b == [] {
      assert a + b == a;
    } else {
      assert (a + b)[..|a| + |b| - 1] == a + b[..|b| - 1];
      ConsideredJoin(p, a, b[..|b| - 1], degraded);
    }
  }

  lemma ConsideredPush(p: Pass, asks: seq<Ask>, a: Ask, degraded: set<string>)
    ensures ConsideredAll(p, asks + [a], degraded) == Considered(ConsideredAll(p, asks, degraded), a, degraded)
  {
    assert (asks + [a])[..|asks|] == asks;
  }

  function SoldOf(symbol: string): Accepted -> real {
    (x: Accepted) => if x.symbol == symbol then x.quantity else 0.0
  }

  lemma ConsideredBounds(p: Pass, a: Ask, degraded: set<string>, symbol: string, start: real)
    requires p.remaining.Some? && start >= 0.0 && (forall x :: x in p.accepted ==> x.quantity > 0.0)
    requires SeqSum(p.accepted, SoldOf(symbol)) + Max(0.0, Get(p.remaining.value, symbol)) == start
    ensures
      var r := Considered(p, a, degraded);
      && r.remaining.Some? && (forall x :: x in r.accepted ==> x.quantity > 0.0)
      && SeqSum(r.accepted, SoldOf(symbol)) + Max(0.0, Get(r.remaining.value, symbol)) == start
  {
    var uncovered := Max(0.0, Get(p.remaining.value, a.symbol));
    var q := Min(Asked(a, uncovered), uncovered);
    SeqSumPush(p.accepted, Accepted(a.sleeve, a.symbol, q), SoldOf(symbol));
  }

  /**
   Across every sleeve of one pass, the accepted sells of a symbol and what is
   left of it add up to what was available at the start: sells never outrun it,
   and each accepted one is for a positive quantity.
   */
  lemma {:induction false} SellsWithinAvailability(available: map<string, real>, asks: seq<Ask>, degraded: set<string>,
                                                   symbol: string)
    ensures
      var r := ConsideredAll(Pass(Some(available), []), asks, degraded);
      && r.remaining.Some? && (forall x :: x in r.accepted ==> x.quantity > 0.0)
      && SeqSum(r.accepted, SoldOf(symbol)) + Max(0.0, Get(r.remaining.value, symbol))
         == Max(0.0, Get(available, symbol))
  {
    hide Considered, SoldOf;
    if asks != [] {
      var n := |asks| - 1;
      SellsWithinAvailability(available, asks[..n], degraded, symbol);
      ConsideredBounds(ConsideredAll(Pass(Some(available), []), asks[..n], degraded), asks[n], degraded, symbol,
                       Max(0.0, Get(available, symbol)));
    }
  }

  /** The asks that are not skipped, as given. */
  function Unskipped(asks: seq<Ask>, degraded: set<string>): seq<Accepted> {
    if asks == [] then []
    else
      var a := asks[|asks| - 1];
      Unskipped(asks[..|asks| - 1], degraded) + if Skipped(a, degraded) then [] else [AsGiven(a)]
  }

  /** Without an availability every sell that is not skipped goes through as asked. */
  lemma {:induction false} SellsUncapped(asks: seq<Ask>, degraded: set<string>)
    ensures ConsideredAll(Pass(None, []), asks, degraded) == Pass(None, Unskipped(asks, degraded))
  {
    if asks != [] {
      SellsUncapped(asks[..|asks| - 1], degraded);
    }
  }

  // ---- The outbox ----

  const SLACK := 0.000001

  datatype Message = Message(id: string, symbol: string, sell: bool, quantity: real)

  /** The outbox as a pass goes on: what is left to sell, the intents as they stand, and what was published. */
  datatype Outgoing = Outgoing(available: map<string, real>, intents: seq<Intent>, sent: seq<Message>)

  /**
   The intents a pass takes up, by position: proposed, unpublished, of the
   account, sells only when entries are held.
   */
  predicate TakesUp(i: Intent, account: Option<string>, entriesAllowed: bool) {
    i.status == Proposed && !i.published && (account.None? || i.account == account.value) && (entriesAllowed || i.sell)
  }

  function TakenTo(intents: seq<Intent>, n: nat, account: Option<string>, entriesAllowed: bool): (r: seq<nat>)
    requires n <= |intents|
    ensures forall k :: 0 <= k < |r| ==> r[k] < n && TakesUp(intents[r[k]], account, entriesAllowed)
    ensures forall k, l :: 0 <= k < l < |r| ==> r[k] < r[l]
  {
    if n == 0 then []
    else
      TakenTo(intents, n - 1, account, entriesAllowed)
      + if TakesUp(intents[n - 1], account, entriesAllowed) then [n - 1] else []
  }

  function Send(o: Outgoing, i: nat): Outgoing
    requires i < |o.intents|
  {
    var it := o.intents[i];
    Outgoing(if it.sell then o.available[it.symbol := Max(0.0, Get(o.available, it.symbol) - it.requested)]
             else o.available,
             o.intents[i := it.(published := true)],
             o.sent + [Message(it.id, it.symbol, it.sell, it.requested)])
  }

  function Cancel(o: Outgoing, i: nat): Outgoing
    requires i < |o.intents|
  {
    o.(intents := o.intents[i := o.intents[i].(status := Cancelled)])
  }

  /** The intent that replaces one capped at what is available; its id names the original and the quantity. */
  function Capped(it: Intent, available: real, id: string): Intent {
    it.(id := id, requested := available, filled := 0.0, status := Proposed, published := false, orderId := None)
  }

  /** One intent of a pass. */
  function Replayed(o: Outgoing, i: nat, s: Option<Snapshot>, name: (string, real) -> string): Outgoing
    requires i < |o.intents|
  {
    var it := o.intents[i];
    if !it.sell then Send(o, i)
    else if s.None? || it.account != s.value.account || it.mode != s.value.mode then o
    else
      var available := Max(0.0, Get(o.available, it.symbol));
      if available <= 0.0 then Cancel(o, i)
      else if it.requested > available + SLACK then
        var cancelled := Cancel(o, i);
        var grown := cancelled.(intents := cancelled.intents + [Capped(it, available, name(it.id, available))]);
        Send(grown, |o.intents|)
      else Send(o, i)
  }

  function ReplayedAll(o: Outgoing, taken: seq<nat>, n: nat, s: Option<Snapshot>,
                       name: (string, real) -> string): (r: Outgoing)
    requires n <= |taken| && forall k :: 0 <= k < |taken| ==> taken[k] < |o.intents|
    ensures |r.intents| >= |o.intents|
  {
    if n == 0 then o else Replayed(ReplayedAll(o, taken, n - 1, s, name), taken[n - 1], s, name)
  }

  class OrderOutbox {
    var intents: seq<Intent>
    var stream: seq<Message>

    constructor (intents: seq<Intent>)
      ensures this.intents == intents && this.stream == []
    {
      this.intents, this.stream := intents, [];
    }

    /** Publishes one intent: onto the stream, and marked. */
    method Publish(available: map<string, real>, i: nat) returns (left: map<string, real>)
      requires i < |intents|
      modifies this
      ensures
        var o := Send(Outgoing(available, old(intents), []), i);
        left == o.available && intents == o.intents && stream == old(stream) + o.sent
    {
      var it := intents[i];
      stream := stream + [Message(it.id, it.symbol, it.sell, it.requested)];
      intents := intents[i := it.(published := true)];
      left := if it.sell then available[it.symbol := Max(0.0, Get(available, it.symbol) - it.requested)] else available;
    }

    /** Takes up one intent: published, replaced by a capped one, cancelled, or left where it is. */
    method ReplayOne(available: map<string, real>, i: nat, s: Option<Snapshot>, name: (string, real) -> string)
      returns (left: map<string, real>)
      requires i < |intents|
      modifies this
      ensures
        var o := Replayed(Outgoing(available, old(intents), []), i, s, name);
        left == o.available && intents == o.intents && stream == old(stream) + o.sent
    {
      var it := intents[i];
      left := available;
      if it.sell {
        if s.None? || it.account != s.value.account || it.mode != s.value.mode {
          return;
        }
        var uncovered := Max(0.0, Get(available, it.symbol));
        if uncovered <= 0.0 {
          intents := intents[i := it.(status := Cancelled)];
          return;
        }
        if it.requested > uncovered + SLACK {
          intents := intents[i := it.(status := Cancelled)] + [Capped(it, uncovered, name(it.id, uncovered))];
          left := Publish(available, |intents| - 1);
          return;
        }
      }
      left := Publish(available, i);
    }

    /** publish_unpublished_intents: one pass over the proposed, unpublished intents. */
    method PublishUnpublished(account: Option<string>, entriesAllowed: bool, s: Option<Snapshot>,
                              name: (string, real) -> string)
      returns (published: nat)
      modifies this
      ensures
        var start := Outgoing(if s.Some? then Availability(s.value, old(intents)) else map[], old(intents), []);
        var taken := TakenTo(old(intents), |old(intents)|, account, entriesAllowed);
        var end := ReplayedAll(start, taken, |taken|, s, name);
        && intents == end.intents && stream == old(stream) + end.sent && published == |end.sent|
    {
      hide Replayed, Availability;
      var taken := TakenTo(intents, |intents|, account, entriesAllowed);
      var available: map<string, real> := map[];
      if s.Some? {
        available := BuildSellAvailability(s.value, intents);
      }
      ghost var start := Outgoing(available, intents, []);
      var before := |stream|;
      for n := 0 to |taken|
        invariant |intents| >= |start.intents|
        invariant
          var o := ReplayedAll(start, taken, n, s, name);
          available == o.available && intents == o.intents && stream == old(stream) + o.sent
      {
        ghost var o := ReplayedAll(start, taken, n, s, name);
        ghost var r := Replayed(o.(sent := []), taken[n], s, name);
        assert Outgoing(available, intents, []) == o.(sent := []);
        SentApart(o, taken[n], s, name);
        available := ReplayOne(available, taken[n], s, name);
        assert ReplayedAll(start, taken, n + 1, s, name) == Replayed(o, taken[n], s, name);
        assert old(stream) + (o.sent + r.sent) == old(stream) + o.sent + r.sent;
      }
      published := |stream| - before;
    }
  }

  /** What one intent adds to the stream does not depend on what was sent before. */
  lemma SentApart(o: Outgoing, i: nat, s: Option<Snapshot>, name: (string, real) -> string)
    requires i < |o.intents|
    ensures
      var r := Replayed(o.(sent := []), i, s, name);
      Replayed(o, i, s, name) == r.(sent := o.sent + r.sent)
  {
  }

  function SentOf(symbol: string): Message -> real {
    (m: Message) => if m.sell && m.symbol == symbol then m.quantity else 0.0
  }

  /** What was sent of a symbol and what is left come to what was there, give or take one rounding at the end. */
  ghost predicate Bounded(o: Outgoing, symbol: string, start: real) {
    && Get(o.available, symbol) >= 0.0
    && SeqSum(o.sent, SentOf(symbol)) + Get(o.available, symbol) <= start + SLACK
    && (Get(o.available, symbol) > 0.0 ==> SeqSum(o.sent, SentOf(symbol)) + Get(o.available, symbol) <= start)
  }

  lemma SendBounded(o: Outgoing, i: nat, symbol: string, start: real)
    requires i < |o.intents| && Bounded(o, symbol, start)
    requires o.intents[i].sell && o.intents[i].symbol == symbol ==>
      Get(o.available, symbol) > 0.0 && o.intents[i].requested <= Get(o.available, symbol) + SLACK
    ensures Bounded(Send(o, i), symbol, start)
  {
    hide SeqSum;
    var it := o.intents[i];
    SeqSumPush(o.sent, Message(it.id, it.symbol, it.sell, it.requested), SentOf(symbol));
  }

  lemma ReplayedBounded(o: Outgoing, i: nat, s: Option<Snapshot>, name: (string, real) -> string, symbol: string,
                        start: real)
    requires i < |o.intents| && Bounded(o, symbol, start)
    ensures Bounded(Replayed(o, i, s, name), symbol, start)
  {
    hide SeqSum, SentOf;
    var it := o.intents[i];
    if !it.sell {
      SendBounded(o, i, symbol, start);
    } else {
      var available := Max(0.0, Get(o.available, it.symbol));
      if available > 0.0 {
        if it.requested > available + SLACK {
          var cancelled := Cancel(o, i);
          var grown := cancelled.(intents := cancelled.intents + [Capped(it, available, name(it.id, available))]);
          SendBounded(grown, |o.intents|, symbol, start);
        } else {
          SendBounded(o, i, symbol, start);
        }
      }
    }
  }

  /**
   One pass over the outbox publishes sells of a symbol totalling at most its
   availability plus one millionth of a share, replacements capped to what was
   left included.
   */
  lemma {:induction false} PublishedWithinAvailability(o: Outgoing, taken: seq<nat>, n: nat, s: Option<Snapshot>,
                                                       name: (string, real) -> string, symbol: string)
    requires n <= |taken| && forall k :: 0 <= k < |taken| ==> taken[k] < |o.intents|
    requires o.sent == [] && Get(o.available, symbol) >= 0.0
    ensures Bounded(ReplayedAll(o, taken, n, s, name), symbol, Get(o.available, symbol))
    ensures SeqSum(ReplayedAll(o, taken, n, s, name).sent, SentOf(symbol)) <= Get(o.available, symbol) + SLACK
  {
    hide Replayed, SentOf;
    if n > 0 {
      PublishedWithinAvailability(o, taken, n - 1, s, name, symbol);
      ReplayedBounded(ReplayedAll(o, taken, n - 1, s, name), taken[n - 1], s, name, symbol, Get(o.available, symbol));
    }
  }

  /** The same bound for a pass as the outbox starts it: what it publishes of a symbol is held uncovered. */
  lemma OutboxWithinHoldings(s: Snapshot, intents: seq<Intent>, account: Option<string>, entriesAllowed: bool,
                             name: (string, real) -> string, symbol: string)
    ensures
      var start := Outgoing(Availability(s, intents), intents, []);
      var taken := TakenTo(intents, |intents|, account, entriesAllowed);
      SeqSum(ReplayedAll(start, taken, |taken|, Some(s), name).sent, SentOf(symbol))
          <= Get(Availability(s, intents), symbol) + SLACK
  {
    AvailabilityNonNegative(s, intents, |s.positions|, symbol);
    var start := Outgoing(Availability(s, intents), intents, []);
    var taken := TakenTo(intents, |intents|, account, entriesAllowed);
    hide Availability, ReplayedAll, SentOf, TakenTo;
    PublishedWithinAvailability(start, taken, |taken|, Some(s), name, symbol);
  }
}
