/**
 What the sell controls come to, said without their steps: what of a holding is
 free to sell, what one ask of a pass is granted, and what becomes of each intent
 the outbox takes up.
 */
module SellPass {
  import opened Basics
  import opened SellControl

  // ---- What is free to sell ----

  function Unfilled(total: real, filled: real): real {
    if total > filled then total - filled else 0.0
  }

  /** What open sell orders of a contract still have to fill. */
  function WorkedOf(orders: seq<OpenOrder>, c: int): real {
    SeqSum(orders, (o: OpenOrder) => if o.sell && o.conId == c then Unfilled(o.total, o.filled) else 0.0)
  }

  /** A sell under way: approved, submitted, partly filled, or proposed and out. */
  predicate UnderWay(i: Intent) {
    match i.status
    case Proposed => i.published
    case Approved => true
    case Submitted => true
    case PartiallyFilled => true
    case Cancelled => false
    case Finished => false
  }

  /** The broker is working it as one of its open sell orders. */
  ghost predicate AtBroker(s: Snapshot, i: Intent) {
    exists k :: 0 <= k < |s.orders| && s.orders[k].sell && i.orderId == Some(s.orders[k].orderId)
  }

  /** What sells under way of a contract, not yet at the broker, have to fill. */
  ghost function AwaitedOf(s: Snapshot, intents: seq<Intent>, c: int): real {
    SeqSum(intents, (i: Intent) =>
      if i.account == s.account && i.mode == s.mode && i.sell && i.conId == c && UnderWay(i) && !AtBroker(s, i)
      then Unfilled(i.requested, i.filled) else 0.0)
  }

  /** The last position listed of a symbol, and the last of its contract. */
  ghost predicate ListedLast(positions: seq<Holding>, symbol: string, k: nat, m: nat) {
    && k < |positions| && m < |positions| && positions[k].symbol == symbol && positions[m].conId == positions[k].conId
    && (forall j :: k < j < |positions| ==> positions[j].symbol != symbol)
    && (forall j :: m < j < |positions| ==> positions[j].conId != positions[k].conId)
  }

  lemma {:induction false} WorkedIs(orders: seq<OpenOrder>, n: nat, c: int)
    requires n <= |orders|
    ensures OrdersCover(orders, n, c) == WorkedOf(orders[..n], c)
  {
    if n > 0 {
      WorkedIs(orders, n - 1, c);
      assert orders[..n] == orders[..n - 1] + [orders[n - 1]];
      SeqSumPush(orders[..n - 1], orders[n - 1],
                 (o: OpenOrder) => if o.sell && o.conId == c then Unfilled(o.total, o.filled) else 0.0);
    }
  }

  lemma {:induction false} BrokerIds(orders: seq<OpenOrder>, n: nat, id: string)
    requires n <= |orders|
    ensures id in SellOrderIds(orders, n) <==> exists k :: 0 <= k < n && orders[k].sell && orders[k].orderId == id
  {
    if n > 0 {
      BrokerIds(orders, n - 1, id);
    }
  }

  lemma UncountedIs(s: Snapshot, i: Intent)
    ensures Uncounted(s, i) <==>
            i.account == s.account && i.mode == s.mode && i.sell && UnderWay(i) && !AtBroker(s, i)
  {
    if i.orderId.Some? {
      BrokerIds(s.orders, |s.orders|, i.orderId.value);
    }
    hide SellOrderIds;
  }

  lemma {:induction false} AwaitedIs(s: Snapshot, intents: seq<Intent>, n: nat, c: int)
    requires n <= |intents|
    ensures IntentsCover(s, intents, n, c) == AwaitedOf(s, intents[..n], c)
  {
    hide Uncounted, AtBroker, UnderWay;
    if n > 0 {
      AwaitedIs(s, intents, n - 1, c);
      UncountedIs(s, intents[n - 1]);
      assert intents[..n] == intents[..n - 1] + [intents[n - 1]];
      SeqSumPush(intents[..n - 1], intents[n - 1], (i: Intent) =>
        if i.account == s.account && i.mode == s.mode && i.sell && i.conId == c && UnderWay(i) && !AtBroker(s, i)
        then Unfilled(i.requested, i.filled) else 0.0);
    }
  }

  lemma {:induction false} HeldLast(positions: seq<Holding>, n: nat, c: int, m: nat)
    requires m < n <= |positions| && positions[m].conId == c && forall j :: m < j < n ==> positions[j].conId != c
    ensures HeldOf(positions, n, c) == if positions[m].quantity > 0.0 then positions[m].quantity else 0.0
    decreases n
  {
    if m < n - 1 {
      HeldLast(positions, n - 1, c, m);
    }
  }

  lemma {:induction false} AvailableLast(s: Snapshot, intents: seq<Intent>, n: nat, symbol: string, k: nat)
    requires k < n <= |s.positions| && s.positions[k].symbol == symbol
    requires forall j :: k < j < n ==> s.positions[j].symbol != symbol
    ensures symbol in AvailabilityTo(s, intents, n)
    ensures AvailabilityTo(s, intents, n)[symbol] == Uncovered(s, intents, s.positions[k].conId)
    decreases n
  {
    hide Uncovered;
    if k < n - 1 {
      AvailableLast(s, intents, n - 1, symbol, k);
    }
  }

  lemma {:induction false} NotListed(s: Snapshot, intents: seq<Intent>, n: nat, symbol: string)
    requires n <= |s.positions| && forall j :: 0 <= j < n ==> s.positions[j].symbol != symbol
    ensures symbol !in AvailabilityTo(s, intents, n)
    decreases n
  {
    hide Uncovered;
    if n > 0 {
      NotListed(s, intents, n - 1, symbol);
    }
  }

  /**
   What is free of a listed symbol: its contract's holding less everything open
   sell orders and sells under way have still to take of it, and never less than
   nothing. Of an unlisted one there is none.
   */
  lemma FreeToSell(s: Snapshot, intents: seq<Intent>, symbol: string, k: nat, m: nat)
    requires ListedLast(s.positions, symbol, k, m)
    ensures
      var c, held := s.positions[k].conId, s.positions[m].quantity;
      var owed := WorkedOf(s.orders, c) + AwaitedOf(s, intents, c);
      && symbol in Availability(s, intents)
      && Availability(s, intents)[symbol] == if held > 0.0 && held > owed then held - owed else 0.0
  {
    var c := s.positions[k].conId;
    HeldLast(s.positions, |s.positions|, c, m);
    AvailableLast(s, intents, |s.positions|, symbol, k);
    WorkedIs(s.orders, |s.orders|, c);
    AwaitedIs(s, intents, |intents|, c);
    assert s.orders[..|s.orders|] == s.orders && intents[..|intents|] == intents;
    hide HeldOf, OrdersCover, IntentsCover, WorkedOf, AwaitedOf, AvailabilityTo;
  }

  lemma NothingUnlisted(s: Snapshot, intents: seq<Intent>, symbol: string)
    requires forall j :: 0 <= j < |s.positions| ==> s.positions[j].symbol != symbol
    ensures symbol !in Availability(s, intents)
  {
    NotListed(s, intents, |s.positions|, symbol);
  }

  // ---- What an ask is granted ----

  /** What earlier asks of a pass were granted of a symbol. */
  function GrantedOf(accepted: seq<Accepted>, symbol: string): real {
    SeqSum(accepted, (x: Accepted) => if x.symbol == symbol then x.quantity else 0.0)
  }

  /** A rank replacement of a sleeve on degraded data is not asked at all. */
  predicate Untrusted(a: Ask, degraded: set<string>) {
    a.dataDriven && a.sleeve in degraded
  }

  /** What an ask is granted of what is left: what it asks for, or all when it names nothing, up to what is left. */
  function Granted(a: Ask, left: real): real {
    if a.quantity.Some? && a.quantity.value != 0.0 && a.quantity.value < left then a.quantity.value else left
  }

  /**
   One ask of a pass, after others: granted what it asks up to what is left of
   the symbol once the earlier grants are taken off what there was, and nothing
   when that is nothing.
   */
  lemma AskEnds(available: map<string, real>, asks: seq<Ask>, a: Ask, degraded: set<string>)
    ensures
      var before := ConsideredAll(Pass(Some(available), []), asks, degraded).accepted;
      var after := ConsideredAll(Pass(Some(available), []), asks + [a], degraded).accepted;
      var there := if a.symbol in available && available[a.symbol] > 0.0 then available[a.symbol] else 0.0;
      var granted := Granted(a, there - GrantedOf(before, a.symbol));
      after == before + if !Untrusted(a, degraded) && granted > 0.0 then [Accepted(a.sleeve, a.symbol, granted)] else []
  {
    var start := Pass(Some(available), []);
    var p := ConsideredAll(start, asks, degraded);
    SellsWithinAvailability(available, asks, degraded, a.symbol);
    ConsideredPush(start, asks, a, degraded);
    SeqSumAgree(p.accepted, SoldOf(a.symbol), (x: Accepted) => if x.symbol == a.symbol then x.quantity else 0.0);
    hide ConsideredAll, SeqSum, SoldOf;
    if p.remaining.Some? {
      GrantIs(p, a, degraded);
    }
    hide Considered, Granted, Get, Max;
    NonNegativePart(available, a.symbol);
  }

  lemma NonNegativePart(available: map<string, real>, symbol: string)
    ensures Max(0.0, Get(available, symbol))
            == if symbol in available && available[symbol] > 0.0 then available[symbol] else 0.0
  {
  }

  lemma GrantIs(p: Pass, a: Ask, degraded: set<string>)
    requires p.remaining.Some?
    ensures
      var granted := Granted(a, Max(0.0, Get(p.remaining.value, a.symbol)));
      Considered(p, a, degraded).accepted
      == p.accepted + if !Untrusted(a, degraded) && granted > 0.0 then [Accepted(a.sleeve, a.symbol, granted)] else []
  {
  }

  /** Without an availability an ask is granted as it stands. */
  lemma AskUncapped(asks: seq<Ask>, a: Ask, degraded: set<string>)
    ensures
      var before := ConsideredAll(Pass(None, []), asks, degraded).accepted;
      var after := ConsideredAll(Pass(None, []), asks + [a], degraded).accepted;
      after == before + if Untrusted(a, degraded) then []
                        else [Accepted(a.sleeve, a.symbol, if a.quantity.None? then 0.0 else a.quantity.value)]
  {
    SellsUncapped(asks, degraded);
    ConsideredPush(Pass(None, []), asks, a, degraded);
    hide ConsideredAll, Unskipped;
  }

  // ---- What becomes of an intent ----

  /** What is left to sell of a symbol. */
  function LeftOf(o: Outgoing, symbol: string): real {
    if symbol in o.available && o.available[symbol] > 0.0 then o.available[symbol] else 0.0
  }

  /** It goes out: on the stream as it stands, marked, and a sale taken from what is left. */
  ghost predicate GoesOut(o: Outgoing, i: nat, r: Outgoing)
    requires i < |o.intents|
  {
    var it := o.intents[i];
    && r.intents == o.intents[i := it.(published := true)]
    && r.sent == o.sent + [Message(it.id, it.symbol, it.sell, it.requested)]
    && (!it.sell ==> r.available == o.available)
    && (it.sell ==> it.symbol in r.available && r.available == o.available[it.symbol := r.available[it.symbol]]
                    && LeftOf(r, it.symbol) == r.available[it.symbol]
                    && r.available[it.symbol]
                       == if it.requested < LeftOf(o, it.symbol) then LeftOf(o, it.symbol) - it.requested
                          else if it.requested < 0.0 then LeftOf(o, it.symbol) - it.requested else 0.0)
  }

  /** It is cancelled and nothing goes out. */
  ghost predicate Dropped(o: Outgoing, i: nat, r: Outgoing)
    requires i < |o.intents|
  {
    r == o.(intents := o.intents[i := o.intents[i].(status := Cancelled)])
  }

  /** It is cancelled, and a new one for what is left, all its own otherwise, goes out in its place. */
  ghost predicate Replaced(o: Outgoing, i: nat, id: string, r: Outgoing)
    requires i < |o.intents|
  {
    var it, left := o.intents[i], LeftOf(o, o.intents[i].symbol);
    && r.intents
       == o.intents[i := it.(status := Cancelled)]
          + [Intent(id, it.account, it.mode, it.conId, it.symbol, it.sell, Proposed, true, None, left, 0.0)]
    && r.sent == o.sent + [Message(id, it.symbol, it.sell, left)]
    && r.available == o.available[it.symbol := 0.0]
  }

  /**
   An intent a pass takes up: a buy goes out; a sell of another account or mode,
   or with no snapshot at all, waits; a sell of something nothing is left of is
   cancelled; one of more than is left, by over a millionth, is replaced; any
   other goes out.
   */
  lemma IntentEnds(o: Outgoing, i: nat, s: Option<Snapshot>, name: (string, real) -> string)
    requires i < |o.intents|
    ensures
      var it, r, left := o.intents[i], Replayed(o, i, s, name), LeftOf(o, o.intents[i].symbol);
      if !it.sell then GoesOut(o, i, r)
      else if s.None? || it.account != s.value.account || it.mode != s.value.mode then r == o
      else if left == 0.0 then Dropped(o, i, r)
      else if it.requested > left + 0.000001 then Replaced(o, i, name(it.id, left), r)
      else GoesOut(o, i, r)
  {
  }

  // ---- Which intents are taken up, and what is left of the others ----

  /** An intent to be taken up: proposed and not out, of the account asked for, and a sell if entries are held. */
  predicate Due(i: Intent, account: Option<string>, entriesAllowed: bool) {
    && i.status == Proposed && !i.published && (account.Some? ==> account.value == i.account)
    && (!entriesAllowed ==> i.sell)
  }

  lemma {:induction false} TakenAreDue(intents: seq<Intent>, n: nat, account: Option<string>, entriesAllowed: bool)
    requires n <= |intents|
    ensures forall i :: 0 <= i < n ==> (i in TakenTo(intents, n, account, entriesAllowed) <==>
                                        Due(intents[i], account, entriesAllowed))
  {
    if n > 0 {
      TakenAreDue(intents, n - 1, account, entriesAllowed);
      assert Due(intents[n - 1], account, entriesAllowed) <==> TakesUp(intents[n - 1], account, entriesAllowed);
      hide Due, TakesUp;
    }
  }

  /** What a pass can leave of an intent it took up: out, cancelled, or waiting as it was. */
  predicate EndsAs(was: Intent, now: Intent) {
    now == was.(published := true) || now == was.(status := Cancelled) || now == was
  }

  lemma OneStays(o: Outgoing, i: nat, s: Option<Snapshot>, name: (string, real) -> string, j: nat)
    requires i < |o.intents| && j < |o.intents|
    ensures
      var r := Replayed(o, i, s, name);
      && j < |r.intents| && |r.sent| <= |o.sent| + 1
      && if j == i then EndsAs(o.intents[j], r.intents[j]) else r.intents[j] == o.intents[j]
  {
  }

  /** A pass changes only the intents that were due, each as told, and sends at most one message for each. */
  lemma {:induction false} PassTouches(o: Outgoing, taken: seq<nat>, n: nat, s: Option<Snapshot>,
                                       name: (string, real) -> string, j: nat)
    requires n <= |taken| && forall k :: 0 <= k < |taken| ==> taken[k] < |o.intents|
    requires forall k, l :: 0 <= k < l < |taken| ==> taken[k] < taken[l]
    requires j < |o.intents| && o.sent == []
    ensures
      var r := ReplayedAll(o, taken, n, s, name);
      && j < |r.intents| && |r.sent| <= n
      && (if j in taken[..n] then EndsAs(o.intents[j], r.intents[j]) else r.intents[j] == o.intents[j])
  {
    hide Replayed, EndsAs;
    if n > 0 {
      PassTouches(o, taken, n - 1, s, name, j);
      assert taken[..n] == taken[..n - 1] + [taken[n - 1]] && taken[n - 1] !in taken[..n - 1];
      OneStays(ReplayedAll(o, taken, n - 1, s, name), taken[n - 1], s, name, j);
    }
  }

  /** One pass over the outbox, of its intents one by one: those not due are as they were. */
  lemma OutboxTouches(intents: seq<Intent>, available: map<string, real>, account: Option<string>, entriesAllowed: bool,
                      s: Option<Snapshot>, name: (string, real) -> string, j: nat)
    requires j < |intents|
    ensures
      var taken := TakenTo(intents, |intents|, account, entriesAllowed);
      var r := ReplayedAll(Outgoing(available, intents, []), taken, |taken|, s, name);
      && j < |r.intents| && |r.sent| <= |taken|
      && if Due(intents[j], account, entriesAllowed) then EndsAs(intents[j], r.intents[j])
         else r.intents[j] == intents[j]
  {
    var taken := TakenTo(intents, |intents|, account, entriesAllowed);
    TakenAreDue(intents, |intents|, account, entriesAllowed);
    PassTouches(Outgoing(available, intents, []), taken, |taken|, s, name, j);
    assert taken[..|taken|] == taken;
    hide EndsAs, Due, TakenTo, ReplayedAll;
  }
}
