/**
 The orders still working that a live strategy is shown beside its positions:
 kept under the symbol, or under the recommendation when the symbol is taken. No
 order hides another exactly when the key each goes under is still free.
 */
module LiveContext {
  import opened Basics

  datatype OpenIntent = OpenIntent(
    id: string, portfolio: string, account: string, symbol: string, buy: bool, requested: real, filled: real)

  datatype PendingOrder = PendingOrder(symbol: string, buy: bool, quantity: real, id: string)

  /** A dictionary entry; entries keep the order in which their keys were first set. */
  datatype Entry = Entry(key: string, order: PendingOrder)

  function Remaining(i: OpenIntent): real {
    Max(0.0, i.requested - i.filled)
  }

  /** Of this portfolio, of the account if one is named, and not yet filled. */
  predicate Working(i: OpenIntent, portfolio: string, account: Option<string>) {
    i.portfolio == portfolio && (account.None? || i.account == account.value) && Remaining(i) > 0.0
  }

  predicate HasKey(entries: seq<Entry>, key: string) {
    exists k :: 0 <= k < |entries| && entries[k].key == key
  }

  /** Setting a key: in place if it is there, at the end if not. */
  function Put(entries: seq<Entry>, key: string, order: PendingOrder): seq<Entry> {
    if entries == [] then [Entry(key, order)]
    else if entries[0].key == key then [Entry(key, order)] + entries[1..]
    else [entries[0]] + Put(entries[1..], key, order)
  }

  function OrderOf(i: OpenIntent): PendingOrder {
    PendingOrder(i.symbol, i.buy, Remaining(i), i.id)
  }

  function KeyFor(entries: seq<Entry>, i: OpenIntent): string {
    if HasKey(entries, i.symbol) then i.id else i.symbol
  }

  /** The pending orders of some intents, in the order given. */
  function Pending(intents: seq<OpenIntent>, portfolio: string, account: Option<string>): seq<Entry> {
    if intents == [] then []
    else
      var n := |intents| - 1;
      var earlier := Pending(intents[..n], portfolio, account);
      if Working(intents[n], portfolio, account)
      then Put(earlier, KeyFor(earlier, intents[n]), OrderOf(intents[n])) else earlier
  }

  /** The pending part of build_portfolio_context as it runs. */
  method BuildPending(intents: seq<OpenIntent>, portfolio: string, account: Option<string>)
    returns (pending: seq<Entry>)
    ensures pending == Pending(intents, portfolio, account)
  {
    pending := [];
    for n := 0 to |intents|
      invariant pending == Pending(intents[..n], portfolio, account)
    {
      assert intents[..n + 1][..n] == intents[..n];
      var i := intents[n];
      if i.portfolio != portfolio {
        continue;
      }
      if account.Some? && i.account != account.value {
        continue;
      }
      var remaining := Max(0.0, i.requested - i.filled);
      if remaining <= 0.0 {
        continue;
      }
      var key := if HasKey(pending, i.symbol) then i.id else i.symbol;
      pending := Put(pending, key, PendingOrder(i.symbol, i.buy, remaining, i.id));
    }
    assert intents[..|intents|] == intents;
  }

  // ---- What is pending of a symbol ----

  function QuantityFor(symbol: string, buy: bool): Entry -> real {
    (e: Entry) => if e.order.symbol == symbol && e.order.buy == buy then e.order.quantity else 0.0
  }

  /** PortfolioContext.pending_quantity. */
  function PendingQuantity(entries: seq<Entry>, symbol: string, buy: bool): real {
    SeqSum(entries, QuantityFor(symbol, buy))
  }

  function RemainingFor(portfolio: string, account: Option<string>, symbol: string, buy: bool): OpenIntent -> real {
    (i: OpenIntent) => if Working(i, portfolio, account) && i.symbol == symbol && i.buy == buy then Remaining(i)
        else 0.0
  }

  // ---- One more order ----

  lemma {:induction false} PutFresh(entries: seq<Entry>, key: string, order: PendingOrder)
    requires !HasKey(entries, key)
    ensures Put(entries, key, order) == entries + [Entry(key, order)]
    decreases |entries|
  {
    if entries != [] {
      assert entries[0].key != key;
      TailKeys(entries, key);
      PutFresh(entries[1..], key, order);
    }
  }

  lemma TailKeys(entries: seq<Entry>, key: string)
    requires entries != []
    ensures HasKey(entries, key) <==> entries[0].key == key || HasKey(entries[1..], key)
  {
    if HasKey(entries, key) && entries[0].key != key {
      var k :| 0 <= k < |entries| && entries[k].key == key;
      assert entries[1..][k - 1].key == key;
    }
    if HasKey(entries[1..], key) {
      var k :| 0 <= k < |entries[1..]| && entries[1..][k].key == key;
      assert entries[k + 1].key == key;
    }
  }

  /** The order a key stands for. */
  function Taken(entries: seq<Entry>, key: string): (e: Entry)
    requires HasKey(entries, key)
    ensures e in entries && e.key == key
  {
    TailKeys(entries, key);
    if entries[0].key == key then entries[0] else Taken(entries[1..], key)
  }

  lemma SumFront(e: Entry, rest: seq<Entry>, w: Entry -> real)
    ensures SeqSum([e] + rest, w) == w(e) + SeqSum(rest, w)
  {
    SeqSumConcat([e], rest, w);
    assert [e] == [] + [e];
    SeqSumPush([], e, w);
  }

  /** Setting a key that is taken puts one order in the place of another. */
  lemma {:induction false} PutReplaces(entries: seq<Entry>, key: string, order: PendingOrder, w: Entry -> real)
    requires HasKey(entries, key)
    ensures SeqSum(Put(entries, key, order), w)
            == SeqSum(entries, w) - w(Taken(entries, key)) + w(Entry(key, order))
    decreases |entries|
  {
    var head, rest := entries[0], entries[1..];
    assert entries == [head] + rest;
    TailKeys(entries, key);
    SumFront(head, rest, w);
    if head.key == key {
      SumFront(Entry(key, order), rest, w);
    } else {
      PutReplaces(rest, key, order, w);
      SumFront(head, Put(rest, key, order), w);
    }
  }

  ghost predicate AllRemain(entries: seq<Entry>) {
    forall k :: 0 <= k < |entries| ==> entries[k].order.quantity > 0.0
  }

  lemma {:induction false} PutRemains(entries: seq<Entry>, key: string, order: PendingOrder)
    requires AllRemain(entries) && order.quantity > 0.0
    ensures AllRemain(Put(entries, key, order))
    decreases |entries|
  {
    if entries != [] && entries[0].key != key {
      assert AllRemain(entries[1..]);
      PutRemains(entries[1..], key, order);
    }
  }

  lemma {:induction false} PendingRemains(intents: seq<OpenIntent>, portfolio: string, account: Option<string>)
    ensures AllRemain(Pending(intents, portfolio, account))
  {
    if intents != [] {
      var n := |intents| - 1;
      PendingRemains(intents[..n], portfolio, account);
      var earlier := Pending(intents[..n], portfolio, account);
      if Working(intents[n], portfolio, account) {
        PutRemains(earlier, KeyFor(earlier, intents[n]), OrderOf(intents[n]));
      }
    }
  }

  /** What an intent's order takes the place of on one side of one symbol. */
  function Displaced(earlier: seq<Entry>, next: OpenIntent, symbol: string, buy: bool): real {
    var key := KeyFor(earlier, next);
    if HasKey(earlier, key) then QuantityFor(symbol, buy)(Taken(earlier, key)) else 0.0
  }

  /** One more working intent adds what remains of it, less what it displaces. */
  lemma OneMore(earlier: seq<Entry>, next: OpenIntent, portfolio: string, account: Option<string>, symbol: string,
                buy: bool)
    requires Working(next, portfolio, account)
    ensures
      var after := Put(earlier, KeyFor(earlier, next), OrderOf(next));
      PendingQuantity(after, symbol, buy) == PendingQuantity(earlier, symbol, buy)
        + RemainingFor(portfolio, account, symbol, buy)(next) - Displaced(earlier, next, symbol, buy)
  {
    var key, order, w := KeyFor(earlier, next), OrderOf(next), QuantityFor(symbol, buy);
    hide KeyFor, HasKey, Put, SeqSum, Taken;
    if HasKey(earlier, key) {
      PutReplaces(earlier, key, order, w);
    } else {
      PutFresh(earlier, key, order);
      SeqSumPush(earlier, Entry(key, order), w);
    }
  }

  // ---- When an order is lost ----

  /** Each working intent, as it is placed, goes under a key that is not taken. */
  ghost predicate KeysFresh(intents: seq<OpenIntent>, portfolio: string, account: Option<string>) {
    intents == []
    || var n := |intents| - 1;
       var earlier := Pending(intents[..n], portfolio, account);
       && KeysFresh(intents[..n], portfolio, account)
       && (Working(intents[n], portfolio, account) ==> !HasKey(earlier, KeyFor(earlier, intents[n])))
  }

  /** What remains on a side of a symbol and is not told. */
  function Untold(intents: seq<OpenIntent>, portfolio: string, account: Option<string>, symbol: string,
                  buy: bool): real {
    SeqSum(intents, RemainingFor(portfolio, account, symbol, buy))
    - PendingQuantity(Pending(intents, portfolio, account), symbol, buy)
  }

  lemma UntoldNext(intents: seq<OpenIntent>, portfolio: string, account: Option<string>, symbol: string, buy: bool)
    requires intents != []
    ensures
      var n := |intents| - 1;
      var earlier := Pending(intents[..n], portfolio, account);
      Untold(intents, portfolio, account, symbol, buy) == Untold(intents[..n], portfolio, account, symbol, buy)
        + if Working(intents[n], portfolio, account) then Displaced(earlier, intents[n], symbol, buy) else 0.0
  {
    hide Displaced, KeyFor, Put;
    var n := |intents| - 1;
    if Working(intents[n], portfolio, account) {
      OneMore(Pending(intents[..n], portfolio, account), intents[n], portfolio, account, symbol, buy);
    }
  }

  lemma NeverGained(earlier: seq<Entry>, next: OpenIntent, symbol: string, buy: bool)
    requires AllRemain(earlier)
    ensures Displaced(earlier, next, symbol, buy) >= 0.0
  {
  }

  /** A strategy is never told that more is pending than remains. */
  lemma {:induction false} NeverOverstated(intents: seq<OpenIntent>, portfolio: string, account: Option<string>,
                                           symbol: string, buy: bool)
    ensures PendingQuantity(Pending(intents, portfolio, account), symbol, buy)
            <= SeqSum(intents, RemainingFor(portfolio, account, symbol, buy))
  {
    if intents != [] {
      var n := |intents| - 1;
      NeverOverstated(intents[..n], portfolio, account, symbol, buy);
      UntoldNext(intents, portfolio, account, symbol, buy);
      PendingRemains(intents[..n], portfolio, account);
      NeverGained(Pending(intents[..n], portfolio, account), intents[n], symbol, buy);
    }
  }

  lemma {:induction false} FreshTold(intents: seq<OpenIntent>, portfolio: string, account: Option<string>,
                                     symbol: string, buy: bool)
    requires KeysFresh(intents, portfolio, account)
    ensures Untold(intents, portfolio, account, symbol, buy) == 0.0
  {
    if intents != [] {
      FreshTold(intents[..|intents| - 1], portfolio, account, symbol, buy);
      UntoldNext(intents, portfolio, account, symbol, buy);
    }
  }

  /** An order placed under a taken key leaves some of what remains untold for good. */
  lemma {:induction false} TakenUntold(intents: seq<OpenIntent>, portfolio: string, account: Option<string>)
    requires !KeysFresh(intents, portfolio, account)
    ensures exists symbol, buy :: Untold(intents, portfolio, account, symbol, buy) > 0.0
  {
    var n := |intents| - 1;
    var head, next := intents[..n], intents[n];
    var earlier := Pending(head, portfolio, account);
    PendingRemains(head, portfolio, account);
    hide Untold;
    if !KeysFresh(head, portfolio, account) {
      TakenUntold(head, portfolio, account);
      var symbol, buy :| Untold(head, portfolio, account, symbol, buy) > 0.0;
      UntoldNext(intents, portfolio, account, symbol, buy);
      NeverGained(earlier, next, symbol, buy);
      assert Untold(intents, portfolio, account, symbol, buy) > 0.0;
    } else {
      var lost := Taken(earlier, KeyFor(earlier, next)).order;
      FreshTold(head, portfolio, account, lost.symbol, lost.buy);
      UntoldNext(intents, portfolio, account, lost.symbol, lost.buy);
      assert Untold(intents, portfolio, account, lost.symbol, lost.buy) > 0.0;
    }
  }

  /**
   What a strategy is told is pending is, for every symbol and side, all that
   remains of the portfolio's working intents, if and only if each of them is
   placed under a key not taken.
   */
  lemma ToldInFullIff(intents: seq<OpenIntent>, portfolio: string, account: Option<string>)
    ensures (forall symbol, buy :: PendingQuantity(Pending(intents, portfolio, account), symbol, buy)
                                   == SeqSum(intents, RemainingFor(portfolio, account, symbol, buy)))
            <==> KeysFresh(intents, portfolio, account)
  {
    hide Pending, SeqSum, KeysFresh;
    if KeysFresh(intents, portfolio, account) {
      forall symbol, buy
        ensures PendingQuantity(Pending(intents, portfolio, account), symbol, buy)
                == SeqSum(intents, RemainingFor(portfolio, account, symbol, buy))
      {
        FreshTold(intents, portfolio, account, symbol, buy);
      }
    } else {
      TakenUntold(intents, portfolio, account);
      var symbol, buy :| Untold(intents, portfolio, account, symbol, buy) > 0.0;
      assert PendingQuantity(Pending(intents, portfolio, account), symbol, buy)
             != SeqSum(intents, RemainingFor(portfolio, account, symbol, buy));
    }
  }

  // ---- Identities that are nobody's symbol ----

  /** Recommendations have identities of their own, none of them another's symbol. */
  ghost predicate OwnIds(intents: seq<OpenIntent>) {
    forall i, j :: 0 <= i < |intents| && 0 <= j < |intents| && i != j ==>
      intents[i].id != intents[j].id && intents[i].id != intents[j].symbol
  }

  /** Every key is the symbol or the identity of some intent. */
  ghost predicate KeysFrom(entries: seq<Entry>, intents: seq<OpenIntent>) {
    forall k :: 0 <= k < |entries| ==>
      exists i :: 0 <= i < |intents| && (entries[k].key == intents[i].symbol || entries[k].key == intents[i].id)
  }

  /** The key an intent goes under is not taken. */
  lemma KeyIsFresh(entries: seq<Entry>, intents: seq<OpenIntent>, next: OpenIntent)
    requires KeysFrom(entries, intents) && OwnIds(intents + [next])
    ensures !HasKey(entries, KeyFor(entries, next))
  {
    var all := intents + [next];
    forall k | 0 <= k < |entries|
      ensures entries[k].key != next.id
    {
      var i :| 0 <= i < |intents| && (entries[k].key == intents[i].symbol || entries[k].key == intents[i].id);
      assert all[i] == intents[i] && all[|intents|] == next;
    }
  }

  lemma KeysWiden(entries: seq<Entry>, intents: seq<OpenIntent>, next: OpenIntent)
    requires KeysFrom(entries, intents)
    ensures KeysFrom(entries, intents + [next])
    ensures KeysFrom(entries + [Entry(KeyFor(entries, next), OrderOf(next))], intents + [next])
  {
    var all, grown := intents + [next], entries + [Entry(KeyFor(entries, next), OrderOf(next))];
    assert all[|intents|] == next;
    forall k | 0 <= k < |entries|
      ensures exists i :: 0 <= i < |all| && (grown[k].key == all[i].symbol || grown[k].key == all[i].id)
    {
      var i :| 0 <= i < |intents| && (entries[k].key == intents[i].symbol || entries[k].key == intents[i].id);
      assert all[i] == intents[i] && grown[k] == entries[k];
    }
    assert forall k :: 0 <= k < |entries| ==> entries[k] == grown[k];
    hide OrderOf, HasKey;
  }

  lemma {:induction false} OwnIdsFresh(intents: seq<OpenIntent>, portfolio: string, account: Option<string>)
    requires OwnIds(intents)
    ensures KeysFresh(intents, portfolio, account)
    ensures KeysFrom(Pending(intents, portfolio, account), intents)
  {
    if intents != [] {
      var n := |intents| - 1;
      var head, next := intents[..n], intents[n];
      assert intents == head + [next];
      assert OwnIds(head) by {
        assert forall i :: 0 <= i < |head| ==> head[i] == intents[i];
      }
      OwnIdsFresh(head, portfolio, account);
      var earlier := Pending(head, portfolio, account);
      hide OwnIds, HasKey, KeysFrom, Working, Put;
      KeysWiden(earlier, head, next);
      if Working(next, portfolio, account) {
        KeyIsFresh(earlier, head, next);
        PutFresh(earlier, KeyFor(earlier, next), OrderOf(next));
      }
    }
  }

  /** So with identities of their own no order is lost to another's key. */
  lemma PendingIsRemaining(intents: seq<OpenIntent>, portfolio: string, account: Option<string>, symbol: string,
                           buy: bool)
    requires OwnIds(intents)
    ensures PendingQuantity(Pending(intents, portfolio, account), symbol, buy)
            == SeqSum(intents, RemainingFor(portfolio, account, symbol, buy))
  {
    OwnIdsFresh(intents, portfolio, account);
    hide OwnIds, Pending, SeqSum, KeysFresh;
    ToldInFullIff(intents, portfolio, account);
  }

  // ---- The context, order by order ----

  /** An intent with something left to fill, of the portfolio, and of the account if one is named. */
  predicate Open(i: OpenIntent, portfolio: string, account: Option<string>) {
    i.portfolio == portfolio && (account.Some? ==> account.value == i.account) && i.requested > i.filled
  }

  /** A symbol some open intent has. */
  ghost predicate SymbolTaken(intents: seq<OpenIntent>, portfolio: string, account: Option<string>, symbol: string) {
    exists k :: 0 <= k < |intents| && intents[k].symbol == symbol && Open(intents[k], portfolio, account)
  }

  /** The open intents in order, the first of a symbol under the symbol and each later one under its own identity. */
  ghost function Listed(intents: seq<OpenIntent>, portfolio: string, account: Option<string>): seq<Entry> {
    if intents == [] then []
    else
      var n := |intents| - 1;
      var i := intents[n];
      Listed(intents[..n], portfolio, account)
      + if !Open(i, portfolio, account) then []
        else
          [Entry(if SymbolTaken(intents[..n], portfolio, account, i.symbol) then i.id else i.symbol,
                 PendingOrder(i.symbol, i.buy, i.requested - i.filled, i.id))]
  }

  lemma OpenIsWorking(i: OpenIntent, portfolio: string, account: Option<string>)
    ensures Open(i, portfolio, account) <==> Working(i, portfolio, account)
    ensures Open(i, portfolio, account) ==> OrderOf(i) == PendingOrder(i.symbol, i.buy, i.requested - i.filled, i.id)
  {
  }

  /** A key is a symbol an open intent has, or the identity of one. */
  ghost predicate KeysListed(entries: seq<Entry>, intents: seq<OpenIntent>, portfolio: string,
                             account: Option<string>) {
    && (forall symbol :: SymbolTaken(intents, portfolio, account, symbol) ==> HasKey(entries, symbol))
    && (forall k :: 0 <= k < |entries| ==>
          || SymbolTaken(intents, portfolio, account, entries[k].key)
          || exists i :: 0 <= i < |intents| && intents[i].id == entries[k].key)
  }

  lemma TakenMore(intents: seq<OpenIntent>, next: OpenIntent, portfolio: string, account: Option<string>,
                  symbol: string)
    ensures SymbolTaken(intents + [next], portfolio, account, symbol) <==>
            SymbolTaken(intents, portfolio, account, symbol)
                || (next.symbol == symbol && Open(next, portfolio, account))
  {
    var all := intents + [next];
    hide Open;
    if SymbolTaken(intents, portfolio, account, symbol) {
      var k :| 0 <= k < |intents| && intents[k].symbol == symbol && Open(intents[k], portfolio, account);
      assert all[k] == intents[k];
    }
    if next.symbol == symbol && Open(next, portfolio, account) {
      assert all[|intents|] == next;
    }
  }

  /** With identities of their own the key an open intent goes under is its symbol exactly when that is still free. */
  lemma KeyIs(entries: seq<Entry>, intents: seq<OpenIntent>, next: OpenIntent, portfolio: string,
              account: Option<string>)
    requires OwnIds(intents + [next]) && KeysListed(entries, intents, portfolio, account)
    ensures HasKey(entries, next.symbol) <==> SymbolTaken(intents, portfolio, account, next.symbol)
  {
    hide Open;
    var all := intents + [next];
    assert all[|intents|] == next;
    forall i | 0 <= i < |intents|
      ensures intents[i].id != next.symbol
    {
      assert all[i] == intents[i];
    }
  }

  lemma KeysListedMore(entries: seq<Entry>, intents: seq<OpenIntent>, next: OpenIntent, portfolio: string,
                       account: Option<string>, key: string, order: PendingOrder)
    requires KeysListed(entries, intents, portfolio, account) && Open(next, portfolio, account)
    requires key == if SymbolTaken(intents, portfolio, account, next.symbol) then next.id else next.symbol
    ensures KeysListed(entries + [Entry(key, order)], intents + [next], portfolio, account)
  {
    hide Open, SymbolTaken;
    var grown, all := entries + [Entry(key, order)], intents + [next];
    assert all[|intents|] == next;
    assert forall i :: 0 <= i < |intents| ==> all[i] == intents[i];
    forall symbol
      ensures SymbolTaken(all, portfolio, account, symbol) <==>
              SymbolTaken(intents, portfolio, account, symbol) || next.symbol == symbol
      ensures HasKey(entries, symbol) ==> HasKey(grown, symbol)
    {
      TakenMore(intents, next, portfolio, account, symbol);
      if HasKey(entries, symbol) {
        var k :| 0 <= k < |entries| && entries[k].key == symbol;
        assert grown[k].key == symbol;
      }
    }
    assert grown[|entries|].key == key;
    assert HasKey(grown, next.symbol);
    assert forall k :: 0 <= k < |entries| ==> grown[k] == entries[k];
  }

  lemma KeysListedSame(entries: seq<Entry>, intents: seq<OpenIntent>, next: OpenIntent, portfolio: string,
                       account: Option<string>)
    requires KeysListed(entries, intents, portfolio, account) && !Open(next, portfolio, account)
    ensures KeysListed(entries, intents + [next], portfolio, account)
  {
    hide Open, SymbolTaken;
    var all := intents + [next];
    assert forall i :: 0 <= i < |intents| ==> all[i] == intents[i];
    forall symbol
      ensures SymbolTaken(all, portfolio, account, symbol) <==> SymbolTaken(intents, portfolio, account, symbol)
    {
      TakenMore(intents, next, portfolio, account, symbol);
    }
  }

  lemma PendingNext(head: seq<OpenIntent>, next: OpenIntent, portfolio: string, account: Option<string>)
    ensures
      var earlier := Pending(head, portfolio, account);
      Pending(head + [next], portfolio, account)
      == if Working(next, portfolio, account) then Put(earlier, KeyFor(earlier, next), OrderOf(next)) else earlier
  {
    assert (head + [next])[..|head|] == head;
  }

  lemma ListedNext(head: seq<OpenIntent>, next: OpenIntent, portfolio: string, account: Option<string>)
    ensures
      var key := if SymbolTaken(head, portfolio, account, next.symbol) then next.id else next.symbol;
      Listed(head + [next], portfolio, account)
      == Listed(head, portfolio, account)
         + if !Open(next, portfolio, account) then []
           else [Entry(key, PendingOrder(next.symbol, next.buy, next.requested - next.filled, next.id))]
  {
    assert (head + [next])[..|head|] == head;
    hide SymbolTaken, Open;
  }

  lemma OwnIdsHead(head: seq<OpenIntent>, next: OpenIntent)
    requires OwnIds(head + [next])
    ensures OwnIds(head)
  {
    assert forall i :: 0 <= i < |head| ==> head[i] == (head + [next])[i];
  }

  /** With identities of their own the context lists exactly the open intents, each as it stands. */
  lemma {:induction false} PendingListed(intents: seq<OpenIntent>, portfolio: string, account: Option<string>)
    requires OwnIds(intents)
    ensures Pending(intents, portfolio, account) == Listed(intents, portfolio, account)
    ensures KeysListed(Pending(intents, portfolio, account), intents, portfolio, account)
  {
    if intents != [] {
      var n := |intents| - 1;
      var head, next := intents[..n], intents[n];
      assert intents == head + [next];
      hide OwnIds, HasKey, KeysFrom, Working, Open, Put, KeysListed, SymbolTaken, OrderOf, Pending, Listed;
      OwnIdsHead(head, next);
      PendingListed(head, portfolio, account);
      var earlier := Pending(head, portfolio, account);
      PendingNext(head, next, portfolio, account);
      ListedNext(head, next, portfolio, account);
      OpenIsWorking(next, portfolio, account);
      OwnIdsFresh(head, portfolio, account);
      if Working(next, portfolio, account) {
        KeyIsFresh(earlier, head, next);
        KeyIs(earlier, head, next, portfolio, account);
        PutFresh(earlier, KeyFor(earlier, next), OrderOf(next));
        KeysListedMore(earlier, head, next, portfolio, account, KeyFor(earlier, next), OrderOf(next));
      } else {
        KeysListedSame(earlier, head, next, portfolio, account);
      }
    }
  }
}
