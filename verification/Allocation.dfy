// The fills of a cleared batch: they move exactly the matched volume, respect
// every limit, conserve quote up to truncation, and do not depend on the order
// in which the orders arrived.
module Allocation {
  import opened Types
  import opened Arithmetic
  import opened Sums
  import opened Auction
  import opened AuctionTheorems
  import opened Efficiency

  function Base(): Fill -> int {
    (x: Fill) => x.base
  }

  function Quote(): Fill -> int {
    (x: Fill) => x.quote
  }

  function One<T>(): T -> int {
    (_: T) => 1
  }

  function OfTrader(t: Address): Fill -> bool {
    (x: Fill) => x.trader == t
  }

  // --- Aggregation -----------------------------------------------------------

  // f adds up when two trades of one trader are merged.
  ghost predicate Additive(f: Fill -> int) {
    forall x: Fill, y: Fill :: Merges(f, x, y)
  }

  ghost predicate Merges(f: Fill -> int, x: Fill, y: Fill) {
    x.trader == y.trader ==> f(x) + f(y) == f(Fill(x.trader, x.base + y.base, x.quote + y.quote))
  }

  lemma PositionsAreAdditive(t: Address)
    ensures Additive(Base()) && Additive(Quote())
    ensures Additive(Masked(OfTrader(t), Base())) && Additive(Masked(OfTrader(t), Quote()))
  {
  }

  lemma {:induction false} PostSum(fills: seq<Fill>, x: Fill, f: Fill -> int)
    requires Additive(f)
    ensures Sum(Post(fills, x), f) == Sum(fills, f) + f(x)
  {
    if fills != [] && fills[0].trader != x.trader {
      PostSum(fills[1..], x, f);
    } else if fills != [] {
      assert Merges(f, fills[0], x);
      assert Post(fills, x)[1..] == fills[1..];
    }
  }

  lemma {:induction false} PostAllSum(fills: seq<Fill>, trades: seq<Fill>, f: Fill -> int)
    requires Additive(f)
    ensures Sum(PostAll(fills, trades), f) == Sum(fills, f) + Sum(trades, f)
    decreases |trades|
  {
    if trades != [] {
      PostSum(fills, trades[0], f);
      PostAllSum(Post(fills, trades[0]), trades[1..], f);
    }
  }

  function Traders(fills: seq<Fill>): set<Address> {
    if fills == [] then {} else {fills[0].trader} + Traders(fills[1..])
  }

  predicate DistinctTraders(fills: seq<Fill>) {
    fills != [] ==> fills[0].trader !in Traders(fills[1..]) && DistinctTraders(fills[1..])
  }

  lemma {:induction false} TradersAre(fills: seq<Fill>)
    ensures forall x :: x in fills ==> x.trader in Traders(fills)
    ensures DistinctTraders(fills) ==>
      forall i, j :: 0 <= i < j < |fills| ==> fills[i].trader != fills[j].trader
  {
    if fills != [] {
      TradersAre(fills[1..]);
      assert forall x :: x in fills <==> x == fills[0] || x in fills[1..];
      if DistinctTraders(fills) {
        forall i, j | 0 <= i < j < |fills|
          ensures fills[i].trader != fills[j].trader
        {
          assert fills[j] == fills[1..][j - 1] && fills[1..][j - 1] in fills[1..];
          if i > 0 {
            assert fills[i] == fills[1..][i - 1];
          }
        }
      }
    }
  }

  lemma {:induction false} PostTraders(fills: seq<Fill>, x: Fill)
    ensures Traders(Post(fills, x)) == Traders(fills) + {x.trader}
    ensures DistinctTraders(fills) ==> DistinctTraders(Post(fills, x))
  {
    if fills != [] {
      PostTraders(fills[1..], x);
      assert Post(fills, x)[1..] == if fills[0].trader == x.trader then fills[1..] else Post(fills[1..], x);
    }
  }

  lemma {:induction false} PostAllTraders(fills: seq<Fill>, trades: seq<Fill>)
    ensures Traders(PostAll(fills, trades)) == Traders(fills) + Traders(trades)
    ensures DistinctTraders(fills) ==> DistinctTraders(PostAll(fills, trades))
    decreases |trades|
  {
    if trades != [] {
      PostTraders(fills, trades[0]);
      PostAllTraders(Post(fills, trades[0]), trades[1..]);
    }
  }

  lemma {:induction false} TradersAppend(a: seq<Fill>, b: seq<Fill>)
    ensures Traders(a + b) == Traders(a) + Traders(b)
  {
    if a == [] {
      assert a + b == b;
    } else {
      assert (a + b)[1..] == a[1..] + b;
      TradersAppend(a[1..], b);
    }
  }

  lemma {:induction false} AbsentIsZero(fills: seq<Fill>, t: Address, f: Fill -> int)
    requires t !in Traders(fills)
    ensures Sum(fills, Masked(OfTrader(t), f)) == 0
  {
    if fills != [] {
      AbsentIsZero(fills[1..], t, f);
    }
  }

  // With distinct traders, a trader's entry is the whole of its position.
  lemma {:induction false} EntryIsPosition(fills: seq<Fill>, x: Fill, f: Fill -> int)
    requires DistinctTraders(fills) && x in fills
    ensures Sum(fills, Masked(OfTrader(x.trader), f)) == f(x)
  {
    if fills[0] == x {
      AbsentIsZero(fills[1..], x.trader, f);
    } else {
      assert x in fills[1..];
      TradersAre(fills[1..]);
      EntryIsPosition(fills[1..], x, f);
    }
  }

  // --- Per-order fills -------------------------------------------------------

  // f summed over what each order of a side trades.
  function PerOrder(side: seq<Order>, takes: seq<nat>, price: int, buy: bool, f: Fill -> int): int
    requires |takes| == |side|
  {
    if side == [] then 0
    else f(Trade(side[0], takes[0], price, buy)) + PerOrder(side[1..], takes[1..], price, buy, f)
  }

  lemma NoTradeWeighsNothing(o: Order, price: int, buy: bool, f: Fill -> int)
    requires Additive(f)
    ensures f(Trade(o, 0, price, buy)) == 0
  {
    var x := Trade(o, 0, price, buy);
    assert QuoteFor(0, price) == 0;
    assert Merges(f, x, x);
  }

  lemma {:induction false} TradesPerOrder(side: seq<Order>, volume: nat, price: int, buy: bool, f: Fill -> int)
    requires Additive(f)
    ensures Sum(Trades(side, volume, price, buy), f) == PerOrder(side, Takes(side, volume), price, buy, f)
  {
    if side != [] {
      var take: nat := Min(volume, side[0].size);
      TradesPerOrder(side[1..], volume - take, price, buy, f);
      NoTradeWeighsNothing(side[0], price, buy, f);
      var head := if take == 0 then [] else [Trade(side[0], take, price, buy)];
      SumAppend(head, Trades(side[1..], volume - take, price, buy), f);
      assert Sum(head, f) == f(Trade(side[0], take, price, buy));
    }
  }

  lemma {:induction false} PerOrderBase(side: seq<Order>, takes: seq<nat>, price: int, buy: bool)
    requires |takes| == |side|
    ensures PerOrder(side, takes, price, buy, Base()) == if buy then Sum(takes, Nat()) else -Sum(takes, Nat())
  {
    if side != [] {
      PerOrderBase(side[1..], takes[1..], price, buy);
    }
  }

  // Orders of a side that trade.
  function Touched(takes: seq<nat>): nat {
    if takes == [] then 0 else (if takes[0] > 0 then 1 else 0) + Touched(takes[1..])
  }

  lemma {:induction false} TradesCount(side: seq<Order>, volume: nat, price: int, buy: bool)
    ensures |Trades(side, volume, price, buy)| == Touched(Takes(side, volume))
  {
    if side != [] {
      TradesCount(side[1..], volume - Min(volume, side[0].size), price, buy);
    }
  }

  // Traders with an order of the side that trades.
  ghost predicate Trading(side: seq<Order>, takes: seq<nat>, t: Address)
    requires |takes| == |side|
  {
    exists k :: 0 <= k < |side| && side[k].trader == t && takes[k] > 0
  }

  lemma TradingHead(side: seq<Order>, takes: seq<nat>, t: Address)
    requires |takes| == |side| > 0
    ensures Trading(side, takes, t) <==>
      (side[0].trader == t && takes[0] > 0) || Trading(side[1..], takes[1..], t)
  {
    if Trading(side[1..], takes[1..], t) {
      var k :| 0 <= k < |side[1..]| && side[1..][k].trader == t && takes[1..][k] > 0;
      assert side[k + 1].trader == t && takes[k + 1] > 0;
    }
    if Trading(side, takes, t) {
      var k :| 0 <= k < |side| && side[k].trader == t && takes[k] > 0;
      if k > 0 {
        assert side[1..][k - 1].trader == t && takes[1..][k - 1] > 0;
      }
    }
  }

  // A trader is named exactly when one of its orders trades.
  lemma {:induction false} TradesName(side: seq<Order>, volume: nat, price: int, buy: bool, t: Address)
    ensures t in Traders(Trades(side, volume, price, buy)) <==> Trading(side, Takes(side, volume), t)
  {
    if side != [] {
      var take: nat := Min(volume, side[0].size);
      TradesName(side[1..], volume - take, price, buy, t);
      TradingHead(side, Takes(side, volume), t);
      TradersAppend(if take == 0 then [] else [Trade(side[0], take, price, buy)],
                    Trades(side[1..], volume - take, price, buy));
    }
  }

  // What a trader's entry must be: the sum over both sides of its orders.
  function NetOf(buys: seq<Order>, sells: seq<Order>, volume: nat, price: int, f: Fill -> int): int {
    PerOrder(buys, Takes(buys, volume), price, true, f) + PerOrder(sells, Takes(sells, volume), price, false, f)
  }

  lemma FillsSum(os: seq<Order>, price: int, volume: nat, fills: seq<Fill>, unmatched: int,
                 buys: seq<Order>, sells: seq<Order>, f: Fill -> int)
    requires Allocates(os, price, volume, fills, unmatched, buys, sells) && Additive(f)
    ensures Sum(fills, f) == NetOf(buys, sells, volume, price, f)
    ensures Sum(fills, f) == Sum(Trades(buys, volume, price, true), f) + Sum(Trades(sells, volume, price, false), f)
  {
    PostAllSum([], AllTrades(buys, sells, volume, price), f);
    SumAppend(Trades(buys, volume, price, true), Trades(sells, volume, price, false), f);
    TradesPerOrder(buys, volume, price, true, f);
    TradesPerOrder(sells, volume, price, false, f);
  }

  // Each side trades exactly the volume, so base nets to zero.
  lemma BaseConserved(os: seq<Order>, price: int, fills: seq<Fill>, unmatched: int, buys: seq<Order>, sells: seq<Order>)
    requires Matched(os, price) >= 0
    requires Allocates(os, price, Matched(os, price), fills, unmatched, buys, sells)
    ensures Sum(Takes(buys, Matched(os, price)), Nat()) == Matched(os, price)
    ensures Sum(Takes(sells, Matched(os, price)), Nat()) == Matched(os, price)
    ensures Sum(fills, Base()) == 0
  {
    var v: nat := Matched(os, price);
    SideTakes(os, price, buys, true);
    SideTakes(os, price, sells, false);
    PositionsAreAdditive(0);
    FillsSum(os, price, v, fills, unmatched, buys, sells, Base());
    PerOrderBase(buys, Takes(buys, v), price, true);
    PerOrderBase(sells, Takes(sells, v), price, false);
  }

  // The fills list distinct traders, exactly those with an order that traded,
  // each with the sum of its per-order fills.
  lemma FillsAggregate(os: seq<Order>, price: int, volume: nat, fills: seq<Fill>, unmatched: int,
                       buys: seq<Order>, sells: seq<Order>)
    requires Allocates(os, price, volume, fills, unmatched, buys, sells)
    ensures DistinctTraders(fills)
    ensures forall t :: t in Traders(fills) <==>
      Trading(buys, Takes(buys, volume), t) || Trading(sells, Takes(sells, volume), t)
    ensures forall x :: x in fills ==>
      && x.base == NetOf(buys, sells, volume, price, Masked(OfTrader(x.trader), Base()))
      && x.quote == NetOf(buys, sells, volume, price, Masked(OfTrader(x.trader), Quote()))
  {
    var tb, ts := Trades(buys, volume, price, true), Trades(sells, volume, price, false);
    PostAllTraders([], tb + ts);
    TradersAppend(tb, ts);
    forall t
      ensures t in Traders(fills) <==>
        Trading(buys, Takes(buys, volume), t) || Trading(sells, Takes(sells, volume), t)
    {
      TradesName(buys, volume, price, true, t);
      TradesName(sells, volume, price, false, t);
    }
    forall x | x in fills
      ensures x.base == NetOf(buys, sells, volume, price, Masked(OfTrader(x.trader), Base()))
      ensures x.quote == NetOf(buys, sells, volume, price, Masked(OfTrader(x.trader), Quote()))
    {
      PositionsAreAdditive(x.trader);
      EntryIsPosition(fills, x, Base());
      EntryIsPosition(fills, x, Quote());
      FillsSum(os, price, volume, fills, unmatched, buys, sells, Masked(OfTrader(x.trader), Base()));
      FillsSum(os, price, volume, fills, unmatched, buys, sells, Masked(OfTrader(x.trader), Quote()));
    }
  }

  // What a trader's own orders of a side trade, in base and in quote.
  function OwnBase(side: seq<Order>, takes: seq<nat>, t: Address): nat
    requires |takes| == |side|
  {
    if side == [] then 0
    else (if side[0].trader == t then takes[0] else 0) + OwnBase(side[1..], takes[1..], t)
  }

  function OwnQuote(side: seq<Order>, takes: seq<nat>, price: int, t: Address): int
    requires |takes| == |side|
  {
    if side == [] then 0
    else
      var quote := takes[0] * price / 1_000_000_000_000_000_000;
      (if side[0].trader == t then quote else 0) + OwnQuote(side[1..], takes[1..], price, t)
  }

  lemma {:induction false} PerOrderOwn(side: seq<Order>, takes: seq<nat>, price: int, buy: bool, t: Address)
    requires |takes| == |side|
    ensures PerOrder(side, takes, price, buy, Masked(OfTrader(t), Base()))
         == if buy then OwnBase(side, takes, t) else 0 - OwnBase(side, takes, t)
    ensures PerOrder(side, takes, price, buy, Masked(OfTrader(t), Quote()))
         == if buy then -OwnQuote(side, takes, price, t) else OwnQuote(side, takes, price, t)
  {
    if side != [] {
      PerOrderOwn(side[1..], takes[1..], price, buy, t);
    }
  }

  // A trader's entry: it buys what its buys take and sells what its sells take, and
  // for each of its orders the quote at the one price, rounded down, goes the other way.
  lemma EntryIs(os: seq<Order>, price: int, volume: nat, fills: seq<Fill>, unmatched: int,
                buys: seq<Order>, sells: seq<Order>, x: Fill)
    requires Allocates(os, price, volume, fills, unmatched, buys, sells) && x in fills
    ensures x.base == OwnBase(buys, Takes(buys, volume), x.trader) - OwnBase(sells, Takes(sells, volume), x.trader)
    ensures x.quote == OwnQuote(sells, Takes(sells, volume), price, x.trader)
                     - OwnQuote(buys, Takes(buys, volume), price, x.trader)
  {
    FillsAggregate(os, price, volume, fills, unmatched, buys, sells);
    PerOrderOwn(buys, Takes(buys, volume), price, true, x.trader);
    PerOrderOwn(sells, Takes(sells, volume), price, false, x.trader);
  }

  // --- The order of the fills ------------------------------------------------

  function Names(fills: seq<Fill>): (ns: seq<Address>)
    ensures |ns| == |fills| && forall i :: 0 <= i < |fills| ==> ns[i] == fills[i].trader
  {
    seq(|fills|, i requires 0 <= i < |fills| => fills[i].trader)
  }

  // The traders of the orders that trade, in the order they are filled.
  function TouchedTraders(side: seq<Order>, takes: seq<nat>): seq<Address>
    requires |takes| == |side|
  {
    if side == [] then []
    else (if takes[0] > 0 then [side[0].trader] else []) + TouchedTraders(side[1..], takes[1..])
  }

  // seen, followed by what is new in ns.
  function Unseen(seen: seq<Address>, ns: seq<Address>): seq<Address>
    decreases |ns|
  {
    if ns == [] then seen
    else Unseen(if ns[0] in seen then seen else seen + [ns[0]], ns[1..])
  }

  lemma {:induction false} PostNames(fills: seq<Fill>, x: Fill)
    ensures Names(Post(fills, x))
         == if x.trader in Names(fills) then Names(fills) else Names(fills) + [x.trader]
  {
    if fills == [] {
      assert Names([x]) == [x.trader] == Names(fills) + [x.trader];
    } else {
      assert Names(fills) == [fills[0].trader] + Names(fills[1..]);
      if fills[0].trader != x.trader {
        PostNames(fills[1..], x);
        assert Names(Post(fills, x)) == [fills[0].trader] + Names(Post(fills[1..], x));
      }
    }
  }

  lemma {:induction false} PostAllNames(fills: seq<Fill>, trades: seq<Fill>)
    ensures Names(PostAll(fills, trades)) == Unseen(Names(fills), Names(trades))
    decreases |trades|
  {
    if trades != [] {
      assert Names(trades)[1..] == Names(trades[1..]);
      PostNames(fills, trades[0]);
      PostAllNames(Post(fills, trades[0]), trades[1..]);
    }
  }

  lemma {:induction false} TradesNames(side: seq<Order>, volume: nat, price: int, buy: bool)
    ensures Names(Trades(side, volume, price, buy)) == TouchedTraders(side, Takes(side, volume))
  {
    if side != [] {
      var take: nat := Min(volume, side[0].size);
      TradesNames(side[1..], volume - take, price, buy);
      NamesNext(side, volume, price, buy);
    }
  }

  lemma NamesNext(side: seq<Order>, volume: nat, price: int, buy: bool)
    requires side != []
    ensures var take: nat := Min(volume, side[0].size);
      Names(Trades(side, volume, price, buy))
      == (if take > 0 then [side[0].trader] else []) + Names(Trades(side[1..], volume - take, price, buy))
  {
    var take: nat := Min(volume, side[0].size);
    var rest := Trades(side[1..], volume - take, price, buy);
    if take > 0 {
      NamesCons(Trade(side[0], take, price, buy), rest);
      assert Trades(side, volume, price, buy) == [Trade(side[0], take, price, buy)] + rest;
    } else {
      assert Trades(side, volume, price, buy) == rest;
    }
  }

  lemma NamesAppend(a: seq<Fill>, b: seq<Fill>)
    ensures Names(a + b) == Names(a) + Names(b)
  {
  }

  lemma NamesCons(x: Fill, rest: seq<Fill>)
    ensures Names([x] + rest) == [x.trader] + Names(rest)
  {
  }

  // The fills list the traders in the order they first trade, buys before sells.
  lemma FillsInOrder(os: seq<Order>, price: int, volume: nat, fills: seq<Fill>, unmatched: int,
                     buys: seq<Order>, sells: seq<Order>)
    requires Allocates(os, price, volume, fills, unmatched, buys, sells)
    ensures Names(fills) == Unseen([], TouchedTraders(buys, Takes(buys, volume))
                                       + TouchedTraders(sells, Takes(sells, volume)))
  {
    PostAllNames([], AllTrades(buys, sells, volume, price));
    TradesNames(buys, volume, price, true);
    TradesNames(sells, volume, price, false);
    NamesAppend(Trades(buys, volume, price, true), Trades(sells, volume, price, false));
    assert Names([]) == [];
  }

  // Unmatched is the number of orders that did not trade at all.
  lemma UnmatchedCounts(os: seq<Order>, price: int, volume: nat, fills: seq<Fill>, unmatched: int,
                        buys: seq<Order>, sells: seq<Order>)
    requires Allocates(os, price, volume, fills, unmatched, buys, sells)
    ensures unmatched + Touched(Takes(buys, volume)) + Touched(Takes(sells, volume)) == |os|
    ensures 0 <= unmatched
  {
    TradesCount(buys, volume, price, true);
    TradesCount(sells, volume, price, false);
    CountIsLength(buys);
    CountIsLength(sells);
    CountIsLength(os);
    SideSum(buys, os, price, true, One());
    SideSum(sells, os, price, false, One());
    var both := (o: Order) => Masked(Willing(price, true), One())(o) + Masked(Willing(price, false), One())(o);
    SumSplit(os, both, Masked(Willing(price, true), One()), Masked(Willing(price, false), One()));
    SumLe(os, both, One());
  }

  lemma {:induction false} CountIsLength(os: seq<Order>)
    ensures Sum(os, One()) == |os|
  {
    if os != [] {
      CountIsLength(os[1..]);
    }
  }

  // --- Limits ----------------------------------------------------------------

  // A buy pays at most what its limit allows; a sell earns at least that.
  lemma LimitRespected(os: seq<Order>, price: int, volume: nat, side: seq<Order>, buy: bool, k: nat)
    requires FillOrder(side, os, price, buy) && k < |side|
    ensures side[k] in os && Willing(price, buy)(side[k])
    ensures var take := Takes(side, volume)[k];
      if buy then QuoteFor(take, price) <= QuoteFor(take, side[k].limit)
      else QuoteFor(take, side[k].limit) <= QuoteFor(take, price)
  {
    InSideIffWilling(side, os, price, buy, side[k]);
    var take := Takes(side, volume)[k];
    if buy {
      QuoteMonotone(take, price, side[k].limit);
    } else {
      QuoteMonotone(take, side[k].limit, price);
    }
  }

  // PerOrder with every order trading at its own limit.
  function AtLimits(side: seq<Order>, takes: seq<nat>, buy: bool, f: Fill -> int): int
    requires |takes| == |side|
  {
    if side == [] then 0
    else f(Trade(side[0], takes[0], side[0].limit, buy)) + AtLimits(side[1..], takes[1..], buy, f)
  }

  lemma {:induction false} PriceBeatsLimits(side: seq<Order>, takes: seq<nat>, price: int, buy: bool, t: Address)
    requires |takes| == |side| && forall o :: o in side ==> Accepts(o.limit, price, buy)
    ensures AtLimits(side, takes, buy, Masked(OfTrader(t), Quote()))
         <= PerOrder(side, takes, price, buy, Masked(OfTrader(t), Quote()))
  {
    if side != [] {
      assert forall o :: o in side[1..] ==> o in side;
      PriceBeatsLimits(side[1..], takes[1..], price, buy, t);
      assert side[0] in side;
      if buy {
        QuoteMonotone(takes[0], price, side[0].limit);
      } else {
        QuoteMonotone(takes[0], side[0].limit, price);
      }
    }
  }

  // What a trader's entry must come to at least: its orders' trades at their own limits.
  function LimitsOf(buys: seq<Order>, sells: seq<Order>, volume: nat, t: Address): int {
    AtLimits(buys, Takes(buys, volume), true, Masked(OfTrader(t), Quote()))
    + AtLimits(sells, Takes(sells, volume), false, Masked(OfTrader(t), Quote()))
  }

  // A trader's entry, over all its orders, costs no more and earns no less than
  // their limits allow for the base it moves.
  lemma EntryWithinLimits(os: seq<Order>, price: int, volume: nat, fills: seq<Fill>, unmatched: int,
                          buys: seq<Order>, sells: seq<Order>, x: Fill)
    requires Allocates(os, price, volume, fills, unmatched, buys, sells) && x in fills
    ensures x.base == NetOf(buys, sells, volume, price, Masked(OfTrader(x.trader), Base()))
    ensures x.quote >= LimitsOf(buys, sells, volume, x.trader)
  {
    FillsAggregate(os, price, volume, fills, unmatched, buys, sells);
    SideAccepts(os, price, buys, true);
    SideAccepts(os, price, sells, false);
    PriceBeatsLimits(buys, Takes(buys, volume), price, true, x.trader);
    PriceBeatsLimits(sells, Takes(sells, volume), price, false, x.trader);
  }

  lemma SideAccepts(os: seq<Order>, price: int, side: seq<Order>, buy: bool)
    requires FillOrder(side, os, price, buy)
    ensures forall o :: o in side ==> o in os && Accepts(o.limit, price, buy)
  {
    forall o | o in side
      ensures o in os && Accepts(o.limit, price, buy)
    {
      InSideIffWilling(side, os, price, buy, o);
    }
  }

  lemma QuoteMonotone(take: nat, p: int, q: int)
    requires p <= q
    ensures QuoteFor(take, p) <= QuoteFor(take, q)
  {
    assert take * p <= take * q;
  }

  // No order is filled before one with a better price, or an equal price and a
  // lower ID, is full.
  lemma PriorityRespected(os: seq<Order>, price: int, volume: nat, side: seq<Order>, buy: bool, i: nat, j: nat)
    requires FillOrder(side, os, price, buy) && i < |side| && j < |side| && Takes(side, volume)[j] > 0
    requires || (if buy then side[i].limit > side[j].limit else side[i].limit < side[j].limit)
             || (side[i].limit == side[j].limit && side[i].id < side[j].id)
    ensures Takes(side, volume)[i] == side[i].size
  {
    if i < j {
      FullBeforeTouched(side, volume, i, j);
    }
  }

  // A side has at most one partial fill, and what trades is at the front of it.
  lemma OnePartialFill(side: seq<Order>, volume: nat, i: nat, j: nat)
    requires i < |side| && j < |side| && i != j
    requires Takes(side, volume)[j] > 0 && Takes(side, volume)[i] < side[i].size
    ensures j < i
    ensures Takes(side, volume)[i] == 0 || Takes(side, volume)[j] == side[j].size
  {
    if i < j {
      FullBeforeTouched(side, volume, i, j);
    } else if Takes(side, volume)[i] > 0 {
      FullBeforeTouched(side, volume, j, i);
    }
  }

  // --- Truncation ------------------------------------------------------------

  // What truncation drops from one trade, in units of 1 / PRICE_SCALE.
  function Dropped(price: int): Fill -> int {
    (x: Fill) => Abs(x.base) * price % PRICE_SCALE
  }

  lemma {:induction false} TradesQuote(side: seq<Order>, volume: nat, price: int, buy: bool)
    ensures PRICE_SCALE * Sum(Trades(side, volume, price, buy), Quote())
         + price * Sum(Trades(side, volume, price, buy), Base())
         == var d := Sum(Trades(side, volume, price, buy), Dropped(price)); if buy then d else -d
  {
    if side != [] {
      var take: nat := Min(volume, side[0].size);
      var rest := Trades(side[1..], volume - take, price, buy);
      TradesQuote(side[1..], volume - take, price, buy);
      if take > 0 {
        var x := Trade(side[0], take, price, buy);
        assert Trades(side, volume, price, buy)[1..] == rest;
        assert take * price == PRICE_SCALE * QuoteFor(take, price) + take * price % PRICE_SCALE;
        assert x.base * price == if buy then take * price else -(take * price);
        Distribute(x.base, Sum(rest, Base()), price);
      } else {
        assert Trades(side, volume, price, buy) == rest;
      }
    }
  }

  lemma {:induction false} DroppedBound(trades: seq<Fill>, price: int)
    ensures 0 <= Sum(trades, Dropped(price)) <= |trades| * (PRICE_SCALE - 1)
  {
    if trades != [] {
      DroppedBound(trades[1..], price);
    }
  }

  // The quote residual is exactly the difference of what the two sides drop.
  lemma ResidualIsDropped(os: seq<Order>, price: int, fills: seq<Fill>, unmatched: int, buys: seq<Order>,
                          sells: seq<Order>)
    requires Matched(os, price) >= 0
    requires Allocates(os, price, Matched(os, price), fills, unmatched, buys, sells)
    ensures PRICE_SCALE * Sum(fills, Quote())
         == Sum(Trades(buys, Matched(os, price), price, true), Dropped(price))
          - Sum(Trades(sells, Matched(os, price), price, false), Dropped(price))
  {
    var v: nat := Matched(os, price);
    BaseConserved(os, price, fills, unmatched, buys, sells);
    PositionsAreAdditive(0);
    FillsSum(os, price, v, fills, unmatched, buys, sells, Base());
    FillsSum(os, price, v, fills, unmatched, buys, sells, Quote());
    TradesQuote(buys, v, price, true);
    TradesQuote(sells, v, price, false);
    var b := Sum(Trades(buys, v, price, true), Base());
    assert Sum(Trades(sells, v, price, false), Base()) == -b;
    Negate(price, b);
  }

  // The quote residual lies between -(sell fills - 1) and buy fills - 1.
  lemma TruncationBound(os: seq<Order>, price: int, fills: seq<Fill>, unmatched: int, buys: seq<Order>,
                        sells: seq<Order>)
    requires Matched(os, price) > 0
    requires Allocates(os, price, Matched(os, price), fills, unmatched, buys, sells)
    ensures -(Touched(Takes(sells, Matched(os, price))) - 1)
         <= Sum(fills, Quote())
         <= Touched(Takes(buys, Matched(os, price))) - 1
  {
    var v: nat := Matched(os, price);
    ResidualIsDropped(os, price, fills, unmatched, buys, sells);
    var tb, ts := Trades(buys, v, price, true), Trades(sells, v, price, false);
    TradesCount(buys, v, price, true);
    TradesCount(sells, v, price, false);
    DroppedBound(tb, price);
    DroppedBound(ts, price);
    SideTouched(os, price, buys, true);
    SideTouched(os, price, sells, false);
  }

  lemma SideTouched(os: seq<Order>, price: int, side: seq<Order>, buy: bool)
    requires FillOrder(side, os, price, buy) && Matched(os, price) > 0
    ensures Touched(Takes(side, Matched(os, price))) >= 1
  {
    SideTakes(os, price, side, buy);
    UntouchedSum(Takes(side, Matched(os, price)));
  }

  lemma {:induction false} UntouchedSum(takes: seq<nat>)
    ensures Touched(takes) == 0 ==> Sum(takes, Nat()) == 0
  {
    if takes != [] {
      UntouchedSum(takes[1..]);
    }
  }

  // Quote is conserved exactly when both sides drop the same amount; in
  // particular when the scale divides the price, or one order trades on each side.
  lemma QuoteConservedExactly(os: seq<Order>, price: int, fills: seq<Fill>, unmatched: int, buys: seq<Order>,
                              sells: seq<Order>)
    requires Matched(os, price) > 0
    requires Allocates(os, price, Matched(os, price), fills, unmatched, buys, sells)
    ensures Sum(fills, Quote()) == 0 <==>
      Sum(Trades(buys, Matched(os, price), price, true), Dropped(price))
      == Sum(Trades(sells, Matched(os, price), price, false), Dropped(price))
    ensures price % PRICE_SCALE == 0 ==> Sum(fills, Quote()) == 0
    ensures Touched(Takes(buys, Matched(os, price))) == Touched(Takes(sells, Matched(os, price))) == 1
      ==> Sum(fills, Quote()) == 0
  {
    ResidualIsDropped(os, price, fills, unmatched, buys, sells);
    TruncationBound(os, price, fills, unmatched, buys, sells);
    if price % PRICE_SCALE == 0 {
      NothingDropped(Trades(buys, Matched(os, price), price, true), price);
      NothingDropped(Trades(sells, Matched(os, price), price, false), price);
    }
  }

  lemma {:induction false} NothingDropped(trades: seq<Fill>, price: int)
    requires price % PRICE_SCALE == 0
    ensures Sum(trades, Dropped(price)) == 0
  {
    if trades != [] {
      NothingDropped(trades[1..], price);
      var a, k := Abs(trades[0].base), price / PRICE_SCALE;
      assert a * price == (a * k) * PRICE_SCALE;
    }
  }

  // --- Order independence ----------------------------------------------------

  lemma SameHead(a: seq<Order>, b: seq<Order>, buy: bool)
    requires multiset(a) == multiset(b) && IdsIdentify(a) && a != [] && b != []
    requires InPriority(a, buy) && InPriority(b, buy)
    ensures a[0] == b[0]
  {
    assert a[0] in multiset(a) && b[0] in multiset(b);
    var i :| 0 <= i < |a| && a[i] == b[0];
    var j :| 0 <= j < |b| && b[j] == a[0];
    assert i > 0 ==> !Before(a[i], a[0], buy);
    assert j > 0 ==> !Before(b[j], b[0], buy);
  }

  // Two listings of the same orders in priority order are the same listing.
  lemma {:induction false} PriorityUnique(a: seq<Order>, b: seq<Order>, buy: bool)
    requires multiset(a) == multiset(b) && IdsIdentify(a)
    requires InPriority(a, buy) && InPriority(b, buy)
    ensures a == b
    decreases |a|
  {
    assert |a| == |multiset(a)| == |b|;
    if a != [] {
      SameHead(a, b, buy);
      assert multiset(a[1..]) == multiset(a) - multiset{a[0]} by {
        assert a == [a[0]] + a[1..];
      }
      assert multiset(b[1..]) == multiset(b) - multiset{b[0]} by {
        assert b == [b[0]] + b[1..];
      }
      assert forall x :: x in a[1..] ==> x in a;
      PriorityUnique(a[1..], b[1..], buy);
    }
  }

  lemma SameMatched(os: seq<Order>, os': seq<Order>, p: int)
    requires multiset(os) == multiset(os')
    ensures Matched(os, p) == Matched(os', p) && Imbalance(os, p) == Imbalance(os', p)
    ensures IsLimit(os, p) <==> IsLimit(os', p)
  {
    SumPermuted(os, os', Masked(Willing(p, true), Size()));
    SumPermuted(os, os', Masked(Willing(p, false), Size()));
    assert forall o :: o in os <==> o in multiset(os);
    assert forall o :: o in os' <==> o in multiset(os');
  }

  lemma SameBest(os: seq<Order>, os': seq<Order>, ref: int, p: int)
    requires multiset(os) == multiset(os') && IsBest(os, ref, p)
    ensures IsBest(os', ref, p)
  {
    SameMatched(os, os', p);
    forall q | IsLimit(os', q) && Matched(os', q) > 0 && q != p
      ensures Beats(os', p, q, ref)
    {
      SameMatched(os, os', q);
      assert Beats(os, p, q, ref);
    }
  }

  lemma SameFillOrder(os: seq<Order>, os': seq<Order>, price: int, buy: bool, side: seq<Order>, side': seq<Order>)
    requires multiset(os) == multiset(os') && IdsIdentify(os)
    requires FillOrder(side, os, price, buy) && FillOrder(side', os', price, buy)
    ensures side == side'
  {
    FilterPermuted(os, os', Willing(price, buy));
    forall x | x in side
      ensures x in os
    {
      InSideIffWilling(side, os, price, buy, x);
    }
    PriorityUnique(side, side', buy);
  }

  // The best price behind an outcome that is not NoCross.
  lemma OutcomePrice(os: seq<Order>, ref: int, bps: nat, r: Outcome) returns (p: int)
    requires Clears(os, ref, bps, r) && !r.NoCross?
    ensures IsBest(os, ref, p) && (r.OutOfBand? <==> !WithinBand(p, ref, bps))
    ensures r.Cleared? ==> p == r.price
  {
    p :| IsBest(os, ref, p) && if r.Cleared? then p == r.price else !WithinBand(p, ref, bps);
  }

  lemma NoCrossAgree(os: seq<Order>, os': seq<Order>, ref: int, bps: nat, r: Outcome, r': Outcome)
    requires multiset(os) == multiset(os') && r.NoCross?
    requires Clears(os, ref, bps, r) && Clears(os', ref, bps, r')
    ensures r'.NoCross?
  {
    if !r'.NoCross? {
      var p := OutcomePrice(os', ref, bps, r');
      SameMatched(os, os', p);
    }
  }

  lemma AllocationsAgree(os: seq<Order>, os': seq<Order>, price: int, volume: nat, fills: seq<Fill>, fills': seq<Fill>,
                         unmatched: int, unmatched': int, buys: seq<Order>, sells: seq<Order>,
                         buys': seq<Order>, sells': seq<Order>)
    requires multiset(os) == multiset(os') && IdsIdentify(os)
    requires Allocates(os, price, volume, fills, unmatched, buys, sells)
    requires Allocates(os', price, volume, fills', unmatched', buys', sells')
    ensures fills == fills' && unmatched == unmatched'
  {
    assert |os| == |multiset(os)| && |os'| == |multiset(os')|;
    SameFillOrder(os, os', price, true, buys, buys');
    SameFillOrder(os, os', price, false, sells, sells');
  }

  // Clearing any permutation of a book with distinct IDs gives the same outcome.
  lemma OrderIndependent(os: seq<Order>, os': seq<Order>, ref: int, bps: nat, r: Outcome, r': Outcome)
    requires multiset(os) == multiset(os') && IdsIdentify(os)
    requires Clears(os, ref, bps, r) && Clears(os', ref, bps, r')
    ensures r == r'
  {
    if r.NoCross? {
      NoCrossAgree(os, os', ref, bps, r, r');
    } else if r'.NoCross? {
      NoCrossAgree(os', os, ref, bps, r', r);
    } else {
      var p := OutcomePrice(os, ref, bps, r);
      var p' := OutcomePrice(os', ref, bps, r');
      SameBest(os', os, ref, p');
      BestUnique(os, ref, p, p');
      if r.Cleared? {
        SameMatched(os, os', p);
        var buys, sells :| Allocates(os, p, r.matched, r.fills, r.unmatched, buys, sells);
        var buys', sells' :| Allocates(os', p, r'.matched, r'.fills, r'.unmatched, buys', sells');
        AllocationsAgree(os, os', p, r.matched, r.fills, r'.fills, r.unmatched, r'.unmatched, buys, sells,
                         buys', sells');
      }
    }
  }

  // --- A cleared batch -------------------------------------------------------

  // What an outcome of Clear amounts to: it trades the most any price could, breaks
  // ties between limits as documented, leaves no crossing pair, is worth the most any
  // allocation could be, and nets base to zero.
  lemma ClearedBatch(os: seq<Order>, ref: int, bps: nat, r: Outcome) returns (buys: seq<Order>, sells: seq<Order>)
    requires Clears(os, ref, bps, r) && r.Cleared?
    ensures Allocates(os, r.price, r.matched, r.fills, r.unmatched, buys, sells)
    ensures IsLimit(os, r.price) && forall q :: Matched(os, q) <= r.matched == Matched(os, r.price)
    ensures forall q :: IsLimit(os, q) && q != r.price && Matched(os, q) == r.matched ==>
      Preferred(os, r.price, q, ref)
    ensures forall b, s |
      Residual(b, os, r.price, buys, r.matched, true) && Residual(s, os, r.price, sells, r.matched, false) ::
      b.limit < s.limit
    ensures Feasible(buys + sells, Takes(buys, r.matched) + Takes(sells, r.matched))
    ensures forall x :: Feasible(os, x) ==>
      Gains(os, x) <= Gains(buys + sells, Takes(buys, r.matched) + Takes(sells, r.matched))
    ensures Sum(r.fills, Base()) == 0
  {
    buys, sells :| Allocates(os, r.price, r.matched, r.fills, r.unmatched, buys, sells);
    forall q
      ensures Matched(os, q) <= r.matched
    {
      VolumeOptimal(os, ref, r.price, q);
    }
    forall q | IsLimit(os, q) && q != r.price && Matched(os, q) == r.matched
      ensures Preferred(os, r.price, q, ref)
    {
      TieBreak(os, ref, r.price, q);
    }
    forall b, s | Residual(b, os, r.price, buys, r.matched, true) && Residual(s, os, r.price, sells, r.matched, false)
      ensures b.limit < s.limit
    {
      Stable(os, ref, r.price, buys, sells, b, s);
    }
    FillsFeasible(os, r.price, buys, sells);
    forall x | Feasible(os, x)
      ensures Gains(os, x) <= Gains(buys + sells, Takes(buys, r.matched) + Takes(sells, r.matched))
    {
      Efficient(os, ref, r.price, buys, sells, x);
    }
    BaseConserved(os, r.price, r.fills, r.unmatched, buys, sells);
  }
}
