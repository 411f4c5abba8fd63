// Books on a grid: when sizes come in lots and limits in ticks that the price
// scale divides, truncation drops nothing and quote is conserved exactly.
module Lots {
  import opened Types
  import opened Arithmetic
  import opened Sums
  import opened Auction
  import opened AuctionTheorems
  import opened Allocation

  // Every size is so many lots, every limit so many ticks.
  predicate OnGrid(os: seq<Order>, lot: nat, tick: nat)
    requires lot > 0 && tick > 0
  {
    forall o :: o in os ==> Mod(o.size, lot) == 0 && Mod(o.limit, tick) == 0
  }

  lemma ModSum(a: int, b: int, d: nat)
    requires d > 0 && Mod(a, d) == 0 && Mod(b, d) == 0
    ensures Mod(a + b, d) == 0 && Mod(a - b, d) == 0
  {
    DivMod(a, d);
    DivMod(b, d);
    Distribute(Div(a, d), Div(b, d), d);
    Distribute(Div(a, d), -Div(b, d), d);
    DivUnique(a + b, d, Div(a, d) + Div(b, d), 0);
    DivUnique(a - b, d, Div(a, d) - Div(b, d), 0);
  }

  lemma ModProduct(a: int, b: int, lot: nat, tick: nat, scale: nat)
    requires lot > 0 && tick > 0 && scale > 0
    requires Mod(a, lot) == 0 && Mod(b, tick) == 0 && Mod(lot * tick, scale) == 0
    ensures Mod(a * b, scale) == 0
  {
    var i, j, k := Div(a, lot), Div(b, tick), Div(lot * tick, scale);
    DivMod(a, lot);
    DivMod(b, tick);
    DivMod(lot * tick, scale);
    calc {
      a * b;
    ==
      (i * lot) * (j * tick);
    == { Regroup(i, lot, j, tick); }
      (i * j) * (lot * tick);
    ==
      (i * j) * (k * scale);
    == { Associate(i * j, k, scale); }
      ((i * j) * k) * scale;
    }
    DivUnique(a * b, scale, (i * j) * k, 0);
  }

  lemma Regroup(i: int, lot: int, j: int, tick: int)
    ensures (i * lot) * (j * tick) == (i * j) * (lot * tick)
  {
    Associate(i * lot, j, tick);
    Associate(i, lot, j);
    Associate(i, j, lot);
    Associate(i * j, lot, tick);
  }

  lemma {:induction false} GridSum<T>(xs: seq<T>, f: T -> int, lot: nat)
    requires lot > 0 && forall x :: x in xs ==> Mod(f(x), lot) == 0
    ensures Mod(Sum(xs, f), lot) == 0
  {
    if xs == [] {
      DivUnique(0, lot, 0, 0);
    } else {
      assert forall x :: x in xs[1..] ==> x in xs;
      GridSum(xs[1..], f, lot);
      ModSum(f(xs[0]), Sum(xs[1..], f), lot);
    }
  }

  lemma GridDepth(os: seq<Order>, lot: nat, price: int, buy: bool)
    requires lot > 0 && forall o :: o in os ==> Mod(o.size, lot) == 0
    ensures Mod(Depth(os, price, buy), lot) == 0
  {
    DivUnique(0, lot, 0, 0);
    GridSum(os, Masked(Willing(price, buy), Size()), lot);
  }

  // On a grid every trade is so many lots, and truncation drops none of its worth.
  lemma {:induction false} GridTrades(side: seq<Order>, volume: nat, price: int, buy: bool, lot: nat, tick: nat)
    requires lot > 0 && tick > 0 && Mod(lot * tick, PRICE_SCALE) == 0
    requires Mod(volume, lot) == 0 && Mod(price, tick) == 0 && forall o :: o in side ==> Mod(o.size, lot) == 0
    ensures Sum(Trades(side, volume, price, buy), Dropped(price)) == 0
  {
    if side != [] {
      var take: nat := Min(volume, side[0].size);
      ModSum(volume, take, lot);
      assert forall o :: o in side[1..] ==> o in side;
      GridTrades(side[1..], volume - take, price, buy, lot, tick);
      ModProduct(take, price, lot, tick, PRICE_SCALE);
      GridTrade(side, volume, price, buy);
    }
  }

  lemma GridTrade(side: seq<Order>, volume: nat, price: int, buy: bool)
    requires side != []
    ensures var take: nat := Min(volume, side[0].size);
      Mod(take * price, PRICE_SCALE) == 0 ==>
        Sum(Trades(side, volume, price, buy), Dropped(price))
        == Sum(Trades(side[1..], volume - take, price, buy), Dropped(price))
  {
    var take: nat := Min(volume, side[0].size);
    var rest := Trades(side[1..], volume - take, price, buy);
    if take > 0 {
      assert Trades(side, volume, price, buy)[1..] == rest;
      assert Dropped(price)(Trade(side[0], take, price, buy)) == take * price % PRICE_SCALE;
    } else {
      assert Trades(side, volume, price, buy) == rest;
    }
  }

  lemma SideOnGrid(os: seq<Order>, side: seq<Order>, price: int, buy: bool, lot: nat)
    requires lot > 0 && FillOrder(side, os, price, buy) && forall o :: o in os ==> Mod(o.size, lot) == 0
    ensures forall o :: o in side ==> Mod(o.size, lot) == 0
  {
    forall o | o in side
      ensures Mod(o.size, lot) == 0
    {
      InSideIffWilling(side, os, price, buy, o);
    }
  }

  // A book on such a grid always clears to deltas that conserve quote.
  lemma GridConservesQuote(os: seq<Order>, ref: int, bps: nat, r: Outcome, lot: nat, tick: nat)
    requires Clears(os, ref, bps, r) && r.Cleared?
    requires lot > 0 && tick > 0 && OnGrid(os, lot, tick) && Mod(lot * tick, PRICE_SCALE) == 0
    ensures Sum(r.fills, Quote()) == 0
  {
    var buys, sells :| Allocates(os, r.price, r.matched, r.fills, r.unmatched, buys, sells);
    GridSides(os, r.price, buys, sells, lot, tick);
    ResidualIsDropped(os, r.price, r.fills, r.unmatched, buys, sells);
  }

  lemma GridSides(os: seq<Order>, price: int, buys: seq<Order>, sells: seq<Order>, lot: nat, tick: nat)
    requires FillOrder(buys, os, price, true) && FillOrder(sells, os, price, false)
    requires IsLimit(os, price) && Matched(os, price) >= 0
    requires lot > 0 && tick > 0 && OnGrid(os, lot, tick) && Mod(lot * tick, PRICE_SCALE) == 0
    ensures Sum(Trades(buys, Matched(os, price), price, true), Dropped(price)) == 0
    ensures Sum(Trades(sells, Matched(os, price), price, false), Dropped(price)) == 0
  {
    GridDepth(os, lot, price, true);
    GridDepth(os, lot, price, false);
    SideOnGrid(os, buys, price, true, lot);
    SideOnGrid(os, sells, price, false, lot);
    GridTrades(buys, Matched(os, price), price, true, lot, tick);
    GridTrades(sells, Matched(os, price), price, false, lot, tick);
  }
}
