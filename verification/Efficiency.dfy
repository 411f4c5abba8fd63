// The fills of a cleared batch maximise the gains from trade over every
// feasible allocation. The proof is linear-programming duality: a supporting
// price between the residual bid and ask prices out every alternative.
module Efficiency {
  import opened Types
  import opened Arithmetic
  import opened Sums
  import opened Auction
  import opened AuctionTheorems

  // +1 for a buy, -1 for a sell, 0 for an order no side trades.
  function Sign(o: Order): int {
    if OnSide(o, true) then 1 else if OnSide(o, false) then -1 else 0
  }

  // What an allocation is worth to the traders at their own limits.
  function Gains(os: seq<Order>, x: seq<int>): int
    requires |x| == |os|
  {
    if os == [] then 0 else Sign(os[0]) * os[0].limit * x[0] + Gains(os[1..], x[1..])
  }

  // Base bought minus base sold.
  function NetBought(os: seq<Order>, x: seq<int>): int
    requires |x| == |os|
  {
    if os == [] then 0 else Sign(os[0]) * x[0] + NetBought(os[1..], x[1..])
  }

  ghost predicate Feasible(os: seq<Order>, x: seq<int>) {
    && |x| == |os|
    && (forall k :: 0 <= k < |os| ==> 0 <= x[k] <= os[k].size)
    && NetBought(os, x) == 0
  }

  // The most an order can gain at price q.
  function Surplus(q: int): Order -> int {
    (o: Order) =>
      var margin := Sign(o) * (o.limit - q);
      if margin > 0 then margin * o.size else 0
  }

  // An order trades in full above its margin, not at all below it.
  predicate Supported(o: Order, take: int, q: int) {
    var margin := Sign(o) * (o.limit - q);
    (margin > 0 ==> take == o.size) && (margin < 0 ==> take == 0)
  }

  lemma OrderGain(o: Order, take: int, q: int)
    requires 0 <= take <= o.size
    ensures Sign(o) * o.limit * take - q * (Sign(o) * take) <= Surplus(q)(o)
    ensures Supported(o, take, q) ==>
      Sign(o) * o.limit * take - q * (Sign(o) * take) == Surplus(q)(o)
  {
    var margin := Sign(o) * (o.limit - q);
    assert Sign(o) * o.limit * take - q * (Sign(o) * take) == margin * take;
    if margin > 0 {
      assert margin * take <= margin * o.size;
    } else {
      assert margin * take <= 0;
    }
  }

  // Weak duality: no price lets an allocation gain more than the surplus.
  lemma {:induction false} WeakDuality(os: seq<Order>, x: seq<int>, q: int)
    requires |x| == |os| && forall k :: 0 <= k < |os| ==> 0 <= x[k] <= os[k].size
    ensures Gains(os, x) - q * NetBought(os, x) <= Sum(os, Surplus(q))
  {
    if os != [] {
      OrderGain(os[0], x[0], q);
      WeakDuality(os[1..], x[1..], q);
      Distribute(Sign(os[0]) * x[0], NetBought(os[1..], x[1..]), q);
    }
  }

  // Equality, when the price supports every order.
  lemma {:induction false} StrongDuality(os: seq<Order>, x: seq<int>, q: int)
    requires |x| == |os| && forall k :: 0 <= k < |os| ==> 0 <= x[k] <= os[k].size
    requires forall k :: 0 <= k < |os| ==> Supported(os[k], x[k], q)
    ensures Gains(os, x) - q * NetBought(os, x) == Sum(os, Surplus(q))
  {
    if os != [] {
      OrderGain(os[0], x[0], q);
      StrongDuality(os[1..], x[1..], q);
      Distribute(Sign(os[0]) * x[0], NetBought(os[1..], x[1..]), q);
    }
  }

  lemma {:induction false} SideNet(side: seq<Order>, takes: seq<nat>, buy: bool)
    requires |takes| == |side| && forall o :: o in side ==> OnSide(o, buy)
    ensures NetBought(side, takes) == if buy then Sum(takes, Nat()) else -Sum(takes, Nat())
  {
    if side != [] {
      assert forall o :: o in side[1..] ==> o in side;
      SideNet(side[1..], takes[1..], buy);
      assert side[0] in side;
    }
  }

  lemma {:induction false} NetAppend(a: seq<Order>, x: seq<int>, b: seq<Order>, y: seq<int>)
    requires |x| == |a| && |y| == |b|
    ensures NetBought(a + b, x + y) == NetBought(a, x) + NetBought(b, y)
  {
    if a == [] {
      assert a + b == b && x + y == y;
    } else {
      assert (a + b)[1..] == a[1..] + b && (x + y)[1..] == x[1..] + y;
      NetAppend(a[1..], x[1..], b, y);
    }
  }

  // The greedy fills of both sides are themselves a feasible allocation.
  lemma FillsFeasible(os: seq<Order>, price: int, buys: seq<Order>, sells: seq<Order>)
    requires FillOrder(buys, os, price, true) && FillOrder(sells, os, price, false)
    requires Matched(os, price) >= 0
    ensures Feasible(buys + sells, Takes(buys, Matched(os, price)) + Takes(sells, Matched(os, price)))
  {
    var v: nat := Matched(os, price);
    SideTakes(os, price, buys, true);
    SideTakes(os, price, sells, false);
    NetAppend(buys, Takes(buys, v), sells, Takes(sells, v));
  }

  lemma SideTakes(os: seq<Order>, price: int, side: seq<Order>, buy: bool)
    requires FillOrder(side, os, price, buy) && Matched(os, price) >= 0
    ensures Sum(Takes(side, Matched(os, price)), Nat()) == Matched(os, price)
    ensures NetBought(side, Takes(side, Matched(os, price))) == if buy then Matched(os, price) else -Matched(os, price)
    ensures forall k :: 0 <= k < |side| ==> Takes(side, Matched(os, price))[k] <= side[k].size
    ensures Sum(side, Size()) == Depth(os, price, buy)
  {
    var v: nat := Matched(os, price);
    TakesSum(side, v);
    SideSum(side, os, price, buy, Size());
    forall o | o in side
      ensures OnSide(o, buy)
    {
      InSideIffWilling(side, os, price, buy, o);
    }
    SideNet(side, Takes(side, v), buy);
  }

  // The first order its side leaves unfilled, if any.
  lemma {:induction false} FirstUnfilled(side: seq<Order>, volume: nat) returns (c: nat)
    ensures c <= |side|
    ensures forall k :: 0 <= k < c ==> Takes(side, volume)[k] == side[k].size
    ensures c < |side| ==> Takes(side, volume)[c] < side[c].size
  {
    TakesSum(side, volume);
    if side == [] || Takes(side, volume)[0] < side[0].size {
      c := 0;
    } else {
      c := FirstUnfilled(side[1..], volume - side[0].size);
      c := c + 1;
    }
  }

  // A side no deeper than the volume is filled completely.
  lemma {:induction false} AllFull(side: seq<Order>, volume: nat)
    requires Sum(side, Size()) <= volume
    ensures forall k :: 0 <= k < |side| ==> Takes(side, volume)[k] == side[k].size
  {
    if side != [] {
      SumNonNegative(side[1..], Size());
      AllFull(side[1..], volume - side[0].size);
    }
  }

  lemma ShortSideFull(os: seq<Order>, price: int, short: seq<Order>, buy: bool)
    requires FillOrder(short, os, price, buy) && Matched(os, price) == Depth(os, price, buy) >= 0
    ensures forall k :: 0 <= k < |short| ==> Takes(short, Matched(os, price))[k] == short[k].size
  {
    SideSum(short, os, price, buy, Size());
    AllFull(short, Matched(os, price));
  }

  // The price that supports the fills when `side` is at least as deep as
  // `short`: the limit of its first unfilled order, or else the clearing price.
  ghost predicate SupportedFrom(side: seq<Order>, short: seq<Order>, v: nat, c: nat, price: int, q: int) {
    && c <= |side|
    && (forall k :: 0 <= k < c ==> Takes(side, v)[k] == side[k].size)
    && (forall k :: 0 <= k < |short| ==> Takes(short, v)[k] == short[k].size)
    && (c < |side| ==> Takes(side, v)[c] < side[c].size)
    && q == if c < |side| then side[c].limit else price
  }

  lemma LongSideSupported(os: seq<Order>, price: int, side: seq<Order>, short: seq<Order>, v: nat,
                          c: nat, q: int, buy: bool, k: nat)
    requires FillOrder(side, os, price, buy) && SupportedFrom(side, short, v, c, price, q)
    requires k < |side|
    ensures Supported(side[k], Takes(side, v)[k], q)
  {
    InSideIffWilling(side, os, price, buy, side[k]);
    if c < k {
      assert !Before(side[k], side[c], buy);
      if Takes(side, v)[k] > 0 {
        FullBeforeTouched(side, v, c, k);
      }
    } else if k < c < |side| {
      assert !Before(side[c], side[k], buy);
    }
  }

  lemma ShortSideSupported(os: seq<Order>, price: int, side: seq<Order>, short: seq<Order>, v: nat,
                           c: nat, q: int, buy: bool, k: nat)
    requires FillOrder(side, os, price, buy) && FillOrder(short, os, price, !buy)
    requires SupportedFrom(side, short, v, c, price, q)
    requires k < |short|
    ensures Supported(short[k], Takes(short, v)[k], q)
  {
    InSideIffWilling(short, os, price, !buy, short[k]);
    if c < |side| {
      InSideIffWilling(side, os, price, buy, side[c]);
    }
  }

  lemma UnwillingHasNoSurplus(os: seq<Order>, ref: int, price: int, side: seq<Order>, short: seq<Order>, v: nat,
                              c: nat, q: int, buy: bool, o: Order)
    requires IsBest(os, ref, price) && v == Matched(os, price)
    requires FillOrder(side, os, price, buy) && FillOrder(short, os, price, !buy)
    requires SupportedFrom(side, short, v, c, price, q)
    requires o in os && !Willing(price, true)(o) && !Willing(price, false)(o)
    ensures Surplus(q)(o) == 0
  {
    if c < |side| {
      InSideIffWilling(side, os, price, buy, side[c]);
      if OnSide(o, !buy) && o.size > 0 {
        assert Residual(side[c], os, price, side, v, buy);
        assert Residual(o, os, price, short, v, !buy);
        if buy {
          Stable(os, ref, price, side, short, side[c], o);
        } else {
          Stable(os, ref, price, short, side, o, side[c]);
        }
      } else if o.size == 0 {
        assert (Sign(o) * (o.limit - q)) * o.size == 0;
      }
    }
  }

  lemma SupportingPrice(os: seq<Order>, ref: int, price: int, side: seq<Order>, short: seq<Order>, buy: bool)
      returns (q: int)
    requires IsBest(os, ref, price)
    requires FillOrder(side, os, price, buy) && FillOrder(short, os, price, !buy)
    requires Matched(os, price) == Depth(os, price, !buy)
    ensures forall k :: 0 <= k < |side| ==> Supported(side[k], Takes(side, Matched(os, price))[k], q)
    ensures forall k :: 0 <= k < |short| ==> Supported(short[k], Takes(short, Matched(os, price))[k], q)
    ensures forall o :: o in os && !Willing(price, true)(o) && !Willing(price, false)(o) ==> Surplus(q)(o) == 0
  {
    var v: nat := Matched(os, price);
    var c := FirstUnfilled(side, v);
    q := if c < |side| then side[c].limit else price;
    ShortSideFull(os, price, short, !buy);
    assert SupportedFrom(side, short, v, c, price, q);
    forall k | 0 <= k < |short|
      ensures Supported(short[k], Takes(short, v)[k], q)
    {
      ShortSideSupported(os, price, side, short, v, c, q, buy, k);
    }
    forall k | 0 <= k < |side|
      ensures Supported(side[k], Takes(side, v)[k], q)
    {
      LongSideSupported(os, price, side, short, v, c, q, buy, k);
    }
    forall o | o in os && !Willing(price, true)(o) && !Willing(price, false)(o)
      ensures Surplus(q)(o) == 0
    {
      UnwillingHasNoSurplus(os, ref, price, side, short, v, c, q, buy, o);
    }
  }

  // When no unwilling order has any surplus, the two sides hold all of it.
  lemma SurplusOfSides(os: seq<Order>, price: int, buys: seq<Order>, sells: seq<Order>, q: int)
    requires FillOrder(buys, os, price, true) && FillOrder(sells, os, price, false)
    requires forall o :: o in os && !Willing(price, true)(o) && !Willing(price, false)(o) ==> Surplus(q)(o) == 0
    ensures Sum(buys + sells, Surplus(q)) == Sum(os, Surplus(q))
  {
    SumAppend(buys, sells, Surplus(q));
    SideSum(buys, os, price, true, Surplus(q));
    SideSum(sells, os, price, false, Surplus(q));
    SumSplit(os, Surplus(q), Masked(Willing(price, true), Surplus(q)), Masked(Willing(price, false), Surplus(q)));
  }

  // No feasible allocation is worth more than the fills of a cleared batch.
  lemma Efficient(os: seq<Order>, ref: int, price: int, buys: seq<Order>, sells: seq<Order>, x: seq<int>)
    requires IsBest(os, ref, price)
    requires FillOrder(buys, os, price, true) && FillOrder(sells, os, price, false)
    requires Feasible(os, x)
    ensures Gains(os, x)
         <= Gains(buys + sells, Takes(buys, Matched(os, price)) + Takes(sells, Matched(os, price)))
  {
    var v: nat := Matched(os, price);
    var q;
    if Depth(os, price, true) > Depth(os, price, false) {
      q := SupportingPrice(os, ref, price, buys, sells, true);
    } else {
      q := SupportingPrice(os, ref, price, sells, buys, false);
    }
    WeakDuality(os, x, q);
    FillsFeasible(os, price, buys, sells);
    StrongDuality(buys + sells, Takes(buys, v) + Takes(sells, v), q);
    SurplusOfSides(os, price, buys, sells, q);
  }
}
