// What a cleared batch guarantees: the price maximises volume over every price,
// the residual book is uncrossed, and the fills maximise the gains from trade.
module AuctionTheorems {
  import opened Types
  import opened Sums
  import opened Auction

  // --- Depth -----------------------------------------------------------------

  // Side 0 buys at its limit or below, side 1 sells at its limit or above.
  function Interest(price: int, buy: bool): Order -> int {
    (o: Order) =>
      if buy then (if o.side == 0 && price <= o.limit then o.size else 0)
      else (if o.side == 1 && o.limit <= price then o.size else 0)
  }

  lemma DepthIs(os: seq<Order>, price: int)
    ensures Depth(os, price, true) == Sum(os, Interest(price, true))
    ensures Depth(os, price, false) == Sum(os, Interest(price, false))
    ensures Matched(os, price) <= Depth(os, price, true) && Matched(os, price) <= Depth(os, price, false)
    ensures Matched(os, price) == Depth(os, price, true) || Matched(os, price) == Depth(os, price, false)
  {
    forall buy: bool
      ensures Depth(os, price, buy) == Sum(os, Interest(price, buy))
    {
      SumLe(os, Masked(Willing(price, buy), Size()), Interest(price, buy));
      SumLe(os, Interest(price, buy), Masked(Willing(price, buy), Size()));
    }
  }

  // A price fewer limits accept has no more depth.
  lemma DepthMonotone(os: seq<Order>, p: int, q: int, buy: bool)
    requires Accepts(q, p, buy)
    ensures Depth(os, q, buy) <= Depth(os, p, buy)
  {
    SumLe(os, Masked(Willing(q, buy), Size()), Masked(Willing(p, buy), Size()));
  }

  lemma DepthNonNegative(os: seq<Order>, p: int, buy: bool)
    ensures 0 <= Depth(os, p, buy)
  {
    SumNonNegative(os, Masked(Willing(p, buy), Size()));
  }

  lemma {:induction false} DepthHasOrder(os: seq<Order>, p: int, buy: bool) returns (o: Order)
    requires Depth(os, p, buy) > 0
    ensures o in os && Willing(p, buy)(o) && o.size > 0
  {
    if Masked(Willing(p, buy), Size())(os[0]) > 0 {
      o := os[0];
    } else {
      o := DepthHasOrder(os[1..], p, buy);
    }
  }

  lemma OrderHasDepth(os: seq<Order>, o: Order, p: int, buy: bool)
    requires o in os && Willing(p, buy)(o)
    ensures o.size <= Depth(os, p, buy)
  {
    SumAtLeastOne(os, o, Masked(Willing(p, buy), Size()));
  }

  // The lowest limit among the buys at or above q.
  lemma {:induction false} LowestBuyAbove(os: seq<Order>, q: int) returns (b: int)
    requires exists o :: o in os && Willing(q, true)(o)
    ensures IsLimit(os, b) && q <= b
    ensures forall o :: o in os && Willing(q, true)(o) ==> b <= o.limit
  {
    assert forall o :: o in os <==> o == os[0] || o in os[1..];
    if exists o :: o in os[1..] && Willing(q, true)(o) {
      b := LowestBuyAbove(os[1..], q);
      if Willing(q, true)(os[0]) && os[0].limit < b {
        b := os[0].limit;
      }
    } else {
      b := os[0].limit;
    }
  }

  // --- Volume optimality -----------------------------------------------------

  // Every price is matched by some limit price, so scanning limits is enough.
  lemma LimitMatchesAnyPrice(os: seq<Order>, q: int) returns (b: int)
    requires Matched(os, q) > 0
    ensures IsLimit(os, b) && Matched(os, q) <= Matched(os, b)
  {
    var o := DepthHasOrder(os, q, true);
    b := LowestBuyAbove(os, q);
    SumLe(os, Masked(Willing(q, true), Size()), Masked(Willing(b, true), Size()));
    DepthMonotone(os, b, q, false);
  }

  lemma VolumeOptimal(os: seq<Order>, ref: int, p: int, q: int)
    requires IsBest(os, ref, p)
    ensures Matched(os, q) <= Matched(os, p)
  {
    if Matched(os, q) > 0 {
      var b := LimitMatchesAnyPrice(os, q);
      assert b != p ==> Beats(os, p, b, ref);
    }
  }

  // --- Outcomes --------------------------------------------------------------

  // Some buy reaches some sell.
  ghost predicate Crosses(os: seq<Order>) {
    exists b, s :: CrossingPair(os, b, s)
  }

  ghost predicate CrossingPair(os: seq<Order>, b: Order, s: Order) {
    && b in os && OnSide(b, true) && b.size > 0
    && s in os && OnSide(s, false) && s.size > 0
    && b.limit >= s.limit
  }

  lemma NoCrossExactly(os: seq<Order>, ref: int, bps: nat, r: Outcome)
    requires Clears(os, ref, bps, r)
    ensures r.NoCross? <==> !Crosses(os)
  {
    if r.NoCross? && Crosses(os) {
      var b, s :| CrossingPair(os, b, s);
      OrderHasDepth(os, b, b.limit, true);
      OrderHasDepth(os, s, b.limit, false);
      assert IsLimit(os, b.limit);
    }
    if !r.NoCross? {
      var p :| IsBest(os, ref, p);
      var b, s := PriceBetween(os, ref, p);
    }
  }

  // The chosen price lies between a bid and an ask that trade.
  lemma PriceBetween(os: seq<Order>, ref: int, p: int) returns (b: Order, s: Order)
    requires IsBest(os, ref, p)
    ensures CrossingPair(os, b, s) && s.limit <= p <= b.limit
  {
    b := DepthHasOrder(os, p, true);
    s := DepthHasOrder(os, p, false);
  }

  // The tie-break is total on distinct prices, so at most one price is best.
  lemma BestUnique(os: seq<Order>, ref: int, p: int, q: int)
    requires IsBest(os, ref, p) && IsBest(os, ref, q)
    ensures p == q
  {
    if p != q {
      BeatsTotal(os, p, q, ref);
    }
  }

  // How far demand and supply are apart at a price.
  function Gap(os: seq<Order>, price: int): int {
    Abs(Depth(os, price, true) - Depth(os, price, false))
  }

  // Of two limits that trade the same volume, the one chosen is the more balanced,
  // else the nearer to a positive reference, else the lower.
  predicate Preferred(os: seq<Order>, p: int, q: int, ref: int) {
    && Gap(os, p) <= Gap(os, q)
    && (Gap(os, p) == Gap(os, q) && ref > 0 ==> Abs(p - ref) <= Abs(q - ref))
    && (Gap(os, p) == Gap(os, q) && (ref <= 0 || Abs(p - ref) == Abs(q - ref)) ==> p < q)
  }

  lemma TieBreak(os: seq<Order>, ref: int, p: int, q: int)
    requires IsBest(os, ref, p) && IsLimit(os, q) && q != p && Matched(os, q) == Matched(os, p)
    ensures Preferred(os, p, q, ref)
  {
    assert Beats(os, p, q, ref);
  }

  lemma BeatsTransitive(os: seq<Order>, p: int, q: int, r: int, ref: int)
    requires Beats(os, p, q, ref) && Beats(os, q, r, ref)
    ensures Beats(os, p, r, ref)
  {
  }

  lemma BeatsTotal(os: seq<Order>, p: int, q: int, ref: int)
    requires p != q
    ensures Beats(os, p, q, ref) <==> !Beats(os, q, p, ref)
  {
  }

  // --- Greedy filling of one side --------------------------------------------

  function Nat(): nat -> int {
    (n: nat) => n
  }

  // Each order gives at most its size, and together they give the volume.
  lemma {:induction false} TakesSum(side: seq<Order>, volume: nat)
    ensures forall k :: 0 <= k < |side| ==> Takes(side, volume)[k] <= side[k].size
    ensures Sum(Takes(side, volume), Nat()) == Min(volume, Sum(side, Size()))
    ensures 0 <= Sum(side, Size())
  {
    if side != [] {
      var take: nat := Min(volume, side[0].size);
      TakesSum(side[1..], volume - take);
    }
  }

  // An order trades only when every order before it is full.
  lemma {:induction false} FullBeforeTouched(side: seq<Order>, volume: nat, i: nat, j: nat)
    requires i < j < |side| && Takes(side, volume)[j] > 0
    ensures Takes(side, volume)[i] == side[i].size
  {
    var take: nat := Min(volume, side[0].size);
    if i > 0 {
      FullBeforeTouched(side[1..], volume - take, i - 1, j - 1);
    } else {
      TouchedLeavesVolume(side[1..], volume - take, j - 1);
    }
  }

  lemma {:induction false} TouchedLeavesVolume(side: seq<Order>, volume: nat, j: nat)
    requires j < |side| && Takes(side, volume)[j] > 0
    ensures volume > 0
  {
    if j > 0 {
      TouchedLeavesVolume(side[1..], volume - Min(volume, side[0].size), j - 1);
    }
  }

  // An order left unfilled saw the whole volume used up by it and those before it.
  lemma {:induction false} UnfilledExhausts(side: seq<Order>, volume: nat, k: nat)
    requires k < |side| && Takes(side, volume)[k] < side[k].size
    ensures Sum(side[..k + 1], Size()) > volume
  {
    var take: nat := Min(volume, side[0].size);
    assert side[..k + 1][1..] == side[1..][..k];
    if k == 0 {
      assert side[..1][1..] == [];
    } else {
      UnfilledExhausts(side[1..], volume - take, k - 1);
      SumNonNegative(side[1..][..k], Size());
    }
  }

  lemma InSideIffWilling(side: seq<Order>, os: seq<Order>, price: int, buy: bool, o: Order)
    requires FillOrder(side, os, price, buy)
    ensures o in side <==> o in os && Willing(price, buy)(o)
  {
    assert o in side <==> o in multiset(side);
    assert o in Filter(os, Willing(price, buy)) <==> o in multiset(side);
  }

  lemma SideSum(side: seq<Order>, os: seq<Order>, price: int, buy: bool, f: Order -> int)
    requires FillOrder(side, os, price, buy)
    ensures Sum(side, f) == Sum(os, Masked(Willing(price, buy), f))
  {
    SumPermuted(side, Filter(os, Willing(price, buy)), f);
    SumFiltered(os, Willing(price, buy), f);
  }

  // --- Stability -------------------------------------------------------------

  // o still wants to trade after its side has been filled.
  ghost predicate Residual(o: Order, os: seq<Order>, price: int, side: seq<Order>, volume: nat, buy: bool) {
    && o in os && OnSide(o, buy) && o.size > 0
    && (Willing(price, buy)(o) ==>
          exists k :: 0 <= k < |side| && side[k] == o && Takes(side, volume)[k] < o.size)
  }

  // The orders up to an unfilled one all accept its limit and exceed the volume.
  lemma UnfilledDepth(os: seq<Order>, price: int, side: seq<Order>, volume: nat, buy: bool, k: nat)
    requires FillOrder(side, os, price, buy)
    requires k < |side| && Takes(side, volume)[k] < side[k].size
    ensures Depth(os, side[k].limit, buy) > volume
  {
    var at := Masked(Willing(side[k].limit, buy), Size());
    UnfilledExhausts(side, volume, k);
    forall x | x in side[..k + 1]
      ensures at(x) == Size()(x)
    {
      InSideIffWilling(side, os, price, buy, x);
    }
    SumLe(side[..k + 1], Size(), at);
    assert side == side[..k + 1] + side[k + 1..];
    SumAppend(side[..k + 1], side[k + 1..], at);
    SumNonNegative(side[k + 1..], at);
    SideSum(side, os, price, buy, at);
    SumLe(os, Masked(Willing(price, buy), at), at);
  }

  // At a residual order's own limit its side is deeper than the matched volume.
  lemma ResidualDepth(o: Order, os: seq<Order>, price: int, side: seq<Order>, volume: nat, buy: bool)
    requires FillOrder(side, os, price, buy) && volume <= Depth(os, price, buy)
    requires Residual(o, os, price, side, volume, buy)
    ensures Depth(os, o.limit, buy) > volume
  {
    if Willing(price, buy)(o) {
      var k :| 0 <= k < |side| && side[k] == o && Takes(side, volume)[k] < o.size;
      UnfilledDepth(os, price, side, volume, buy, k);
    } else {
      SumRise(os, o, Masked(Willing(price, buy), Size()), Masked(Willing(o.limit, buy), Size()));
    }
  }

  // No residual buy reaches a residual sell.
  lemma Stable(os: seq<Order>, ref: int, price: int, buys: seq<Order>, sells: seq<Order>, b: Order, s: Order)
    requires IsBest(os, ref, price)
    requires FillOrder(buys, os, price, true) && FillOrder(sells, os, price, false)
    requires Residual(b, os, price, buys, Matched(os, price), true)
    requires Residual(s, os, price, sells, Matched(os, price), false)
    ensures b.limit < s.limit
  {
    if b.limit >= s.limit {
      ResidualDepth(b, os, price, buys, Matched(os, price), true);
      ResidualDepth(s, os, price, sells, Matched(os, price), false);
      DepthMonotone(os, b.limit, s.limit, false);
      VolumeOptimal(os, ref, price, b.limit);
    }
  }
}
