// The auction engine as it runs: the scan over candidate prices and the greedy
// fill of both sides, proved to compute what module Auction states.
module Clearing {
  import opened Types
  import opened Sums
  import opened Auction
  import opened AuctionTheorems

  // --- sort.Slice ------------------------------------------------------------

  predicate AtMost<T>(less: (T, T) -> bool, x: T, y: T) {
    !less(y, x)
  }

  // less is a strict order up to ties.
  ghost predicate StrictWeak<T(!new)>(less: (T, T) -> bool) {
    && (forall x, y :: less(x, y) ==> AtMost(less, x, y))
    && (forall x, y, z :: AtMost(less, x, y) && AtMost(less, y, z) ==> AtMost(less, x, z))
  }

  ghost predicate Sorted<T>(s: seq<T>, less: (T, T) -> bool) {
    forall i, j :: 0 <= i < j < |s| ==> AtMost(less, s[i], s[j])
  }

  // Sorted but for the entry at k, which may belong further left.
  ghost predicate SortedExcept<T>(s: seq<T>, k: nat, less: (T, T) -> bool) {
    forall i, j :: 0 <= i < j < |s| && j != k ==> AtMost(less, s[i], s[j])
  }

  lemma SwapDown<T(!new)>(s: seq<T>, k: nat, less: (T, T) -> bool)
    requires StrictWeak(less) && 0 < k < |s| && SortedExcept(s, k, less) && less(s[k], s[k - 1])
    ensures SortedExcept(s[k := s[k - 1]][k - 1 := s[k]], k - 1, less)
  {
    var t := s[k := s[k - 1]][k - 1 := s[k]];
    forall i, j | 0 <= i < j < |t| && j != k - 1
      ensures AtMost(less, t[i], t[j])
    {
      if j == k && i < k - 1 {
        assert AtMost(less, s[i], s[k - 1]);
      } else if i == k {
        assert AtMost(less, s[k - 1], s[j]);
      } else if i == k - 1 && j > k {
        assert AtMost(less, s[k], s[j]);
      } else if i < k - 1 {
        assert AtMost(less, s[i], s[j]);
      }
    }
  }

  lemma InPlace<T(!new)>(s: seq<T>, k: nat, less: (T, T) -> bool)
    requires StrictWeak(less) && k < |s| && SortedExcept(s, k, less)
    requires k == 0 || AtMost(less, s[k - 1], s[k])
    ensures Sorted(s, less)
  {
    forall i, j | 0 <= i < j < |s|
      ensures AtMost(less, s[i], s[j])
    {
      if j == k && i < k - 1 {
        assert AtMost(less, s[i], s[k - 1]);
      }
    }
  }

  // Moves the last of the first n + 1 entries to its place.
  method Insert<T(!new)>(a: array<T>, n: nat, less: (T, T) -> bool)
    requires StrictWeak(less) && n < a.Length && Sorted(a[..n], less)
    modifies a
    ensures multiset(a[..]) == old(multiset(a[..]))
    ensures Sorted(a[..n + 1], less)
  {
    var k := n;
    assert forall i, j :: 0 <= i < j < n ==> AtMost(less, a[..n][i], a[..n][j]);
    while k > 0 && less(a[k], a[k - 1])
      invariant 0 <= k <= n
      invariant multiset(a[..]) == old(multiset(a[..]))
      invariant SortedExcept(a[..n + 1], k, less)
    {
      SwapDown(a[..n + 1], k, less);
      ghost var before := a[..n + 1];
      a[k], a[k - 1] := a[k - 1], a[k];
      assert a[..n + 1] == before[k := before[k - 1]][k - 1 := before[k]];
      k := k - 1;
    }
    InPlace(a[..n + 1], k, less);
  }

  method SortSlice<T(!new)>(a: array<T>, less: (T, T) -> bool)
    requires StrictWeak(less)
    modifies a
    ensures multiset(a[..]) == old(multiset(a[..]))
    ensures Sorted(a[..], less)
  {
    for n := 0 to a.Length
      invariant multiset(a[..]) == old(multiset(a[..]))
      invariant Sorted(a[..n], less)
    {
      Insert(a, n, less);
    }
    assert a[..] == a[..a.Length];
  }

  // --- The price scan --------------------------------------------------------

  method DepthAt(orders: seq<Order>, p: int) returns (demand: int, supply: int)
    ensures demand == Depth(orders, p, true)
    ensures supply == Depth(orders, p, false)
  {
    demand, supply := 0, 0;
    for i := 0 to |orders|
      invariant demand == Depth(orders[..i], p, true)
      invariant supply == Depth(orders[..i], p, false)
    {
      var o := orders[i];
      SumSnoc(orders, i, Masked(Willing(p, true), Size()));
      SumSnoc(orders, i, Masked(Willing(p, false), Size()));
      if o.side == SIDE_BUY {
        if o.limit >= p {
          demand := demand + o.size;
        }
      } else if o.side == SIDE_SELL {
        if o.limit <= p {
          supply := supply + o.size;
        }
      }
    }
    assert orders[..|orders|] == orders;
  }

  // Every limit of the book, once each, for the scan to visit from the bottom up.
  method CandidatePrices(orders: seq<Order>) returns (out: seq<int>)
    ensures forall p :: p in out <==> IsLimit(orders, p)
    ensures forall i, j :: 0 <= i < j < |out| ==> out[i] < out[j]
  {
    var seen: set<int> := {};
    var found: seq<int> := [];
    for i := 0 to |orders|
      invariant forall p :: p in found <==> p in seen
      invariant forall p :: p in seen <==> IsLimit(orders[..i], p)
      invariant forall j, k :: 0 <= j < k < |found| ==> found[j] != found[k]
    {
      var k := orders[i].limit;
      assert forall o :: o in orders[..i + 1] <==> o in orders[..i] || o == orders[i];
      if k !in seen {
        seen := seen + {k};
        found := found + [k];
      }
    }
    assert orders[..|orders|] == orders;
    var a := new int[|found|](i requires 0 <= i < |found| => found[i]);
    assert a[..] == found;
    SortSlice(a, (x, y) => x < y);
    out := a[..];
    Permuted(out, found);
  }

  lemma {:induction false} DistinctCount(found: seq<int>, p: int)
    requires forall j, k :: 0 <= j < k < |found| ==> found[j] != found[k]
    ensures multiset(found)[p] <= 1
  {
    if found != [] {
      assert found == [found[0]] + found[1..];
      DistinctCount(found[1..], p);
      assert found[0] !in found[1..];
    }
  }

  lemma RepeatCount(out: seq<int>, i: nat, j: nat)
    requires i < j < |out| && out[i] == out[j]
    ensures multiset(out)[out[i]] >= 2
  {
    assert out == out[..j] + out[j..];
    assert out[..j][i] == out[i] && out[j..][0] == out[i];
    assert out[i] in out[..j] && out[i] in out[j..];
  }

  lemma Permuted(out: seq<int>, found: seq<int>)
    requires multiset(out) == multiset(found) && Sorted(out, (x, y) => x < y)
    requires forall j, k :: 0 <= j < k < |found| ==> found[j] != found[k]
    ensures forall p :: p in out <==> p in found
    ensures forall i, j :: 0 <= i < j < |out| ==> out[i] < out[j]
  {
    assert forall p :: p in out <==> p in multiset(out);
    assert forall p :: p in found <==> p in multiset(found);
    forall i, j | 0 <= i < j < |out|
      ensures out[i] < out[j]
    {
      assert AtMost((x, y) => x < y, out[i], out[j]);
      DistinctCount(found, out[i]);
      if out[i] == out[j] {
        RepeatCount(out, i, j);
      }
    }
  }

  // --- Filling ---------------------------------------------------------------

  method EligibleOrders(orders: seq<Order>, price: int) returns (buys: seq<Order>, sells: seq<Order>)
    ensures buys == Filter(orders, Willing(price, true))
    ensures sells == Filter(orders, Willing(price, false))
  {
    buys, sells := [], [];
    for i := 0 to |orders|
      invariant buys == Filter(orders[..i], Willing(price, true))
      invariant sells == Filter(orders[..i], Willing(price, false))
    {
      var o := orders[i];
      FilterSnoc(orders, i, Willing(price, true));
      FilterSnoc(orders, i, Willing(price, false));
      if o.side == SIDE_BUY {
        if o.limit >= price {
          buys := buys + [o];
        }
      } else if o.side == SIDE_SELL {
        if o.limit <= price {
          sells := sells + [o];
        }
      }
    }
    assert orders[..|orders|] == orders;
  }

  method SortSide(side: seq<Order>, buy: bool) returns (sorted: seq<Order>)
    ensures multiset(sorted) == multiset(side) && InPriority(sorted, buy)
  {
    var a := new Order[|side|](i requires 0 <= i < |side| => side[i]);
    assert a[..] == side;
    SortSlice(a, (x, y) => Before(x, y, buy));
    sorted := a[..];
    assert forall i, j :: 0 <= i < j < |sorted| ==> AtMost((x, y) => Before(x, y, buy), sorted[i], sorted[j]);
  }

  // The running position of each trader, and the traders in the order they were
  // first touched.
  datatype Positions = Positions(acc: map<Address, (int, int)>, order: seq<Address>) {
    ghost predicate Valid() {
      && (forall i :: 0 <= i < |order| ==> order[i] in acc)
      && (forall t :: t in acc ==> t in order)
      && (forall i, j :: 0 <= i < j < |order| ==> order[i] != order[j])
    }

    function Entry(t: Address): Fill
      requires t in acc
    {
      Fill(t, acc[t].0, acc[t].1)
    }

    function Fills(): (fills: seq<Fill>)
      requires Valid()
      ensures |fills| == |order|
      ensures forall i :: 0 <= i < |order| ==> fills[i] == Entry(order[i])
    {
      seq(|order|, i requires 0 <= i < |order| => Entry(order[i]))
    }

    function Touch(t: Address): Positions {
      if t in acc then this else Positions(acc[t := (0, 0)], order + [t])
    }

    function Add(x: Fill): Positions {
      var p := Touch(x.trader);
      p.(acc := p.acc[x.trader := (p.acc[x.trader].0 + x.base, p.acc[x.trader].1 + x.quote)])
    }

    lemma AddValid(x: Fill)
      requires Valid()
      ensures Add(x).Valid()
    {
      if x.trader !in acc {
        assert forall t :: t in order + [x.trader] <==> t in order || t == x.trader;
      }
    }

    lemma AddPosts(x: Fill)
      requires Valid() && Add(x).Valid()
      ensures Add(x).Fills() == Post(Fills(), x)
    {
      if x.trader in acc {
        var k :| 0 <= k < |order| && order[k] == x.trader;
        AddPresent(x, k);
      } else {
        PostAbsent(Fills(), x);
        assert Add(x).Fills() == Fills() + [x];
      }
    }

    lemma AddPresent(x: Fill, k: nat)
      requires Valid() && Add(x).Valid()
      requires k < |order| && order[k] == x.trader
      ensures Add(x).Fills() == Post(Fills(), x)
    {
      var before, after := Fills(), Add(x).Fills();
      assert after[k] == Fill(x.trader, before[k].base + x.base, before[k].quote + x.quote);
      PostPresent(before, x, k);
      forall i | 0 <= i < |order| && i != k
        ensures after[i] == before[i]
      {
        assert order[i] != x.trader;
      }
      assert after == before[k := after[k]];
    }
  }

  lemma {:induction false} PostPresent(fills: seq<Fill>, x: Fill, k: nat)
    requires k < |fills| && fills[k].trader == x.trader
    requires forall i :: 0 <= i < k ==> fills[i].trader != x.trader
    ensures Post(fills, x) == fills[k := Fill(x.trader, fills[k].base + x.base, fills[k].quote + x.quote)]
  {
    if k > 0 {
      PostPresent(fills[1..], x, k - 1);
    }
  }

  lemma {:induction false} PostAbsent(fills: seq<Fill>, x: Fill)
    requires forall i :: 0 <= i < |fills| ==> fills[i].trader != x.trader
    ensures Post(fills, x) == fills + [x]
  {
    if fills != [] {
      PostAbsent(fills[1..], x);
    }
  }

  // p holds the positions after the given trades were posted to start.
  ghost predicate Stands(p: Positions, start: seq<Fill>, made: seq<Fill>) {
    p.Valid() && p.Fills() == PostAll(start, made)
  }

  method Record(p: Positions, x: Fill, ghost start: seq<Fill>, ghost made: seq<Fill>) returns (q: Positions)
    requires Stands(p, start, made)
    ensures Stands(q, start, made + [x])
  {
    p.AddValid(x);
    p.AddPosts(x);
    PostNext(start, made, x);
    q := p.Add(x);
  }

  // After the first k orders, made has been traded and remaining is left to fill.
  ghost predicate Progress(side: seq<Order>, k: nat, volume: nat, remaining: nat, price: int, buy: bool,
                           made: seq<Fill>)
  {
    k <= |side|
    && made + Trades(side[k..], remaining, price, buy) == Trades(side, volume, price, buy)
  }

  lemma ProgressStart(side: seq<Order>, volume: nat, price: int, buy: bool)
    ensures Progress(side, 0, volume, volume, price, buy, [])
  {
    assert side[0..] == side;
  }

  lemma ProgressNext(side: seq<Order>, k: nat, volume: nat, remaining: nat, price: int, buy: bool,
                     made: seq<Fill>, take: nat)
    requires k < |side| && take == Min(remaining, side[k].size)
    requires Progress(side, k, volume, remaining, price, buy, made)
    ensures Progress(side, k + 1, volume, remaining - take, price, buy,
                     if take == 0 then made else made + [Trade(side[k], take, price, buy)])
  {
    assert side[k..][1..] == side[k + 1..];
    var rest := Trades(side[k + 1..], remaining - take, price, buy);
    assert Trades(side[k..], remaining, price, buy)
        == (if take == 0 then [] else [Trade(side[k], take, price, buy)]) + rest;
  }

  lemma ProgressDone(side: seq<Order>, k: nat, volume: nat, remaining: nat, price: int, buy: bool, made: seq<Fill>)
    requires Progress(side, k, volume, remaining, price, buy, made) && (k == |side| || remaining == 0)
    ensures made == Trades(side, volume, price, buy)
  {
    NothingLeft(side[k..], price, buy);
  }

  // Fills volume on one side, stopping when nothing remains.
  method FillSide(side: seq<Order>, volume: nat, price: int, buy: bool, positions: Positions, ghost start: seq<Fill>)
      returns (p: Positions, traded: nat)
    requires Stands(positions, start, [])
    ensures Stands(p, start, Trades(side, volume, price, buy))
    ensures traded == |Trades(side, volume, price, buy)|
  {
    p, traded := positions, 0;
    var remaining: nat := volume;
    ghost var made: seq<Fill> := [];
    ProgressStart(side, volume, price, buy);
    var k := 0;
    while k < |side| && remaining != 0
      invariant Progress(side, k, volume, remaining, price, buy, made)
      invariant Stands(p, start, made)
      invariant traded == |made|
      decreases |side| - k
    {
      var o := side[k];
      var take: nat := Min(remaining, o.size);
      ProgressNext(side, k, volume, remaining, price, buy, made, take);
      if take != 0 {
        var x := Trade(o, take, price, buy);
        p := Record(p, x, start, made);
        made := made + [x];
        remaining := remaining - take;
        traded := traded + 1;
      }
      k := k + 1;
    }
    ProgressDone(side, k, volume, remaining, price, buy, made);
  }

  lemma PostNext(fills: seq<Fill>, made: seq<Fill>, x: Fill)
    ensures PostAll(fills, made + [x]) == Post(PostAll(fills, made), x)
  {
    PostAllAppend(fills, made, [x]);
    assert PostAll(PostAll(fills, made), [x]) == PostAll(Post(PostAll(fills, made), x), []);
  }

  lemma {:induction false} NothingLeft(side: seq<Order>, price: int, buy: bool)
    ensures Trades(side, 0, price, buy) == []
  {
    if side != [] {
      NothingLeft(side[1..], price, buy);
    }
  }

  lemma {:induction false} PostAllAppend(fills: seq<Fill>, a: seq<Fill>, b: seq<Fill>)
    ensures PostAll(fills, a + b) == PostAll(PostAll(fills, a), b)
    decreases |a|
  {
    if a == [] {
      assert a + b == b;
    } else {
      assert (a + b)[1..] == a[1..] + b;
      PostAllAppend(Post(fills, a[0]), a[1..], b);
    }
  }

  method Allocate(orders: seq<Order>, price: int, volume: nat)
      returns (fills: seq<Fill>, traded: nat)
    ensures exists unmatched, buys, sells ::
      Allocates(orders, price, volume, fills, unmatched, buys, sells) && traded == |orders| - unmatched
  {
    var eligibleBuys, eligibleSells := EligibleOrders(orders, price);
    var buys := SortSide(eligibleBuys, true);
    var sells := SortSide(eligibleSells, false);
    var none := Positions(map[], []);
    var afterBuys, tradedBuys := FillSide(buys, volume, price, true, none, []);
    var afterSells, tradedSells := FillSide(sells, volume, price, false, afterBuys, afterBuys.Fills());
    fills, traded := afterSells.Fills(), tradedBuys + tradedSells;
    assert none.Fills() == [];
    PostAllAppend([], Trades(buys, volume, price, true), Trades(sells, volume, price, false));
    assert Allocates(orders, price, volume, fills, |orders| - traded, buys, sells);
  }

  // --- Clear -----------------------------------------------------------------

  // best beats every candidate already scanned that trades.
  ghost predicate BestOf(orders: seq<Order>, ref: int, scanned: seq<int>, best: Option<int>) {
    match best
    case None => forall p :: p in scanned ==> Matched(orders, p) == 0
    case Some(b) =>
      && b in scanned && Matched(orders, b) > 0
      && forall p :: p in scanned && Matched(orders, p) > 0 && p != b ==> Beats(orders, b, p, ref)
  }

  lemma KeepBest(orders: seq<Order>, ref: int, scanned: seq<int>, b: int, p: int)
    requires BestOf(orders, ref, scanned, Some(b)) && p !in scanned && Matched(orders, p) > 0
    ensures BestOf(orders, ref, scanned + [p], Some(if Beats(orders, p, b, ref) then p else b))
  {
    assert p != b;
    BeatsTotal(orders, p, b, ref);
    if Beats(orders, p, b, ref) {
      forall q | q in scanned + [p] && Matched(orders, q) > 0 && q != p
        ensures Beats(orders, p, q, ref)
      {
        if q != b {
          BeatsTransitive(orders, p, b, q, ref);
        }
      }
    }
  }

  // The scan: the best candidate that trades, if any does.
  method ScanPrices(orders: seq<Order>, refPrice: int, candidates: seq<int>)
      returns (bestPrice: Option<int>, bestMatched: int)
    requires forall i, j :: 0 <= i < j < |candidates| ==> candidates[i] < candidates[j]
    ensures BestOf(orders, refPrice, candidates, bestPrice)
    ensures bestMatched == if bestPrice.Some? then Matched(orders, bestPrice.value) else 0
  {
    bestPrice, bestMatched := None, 0;
    var bestImbal := 0;
    for i := 0 to |candidates|
      invariant BestOf(orders, refPrice, candidates[..i], bestPrice)
      invariant bestMatched == if bestPrice.Some? then Matched(orders, bestPrice.value) else 0
      invariant bestPrice.Some? ==> bestImbal == Imbalance(orders, bestPrice.value)
    {
      var p := candidates[i];
      assert candidates[..i + 1] == candidates[..i] + [p];
      var demand, supply := DepthAt(orders, p);
      DepthNonNegative(orders, p, true);
      DepthNonNegative(orders, p, false);
      var matched := Min(demand, supply);
      if matched != 0 {
        var imbal := Abs(demand - supply);
        if bestPrice.Some? {
          KeepBest(orders, refPrice, candidates[..i], bestPrice.value, p);
        }
        if bestPrice.None? || Better(matched, imbal, p, bestMatched, bestImbal, bestPrice.value, refPrice) {
          bestPrice, bestMatched, bestImbal := Some(p), matched, imbal;
        }
      }
    }
    assert candidates[..|candidates|] == candidates;
  }

  method Clear(orders: seq<Order>, refPrice: int, maxDeviationBps: nat) returns (r: Outcome)
    ensures Clears(orders, refPrice, maxDeviationBps, r)
  {
    if |orders| == 0 {
      return NoCross;
    }
    var candidates := CandidatePrices(orders);
    var bestPrice, bestMatched := ScanPrices(orders, refPrice, candidates);
    if bestPrice.None? || bestMatched == 0 {
      return NoCross;
    }
    assert IsBest(orders, refPrice, bestPrice.value);
    if !WithinBand(bestPrice.value, refPrice, maxDeviationBps) {
      return OutOfBand;
    }
    var fills, traded := Allocate(orders, bestPrice.value, bestMatched);
    var unmatched := |orders| - traded;
    return Cleared(bestPrice.value, bestMatched, fills, unmatched);
  }
}
