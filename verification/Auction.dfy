// What the uniform-price auction computes (go/internal/matching/matching.go),
// stated without saying how: the best price, the order in which a side is
// filled, and the outcomes Clear may return.
module Auction {
  import opened Types
  import opened Sums

  function QuoteFor(base: int, price: int): int {
    base * price / PRICE_SCALE
  }

  predicate OnSide(o: Order, buy: bool) {
    o.side == if buy then SIDE_BUY else SIDE_SELL
  }

  predicate Accepts(limit: int, price: int, buy: bool) {
    if buy then limit >= price else limit <= price
  }

  function Willing(price: int, buy: bool): Order -> bool {
    o => OnSide(o, buy) && Accepts(o.limit, price, buy)
  }

  function Size(): Order -> int {
    (o: Order) => o.size
  }

  // Interest on one side at a price: demand for buys, supply for sells.
  function Depth(os: seq<Order>, price: int, buy: bool): int {
    Sum(os, Masked(Willing(price, buy), Size()))
  }

  function Matched(os: seq<Order>, price: int): int {
    Min(Depth(os, price, true), Depth(os, price, false))
  }

  function Imbalance(os: seq<Order>, price: int): int {
    Abs(Depth(os, price, true) - Depth(os, price, false))
  }

  // Price p, matching m with imbalance i, is preferred to bp: for its volume, else
  // its balance, else its nearness to a positive reference, else for being lower.
  predicate Better(m: int, i: int, p: int, bm: int, bi: int, bp: int, ref: int) {
    if m != bm then m > bm
    else if i != bi then i < bi
    else if ref > 0 && Abs(p - ref) != Abs(bp - ref) then Abs(p - ref) < Abs(bp - ref)
    else p < bp
  }

  predicate Beats(os: seq<Order>, p: int, q: int, ref: int) {
    Better(Matched(os, p), Imbalance(os, p), p, Matched(os, q), Imbalance(os, q), q, ref)
  }

  predicate IsLimit(os: seq<Order>, p: int) {
    exists o :: o in os && o.limit == p
  }

  // p is a limit price that trades and beats every other limit price that trades.
  ghost predicate IsBest(os: seq<Order>, ref: int, p: int) {
    && IsLimit(os, p)
    && Matched(os, p) > 0
    && forall q :: IsLimit(os, q) && Matched(os, q) > 0 && q != p ==> Beats(os, p, q, ref)
  }

  predicate WithinBand(price: int, ref: int, bps: nat) {
    ref <= 0 || Abs(price - ref) * 10000 <= ref * bps
  }

  // Price priority, then the lower ID.
  predicate Before(x: Order, y: Order, buy: bool) {
    if x.limit != y.limit then (if buy then x.limit > y.limit else x.limit < y.limit)
    else x.id < y.id
  }

  ghost predicate InPriority(side: seq<Order>, buy: bool) {
    forall i, j :: 0 <= i < j < |side| ==> !Before(side[j], side[i], buy)
  }

  // side lists exactly the orders willing to trade at price, best first.
  ghost predicate FillOrder(side: seq<Order>, os: seq<Order>, price: int, buy: bool) {
    multiset(side) == multiset(Filter(os, Willing(price, buy))) && InPriority(side, buy)
  }

  // How much of each order a greedy fill of volume takes.
  function Takes(side: seq<Order>, volume: nat): (takes: seq<nat>)
    ensures |takes| == |side|
  {
    if side == [] then []
    else
      var take: nat := Min(volume, side[0].size);
      [take] + Takes(side[1..], volume - take)
  }

  // One trade of an order: base and quote move in opposite directions.
  function Trade(o: Order, take: int, price: int, buy: bool): Fill {
    if buy then Fill(o.trader, take, -QuoteFor(take, price))
    else Fill(o.trader, -take, QuoteFor(take, price))
  }

  // The trades of one side, in the order they are made; untouched orders make none.
  function Trades(side: seq<Order>, volume: nat, price: int, buy: bool): (trades: seq<Fill>)
    ensures |trades| <= |side|
  {
    if side == [] then []
    else
      var take: nat := Min(volume, side[0].size);
      (if take == 0 then [] else [Trade(side[0], take, price, buy)])
      + Trades(side[1..], volume - take, price, buy)
  }

  // Adds one trade to the per-trader positions.
  function Post(fills: seq<Fill>, x: Fill): seq<Fill> {
    if fills == [] then [x]
    else if fills[0].trader == x.trader then
      [Fill(x.trader, fills[0].base + x.base, fills[0].quote + x.quote)] + fills[1..]
    else [fills[0]] + Post(fills[1..], x)
  }

  function PostAll(fills: seq<Fill>, trades: seq<Fill>): seq<Fill>
    decreases |trades|
  {
    if trades == [] then fills else PostAll(Post(fills, trades[0]), trades[1..])
  }

  function AllTrades(buys: seq<Order>, sells: seq<Order>, volume: nat, price: int): seq<Fill> {
    Trades(buys, volume, price, true) + Trades(sells, volume, price, false)
  }

  datatype Outcome =
    | NoCross
    | OutOfBand
    | Cleared(price: int, matched: int, fills: seq<Fill>, unmatched: int)

  // The fills and the unmatched count come from filling volume on both sides.
  ghost predicate Allocates(os: seq<Order>, price: int, volume: nat, fills: seq<Fill>, unmatched: int,
                            buys: seq<Order>, sells: seq<Order>)
  {
    && FillOrder(buys, os, price, true)
    && FillOrder(sells, os, price, false)
    && fills == PostAll([], AllTrades(buys, sells, volume, price))
    && unmatched == |os| - |AllTrades(buys, sells, volume, price)|
  }

  // The outcomes Clear may return. Orders that tie on price and ID may be
  // filled in either order; with distinct IDs the outcome is unique.
  ghost predicate Clears(os: seq<Order>, ref: int, bps: nat, r: Outcome) {
    match r
    case NoCross => forall p :: IsLimit(os, p) ==> Matched(os, p) <= 0
    case OutOfBand => exists p :: IsBest(os, ref, p) && !WithinBand(p, ref, bps)
    case Cleared(price, matched, fills, unmatched) =>
      && IsBest(os, ref, price)
      && WithinBand(price, ref, bps)
      && matched == Matched(os, price)
      && exists buys, sells :: Allocates(os, price, matched, fills, unmatched, buys, sells)
  }

  // No two different orders share an ID.
  ghost predicate IdsIdentify(os: seq<Order>) {
    forall x, y :: x in os && y in os && x.id == y.id ==> x == y
  }
}
