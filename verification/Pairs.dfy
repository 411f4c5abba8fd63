// The smallest book that trades: one buy and one sell of the same size that
// meet at one limit.
module Pairs {
  import opened Types
  import opened Sums
  import opened Auction

  predicate Meet(b: Order, s: Order) {
    && b.side == SIDE_BUY && s.side == SIDE_SELL
    && b.limit == s.limit && b.size == s.size > 0
    && b.trader != s.trader
  }

  // Each trades in full with the other.
  function PairFills(b: Order, s: Order): seq<Fill> {
    [Fill(b.trader, b.size, -QuoteFor(b.size, b.limit)), Fill(s.trader, 0 - s.size, QuoteFor(s.size, s.limit))]
  }

  lemma PairSides(b: Order, s: Order, buy: bool)
    requires Meet(b, s)
    ensures Filter([b, s], Willing(b.limit, buy)) == if buy then [b] else [s]
    ensures Depth([b, s], b.limit, buy) == b.size
  {
    assert [b, s][1..] == [s] && [s][1..] == [];
    assert Filter([s], Willing(b.limit, buy)) == if buy then [] else [s];
    assert Sum([s], Masked(Willing(b.limit, buy), Size())) == if buy then 0 else s.size;
  }

  lemma PairTrades(b: Order, s: Order)
    requires Meet(b, s)
    ensures Trades([b], b.size, b.limit, true) == [PairFills(b, s)[0]]
    ensures Trades([s], b.size, b.limit, false) == [PairFills(b, s)[1]]
  {
    assert [b][1..] == [] && [s][1..] == [];
  }

  lemma PairAllocates(b: Order, s: Order)
    requires Meet(b, s)
    ensures Allocates([b, s], b.limit, b.size, PairFills(b, s), 0, [b], [s])
  {
    PairSides(b, s, true);
    PairSides(b, s, false);
    PairTrades(b, s);
    var x, y := PairFills(b, s)[0], PairFills(b, s)[1];
    assert AllTrades([b], [s], b.size, b.limit) == [x, y];
    assert [x, y][1..] == [y] && [y][1..] == [];
    assert Post([], x) == [x] && [x][1..] == [];
    assert Post([x], y) == [x, y];
    assert PostAll([], [x, y]) == PostAll([x], [y]) == PostAll([x, y], []);
  }

  // Such a book clears at its limit, for any reference that allows it.
  lemma PairClears(b: Order, s: Order, ref: int, bps: nat)
    requires Meet(b, s) && WithinBand(b.limit, ref, bps)
    ensures Clears([b, s], ref, bps, Cleared(b.limit, b.size, PairFills(b, s), 0))
  {
    PairSides(b, s, true);
    PairSides(b, s, false);
    PairAllocates(b, s);
    assert b in [b, s];
    assert forall p :: IsLimit([b, s], p) ==> p == b.limit;
    assert IsBest([b, s], ref, b.limit);
  }
}
