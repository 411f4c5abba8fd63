// Two enclaves may disagree on a book whose orders share an ID: with a tie on price
// and ID, either order may be filled first.
module Ties {
  import opened Types
  import opened Sums
  import opened Auction

  const FIRST: Order := Order(1, 10, SIDE_BUY, PRICE_SCALE, 1)
  const SECOND: Order := Order(1, 11, SIDE_BUY, PRICE_SCALE, 1)
  const ONLY: Order := Order(2, 12, SIDE_SELL, PRICE_SCALE, 1)
  const TIED: seq<Order> := [FIRST, SECOND, ONLY]

  function TiedFills(winner: Order): seq<Fill> {
    [Fill(winner.trader, 1, -1), Fill(12, -1, 1)]
  }

  lemma TiedDepth(buy: bool)
    ensures Depth(TIED, PRICE_SCALE, buy) == if buy then 2 else 1
  {
    assert TIED[1..] == [SECOND, ONLY] && TIED[1..][1..] == [ONLY] && TIED[1..][1..][1..] == [];
    var f := Masked(Willing(PRICE_SCALE, buy), Size());
    assert Sum([ONLY], f) == f(ONLY);
    assert Sum([SECOND, ONLY], f) == f(SECOND) + f(ONLY);
  }

  lemma TiedSide(buy: bool)
    ensures Filter(TIED, Willing(PRICE_SCALE, buy)) == if buy then [FIRST, SECOND] else [ONLY]
  {
    assert TIED[1..] == [SECOND, ONLY] && TIED[1..][1..] == [ONLY] && TIED[1..][1..][1..] == [];
    assert Filter([ONLY], Willing(PRICE_SCALE, buy)) == if buy then [] else [ONLY];
    assert Filter([SECOND, ONLY], Willing(PRICE_SCALE, buy)) == if buy then [SECOND] else [ONLY];
  }

  lemma TiedTrades(winner: Order, loser: Order)
    requires {winner, loser} == {FIRST, SECOND}
    ensures AllTrades([winner, loser], [ONLY], 1, PRICE_SCALE) == TiedFills(winner)
    ensures PostAll([], TiedFills(winner)) == TiedFills(winner)
  {
    assert winner == FIRST || winner == SECOND;
    assert loser == FIRST || loser == SECOND;
    assert [winner, loser][1..] == [loser] && [loser][1..] == [] && [ONLY][1..] == [];
    assert Trades([loser], 0, PRICE_SCALE, true) == [];
    assert Trades([winner, loser], 1, PRICE_SCALE, true) == [TiedFills(winner)[0]];
    assert Trades([ONLY], 1, PRICE_SCALE, false) == [TiedFills(winner)[1]];
    var x, y := TiedFills(winner)[0], TiedFills(winner)[1];
    assert [x, y][1..] == [y] && [y][1..] == [] && [x][1..] == [];
    assert Post([], x) == [x] && Post([x], y) == [x, y];
    assert PostAll([], [x, y]) == PostAll([x], [y]) == PostAll([x, y], []);
  }

  lemma TiedBest()
    ensures IsBest(TIED, PRICE_SCALE, PRICE_SCALE) && Matched(TIED, PRICE_SCALE) == 1
  {
    TiedDepth(true);
    TiedDepth(false);
    assert FIRST in TIED;
    assert forall p :: IsLimit(TIED, p) ==> p == PRICE_SCALE;
  }

  lemma TiedAllocates(winner: Order, loser: Order)
    requires {winner, loser} == {FIRST, SECOND} && winner != loser
    ensures Allocates(TIED, PRICE_SCALE, 1, TiedFills(winner), 1, [winner, loser], [ONLY])
  {
    TiedSide(true);
    TiedSide(false);
    TiedTrades(winner, loser);
    assert winner == FIRST || winner == SECOND;
    assert multiset([winner, loser]) == multiset([FIRST, SECOND]);
  }

  lemma TiedClears(winner: Order, loser: Order, bps: nat)
    requires {winner, loser} == {FIRST, SECOND} && winner != loser
    ensures Clears(TIED, PRICE_SCALE, bps, Cleared(PRICE_SCALE, 1, TiedFills(winner), 1))
  {
    TiedBest();
    TiedAllocates(winner, loser);
  }

  // The same book clears to two outcomes, each filling one of the tied orders.
  lemma EqualIdsDisagree(bps: nat) returns (r: Outcome, r': Outcome)
    ensures Clears(TIED, PRICE_SCALE, bps, r) && Clears(TIED, PRICE_SCALE, bps, r') && r != r'
    ensures !IdsIdentify(TIED)
  {
    r := Cleared(PRICE_SCALE, 1, TiedFills(FIRST), 1);
    r' := Cleared(PRICE_SCALE, 1, TiedFills(SECOND), 1);
    TiedClears(FIRST, SECOND, bps);
    TiedClears(SECOND, FIRST, bps);
    assert TiedFills(FIRST)[0] != TiedFills(SECOND)[0];
    assert FIRST in TIED && SECOND in TIED;
  }
}
