// When the numbers Clear computes fit the words the venue reads them in. Orders
// have no upper bound inside the enclave, so they need not.
module Overflow {
  import opened Types
  import opened Arithmetic
  import opened Sums
  import opened Auction
  import opened AuctionTheorems
  import opened Allocation
  import opened Codec
  import opened Venue
  import opened Pairs
  import Enclave

  // --- A condition on the orders ---------------------------------------------

  // No limit can price the whole book beyond a word.
  predicate FitsWords(os: seq<Order>) {
    && Sum(os, Size()) < I256
    && forall o :: o in os ==> 0 <= o.limit < U256 && Sum(os, Size()) * o.limit < I256 * PRICE_SCALE
  }

  const CAP: nat := 0x1_00000000_00000000_00000000

  // An order anyone can check on its own.
  predicate Capped(o: Order) {
    o.size <= CAP && 0 <= o.limit <= CAP
  }

  lemma {:induction false} CappedSum(os: seq<Order>)
    requires forall o :: o in os ==> o.size <= CAP
    ensures 0 <= Sum(os, Size()) <= |os| * CAP
  {
    if os != [] {
      assert forall o :: o in os[1..] ==> o in os;
      CappedSum(os[1..]);
    }
  }

  // Up to 2^64 orders with sizes and limits of at most 96 bits always fit.
  lemma CappedFits(os: seq<Order>)
    requires |os| <= U64 && forall o :: o in os ==> Capped(o)
    ensures FitsWords(os)
  {
    CappedSum(os);
    var total := Sum(os, Size());
    MulBoth(|os|, CAP, U64, CAP);
    forall o | o in os
      ensures total * o.limit < I256 * PRICE_SCALE
    {
      MulBoth(total, o.limit, U64 * CAP, CAP);
    }
  }

  // --- What it implies -------------------------------------------------------

  // However a side's trades are told apart, no part of them is beyond the whole.
  predicate Within(base: int, quote: int, volume: int, worth: int, buy: bool) {
    var sign := if buy then 1 else -1;
    0 <= sign * base <= volume && 0 <= -sign * quote * PRICE_SCALE <= worth
  }

  lemma TradeWithin(base: int, quote: int, volume: int, worth: int, buy: bool, o: Order, take: nat, price: int)
    requires Within(base, quote, volume, worth, buy) && 0 <= take * price
    ensures Within(base, quote, volume + take, worth + take * price, buy)
    ensures var x := Trade(o, take, price, buy);
      Within(base + x.base, quote + x.quote, volume + take, worth + take * price, buy)
  {
    var value := take * price;
    assert 0 <= QuoteFor(take, price) * PRICE_SCALE <= value;
  }

  function Part(trades: seq<Fill>, p: Fill -> bool): (int, int) {
    (Sum(trades, Masked(p, Base())), Sum(trades, Masked(p, Quote())))
  }

  lemma PartOfTrades(side: seq<Order>, volume: nat, price: int, buy: bool, p: Fill -> bool)
    requires side != []
    ensures var take: nat := Min(volume, side[0].size);
      var x, rest := Trade(side[0], take, price, buy), Part(Trades(side[1..], volume - take, price, buy), p);
      Part(Trades(side, volume, price, buy), p)
      == if take > 0 && p(x) then (rest.0 + x.base, rest.1 + x.quote) else rest
  {
    var take: nat := Min(volume, side[0].size);
    if take > 0 {
      assert Trades(side, volume, price, buy)[1..] == Trades(side[1..], volume - take, price, buy);
    } else {
      assert Trades(side, volume, price, buy) == Trades(side[1..], volume - take, price, buy);
    }
  }

  lemma {:induction false} TradesWithin(side: seq<Order>, volume: nat, price: int, buy: bool, p: Fill -> bool)
    requires price >= 0
    ensures var part := Part(Trades(side, volume, price, buy), p);
      Within(part.0, part.1, volume, volume * price, buy)
  {
    if side == [] {
      MulNonNegative(volume, price);
    } else {
      var take: nat := Min(volume, side[0].size);
      var rest := Part(Trades(side[1..], volume - take, price, buy), p);
      TradesWithin(side[1..], volume - take, price, buy, p);
      MulNonNegative(take, price);
      TradeWithin(rest.0, rest.1, volume - take, (volume - take) * price, buy, side[0], take, price);
      Distribute(volume - take, take, price);
      PartOfTrades(side, volume, price, buy, p);
    }
  }

  // A trader's entry is what its trades on both sides come to.
  lemma EntryIsParts(os: seq<Order>, price: int, volume: nat, fills: seq<Fill>, unmatched: int,
                     buys: seq<Order>, sells: seq<Order>, x: Fill)
    requires Allocates(os, price, volume, fills, unmatched, buys, sells) && x in fills
    ensures var b := Part(Trades(buys, volume, price, true), OfTrader(x.trader));
      var s := Part(Trades(sells, volume, price, false), OfTrader(x.trader));
      x.base == b.0 + s.0 && x.quote == b.1 + s.1
  {
    FillsAggregate(os, price, volume, fills, unmatched, buys, sells);
    PositionsAreAdditive(x.trader);
    EntryIsPosition(fills, x, Base());
    EntryIsPosition(fills, x, Quote());
    FillsSum(os, price, volume, fills, unmatched, buys, sells, Masked(OfTrader(x.trader), Base()));
    FillsSum(os, price, volume, fills, unmatched, buys, sells, Masked(OfTrader(x.trader), Quote()));
  }

  lemma BothWithin(b: (int, int), s: (int, int), volume: int, worth: int)
    requires Within(b.0, b.1, volume, worth, true) && Within(s.0, s.1, volume, worth, false)
    ensures Abs(b.0 + s.0) <= volume && Abs(b.1 + s.1) * PRICE_SCALE <= worth
  {
  }

  // So it is no larger than the matched volume, or its worth.
  lemma EntryWithin(os: seq<Order>, price: int, volume: nat, fills: seq<Fill>, unmatched: int,
                    buys: seq<Order>, sells: seq<Order>, x: Fill)
    requires Allocates(os, price, volume, fills, unmatched, buys, sells) && x in fills && price >= 0
    ensures Abs(x.base) <= volume && Abs(x.quote) * PRICE_SCALE <= volume * price
  {
    EntryIsParts(os, price, volume, fills, unmatched, buys, sells, x);
    TradesWithin(buys, volume, price, true, OfTrader(x.trader));
    TradesWithin(sells, volume, price, false, OfTrader(x.trader));
    BothWithin(Part(Trades(buys, volume, price, true), OfTrader(x.trader)),
               Part(Trades(sells, volume, price, false), OfTrader(x.trader)), volume, volume * price);
  }

  lemma MatchedAtMost(os: seq<Order>, price: int)
    ensures 0 <= Matched(os, price) <= Sum(os, Size())
  {
    DepthNonNegative(os, price, true);
    DepthNonNegative(os, price, false);
    SumLe(os, Masked(Willing(price, true), Size()), Size());
  }

  lemma WorthAtMost(volume: int, total: int, price: int)
    requires volume <= total && price >= 0
    ensures volume * price <= total * price
  {
  }

  lemma EntriesFit(os: seq<Order>, price: int, volume: nat, fills: seq<Fill>, unmatched: int,
                   buys: seq<Order>, sells: seq<Order>)
    requires Allocates(os, price, volume, fills, unmatched, buys, sells) && price >= 0
    requires volume < I256 && volume * price < I256 * PRICE_SCALE
    ensures forall f :: f in fills ==> IsInt256(f.base) && IsInt256(f.quote)
  {
    forall f | f in fills
      ensures IsInt256(f.base) && IsInt256(f.quote)
    {
      EntryWithin(os, price, volume, fills, unmatched, buys, sells, f);
    }
  }

  lemma PriceFits(os: seq<Order>, price: int)
    requires FitsWords(os) && IsLimit(os, price)
    ensures IsUint256(price) && 0 <= Matched(os, price) < I256
    ensures Matched(os, price) * price < I256 * PRICE_SCALE
  {
    MatchedAtMost(os, price);
    WorthAtMost(Matched(os, price), Sum(os, Size()), price);
  }

  // If the orders fit words, so does all that Clear makes of them.
  lemma ClearedInRange(os: seq<Order>, req: RunRequest, o: Outcome)
    requires Clears(os, req.refPrice, req.maxDeviationBps, o) && o.Cleared? && FitsWords(os)
    ensures InRange(Enclave.SettlementOf(req, o)) <==> |o.fills| < U64
  {
    PriceFits(os, o.price);
    var buys, sells :| Allocates(os, o.price, o.matched, o.fills, o.unmatched, buys, sells);
    EntriesFit(os, o.price, o.matched, o.fills, o.unmatched, buys, sells);
    SettlementInRange(req, o);
  }

  lemma SettlementInRange(req: RunRequest, o: Outcome)
    requires o.Cleared? && IsUint256(o.price) && IsUint256(o.matched)
    requires forall f :: f in o.fills ==> IsInt256(f.base) && IsInt256(f.quote)
    ensures InRange(Enclave.SettlementOf(req, o)) <==> |o.fills| < U64
  {
  }

  // --- A book that does not fit ----------------------------------------------

  const HUGE_BUY: Order := Order(1, 10, SIDE_BUY, PRICE_SCALE, U256)
  const HUGE_SELL: Order := Order(2, 11, SIDE_SELL, PRICE_SCALE, U256)
  const NOTHING: seq<Fill> := [Fill(10, 0, 0), Fill(11, 0, 0)]

  lemma HugeDecodes(req: RunRequest, o: Outcome)
    requires o == Cleared(PRICE_SCALE, U256, PairFills(HUGE_BUY, HUGE_SELL), 0)
    ensures Decode(Encode(Enclave.SettlementOf(req, o)))
         == Some(Settlement(req.chainId, req.venue, req.batchId, PRICE_SCALE, 0, NOTHING))
  {
    DecodeEncoded(Enclave.SettlementOf(req, o));
    assert QuoteFor(U256, PRICE_SCALE) == U256;
    assert WrapInt(U256) == 0 && WrapInt(-U256) == 0;
    assert WrapFills(o.fills) == NOTHING;
  }

  lemma NothingMoves(b: Books, feeBps: nat)
    requires b.totalFee == 0
    ensures NetDeltas(NOTHING, 0, 0) == Done((0, 0)) && ApplyFills(b, NOTHING, feeBps) == Done(b)
  {
    assert NOTHING[1..] == [NOTHING[1]] && NOTHING[1..][1..] == [];
    assert FeeOn(0, feeBps) == 0;
    assert ApplyFill(b, NOTHING[0], feeBps) == Done(b) && ApplyFill(b, NOTHING[1], feeBps) == Done(b);
    assert ApplyFills(b, [NOTHING[1]], feeBps) == ApplyFills(b, [], feeBps);
  }

  // A buy and a sell of 2^256 each clear in full, and the venue reads their
  // settlement as one that matches nothing: it closes the batch and moves no balance.
  lemma HugeBatchVanishes(v: VenueState, req: RunRequest, signers: seq<Address>, feed: Feed, now: nat)
      returns (o: Outcome)
    requires WithinBand(PRICE_SCALE, req.refPrice, req.maxDeviationBps)
    requires req.chainId == v.chainId && req.venue == v.self && req.batchId !in v.batchSettled
    requires v.teeSigners != [] && VerifyQuorum(v, signers) == Pass && ReferencePrice(feed, now).Done?
    requires BandCheck(PRICE_SCALE, ReferencePrice(feed, now).value, v.maxDeviationBps) == Pass
    ensures Clears([HUGE_BUY, HUGE_SELL], req.refPrice, req.maxDeviationBps, o) && o.Cleared? && o.matched == U256
    ensures !InRange(Enclave.SettlementOf(req, o))
    ensures Settle(v, Encode(Enclave.SettlementOf(req, o)), signers, feed, now)
         == CloseBatch(v, req.batchId, PRICE_SCALE, 0, 0, now, 2)
  {
    o := Cleared(PRICE_SCALE, U256, PairFills(HUGE_BUY, HUGE_SELL), 0);
    PairClears(HUGE_BUY, HUGE_SELL, req.refPrice, req.maxDeviationBps);
    HugeDecodes(req, o);
    NothingMoves(Venue.Books(v.baseBalance, v.quoteBalance, 0), v.feeBps);
  }
}
