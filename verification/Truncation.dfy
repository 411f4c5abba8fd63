// An honest settlement is not always one the venue accepts: quote is truncated
// order by order, and the venue wants the deltas to sum to exactly zero.
module Truncation {
  import opened Types
  import opened Arithmetic
  import opened Sums
  import opened Auction
  import opened Allocation
  import opened Codec
  import opened Venue
  import opened VenueTheorems
  import Enclave
  import Lots

  // The settlement passes every check of settle up to conservation.
  predicate Admissible(v: VenueState, req: RunRequest, o: Outcome, feed: Feed, now: nat)
    requires o.Cleared? && o.price >= 0
  {
    && req.chainId == v.chainId && req.venue == v.self && req.batchId !in v.batchSettled
    && ReferencePrice(feed, now).Done?
    && BandCheck(o.price, ReferencePrice(feed, now).value, v.maxDeviationBps) == Pass
    && NetDeltas(o.fills, 0, 0).Done?
  }

  // Past the checks before it, conservation passes exactly when truncation
  // dropped the same amount from the buys as from the sells.
  lemma TruncationVerdict(v: VenueState, req: RunRequest, os: seq<Order>, o: Outcome,
                          buys: seq<Order>, sells: seq<Order>, feed: Feed, now: nat)
    requires Clears(os, req.refPrice, req.maxDeviationBps, o) && o.Cleared?
    requires Allocates(os, o.price, o.matched, o.fills, o.unmatched, buys, sells)
    requires InRange(Enclave.SettlementOf(req, o)) && Admissible(v, req, o, feed, now)
    ensures CheckSettlement(v, Enclave.SettlementOf(req, o), feed, now)
         == if Sum(Trades(buys, o.matched, o.price, true), Dropped(o.price))
             == Sum(Trades(sells, o.matched, o.price, false), Dropped(o.price))
            then Pass else Fail(QuoteNotConserved)
  {
    BaseConserved(os, o.price, o.fills, o.unmatched, buys, sells);
    QuoteConservedExactly(os, o.price, o.fills, o.unmatched, buys, sells);
    NetDeltasAre(o.fills, 0, 0);
  }

  // A book on a grid of lots and ticks is never refused for conservation.
  lemma GridPasses(v: VenueState, req: RunRequest, os: seq<Order>, o: Outcome,
                   buys: seq<Order>, sells: seq<Order>, feed: Feed, now: nat, lot: nat, tick: nat)
    requires lot > 0 && tick > 0 && Lots.OnGrid(os, lot, tick) && Mod(lot * tick, PRICE_SCALE) == 0
    requires Clears(os, req.refPrice, req.maxDeviationBps, o) && o.Cleared?
    requires Allocates(os, o.price, o.matched, o.fills, o.unmatched, buys, sells)
    requires InRange(Enclave.SettlementOf(req, o)) && Admissible(v, req, o, feed, now)
    ensures CheckSettlement(v, Enclave.SettlementOf(req, o), feed, now) == Pass
  {
    TruncationVerdict(v, req, os, o, buys, sells, feed, now);
    Lots.GridSides(os, o.price, buys, sells, lot, tick);
  }

  // --- When an honest batch settles ------------------------------------------

  // The fee recipient's balance, the fee total and the batch number have room.
  predicate HasRoom(v: VenueState, batchId: Uint64, fills: seq<Fill>) {
    var fees := Sum(fills, Fee(v.feeBps));
    && fees < U256 && v.feesCollected + fees < U256 && batchId + 1 < U64
    && At(v.quoteBalance, v.feeRecipient)
       + Sum(fills, Masked(OfTrader(v.feeRecipient), NetQuote(v.feeBps))) + fees < U256
  }

  // Given distinct traders and room for the numbers, fills execute exactly when
  // every trader can pay.
  lemma ExecutesExactly(v: VenueState, s: Settlement, now: nat)
    requires InRange(s) && DistinctTraders(s.fills) && HasRoom(v, s.batchId, s.fills)
    requires forall f :: f in s.fills ==> Fits(Venue.Books(v.baseBalance, v.quoteBalance, 0), f, v.feeBps)
    ensures Execute(v, s, now).Done? <==>
      forall f :: f in s.fills ==> Covered(Venue.Books(v.baseBalance, v.quoteBalance, 0), f, v.feeBps)
  {
    var b := Venue.Books(v.baseBalance, v.quoteBalance, 0);
    ApplyFillsExactly(b, s.fills, v.feeBps);
    if ApplyFills(b, s.fills, v.feeBps).Done? {
      ApplyFillsFees(b, s.fills, v.feeBps);
      ApplyFillsPerTrader(b, s.fills, v.feeBps, v.feeRecipient);
    }
  }

  // So a quorum's honest settlement, past the checks before conservation, settles
  // exactly when truncation is even-handed and every trader can pay.
  lemma HonestBatchSettlesExactly(v: VenueState, req: RunRequest, os: seq<Order>, o: Outcome,
                                  buys: seq<Order>, sells: seq<Order>, signers: seq<Address>, feed: Feed, now: nat)
    requires Clears(os, req.refPrice, req.maxDeviationBps, o) && o.Cleared?
    requires Allocates(os, o.price, o.matched, o.fills, o.unmatched, buys, sells)
    requires InRange(Enclave.SettlementOf(req, o)) && Admissible(v, req, o, feed, now)
    requires v.teeSigners != [] && VerifyQuorum(v, signers) == Pass && HasRoom(v, req.batchId, o.fills)
    requires forall f :: f in o.fills ==> Fits(Venue.Books(v.baseBalance, v.quoteBalance, 0), f, v.feeBps)
    ensures Settle(v, Encode(Enclave.SettlementOf(req, o)), signers, feed, now).Done? <==>
      && Sum(Trades(buys, o.matched, o.price, true), Dropped(o.price))
         == Sum(Trades(sells, o.matched, o.price, false), Dropped(o.price))
      && forall f :: f in o.fills ==> Covered(Venue.Books(v.baseBalance, v.quoteBalance, 0), f, v.feeBps)
  {
    var s := Enclave.SettlementOf(req, o);
    TruncationVerdict(v, req, os, o, buys, sells, feed, now);
    FillsAggregate(os, o.price, o.matched, o.fills, o.unmatched, buys, sells);
    ExecutesExactly(v, s, now);
    RoundTripExactly(s);
    SettleIs(v, s, signers, feed, now);
  }

  lemma SettleIs(v: VenueState, s: Settlement, signers: seq<Address>, feed: Feed, now: nat)
    requires InRange(s) && Decode(Encode(s)) == Some(s) && v.teeSigners != [] && VerifyQuorum(v, signers) == Pass
    ensures Settle(v, Encode(s), signers, feed, now).Done? <==>
      CheckSettlement(v, s, feed, now) == Pass && Execute(v, s, now).Done?
  {
  }

  // --- A book that clears but cannot settle ----------------------------------

  const PRICE: nat := 1_500_000_000_000_000_000
  const BUY_ONE: Order := Order(1, 10, SIDE_BUY, PRICE, 1)
  const BUY_TWO: Order := Order(2, 11, SIDE_BUY, PRICE, 1)
  const SELL_BOTH: Order := Order(3, 12, SIDE_SELL, PRICE, 2)
  const BOOK: seq<Order> := [BUY_ONE, BUY_TWO, SELL_BOTH]
  const FILLS: seq<Fill> := [Fill(10, 1, -1), Fill(11, 1, -1), Fill(12, -2, 3)]

  lemma BookDepth(buy: bool)
    ensures Depth(BOOK, PRICE, buy) == 2
    ensures Filter(BOOK, Willing(PRICE, buy)) == if buy then [BUY_ONE, BUY_TWO] else [SELL_BOTH]
  {
    assert BOOK[1..] == [BUY_TWO, SELL_BOTH];
    assert BOOK[1..][1..] == [SELL_BOTH];
    assert BOOK[1..][1..][1..] == [];
    var f := Masked(Willing(PRICE, buy), Size());
    assert Sum([SELL_BOTH], f) == f(SELL_BOTH);
    assert Sum([BUY_TWO, SELL_BOTH], f) == f(BUY_TWO) + f(SELL_BOTH);
    assert Filter([SELL_BOTH], Willing(PRICE, buy)) == if buy then [] else [SELL_BOTH];
    assert Filter([BUY_TWO, SELL_BOTH], Willing(PRICE, buy)) == if buy then [BUY_TWO] else [SELL_BOTH];
  }

  lemma BookTrades()
    ensures Trades([BUY_ONE, BUY_TWO], 2, PRICE, true) == [Fill(10, 1, -1), Fill(11, 1, -1)]
    ensures Trades([SELL_BOTH], 2, PRICE, false) == [Fill(12, -2, 3)]
  {
    assert QuoteFor(1, PRICE) == 1 && QuoteFor(2, PRICE) == 3;
    assert [BUY_ONE, BUY_TWO][1..] == [BUY_TWO] && [BUY_TWO][1..] == [] && [SELL_BOTH][1..] == [];
    assert Trades([BUY_TWO], 1, PRICE, true) == [Fill(11, 1, -1)];
  }

  lemma BookFills()
    ensures PostAll([], FILLS) == FILLS
  {
    assert FILLS[1..] == [FILLS[1], FILLS[2]] && FILLS[1..][1..] == [FILLS[2]] && FILLS[1..][1..][1..] == [];
    assert Post([], FILLS[0]) == [FILLS[0]];
    assert Post([FILLS[0]], FILLS[1]) == [FILLS[0], FILLS[1]];
    assert [FILLS[0], FILLS[1]][1..] == [FILLS[1]];
    assert Post([FILLS[1]], FILLS[2]) == [FILLS[1], FILLS[2]];
    assert Post([FILLS[0], FILLS[1]], FILLS[2]) == FILLS;
  }

  lemma BookBest(ref: int)
    ensures IsBest(BOOK, ref, PRICE) && Matched(BOOK, PRICE) == 2
  {
    BookDepth(true);
    BookDepth(false);
    assert BUY_ONE in BOOK;
    assert forall p :: IsLimit(BOOK, p) ==> p == PRICE;
  }

  lemma BookAllocates()
    ensures Allocates(BOOK, PRICE, 2, FILLS, 0, [BUY_ONE, BUY_TWO], [SELL_BOTH])
  {
    BookDepth(true);
    BookDepth(false);
    BookTrades();
    BookFills();
    assert AllTrades([BUY_ONE, BUY_TWO], [SELL_BOTH], 2, PRICE) == FILLS;
  }

  lemma BookNets()
    ensures NetDeltas(FILLS, 0, 0) == Done((0, 1))
  {
    assert FILLS[1..] == [FILLS[1], FILLS[2]] && FILLS[1..][1..] == [FILLS[2]] && FILLS[1..][1..][1..] == [];
    assert NetDeltas([FILLS[2]], 2, -2) == Done((0, 1));
    assert NetDeltas([FILLS[1], FILLS[2]], 1, -1) == Done((0, 1));
  }

  lemma BookClears(ref: int, bps: nat)
    requires WithinBand(PRICE, ref, bps)
    ensures Clears(BOOK, ref, bps, Cleared(PRICE, 2, FILLS, 0))
  {
    BookBest(ref);
    BookAllocates();
  }

  // The buys pay 1 + 1 and the sell receives 3: at any reference that allows the
  // price, Clear makes a unit of quote out of truncation and the venue, past every
  // other check, rejects the settlement.
  lemma HonestBatchCanBeRejected(ref: int, bps: nat, v: VenueState, batchId: Uint64, feed: Feed, now: nat)
    requires WithinBand(PRICE, ref, bps)
    requires batchId !in v.batchSettled && ReferencePrice(feed, now).Done?
    requires BandCheck(PRICE, ReferencePrice(feed, now).value, v.maxDeviationBps) == Pass
    ensures Clears(BOOK, ref, bps, Cleared(PRICE, 2, FILLS, 0))
    ensures var s := Settlement(v.chainId, v.self, batchId, PRICE, 2, FILLS);
      InRange(s) && CheckSettlement(v, s, feed, now) == Fail(QuoteNotConserved)
  {
    BookClears(ref, bps);
    BookNets();
  }
}
