// What the venue's checks amount to: who signed, where the price lies, and that
// a settlement moves balances without making or losing any.
module VenueTheorems {
  import opened Types
  import opened Sums
  import opened Token
  import opened Codec
  import opened Auction
  import AuctionTheorems
  import opened Allocation
  import opened Venue

  // --- Quorum ----------------------------------------------------------------

  ghost predicate Increasing(signers: seq<Address>, previous: Address) {
    && (forall i :: 0 <= i < |signers| ==> previous < signers[i])
    && (forall i, j :: 0 <= i < j < |signers| ==> signers[i] < signers[j])
  }

  lemma {:induction false} SignersChecked(isTee: set<Address>, signers: seq<Address>, previous: Address)
    ensures CheckSigners(isTee, signers, previous) == Pass <==>
      && Increasing(signers, previous)
      && forall i :: 0 <= i < |signers| ==> signers[i] in isTee && signers[i] != ZERO_ADDRESS
    decreases |signers|
  {
    if signers != [] {
      SignersChecked(isTee, signers[1..], signers[0]);
      var rest := signers[1..];
      assert forall i :: 0 < i < |signers| ==> signers[i] == rest[i - 1];
      if CheckSigners(isTee, signers, previous) == Pass {
        forall i, j | 0 <= i < j < |signers|
          ensures signers[i] < signers[j]
        {
          if i > 0 {
            assert rest[i - 1] < rest[j - 1];
          }
        }
      }
    }
  }

  function Members(signers: seq<Address>): set<Address> {
    set a | a in signers
  }

  lemma {:induction false} IncreasingAreDistinct(signers: seq<Address>)
    requires forall i, j :: 0 <= i < j < |signers| ==> signers[i] < signers[j]
    ensures |Members(signers)| == |signers|
  {
    if signers != [] {
      IncreasingAreDistinct(signers[1..]);
      assert Members(signers) == {signers[0]} + Members(signers[1..]);
      assert signers[0] !in signers[1..];
    }
  }

  // A quorum verifies exactly when enough signers are registered and listed in
  // strictly increasing order.
  lemma QuorumExactly(v: VenueState, signers: seq<Address>)
    ensures VerifyQuorum(v, signers) == Pass <==>
      && |signers| >= v.signatureThreshold
      && Increasing(signers, ZERO_ADDRESS)
      && forall i :: 0 <= i < |signers| ==> signers[i] in v.isTee
  {
    SignersChecked(v.isTee, signers, ZERO_ADDRESS);
  }

  // A verified quorum is a set of at least signatureThreshold registered enclaves.
  lemma QuorumIsSet(v: VenueState, signers: seq<Address>)
    requires VerifyQuorum(v, signers) == Pass
    ensures Members(signers) <= v.isTee
    ensures |Members(signers)| == |signers| >= v.signatureThreshold
    ensures ZERO_ADDRESS !in signers
  {
    QuorumExactly(v, signers);
    IncreasingAreDistinct(signers);
  }

  // With fewer faulty registered signers than the threshold, a quorum holds an honest one.
  lemma QuorumHasHonest(v: VenueState, signers: seq<Address>, honest: set<Address>) returns (e: Address)
    requires VerifyQuorum(v, signers) == Pass
    requires |v.isTee - honest| < v.signatureThreshold
    ensures e in signers && e in honest && e != ZERO_ADDRESS
  {
    QuorumIsSet(v, signers);
    if Members(signers) <= v.isTee - honest {
      SubsetSize(Members(signers), v.isTee - honest);
      assert false;
    }
    e :| e in Members(signers) && e in honest;
  }

  lemma {:induction false} SubsetSize<T>(a: set<T>, b: set<T>)
    requires a <= b
    ensures |a| <= |b|
    decreases |a|
  {
    if a != {} {
      var x :| x in a;
      SubsetSize(a - {x}, b - {x});
    }
  }

  // --- Band ------------------------------------------------------------------

  predicate BandFits(price: nat, ref: nat, bps: nat) {
    ref == 0 || (Abs(price - ref) * BPS < U256 && ref * bps < U256)
  }

  // The venue's band check and the engine's agree wherever neither overflows.
  lemma BandsAgree(price: nat, ref: nat, bps: nat)
    ensures BandCheck(price, ref, bps) == Pass <==> WithinBand(price, ref, bps) && BandFits(price, ref, bps)
    ensures BandCheck(price, ref, bps) == Fail(ClearingPriceOutOfBand)
       <==> !WithinBand(price, ref, bps) && BandFits(price, ref, bps)
  {
  }

  // Clear gives up on a crossing book exactly when its price is out of the band,
  // and the venue rejects that price for the same reason, or for overflow where
  // the products do not fit a word.
  lemma OutOfBandExactly(os: seq<Order>, ref: nat, bps: nat, r: Outcome, price: nat)
    requires Clears(os, ref, bps, r) && IsBest(os, ref, price)
    ensures !r.NoCross? && (r.Cleared? ==> r.price == price)
    ensures BandCheck(price, ref, bps)
         == if !BandFits(price, ref, bps) then Fail(Overflow)
            else if r.OutOfBand? then Fail(ClearingPriceOutOfBand) else Pass
  {
    BandsAgree(price, ref, bps);
    forall q | IsBest(os, ref, q)
      ensures q == price
    {
      AuctionTheorems.BestUnique(os, ref, price, q);
    }
  }

  // --- Fees ------------------------------------------------------------------

  // What each side of a fill is charged: basis points of its notional, rounded down.
  function Fee(feeBps: nat): Fill -> int {
    (x: Fill) => Abs(x.quote) * feeBps / 10000
  }

  // The quote delta after the fee.
  function NetQuote(feeBps: nat): Fill -> int {
    (x: Fill) => x.quote - Abs(x.quote) * feeBps / 10000
  }

  // A fee is at most 30 bps of the notional and never turns a receipt into a payment.
  lemma FeeBounded(quote: int, feeBps: nat)
    requires feeBps <= 30
    ensures FeeOn(quote, feeBps) * 10000 <= 30 * Abs(quote)
    ensures quote > 0 ==> quote - FeeOn(quote, feeBps) > 0
    ensures quote < 0 ==> quote - FeeOn(quote, feeBps) < 0
  {
    var n := Abs(quote);
    assert n * feeBps <= n * 30;
  }

  // It is the largest whole amount within feeBps ten-thousandths of the notional.
  lemma FeeExactly(quote: int, feeBps: nat)
    ensures FeeOn(quote, feeBps) * 10000 <= Abs(quote) * feeBps < (FeeOn(quote, feeBps) + 1) * 10000
    ensures FeeOn(quote, feeBps) == Fee(feeBps)(Fill(0, 0, quote))
  {
  }

  // --- Settlement accounting -------------------------------------------------

  // Every running sum of the deltas stays within int256.
  predicate SumsFit(fills: seq<Fill>, base: int, quote: int) {
    forall k :: 0 < k <= |fills| ==>
      IsInt256(base + Sum(fills[..k], Base())) && IsInt256(quote + Sum(fills[..k], Quote()))
  }

  lemma SumsFitNext(fills: seq<Fill>, base: int, quote: int)
    requires fills != []
    ensures SumsFit(fills, base, quote) <==>
      && IsInt256(base + fills[0].base) && IsInt256(quote + fills[0].quote)
      && SumsFit(fills[1..], base + fills[0].base, quote + fills[0].quote)
  {
    var rest := fills[1..];
    forall k | 0 < k <= |fills|
      ensures Sum(fills[..k], Base()) == fills[0].base + Sum(rest[..k - 1], Base())
      ensures Sum(fills[..k], Quote()) == fills[0].quote + Sum(rest[..k - 1], Quote())
    {
      assert fills[..k][1..] == rest[..k - 1];
    }
    if SumsFit(fills, base, quote) {
      assert IsInt256(base + Sum(fills[..1], Base())) && rest[..0] == [];
      forall k | 0 < k <= |rest|
        ensures IsInt256(base + fills[0].base + Sum(rest[..k], Base()))
        ensures IsInt256(quote + fills[0].quote + Sum(rest[..k], Quote()))
      {
        assert IsInt256(base + Sum(fills[..k + 1], Base())) && IsInt256(quote + Sum(fills[..k + 1], Quote()));
      }
    } else {
      assert rest[..0] == [];
    }
  }

  lemma {:induction false} NetDeltasExactly(fills: seq<Fill>, base: int, quote: int)
    ensures NetDeltas(fills, base, quote).Done? <==> SumsFit(fills, base, quote)
    ensures NetDeltas(fills, base, quote).Revert? ==> NetDeltas(fills, base, quote).error == Overflow
    decreases |fills|
  {
    if fills != [] {
      SumsFitNext(fills, base, quote);
      NetDeltasExactly(fills[1..], base + fills[0].base, quote + fills[0].quote);
    }
  }

  lemma {:induction false} NetDeltasAre(fills: seq<Fill>, base: int, quote: int)
    requires NetDeltas(fills, base, quote).Done?
    ensures NetDeltas(fills, base, quote).value == (base + Sum(fills, Base()), quote + Sum(fills, Quote()))
    decreases |fills|
  {
    if fills != [] {
      NetDeltasAre(fills[1..], base + fills[0].base, quote + fills[0].quote);
    }
  }

  lemma CreditTotal(b: Balances, trader: Address, delta: int)
    requires Credit(b, trader, delta).Done?
    ensures Total(Credit(b, trader, delta).value) == Total(b) + delta
  {
    if delta != 0 {
      TotalSet(b, trader, At(b, trader) + delta);
    }
  }

  lemma {:induction false} ApplyFillsTotal(b: Books, fills: seq<Fill>, feeBps: nat)
    requires ApplyFills(b, fills, feeBps).Done?
    ensures var b' := ApplyFills(b, fills, feeBps).value;
      && Total(b'.base) == Total(b.base) + Sum(fills, Base())
      && Total(b'.quote) + b'.totalFee == Total(b.quote) + b.totalFee + Sum(fills, Quote())
    decreases |fills|
  {
    if fills != [] {
      var f := fills[0];
      CreditTotal(b.base, f.trader, f.base);
      CreditTotal(b.quote, f.trader, f.quote - FeeOn(f.quote, feeBps));
      ApplyFillsTotal(ApplyFill(b, f, feeBps).value, fills[1..], feeBps);
    }
  }

  // Each trader's balances move by exactly the sum of its fills, however often
  // it appears; everyone else's stay.
  lemma {:induction false} ApplyFillsPerTrader(b: Books, fills: seq<Fill>, feeBps: nat, t: Address)
    requires ApplyFills(b, fills, feeBps).Done?
    ensures var b' := ApplyFills(b, fills, feeBps).value;
      && At(b'.base, t) == At(b.base, t) + Sum(fills, Masked(OfTrader(t), Base()))
      && At(b'.quote, t) == At(b.quote, t) + Sum(fills, Masked(OfTrader(t), NetQuote(feeBps)))
    decreases |fills|
  {
    if fills != [] {
      ApplyFillsPerTrader(ApplyFill(b, fills[0], feeBps).value, fills[1..], feeBps, t);
    }
  }

  lemma {:induction false} ApplyFillsFees(b: Books, fills: seq<Fill>, feeBps: nat)
    requires ApplyFills(b, fills, feeBps).Done?
    ensures ApplyFills(b, fills, feeBps).value.totalFee == b.totalFee + Sum(fills, Fee(feeBps))
    decreases |fills|
  {
    if fills != [] {
      ApplyFillsFees(ApplyFill(b, fills[0], feeBps).value, fills[1..], feeBps);
    }
  }

  // The settlement a successful settle executed.
  function Executed(v: VenueState, payload: Payload, signers: seq<Address>, feed: Feed, now: nat): Settlement
    requires Settle(v, payload, signers, feed, now).Done?
  {
    Decode(payload).value
  }

  function BooksAfter(v: VenueState, s: Settlement): Tx<Books> {
    ApplyFills(Books(v.baseBalance, v.quoteBalance, 0), s.fills, v.feeBps)
  }

  // A successful settle passed every check and settled exactly its own batch.
  lemma SettleChecks(v: VenueState, payload: Payload, signers: seq<Address>, feed: Feed, now: nat)
    requires Settle(v, payload, signers, feed, now).Done?
    ensures var s, v' := Executed(v, payload, signers, feed, now), Settle(v, payload, signers, feed, now).value;
      && VerifyQuorum(v, signers) == Pass && InRange(s)
      && s.chainId == v.chainId && s.venue == v.self && s.batchId !in v.batchSettled
      && Sum(s.fills, Base()) == 0 && Sum(s.fills, Quote()) == 0
      && v'.batchSettled == v.batchSettled + {s.batchId} && v'.currentBatchId == s.batchId + 1
    ensures var s, v' := Executed(v, payload, signers, feed, now), Settle(v, payload, signers, feed, now).value;
      && BooksAfter(v, s).Done?
      && v'.baseBalance == BooksAfter(v, s).value.base
      && CollectFee(BooksAfter(v, s).value.quote, v.feeRecipient, v.feesCollected, BooksAfter(v, s).value.totalFee)
         == Done((v'.quoteBalance, v'.feesCollected))
    ensures var v' := Settle(v, payload, signers, feed, now).value;
      v' == v.(baseBalance := v'.baseBalance, quoteBalance := v'.quoteBalance, feesCollected := v'.feesCollected,
               batchSettled := v'.batchSettled, currentBatchId := v'.currentBatchId, batches := v'.batches)
  {
    var s := Executed(v, payload, signers, feed, now);
    DecodedShort(payload);
    NetDeltasAre(s.fills, 0, 0);
  }

  // A settled price is within the tolerance of the oracle reading at settlement.
  lemma SettleInBand(v: VenueState, payload: Payload, signers: seq<Address>, feed: Feed, now: nat)
    requires Settle(v, payload, signers, feed, now).Done?
    ensures ReferencePrice(feed, now).Done?
    ensures WithinBand(Executed(v, payload, signers, feed, now).price, ReferencePrice(feed, now).value,
                       v.maxDeviationBps)
  {
    var s := Executed(v, payload, signers, feed, now);
    DecodedShort(payload);
    BandsAgree(s.price, ReferencePrice(feed, now).value, v.maxDeviationBps);
  }

  // Conserved deltas move nothing in or out: the fees taken are the fees paid.
  lemma FillsConserve(b: Books, fills: seq<Fill>, feeBps: nat, recipient: Address, collected: nat)
    requires b.totalFee == 0 && Sum(fills, Base()) == 0 && Sum(fills, Quote()) == 0
    requires ApplyFills(b, fills, feeBps).Done?
    requires var b' := ApplyFills(b, fills, feeBps).value; CollectFee(b'.quote, recipient, collected, b'.totalFee).Done?
    ensures var b' := ApplyFills(b, fills, feeBps).value;
      && Total(b'.base) == Total(b.base)
      && Total(CollectFee(b'.quote, recipient, collected, b'.totalFee).value.0) == Total(b.quote)
  {
    var b' := ApplyFills(b, fills, feeBps).value;
    ApplyFillsTotal(b, fills, feeBps);
    if b'.totalFee > 0 {
      TotalSet(b'.quote, recipient, At(b'.quote, recipient) + b'.totalFee);
    }
  }

  // A settlement neither makes nor loses base or quote, counting the fees.
  lemma SettleConserves(v: VenueState, payload: Payload, signers: seq<Address>, feed: Feed, now: nat)
    requires Settle(v, payload, signers, feed, now).Done?
    ensures var v' := Settle(v, payload, signers, feed, now).value;
      Total(v'.baseBalance) == Total(v.baseBalance) && Total(v'.quoteBalance) == Total(v.quoteBalance)
  {
    SettleChecks(v, payload, signers, feed, now);
    FillsConserve(Books(v.baseBalance, v.quoteBalance, 0), Executed(v, payload, signers, feed, now).fills,
                  v.feeBps, v.feeRecipient, v.feesCollected);
  }

  // Every balance moves by exactly its fills, less their fees, plus all the fees
  // for the fee recipient, who may itself be a trader.
  lemma SettlePerTrader(v: VenueState, payload: Payload, signers: seq<Address>, feed: Feed, now: nat, t: Address)
    requires Settle(v, payload, signers, feed, now).Done?
    ensures var v', s := Settle(v, payload, signers, feed, now).value, Executed(v, payload, signers, feed, now);
      && At(v'.baseBalance, t) == At(v.baseBalance, t) + Sum(s.fills, Masked(OfTrader(t), Base()))
      && At(v'.quoteBalance, t) == At(v.quoteBalance, t)
           + Sum(s.fills, Masked(OfTrader(t), NetQuote(v.feeBps)))
           + (if t == v.feeRecipient then Sum(s.fills, Fee(v.feeBps)) else 0)
  {
    SettleChecks(v, payload, signers, feed, now);
    var s := Executed(v, payload, signers, feed, now);
    var b := Books(v.baseBalance, v.quoteBalance, 0);
    ApplyFillsPerTrader(b, s.fills, v.feeBps, t);
    ApplyFillsFees(b, s.fills, v.feeBps);
  }

  // Only the traders a settlement names, and the fee recipient, see a change.
  lemma SettleTouchesOnlyNamed(v: VenueState, payload: Payload, signers: seq<Address>, feed: Feed, now: nat, t: Address)
    requires Settle(v, payload, signers, feed, now).Done?
    requires t !in Traders(Executed(v, payload, signers, feed, now).fills) && t != v.feeRecipient
    ensures var v' := Settle(v, payload, signers, feed, now).value;
      At(v'.baseBalance, t) == At(v.baseBalance, t) && At(v'.quoteBalance, t) == At(v.quoteBalance, t)
  {
    var s := Executed(v, payload, signers, feed, now);
    SettlePerTrader(v, payload, signers, feed, now, t);
    AbsentIsZero(s.fills, t, Base());
    AbsentIsZero(s.fills, t, NetQuote(v.feeBps));
  }

  // --- When fills apply ------------------------------------------------------

  // The trader can pay what the fill takes, fee included.
  predicate Covered(b: Books, f: Fill, feeBps: nat) {
    At(b.base, f.trader) + f.base >= 0 && At(b.quote, f.trader) + NetQuote(feeBps)(f) >= 0
  }

  // None of the fill's own arithmetic overflows.
  predicate Fits(b: Books, f: Fill, feeBps: nat) {
    && -I256 < f.base && -I256 < NetQuote(feeBps)(f)
    && Abs(f.quote) * feeBps < U256
    && At(b.base, f.trader) + f.base < U256
    && At(b.quote, f.trader) + NetQuote(feeBps)(f) < U256
  }

  lemma ApplyFillExactly(b: Books, f: Fill, feeBps: nat)
    requires Fits(b, f, feeBps) && b.totalFee + Fee(feeBps)(f) < U256
    ensures ApplyFill(b, f, feeBps).Done? <==> Covered(b, f, feeBps)
  {
    FeeExactly(f.quote, feeBps);
  }

  // A fill applies exactly when its trader can pay and every number fits its word.
  lemma ApplyFillDone(b: Books, f: Fill, feeBps: nat)
    requires At(b.base, f.trader) < U256 && At(b.quote, f.trader) < U256
    ensures ApplyFill(b, f, feeBps).Done? <==>
      Covered(b, f, feeBps) && Fits(b, f, feeBps) && b.totalFee + Fee(feeBps)(f) < U256
    ensures ApplyFill(b, f, feeBps) == Revert(InsufficientBalance) ==> !Covered(b, f, feeBps)
  {
    FeeExactly(f.quote, feeBps);
  }

  lemma ApplyFillSparesOthers(b: Books, f: Fill, feeBps: nat, g: Fill)
    requires ApplyFill(b, f, feeBps).Done? && f.trader != g.trader
    ensures var b' := ApplyFill(b, f, feeBps).value;
      && (Fits(b', g, feeBps) <==> Fits(b, g, feeBps)) && (Covered(b', g, feeBps) <==> Covered(b, g, feeBps))
  {
  }

  lemma RestSpared(b: Books, f: Fill, rest: seq<Fill>, feeBps: nat)
    requires ApplyFill(b, f, feeBps).Done? && f.trader !in Traders(rest)
    ensures var b' := ApplyFill(b, f, feeBps).value;
      && b'.totalFee == b.totalFee + Fee(feeBps)(f)
      && forall g :: g in rest ==>
           (Fits(b', g, feeBps) <==> Fits(b, g, feeBps)) && (Covered(b', g, feeBps) <==> Covered(b, g, feeBps))
  {
    TradersAre(rest);
    FeeExactly(f.quote, feeBps);
    forall g | g in rest
      ensures var b' := ApplyFill(b, f, feeBps).value;
        (Fits(b', g, feeBps) <==> Fits(b, g, feeBps)) && (Covered(b', g, feeBps) <==> Covered(b, g, feeBps))
    {
      ApplyFillSparesOthers(b, f, feeBps, g);
    }
  }

  // Fills of distinct traders, such as Clear makes, all apply exactly when every
  // trader named can pay: one trader short of funds stops the whole batch.
  lemma {:induction false} ApplyFillsExactly(b: Books, fills: seq<Fill>, feeBps: nat)
    requires DistinctTraders(fills)
    requires forall f :: f in fills ==> Fits(b, f, feeBps)
    requires b.totalFee + Sum(fills, Fee(feeBps)) < U256
    ensures ApplyFills(b, fills, feeBps).Done? <==> forall f :: f in fills ==> Covered(b, f, feeBps)
    decreases |fills|
  {
    if fills != [] {
      var f, rest := fills[0], fills[1..];
      assert forall g :: g in fills <==> g == f || g in rest;
      SumNonNegative(rest, Fee(feeBps));
      ApplyFillExactly(b, f, feeBps);
      if Covered(b, f, feeBps) {
        RestSpared(b, f, rest, feeBps);
        ApplyFillsExactly(ApplyFill(b, f, feeBps).value, rest, feeBps);
      }
    }
  }

  // --- Solvency --------------------------------------------------------------

  // The venue holds at least what it owes, in each token.
  ghost predicate Solvent(l: Ledger) {
    && Sound(l.base) && Sound(l.quote)
    && Total(l.venue.baseBalance) <= At(l.base.balanceOf, l.venue.self)
    && Total(l.venue.quoteBalance) <= At(l.quote.balanceOf, l.venue.self)
  }

  lemma PullKeepsBacking(t: TokenState, b: Balances, self: Address, from: Address, trader: Address, amount: nat)
    requires Sound(t) && Total(b) <= At(t.balanceOf, self) && from != self
    requires Pull(t, b, self, from, trader, amount).Done?
    ensures var (t', b') := Pull(t, b, self, from, trader, amount).value;
      Sound(t') && Total(b') == Total(b) + amount && At(t'.balanceOf, self) == At(t.balanceOf, self) + amount
  {
    if amount > 0 {
      MoveKeepsTotal(t.balanceOf, from, self, amount);
      MoveMoves(t.balanceOf, from, self, amount, self);
      TotalSet(b, trader, At(b, trader) + amount);
    }
  }

  // Paying out what a balance covers always succeeds.
  lemma PushKeepsBacking(t: TokenState, b: Balances, self: Address, to: Address, amount: nat)
    requires Sound(t) && Total(b) <= At(t.balanceOf, self) && to != self && amount <= At(b, to)
    ensures Push(t, b, self, to, amount).Done?
    ensures var (t', b') := Push(t, b, self, to, amount).value;
      Sound(t') && Total(b') == Total(b) - amount && At(t'.balanceOf, self) == At(t.balanceOf, self) - amount
  {
    if amount > 0 {
      AtMostTotal(b, to);
      MoveKeepsTotal(t.balanceOf, self, to, amount);
      MoveMoves(t.balanceOf, self, to, amount, self);
      TotalSet(b, to, At(b, to) - amount);
    }
  }

  lemma DepositKeepsSolvent(l: Ledger, from: Address, trader: Address, base: nat, quote: nat)
    requires Solvent(l) && from != l.venue.self && DepositFrom(l, from, trader, base, quote).Done?
    ensures Solvent(DepositFrom(l, from, trader, base, quote).value)
  {
    PullKeepsBacking(l.base, l.venue.baseBalance, l.venue.self, from, trader, base);
    PullKeepsBacking(l.quote, l.venue.quoteBalance, l.venue.self, from, trader, quote);
  }

  // A withdrawal succeeds exactly when the trader is unlocked and asks for no
  // more than its balances: the venue can always pay.
  lemma WithdrawExactly(l: Ledger, sender: Address, base: nat, quote: nat)
    requires Solvent(l) && sender != l.venue.self
    ensures Withdraw(l, sender, base, quote).Done? <==>
      !Locked(l.venue, sender) && base <= At(l.venue.baseBalance, sender) && quote <= At(l.venue.quoteBalance, sender)
    ensures Withdraw(l, sender, base, quote).Done? ==> Solvent(Withdraw(l, sender, base, quote).value)
  {
    if base <= At(l.venue.baseBalance, sender) && quote <= At(l.venue.quoteBalance, sender) {
      PushKeepsBacking(l.base, l.venue.baseBalance, l.venue.self, sender, base);
      PushKeepsBacking(l.quote, l.venue.quoteBalance, l.venue.self, sender, quote);
    }
  }
}
