// The venue's calls (contracts/InstructionSender.sol), each as a function from
// the state before it to the state after it, or to the error it reverts with.
module Venue {
  import opened Types
  import opened Arithmetic
  import opened Sums
  import opened Token
  import opened Codec

  const MAX_FEE_BPS: nat := 30
  const BPS: nat := 10000
  const MAX_FEED_AGE: nat := 3600

  datatype BatchResult = BatchResult(
    clearingPrice: nat, matchedBase: nat, feeCharged: nat, settledAt: nat, fillCount: nat, orderCount: nat)

  datatype VenueState = VenueState(
    self: Address, chainId: Uint256, owner: Address,
    isTee: set<Address>, teeSigners: seq<Address>, signatureThreshold: nat,
    maxDeviationBps: nat, feeBps: nat, feeRecipient: Address, feesCollected: nat,
    currentBatchId: Uint64, nextOrderId: Uint64,
    baseBalance: Balances, quoteBalance: Balances,
    lockedInBatch: map<Address, Uint64>, batchSettled: set<Uint64>,
    batchOrderCount: map<Uint64, nat>, batches: map<Uint64, BatchResult>)

  // The venue with the two tokens it holds.
  datatype Ledger = Ledger(venue: VenueState, base: TokenState, quote: TokenState)

  function Deployed(self: Address, chainId: Uint256, deployer: Address): VenueState {
    VenueState(self, chainId, deployer, {}, [], 1, 500, 5, deployer, 0, 1, 1, map[], map[], map[], {}, map[], map[])
  }

  function LockOf(v: VenueState, trader: Address): Uint64 {
    if trader in v.lockedInBatch then v.lockedInBatch[trader] else 0
  }

  function OrderCount(v: VenueState, batchId: Uint64): nat {
    if batchId in v.batchOrderCount then v.batchOrderCount[batchId] else 0
  }

  // --- Administration --------------------------------------------------------

  function AddTee(v: VenueState, sender: Address, tee: Address): Tx<VenueState> {
    if sender != v.owner then Revert(NotOwner)
    else
      :- Need(tee != ZERO_ADDRESS, ZeroAddress);
      Done(if tee in v.isTee then v else v.(isTee := v.isTee + {tee}, teeSigners := v.teeSigners + [tee]))
  }

  function SetSignatureThreshold(v: VenueState, sender: Address, threshold: nat): Tx<VenueState> {
    if sender != v.owner then Revert(NotOwner)
    else
      :- Need(0 < threshold <= |v.teeSigners|, BadThreshold);
      Done(v.(signatureThreshold := threshold))
  }

  function SetMaxDeviationBps(v: VenueState, sender: Address, bps: nat): Tx<VenueState> {
    if sender != v.owner then Revert(NotOwner)
    else Done(v.(maxDeviationBps := bps))
  }

  function SetFee(v: VenueState, sender: Address, feeBps: nat, recipient: Address): Tx<VenueState> {
    if sender != v.owner then Revert(NotOwner)
    else
      :- Need(feeBps <= MAX_FEE_BPS, FeeTooHigh);
      :- Need(recipient != ZERO_ADDRESS, ZeroAddress);
      Done(v.(feeBps := feeBps, feeRecipient := recipient))
  }

  // --- Balances --------------------------------------------------------------

  function Pull(t: TokenState, b: Balances, self: Address, from: Address, trader: Address, amount: nat)
    : Tx<(TokenState, Balances)>
  {
    if amount == 0 then Done((t, b))
    else
      var t' :- TransferFrom(t, self, from, self, amount);
      :- Need(At(b, trader) + amount < U256, Overflow);
      Done((t', b[trader := At(b, trader) + amount]))
  }

  function DepositFrom(l: Ledger, from: Address, trader: Address, base: nat, quote: nat): Tx<Ledger> {
    if base == 0 && quote == 0 then Revert(NothingToDo)
    else
      var (b, baseBalance) :- Pull(l.base, l.venue.baseBalance, l.venue.self, from, trader, base);
      var (q, quoteBalance) :- Pull(l.quote, l.venue.quoteBalance, l.venue.self, from, trader, quote);
      Done(Ledger(l.venue.(baseBalance := baseBalance, quoteBalance := quoteBalance), b, q))
  }

  function DepositFor(l: Ledger, sender: Address, trader: Address, base: nat, quote: nat): Tx<Ledger> {
    if trader == ZERO_ADDRESS then Revert(ZeroAddress)
    else DepositFrom(l, sender, trader, base, quote)
  }

  predicate Locked(v: VenueState, trader: Address) {
    LockOf(v, trader) != 0 && LockOf(v, trader) !in v.batchSettled
  }

  function Push(t: TokenState, b: Balances, self: Address, to: Address, amount: nat): Tx<(TokenState, Balances)>
    requires amount <= At(b, to)
  {
    if amount == 0 then Done((t, b))
    else
      var t' :- Transfer(t, self, to, amount);
      Done((t', b[to := At(b, to) - amount]))
  }

  function Withdraw(l: Ledger, sender: Address, base: nat, quote: nat): Tx<Ledger> {
    if Locked(l.venue, sender) then Revert(BalanceLocked)
    else
      :- Need(base <= At(l.venue.baseBalance, sender), InsufficientBalance);
      :- Need(quote <= At(l.venue.quoteBalance, sender), InsufficientBalance);
      var (b, baseBalance) :- Push(l.base, l.venue.baseBalance, l.venue.self, sender, base);
      var (q, quoteBalance) :- Push(l.quote, l.venue.quoteBalance, l.venue.self, sender, quote);
      Done(Ledger(l.venue.(baseBalance := baseBalance, quoteBalance := quoteBalance), b, q))
  }

  // --- Trading ---------------------------------------------------------------

  function SubmitOrder(v: VenueState, sender: Address, ciphertext: Ciphertext, sent: bool)
    : Tx<(VenueState, SubmitRequest)>
  {
    if v.teeSigners == [] then Revert(TeeNotSet)
    else
      :- Need(ciphertext != NoBytes, EmptyCiphertext);
      :- Need(v.nextOrderId + 1 < U64, Overflow);
      var count := OrderCount(v, v.currentBatchId);
      :- Need(count + 1 < U32, Overflow);
      :- Need(sent, SendFailed);
      Done((v.(nextOrderId := v.nextOrderId + 1,
               lockedInBatch := v.lockedInBatch[sender := v.currentBatchId],
               batchOrderCount := v.batchOrderCount[v.currentBatchId := count + 1]),
            SubmitRequest(v.nextOrderId, v.currentBatchId, sender, ciphertext)))
  }

  // What an XRP costs in units of 1 / PRICE_SCALE, by a reading at most an hour old.
  function ReferencePrice(feed: Feed, now: nat): Tx<nat> {
    if feed.timestamp + MAX_FEED_AGE >= U64 then Revert(Overflow)
    else
      :- Need(feed.timestamp + MAX_FEED_AGE >= now, StaleOracle);
      :- Need(feed.decimals > -128, Overflow);
      :- Need(-18 <= feed.decimals <= 18, BadFeedDecimals);
      var price := if feed.decimals >= 0 then feed.value * Pow10(18 - feed.decimals)
                   else feed.value * PRICE_SCALE * Pow10(-feed.decimals);
      :- Need(price < U256, Overflow);
      Done(price)
  }

  function RunBatch(v: VenueState, feed: Feed, now: nat, sent: bool): Tx<RunRequest> {
    if v.teeSigners == [] then Revert(TeeNotSet)
    else
      :- Need(OrderCount(v, v.currentBatchId) != 0, NothingToDo);
      var refPrice :- ReferencePrice(feed, now);
      :- Need(sent, SendFailed);
      Done(RunRequest(v.currentBatchId, refPrice, v.maxDeviationBps, v.chainId, v.self))
  }

  // Signers are what _recover returned; a signature it rejects recovers to zero.
  function CheckSigners(isTee: set<Address>, signers: seq<Address>, previous: Address): Check {
    if signers == [] then Pass
    else if signers[0] == ZERO_ADDRESS then Fail(BadSignature)
    else if signers[0] !in isTee then Fail(UnknownSigner)
    else if signers[0] <= previous then Fail(DuplicateSigner)
    else CheckSigners(isTee, signers[1..], signers[0])
  }

  function VerifyQuorum(v: VenueState, signers: seq<Address>): Check {
    if |signers| < v.signatureThreshold then Fail(NotEnoughSignatures)
    else CheckSigners(v.isTee, signers, ZERO_ADDRESS)
  }

  function BandCheck(price: nat, ref: nat, bps: nat): Check {
    if ref == 0 then Pass
    else if Abs(price - ref) * BPS >= U256 || ref * bps >= U256 then Fail(Overflow)
    else if Abs(price - ref) * BPS > ref * bps then Fail(ClearingPriceOutOfBand)
    else Pass
  }

  // The sums of the deltas, kept within int256 at every step.
  function NetDeltas(fills: seq<Fill>, base: int, quote: int): Tx<(int, int)>
    decreases |fills|
  {
    if fills == [] then Done((base, quote))
    else
      :- Need(IsInt256(base + fills[0].base) && IsInt256(quote + fills[0].quote), Overflow);
      NetDeltas(fills[1..], base + fills[0].base, quote + fills[0].quote)
  }

  function FeeOn(quote: int, feeBps: nat): nat {
    Abs(quote) * feeBps / BPS
  }

  function Credit(b: Balances, trader: Address, delta: int): Tx<Balances> {
    if delta > 0 then
      :- Need(At(b, trader) + delta < U256, Overflow);
      Done(b[trader := At(b, trader) + delta])
    else if delta < 0 then
      :- Need(delta > -I256, Overflow);
      :- Need(At(b, trader) >= -delta, InsufficientBalance);
      Done(b[trader := At(b, trader) + delta])
    else Done(b)
  }

  datatype Books = Books(base: Balances, quote: Balances, totalFee: nat)

  function ApplyFill(b: Books, f: Fill, feeBps: nat): Tx<Books> {
    if f.quote <= -I256 then Revert(Overflow)
    else
      :- Need(Abs(f.quote) * feeBps < U256, Overflow);
      var fee := FeeOn(f.quote, feeBps);
      :- Need(b.totalFee + fee < U256, Overflow);
      :- Need(f.quote - fee >= -I256, Overflow);
      var base :- Credit(b.base, f.trader, f.base);
      var quote :- Credit(b.quote, f.trader, f.quote - fee);
      Done(Books(base, quote, b.totalFee + fee))
  }

  function ApplyFills(b: Books, fills: seq<Fill>, feeBps: nat): Tx<Books>
    decreases |fills|
  {
    if fills == [] then Done(b)
    else
      var b' :- ApplyFill(b, fills[0], feeBps);
      ApplyFills(b', fills[1..], feeBps)
  }

  // The recipient's balances and the running total, with a batch's fees added.
  function CollectFee(quote: Balances, recipient: Address, collected: nat, fee: nat): Tx<(Balances, nat)> {
    if fee == 0 then Done((quote, collected))
    else
      :- Need(At(quote, recipient) + fee < U256, Overflow);
      :- Need(collected + fee < U256, Overflow);
      Done((quote[recipient := At(quote, recipient) + fee], collected + fee))
  }

  function CloseBatch(v: VenueState, batchId: Uint64, price: nat, matched: nat, fee: nat, now: nat, fills: nat)
    : Tx<VenueState>
  {
    if batchId + 1 >= U64 then Revert(Overflow)
    else
      Done(v.(batchSettled := v.batchSettled + {batchId},
              currentBatchId := batchId + 1,
              batches := v.batches[batchId := BatchResult(price, matched, fee, now % U64, fills % U32,
                                                          OrderCount(v, batchId))]))
  }

  // What settle checks of a payload before it moves anything.
  function CheckSettlement(v: VenueState, s: Settlement, feed: Feed, now: nat): Check
    requires InRange(s)
  {
    if s.chainId != v.chainId then Fail(WrongChain)
    else if s.venue != v.self then Fail(WrongVenue)
    else if s.batchId in v.batchSettled then Fail(BatchAlreadySettled)
    else
      match ReferencePrice(feed, now)
      case Revert(e) => Fail(e)
      case Done(ref) =>
        if BandCheck(s.price, ref, v.maxDeviationBps).Fail? then BandCheck(s.price, ref, v.maxDeviationBps)
        else
          match NetDeltas(s.fills, 0, 0)
          case Revert(e) => Fail(e)
          case Done((base, quote)) =>
            if base != 0 then Fail(BaseNotConserved)
            else if quote != 0 then Fail(QuoteNotConserved)
            else Pass
  }

  // The fills and their fees, and what the fees come to.
  function MoveFunds(v: VenueState, fills: seq<Fill>): Tx<(VenueState, nat)> {
    var b :- ApplyFills(Books(v.baseBalance, v.quoteBalance, 0), fills, v.feeBps);
    var (quote, collected) :- CollectFee(b.quote, v.feeRecipient, v.feesCollected, b.totalFee);
    Done((v.(baseBalance := b.base, quoteBalance := quote, feesCollected := collected), b.totalFee))
  }

  function Execute(v: VenueState, s: Settlement, now: nat): Tx<VenueState>
    requires InRange(s)
  {
    var (moved, fee) :- MoveFunds(v, s.fills);
    CloseBatch(moved, s.batchId, s.price, s.matched, fee, now, |s.fills|)
  }

  function Settle(v: VenueState, payload: Payload, signers: seq<Address>, feed: Feed, now: nat): Tx<VenueState> {
    if v.teeSigners == [] then Revert(TeeNotSet)
    else
      :- VerifyQuorum(v, signers);
      match Decode(payload)
      case None => Revert(MalformedPayload)
      case Some(s) =>
        DecodedShort(payload);
        :- CheckSettlement(v, s, feed, now);
        Execute(v, s, now)
  }

  function CancelBatch(v: VenueState, sender: Address, now: nat): Tx<VenueState> {
    if sender != v.owner then Revert(NotOwner)
    else CloseBatch(v, v.currentBatchId, 0, 0, 0, now, 0)
  }
}
