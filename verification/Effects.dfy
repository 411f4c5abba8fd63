// What each call does, told account by account: when it succeeds, who gains and
// who loses how much, and what stays as it was.
module Effects {
  import opened Types
  import opened Sums
  import opened Token
  import opened Codec
  import opened Venue
  import opened VenueTheorems
  import opened Gateway
  import opened Chain
  import Allocation

  // --- Vocabulary ------------------------------------------------------------

  // Every account's balance after `amount` goes from one account to another.
  ghost predicate Moves(b: Balances, b': Balances, from: Address, to: Address, amount: nat) {
    forall a: Address ::
      At(b', a) == At(b, a) - (if a == from then amount else 0) + (if a == to then amount else 0)
  }

  ghost predicate Gains(b: Balances, b': Balances, who: Address, amount: int) {
    forall a: Address :: At(b', a) == At(b, a) + (if a == who then amount else 0)
  }

  // A limited allowance falls by what was spent; an unlimited one stays.
  ghost predicate Spends(t: TokenState, t': TokenState, owner: Address, spender: Address, amount: nat) {
    forall o: Address, s: Address ::
      At(t'.allowance, (o, s)) == At(t.allowance, (o, s))
        - if o == owner && s == spender && At(t.allowance, (o, s)) != U256 - 1 then amount else 0
  }

  // from can pay and to has room.
  predicate CanMove(b: Balances, from: Address, to: Address, amount: nat) {
    amount <= At(b, from) && At(b, to) - (if to == from then amount else 0) + amount < U256
  }

  function TokenOf(c: ChainState, onBase: bool): TokenState {
    if onBase then c.ledger.base else c.ledger.quote
  }

  // Only one token differs.
  predicate OnlyToken(c: ChainState, c': ChainState, onBase: bool) {
    && c'.gateway == c.gateway && c'.credits == c.credits && c'.ledger.venue == c.ledger.venue
    && TokenOf(c', !onBase) == TokenOf(c, !onBase)
  }

  // Only the venue differs.
  predicate OnlyVenue(c: ChainState, c': ChainState) {
    && c'.gateway == c.gateway && c'.credits == c.credits
    && c'.ledger.base == c.ledger.base && c'.ledger.quote == c.ledger.quote
  }

  // --- Token calls -----------------------------------------------------------

  lemma MintingEffect(c: ChainState, sender: Address, onBase: bool, to: Address, amount: Uint256)
    ensures var t, r := TokenOf(c, onBase), Apply(c, sender, Minting(onBase, to, amount));
      && (r.Done? <==> At(t.balanceOf, to) + amount < U256 && t.totalSupply + amount < U256)
      && (r.Done? ==>
            var t' := TokenOf(r.value, onBase);
            && OnlyToken(c, r.value, onBase) && Gains(t.balanceOf, t'.balanceOf, to, amount)
            && t'.totalSupply == t.totalSupply + amount && t'.allowance == t.allowance)
  {
  }

  lemma TransferringEffect(c: ChainState, sender: Address, onBase: bool, to: Address, amount: Uint256)
    ensures var t, r := TokenOf(c, onBase), Apply(c, sender, Transferring(onBase, to, amount));
      && (r.Done? <==> CanMove(t.balanceOf, sender, to, amount))
      && (r.Done? ==>
            var t' := TokenOf(r.value, onBase);
            && OnlyToken(c, r.value, onBase) && Moves(t.balanceOf, t'.balanceOf, sender, to, amount)
            && t'.totalSupply == t.totalSupply && t'.allowance == t.allowance)
      && (r == Revert(InsufficientBalance) ==> At(t.balanceOf, sender) < amount)
  {
  }

  lemma ApprovingEffect(c: ChainState, sender: Address, onBase: bool, spender: Address, amount: Uint256)
    ensures var t, r := TokenOf(c, onBase), Apply(c, sender, Approving(onBase, spender, amount));
      && r.Done? && OnlyToken(c, r.value, onBase)
      && var t' := TokenOf(r.value, onBase);
      && t'.balanceOf == t.balanceOf && t'.totalSupply == t.totalSupply
      && forall o: Address, s: Address :: At(t'.allowance, (o, s))
           == if o == sender && s == spender then amount else At(t.allowance, (o, s))
  {
  }

  lemma TransferringFromEffect(c: ChainState, sender: Address, onBase: bool, from: Address, to: Address,
                               amount: Uint256)
    ensures var t, r := TokenOf(c, onBase), Apply(c, sender, TransferringFrom(onBase, from, to, amount));
      && (r.Done? <==> amount <= At(t.allowance, (from, sender)) && CanMove(t.balanceOf, from, to, amount))
      && (r.Done? ==>
            var t' := TokenOf(r.value, onBase);
            && OnlyToken(c, r.value, onBase) && Moves(t.balanceOf, t'.balanceOf, from, to, amount)
            && Spends(t, t', from, sender, amount) && t'.totalSupply == t.totalSupply)
      && (r == Revert(InsufficientAllowance) ==> At(t.allowance, (from, sender)) < amount)
      && (r == Revert(InsufficientBalance) ==> At(t.balanceOf, from) < amount)
  {
    TransferFromEffect(TokenOf(c, onBase), sender, from, to, amount);
  }

  lemma TransferFromEffect(t: TokenState, sender: Address, from: Address, to: Address, amount: nat)
    ensures var r := TransferFrom(t, sender, from, to, amount);
      && (r.Done? <==> amount <= At(t.allowance, (from, sender)) && CanMove(t.balanceOf, from, to, amount))
      && (r.Done? ==>
            && Moves(t.balanceOf, r.value.balanceOf, from, to, amount)
            && Spends(t, r.value, from, sender, amount) && r.value.totalSupply == t.totalSupply)
      && (r == Revert(InsufficientAllowance) ==> At(t.allowance, (from, sender)) < amount)
      && (r == Revert(InsufficientBalance) ==> At(t.balanceOf, from) < amount)
  {
  }

  // --- Deposits --------------------------------------------------------------

  // One leg of a deposit can go through.
  predicate CanPull(t: TokenState, b: Balances, venue: Address, from: Address, trader: Address, amount: nat) {
    amount > 0 ==>
      && amount <= At(t.allowance, (from, venue)) && CanMove(t.balanceOf, from, venue, amount)
      && At(b, trader) + amount < U256
  }

  // The payer's tokens are the venue's, and the trader is credited as many.
  ghost predicate Pulled(t: TokenState, t': TokenState, b: Balances, b': Balances, venue: Address, from: Address,
                         trader: Address, amount: nat)
  {
    && Moves(t.balanceOf, t'.balanceOf, from, venue, amount) && Spends(t, t', from, venue, amount)
    && t'.totalSupply == t.totalSupply && Gains(b, b', trader, amount)
  }

  lemma PullEffect(t: TokenState, b: Balances, venue: Address, from: Address, trader: Address, amount: nat)
    ensures var r := Pull(t, b, venue, from, trader, amount);
      && (r.Done? <==> CanPull(t, b, venue, from, trader, amount))
      && (r.Done? ==> Pulled(t, r.value.0, b, r.value.1, venue, from, trader, amount))
      && (r == Revert(InsufficientAllowance) ==> At(t.allowance, (from, venue)) < amount)
      && (r == Revert(InsufficientBalance) ==> At(t.balanceOf, from) < amount)
  {
  }

  // Nothing but the two tokens and the venue's balances differs.
  predicate OnlyBalances(c: ChainState, c': ChainState) {
    && c'.gateway == c.gateway && c'.credits == c.credits
    && c'.ledger.venue == c.ledger.venue.(baseBalance := c'.ledger.venue.baseBalance,
                                          quoteBalance := c'.ledger.venue.quoteBalance)
  }

  ghost predicate Deposited(c: ChainState, c': ChainState, from: Address, trader: Address, base: nat, quote: nat) {
    var l, l' := c.ledger, c'.ledger;
    && OnlyBalances(c, c')
    && Pulled(l.base, l'.base, l.venue.baseBalance, l'.venue.baseBalance, l.venue.self, from, trader, base)
    && Pulled(l.quote, l'.quote, l.venue.quoteBalance, l'.venue.quoteBalance, l.venue.self, from, trader, quote)
  }

  predicate CanDeposit(l: Ledger, from: Address, trader: Address, base: nat, quote: nat) {
    && (base > 0 || quote > 0)
    && CanPull(l.base, l.venue.baseBalance, l.venue.self, from, trader, base)
    && CanPull(l.quote, l.venue.quoteBalance, l.venue.self, from, trader, quote)
  }

  lemma DepositingEffect(c: ChainState, sender: Address, base: Uint256, quote: Uint256)
    ensures var r := Apply(c, sender, Depositing(base, quote));
      && (r.Done? <==> CanDeposit(c.ledger, sender, sender, base, quote))
      && (r.Done? ==> Deposited(c, r.value, sender, sender, base, quote))
      && (r == Revert(NothingToDo) <==> base == quote == 0)
  {
    PullEffect(c.ledger.base, c.ledger.venue.baseBalance, c.ledger.venue.self, sender, sender, base);
    PullEffect(c.ledger.quote, c.ledger.venue.quoteBalance, c.ledger.venue.self, sender, sender, quote);
  }

  // The caller pays and the named trader is credited.
  lemma DepositingForEffect(c: ChainState, sender: Address, trader: Address, base: Uint256, quote: Uint256)
    ensures var r := Apply(c, sender, DepositingFor(trader, base, quote));
      && (r.Done? <==> trader != 0 && CanDeposit(c.ledger, sender, trader, base, quote))
      && (r.Done? ==> Deposited(c, r.value, sender, trader, base, quote))
      && (r == Revert(ZeroAddress) <==> trader == 0)
  {
    PullEffect(c.ledger.base, c.ledger.venue.baseBalance, c.ledger.venue.self, sender, trader, base);
    PullEffect(c.ledger.quote, c.ledger.venue.quoteBalance, c.ledger.venue.self, sender, trader, quote);
  }

  // --- Withdrawals -----------------------------------------------------------

  // The trader is debited and is paid as many tokens, by the venue.
  ghost predicate Pushed(t: TokenState, t': TokenState, b: Balances, b': Balances, venue: Address, to: Address,
                         amount: nat)
  {
    && Moves(t.balanceOf, t'.balanceOf, venue, to, amount) && t'.allowance == t.allowance
    && t'.totalSupply == t.totalSupply && Gains(b, b', to, 0 - amount)
  }

  lemma PushEffect(t: TokenState, b: Balances, venue: Address, to: Address, amount: nat)
    requires amount <= At(b, to)
    ensures var r := Push(t, b, venue, to, amount);
      && (r.Done? <==> amount == 0 || CanMove(t.balanceOf, venue, to, amount))
      && (r.Done? ==> Pushed(t, r.value.0, b, r.value.1, venue, to, amount))
  {
  }

  // The batch a trader's slot names has not settled.
  predicate HeldBack(v: VenueState, trader: Address) {
    trader in v.lockedInBatch && v.lockedInBatch[trader] != 0 && v.lockedInBatch[trader] !in v.batchSettled
  }

  lemma WithdrawingEffect(c: ChainState, sender: Address, base: Uint256, quote: Uint256)
    ensures var l, r := c.ledger, Apply(c, sender, Withdrawing(base, quote));
      && (r.Done? <==>
            && !HeldBack(l.venue, sender)
            && base <= At(l.venue.baseBalance, sender) && quote <= At(l.venue.quoteBalance, sender)
            && (base == 0 || CanMove(l.base.balanceOf, l.venue.self, sender, base))
            && (quote == 0 || CanMove(l.quote.balanceOf, l.venue.self, sender, quote)))
      && (r == Revert(BalanceLocked) <==> HeldBack(l.venue, sender))
    ensures var l, r := c.ledger, Apply(c, sender, Withdrawing(base, quote));
      r.Done? ==>
        var l' := r.value.ledger;
        && OnlyBalances(c, r.value)
        && Pushed(l.base, l'.base, l.venue.baseBalance, l'.venue.baseBalance, l.venue.self, sender, base)
        && Pushed(l.quote, l'.quote, l.venue.quoteBalance, l'.venue.quoteBalance, l.venue.self, sender, quote)
  {
    var l := c.ledger;
    if base <= At(l.venue.baseBalance, sender) && quote <= At(l.venue.quoteBalance, sender) {
      PushEffect(l.base, l.venue.baseBalance, l.venue.self, sender, base);
      PushEffect(l.quote, l.venue.quoteBalance, l.venue.self, sender, quote);
    }
  }

  // --- Orders and batches ----------------------------------------------------

  // The number of orders taken for a batch.
  function Taken(v: VenueState, b: Uint64): nat {
    if b in v.batchOrderCount then v.batchOrderCount[b] else 0
  }

  lemma SubmittingEffect(c: ChainState, sender: Address, ciphertext: Ciphertext, sent: bool)
    ensures var v, r := c.ledger.venue, Apply(c, sender, Submitting(ciphertext, sent));
      && (r.Done? <==>
            && v.teeSigners != [] && ciphertext != NoBytes && sent
            && v.nextOrderId < U64 - 1 && Taken(v, v.currentBatchId) < U32 - 1)
      && (r == Revert(TeeNotSet) <==> v.teeSigners == [])
      && (r == Revert(EmptyCiphertext) ==> ciphertext == NoBytes)
      && (r == Revert(SendFailed) ==> !sent)
    ensures var v, r := c.ledger.venue, Apply(c, sender, Submitting(ciphertext, sent));
      r.Done? ==>
        var v' := r.value.ledger.venue;
        && OnlyVenue(c, r.value) && v'.nextOrderId == v.nextOrderId + 1
        && (forall a: Address :: LockOf(v', a) == if a == sender then v.currentBatchId else LockOf(v, a))
        && (forall b: Uint64 :: Taken(v', b) == Taken(v, b) + if b == v.currentBatchId then 1 else 0)
        && v' == v.(nextOrderId := v'.nextOrderId, lockedInBatch := v'.lockedInBatch,
                    batchOrderCount := v'.batchOrderCount)
  {
  }

  // The instruction a submission sends.
  lemma SubmittedRequest(v: VenueState, sender: Address, ciphertext: Ciphertext, sent: bool)
    requires SubmitOrder(v, sender, ciphertext, sent).Done?
    ensures var req := SubmitOrder(v, sender, ciphertext, sent).value.1;
      && req.orderId == v.nextOrderId && req.batchId == v.currentBatchId
      && req.trader == sender && req.ciphertext == ciphertext
  {
  }

  lemma CancellingEffect(c: ChainState, sender: Address, now: Uint256)
    ensures var v, r := c.ledger.venue, Apply(c, sender, Cancelling(now));
      && (r.Done? <==> sender == v.owner && v.currentBatchId < U64 - 1)
      && (r == Revert(NotOwner) <==> sender != v.owner)
      && (r.Done? ==>
            var v', b := r.value.ledger.venue, v.currentBatchId;
            && OnlyVenue(c, r.value)
            && v' == v.(currentBatchId := b + 1, batchSettled := v.batchSettled + {b},
                        batches := v.batches[b := BatchResult(0, 0, 0, now % U64, 0, Taken(v, b))]))
  {
  }

  // Anyone may ask to run a batch with orders; the venue's storage stays as it was.
  lemma RunningEffect(c: ChainState, sender: Address, feed: Feed, now: Uint256, sent: bool)
    ensures var v, r := c.ledger.venue, Apply(c, sender, Running(feed, now, sent));
      && (r.Done? <==>
            && v.teeSigners != [] && Taken(v, v.currentBatchId) > 0 && sent
            && now <= feed.timestamp + 3600 < U64 && -18 <= feed.decimals <= 18 && PriceOf(feed) < U256)
      && (r.Done? ==> r.value == c)
      && (r == Revert(TeeNotSet) <==> v.teeSigners == [])
      && (r == Revert(NothingToDo) ==> Taken(v, v.currentBatchId) == 0)
  {
    ReferencePriceExactly(feed, now);
  }

  // The instruction it sends: the current batch, the reading's own price, and the
  // tolerance, chain and address of the venue.
  lemma RunRequested(v: VenueState, feed: Feed, now: nat, sent: bool)
    requires RunBatch(v, feed, now, sent).Done?
    ensures var req := RunBatch(v, feed, now, sent).value;
      && req.batchId == v.currentBatchId && Taken(v, req.batchId) > 0
      && now <= feed.timestamp + 3600 && -18 <= feed.decimals <= 18 && req.refPrice == PriceOf(feed)
      && req.maxDeviationBps == v.maxDeviationBps && req.chainId == v.chainId && req.venue == v.self
  {
    ReferencePriceExactly(feed, now);
  }

  // --- Settlement ------------------------------------------------------------

  // Within bps of a reference, in products that fit a word; a zero reference is no test.
  predicate InBand(price: nat, ref: nat, bps: nat) {
    ref == 0 || (Abs(price - ref) * 10000 <= ref * bps < U256 && Abs(price - ref) * 10000 < U256)
  }

  // What settle asks of a decoded payload before it moves anything.
  predicate Admits(v: VenueState, s: Settlement, feed: Feed, now: nat) {
    && s.chainId == v.chainId && s.venue == v.self && s.batchId !in v.batchSettled
    && now <= feed.timestamp + 3600 < U64 && -18 <= feed.decimals <= 18 && PriceOf(feed) < U256
    && s.price >= 0 && InBand(s.price, PriceOf(feed), v.maxDeviationBps)
    && SumsFit(s.fills, 0, 0)
    && Sum(s.fills, Allocation.Base()) == 0 && Sum(s.fills, Allocation.Quote()) == 0
  }

  lemma BandIs(price: nat, ref: nat, bps: nat)
    ensures BandCheck(price, ref, bps) == Pass <==> InBand(price, ref, bps)
    ensures BandCheck(price, ref, bps) == Fail(ClearingPriceOutOfBand) ==>
      ref > 0 && Abs(price - ref) * 10000 > ref * bps
  {
  }

  lemma ChecksExactly(v: VenueState, s: Settlement, feed: Feed, now: nat)
    requires InRange(s)
    ensures CheckSettlement(v, s, feed, now) == Pass <==> Admits(v, s, feed, now)
    ensures CheckSettlement(v, s, feed, now) == Fail(WrongChain) <==> s.chainId != v.chainId
    ensures CheckSettlement(v, s, feed, now) == Fail(WrongVenue) ==> s.venue != v.self
    ensures CheckSettlement(v, s, feed, now) == Fail(BatchAlreadySettled) ==> s.batchId in v.batchSettled
    ensures CheckSettlement(v, s, feed, now) == Fail(StaleOracle) ==> feed.timestamp + 3600 < now
    ensures CheckSettlement(v, s, feed, now) == Fail(BaseNotConserved) ==> Sum(s.fills, Allocation.Base()) != 0
    ensures CheckSettlement(v, s, feed, now) == Fail(QuoteNotConserved) ==>
      Sum(s.fills, Allocation.Base()) == 0 && Sum(s.fills, Allocation.Quote()) != 0
  {
    ReferencePriceExactly(feed, now);
    NetDeltasExactly(s.fills, 0, 0);
    if NetDeltas(s.fills, 0, 0).Done? {
      NetDeltasAre(s.fills, 0, 0);
    }
    if ReferencePrice(feed, now).Done? {
      BandIs(s.price, PriceOf(feed), v.maxDeviationBps);
    }
  }

  // At least the threshold of registered signers, strictly increasing, none zero.
  ghost predicate Quorum(v: VenueState, signers: seq<Address>) {
    && |signers| >= v.signatureThreshold
    && (forall i :: 0 <= i < |signers| ==> signers[i] != 0 && signers[i] in v.isTee)
    && forall i, j :: 0 <= i < j < |signers| ==> signers[i] < signers[j]
  }

  lemma QuorumIs(v: VenueState, signers: seq<Address>)
    ensures VerifyQuorum(v, signers) == Pass <==> Quorum(v, signers)
    ensures VerifyQuorum(v, signers) == Fail(NotEnoughSignatures) <==> |signers| < v.signatureThreshold
  {
    QuorumExactly(v, signers);
    SignerErrors(v.isTee, signers, 0);
  }

  // Each refusal names a fault of some signer.
  lemma {:induction false} SignerErrors(isTee: set<Address>, signers: seq<Address>, previous: Address)
    ensures CheckSigners(isTee, signers, previous) == Fail(BadSignature) ==> ZERO_ADDRESS in signers
    ensures CheckSigners(isTee, signers, previous) == Fail(UnknownSigner) ==>
      exists a :: a in signers && a !in isTee
    ensures CheckSigners(isTee, signers, previous) == Fail(DuplicateSigner) ==> !Increasing(signers, previous)
    ensures CheckSigners(isTee, signers, previous) != Fail(NotEnoughSignatures)
    decreases |signers|
  {
    if signers != [] && signers[0] in isTee && signers[0] > previous {
      SignerErrors(isTee, signers[1..], signers[0]);
      if Increasing(signers, previous) {
        assert forall i :: 0 <= i < |signers[1..]| ==> signers[1..][i] == signers[i + 1];
        assert Increasing(signers[1..], signers[0]);
      }
    }
  }

  // The first signer at fault decides the error: not recovered, not registered, or
  // not above the one before.
  lemma {:induction false} FirstFault(isTee: set<Address>, signers: seq<Address>, previous: Address, k: nat)
    requires k < |signers| && Increasing(signers[..k], previous)
    requires forall i :: 0 <= i < k ==> signers[i] != 0 && signers[i] in isTee
    ensures var before := if k == 0 then previous else signers[k - 1];
      && (signers[k] == 0 ==> CheckSigners(isTee, signers, previous) == Fail(BadSignature))
      && (signers[k] != 0 && signers[k] !in isTee ==> CheckSigners(isTee, signers, previous) == Fail(UnknownSigner))
      && (signers[k] != 0 && signers[k] in isTee && signers[k] <= before ==>
            CheckSigners(isTee, signers, previous) == Fail(DuplicateSigner))
    decreases k
  {
    if k > 0 {
      var rest := signers[1..];
      assert rest[..k - 1] == signers[..k][1..];
      assert signers[..k][0] == signers[0];
      FirstFault(isTee, rest, signers[0], k - 1);
    }
  }

  // The fees have room in the recipient's balance and in the total.
  predicate FeesFit(v: VenueState, b: Venue.Books) {
    b.totalFee > 0 ==> At(b.quote, v.feeRecipient) + b.totalFee < U256 && v.feesCollected + b.totalFee < U256
  }

  lemma ExecutesExactly(v: VenueState, s: Settlement, now: nat)
    requires InRange(s)
    ensures Execute(v, s, now).Done? <==>
      BooksAfter(v, s).Done? && FeesFit(v, BooksAfter(v, s).value) && s.batchId < U64 - 1
  {
  }

  // Settle succeeds for exactly these payloads, signers and readings.
  lemma SettlesExactly(v: VenueState, payload: Payload, signers: seq<Address>, feed: Feed, now: nat)
    ensures Settle(v, payload, signers, feed, now).Done? <==>
      && v.teeSigners != [] && Quorum(v, signers) && Decode(payload).Some?
      && Admits(v, Decode(payload).value, feed, now) && Decode(payload).value.batchId < U64 - 1
      && BooksAfter(v, Decode(payload).value).Done? && FeesFit(v, BooksAfter(v, Decode(payload).value).value)
  {
    QuorumIs(v, signers);
    if Decode(payload).Some? {
      DecodedShort(payload);
      ChecksExactly(v, Decode(payload).value, feed, now);
      ExecutesExactly(v, Decode(payload).value, now);
    }
  }

  // Before it looks at the payload it refuses for want of signers.
  lemma SettleRefusals(v: VenueState, payload: Payload, signers: seq<Address>, feed: Feed, now: nat)
    ensures v.teeSigners == [] ==> Settle(v, payload, signers, feed, now) == Revert(TeeNotSet)
    ensures v.teeSigners != [] && |signers| < v.signatureThreshold ==>
      Settle(v, payload, signers, feed, now) == Revert(NotEnoughSignatures)
    ensures v.teeSigners != [] && Quorum(v, signers) && Decode(payload).None? ==>
      Settle(v, payload, signers, feed, now) == Revert(MalformedPayload)
  {
    QuorumIs(v, signers);
  }

  // What it leaves: the batch is settled and recorded, the next one is current, and
  // every balance has moved by its fills and the fees.
  lemma SettlingEffect(v: VenueState, payload: Payload, signers: seq<Address>, feed: Feed, now: nat)
    requires Settle(v, payload, signers, feed, now).Done?
    ensures Decode(payload).Some?
    ensures var s, v' := Decode(payload).value, Settle(v, payload, signers, feed, now).value;
      var fees := Sum(s.fills, Fee(v.feeBps));
      && fees >= 0 && s.price >= 0 && s.matched >= 0 && s.batchId < U64 - 1
      && v'.batches == v.batches[s.batchId :=
           BatchResult(s.price, s.matched, fees, now % U64, |s.fills| % U32, Taken(v, s.batchId))]
      && v' == v.(baseBalance := v'.baseBalance, quoteBalance := v'.quoteBalance, batches := v'.batches,
                  feesCollected := v.feesCollected + fees, currentBatchId := s.batchId + 1,
                  batchSettled := v.batchSettled + {s.batchId})
  {
    var s := Decode(payload).value;
    SettleChecks(v, payload, signers, feed, now);
    ApplyFillsFees(Venue.Books(v.baseBalance, v.quoteBalance, 0), s.fills, v.feeBps);
  }

  // Who gets what: the sum of its fills, less the basis points of each, rounded down;
  // and the fee recipient gets what all the others were charged.
  lemma SettlingPays(v: VenueState, payload: Payload, signers: seq<Address>, feed: Feed, now: nat, t: Address)
    requires Settle(v, payload, signers, feed, now).Done?
    ensures Decode(payload).Some?
    ensures var s, v' := Decode(payload).value, Settle(v, payload, signers, feed, now).value;
      && At(v'.baseBalance, t) == At(v.baseBalance, t)
           + Sum(s.fills, Masked(Allocation.OfTrader(t), Allocation.Base()))
      && At(v'.quoteBalance, t) == At(v.quoteBalance, t)
           + Sum(s.fills, Masked(Allocation.OfTrader(t), Allocation.Quote()))
           - Sum(s.fills, Masked(Allocation.OfTrader(t), Fee(v.feeBps)))
           + (if t == v.feeRecipient then Sum(s.fills, Fee(v.feeBps)) else 0)
  {
    SettlePerTrader(v, payload, signers, feed, now, t);
    SumSplit(Decode(payload).value.fills, Masked(Allocation.OfTrader(t), Allocation.Quote()),
             Masked(Allocation.OfTrader(t), NetQuote(v.feeBps)), Masked(Allocation.OfTrader(t), Fee(v.feeBps)));
  }

  // --- Deployment ------------------------------------------------------------

  // A new venue: no signers, one signature to settle, a tolerance of 5%, a fee of 5
  // basis points to the deployer, first batch and first order, and empty books.
  lemma DeploymentTerms(self: Address, chainId: Uint256, deployer: Address)
    ensures var v := Deployed(self, chainId, deployer);
      && v.self == self && v.chainId == chainId && v.owner == v.feeRecipient == deployer
      && v.isTee == {} && v.teeSigners == [] && v.signatureThreshold == 1
      && v.maxDeviationBps * 20 == 10000 && v.feeBps == 5 && v.feesCollected == 0
      && v.currentBatchId == v.nextOrderId == 1 && v.batchSettled == {}
      && v.baseBalance == v.quoteBalance == map[] && v.lockedInBatch == map[]
      && v.batchOrderCount == map[] && v.batches == map[]
  {
  }

  // --- Administration --------------------------------------------------------

  lemma AddingTeeEffect(c: ChainState, sender: Address, tee: Address)
    ensures var v, r := c.ledger.venue, Apply(c, sender, AddingTee(tee));
      && (r.Done? <==> sender == v.owner && tee != 0)
      && (r == Revert(NotOwner) <==> sender != v.owner)
      && (r.Done? ==>
            var v' := r.value.ledger.venue;
            && OnlyVenue(c, r.value) && v'.isTee == v.isTee + {tee}
            && v'.teeSigners == v.teeSigners + (if tee in v.isTee then [] else [tee])
            && v' == v.(isTee := v'.isTee, teeSigners := v'.teeSigners))
  {
  }

  lemma SettingEffects(c: ChainState, sender: Address, threshold: Uint8, deviation: Uint32, fee: Uint16, to: Address)
    ensures var v, r := c.ledger.venue, Apply(c, sender, SettingThreshold(threshold));
      && (r.Done? <==> sender == v.owner && 1 <= threshold <= |v.teeSigners|)
      && (r == Revert(NotOwner) <==> sender != v.owner)
      && (r.Done? ==> OnlyVenue(c, r.value) && r.value.ledger.venue == v.(signatureThreshold := threshold))
    ensures var v, r := c.ledger.venue, Apply(c, sender, SettingDeviation(deviation));
      && (r.Done? <==> sender == v.owner)
      && (r == Revert(NotOwner) <==> sender != v.owner)
      && (r.Done? ==> OnlyVenue(c, r.value) && r.value.ledger.venue == v.(maxDeviationBps := deviation))
    ensures var v, r := c.ledger.venue, Apply(c, sender, SettingFee(fee, to));
      && (r.Done? <==> sender == v.owner && fee <= 30 && to != 0)
      && (r == Revert(NotOwner) <==> sender != v.owner)
      && (r == Revert(FeeTooHigh) ==> fee > 30) && (r == Revert(ZeroAddress) ==> to == 0)
      && (r.Done? ==> OnlyVenue(c, r.value) && r.value.ledger.venue == v.(feeBps := fee, feeRecipient := to))
  {
  }

  // --- The gateway -----------------------------------------------------------

  lemma DrainingEffect(c: ChainState, sender: Address, amount: Uint256, to: Address)
    ensures var g, t, r := c.gateway, c.ledger.quote, Apply(c, sender, DrainingFloat(amount, to));
      && (r.Done? <==> sender == g.owner && to != 0 && CanMove(t.balanceOf, g.self, to, amount))
      && (r == Revert(NotOwner) <==> sender != g.owner)
      && (r.Done? ==>
            var t' := r.value.ledger.quote;
            && OnlyToken(c, r.value, false) && Moves(t.balanceOf, t'.balanceOf, g.self, to, amount)
            && t'.totalSupply == t.totalSupply && t'.allowance == t.allowance)
  {
  }

  lemma HandingOverEffect(c: ChainState, sender: Address, newOwner: Address)
    ensures var g, r := c.gateway, Apply(c, sender, HandingOver(newOwner));
      && (r.Done? <==> sender == g.owner && newOwner != 0)
      && (r == Revert(NotOwner) <==> sender != g.owner)
      && (r.Done? ==> r.value == c.(gateway := g.(owner := newOwner)))
  {
  }
}
