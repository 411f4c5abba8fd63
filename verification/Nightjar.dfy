// The venue contract itself: storage updated in place, proved to follow the
// calls of module Venue, reverts included.
module Nightjar {
  import opened Types
  import opened Sums
  import opened Token
  import opened Codec
  import opened Venue

  class NightjarAuction {
    const self: Address
    const chainId: Uint256
    const baseToken: TestUSD
    const quoteToken: TestUSD

    var owner: Address
    var isTee: set<Address>
    var teeSigners: seq<Address>
    var signatureThreshold: nat
    var maxDeviationBps: nat
    var feeBps: nat
    var feeRecipient: Address
    var feesCollected: nat
    var currentBatchId: Uint64
    var nextOrderId: Uint64
    var baseBalance: Balances
    var quoteBalance: Balances
    var lockedInBatch: map<Address, Uint64>
    var batchSettled: set<Uint64>
    var batchOrderCount: map<Uint64, nat>
    var batches: map<Uint64, BatchResult>

    constructor (self: Address, chainId: Uint256, deployer: Address, baseToken: TestUSD, quoteToken: TestUSD)
      requires baseToken != quoteToken
      ensures State() == Deployed(self, chainId, deployer)
      ensures this.baseToken == baseToken && this.quoteToken == quoteToken
    {
      this.self, this.chainId, this.baseToken, this.quoteToken := self, chainId, baseToken, quoteToken;
      owner, feeRecipient := deployer, deployer;
      isTee, teeSigners, signatureThreshold := {}, [], 1;
      maxDeviationBps, feeBps, feesCollected := 500, 5, 0;
      currentBatchId, nextOrderId := 1, 1;
      baseBalance, quoteBalance, lockedInBatch := map[], map[], map[];
      batchSettled, batchOrderCount, batches := {}, map[], map[];
    }

    function State(): VenueState
      reads this
    {
      VenueState(self, chainId, owner, isTee, teeSigners, signatureThreshold, maxDeviationBps, feeBps, feeRecipient,
                 feesCollected, currentBatchId, nextOrderId, baseBalance, quoteBalance, lockedInBatch, batchSettled,
                 batchOrderCount, batches)
    }

    function Holdings(): Ledger
      reads this, baseToken, quoteToken
    {
      Ledger(State(), baseToken.State(), quoteToken.State())
    }

    method Register(sender: Address, tee: Address) returns (r: Check)
      modifies this
      ensures Took(AddTee(old(State()), sender, tee), old(State()), State(), r)
    {
      if sender != owner {
        return Fail(NotOwner);
      }
      if tee == ZERO_ADDRESS {
        return Fail(ZeroAddress);
      }
      if tee !in isTee {
        isTee := isTee + {tee};
        teeSigners := teeSigners + [tee];
      }
      return Pass;
    }

    method SetThreshold(sender: Address, threshold: nat) returns (r: Check)
      modifies this
      ensures Took(SetSignatureThreshold(old(State()), sender, threshold), old(State()), State(), r)
    {
      if sender != owner {
        return Fail(NotOwner);
      }
      if threshold == 0 || threshold > |teeSigners| {
        return Fail(BadThreshold);
      }
      signatureThreshold := threshold;
      return Pass;
    }

    method SetDeviation(sender: Address, bps: nat) returns (r: Check)
      modifies this
      ensures Took(SetMaxDeviationBps(old(State()), sender, bps), old(State()), State(), r)
    {
      if sender != owner {
        return Fail(NotOwner);
      }
      maxDeviationBps := bps;
      return Pass;
    }

    method ConfigureFee(sender: Address, bps: nat, recipient: Address) returns (r: Check)
      modifies this
      ensures Took(SetFee(old(State()), sender, bps, recipient), old(State()), State(), r)
    {
      if sender != owner {
        return Fail(NotOwner);
      }
      if bps > MAX_FEE_BPS {
        return Fail(FeeTooHigh);
      }
      if recipient == ZERO_ADDRESS {
        return Fail(ZeroAddress);
      }
      feeBps, feeRecipient := bps, recipient;
      return Pass;
    }

    // One leg of _deposit: the tokens and the balance they back.
    method PullLeg(token: TestUSD, balance: Balances, from: Address, trader: Address, amount: nat)
        returns (r: Tx<Balances>)
      modifies token
      ensures match Pull(old(token.State()), balance, self, from, trader, amount)
              case Done((t, b)) => r == Done(b) && token.State() == t
              case Revert(e) => r == Revert(e) && token.State() == old(token.State())
    {
      if amount == 0 {
        return Done(balance);
      }
      var saved := token.State();
      var moved := token.TransferFromTo(self, from, self, amount);
      if moved.Fail? {
        return Revert(moved.error);
      }
      if At(balance, trader) + amount >= U256 {
        token.Rollback(saved);
        return Revert(Overflow);
      }
      return Done(balance[trader := At(balance, trader) + amount]);
    }

    // _deposit: the base leg is undone when the quote leg fails.
    method Deposit(from: Address, trader: Address, base: nat, quote: nat) returns (r: Check)
      requires baseToken != quoteToken
      modifies this, baseToken, quoteToken
      ensures Took(DepositFrom(old(Holdings()), from, trader, base, quote), old(Holdings()), Holdings(), r)
    {
      var savedBase := baseToken.State();
      if base == 0 && quote == 0 {
        return Fail(NothingToDo);
      }
      var baseLeg := PullLeg(baseToken, baseBalance, from, trader, base);
      if baseLeg.Revert? {
        return Fail(baseLeg.error);
      }
      var quoteLeg := PullLeg(quoteToken, quoteBalance, from, trader, quote);
      if quoteLeg.Revert? {
        baseToken.Rollback(savedBase);
        return Fail(quoteLeg.error);
      }
      baseBalance, quoteBalance := baseLeg.value, quoteLeg.value;
      return Pass;
    }

    method DepositForTrader(sender: Address, trader: Address, base: nat, quote: nat) returns (r: Check)
      requires baseToken != quoteToken
      modifies this, baseToken, quoteToken
      ensures Took(DepositFor(old(Holdings()), sender, trader, base, quote), old(Holdings()), Holdings(), r)
    {
      if trader == ZERO_ADDRESS {
        return Fail(ZeroAddress);
      }
      r := Deposit(sender, trader, base, quote);
    }

    // One leg of a withdrawal.
    method PushLeg(token: TestUSD, balance: Balances, to: Address, amount: nat) returns (r: Tx<Balances>)
      requires amount <= At(balance, to)
      modifies token
      ensures match Push(old(token.State()), balance, self, to, amount)
              case Done((t, b)) => r == Done(b) && token.State() == t
              case Revert(e) => r == Revert(e) && token.State() == old(token.State())
    {
      if amount == 0 {
        return Done(balance);
      }
      var moved := token.TransferTo(self, to, amount);
      if moved.Fail? {
        return Revert(moved.error);
      }
      return Done(balance[to := At(balance, to) - amount]);
    }

    method WithdrawFunds(sender: Address, base: nat, quote: nat) returns (r: Check)
      requires baseToken != quoteToken
      modifies this, baseToken, quoteToken
      ensures Took(Withdraw(old(Holdings()), sender, base, quote), old(Holdings()), Holdings(), r)
    {
      var savedBase := baseToken.State();
      var locked := if sender in lockedInBatch then lockedInBatch[sender] else 0;
      if locked != 0 && locked !in batchSettled {
        return Fail(BalanceLocked);
      }
      if base > At(baseBalance, sender) || quote > At(quoteBalance, sender) {
        return Fail(InsufficientBalance);
      }
      var baseLeg := PushLeg(baseToken, baseBalance, sender, base);
      if baseLeg.Revert? {
        return Fail(baseLeg.error);
      }
      var quoteLeg := PushLeg(quoteToken, quoteBalance, sender, quote);
      if quoteLeg.Revert? {
        baseToken.Rollback(savedBase);
        return Fail(quoteLeg.error);
      }
      baseBalance, quoteBalance := baseLeg.value, quoteLeg.value;
      return Pass;
    }

    method Submit(sender: Address, ciphertext: Ciphertext, sent: bool) returns (r: Tx<SubmitRequest>)
      modifies this
      ensures match SubmitOrder(old(State()), sender, ciphertext, sent)
              case Done((v, request)) => r == Done(request) && State() == v
              case Revert(e) => r == Revert(e) && State() == old(State())
    {
      if |teeSigners| == 0 {
        return Revert(TeeNotSet);
      }
      if ciphertext == NoBytes {
        return Revert(EmptyCiphertext);
      }
      var count := if currentBatchId in batchOrderCount then batchOrderCount[currentBatchId] else 0;
      if nextOrderId + 1 >= U64 || count + 1 >= U32 {
        return Revert(Overflow);
      }
      if !sent {
        return Revert(SendFailed);
      }
      var orderId, batchId := nextOrderId, currentBatchId;
      nextOrderId := nextOrderId + 1;
      lockedInBatch := lockedInBatch[sender := batchId];
      batchOrderCount := batchOrderCount[batchId := count + 1];
      return Done(SubmitRequest(orderId, batchId, sender, ciphertext));
    }

    method RequestRun(feed: Feed, now: nat, sent: bool) returns (r: Tx<RunRequest>)
      ensures r == RunBatch(State(), feed, now, sent)
    {
      if |teeSigners| == 0 {
        return Revert(TeeNotSet);
      }
      if currentBatchId !in batchOrderCount || batchOrderCount[currentBatchId] == 0 {
        return Revert(NothingToDo);
      }
      var refPrice := ReferencePrice(feed, now);
      if refPrice.Revert? {
        return Revert(refPrice.error);
      }
      if !sent {
        return Revert(SendFailed);
      }
      return Done(RunRequest(currentBatchId, refPrice.value, maxDeviationBps, chainId, self));
    }

    // _verifyQuorum
    method CheckQuorum(signers: seq<Address>) returns (r: Check)
      ensures r == VerifyQuorum(State(), signers)
    {
      if |signers| < signatureThreshold {
        return Fail(NotEnoughSignatures);
      }
      var previous := ZERO_ADDRESS;
      for i := 0 to |signers|
        invariant CheckSigners(isTee, signers[i..], previous) == CheckSigners(isTee, signers, ZERO_ADDRESS)
      {
        assert signers[i..][1..] == signers[i + 1..];
        var signer := signers[i];
        if signer == ZERO_ADDRESS {
          return Fail(BadSignature);
        }
        if signer !in isTee {
          return Fail(UnknownSigner);
        }
        if signer <= previous {
          return Fail(DuplicateSigner);
        }
        previous := signer;
      }
      return Pass;
    }

    // The conservation check on the enclave's raw deltas.
    method SumDeltas(fills: seq<Fill>) returns (r: Tx<(int, int)>)
      ensures r == NetDeltas(fills, 0, 0)
    {
      var netBase, netQuote := 0, 0;
      for i := 0 to |fills|
        invariant NetDeltas(fills[i..], netBase, netQuote) == NetDeltas(fills, 0, 0)
      {
        assert fills[i..][1..] == fills[i + 1..];
        if !IsInt256(netBase + fills[i].base) || !IsInt256(netQuote + fills[i].quote) {
          return Revert(Overflow);
        }
        netBase := netBase + fills[i].base;
        netQuote := netQuote + fills[i].quote;
      }
      return Done((netBase, netQuote));
    }

    // Moves one trader's balances and charges its fee.
    method ApplyDelta(f: Fill, totalFee: nat) returns (r: Tx<nat>)
      modifies this`baseBalance, this`quoteBalance
      ensures match ApplyFill(Venue.Books(old(baseBalance), old(quoteBalance), totalFee), f, feeBps)
              case Done(b) => r == Done(b.totalFee) && baseBalance == b.base && quoteBalance == b.quote
              case Revert(e) => r == Revert(e)
    {
      if f.quote <= -I256 || Abs(f.quote) * feeBps >= U256 {
        return Revert(Overflow);
      }
      var fee := FeeOn(f.quote, feeBps);
      if totalFee + fee >= U256 || f.quote - fee < -I256 {
        return Revert(Overflow);
      }
      var base := Credit(baseBalance, f.trader, f.base);
      if base.Revert? {
        return Revert(base.error);
      }
      baseBalance := base.value;
      var quote := Credit(quoteBalance, f.trader, f.quote - fee);
      if quote.Revert? {
        return Revert(quote.error);
      }
      quoteBalance := quote.value;
      return Done(totalFee + fee);
    }

    // The loop that applies every fill; on a revert the balances are half moved.
    method ApplyAll(fills: seq<Fill>) returns (r: Tx<nat>)
      modifies this`baseBalance, this`quoteBalance
      ensures match ApplyFills(Venue.Books(old(baseBalance), old(quoteBalance), 0), fills, feeBps)
              case Done(b) => r == Done(b.totalFee) && baseBalance == b.base && quoteBalance == b.quote
              case Revert(e) => r == Revert(e)
    {
      var totalFee: nat := 0;
      ghost var start := Venue.Books(baseBalance, quoteBalance, 0);
      for i := 0 to |fills|
        invariant ApplyFills(Venue.Books(baseBalance, quoteBalance, totalFee), fills[i..], feeBps)
               == ApplyFills(start, fills, feeBps)
      {
        assert fills[i..][1..] == fills[i + 1..];
        var step := ApplyDelta(fills[i], totalFee);
        if step.Revert? {
          return Revert(step.error);
        }
        totalFee := step.value;
      }
      return Done(totalFee);
    }

    method Close(batchId: Uint64, price: nat, matched: nat, fee: nat, now: nat, fills: nat) returns (r: Check)
      modifies this`batchSettled, this`currentBatchId, this`batches
      ensures r.Fail? ==> unchanged(this)
      ensures Took(CloseBatch(old(State()), batchId, price, matched, fee, now, fills), old(State()), State(), r)
    {
      if batchId + 1 >= U64 {
        return Fail(Overflow);
      }
      var orders := if batchId in batchOrderCount then batchOrderCount[batchId] else 0;
      batchSettled := batchSettled + {batchId};
      currentBatchId := batchId + 1;
      batches := batches[batchId := BatchResult(price, matched, fee, now % U64, fills % U32, orders)];
      return Pass;
    }

    method SettleBatch(payload: Payload, signers: seq<Address>, feed: Feed, now: nat) returns (r: Check)
      modifies this
      ensures Took(Settle(old(State()), payload, signers, feed, now), old(State()), State(), r)
    {
      if |teeSigners| == 0 {
        return Fail(TeeNotSet);
      }
      r := CheckQuorum(signers);
      if r.Fail? {
        return;
      }
      var decoded := Decode(payload);
      if decoded.None? {
        return Fail(MalformedPayload);
      }
      var s := decoded.value;
      DecodedShort(payload);
      r := CheckTerms(s, feed, now);
      if r.Fail? {
        return;
      }
      r := ExecuteFills(s, now);
    }

    // Credits a batch's fees to the fee recipient.
    method Collect(totalFee: nat) returns (r: Check)
      modifies this`quoteBalance, this`feesCollected
      ensures Took(CollectFee(old(quoteBalance), feeRecipient, old(feesCollected), totalFee),
                   old((quoteBalance, feesCollected)), (quoteBalance, feesCollected), r)
    {
      if totalFee > 0 {
        if At(quoteBalance, feeRecipient) + totalFee >= U256 || feesCollected + totalFee >= U256 {
          return Fail(Overflow);
        }
        quoteBalance := quoteBalance[feeRecipient := At(quoteBalance, feeRecipient) + totalFee];
        feesCollected := feesCollected + totalFee;
      }
      return Pass;
    }

    // Moves the fills and their fees; on a revert the balances are half moved.
    method MoveAll(fills: seq<Fill>) returns (r: Tx<nat>)
      modifies this`baseBalance, this`quoteBalance, this`feesCollected
      ensures match MoveFunds(old(State()), fills)
              case Done((v, fee)) => r == Done(fee) && State() == v
              case Revert(e) => r == Revert(e)
    {
      r := ApplyAll(fills);
      if r.Done? {
        var collected := Collect(r.value);
        if collected.Fail? {
          return Revert(collected.error);
        }
      }
    }

    // What the chain does to a call that reverts, written out: storage goes back.
    method ExecuteFills(s: Settlement, now: nat) returns (r: Check)
      requires InRange(s)
      modifies this
      ensures Took(Execute(old(State()), s, now), old(State()), State(), r)
    {
      var savedBase, savedQuote, savedFees := baseBalance, quoteBalance, feesCollected;
      var moved := MoveAll(s.fills);
      r := if moved.Done? then Pass else Fail(moved.error);
      if moved.Done? {
        r := Close(s.batchId, s.price, s.matched, moved.value, now, |s.fills|);
      }
      if r.Fail? {
        baseBalance, quoteBalance, feesCollected := savedBase, savedQuote, savedFees;
      }
    }

    method CheckTerms(s: Settlement, feed: Feed, now: nat) returns (r: Check)
      requires InRange(s)
      ensures r == CheckSettlement(State(), s, feed, now)
    {
      if s.chainId != chainId {
        return Fail(WrongChain);
      }
      if s.venue != self {
        return Fail(WrongVenue);
      }
      if s.batchId in batchSettled {
        return Fail(BatchAlreadySettled);
      }
      var ref := ReferencePrice(feed, now);
      if ref.Revert? {
        return Fail(ref.error);
      }
      r := BandCheck(s.price, ref.value, maxDeviationBps);
      if r.Fail? {
        return;
      }
      var net := SumDeltas(s.fills);
      if net.Revert? {
        return Fail(net.error);
      }
      if net.value.0 != 0 {
        return Fail(BaseNotConserved);
      }
      if net.value.1 != 0 {
        return Fail(QuoteNotConserved);
      }
      return Pass;
    }

    method Cancel(sender: Address, now: nat) returns (r: Check)
      modifies this
      ensures Took(CancelBatch(old(State()), sender, now), old(State()), State(), r)
    {
      if sender != owner {
        return Fail(NotOwner);
      }
      r := Close(currentBatchId, 0, 0, 0, now, 0);
    }
  }
}
