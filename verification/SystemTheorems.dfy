// What every run of the venue and its enclaves guarantees.
module SystemTheorems {
  import opened Types
  import opened Sums
  import opened Auction
  import opened Codec
  import opened Venue
  import opened VenueTheorems
  import opened System
  import Allocation
  import AuctionTheorems
  import Gateway
  import Token
  import Chain
  import Enclave
  import Agreement
  import Overflow
  import Provenance

  // --- Batches and locks -----------------------------------------------------

  // In every reachable state, exactly the batches before the current one are settled.
  lemma BatchSequence(ws: seq<World>, acts: seq<Action>, i: nat, b: Uint64)
    requires TrustedRun(ws, acts) && i < |ws|
    ensures b in VenueOf(ws[i]).batchSettled <==> 1 <= b < VenueOf(ws[i]).currentBatchId
  {
    RunProtocol(ws, acts, i);
  }

  // Every executed settlement is for a past batch, and no two are for the same.
  lemma SettledOnce(ws: seq<World>, acts: seq<Action>, i: nat, j: nat)
    requires TrustedRun(ws, acts) && i < |ws| && j < |ws[i].executed|
    ensures BatchOf(ws[i].executed[j]) < VenueOf(ws[i]).currentBatchId
    ensures forall k :: j < k < |ws[i].executed| ==> BatchOf(ws[i].executed[j]) < BatchOf(ws[i].executed[k])
  {
    RunProtocol(ws, acts, i);
  }

  // A trader with an order in an unsettled batch is locked in it, and it is the
  // current batch, so one slot per trader suffices.
  lemma SlotNamesBatch(ws: seq<World>, acts: seq<Action>, i: nat, req: SubmitRequest)
    requires TrustedRun(ws, acts) && i < |ws|
    requires req in ws[i].submitted && req.batchId !in VenueOf(ws[i]).batchSettled
    ensures LockOf(VenueOf(ws[i]), req.trader) == req.batchId == VenueOf(ws[i]).currentBatchId
    ensures Locked(VenueOf(ws[i]), req.trader)
  {
    RunProtocol(ws, acts, i);
  }

  ghost predicate NotLess(v: VenueState, v': VenueState, t: Address) {
    At(v.baseBalance, t) <= At(v'.baseBalance, t) && At(v.quoteBalance, t) <= At(v'.quoteBalance, t)
  }

  lemma PullAdds(t: Token.TokenState, b: Token.Balances, self: Address, from: Address, trader: Address,
                 amount: nat, a: Address)
    requires Pull(t, b, self, from, trader, amount).Done?
    ensures At(b, a) <= At(Pull(t, b, self, from, trader, amount).value.1, a)
  {
  }

  lemma DepositAdds(l: Ledger, from: Address, trader: Address, base: nat, quote: nat, t: Address)
    requires DepositFrom(l, from, trader, base, quote).Done?
    ensures var l' := DepositFrom(l, from, trader, base, quote).value;
      NotLess(l.venue, l'.venue, t) && LockOf(l'.venue, t) == LockOf(l.venue, t)
  {
    PullAdds(l.base, l.venue.baseBalance, l.venue.self, from, trader, base, t);
    PullAdds(l.quote, l.venue.quoteBalance, l.venue.self, from, trader, quote, t);
  }

  lemma WithdrawSparesOthers(l: Ledger, sender: Address, base: nat, quote: nat, t: Address)
    requires Withdraw(l, sender, base, quote).Done? && Locked(l.venue, t)
    ensures var l' := Withdraw(l, sender, base, quote).value;
      NotLess(l.venue, l'.venue, t) && LockOf(l'.venue, t) == LockOf(l.venue, t)
  {
    assert sender != t;
  }

  predicate MovesMoney(call: Chain.Call) {
    call.Depositing? || call.DepositingFor? || call.Funding? || call.Withdrawing?
  }

  lemma MoneyCallSpares(c: Chain.ChainState, sender: Address, call: Chain.Call, t: Address)
    requires MovesMoney(call) && Locked(c.ledger.venue, t)
    ensures var v' := Chain.After(c, sender, call).ledger.venue;
      NotLess(c.ledger.venue, v', t) && LockOf(v', t) == LockOf(c.ledger.venue, t)
  {
    if Chain.Apply(c, sender, call).Done? {
      if call.Depositing? {
        DepositAdds(c.ledger, sender, sender, call.base, call.quote, t);
      } else if call.DepositingFor? {
        DepositAdds(c.ledger, sender, call.trader, call.base, call.quote, t);
      } else if call.Funding? {
        var quote := Gateway.Fund(c.gateway, c.ledger, call.payment, call.feed).value.2;
        DepositAdds(c.ledger, c.gateway.self, Gateway.Beneficiary(call.payment), 0, quote, t);
      } else {
        WithdrawSparesOthers(c.ledger, sender, call.base, call.quote, t);
      }
    }
  }

  lemma QuietCallSpares(c: Chain.ChainState, sender: Address, call: Chain.Call, t: Address)
    requires !MovesMoney(call) && !MovesBatches(call)
    ensures var v' := Chain.After(c, sender, call).ledger.venue;
      NotLess(c.ledger.venue, v', t) && LockOf(v', t) == LockOf(c.ledger.venue, t)
  {
  }

  lemma SubmitSpares(c: Chain.ChainState, sender: Address, call: Chain.Call, t: Address)
    requires call.Submitting? && LockOf(c.ledger.venue, t) == c.ledger.venue.currentBatchId
    ensures var v' := Chain.After(c, sender, call).ledger.venue;
      NotLess(c.ledger.venue, v', t) && LockOf(v', t) == LockOf(c.ledger.venue, t)
  {
  }

  // A call that leaves a trader's batch unsettled takes nothing from the trader.
  lemma LockedCallSpares(w: World, sender: Address, call: Chain.Call, t: Address)
    requires Sequenced(VenueOf(w)) && LocksCover(w) && RequestsOk(w) && SignedVouched(w) && Backed(w, call)
    requires Locked(VenueOf(w), t)
    requires LockOf(VenueOf(w), t) !in Chain.After(w.chain, sender, call).ledger.venue.batchSettled
    ensures var v' := Chain.After(w.chain, sender, call).ledger.venue;
      NotLess(VenueOf(w), v', t) && LockOf(v', t) == LockOf(VenueOf(w), t)
  {
    var c := w.chain;
    assert LockOf(VenueOf(w), t) == VenueOf(w).currentBatchId;
    if MovesMoney(call) {
      MoneyCallSpares(c, sender, call, t);
    } else if !MovesBatches(call) {
      QuietCallSpares(c, sender, call, t);
    } else if call.Submitting? {
      SubmitSpares(c, sender, call, t);
    } else if call.Settling? && Settle(VenueOf(w), call.payload, call.signers, call.feed, call.now).Done? {
      SettlesCurrent(w, call.payload, call.signers, call.feed, call.now);
      SettleMovesOn(VenueOf(w), call.payload, call.signers, call.feed, call.now);
    }
  }

  lemma LockedStepSpares(w: World, a: Action, w': World, t: Address)
    requires Protocol(w) && (Executes(w, a) ==> Trusted(w)) && Next(w, a, w')
    requires Locked(VenueOf(w), t) && LockOf(VenueOf(w), t) !in VenueOf(w').batchSettled
    ensures NotLess(VenueOf(w), VenueOf(w'), t) && LockOf(VenueOf(w'), t) == LockOf(VenueOf(w), t)
  {
    if a.Calls? {
      CalledFrame(w, a.sender, a.call);
      LockedCallSpares(w, a.sender, a.call, t);
    }
  }

  lemma LockedRunSpares(ws: seq<World>, acts: seq<Action>, i: nat, t: Address)
    requires TrustedRun(ws, acts) && i < |acts|
    requires Locked(VenueOf(ws[i]), t) && LockOf(VenueOf(ws[i]), t) !in VenueOf(ws[i + 1]).batchSettled
    ensures NotLess(VenueOf(ws[i]), VenueOf(ws[i + 1]), t)
    ensures LockOf(VenueOf(ws[i + 1]), t) == LockOf(VenueOf(ws[i]), t)
  {
    RunProtocol(ws, acts, i);
    assert StepAt(ws, acts, i) && TrustedAt(ws, acts, i);
    LockedStepSpares(ws[i], acts[i], ws[i + 1], t);
  }

  // Settled batches stay settled.
  lemma {:induction false} SettledStays(ws: seq<World>, acts: seq<Action>, i: nat, j: nat, b: Uint64)
    requires Run(ws, acts) && i <= j < |ws| && b in VenueOf(ws[i]).batchSettled
    ensures b in VenueOf(ws[j]).batchSettled
    decreases j
  {
    if i < j {
      SettledStays(ws, acts, i, j - 1, b);
      assert StepAt(ws, acts, j - 1);
      SettledGrows(ws[j - 1], acts[j - 1], ws[j]);
    }
  }

  lemma SettledGrows(w: World, a: Action, w': World)
    requires Next(w, a, w')
    ensures VenueOf(w).batchSettled <= VenueOf(w').batchSettled
  {
    if a.Calls? {
      if !MovesBatches(a.call) {
        OtherCallsKeep(w.chain, a.sender, a.call);
      } else if a.call.Settling? && Chain.Apply(w.chain, a.sender, a.call).Done? {
        SettleMovesOn(VenueOf(w), a.call.payload, a.call.signers, a.call.feed, a.call.now);
      }
    }
  }

  // From locking to settling, a trader's balances never fall.
  lemma {:induction false} LockedBalancesHold(ws: seq<World>, acts: seq<Action>, i: nat, j: nat, t: Address)
    requires TrustedRun(ws, acts) && i <= j < |ws|
    requires Locked(VenueOf(ws[i]), t) && LockOf(VenueOf(ws[i]), t) !in VenueOf(ws[j]).batchSettled
    ensures NotLess(VenueOf(ws[i]), VenueOf(ws[j]), t)
    ensures LockOf(VenueOf(ws[j]), t) == LockOf(VenueOf(ws[i]), t)
    decreases j
  {
    if i < j {
      var b := LockOf(VenueOf(ws[i]), t);
      if b in VenueOf(ws[j - 1]).batchSettled {
        SettledStays(ws, acts, j - 1, j, b);
      }
      LockedBalancesHold(ws, acts, i, j - 1, t);
      LockedRunSpares(ws, acts, j - 1, t);
    }
  }

  // The owner can always release every trader, short of the last batch number.
  lemma CancelReleases(ws: seq<World>, acts: seq<Action>, i: nat, now: nat, t: Address)
    requires TrustedRun(ws, acts) && i < |ws| && VenueOf(ws[i]).currentBatchId + 1 < U64
    ensures var v := VenueOf(ws[i]);
      CancelBatch(v, v.owner, now).Done? && !Locked(CancelBatch(v, v.owner, now).value, t)
  {
    RunProtocol(ws, acts, i);
    var v := VenueOf(ws[i]);
    assert LockOf(CancelBatch(v, v.owner, now).value, t) == LockOf(v, t) <= v.currentBatchId;
  }

  // --- Quorum safety ---------------------------------------------------------

  // Distinct requests have distinct IDs below nextOrderId, so there are fewer than 2^64.
  lemma {:induction false} FewRequests(submitted: set<SubmitRequest>, bound: nat)
    requires forall x, y :: x in submitted && y in submitted && x.orderId == y.orderId ==> x == y
    requires forall x :: x in submitted ==> x.orderId < bound
    ensures |submitted| <= bound
    decreases bound
  {
    if submitted != {} {
      if x :| x in submitted && x.orderId == bound - 1 {
        FewRequests(submitted - {x}, bound - 1);
      } else {
        var y :| y in submitted;
        FewRequests(submitted, bound - 1);
      }
    }
  }

  function SubmittersOf(submitted: set<SubmitRequest>, batchId: Uint64): set<Address> {
    set req | req in submitted && req.batchId == batchId :: req.trader
  }

  lemma {:induction false} FewTraders(submitted: set<SubmitRequest>, batchId: Uint64)
    ensures |SubmittersOf(submitted, batchId)| <= |submitted|
    decreases |submitted|
  {
    if submitted != {} {
      var x :| x in submitted;
      FewTraders(submitted - {x}, batchId);
      SubsetSize(SubmittersOf(submitted, batchId), SubmittersOf(submitted - {x}, batchId) + {x.trader});
    }
  }

  lemma {:induction false} OneFillPerTrader(fills: seq<Fill>)
    requires Allocation.DistinctTraders(fills)
    ensures |Allocation.Traders(fills)| == |fills|
  {
    if fills != [] {
      OneFillPerTrader(fills[1..]);
    }
  }

  // The fills of a cleared batch name only traders with orders in it.
  lemma FillsNameOwners(os: seq<Order>, ref: int, bps: nat, o: Outcome)
    requires Clears(os, ref, bps, o) && o.Cleared?
    ensures Allocation.DistinctTraders(o.fills)
    ensures forall t :: t in Allocation.Traders(o.fills) ==> exists x :: x in os && x.trader == t
    ensures Sum(o.fills, Allocation.Base()) == 0
    ensures WithinBand(o.price, ref, bps)
  {
    var buys, sells :| Allocates(os, o.price, o.matched, o.fills, o.unmatched, buys, sells);
    Allocation.FillsAggregate(os, o.price, o.matched, o.fills, o.unmatched, buys, sells);
    Allocation.BaseConserved(os, o.price, o.fills, o.unmatched, buys, sells);
    forall t | t in Allocation.Traders(o.fills)
      ensures exists x :: x in os && x.trader == t
    {
      var buy := Allocation.Trading(buys, Takes(buys, o.matched), t);
      var side: seq<Order> := if buy then buys else sells;
      var k :| 0 <= k < |side| && side[k].trader == t && Takes(side, o.matched)[k] > 0;
      AuctionTheorems.InSideIffWilling(side, os, o.price, buy, side[k]);
    }
  }

  lemma VouchedNamesSubmitters(submitted: set<SubmitRequest>, requested: set<RunRequest>, payload: Payload,
                               req: RunRequest, orders: seq<Order>, o: Outcome)
    requires VouchedBy(submitted, requested, payload, req, orders, o)
    ensures Allocation.Traders(o.fills) <= SubmittersOf(submitted, req.batchId)
    ensures |o.fills| <= |submitted|
  {
    FillsNameOwners(orders, req.refPrice, req.maxDeviationBps, o);
    forall t | t in Allocation.Traders(o.fills)
      ensures t in SubmittersOf(submitted, req.batchId)
    {
      var x :| x in orders && x.trader == t;
      assert Submitted(submitted, req.batchId, x);
    }
    OneFillPerTrader(o.fills);
    SubsetSize(Allocation.Traders(o.fills), SubmittersOf(submitted, req.batchId));
    FewTraders(submitted, req.batchId);
  }

  lemma {:induction false} WrapKeepsTraders(fills: seq<Fill>)
    ensures Allocation.Traders(WrapFills(fills)) == Allocation.Traders(fills)
  {
    if fills != [] {
      WrapKeepsTraders(fills[1..]);
    }
  }

  // What a vouched payload decodes to: the settlement Clear computed, each
  // number reduced to its word, and unchanged when it fits.
  lemma VouchedDecodes(w: World, payload: Payload, req: RunRequest, orders: seq<Order>, o: Outcome)
    requires OrdersDistinct(w)
    requires VouchedBy(w.submitted, w.requested, payload, req, orders, o)
    ensures Decode(payload) == Some(Wrapped(Enclave.SettlementOf(req, o)))
    ensures Decode(payload) == Some(Enclave.SettlementOf(req, o)) <==> InRange(Enclave.SettlementOf(req, o))
    ensures Overflow.FitsWords(orders) ==> InRange(Enclave.SettlementOf(req, o))
    ensures Allocation.Traders(Decode(payload).value.fills) <= SubmittersOf(w.submitted, BatchOf(payload))
  {
    VouchedNamesSubmitters(w.submitted, w.requested, payload, req, orders, o);
    FewRequests(w.submitted, VenueOf(w).nextOrderId);
    DecodeEncoded(Enclave.SettlementOf(req, o));
    RoundTripExactly(Enclave.SettlementOf(req, o));
    if Overflow.FitsWords(orders) {
      Overflow.ClearedInRange(orders, req, o);
    }
    WrapKeepsTraders(o.fills);
  }

  // Every settlement executed in a trusted run is one an honest enclave signed at
  // step k, computed with Clear from the orders the run had delivered to it for that
  // batch, for a request the venue sent at step m: its base nets to zero, its price is
  // within the tolerance then set of the price then read, and it names only that
  // batch's submitters. The venue read it as computed when the orders fit words.
  lemma QuorumSafety(ws: seq<World>, acts: seq<Action>, i: nat, payload: Payload)
      returns (m: nat, k: nat, req: RunRequest, orders: seq<Order>, o: Outcome)
    requires TrustedRun(ws, acts) && i < |ws| && payload in ws[i].executed
    ensures m < k < i && Provenance.AsksAt(ws, acts, m, req)
    ensures acts[k].DeliversRun? && acts[k].run == req
    ensures acts[k].enclave in ws[k].enclaves && acts[k].result == Enclave.Signed(payload)
    ensures orders == Enclave.Accepted(Agreement.Delivered(acts[..k], acts[k].enclave, req.batchId), req.batchId)
    ensures Clears(orders, req.refPrice, req.maxDeviationBps, o) && o.Cleared?
    ensures VouchedBy(ws[i].submitted, ws[i].requested, payload, req, orders, o)
    ensures req.chainId == VenueOf(ws[i]).chainId && req.venue == VenueOf(ws[i]).self
    ensures Decode(payload) == Some(Wrapped(Enclave.SettlementOf(req, o)))
    ensures Decode(payload) == Some(Enclave.SettlementOf(req, o)) <==> InRange(Enclave.SettlementOf(req, o))
    ensures Overflow.FitsWords(orders) ==>
      var s := Settlement(req.chainId, req.venue, req.batchId, o.price, o.matched, o.fills);
      Decode(payload) == Some(s)
    ensures req.refPrice == 0 || Abs(o.price - req.refPrice) * 10000 <= req.refPrice * req.maxDeviationBps
    ensures Sum(o.fills, Allocation.Base()) == 0
    ensures Allocation.Traders(o.fills) <= SubmittersOf(ws[i].submitted, req.batchId)
  {
    k, o := Provenance.SettlementSource(ws, acts, i, payload);
    req, orders := acts[k].run, Provenance.BookAt(acts, k);
    m := Provenance.RequestedAt(ws, acts, k, req);
    RunBasics(ws, acts, i);
    VouchedDecodes(ws[i], payload, req, orders, o);
    VouchedNamesSubmitters(ws[i].submitted, ws[i].requested, payload, req, orders, o);
    FillsNameOwners(orders, req.refPrice, req.maxDeviationBps, o);
  }

  // --- Limits ----------------------------------------------------------------

  // With distinct traders each is paid its entry, less the fee; only the recipient
  // of fees may get more.
  lemma EntryMoves(v: VenueState, payload: Payload, signers: seq<Address>, feed: Feed, now: nat, x: Fill)
    requires Settle(v, payload, signers, feed, now).Done?
    requires Allocation.DistinctTraders(Executed(v, payload, signers, feed, now).fills)
    requires x in Executed(v, payload, signers, feed, now).fills
    ensures var v', t := Settle(v, payload, signers, feed, now).value, x.trader;
      && At(v'.baseBalance, t) == At(v.baseBalance, t) + x.base
      && At(v'.quoteBalance, t) >= At(v.quoteBalance, t) + x.quote - Fee(v.feeBps)(x)
      && (t != v.feeRecipient ==>
            At(v'.quoteBalance, t) == At(v.quoteBalance, t) + x.quote - Fee(v.feeBps)(x))
  {
    var fills := Executed(v, payload, signers, feed, now).fills;
    SettlePerTrader(v, payload, signers, feed, now, x.trader);
    Allocation.EntryIsPosition(fills, x, Allocation.Base());
    Allocation.EntryIsPosition(fills, x, NetQuote(v.feeBps));
    FeesNonNegative(fills, v.feeBps);
  }

  lemma FeesNonNegative(fills: seq<Fill>, feeBps: nat)
    ensures 0 <= Sum(fills, Fee(feeBps))
  {
    SumNonNegative(fills, Fee(feeBps));
  }

  // A settlement that decodes as computed moves a trader's balances by its entry,
  // less the fee, and so within its limits.
  lemma EntryPaid(v: VenueState, payload: Payload, signers: seq<Address>, feed: Feed, now: nat,
                  os: seq<Order>, o: Outcome, buys: seq<Order>, sells: seq<Order>, x: Fill)
    requires Settle(v, payload, signers, feed, now).Done? && o.Cleared? && o.matched >= 0
    requires Allocates(os, o.price, o.matched, o.fills, o.unmatched, buys, sells)
    requires Executed(v, payload, signers, feed, now).fills == o.fills && x in o.fills
    ensures var v', t := Settle(v, payload, signers, feed, now).value, x.trader;
      && At(v'.baseBalance, t) == At(v.baseBalance, t)
           + Allocation.NetOf(buys, sells, o.matched, o.price, Masked(Allocation.OfTrader(t), Allocation.Base()))
      && At(v'.quoteBalance, t) >= At(v.quoteBalance, t)
           + Allocation.LimitsOf(buys, sells, o.matched, t) - Fee(v.feeBps)(x)
  {
    Allocation.FillsAggregate(os, o.price, o.matched, o.fills, o.unmatched, buys, sells);
    Allocation.EntryWithinLimits(os, o.price, o.matched, o.fills, o.unmatched, buys, sells, x);
    EntryMoves(v, payload, signers, feed, now, x);
  }

  // When a settlement executes, each trader it names gets the net base of its own
  // delivered orders and pays no more quote, and earns no less, than their limits
  // allow, but for the fee.
  lemma LimitsHonoured(ws: seq<World>, acts: seq<Action>, j: nat, x: Fill)
      returns (k: nat, o: Outcome, buys: seq<Order>, sells: seq<Order>)
    requires TrustedRun(ws, acts) && j < |acts| && Executes(ws[j], acts[j])
    requires Decode(acts[j].call.payload).Some? && x in Decode(acts[j].call.payload).value.fills
    ensures k < j && Provenance.SignsAt(acts, k, acts[j].call.payload)
    ensures o.Cleared? && o.matched >= 0 && acts[j].call.payload == Encode(Enclave.SettlementOf(acts[k].run, o))
    ensures Clears(Provenance.BookAt(acts, k), acts[k].run.refPrice, acts[k].run.maxDeviationBps, o)
    ensures Allocates(Provenance.BookAt(acts, k), o.price, o.matched, o.fills, o.unmatched, buys, sells)
    ensures Overflow.FitsWords(Provenance.BookAt(acts, k)) ==>
      var v, v', t := VenueOf(ws[j]), VenueOf(ws[j + 1]), x.trader;
      && At(v'.baseBalance, t) == At(v.baseBalance, t)
           + Allocation.NetOf(buys, sells, o.matched, o.price, Masked(Allocation.OfTrader(t), Allocation.Base()))
      && At(v'.quoteBalance, t) >= At(v.quoteBalance, t)
           + Allocation.LimitsOf(buys, sells, o.matched, t) - Fee(v.feeBps)(x)
  {
    var call, w := acts[j].call, ws[j];
    k := Provenance.ExecutedSigned(ws, acts, j);
    o := Provenance.SignedClears(ws, acts, k, call.payload);
    Provenance.InstructionsGrow(ws, acts, k, j);
    Provenance.StillVouched(ws[k], w, call.payload, acts[k].run, Provenance.BookAt(acts, k), o);
    buys, sells :| Allocates(Provenance.BookAt(acts, k), o.price, o.matched, o.fills, o.unmatched, buys, sells);
    AuctionTheorems.DepthNonNegative(Provenance.BookAt(acts, k), o.price, true);
    AuctionTheorems.DepthNonNegative(Provenance.BookAt(acts, k), o.price, false);
    if Overflow.FitsWords(Provenance.BookAt(acts, k)) {
      RunBasics(ws, acts, j);
      VouchedDecodes(w, call.payload, acts[k].run, Provenance.BookAt(acts, k), o);
      EntryPaid(VenueOf(w), call.payload, call.signers, call.feed, call.now, Provenance.BookAt(acts, k), o,
                buys, sells, x);
      assert StepAt(ws, acts, j);
      SettleCalled(w, acts[j].sender, call.payload, call.signers, call.feed, call.now);
    }
  }

  lemma SettleSparesOthers(w: World, payload: Payload, signers: seq<Address>, feed: Feed, now: nat, t: Address)
    requires OrdersDistinct(w) && Vouched(w.submitted, w.requested, payload)
    requires Settle(VenueOf(w), payload, signers, feed, now).Done?
    requires t !in SubmittersOf(w.submitted, BatchOf(payload)) && t != VenueOf(w).feeRecipient
    ensures var v, v' := VenueOf(w), Settle(VenueOf(w), payload, signers, feed, now).value;
      At(v'.baseBalance, t) == At(v.baseBalance, t) && At(v'.quoteBalance, t) == At(v.quoteBalance, t)
  {
    var req, orders, o :| VouchedBy(w.submitted, w.requested, payload, req, orders, o);
    VouchedDecodes(w, payload, req, orders, o);
    SettleTouchesOnlyNamed(VenueOf(w), payload, signers, feed, now, t);
  }

  // A settlement changes the balances of that batch's submitters and of the fee
  // recipient, and of nobody else.
  lemma OnlySubmittersMove(ws: seq<World>, acts: seq<Action>, i: nat, t: Address)
    requires TrustedRun(ws, acts) && i < |acts| && Settles(acts[i])
    requires t !in SubmittersOf(ws[i].submitted, BatchOf(acts[i].call.payload)) && t != VenueOf(ws[i]).feeRecipient
    ensures var v, v' := VenueOf(ws[i]), VenueOf(ws[i + 1]);
      At(v'.baseBalance, t) == At(v.baseBalance, t) && At(v'.quoteBalance, t) == At(v.quoteBalance, t)
  {
    RunProtocol(ws, acts, i);
    assert StepAt(ws, acts, i) && TrustedAt(ws, acts, i);
    var w, sender, call := ws[i], acts[i].sender, acts[i].call;
    if Settle(VenueOf(w), call.payload, call.signers, call.feed, call.now).Done? {
      SettleCalled(w, sender, call.payload, call.signers, call.feed, call.now);
      SettlesCurrent(w, call.payload, call.signers, call.feed, call.now);
      SettleSparesOthers(w, call.payload, call.signers, call.feed, call.now, t);
    }
  }

  // --- Money -----------------------------------------------------------------

  // In every run, whoever is faulty, the venue is solvent, and an unlocked trader's
  // withdrawal of anything up to its balances succeeds.
  lemma AlwaysSolvent(ws: seq<World>, acts: seq<Action>, i: nat, t: Address, base: Uint256, quote: Uint256)
    requires Run(ws, acts) && i < |ws|
    ensures Solvent(ws[i].chain.ledger)
    ensures Chain.Outside(ws[i].chain, t) ==>
      (Chain.Apply(ws[i].chain, t, Chain.Withdrawing(base, quote)).Done? <==>
         && !Locked(VenueOf(ws[i]), t)
         && base <= At(VenueOf(ws[i]).baseBalance, t) && quote <= At(VenueOf(ws[i]).quoteBalance, t))
  {
    RunBasics(ws, acts, i);
    if Chain.Outside(ws[i].chain, t) {
      Chain.CanAlwaysWithdraw(ws[i].chain, t, base, quote);
    }
  }

  // What a settlement cannot do in any run, even with every signer faulty: make or
  // lose base or quote, or execute outside the band of the oracle reading.
  lemma FaultyQuorumBounded(ws: seq<World>, acts: seq<Action>, i: nat)
    requires Run(ws, acts) && i < |acts| && Settles(acts[i])
    ensures var v, v' := VenueOf(ws[i]), VenueOf(ws[i + 1]);
      Total(v'.baseBalance) == Total(v.baseBalance) && Total(v'.quoteBalance) == Total(v.quoteBalance)
    ensures var call := acts[i].call;
      ws[i + 1].executed != ws[i].executed ==>
        && Decode(call.payload).Some? && ReferencePrice(call.feed, call.now).Done?
        && WithinBand(Decode(call.payload).value.price, ReferencePrice(call.feed, call.now).value,
                      VenueOf(ws[i]).maxDeviationBps)
  {
    assert StepAt(ws, acts, i);
    var w, sender, call := ws[i], acts[i].sender, acts[i].call;
    if Settle(VenueOf(w), call.payload, call.signers, call.feed, call.now).Done? {
      SettleCalled(w, sender, call.payload, call.signers, call.feed, call.now);
      SettleConserves(VenueOf(w), call.payload, call.signers, call.feed, call.now);
      SettleInBand(VenueOf(w), call.payload, call.signers, call.feed, call.now);
    } else {
      RevertedCall(w, sender, call);
    }
  }

  // In every run, whoever is faulty, the registry has no duplicates and the threshold
  // can be met, and the gateway's total is the sum over the payments it honoured.
  lemma AlwaysAccounted(ws: seq<World>, acts: seq<Action>, i: nat)
    requires Run(ws, acts) && i < |ws|
    ensures Chain.RegistryOk(VenueOf(ws[i]))
    ensures ws[i].chain.credits.Keys == ws[i].chain.gateway.claimed
    ensures ws[i].chain.gateway.totalDropsCredited == Total(Chain.Drops(ws[i].chain.credits))
  {
    RunBasics(ws, acts, i);
  }

  // The threshold is at most the number of signers exactly once there is a signer.
  lemma ThresholdWithinSigners(ws: seq<World>, acts: seq<Action>, i: nat)
    requires Run(ws, acts) && i < |ws|
    ensures VenueOf(ws[i]).signatureThreshold <= |VenueOf(ws[i]).teeSigners| <==> VenueOf(ws[i]).teeSigners != []
  {
    RunBasics(ws, acts, i);
  }

  lemma RunClaimed(ws: seq<World>, acts: seq<Action>, i: nat)
    requires Run(ws, acts) && i < |ws|
    ensures ws[i].chain.credits.Keys == ws[i].chain.gateway.claimed
  {
    AlwaysAccounted(ws, acts, i);
  }

  lemma StepKeepsCredit(ws: seq<World>, acts: seq<Action>, i: nat, id: Gateway.Bytes32)
    requires i < |acts| < |ws| && StepAt(ws, acts, i) && id in ws[i].chain.credits
    requires ws[i].chain.credits.Keys == ws[i].chain.gateway.claimed
    ensures id in ws[i + 1].chain.credits && ws[i + 1].chain.credits[id] == ws[i].chain.credits[id]
  {
    CreditsStay(ws[i], acts[i], ws[i + 1], id);
  }

  // A payment once honoured stays on record.
  lemma {:induction false} HonouredStays(ws: seq<World>, acts: seq<Action>, i: nat, j: nat, id: Gateway.Bytes32)
    requires Run(ws, acts) && i <= j < |ws| && id in ws[i].chain.credits
    ensures id in ws[j].chain.credits && ws[j].chain.credits[id] == ws[i].chain.credits[id]
    decreases j
  {
    if i < j {
      HonouredStays(ws, acts, i, j - 1, id);
      RunClaimed(ws, acts, j - 1);
      assert StepAt(ws, acts, j - 1);
      StepKeepsCredit(ws, acts, j - 1, id);
    }
  }

  // So it is never honoured again, whatever proof and price are presented.
  lemma HonouredOnce(ws: seq<World>, acts: seq<Action>, i: nat, j: nat, p: Gateway.Payment, feed: Feed)
    requires Run(ws, acts) && i <= j < |ws| && p.transactionId in ws[i].chain.credits
    ensures Gateway.Fund(ws[j].chain.gateway, ws[j].chain.ledger, p, feed).Revert?
  {
    HonouredStays(ws, acts, i, j, p.transactionId);
    RunClaimed(ws, acts, j);
  }

  lemma CreditsStay(w: World, a: Action, w': World, id: Gateway.Bytes32)
    requires w.chain.credits.Keys == w.chain.gateway.claimed && Next(w, a, w') && id in w.chain.credits
    ensures id in w'.chain.credits && w'.chain.credits[id] == w.chain.credits[id]
  {
    if a.Calls? {
      CalledFrame(w, a.sender, a.call);
    }
  }
}
