// The venue's own record of its batches: one entry per settled batch, holding
// what was executed and how many orders came in, with fees that add up to the
// fees collected.
module History {
  import opened Types
  import opened Sums
  import opened Codec
  import opened Venue
  import opened VenueTheorems
  import opened System
  import Allocation
  import Chain

  function FeesOf(batches: map<Uint64, BatchResult>): map<Uint64, nat> {
    map b | b in batches :: batches[b].feeCharged
  }

  // p moves no base or quote in or out, and its batch's entry holds its price and volume.
  ghost predicate Records(v: VenueState, p: Payload) {
    && Decode(p).Some? && BatchOf(p) in v.batches
    && Sum(Decode(p).value.fills, Allocation.Base()) == 0 && Sum(Decode(p).value.fills, Allocation.Quote()) == 0
    && v.batches[BatchOf(p)].clearingPrice == Decode(p).value.price
    && v.batches[BatchOf(p)].matchedBase == Decode(p).value.matched
  }

  // The record has exactly the settled batches.
  predicate Keyed(v: VenueState) {
    v.batches.Keys == v.batchSettled
  }

  ghost predicate Recorded(w: World) {
    && Keyed(VenueOf(w))
    && Total(FeesOf(VenueOf(w).batches)) == VenueOf(w).feesCollected
    && forall p :: p in w.executed ==> Records(VenueOf(w), p)
  }

  lemma NewEntry(batches: map<Uint64, BatchResult>, b: Uint64, r: BatchResult)
    requires b !in batches
    ensures Total(FeesOf(batches[b := r])) == Total(FeesOf(batches)) + r.feeCharged
  {
    assert FeesOf(batches[b := r]) == FeesOf(batches)[b := r.feeCharged];
    TotalSet(FeesOf(batches), b, r.feeCharged);
  }

  // Two venue states with the same record.
  predicate SameHistory(v: VenueState, v': VenueState) {
    v'.batches == v.batches && v'.feesCollected == v.feesCollected && v'.batchSettled == v.batchSettled
  }

  lemma VenueCallKeepsHistory(v: VenueState, sender: Address, call: Chain.Call)
    requires !call.Settling? && !call.Cancelling? && Chain.VenueCall(v, sender, call).Done?
    ensures SameHistory(v, Chain.VenueCall(v, sender, call).value)
    ensures !call.Submitting? ==> Chain.VenueCall(v, sender, call).value.batchOrderCount == v.batchOrderCount
  {
  }

  lemma OtherCallsKeepHistory(c: Chain.ChainState, sender: Address, call: Chain.Call)
    requires !call.Settling? && !call.Cancelling?
    ensures var v, v' := c.ledger.venue, Chain.After(c, sender, call).ledger.venue;
      SameHistory(v, v') && (!call.Submitting? ==> v'.batchOrderCount == v.batchOrderCount)
  {
    if Chain.VenueCall(c.ledger.venue, sender, call).Done? {
      VenueCallKeepsHistory(c.ledger.venue, sender, call);
    }
  }

  // What a settlement adds to the record.
  lemma SettleRecords(v: VenueState, payload: Payload, signers: seq<Address>, feed: Feed, now: nat)
      returns (r: BatchResult)
    requires Settle(v, payload, signers, feed, now).Done?
    ensures var s, v' := Executed(v, payload, signers, feed, now), Settle(v, payload, signers, feed, now).value;
      && v'.batches == v.batches[s.batchId := r] && v'.feesCollected == v.feesCollected + r.feeCharged
      && r.clearingPrice == s.price && r.matchedBase == s.matched
      && v'.batchSettled == v.batchSettled + {s.batchId}
  {
    SettleChecks(v, payload, signers, feed, now);
    var s := Executed(v, payload, signers, feed, now);
    r := Settle(v, payload, signers, feed, now).value.batches[s.batchId];
  }

  lemma SettleKeepsRecord(w: World, sender: Address, payload: Payload, signers: seq<Address>, feed: Feed, now: nat)
    requires Recorded(w) && Settle(VenueOf(w), payload, signers, feed, now).Done?
    ensures Recorded(Called(w, sender, Chain.Settling(payload, signers, feed, now)))
  {
    var w' := Called(w, sender, Chain.Settling(payload, signers, feed, now));
    SettleCalled(w, sender, payload, signers, feed, now);
    SettleChecks(VenueOf(w), payload, signers, feed, now);
    var r := SettleRecords(VenueOf(w), payload, signers, feed, now);
    NewEntry(VenueOf(w).batches, BatchOf(payload), r);
    forall p | p in w'.executed
      ensures Records(VenueOf(w'), p)
    {
      if p in w.executed {
        assert Records(VenueOf(w), p);
      }
    }
  }

  lemma CancelKeepsRecord(w: World, sender: Address, now: Uint256)
    requires Recorded(w) && Sequenced(VenueOf(w)) && CancelBatch(VenueOf(w), sender, now).Done?
    ensures Recorded(Called(w, sender, Chain.Cancelling(now)))
  {
    var v := VenueOf(w);
    var v' := VenueOf(Called(w, sender, Chain.Cancelling(now)));
    NewEntry(v.batches, v.currentBatchId, v'.batches[v.currentBatchId]);
    forall p | p in w.executed
      ensures Records(v', p)
    {
      assert Records(v, p);
    }
  }

  lemma CallKeepsRecord(w: World, sender: Address, call: Chain.Call)
    requires Recorded(w) && Sequenced(VenueOf(w))
    ensures Recorded(Called(w, sender, call))
  {
    CalledFrame(w, sender, call);
    if !call.Settling? && !call.Cancelling? {
      OtherCallsKeepHistory(w.chain, sender, call);
      forall p | p in w.executed
        ensures Records(VenueOf(Called(w, sender, call)), p)
      {
        assert Records(VenueOf(w), p);
      }
    } else if Chain.Apply(w.chain, sender, call).Revert? {
      RevertedCall(w, sender, call);
    } else if call.Settling? {
      SettleKeepsRecord(w, sender, call.payload, call.signers, call.feed, call.now);
    } else {
      CancelKeepsRecord(w, sender, call.now);
    }
  }

  lemma StepKeepsRecord(ws: seq<World>, acts: seq<Action>, i: nat)
    requires i < |acts| < |ws| && StepAt(ws, acts, i) && Recorded(ws[i]) && Sequenced(VenueOf(ws[i]))
    ensures Recorded(ws[i + 1])
  {
    if acts[i].Calls? {
      CallKeepsRecord(ws[i], acts[i].sender, acts[i].call);
    } else {
      SameChainKeepsRecord(ws[i], ws[i + 1]);
    }
  }

  lemma SameChainKeepsRecord(w: World, w': World)
    requires Recorded(w) && w'.chain == w.chain && w'.executed == w.executed
    ensures Recorded(w')
  {
  }

  lemma RunSequenced(ws: seq<World>, acts: seq<Action>, i: nat)
    requires TrustedRun(ws, acts) && i < |ws|
    ensures Sequenced(VenueOf(ws[i]))
  {
    RunProtocol(ws, acts, i);
  }

  lemma InitRecorded(w: World)
    requires Init(w)
    ensures Recorded(w)
  {
  }

  // In every reachable state the record has exactly the settled batches, each
  // executed settlement is found under its batch, and the fees add up.
  lemma {:induction false} AlwaysRecorded(ws: seq<World>, acts: seq<Action>, i: nat)
    requires TrustedRun(ws, acts) && i < |ws|
    ensures Recorded(ws[i])
  {
    if i == 0 {
      InitRecorded(ws[0]);
    } else {
      AlwaysRecorded(ws, acts, i - 1);
      RunSequenced(ws, acts, i - 1);
      assert StepAt(ws, acts, i - 1);
      StepKeepsRecord(ws, acts, i - 1);
    }
  }

  // --- Order counts and requests ---------------------------------------------

  // The orders submitted to a batch.
  function OrdersIn(submitted: set<SubmitRequest>, b: Uint64): set<SubmitRequest> {
    set req | req in submitted && req.batchId == b
  }

  // The venue counts the orders of every batch.
  ghost predicate Counted(w: World) {
    forall b: Uint64 :: OrderCount(VenueOf(w), b) == |OrdersIn(w.submitted, b)|
  }

  // A request to run is for a batch with an order in it, at a price the oracle gave.
  ghost predicate Grounded(submitted: set<SubmitRequest>, run: RunRequest) {
    && OrdersIn(submitted, run.batchId) != {}
    && exists feed, now :: ReferencePrice(feed, now) == Done(run.refPrice)
  }

  ghost predicate AllGrounded(w: World) {
    forall r :: r in w.requested ==> Grounded(w.submitted, r)
  }

  lemma OneMore(submitted: set<SubmitRequest>, req: SubmitRequest, b: Uint64)
    requires req !in submitted
    ensures |OrdersIn(submitted + {req}, b)| == |OrdersIn(submitted, b)| + if b == req.batchId then 1 else 0
  {
    if b == req.batchId {
      assert OrdersIn(submitted + {req}, b) == OrdersIn(submitted, b) + {req};
    } else {
      assert OrdersIn(submitted + {req}, b) == OrdersIn(submitted, b);
    }
  }

  lemma SubmitKeepsCount(w: World, sender: Address, ciphertext: Ciphertext, sent: bool)
    requires Counted(w) && OrdersDistinct(w)
    requires SubmitOrder(VenueOf(w), sender, ciphertext, sent).Done?
    ensures Counted(Called(w, sender, Chain.Submitting(ciphertext, sent)))
  {
    var (v', req) := SubmitOrder(VenueOf(w), sender, ciphertext, sent).value;
    forall b: Uint64
      ensures OrderCount(v', b) == |OrdersIn(w.submitted + {req}, b)|
    {
      OneMore(w.submitted, req, b);
    }
  }

  // No call but a submission changes a count.
  lemma OtherCallsKeepCount(c: Chain.ChainState, sender: Address, call: Chain.Call)
    requires !call.Submitting?
    ensures Chain.After(c, sender, call).ledger.venue.batchOrderCount == c.ledger.venue.batchOrderCount
  {
    if call.Settling? && Settle(c.ledger.venue, call.payload, call.signers, call.feed, call.now).Done? {
      SettleChecks(c.ledger.venue, call.payload, call.signers, call.feed, call.now);
    } else if !call.Cancelling? && !call.Settling? {
      OtherCallsKeepHistory(c, sender, call);
    }
  }

  lemma CallKeepsCount(w: World, sender: Address, call: Chain.Call)
    requires Counted(w) && OrdersDistinct(w)
    ensures Counted(Called(w, sender, call))
  {
    CalledFrame(w, sender, call);
    if !call.Submitting? {
      OtherCallsKeepCount(w.chain, sender, call);
    } else if Chain.Apply(w.chain, sender, call).Revert? {
      RevertedCall(w, sender, call);
    } else {
      SubmitKeepsCount(w, sender, call.ciphertext, call.sent);
    }
  }

  lemma CallKeepsGrounded(w: World, sender: Address, call: Chain.Call)
    requires Counted(w) && AllGrounded(w)
    ensures AllGrounded(Called(w, sender, call))
  {
    CalledFrame(w, sender, call);
    var w' := Called(w, sender, call);
    forall r | r in w'.requested
      ensures Grounded(w'.submitted, r)
    {
      if r in w.requested {
        var req :| req in OrdersIn(w.submitted, r.batchId);
        assert req in OrdersIn(w'.submitted, r.batchId);
      } else {
        assert RunBatch(VenueOf(w), call.feed, call.now, call.sent) == Done(r);
        assert OrderCount(VenueOf(w), r.batchId) == |OrdersIn(w.submitted, r.batchId)|;
      }
    }
  }

  lemma StepKeepsCount(ws: seq<World>, acts: seq<Action>, i: nat)
    requires i < |acts| < |ws| && StepAt(ws, acts, i)
    requires Counted(ws[i]) && AllGrounded(ws[i]) && OrdersDistinct(ws[i])
    ensures Counted(ws[i + 1]) && AllGrounded(ws[i + 1])
  {
    if acts[i].Calls? {
      CallKeepsCount(ws[i], acts[i].sender, acts[i].call);
      CallKeepsGrounded(ws[i], acts[i].sender, acts[i].call);
    } else {
      SameChainKeepsCount(ws[i], ws[i + 1]);
    }
  }

  lemma SameChainKeepsCount(w: World, w': World)
    requires Counted(w) && AllGrounded(w)
    requires w'.chain == w.chain && w'.submitted == w.submitted && w'.requested == w.requested
    ensures Counted(w') && AllGrounded(w')
  {
  }

  lemma RunDistinct(ws: seq<World>, acts: seq<Action>, i: nat)
    requires Run(ws, acts) && i < |ws|
    ensures OrdersDistinct(ws[i])
  {
    RunBasics(ws, acts, i);
  }

  lemma InitCounted(w: World)
    requires Init(w)
    ensures Counted(w) && AllGrounded(w)
  {
  }

  // In any run the venue's counters agree with the orders it took, and every
  // request it sent was for a batch with orders at an oracle price.
  lemma {:induction false} AlwaysCounted(ws: seq<World>, acts: seq<Action>, i: nat)
    requires Run(ws, acts) && i < |ws|
    ensures Counted(ws[i]) && AllGrounded(ws[i])
  {
    if i == 0 {
      InitCounted(ws[0]);
    } else {
      AlwaysCounted(ws, acts, i - 1);
      RunDistinct(ws, acts, i - 1);
      assert StepAt(ws, acts, i - 1);
      StepKeepsCount(ws, acts, i - 1);
    }
  }

  // --- Tallies ---------------------------------------------------------------

  // A settled batch takes no more orders: its entry still holds its count.
  predicate Tallied(v: VenueState) {
    forall b :: b in v.batches ==> v.batches[b].orderCount == OrderCount(v, b)
  }

  lemma SettleTallies(v: VenueState, payload: Payload, signers: seq<Address>, feed: Feed, now: nat)
    requires Tallied(v) && Settle(v, payload, signers, feed, now).Done?
    ensures Tallied(Settle(v, payload, signers, feed, now).value)
  {
    SettleChecks(v, payload, signers, feed, now);
  }

  lemma SubmitTallies(v: VenueState, sender: Address, ciphertext: Ciphertext, sent: bool)
    requires Tallied(v) && Keyed(v) && Sequenced(v) && SubmitOrder(v, sender, ciphertext, sent).Done?
    ensures Tallied(SubmitOrder(v, sender, ciphertext, sent).value.0)
  {
  }

  lemma CallTallies(c: Chain.ChainState, sender: Address, call: Chain.Call)
    requires Tallied(c.ledger.venue) && Keyed(c.ledger.venue) && Sequenced(c.ledger.venue)
    ensures Tallied(Chain.After(c, sender, call).ledger.venue)
  {
    var v := c.ledger.venue;
    if call.Submitting? && SubmitOrder(v, sender, call.ciphertext, call.sent).Done? {
      SubmitTallies(v, sender, call.ciphertext, call.sent);
    } else if call.Settling? && Settle(v, call.payload, call.signers, call.feed, call.now).Done? {
      SettleTallies(v, call.payload, call.signers, call.feed, call.now);
    } else if !call.Submitting? && !call.Settling? && !call.Cancelling? {
      OtherCallsKeepHistory(c, sender, call);
    }
  }

  lemma StepTallies(ws: seq<World>, acts: seq<Action>, i: nat)
    requires i < |acts| < |ws| && StepAt(ws, acts, i)
    requires Tallied(VenueOf(ws[i])) && Keyed(VenueOf(ws[i])) && Sequenced(VenueOf(ws[i]))
    ensures Tallied(VenueOf(ws[i + 1]))
  {
    if acts[i].Calls? {
      CalledFrame(ws[i], acts[i].sender, acts[i].call);
      CallTallies(ws[i].chain, acts[i].sender, acts[i].call);
    }
  }

  lemma RunKeyed(ws: seq<World>, acts: seq<Action>, i: nat)
    requires TrustedRun(ws, acts) && i < |ws|
    ensures Keyed(VenueOf(ws[i]))
  {
    AlwaysRecorded(ws, acts, i);
  }

  lemma {:induction false} RunTallied(ws: seq<World>, acts: seq<Action>, i: nat)
    requires TrustedRun(ws, acts) && i < |ws|
    ensures Tallied(VenueOf(ws[i]))
  {
    if i > 0 {
      RunTallied(ws, acts, i - 1);
      RunKeyed(ws, acts, i - 1);
      RunSequenced(ws, acts, i - 1);
      assert StepAt(ws, acts, i - 1);
      StepTallies(ws, acts, i - 1);
    }
  }

  // The entry of a settled batch counts the orders submitted to it.
  lemma AlwaysTallied(ws: seq<World>, acts: seq<Action>, i: nat, b: Uint64)
    requires TrustedRun(ws, acts) && i < |ws| && b in VenueOf(ws[i]).batches
    ensures VenueOf(ws[i]).batches[b].orderCount == |OrdersIn(ws[i].submitted, b)|
  {
    RunTallied(ws, acts, i);
    AlwaysCounted(ws, acts, i);
  }
}
