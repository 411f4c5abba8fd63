// The venue and its enclaves as one transition system. Honest enclaves are the
// keys of `enclaves`; any other address may sign anything. The transport may
// delay, reorder, repeat or drop instructions.
module System {
  import opened Types
  import opened Auction
  import opened Codec
  import opened Venue
  import opened VenueTheorems
  import Chain
  import Enclave

  datatype World = World(
    chain: Chain.ChainState,
    submitted: set<SubmitRequest>, requested: set<RunRequest>,
    enclaves: map<Address, Enclave.EnclaveState>, signed: set<(Address, Payload)>,
    executed: seq<Payload>)

  datatype Action =
    | Calls(sender: Address, call: Chain.Call)
    | DeliversOrder(enclave: Address, order: SubmitRequest)
    | DeliversRun(enclave: Address, run: RunRequest, signs: bool, after: Enclave.EnclaveState,
                  result: Enclave.RunResult)

  function VenueOf(w: World): VenueState {
    w.chain.ledger.venue
  }

  // --- Steps -----------------------------------------------------------------

  // Nobody can produce an honest enclave's signature but the enclave.
  ghost predicate Unforged(w: World, payload: Payload, signers: seq<Address>) {
    forall a :: a in signers && a in w.enclaves ==> (a, payload) in w.signed
  }

  // A call and the instructions it sends.
  function Called(w: World, sender: Address, call: Chain.Call): World {
    var v := VenueOf(w);
    var w' := w.(chain := Chain.After(w.chain, sender, call));
    match call
    case Submitting(ciphertext, sent) =>
      (match SubmitOrder(v, sender, ciphertext, sent)
       case Done((_, req)) => w'.(submitted := w.submitted + {req})
       case Revert(_) => w')
    case Running(feed, now, sent) =>
      (match RunBatch(v, feed, now, sent)
       case Done(req) => w'.(requested := w.requested + {req})
       case Revert(_) => w')
    case Settling(payload, signers, feed, now) =>
      if Settle(v, payload, signers, feed, now).Done? then w'.(executed := w.executed + [payload]) else w'
    case _ => w'
  }

  ghost predicate Next(w: World, a: Action, w': World) {
    match a
    case Calls(sender, call) =>
      && Chain.Outside(w.chain, sender)
      && (call.Settling? ==> Unforged(w, call.payload, call.signers))
      && w' == Called(w, sender, call)
    case DeliversOrder(e, req) =>
      && e in w.enclaves && req in w.submitted
      && w' == w.(enclaves := w.enclaves[e := Enclave.Accept(w.enclaves[e], req)])
    case DeliversRun(e, req, signs, after, result) =>
      && e in w.enclaves && req in w.requested
      && Enclave.RunStep(w.enclaves[e], req, signs, after, result)
      && w' == w.(enclaves := w.enclaves[e := after],
                  signed := if result.Signed? then w.signed + {(e, result.message)} else w.signed)
  }

  ghost predicate Init(w: World) {
    && Chain.Genesis(w.chain)
    && w.submitted == {} && w.requested == {} && w.signed == {} && w.executed == []
    && forall e :: e in w.enclaves ==> w.enclaves[e] == Enclave.FRESH
  }

  // Fewer registered signers than the threshold are anything but honest enclaves.
  ghost predicate Trusted(w: World) {
    |VenueOf(w).isTee - w.enclaves.Keys| < VenueOf(w).signatureThreshold
  }

  ghost predicate StepAt(ws: seq<World>, acts: seq<Action>, i: nat)
    requires i < |acts| < |ws|
  {
    Next(ws[i], acts[i], ws[i + 1])
  }

  // Any run at all, whoever is faulty.
  ghost predicate Run(ws: seq<World>, acts: seq<Action>) {
    && |ws| == |acts| + 1 && Init(ws[0])
    && forall i :: 0 <= i < |acts| ==> StepAt(ws, acts, i)
  }

  predicate Settles(a: Action) {
    a.Calls? && a.call.Settling?
  }

  // A call of settle that does not revert.
  predicate Executes(w: World, a: Action) {
    Settles(a) && Settle(VenueOf(w), a.call.payload, a.call.signers, a.call.feed, a.call.now).Done?
  }

  ghost predicate TrustedAt(ws: seq<World>, acts: seq<Action>, i: nat)
    requires i < |acts| < |ws|
  {
    Executes(ws[i], acts[i]) ==> Trusted(ws[i])
  }

  // A run in which the faulty signers are too few whenever a settlement executes.
  ghost predicate TrustedRun(ws: seq<World>, acts: seq<Action>) {
    Run(ws, acts) && forall i :: 0 <= i < |acts| ==> TrustedAt(ws, acts, i)
  }

  // --- What an honest enclave vouches for ------------------------------------

  ghost predicate Submitted(submitted: set<SubmitRequest>, batchId: Uint64, o: Order) {
    exists req :: req in submitted && req.batchId == batchId && Enclave.Open(req) == Some(o)
  }

  // payload is what Clear computed, for a request the venue sent, from orders
  // submitted to that batch.
  ghost predicate VouchedBy(submitted: set<SubmitRequest>, requested: set<RunRequest>, payload: Payload,
                            req: RunRequest, orders: seq<Order>, o: Outcome)
  {
    && req in requested
    && (forall x :: x in orders ==> Submitted(submitted, req.batchId, x))
    && Clears(orders, req.refPrice, req.maxDeviationBps, o) && o.Cleared?
    && payload == Encode(Enclave.SettlementOf(req, o))
  }

  ghost predicate Vouched(submitted: set<SubmitRequest>, requested: set<RunRequest>, payload: Payload) {
    exists req, orders, o :: VouchedBy(submitted, requested, payload, req, orders, o)
  }

  lemma VouchedGrows(s: set<SubmitRequest>, r: set<RunRequest>, s': set<SubmitRequest>, r': set<RunRequest>,
                     payload: Payload)
    requires Vouched(s, r, payload) && s <= s' && r <= r'
    ensures Vouched(s', r', payload)
  {
    var req, orders, o :| VouchedBy(s, r, payload, req, orders, o);
    assert VouchedBy(s', r', payload, req, orders, o);
  }

  // --- Invariants ------------------------------------------------------------

  // Exactly the batches before the current one are settled.
  ghost predicate Sequenced(v: VenueState) {
    && 1 <= v.currentBatchId
    && forall b :: b in v.batchSettled <==> 1 <= b < v.currentBatchId
  }

  // One slot per trader is enough: it names every unsettled batch it has orders in.
  ghost predicate LocksCover(w: World) {
    && (forall t :: Venue.LockOf(VenueOf(w), t) <= VenueOf(w).currentBatchId)
    && forall req :: req in w.submitted ==>
         && 1 <= req.batchId <= VenueOf(w).currentBatchId
         && (req.batchId !in VenueOf(w).batchSettled ==> Venue.LockOf(VenueOf(w), req.trader) == req.batchId)
  }

  // Submitted orders have distinct IDs the venue has already passed.
  ghost predicate OrdersDistinct(w: World) {
    && (forall x, y :: x in w.submitted && y in w.submitted && x.orderId == y.orderId ==> x == y)
    && forall x :: x in w.submitted ==> x.orderId < VenueOf(w).nextOrderId
  }

  ghost predicate RequestsOurs(w: World) {
    forall r :: r in w.requested ==> r.chainId == VenueOf(w).chainId && r.venue == VenueOf(w).self
  }

  ghost predicate RequestsOk(w: World) {
    forall r :: r in w.requested ==> 1 <= r.batchId <= VenueOf(w).currentBatchId
  }

  ghost predicate BookFrom(e: Enclave.EnclaveState, submitted: set<SubmitRequest>) {
    forall b, o :: o in Enclave.Resting(e.book, b) ==> Submitted(submitted, b, o)
  }

  ghost predicate BooksFrom(w: World) {
    forall e :: e in w.enclaves ==> BookFrom(w.enclaves[e], w.submitted)
  }

  ghost predicate SignedVouched(w: World) {
    forall s :: s in w.signed ==> Vouched(w.submitted, w.requested, s.1)
  }

  ghost predicate ExecutedVouched(w: World) {
    forall p :: p in w.executed ==> Vouched(w.submitted, w.requested, p)
  }

  function BatchOf(payload: Payload): Uint64 {
    if Decode(payload).Some? then Decode(payload).value.batchId else 0
  }

  // Executed batches only go up, so each is settled at most once.
  ghost predicate ExecutedOnce(w: World) {
    && (forall i :: 0 <= i < |w.executed| ==> BatchOf(w.executed[i]) < VenueOf(w).currentBatchId)
    && (forall i, j :: 0 <= i < j < |w.executed| ==> BatchOf(w.executed[i]) < BatchOf(w.executed[j]))
  }

  // What holds whoever is faulty.
  ghost predicate Basics(w: World) {
    Chain.Safe(w.chain) && OrdersDistinct(w) && RequestsOurs(w) && BooksFrom(w) && SignedVouched(w)
  }

  // What holds while no settlement is left to a faulty quorum.
  ghost predicate Protocol(w: World) {
    && Basics(w)
    && Sequenced(VenueOf(w)) && LocksCover(w) && RequestsOk(w)
    && ExecutedVouched(w) && ExecutedOnce(w)
  }

  lemma InitProtocol(w: World)
    requires Init(w)
    ensures Protocol(w)
  {
    Chain.GenesisSafe(w.chain);
  }

  // --- Calls -----------------------------------------------------------------

  // Only these three calls touch the batch sequence, the locks or the order IDs.
  predicate MovesBatches(call: Chain.Call) {
    call.Submitting? || call.Settling? || call.Cancelling?
  }

  // The parts of the venue that the batch protocol rests on.
  predicate SameBatches(v: VenueState, v': VenueState) {
    && v'.currentBatchId == v.currentBatchId && v'.batchSettled == v.batchSettled
    && v'.lockedInBatch == v.lockedInBatch && v'.nextOrderId == v.nextOrderId
    && v'.self == v.self && v'.chainId == v.chainId
  }

  lemma OtherVenueCallsKeep(v: VenueState, sender: Address, call: Chain.Call)
    requires !MovesBatches(call) && Chain.VenueCall(v, sender, call).Done?
    ensures SameBatches(v, Chain.VenueCall(v, sender, call).value)
  {
  }

  lemma OtherCallsKeep(c: Chain.ChainState, sender: Address, call: Chain.Call)
    requires !MovesBatches(call)
    ensures SameBatches(c.ledger.venue, Chain.After(c, sender, call).ledger.venue)
  {
    if Chain.VenueCall(c.ledger.venue, sender, call).Done? {
      OtherVenueCallsKeep(c.ledger.venue, sender, call);
    }
  }

  // The payload an honest quorum signed names a batch the venue asked to run.
  // The enclave e is one of the signers, and signed it.
  lemma QuorumVouches(w: World, payload: Payload, signers: seq<Address>) returns (e: Address)
    requires Trusted(w) && SignedVouched(w) && Unforged(w, payload, signers)
    requires VerifyQuorum(VenueOf(w), signers) == Pass
    ensures e in signers && e in w.enclaves && (e, payload) in w.signed
    ensures Vouched(w.submitted, w.requested, payload)
  {
    e := QuorumHasHonest(VenueOf(w), signers, w.enclaves.Keys);
    assert (e, payload) in w.signed;
  }

  // So a settlement that executes is always for the current batch.
  lemma SettlesCurrent(w: World, payload: Payload, signers: seq<Address>, feed: Feed, now: nat)
    requires Sequenced(VenueOf(w)) && RequestsOk(w) && SignedVouched(w) && Trusted(w) && Unforged(w, payload, signers)
    requires Settle(VenueOf(w), payload, signers, feed, now).Done?
    ensures Vouched(w.submitted, w.requested, payload)
    ensures BatchOf(payload) == VenueOf(w).currentBatchId
  {
    SettleChecks(VenueOf(w), payload, signers, feed, now);
    var _ := QuorumVouches(w, payload, signers);
    var req, orders, o :| VouchedBy(w.submitted, w.requested, payload, req, orders, o);
    DecodeEncoded(Enclave.SettlementOf(req, o));
  }

  // On its own, settle keeps the sequence exactly when the payload names the current batch.
  lemma SettleKeepsSequenceExactly(v: VenueState, payload: Payload, signers: seq<Address>, feed: Feed, now: nat)
    requires Sequenced(v) && Settle(v, payload, signers, feed, now).Done?
    ensures Sequenced(Settle(v, payload, signers, feed, now).value) <==> BatchOf(payload) == v.currentBatchId
  {
    SettleChecks(v, payload, signers, feed, now);
    SettleMovesOn(v, payload, signers, feed, now);
    var b, v' := BatchOf(payload), Settle(v, payload, signers, feed, now).value;
    assert b !in v.batchSettled && b in v'.batchSettled;
    assert b != v.currentBatchId ==> v.currentBatchId !in v'.batchSettled;
  }

  // Cancelling always keeps it.
  lemma CancelKeepsSequence(v: VenueState, sender: Address, now: nat)
    requires Sequenced(v) && CancelBatch(v, sender, now).Done?
    ensures Sequenced(CancelBatch(v, sender, now).value)
  {
  }

  lemma SubmitKeeps(w: World, sender: Address, ciphertext: Ciphertext, sent: bool)
    requires Sequenced(VenueOf(w)) && LocksCover(w) && RequestsOk(w) && ExecutedOnce(w)
    requires SubmitOrder(VenueOf(w), sender, ciphertext, sent).Done?
    ensures var w' := Called(w, sender, Chain.Submitting(ciphertext, sent));
      Sequenced(VenueOf(w')) && LocksCover(w') && RequestsOk(w') && ExecutedOnce(w')
  {
    var w' := Called(w, sender, Chain.Submitting(ciphertext, sent));
    var (v', req) := SubmitOrder(VenueOf(w), sender, ciphertext, sent).value;
    assert VenueOf(w') == v' && w'.submitted == w.submitted + {req};
    assert v'.batchSettled == VenueOf(w).batchSettled && v'.currentBatchId == VenueOf(w).currentBatchId;
    forall t
      ensures Venue.LockOf(v', t) == if t == sender then v'.currentBatchId else Venue.LockOf(VenueOf(w), t)
    {
    }
  }

  // Closing the current batch moves the sequence on by one.
  lemma CloseKeeps(w: World, w': World)
    requires Sequenced(VenueOf(w)) && LocksCover(w) && RequestsOk(w)
    requires VenueOf(w').batchSettled == VenueOf(w).batchSettled + {VenueOf(w).currentBatchId}
    requires VenueOf(w').currentBatchId == VenueOf(w).currentBatchId + 1
    requires VenueOf(w').lockedInBatch == VenueOf(w).lockedInBatch
    requires w'.submitted == w.submitted && w'.requested == w.requested
    ensures Sequenced(VenueOf(w')) && LocksCover(w') && RequestsOk(w')
  {
    SameLocks(VenueOf(w), VenueOf(w'));
  }

  lemma SameLocks(v: VenueState, v': VenueState)
    requires v.lockedInBatch == v'.lockedInBatch
    ensures forall t :: Venue.LockOf(v', t) == Venue.LockOf(v, t)
  {
  }

  lemma SettleCalled(w: World, sender: Address, payload: Payload, signers: seq<Address>, feed: Feed, now: nat)
    requires Settle(VenueOf(w), payload, signers, feed, now).Done?
    ensures var w' := Called(w, sender, Chain.Settling(payload, signers, feed, now));
      && VenueOf(w') == Settle(VenueOf(w), payload, signers, feed, now).value
      && w'.executed == w.executed + [payload]
      && w'.submitted == w.submitted && w'.requested == w.requested
  {
  }

  lemma SettleKeeps(w: World, sender: Address, payload: Payload, signers: seq<Address>, feed: Feed, now: nat)
    requires Sequenced(VenueOf(w)) && LocksCover(w) && RequestsOk(w) && SignedVouched(w) && ExecutedOnce(w)
    requires Trusted(w) && Unforged(w, payload, signers)
    requires Settle(VenueOf(w), payload, signers, feed, now).Done?
    ensures var w' := Called(w, sender, Chain.Settling(payload, signers, feed, now));
      && Sequenced(VenueOf(w')) && LocksCover(w') && RequestsOk(w') && ExecutedOnce(w')
      && w'.executed == w.executed + [payload] && w'.submitted == w.submitted && w'.requested == w.requested
      && Vouched(w.submitted, w.requested, payload)
  {
    var w' := Called(w, sender, Chain.Settling(payload, signers, feed, now));
    SettleCalled(w, sender, payload, signers, feed, now);
    SettlesCurrent(w, payload, signers, feed, now);
    SettleMovesOn(VenueOf(w), payload, signers, feed, now);
    CloseKeeps(w, w');
    ExecutedGrows(w, w', payload);
  }

  lemma SettleMovesOn(v: VenueState, payload: Payload, signers: seq<Address>, feed: Feed, now: nat)
    requires Settle(v, payload, signers, feed, now).Done?
    ensures var v' := Settle(v, payload, signers, feed, now).value;
      && v'.batchSettled == v.batchSettled + {BatchOf(payload)} && v'.currentBatchId == BatchOf(payload) + 1
      && v'.lockedInBatch == v.lockedInBatch && v'.nextOrderId == v.nextOrderId
      && v'.self == v.self && v'.chainId == v.chainId
  {
    SettleChecks(v, payload, signers, feed, now);
  }

  lemma ExecutedGrows(w: World, w': World, payload: Payload)
    requires ExecutedOnce(w) && w'.executed == w.executed + [payload]
    requires BatchOf(payload) == VenueOf(w).currentBatchId == VenueOf(w').currentBatchId - 1
    ensures ExecutedOnce(w')
  {
  }

  lemma CancelKeeps(w: World, sender: Address, now: Uint256)
    requires Sequenced(VenueOf(w)) && LocksCover(w) && RequestsOk(w) && ExecutedOnce(w)
    requires CancelBatch(VenueOf(w), sender, now).Done?
    ensures var w' := Called(w, sender, Chain.Cancelling(now));
      Sequenced(VenueOf(w')) && LocksCover(w') && RequestsOk(w') && ExecutedOnce(w')
  {
    CloseKeeps(w, Called(w, sender, Chain.Cancelling(now)));
  }

  lemma OthersKeep(w: World, sender: Address, call: Chain.Call)
    requires Sequenced(VenueOf(w)) && LocksCover(w) && RequestsOk(w) && ExecutedOnce(w) && !MovesBatches(call)
    ensures var w' := Called(w, sender, call);
      Sequenced(VenueOf(w')) && LocksCover(w') && RequestsOk(w') && ExecutedOnce(w')
  {
    var w' := Called(w, sender, call);
    OtherCallsKeep(w.chain, sender, call);
    SameLocks(VenueOf(w), VenueOf(w'));
  }

  // What a call leaves alone.
  lemma CalledFrame(w: World, sender: Address, call: Chain.Call)
    ensures var w' := Called(w, sender, call);
      && w'.chain == Chain.After(w.chain, sender, call)
      && w'.enclaves == w.enclaves && w'.signed == w.signed
      && w.submitted <= w'.submitted && w.requested <= w'.requested
      && (!call.Submitting? ==> w'.submitted == w.submitted)
      && (!call.Settling? ==> w'.executed == w.executed)
  {
  }

  // A reverted call changes nothing at all.
  lemma RevertedCall(w: World, sender: Address, call: Chain.Call)
    requires MovesBatches(call) && Chain.Apply(w.chain, sender, call).Revert?
    ensures Called(w, sender, call) == w
  {
  }

  // Settling or not, faulty or not, a call gives each order a fresh ID and each
  // request this venue's name.
  lemma CallKeepsOrders(w: World, sender: Address, call: Chain.Call)
    requires OrdersDistinct(w) && RequestsOurs(w)
    ensures OrdersDistinct(Called(w, sender, call)) && RequestsOurs(Called(w, sender, call))
  {
    CalledFrame(w, sender, call);
    if !MovesBatches(call) {
      OtherCallsKeep(w.chain, sender, call);
    } else if Chain.Apply(w.chain, sender, call).Revert? {
      RevertedCall(w, sender, call);
    } else if call.Settling? {
      SettleCalled(w, sender, call.payload, call.signers, call.feed, call.now);
      SettleMovesOn(VenueOf(w), call.payload, call.signers, call.feed, call.now);
    }
  }

  // What lets a settlement rely on its quorum.
  ghost predicate Backed(w: World, call: Chain.Call) {
    call.Settling? && Settle(VenueOf(w), call.payload, call.signers, call.feed, call.now).Done? ==>
      Trusted(w) && Unforged(w, call.payload, call.signers)
  }

  lemma CallKeepsSequence(w: World, sender: Address, call: Chain.Call)
    requires Protocol(w) && Backed(w, call)
    ensures var w' := Called(w, sender, call);
      Sequenced(VenueOf(w')) && LocksCover(w') && RequestsOk(w') && ExecutedOnce(w')
  {
    CalledFrame(w, sender, call);
    if !MovesBatches(call) {
      OthersKeep(w, sender, call);
    } else if Chain.Apply(w.chain, sender, call).Revert? {
      RevertedCall(w, sender, call);
    } else if call.Submitting? {
      SubmitKeeps(w, sender, call.ciphertext, call.sent);
    } else if call.Settling? {
      SettleKeeps(w, sender, call.payload, call.signers, call.feed, call.now);
    } else {
      CancelKeeps(w, sender, call.now);
    }
  }

  lemma CallKeepsExecuted(w: World, sender: Address, call: Chain.Call)
    requires Protocol(w) && Backed(w, call)
    ensures ExecutedVouched(Called(w, sender, call))
  {
    CalledFrame(w, sender, call);
    ExecutedKept(w, Called(w, sender, call));
    if call.Settling? {
      if Chain.Apply(w.chain, sender, call).Revert? {
        RevertedCall(w, sender, call);
      } else {
        SettleKeeps(w, sender, call.payload, call.signers, call.feed, call.now);
      }
    }
  }

  lemma CallKeepsBasics(w: World, sender: Address, call: Chain.Call)
    requires Basics(w) && Next(w, Calls(sender, call), Called(w, sender, call))
    ensures Basics(Called(w, sender, call))
  {
    CalledFrame(w, sender, call);
    Chain.CallSafe(w.chain, sender, call);
    EvidenceKept(w, Called(w, sender, call));
    CallKeepsOrders(w, sender, call);
  }

  // Books and signatures stay vouched for as more instructions are sent.
  lemma EvidenceKept(w: World, w': World)
    requires BooksFrom(w) && SignedVouched(w)
    requires w.submitted <= w'.submitted && w.requested <= w'.requested
    requires w'.enclaves == w.enclaves && w'.signed == w.signed
    ensures BooksFrom(w') && SignedVouched(w')
  {
    forall e, b, o | e in w.enclaves && o in Enclave.Resting(w.enclaves[e].book, b)
      ensures Submitted(w'.submitted, b, o)
    {
      assert BookFrom(w.enclaves[e], w.submitted);
    }
    forall s | s in w.signed
      ensures Vouched(w'.submitted, w'.requested, s.1)
    {
      VouchedGrows(w.submitted, w.requested, w'.submitted, w'.requested, s.1);
    }
  }

  lemma ExecutedKept(w: World, w': World)
    requires ExecutedVouched(w) && w.submitted <= w'.submitted && w.requested <= w'.requested
    ensures forall p :: p in w.executed ==> Vouched(w'.submitted, w'.requested, p)
  {
    forall p | p in w.executed
      ensures Vouched(w'.submitted, w'.requested, p)
    {
      VouchedGrows(w.submitted, w.requested, w'.submitted, w'.requested, p);
    }
  }

  // --- Deliveries ------------------------------------------------------------

  lemma AcceptKeepsBook(e: Enclave.EnclaveState, req: SubmitRequest, submitted: set<SubmitRequest>)
    requires BookFrom(e, submitted) && req in submitted
    ensures BookFrom(Enclave.Accept(e, req), submitted)
  {
    var e' := Enclave.Accept(e, req);
    forall b, o | o in Enclave.Resting(e'.book, b)
      ensures Submitted(submitted, b, o)
    {
      if o !in Enclave.Resting(e.book, b) {
        assert b == req.batchId && Enclave.Open(req) == Some(o);
      }
    }
  }

  lemma RunKeepsBook(e: Enclave.EnclaveState, req: RunRequest, signs: bool, e': Enclave.EnclaveState,
                     r: Enclave.RunResult, submitted: set<SubmitRequest>)
    requires BookFrom(e, submitted) && Enclave.RunStep(e, req, signs, e', r)
    ensures BookFrom(e', submitted)
  {
    assert forall b :: Enclave.Resting(e'.book, b) == Enclave.Resting(e.book, b) || Enclave.Resting(e'.book, b) == [];
  }

  lemma RunVouches(e: Enclave.EnclaveState, req: RunRequest, signs: bool, e': Enclave.EnclaveState,
                   r: Enclave.RunResult, submitted: set<SubmitRequest>, requested: set<RunRequest>)
    requires BookFrom(e, submitted) && req in requested && Enclave.RunStep(e, req, signs, e', r) && r.Signed?
    ensures Vouched(submitted, requested, r.message)
  {
    var orders := Enclave.Resting(e.book, req.batchId);
    var o :| Clears(orders, req.refPrice, req.maxDeviationBps, o) && Enclave.Finishes(e, req, o, signs, e', r);
    assert VouchedBy(submitted, requested, r.message, req, orders, o);
  }

  lemma OrderKeepsBooks(w: World, a: Action, w': World)
    requires BooksFrom(w) && a.DeliversOrder? && Next(w, a, w')
    ensures BooksFrom(w')
  {
    AcceptKeepsBook(w.enclaves[a.enclave], a.order, w.submitted);
  }

  lemma RunKeepsBooks(w: World, a: Action, w': World)
    requires BooksFrom(w) && a.DeliversRun? && Next(w, a, w')
    ensures BooksFrom(w')
  {
    RunKeepsBook(w.enclaves[a.enclave], a.run, a.signs, a.after, a.result, w.submitted);
  }

  lemma RunKeepsSigned(w: World, a: Action, w': World)
    requires BooksFrom(w) && SignedVouched(w) && a.DeliversRun? && Next(w, a, w')
    ensures SignedVouched(w')
  {
    if a.result.Signed? {
      RunVouches(w.enclaves[a.enclave], a.run, a.signs, a.after, a.result, w.submitted, w.requested);
    }
  }

  // A delivery leaves the chain and the instructions alone.
  lemma DeliveryFrame(w: World, a: Action, w': World)
    requires Next(w, a, w') && !a.Calls?
    ensures w'.chain == w.chain && w'.executed == w.executed
    ensures w'.submitted == w.submitted && w'.requested == w.requested
  {
  }

  // Every step keeps what does not depend on whom to trust.
  lemma StepKeepsBasics(w: World, a: Action, w': World)
    requires Basics(w) && Next(w, a, w')
    ensures Basics(w')
  {
    match a
    case Calls(sender, call) =>
      CallKeepsBasics(w, sender, call);
    case DeliversOrder(_, _) =>
      DeliveryFrame(w, a, w');
      OrderKeepsBooks(w, a, w');
    case DeliversRun(_, _, _, _, _) =>
      DeliveryFrame(w, a, w');
      RunKeepsBooks(w, a, w');
      RunKeepsSigned(w, a, w');
  }

  lemma SameChainKeeps(w: World, w': World)
    requires Protocol(w) && w'.chain == w.chain && w'.executed == w.executed
    requires w'.submitted == w.submitted && w'.requested == w.requested
    ensures Sequenced(VenueOf(w')) && LocksCover(w') && RequestsOk(w') && ExecutedVouched(w') && ExecutedOnce(w')
  {
  }

  // Every step keeps every invariant, if a settlement can rely on its quorum.
  lemma StepKeepsProtocol(w: World, a: Action, w': World)
    requires Protocol(w) && (Executes(w, a) ==> Trusted(w)) && Next(w, a, w')
    ensures Protocol(w')
  {
    StepKeepsBasics(w, a, w');
    if a.Calls? {
      CallKeepsSequence(w, a.sender, a.call);
      CallKeepsExecuted(w, a.sender, a.call);
    } else {
      DeliveryFrame(w, a, w');
      SameChainKeeps(w, w');
    }
  }

  lemma {:induction false} RunBasics(ws: seq<World>, acts: seq<Action>, i: nat)
    requires Run(ws, acts) && i < |ws|
    ensures Basics(ws[i])
  {
    if i == 0 {
      InitProtocol(ws[0]);
    } else {
      RunBasics(ws, acts, i - 1);
      assert StepAt(ws, acts, i - 1);
      StepKeepsBasics(ws[i - 1], acts[i - 1], ws[i]);
    }
  }

  lemma {:induction false} RunProtocol(ws: seq<World>, acts: seq<Action>, i: nat)
    requires TrustedRun(ws, acts) && i < |ws|
    ensures Protocol(ws[i])
  {
    if i == 0 {
      InitProtocol(ws[0]);
    } else {
      RunProtocol(ws, acts, i - 1);
      assert StepAt(ws, acts, i - 1) && TrustedAt(ws, acts, i - 1);
      StepKeepsProtocol(ws[i - 1], acts[i - 1], ws[i]);
    }
  }
}
