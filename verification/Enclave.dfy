// The enclave's side (go/internal/extension/extension.go): a book per batch,
// filled from opened orders and emptied by clearing.
module Enclave {
  import opened Types
  import opened Sums
  import opened Auction
  import opened Codec
  import opened Clearing
  import Allocation

  type Book = map<Uint64, seq<Order>>

  datatype EnclaveState = EnclaveState(
    book: Book, currentBatchId: Uint64, batchesSettled: nat, lastClearing: int, lastMatchedBase: int)

  const FRESH: EnclaveState := EnclaveState(map[], 0, 0, 0, 0)

  function Resting(book: Book, batchId: Uint64): seq<Order> {
    if batchId in book then book[batchId] else []
  }

  // What a plaintext must say to become an order, whose ID and owner are the chain's.
  function ParseSealedOrder(p: Plaintext, req: SubmitRequest): (r: Option<Order>)
    ensures r.Some? <==>
      && p.Terms? && p.trader == Some(req.trader) && (p.side == SIDE_BUY || p.side == SIDE_SELL)
      && p.limit.Some? && p.limit.value > 0 && p.size.Some? && p.size.value > 0
    ensures r.Some? ==> r.value == Order(req.orderId, req.trader, p.side, p.limit.value, p.size.value)
  {
    if p.Malformed? || p.trader.None? then None
    else if p.trader.value != req.trader then None
    else if p.side != SIDE_BUY && p.side != SIDE_SELL then None
    else if p.limit.None? || p.limit.value <= 0 then None
    else if p.size.None? || p.size.value <= 0 then None
    else Some(Order(req.orderId, req.trader, p.side, p.limit.value, p.size.value))
  }

  // Which submissions become orders: those whose ciphertext opens to terms of the
  // submitting trader, on side 0 or 1, with a positive limit and size.
  lemma OpensExactly(req: SubmitRequest)
    ensures Open(req).Some? <==>
      && req.ciphertext.Opens?
      && var p := req.ciphertext.plaintext;
      && p.Terms? && p.trader == Some(req.trader) && (p.side == 0 || p.side == 1)
      && p.limit.Some? && p.limit.value > 0 && p.size.Some? && p.size.value > 0
    ensures Open(req).Some? ==>
      var p := req.ciphertext.plaintext;
      Open(req).value == Order(req.orderId, req.trader, p.side, p.limit.value, p.size.value)
  {
  }

  function Open(req: SubmitRequest): Option<Order> {
    if req.ciphertext.Opens? then ParseSealedOrder(req.ciphertext.plaintext, req) else None
  }

  function Accept(e: EnclaveState, req: SubmitRequest): EnclaveState {
    match Open(req)
    case None => e
    case Some(order) =>
      e.(currentBatchId := if e.currentBatchId == 0 then req.batchId else e.currentBatchId,
         book := e.book[req.batchId := Resting(e.book, req.batchId) + [order]])
  }

  datatype RunResult = Empty | NotSettled | SignFailed | Signed(message: Payload)

  function After(batchId: Uint64): Uint64 {
    (batchId + 1) % U64
  }

  function Discard(e: EnclaveState, batchId: Uint64): EnclaveState {
    e.(book := e.book - {batchId}, currentBatchId := After(batchId))
  }

  // The settlement a request and its outcome stand for.
  function SettlementOf(req: RunRequest, o: Outcome): Settlement
    requires o.Cleared?
  {
    Settlement(req.chainId, req.venue, req.batchId, o.price, o.matched, o.fills)
  }

  // What processRunBatch may do with a book that cleared to o.
  ghost predicate Finishes(e: EnclaveState, req: RunRequest, o: Outcome, signs: bool, e': EnclaveState, r: RunResult) {
    if !o.Cleared? then r == NotSettled && e' == Discard(e, req.batchId)
    else if !signs then r == SignFailed && e' == e
    else
      && r == Signed(Encode(SettlementOf(req, o)))
      && e' == Discard(e, req.batchId).(batchesSettled := e.batchesSettled + 1,
                                        lastClearing := o.price, lastMatchedBase := o.matched)
  }

  ghost predicate RunStep(e: EnclaveState, req: RunRequest, signs: bool, e': EnclaveState, r: RunResult) {
    var orders := Resting(e.book, req.batchId);
    if orders == [] then r == Empty && e' == e
    else exists o :: Clears(orders, req.refPrice, req.maxDeviationBps, o) && Finishes(e, req, o, signs, e', r)
  }

  // --- Agreement -------------------------------------------------------------

  function Deliver(e: EnclaveState, reqs: seq<SubmitRequest>): EnclaveState
    decreases |reqs|
  {
    if reqs == [] then e else Deliver(Accept(e, reqs[0]), reqs[1..])
  }

  // The orders of a batch among the requests, in delivery order.
  function Accepted(reqs: seq<SubmitRequest>, batchId: Uint64): seq<Order> {
    if reqs == [] then []
    else AcceptedOne(reqs[0], batchId) + Accepted(reqs[1..], batchId)
  }

  function AcceptedOne(req: SubmitRequest, batchId: Uint64): seq<Order> {
    if req.batchId == batchId && Open(req).Some? then [Open(req).value] else []
  }

  lemma {:induction false} DeliverFills(e: EnclaveState, reqs: seq<SubmitRequest>, batchId: Uint64)
    ensures Resting(Deliver(e, reqs).book, batchId) == Resting(e.book, batchId) + Accepted(reqs, batchId)
    decreases |reqs|
  {
    if reqs != [] {
      DeliverFills(Accept(e, reqs[0]), reqs[1..], batchId);
      assert Resting(Accept(e, reqs[0]).book, batchId) == Resting(e.book, batchId) + AcceptedOne(reqs[0], batchId);
    }
  }

  function TimesAccepted(o: Order, batchId: Uint64): SubmitRequest -> int {
    (req: SubmitRequest) => multiset(AcceptedOne(req, batchId))[o]
  }

  lemma {:induction false} AcceptedCount(reqs: seq<SubmitRequest>, batchId: Uint64, o: Order)
    ensures multiset(Accepted(reqs, batchId))[o] == Sum(reqs, TimesAccepted(o, batchId))
  {
    if reqs != [] {
      AcceptedCount(reqs[1..], batchId, o);
    }
  }

  lemma AcceptedPermuted(a: seq<SubmitRequest>, b: seq<SubmitRequest>, batchId: Uint64)
    requires multiset(a) == multiset(b)
    ensures multiset(Accepted(a, batchId)) == multiset(Accepted(b, batchId))
  {
    forall o: Order
      ensures multiset(Accepted(a, batchId))[o] == multiset(Accepted(b, batchId))[o]
    {
      AcceptedCount(a, batchId, o);
      AcceptedCount(b, batchId, o);
      SumPermuted(a, b, TimesAccepted(o, batchId));
    }
  }

  lemma {:induction false} AcceptedFrom(reqs: seq<SubmitRequest>, batchId: Uint64, o: Order)
      returns (req: SubmitRequest)
    requires o in Accepted(reqs, batchId)
    ensures req in reqs && req.batchId == batchId && Open(req) == Some(o)
  {
    if o in AcceptedOne(reqs[0], batchId) {
      req := reqs[0];
    } else {
      req := AcceptedFrom(reqs[1..], batchId, o);
    }
  }

  // No two different requests share an order ID.
  ghost predicate DistinctRequests(reqs: seq<SubmitRequest>) {
    forall x, y :: x in reqs && y in reqs && x.orderId == y.orderId ==> x == y
  }

  lemma AcceptedIdentify(reqs: seq<SubmitRequest>, batchId: Uint64)
    requires DistinctRequests(reqs)
    ensures IdsIdentify(Accepted(reqs, batchId))
  {
    forall x, y | x in Accepted(reqs, batchId) && y in Accepted(reqs, batchId) && x.id == y.id
      ensures x == y
    {
      var p := AcceptedFrom(reqs, batchId, x);
      var q := AcceptedFrom(reqs, batchId, y);
    }
  }

  // What a signing enclave returns depends on the outcome alone.
  lemma RunOutcome(e: EnclaveState, req: RunRequest, f: EnclaveState, r: RunResult) returns (o: Outcome)
    requires RunStep(e, req, true, f, r) && Resting(e.book, req.batchId) != []
    ensures Clears(Resting(e.book, req.batchId), req.refPrice, req.maxDeviationBps, o)
    ensures r == if o.Cleared? then Signed(Encode(SettlementOf(req, o))) else NotSettled
  {
    o :| Clears(Resting(e.book, req.batchId), req.refPrice, req.maxDeviationBps, o) && Finishes(e, req, o, true, f, r);
  }

  // Enclaves whose books of a batch are permutations of each other agree.
  lemma SameBookAgree(e: EnclaveState, e': EnclaveState, run: RunRequest, f: EnclaveState, f': EnclaveState,
                      r: RunResult, r': RunResult)
    requires multiset(Resting(e.book, run.batchId)) == multiset(Resting(e'.book, run.batchId))
    requires IdsIdentify(Resting(e.book, run.batchId))
    requires RunStep(e, run, true, f, r) && RunStep(e', run, true, f', r')
    ensures r == r'
  {
    var orders, orders' := Resting(e.book, run.batchId), Resting(e'.book, run.batchId);
    assert |orders| == |multiset(orders)| && |orders'| == |multiset(orders')|;
    if orders != [] {
      var o := RunOutcome(e, run, f, r);
      var o' := RunOutcome(e', run, f', r');
      Allocation.OrderIndependent(orders, orders', run.refPrice, run.maxDeviationBps, o, o');
    }
  }

  // Two enclaves that were sent the same orders of a batch, in any order, and
  // the same request to clear it, sign the same bytes or refuse alike.
  lemma EnclavesAgree(e: EnclaveState, e': EnclaveState, reqs: seq<SubmitRequest>, reqs': seq<SubmitRequest>,
                      run: RunRequest, f: EnclaveState, f': EnclaveState, r: RunResult, r': RunResult)
    requires Resting(e.book, run.batchId) == [] == Resting(e'.book, run.batchId)
    requires multiset(reqs) == multiset(reqs') && DistinctRequests(reqs)
    requires RunStep(Deliver(e, reqs), run, true, f, r)
    requires RunStep(Deliver(e', reqs'), run, true, f', r')
    ensures r == r'
  {
    DeliverFresh(e, reqs, run.batchId);
    DeliverFresh(e', reqs', run.batchId);
    AcceptedPermuted(reqs, reqs', run.batchId);
    AcceptedIdentify(reqs, run.batchId);
    SameBookAgree(Deliver(e, reqs), Deliver(e', reqs'), run, f, f', r, r');
  }

  lemma DeliverFresh(e: EnclaveState, reqs: seq<SubmitRequest>, batchId: Uint64)
    requires Resting(e.book, batchId) == []
    ensures Resting(Deliver(e, reqs).book, batchId) == Accepted(reqs, batchId)
  {
    DeliverFills(e, reqs, batchId);
  }

  // --- The extension ---------------------------------------------------------

  class Extension {
    var book: Book
    var currentBatchId: Uint64
    var batchesSettled: nat
    var lastClearing: int
    var lastMatchedBase: int

    constructor ()
      ensures State() == FRESH
    {
      book, currentBatchId, batchesSettled, lastClearing, lastMatchedBase := map[], 0, 0, 0, 0;
    }

    function State(): EnclaveState
      reads this
    {
      EnclaveState(book, currentBatchId, batchesSettled, lastClearing, lastMatchedBase)
    }

    method ProcessSubmitOrder(req: SubmitRequest) returns (accepted: bool)
      modifies this
      ensures State() == Accept(old(State()), req)
      ensures accepted <==> Open(req).Some?
    {
      if req.ciphertext == NoBytes || req.ciphertext == Unopenable {
        return false;
      }
      var order := ParseSealedOrder(req.ciphertext.plaintext, req);
      if order.None? {
        return false;
      }
      if currentBatchId == 0 {
        currentBatchId := req.batchId;
      }
      var resting := if req.batchId in book then book[req.batchId] else [];
      book := book[req.batchId := resting + [order.value]];
      return true;
    }

    method ProcessRunBatch(req: RunRequest, signs: bool) returns (r: RunResult)
      modifies this
      ensures RunStep(old(State()), req, signs, State(), r)
    {
      var orders := if req.batchId in book then book[req.batchId] else [];
      if |orders| == 0 {
        return Empty;
      }
      var o := Clear(orders, req.refPrice, req.maxDeviationBps);
      r := FinishBatch(req, o, signs);
    }

    // What remains of processRunBatch once the book has cleared or failed to.
    method FinishBatch(req: RunRequest, o: Outcome, signs: bool) returns (r: RunResult)
      modifies this
      ensures Finishes(old(State()), req, o, signs, State(), r)
    {
      if !o.Cleared? {
        DropBook(req.batchId);
        return NotSettled;
      }
      var message := EncodeSettlement(req.chainId, req.venue, req.batchId, o.price, o.matched, o.fills);
      if !signs {
        return SignFailed;
      }
      DropBook(req.batchId);
      batchesSettled := batchesSettled + 1;
      lastClearing, lastMatchedBase := o.price, o.matched;
      return Signed(message);
    }

    // discard
    method DropBook(batchId: Uint64)
      modifies this`book, this`currentBatchId
      ensures State() == Discard(old(State()), batchId)
    {
      book := book - {batchId};
      currentBatchId := (batchId + 1) % U64;
    }
  }
}
