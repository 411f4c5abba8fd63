// Whether the honest enclaves of a run can form a quorum: what each signs is
// settled by the orders the run delivered to it, and not by their order.
module Agreement {
  import opened Types
  import opened Auction
  import opened Codec
  import opened System
  import Enclave

  // The batch's orders delivered to e since it last gave the batch up, in delivery order.
  function Delivered(acts: seq<Action>, e: Address, b: Uint64): seq<SubmitRequest> {
    if acts == [] then []
    else AndThen(Delivered(acts[..|acts| - 1], e, b), acts[|acts| - 1], e, b)
  }

  function AndThen(reqs: seq<SubmitRequest>, a: Action, e: Address, b: Uint64): seq<SubmitRequest> {
    match a
    case DeliversOrder(e', req) => if e' == e && req.batchId == b then reqs + [req] else reqs
    case DeliversRun(e', run, _, _, result) => if e' == e && run.batchId == b && GivesUp(result) then [] else reqs
    case Calls(_, _) => reqs
  }

  // Clearing empties the book, whether it trades or not; a failed signature does not.
  predicate GivesUp(r: Enclave.RunResult) {
    r.Signed? || r.NotSettled?
  }

  lemma {:induction false} AcceptedSnoc(reqs: seq<SubmitRequest>, req: SubmitRequest, b: Uint64)
    ensures Enclave.Accepted(reqs + [req], b) == Enclave.Accepted(reqs, b) + Enclave.AcceptedOne(req, b)
  {
    if reqs == [] {
      assert [req][1..] == [];
    } else {
      assert (reqs + [req])[1..] == reqs[1..] + [req];
      AcceptedSnoc(reqs[1..], req, b);
    }
  }

  lemma OrderToBook(e: Enclave.EnclaveState, req: SubmitRequest, reqs: seq<SubmitRequest>, b: Uint64)
    requires Enclave.Resting(e.book, b) == Enclave.Accepted(reqs, b)
    ensures Enclave.Resting(Enclave.Accept(e, req).book, b)
         == Enclave.Accepted(if req.batchId == b then reqs + [req] else reqs, b)
  {
    AcceptedSnoc(reqs, req, b);
  }

  lemma RunToBook(e: Enclave.EnclaveState, run: RunRequest, signs: bool, e': Enclave.EnclaveState,
                  r: Enclave.RunResult, b: Uint64)
    requires Enclave.RunStep(e, run, signs, e', r)
    ensures Enclave.Resting(e'.book, b)
         == if run.batchId == b && GivesUp(r) then [] else Enclave.Resting(e.book, b)
  {
  }

  lemma StepToBook(w: World, a: Action, w': World, e: Address, reqs: seq<SubmitRequest>, b: Uint64)
    requires Next(w, a, w') && e in w'.enclaves
    ensures e in w.enclaves
    ensures Enclave.Resting(w.enclaves[e].book, b) == Enclave.Accepted(reqs, b) ==>
      Enclave.Resting(w'.enclaves[e].book, b) == Enclave.Accepted(AndThen(reqs, a, e, b), b)
  {
    match a
    case Calls(sender, call) =>
      CalledFrame(w, sender, call);
    case DeliversOrder(e', req) =>
      if e' == e && Enclave.Resting(w.enclaves[e].book, b) == Enclave.Accepted(reqs, b) {
        OrderToBook(w.enclaves[e], req, reqs, b);
      }
    case DeliversRun(e', run, signs, after, result) =>
      if e' == e {
        RunToBook(w.enclaves[e], run, signs, after, result, b);
      }
  }

  // In any run an enclave's book of a batch is the valid ones among the orders
  // delivered to it since it last gave the batch up.
  lemma {:induction false} BookIsDelivered(ws: seq<World>, acts: seq<Action>, i: nat, e: Address, b: Uint64)
    requires Run(ws, acts) && i < |ws| && e in ws[i].enclaves
    ensures Enclave.Resting(ws[i].enclaves[e].book, b) == Enclave.Accepted(Delivered(acts[..i], e, b), b)
  {
    if i > 0 {
      assert StepAt(ws, acts, i - 1);
      assert acts[..i][..i - 1] == acts[..i - 1];
      StepToBook(ws[i - 1], acts[i - 1], ws[i], e, Delivered(acts[..i - 1], e, b), b);
      BookIsDelivered(ws, acts, i - 1, e, b);
    }
  }

  // --- Counters --------------------------------------------------------------

  // How often e has signed, and what it signed last, in a run so far.
  function TimesSigned(acts: seq<Action>, e: Address): nat {
    if acts == [] then 0
    else TimesSigned(acts[..|acts| - 1], e) + if SignsNow(acts[|acts| - 1], e) then 1 else 0
  }

  predicate SignsNow(a: Action, e: Address) {
    a.DeliversRun? && a.enclave == e && a.result.Signed?
  }

  lemma StepCounts(w: World, a: Action, w': World, e: Address)
    requires Next(w, a, w') && e in w'.enclaves
    ensures e in w.enclaves
    ensures w'.enclaves[e].batchesSettled == w.enclaves[e].batchesSettled + if SignsNow(a, e) then 1 else 0
    ensures SignsNow(a, e) ==> exists o: Outcome ::
      && o.Cleared? && a.result.message == Encode(Enclave.SettlementOf(a.run, o))
      && w'.enclaves[e].lastClearing == o.price && w'.enclaves[e].lastMatchedBase == o.matched
    ensures !SignsNow(a, e) ==>
      && w'.enclaves[e].lastClearing == w.enclaves[e].lastClearing
      && w'.enclaves[e].lastMatchedBase == w.enclaves[e].lastMatchedBase
  {
    if a.Calls? {
      CalledFrame(w, a.sender, a.call);
    }
  }

  // An enclave reports the number of settlements it signed; its last price and
  // volume are those of the last one.
  lemma {:induction false} AlwaysCountsSigned(ws: seq<World>, acts: seq<Action>, i: nat, e: Address)
    requires Run(ws, acts) && i < |ws| && e in ws[i].enclaves
    ensures ws[i].enclaves[e].batchesSettled == TimesSigned(acts[..i], e)
  {
    if i > 0 {
      assert StepAt(ws, acts, i - 1);
      assert acts[..i][..i - 1] == acts[..i - 1];
      StepCounts(ws[i - 1], acts[i - 1], ws[i], e);
      AlwaysCountsSigned(ws, acts, i - 1, e);
    }
  }

  // The batch it reports on: the one after the last it gave up, else the first it
  // took an order for.
  lemma StepMovesOn(w: World, a: Action, w': World, e: Address)
    requires Next(w, a, w') && e in w'.enclaves
    ensures e in w.enclaves
    ensures var b, b' := w.enclaves[e].currentBatchId, w'.enclaves[e].currentBatchId;
      b' == if a.DeliversRun? && a.enclave == e && GivesUp(a.result) then (a.run.batchId + 1) % U64
            else if a.DeliversOrder? && a.enclave == e && Enclave.Open(a.order).Some? && b == 0 then a.order.batchId
            else b
  {
    if a.Calls? {
      CalledFrame(w, a.sender, a.call);
    }
  }

  // Books made of submitted orders do not confuse two of them.
  lemma BookIdentifies(w: World, e: Address, b: Uint64)
    requires BooksFrom(w) && OrdersDistinct(w) && e in w.enclaves
    ensures IdsIdentify(Enclave.Resting(w.enclaves[e].book, b))
  {
    assert BookFrom(w.enclaves[e], w.submitted);
    var book := Enclave.Resting(w.enclaves[e].book, b);
    forall x, y | x in book && y in book && x.id == y.id
      ensures x == y
    {
      assert Submitted(w.submitted, b, x) && Submitted(w.submitted, b, y);
      var p :| p in w.submitted && p.batchId == b && Enclave.Open(p) == Some(x);
      var q :| q in w.submitted && q.batchId == b && Enclave.Open(q) == Some(y);
    }
  }

  // What a run delivers is a request to an enclave in the state the run left it in.
  lemma DeliveredStep(ws: seq<World>, acts: seq<Action>, i: nat)
    requires Run(ws, acts) && i < |acts| && acts[i].DeliversRun?
    ensures acts[i].enclave in ws[i].enclaves
    ensures Enclave.RunStep(ws[i].enclaves[acts[i].enclave], acts[i].run, acts[i].signs, acts[i].after, acts[i].result)
    ensures IdsIdentify(Enclave.Resting(ws[i].enclaves[acts[i].enclave].book, acts[i].run.batchId))
  {
    assert StepAt(ws, acts, i);
    RunBasics(ws, acts, i);
    BookIdentifies(ws[i], acts[i].enclave, acts[i].run.batchId);
  }

  // In any run, whoever is faulty: two enclaves that were delivered the same
  // orders of a batch, in whatever order, answer the same request with the same
  // bytes, or refuse it alike.
  lemma QuorumCanAgree(ws: seq<World>, acts: seq<Action>, i: nat, j: nat)
    requires Run(ws, acts) && i < |acts| && j < |acts|
    requires acts[i].DeliversRun? && acts[j].DeliversRun?
    requires acts[i].run == acts[j].run && acts[i].signs && acts[j].signs
    requires multiset(Delivered(acts[..i], acts[i].enclave, acts[i].run.batchId))
          == multiset(Delivered(acts[..j], acts[j].enclave, acts[j].run.batchId))
    ensures acts[i].result == acts[j].result
  {
    var a, a', b := acts[i], acts[j], acts[i].run.batchId;
    DeliveredStep(ws, acts, i);
    DeliveredStep(ws, acts, j);
    BookIsDelivered(ws, acts, i, a.enclave, b);
    BookIsDelivered(ws, acts, j, a'.enclave, b);
    Enclave.AcceptedPermuted(Delivered(acts[..i], a.enclave, b), Delivered(acts[..j], a'.enclave, b), b);
    Enclave.SameBookAgree(ws[i].enclaves[a.enclave], ws[j].enclaves[a'.enclave], a.run, a.after, a'.after,
                          a.result, a'.result);
  }
}
