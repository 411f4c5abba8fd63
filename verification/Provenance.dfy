// Where the settlements a run executes come from: a step of the run in which an
// honest enclave cleared the orders the run had delivered to it.
module Provenance {
  import opened Types
  import opened Auction
  import opened Codec
  import opened VenueTheorems
  import opened System
  import opened Agreement
  import Effects
  import Enclave
  import Gateway

  // At step k an enclave was asked to clear a batch, and signed payload.
  predicate SignsAt(acts: seq<Action>, k: nat, payload: Payload)
    requires k < |acts|
  {
    acts[k].DeliversRun? && acts[k].result == Enclave.Signed(payload)
  }

  // The valid orders of that batch delivered to it since it last gave the batch up.
  function BookAt(acts: seq<Action>, k: nat): seq<Order>
    requires k < |acts| && acts[k].DeliversRun?
  {
    Enclave.Accepted(Delivered(acts[..k], acts[k].enclave, acts[k].run.batchId), acts[k].run.batchId)
  }

  // Only a delivered run adds to what honest enclaves have signed.
  lemma SignatureAdded(w: World, a: Action, w': World, e: Address, payload: Payload)
    requires Next(w, a, w') && (e, payload) in w'.signed && (e, payload) !in w.signed
    ensures a.DeliversRun? && a.enclave == e && a.result == Enclave.Signed(payload)
  {
    if a.Calls? {
      CalledFrame(w, a.sender, a.call);
    }
  }

  lemma {:induction false} SignedAt(ws: seq<World>, acts: seq<Action>, i: nat, e: Address, payload: Payload)
      returns (k: nat)
    requires Run(ws, acts) && i < |ws| && (e, payload) in ws[i].signed
    ensures k < i && SignsAt(acts, k, payload) && acts[k].enclave == e
  {
    assert StepAt(ws, acts, i - 1);
    if (e, payload) in ws[i - 1].signed {
      k := SignedAt(ws, acts, i - 1, e, payload);
    } else {
      SignatureAdded(ws[i - 1], acts[i - 1], ws[i], e, payload);
      k := i - 1;
    }
  }

  // Only a settle that does not revert adds to what was executed.
  lemma PayloadAdded(w: World, a: Action, w': World, payload: Payload)
    requires Next(w, a, w') && payload in w'.executed && payload !in w.executed
    ensures Executes(w, a) && a.call.payload == payload
  {
    if a.Calls? {
      CalledFrame(w, a.sender, a.call);
    }
  }

  lemma {:induction false} ExecutedAt(ws: seq<World>, acts: seq<Action>, i: nat, payload: Payload) returns (j: nat)
    requires Run(ws, acts) && i < |ws| && payload in ws[i].executed
    ensures j < i && Executes(ws[j], acts[j]) && acts[j].call.payload == payload
  {
    assert StepAt(ws, acts, i - 1);
    if payload in ws[i - 1].executed {
      j := ExecutedAt(ws, acts, i - 1, payload);
    } else {
      PayloadAdded(ws[i - 1], acts[i - 1], ws[i], payload);
      j := i - 1;
    }
  }

  // At step m the venue sent req: the current batch, with orders in it, at the price
  // of that call's own reading, with the tolerance then set.
  predicate AsksAt(ws: seq<World>, acts: seq<Action>, m: nat, req: RunRequest)
    requires m < |acts| < |ws|
  {
    acts[m].Calls? && acts[m].call.Running? &&
    var v, feed := VenueOf(ws[m]), acts[m].call.feed;
    && req.batchId == v.currentBatchId && Effects.Taken(v, req.batchId) > 0
    && acts[m].call.now <= feed.timestamp + 3600 && -18 <= feed.decimals <= 18
    && req.refPrice == Gateway.PriceOf(feed) && req.maxDeviationBps == v.maxDeviationBps
    && req.chainId == v.chainId && req.venue == v.self
  }

  lemma RequestAdded(ws: seq<World>, acts: seq<Action>, m: nat, req: RunRequest)
    requires m < |acts| < |ws| && StepAt(ws, acts, m) && req in ws[m + 1].requested && req !in ws[m].requested
    ensures AsksAt(ws, acts, m, req)
  {
    if acts[m].Calls? && acts[m].call.Running? {
      var call := acts[m].call;
      Effects.RunRequested(VenueOf(ws[m]), call.feed, call.now, call.sent);
    }
  }

  // Every request to run was sent by such a call.
  lemma {:induction false} RequestedAt(ws: seq<World>, acts: seq<Action>, i: nat, req: RunRequest) returns (m: nat)
    requires Run(ws, acts) && i < |ws| && req in ws[i].requested
    ensures m < i && AsksAt(ws, acts, m, req)
  {
    assert StepAt(ws, acts, i - 1);
    if req in ws[i - 1].requested {
      m := RequestedAt(ws, acts, i - 1, req);
    } else {
      RequestAdded(ws, acts, i - 1, req);
      m := i - 1;
    }
  }

  // At step m its trader submitted req, which took the next ID in the current batch.
  predicate SubmitsAt(ws: seq<World>, acts: seq<Action>, m: nat, req: SubmitRequest)
    requires m < |acts| < |ws|
  {
    && acts[m].Calls? && acts[m].call.Submitting? && acts[m].sender == req.trader
    && acts[m].call.ciphertext == req.ciphertext
    && req.orderId == VenueOf(ws[m]).nextOrderId && req.batchId == VenueOf(ws[m]).currentBatchId
  }

  lemma OrderAdded(ws: seq<World>, acts: seq<Action>, m: nat, req: SubmitRequest)
    requires m < |acts| < |ws| && StepAt(ws, acts, m) && req in ws[m + 1].submitted && req !in ws[m].submitted
    ensures SubmitsAt(ws, acts, m, req)
  {
    if acts[m].Calls? && acts[m].call.Submitting? {
      var call := acts[m].call;
      Effects.SubmittedRequest(VenueOf(ws[m]), acts[m].sender, call.ciphertext, call.sent);
    }
  }

  // Every order in the system was submitted by the trader it is attributed to.
  lemma {:induction false} SubmittedAt(ws: seq<World>, acts: seq<Action>, i: nat, req: SubmitRequest)
      returns (m: nat)
    requires Run(ws, acts) && i < |ws| && req in ws[i].submitted
    ensures m < i && SubmitsAt(ws, acts, m, req)
  {
    assert StepAt(ws, acts, i - 1);
    if req in ws[i - 1].submitted {
      m := SubmittedAt(ws, acts, i - 1, req);
    } else {
      OrderAdded(ws, acts, i - 1, req);
      m := i - 1;
    }
  }

  lemma StepGrows(w: World, a: Action, w': World)
    requires Next(w, a, w')
    ensures w.submitted <= w'.submitted && w.requested <= w'.requested
  {
    if a.Calls? {
      CalledFrame(w, a.sender, a.call);
    }
  }

  // The venue takes back no instruction.
  lemma {:induction false} InstructionsGrow(ws: seq<World>, acts: seq<Action>, i: nat, j: nat)
    requires Run(ws, acts) && i <= j < |ws|
    ensures ws[i].submitted <= ws[j].submitted && ws[i].requested <= ws[j].requested
    decreases j
  {
    if i < j {
      InstructionsGrow(ws, acts, i, j - 1);
      assert StepAt(ws, acts, j - 1);
      StepGrows(ws[j - 1], acts[j - 1], ws[j]);
    }
  }

  // An executing settlement was signed, at an earlier step, by an honest enclave.
  lemma ExecutedSigned(ws: seq<World>, acts: seq<Action>, j: nat) returns (k: nat)
    requires TrustedRun(ws, acts) && j < |acts| && Executes(ws[j], acts[j])
    ensures k < j && SignsAt(acts, k, acts[j].call.payload)
  {
    assert StepAt(ws, acts, j) && TrustedAt(ws, acts, j);
    RunBasics(ws, acts, j);
    var call := acts[j].call;
    SettleChecks(VenueOf(ws[j]), call.payload, call.signers, call.feed, call.now);
    var e := QuorumVouches(ws[j], call.payload, call.signers);
    k := SignedAt(ws, acts, j, e, call.payload);
  }

  // What an enclave signed at a step is what Clear makes of its book at that step.
  lemma SignedClears(ws: seq<World>, acts: seq<Action>, k: nat, payload: Payload) returns (o: Outcome)
    requires Run(ws, acts) && k < |acts| && SignsAt(acts, k, payload)
    ensures acts[k].enclave in ws[k].enclaves && acts[k].run in ws[k].requested
    ensures Clears(BookAt(acts, k), acts[k].run.refPrice, acts[k].run.maxDeviationBps, o) && o.Cleared?
    ensures payload == Encode(Enclave.SettlementOf(acts[k].run, o))
    ensures VouchedBy(ws[k].submitted, ws[k].requested, payload, acts[k].run, BookAt(acts, k), o)
  {
    assert StepAt(ws, acts, k);
    RunBasics(ws, acts, k);
    var a := acts[k];
    BookIsDelivered(ws, acts, k, a.enclave, a.run.batchId);
    o := ClearedAt(ws[k].enclaves[a.enclave], a, payload);
    assert BookFrom(ws[k].enclaves[a.enclave], ws[k].submitted);
  }

  lemma ClearedAt(e: Enclave.EnclaveState, a: Action, payload: Payload) returns (o: Outcome)
    requires a.DeliversRun? && a.result == Enclave.Signed(payload)
    requires Enclave.RunStep(e, a.run, a.signs, a.after, a.result)
    ensures Clears(Enclave.Resting(e.book, a.run.batchId), a.run.refPrice, a.run.maxDeviationBps, o) && o.Cleared?
    ensures payload == Encode(Enclave.SettlementOf(a.run, o))
  {
    o :| Clears(Enclave.Resting(e.book, a.run.batchId), a.run.refPrice, a.run.maxDeviationBps, o)
      && Enclave.Finishes(e, a.run, o, a.signs, a.after, a.result);
  }

  // So every settlement executed in a trusted run is, byte for byte, what an honest
  // enclave signed at an earlier step of it: what Clear makes of the orders the run
  // had delivered to that enclave, all of them and no others.
  lemma SettlementSource(ws: seq<World>, acts: seq<Action>, i: nat, payload: Payload) returns (k: nat, o: Outcome)
    requires TrustedRun(ws, acts) && i < |ws| && payload in ws[i].executed
    ensures k < i && SignsAt(acts, k, payload) && acts[k].enclave in ws[k].enclaves
    ensures acts[k].run in ws[k].requested
    ensures Clears(BookAt(acts, k), acts[k].run.refPrice, acts[k].run.maxDeviationBps, o) && o.Cleared?
    ensures VouchedBy(ws[i].submitted, ws[i].requested, payload, acts[k].run, BookAt(acts, k), o)
  {
    var j := ExecutedAt(ws, acts, i, payload);
    k := ExecutedSigned(ws, acts, j);
    o := SignedClears(ws, acts, k, payload);
    InstructionsGrow(ws, acts, k, i);
    StillVouched(ws[k], ws[i], payload, acts[k].run, BookAt(acts, k), o);
  }

  lemma StillVouched(w: World, w': World, payload: Payload, req: RunRequest, orders: seq<Order>, o: Outcome)
    requires VouchedBy(w.submitted, w.requested, payload, req, orders, o)
    requires w.submitted <= w'.submitted && w.requested <= w'.requested
    ensures VouchedBy(w'.submitted, w'.requested, payload, req, orders, o)
  {
  }
}
