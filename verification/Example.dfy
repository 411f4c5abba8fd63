// Two runs. In one, two traders deposit, submit, and are settled against each
// other: the guarantees about runs are not about nothing. In the other, a faulty
// signer breaks what only trusted runs keep.
module Example {
  import opened Types
  import opened Sums
  import opened Auction
  import opened Codec
  import opened Venue
  import opened Pairs
  import opened System
  import Chain
  import Decimal
  import Enclave
  import Gateway
  import Token

  // --- Reaching a state ------------------------------------------------------

  function With(w: World, l: Ledger): World {
    w.(chain := w.chain.(ledger := l))
  }

  ghost predicate EndsIn(ws: seq<World>, acts: seq<Action>, w: World) {
    TrustedRun(ws, acts) && ws[|acts|] == w
  }

  ghost predicate Reachable(w: World) {
    exists ws, acts :: EndsIn(ws, acts, w)
  }

  lemma StartReached(w: World)
    requires Init(w)
    ensures Reachable(w)
  {
    assert EndsIn([w], [], w);
  }

  lemma OldStep(ws: seq<World>, acts: seq<Action>, a: Action, w': World, i: nat)
    requires i < |acts| < |ws| && StepAt(ws, acts, i) && TrustedAt(ws, acts, i)
    ensures StepAt(ws + [w'], acts + [a], i) && TrustedAt(ws + [w'], acts + [a], i)
  {
  }

  lemma NewStep(ws: seq<World>, acts: seq<Action>, a: Action, w': World)
    requires |ws| == |acts| + 1 && Next(ws[|acts|], a, w') && (Executes(ws[|acts|], a) ==> Trusted(ws[|acts|]))
    ensures StepAt(ws + [w'], acts + [a], |acts|) && TrustedAt(ws + [w'], acts + [a], |acts|)
  {
  }

  // A run goes on by any step that does not leave a settlement to a faulty quorum.
  lemma GoesOn(ws: seq<World>, acts: seq<Action>, a: Action, w': World)
    requires TrustedRun(ws, acts) && Next(ws[|acts|], a, w') && (Executes(ws[|acts|], a) ==> Trusted(ws[|acts|]))
    ensures EndsIn(ws + [w'], acts + [a], w')
  {
    forall i | 0 <= i < |acts + [a]|
      ensures StepAt(ws + [w'], acts + [a], i) && TrustedAt(ws + [w'], acts + [a], i)
    {
      if i < |acts| {
        assert StepAt(ws, acts, i) && TrustedAt(ws, acts, i);
        OldStep(ws, acts, a, w', i);
      } else {
        NewStep(ws, acts, a, w');
      }
    }
    assert (ws + [w'])[0] == ws[0];
  }

  lemma Reaches(w: World, a: Action, w': World)
    requires Reachable(w) && Next(w, a, w') && (Executes(w, a) ==> Trusted(w))
    ensures Reachable(w')
  {
    var ws, acts :| EndsIn(ws, acts, w);
    GoesOn(ws, acts, a, w');
  }

  // A call that commits and sends no instruction.
  lemma CallReaches(w: World, sender: Address, call: Chain.Call, c: Chain.ChainState)
    requires Reachable(w) && Chain.Outside(w.chain, sender)
    requires !call.Submitting? && !call.Running? && !call.Settling?
    requires Chain.Apply(w.chain, sender, call) == Done(c)
    ensures Reachable(w.(chain := c))
  {
    Reaches(w, Calls(sender, call), w.(chain := c));
  }

  lemma MintReaches(w: World, onBase: bool, sender: Address, to: Address, amount: Uint256, l: Ledger)
    requires Reachable(w) && Chain.Outside(w.chain, sender)
    requires Token.Mint(if onBase then w.chain.ledger.base else w.chain.ledger.quote, to, amount)
          == Done(if onBase then l.base else l.quote)
    requires l == if onBase then w.chain.ledger.(base := l.base) else w.chain.ledger.(quote := l.quote)
    ensures Reachable(With(w, l))
  {
    CallReaches(w, sender, Chain.Minting(onBase, to, amount), With(w, l).chain);
  }

  lemma SubmitReaches(w: World, sender: Address, ciphertext: Ciphertext, v: VenueState, req: SubmitRequest)
    requires Reachable(w) && Chain.Outside(w.chain, sender)
    requires SubmitOrder(VenueOf(w), sender, ciphertext, true) == Done((v, req))
    ensures Reachable(With(w, w.chain.ledger.(venue := v)).(submitted := w.submitted + {req}))
  {
    var call := Chain.Submitting(ciphertext, true);
    Reaches(w, Calls(sender, call), Called(w, sender, call));
  }

  lemma RequestReaches(w: World, sender: Address, feed: Feed, now: Uint256, req: RunRequest)
    requires Reachable(w) && Chain.Outside(w.chain, sender)
    requires RunBatch(VenueOf(w), feed, now, true) == Done(req)
    ensures Reachable(w.(requested := w.requested + {req}))
  {
    var call := Chain.Running(feed, now, true);
    assert w.(requested := w.requested + {req}) == Called(w, sender, call);
    Reaches(w, Calls(sender, call), Called(w, sender, call));
  }

  lemma OrderReaches(w: World, e: Address, req: SubmitRequest, after: Enclave.EnclaveState)
    requires Reachable(w) && e in w.enclaves && req in w.submitted
    requires Enclave.Accept(w.enclaves[e], req) == after
    ensures Reachable(w.(enclaves := w.enclaves[e := after]))
  {
    Reaches(w, DeliversOrder(e, req), w.(enclaves := w.enclaves[e := after]));
  }

  lemma RunReaches(w: World, e: Address, req: RunRequest, after: Enclave.EnclaveState, message: Payload)
    requires Reachable(w) && e in w.enclaves && req in w.requested
    requires Enclave.RunStep(w.enclaves[e], req, true, after, Enclave.Signed(message))
    ensures Reachable(w.(enclaves := w.enclaves[e := after], signed := w.signed + {(e, message)}))
  {
    Reaches(w, DeliversRun(e, req, true, after, Enclave.Signed(message)),
            w.(enclaves := w.enclaves[e := after], signed := w.signed + {(e, message)}));
  }

  lemma SettleReaches(w: World, sender: Address, payload: Payload, signers: seq<Address>, feed: Feed, now: Uint256,
                      v: VenueState) returns (w': World)
    requires Reachable(w) && Chain.Outside(w.chain, sender) && Trusted(w) && Unforged(w, payload, signers)
    requires Settle(VenueOf(w), payload, signers, feed, now) == Done(v)
    ensures Reachable(w') && w'.executed == w.executed + [payload] && VenueOf(w') == v
  {
    var call := Chain.Settling(payload, signers, feed, now);
    w' := Called(w, sender, call);
    SettleCalled(w, sender, payload, signers, feed, now);
    Reaches(w, Calls(sender, call), w');
  }

  // --- The parties -----------------------------------------------------------

  const OWNER: Address := 1
  const VENUE: Address := 2
  const GATEWAY: Address := 3
  const TEE: Address := 4
  const BUYER: Address := 10
  const SELLER: Address := 11

  const BUY: Order := Order(1, BUYER, SIDE_BUY, PRICE_SCALE, 1)
  const SELL: Order := Order(2, SELLER, SIDE_SELL, PRICE_SCALE, 1)
  const FEED: Feed := Feed(1, 0, 1)

  const FRESH_VENUE: VenueState := Deployed(VENUE, 114, OWNER)
  const FLOATLESS: Token.TokenState := Token.Approve(Chain.NO_TOKENS, GATEWAY, VENUE, Token.MAX_ALLOWANCE)

  function Start(): World {
    World(Chain.ChainState(Ledger(FRESH_VENUE, Chain.NO_TOKENS, FLOATLESS),
                           Gateway.GatewayState(GATEWAY, 1, 1, OWNER, {}, 0), map[]),
          {}, {}, map[TEE := Enclave.FRESH], {}, [])
  }

  function Sealed(o: Order): Ciphertext {
    Opens(Terms(Some(o.trader), o.side, Some(o.limit), Some(o.size)))
  }

  function Request(o: Order): SubmitRequest
    requires o.id < U64
  {
    SubmitRequest(o.id, 1, o.trader, Sealed(o))
  }

  const RUN: RunRequest := RunRequest(1, PRICE_SCALE, 500, 114, VENUE)
  const TRADE: Outcome := Cleared(PRICE_SCALE, 1, PairFills(BUY, SELL), 0)

  // --- Deposits --------------------------------------------------------------

  const SELLER_LENDS: Token.Allowances := map[(SELLER, VENUE) := 1]
  const BOTH_LEND: Token.Allowances := map[(GATEWAY, VENUE) := Token.MAX_ALLOWANCE, (BUYER, VENUE) := 1]

  function Held(owner: Address, allowances: Token.Allowances): Token.TokenState {
    Token.TokenState(1, map[owner := 1], allowances)
  }

  lemma FirstMint(allowances: Token.Allowances, owner: Address)
    ensures Token.Mint(Token.TokenState(0, map[], allowances), owner, 1) == Done(Held(owner, allowances))
  {
  }

  lemma TokensApproved()
    ensures Token.Approve(Held(SELLER, map[]), SELLER, VENUE, 1) == Held(SELLER, SELLER_LENDS)
    ensures Token.Approve(Held(BUYER, FLOATLESS.allowance), BUYER, VENUE, 1) == Held(BUYER, BOTH_LEND)
  {
    assert FLOATLESS.allowance[(BUYER, VENUE) := 1] == BOTH_LEND;
  }

  function Holding(base: Token.TokenState, quote: Token.TokenState): World {
    With(Start(), Ledger(FRESH_VENUE, base, quote))
  }

  lemma SellerMinted()
    ensures Reachable(Holding(Held(SELLER, map[]), FLOATLESS))
  {
    StartReached(Start());
    FirstMint(map[], SELLER);
    MintReaches(Start(), true, OWNER, SELLER, 1, Ledger(FRESH_VENUE, Held(SELLER, map[]), FLOATLESS));
  }

  lemma Minted()
    ensures Reachable(Holding(Held(SELLER, map[]), Held(BUYER, FLOATLESS.allowance)))
  {
    SellerMinted();
    FirstMint(FLOATLESS.allowance, BUYER);
    MintReaches(Holding(Held(SELLER, map[]), FLOATLESS), false, OWNER, BUYER, 1,
                Ledger(FRESH_VENUE, Held(SELLER, map[]), Held(BUYER, FLOATLESS.allowance)));
  }

  // Each trader holds what it will trade and lets the venue take it.
  lemma Approved()
    ensures Reachable(Holding(Held(SELLER, SELLER_LENDS), Held(BUYER, BOTH_LEND)))
  {
    Minted();
    TokensApproved();
    var w := Holding(Held(SELLER, map[]), Held(BUYER, FLOATLESS.allowance));
    var w' := Holding(Held(SELLER, SELLER_LENDS), Held(BUYER, FLOATLESS.allowance));
    CallReaches(w, SELLER, Chain.Approving(true, VENUE, 1), w'.chain);
    CallReaches(w', BUYER, Chain.Approving(false, VENUE, 1),
                Holding(Held(SELLER, SELLER_LENDS), Held(BUYER, BOTH_LEND)).chain);
  }

  lemma Pulled(owner: Address, allowances: Token.Allowances) returns (t: Token.TokenState)
    requires owner != VENUE && At(allowances, (owner, VENUE)) == 1
    ensures Pull(Held(owner, allowances), map[], VENUE, owner, owner, 1) == Done((t, map[owner := 1]))
  {
    t := Pull(Held(owner, allowances), map[], VENUE, owner, owner, 1).value.0;
  }

  const SOLD: VenueState := FRESH_VENUE.(baseBalance := map[SELLER := 1])
  const FUNDED: VenueState := SOLD.(quoteBalance := map[BUYER := 1])

  lemma Funded() returns (base: Token.TokenState, quote: Token.TokenState)
    ensures Reachable(With(Start(), Ledger(FUNDED, base, quote)))
  {
    Approved();
    base := Pulled(SELLER, SELLER_LENDS);
    quote := Pulled(BUYER, BOTH_LEND);
    var w := Holding(Held(SELLER, SELLER_LENDS), Held(BUYER, BOTH_LEND));
    var w' := With(Start(), Ledger(SOLD, base, Held(BUYER, BOTH_LEND)));
    assert DepositFrom(w.chain.ledger, SELLER, SELLER, 1, 0) == Done(w'.chain.ledger);
    CallReaches(w, SELLER, Chain.Depositing(1, 0), w'.chain);
    var l := Ledger(FUNDED, base, quote);
    assert DepositFrom(w'.chain.ledger, BUYER, BUYER, 0, 1) == Done(l);
    CallReaches(w', BUYER, Chain.Depositing(0, 1), With(Start(), l).chain);
  }

  // --- Orders ----------------------------------------------------------------

  const ARMED: VenueState := FUNDED.(isTee := {TEE}, teeSigners := [TEE])
  const ONE_ORDER: VenueState :=
    ARMED.(nextOrderId := 2, lockedInBatch := map[BUYER := 1], batchOrderCount := map[1 := 1])
  const TAKING: VenueState :=
    ARMED.(nextOrderId := 3, lockedInBatch := map[BUYER := 1, SELLER := 1], batchOrderCount := map[1 := 2])

  lemma Armed() returns (base: Token.TokenState, quote: Token.TokenState)
    ensures Reachable(With(Start(), Ledger(ARMED, base, quote)))
  {
    base, quote := Funded();
    assert AddTee(FUNDED, OWNER, TEE) == Done(ARMED) by {
      assert FUNDED.isTee + {TEE} == {TEE} && FUNDED.teeSigners + [TEE] == [TEE];
    }
    CallReaches(With(Start(), Ledger(FUNDED, base, quote)), OWNER, Chain.AddingTee(TEE),
                With(Start(), Ledger(ARMED, base, quote)).chain);
  }

  lemma OrdersTaken()
    ensures SubmitOrder(ARMED, BUYER, Sealed(BUY), true) == Done((ONE_ORDER, Request(BUY)))
    ensures SubmitOrder(ONE_ORDER, SELLER, Sealed(SELL), true) == Done((TAKING, Request(SELL)))
  {
    assert ONE_ORDER.batchOrderCount[1 := 2] == TAKING.batchOrderCount;
  }

  const ORDERS: set<SubmitRequest> := {} + {Request(BUY)} + {Request(SELL)}

  lemma Taken() returns (l: Ledger)
    ensures l.venue == TAKING && Reachable(With(Start(), l).(submitted := ORDERS))
  {
    var base, quote := Armed();
    OrdersTaken();
    var w := With(Start(), Ledger(ARMED, base, quote));
    SubmitReaches(w, BUYER, Sealed(BUY), ONE_ORDER, Request(BUY));
    var w' := With(Start(), Ledger(ONE_ORDER, base, quote)).(submitted := {} + {Request(BUY)});
    SubmitReaches(w', SELLER, Sealed(SELL), TAKING, Request(SELL));
    l := Ledger(TAKING, base, quote);
  }

  lemma Quoted()
    ensures ReferencePrice(FEED, 1) == Done(PRICE_SCALE)
  {
    Decimal.PriceDecimals();
  }

  lemma Requested() returns (l: Ledger)
    ensures l.venue == TAKING && Reachable(With(Start(), l).(submitted := ORDERS, requested := {} + {RUN}))
  {
    l := Taken();
    Quoted();
    assert RunBatch(TAKING, FEED, 1, true) == Done(RUN);
    RequestReaches(With(Start(), l).(submitted := ORDERS), OWNER, FEED, 1, RUN);
  }

  // --- Clearing --------------------------------------------------------------

  const BOOKED: Enclave.EnclaveState := Enclave.EnclaveState(map[1 := [BUY, SELL]], 1, 0, 0, 0)
  const DONE: Enclave.EnclaveState := Enclave.EnclaveState(map[], 2, 1, PRICE_SCALE, 1)

  function Message(): Payload {
    Encode(Enclave.SettlementOf(RUN, TRADE))
  }

  const HALF_BOOKED: Enclave.EnclaveState := Enclave.EnclaveState(map[1 := [BUY]], 1, 0, 0, 0)

  lemma OrdersOpened()
    ensures Enclave.Accept(Enclave.FRESH, Request(BUY)) == HALF_BOOKED
    ensures Enclave.Accept(HALF_BOOKED, Request(SELL)) == BOOKED
  {
    assert Enclave.Open(Request(BUY)) == Some(BUY) && Enclave.Open(Request(SELL)) == Some(SELL);
    assert Enclave.Resting(Enclave.FRESH.book, 1) + [BUY] == [BUY];
    assert Enclave.Resting(HALF_BOOKED.book, 1) + [SELL] == [BUY, SELL];
    assert HALF_BOOKED.book[1 := [BUY, SELL]] == BOOKED.book;
  }

  lemma Booked() returns (l: Ledger)
    ensures l.venue == TAKING
    ensures Reachable(With(Start(), l).(submitted := ORDERS, requested := {} + {RUN}, enclaves := map[TEE := BOOKED]))
  {
    l := Requested();
    OrdersOpened();
    var w := With(Start(), l).(submitted := ORDERS, requested := {} + {RUN});
    OrderReaches(w, TEE, Request(BUY), HALF_BOOKED);
    OrderReaches(w.(enclaves := w.enclaves[TEE := HALF_BOOKED]), TEE, Request(SELL), BOOKED);
    assert w.enclaves[TEE := HALF_BOOKED][TEE := BOOKED] == map[TEE := BOOKED];
  }

  lemma ClearsAndSigns()
    ensures Enclave.RunStep(BOOKED, RUN, true, DONE, Enclave.Signed(Message()))
  {
    PairClears(BUY, SELL, RUN.refPrice, RUN.maxDeviationBps);
    assert Enclave.Resting(BOOKED.book, 1) == [BUY, SELL];
    assert BOOKED.book - {1} == map[];
    assert Enclave.Finishes(BOOKED, RUN, TRADE, true, DONE, Enclave.Signed(Message()));
  }

  lemma Signed() returns (w: World)
    ensures Reachable(w) && VenueOf(w) == TAKING && w.executed == []
    ensures Chain.Outside(w.chain, OWNER) && Trusted(w) && Unforged(w, Message(), [TEE])
  {
    var l := Booked();
    ClearsAndSigns();
    w := With(Start(), l).(submitted := ORDERS, requested := {} + {RUN}, enclaves := map[TEE := BOOKED]);
    RunReaches(w, TEE, RUN, DONE, Message());
    w := w.(enclaves := w.enclaves[TEE := DONE], signed := w.signed + {(TEE, Message())});
    assert VenueOf(w).isTee - w.enclaves.Keys == {};
  }

  // --- Settlement ------------------------------------------------------------

  lemma TradeFills()
    ensures PairFills(BUY, SELL) == [Fill(BUYER, 1, -1), Fill(SELLER, -1, 1)]
    ensures NetDeltas(PairFills(BUY, SELL), 0, 0) == Done((0, 0))
  {
    var x, y := Fill(BUYER, 1, -1), Fill(SELLER, -1, 1);
    assert [x, y][1..] == [y] && [y][1..] == [];
    assert NetDeltas([y], 1, -1) == Done((0, 0));
  }

  const SWAPPED: Books := Venue.Books(map[SELLER := 0, BUYER := 1], map[BUYER := 0, SELLER := 1], 0)

  lemma TradeApplies()
    ensures ApplyFills(Venue.Books(map[SELLER := 1], map[BUYER := 1], 0), PairFills(BUY, SELL), 5) == Done(SWAPPED)
  {
    TradeFills();
    var x, y := Fill(BUYER, 1, -1), Fill(SELLER, -1, 1);
    assert [x, y][1..] == [y] && [y][1..] == [];
    assert FeeOn(1, 5) == 0 && FeeOn(-1, 5) == 0;
    var half := Venue.Books(map[SELLER := 1, BUYER := 1], map[BUYER := 0], 0);
    assert ApplyFill(Venue.Books(map[SELLER := 1], map[BUYER := 1], 0), x, 5) == Done(half) by {
      assert map[BUYER := 1][BUYER := 0] == map[BUYER := 0];
    }
    assert ApplyFill(half, y, 5) == Done(SWAPPED) by {
      assert half.base[SELLER := 0] == SWAPPED.base && half.quote[SELLER := 1] == SWAPPED.quote;
    }
    assert ApplyFills(half, [y], 5) == ApplyFills(SWAPPED, [], 5);
  }

  lemma TradeChecks()
    ensures InRange(Enclave.SettlementOf(RUN, TRADE))
    ensures CheckSettlement(TAKING, Enclave.SettlementOf(RUN, TRADE), FEED, 1) == Pass
  {
    TradeFills();
    Quoted();
  }

  lemma TradeExecutes() returns (v: VenueState)
    requires InRange(Enclave.SettlementOf(RUN, TRADE))
    ensures Execute(TAKING, Enclave.SettlementOf(RUN, TRADE), 1) == Done(v)
    ensures v.baseBalance == SWAPPED.base && v.quoteBalance == SWAPPED.quote
    ensures v.batchSettled == {1} && v.lockedInBatch == TAKING.lockedInBatch
  {
    TradeApplies();
    v := Execute(TAKING, Enclave.SettlementOf(RUN, TRADE), 1).value;
  }

  lemma TradeSettles() returns (v: VenueState)
    ensures Settle(TAKING, Message(), [TEE], FEED, 1) == Done(v)
    ensures v.baseBalance == SWAPPED.base && v.quoteBalance == SWAPPED.quote
    ensures v.batchSettled == {1} && v.lockedInBatch == TAKING.lockedInBatch
  {
    TradeChecks();
    v := TradeExecutes();
    RoundTripExactly(Enclave.SettlementOf(RUN, TRADE));
    assert [TEE][1..] == [] && CheckSigners(TAKING.isTee, [], TEE) == Pass;
    assert VerifyQuorum(TAKING, [TEE]) == Pass;
  }

  // There is a run in which a batch settles: the buyer has the seller's base, the
  // seller the buyer's quote, and both are unlocked.
  lemma SomeRunSettles() returns (ws: seq<World>, acts: seq<Action>)
    ensures TrustedRun(ws, acts) && ws[|acts|].executed == [Message()]
    ensures var v := VenueOf(ws[|acts|]);
      && v.batchSettled == {1} && !Locked(v, BUYER) && !Locked(v, SELLER)
      && At(v.baseBalance, BUYER) == 1 && At(v.quoteBalance, BUYER) == 0
      && At(v.baseBalance, SELLER) == 0 && At(v.quoteBalance, SELLER) == 1
  {
    var w0 := Signed();
    var v := TradeSettles();
    var w := SettleReaches(w0, OWNER, Message(), [TEE], FEED, 1, v);
    ws, acts :| EndsIn(ws, acts, w);
  }

  // --- A faulty quorum -------------------------------------------------------

  const ROGUE: Address := 5
  const BREACHED: VenueState := FRESH_VENUE.(isTee := {ROGUE}, teeSigners := [ROGUE])

  // A settlement of no fills, for a batch nobody asked to run.
  function Skipping(): Settlement {
    Settlement(114, VENUE, 7, PRICE_SCALE, 0, [])
  }

  lemma RogueSettles() returns (v: VenueState)
    ensures Settle(BREACHED, Encode(Skipping()), [ROGUE], FEED, 1) == Done(v)
    ensures v.batchSettled == {7} && v.currentBatchId == 8
  {
    Quoted();
    RoundTripExactly(Skipping());
    assert [ROGUE][1..] == [] && CheckSigners(BREACHED.isTee, [], ROGUE) == Pass;
    assert VerifyQuorum(BREACHED, [ROGUE]) == Pass;
    assert CheckSettlement(BREACHED, Skipping(), FEED, 1) == Pass;
    v := Execute(BREACHED, Skipping(), 1).value;
    assert BREACHED.batchSettled + {7} == {7};
  }

  function Breached(): World {
    With(Start(), Ledger(BREACHED, Chain.NO_TOKENS, FLOATLESS))
  }

  lemma RogueRegisters()
    ensures Next(Start(), Calls(OWNER, Chain.AddingTee(ROGUE)), Breached())
  {
    assert AddTee(FRESH_VENUE, OWNER, ROGUE) == Done(BREACHED) by {
      assert FRESH_VENUE.isTee + {ROGUE} == {ROGUE} && FRESH_VENUE.teeSigners + [ROGUE] == [ROGUE];
    }
  }

  // In a run that trusts nobody, one faulty signer settles batch 7 first: batches 1
  // to 6 are passed over unsettled, and the sequence is broken.
  lemma RogueBreaksSequence() returns (ws: seq<World>, acts: seq<Action>)
    ensures Run(ws, acts) && !TrustedRun(ws, acts)
    ensures var v := VenueOf(ws[|acts|]); v.batchSettled == {7} && v.currentBatchId == 8 && !Sequenced(v)
  {
    var v := RogueSettles();
    RogueRegisters();
    var a := Calls(OWNER, Chain.AddingTee(ROGUE));
    var b := Calls(OWNER, Chain.Settling(Encode(Skipping()), [ROGUE], FEED, 1));
    var w := Called(Breached(), OWNER, b.call);
    SettleCalled(Breached(), OWNER, b.call.payload, b.call.signers, FEED, 1);
    assert Next(Breached(), b, w);
    ws, acts := [Start(), Breached(), w], [a, b];
    TwoSteps(Start(), a, Breached(), b, w);
    assert 1 !in v.batchSettled;
    if TrustedRun(ws, acts) {
      RunProtocol(ws, acts, 2);
    }
  }

  lemma TwoSteps(w: World, a: Action, w': World, b: Action, w'': World)
    requires Init(w) && Next(w, a, w') && Next(w', b, w'')
    ensures Run([w, w', w''], [a, b])
  {
    forall i | 0 <= i < 2
      ensures StepAt([w, w', w''], [a, b], i)
    {
      if i == 1 {
        assert [w, w', w''][2] == w'';
      }
    }
  }
}
