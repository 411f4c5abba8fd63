// The four contracts together: every call an outside account can make, and what
// no sequence of calls can break.
module Chain {
  import opened Types
  import opened Sums
  import opened Token
  import opened Codec
  import opened Venue
  import opened VenueTheorems
  import opened Gateway

  // One honoured XRP Ledger payment.
  datatype Claim = Claim(trader: Address, drops: nat, quote: nat)

  // credits records the claims; the contracts keep only their IDs and sum.
  datatype ChainState = ChainState(ledger: Ledger, gateway: GatewayState, credits: map<Bytes32, Claim>)

  datatype Call =
    | Minting(onBase: bool, to: Address, amount: Uint256)
    | Transferring(onBase: bool, to: Address, amount: Uint256)
    | Approving(onBase: bool, spender: Address, amount: Uint256)
    | TransferringFrom(onBase: bool, from: Address, to: Address, amount: Uint256)
    | Depositing(base: Uint256, quote: Uint256)
    | DepositingFor(trader: Address, base: Uint256, quote: Uint256)
    | Withdrawing(base: Uint256, quote: Uint256)
    | Submitting(ciphertext: Ciphertext, sent: bool)
    | Running(feed: Feed, now: Uint256, sent: bool)
    | Settling(payload: Payload, signers: seq<Address>, feed: Feed, now: Uint256)
    | Cancelling(now: Uint256)
    | AddingTee(tee: Address)
    | SettingThreshold(threshold: Uint8)
    | SettingDeviation(bps: Uint32)
    | SettingFee(feeBps: Uint16, recipient: Address)
    | Funding(payment: Payment, feed: Feed)
    | DrainingFloat(amount: Uint256, to: Address)
    | HandingOver(newOwner: Address)

  function OnToken(c: ChainState, onBase: bool, f: TokenState -> Tx<TokenState>): Tx<ChainState> {
    var t :- f(if onBase then c.ledger.base else c.ledger.quote);
    Done(c.(ledger := if onBase then c.ledger.(base := t) else c.ledger.(quote := t)))
  }

  function OnVenue(c: ChainState, r: Tx<VenueState>): Tx<ChainState> {
    var v :- r;
    Done(c.(ledger := c.ledger.(venue := v)))
  }

  function OnLedger(c: ChainState, r: Tx<Ledger>): Tx<ChainState> {
    var l :- r;
    Done(c.(ledger := l))
  }

  function FundOn(c: ChainState, p: Payment, feed: Feed): Tx<ChainState> {
    var (g, l, quote) :- Fund(c.gateway, c.ledger, p, feed);
    Done(ChainState(l, g, c.credits[p.transactionId := Claim(Beneficiary(p), p.receivedAmount, quote)]))
  }

  function TokenCall(t: TokenState, sender: Address, call: Call): Tx<TokenState> {
    match call
    case Minting(_, to, amount) => Mint(t, to, amount)
    case Transferring(_, to, amount) => Transfer(t, sender, to, amount)
    case Approving(_, spender, amount) => Done(Approve(t, sender, spender, amount))
    case TransferringFrom(_, from, to, amount) => TransferFrom(t, sender, from, to, amount)
    case _ => Done(t)
  }

  predicate IsTokenCall(call: Call) {
    call.Minting? || call.Transferring? || call.Approving? || call.TransferringFrom?
  }

  function VenueCall(v: VenueState, sender: Address, call: Call): Tx<VenueState> {
    match call
    case Submitting(ciphertext, sent) =>
      var (v', _) :- SubmitOrder(v, sender, ciphertext, sent);
      Done(v')
    case Running(feed, now, sent) =>
      var _ :- RunBatch(v, feed, now, sent);
      Done(v)
    case Settling(payload, signers, feed, now) => Settle(v, payload, signers, feed, now)
    case Cancelling(now) => CancelBatch(v, sender, now)
    case AddingTee(tee) => AddTee(v, sender, tee)
    case SettingThreshold(threshold) => SetSignatureThreshold(v, sender, threshold)
    case SettingDeviation(bps) => SetMaxDeviationBps(v, sender, bps)
    case SettingFee(feeBps, recipient) => SetFee(v, sender, feeBps, recipient)
    case _ => Done(v)
  }

  function Apply(c: ChainState, sender: Address, call: Call): Tx<ChainState> {
    match call
    case Depositing(base, quote) => OnLedger(c, DepositFrom(c.ledger, sender, sender, base, quote))
    case DepositingFor(trader, base, quote) => OnLedger(c, DepositFor(c.ledger, sender, trader, base, quote))
    case Withdrawing(base, quote) => OnLedger(c, Withdraw(c.ledger, sender, base, quote))
    case Funding(payment, feed) => FundOn(c, payment, feed)
    case DrainingFloat(amount, to) =>
      var t :- WithdrawFloat(c.gateway, c.ledger.quote, sender, amount, to);
      Done(c.(ledger := c.ledger.(quote := t)))
    case HandingOver(newOwner) =>
      var g :- TransferOwnership(c.gateway, sender, newOwner);
      Done(c.(gateway := g))
    case _ =>
      if IsTokenCall(call) then OnToken(c, call.onBase, t => TokenCall(t, sender, call))
      else OnVenue(c, VenueCall(c.ledger.venue, sender, call))
  }

  // A reverted call leaves the chain as it was.
  function After(c: ChainState, sender: Address, call: Call): ChainState {
    match Apply(c, sender, call)
    case Done(c') => c'
    case Revert(_) => c
  }

  // Contracts call only as their code says; every other account is outside.
  predicate Outside(c: ChainState, sender: Address) {
    sender != c.ledger.venue.self && sender != c.gateway.self
  }

  // --- Invariants ------------------------------------------------------------

  ghost predicate RegistryOk(v: VenueState) {
    && (forall a :: a in v.isTee <==> a in v.teeSigners)
    && (forall i, j :: 0 <= i < j < |v.teeSigners| ==> v.teeSigners[i] != v.teeSigners[j])
    && ZERO_ADDRESS !in v.isTee
    && 1 <= v.signatureThreshold
    && (v.signatureThreshold <= |v.teeSigners| || v.signatureThreshold == 1)
    && v.feeBps <= 30
  }

  // Nobody can spend the venue's tokens or the float except the venue the float.
  ghost predicate CustodyOk(c: ChainState) {
    var venue, gateway := c.ledger.venue.self, c.gateway.self;
    && venue != gateway
    && (forall s :: At(c.ledger.base.allowance, (venue, s)) == 0)
    && (forall s :: At(c.ledger.quote.allowance, (venue, s)) == 0)
    && (forall s :: At(c.ledger.quote.allowance, (gateway, s)) == if s == venue then MAX_ALLOWANCE else 0)
  }

  function Drops(credits: map<Bytes32, Claim>): map<Bytes32, nat> {
    map id | id in credits :: credits[id].drops
  }

  ghost predicate GatewayOk(c: ChainState) {
    && c.credits.Keys == c.gateway.claimed
    && Total(Drops(c.credits)) == c.gateway.totalDropsCredited < U256
  }

  ghost predicate Safe(c: ChainState) {
    Solvent(c.ledger) && RegistryOk(c.ledger.venue) && CustodyOk(c) && GatewayOk(c)
  }

  const NO_TOKENS: TokenState := TokenState(0, map[], map[])

  // Both tokens, the venue and the gateway just deployed.
  ghost predicate Genesis(c: ChainState) {
    var v, g := c.ledger.venue, c.gateway;
    && v.self != g.self
    && v == Deployed(v.self, v.chainId, v.owner)
    && c.ledger.base == NO_TOKENS
    && c.ledger.quote == Approve(NO_TOKENS, g.self, v.self, MAX_ALLOWANCE)
    && g == GatewayState(g.self, g.sourceId, g.accountHash, g.owner, {}, 0)
    && c.credits == map[]
  }

  lemma GenesisSafe(c: ChainState)
    requires Genesis(c)
    ensures Safe(c)
  {
  }

  // --- Every call keeps them -------------------------------------------------

  // An outside call on a token takes nothing from an account that approved nobody.
  lemma TokenCallKeeps(t: TokenState, sender: Address, call: Call, self: Address)
    requires Sound(t) && IsTokenCall(call) && sender != self && At(t.allowance, (self, sender)) == 0
    requires TokenCall(t, sender, call).Done?
    ensures var t' := TokenCall(t, sender, call).value;
      && Sound(t') && At(t.balanceOf, self) <= At(t'.balanceOf, self)
      && forall s :: At(t'.allowance, (self, s)) == At(t.allowance, (self, s))
  {
    match call
    case Minting(_, to, amount) =>
      MintSound(t, to, amount);
    case Transferring(_, to, amount) =>
      MoveKeepsTotal(t.balanceOf, sender, to, amount);
      MoveMoves(t.balanceOf, sender, to, amount, self);
    case TransferringFrom(_, from, to, amount) =>
      MoveKeepsTotal(t.balanceOf, from, to, amount);
      MoveMoves(t.balanceOf, from, to, amount, self);
    case Approving(_, _, _) =>
  }

  lemma TokenCallSafe(c: ChainState, sender: Address, call: Call)
    requires Safe(c) && Outside(c, sender) && IsTokenCall(call)
    ensures Safe(After(c, sender, call))
  {
    var t := if call.onBase then c.ledger.base else c.ledger.quote;
    if TokenCall(t, sender, call).Done? {
      TokenCallKeeps(t, sender, call, c.ledger.venue.self);
      if !call.onBase {
        TokenCallKeeps(t, sender, call, c.gateway.self);
      }
    }
  }

  lemma PullKeepsAllowances(t: TokenState, b: Balances, self: Address, from: Address, trader: Address,
                            amount: nat, holder: Address)
    requires Pull(t, b, self, from, trader, amount).Done?
    requires from == holder ==> At(t.allowance, (holder, self)) == MAX_ALLOWANCE
    ensures var (t', b') := Pull(t, b, self, from, trader, amount).value;
      forall s :: At(t'.allowance, (holder, s)) == At(t.allowance, (holder, s))
  {
  }

  lemma DepositSafe(c: ChainState, from: Address, trader: Address, base: nat, quote: nat, l: Ledger)
    requires Safe(c) && from != c.ledger.venue.self && (from == c.gateway.self ==> base == 0)
    requires DepositFrom(c.ledger, from, trader, base, quote) == Done(l)
    ensures Safe(c.(ledger := l))
  {
    var v := c.ledger.venue;
    DepositKeepsSolvent(c.ledger, from, trader, base, quote);
    PullKeepsAllowances(c.ledger.base, v.baseBalance, v.self, from, trader, base, v.self);
    PullKeepsAllowances(c.ledger.quote, v.quoteBalance, v.self, from, trader, quote, v.self);
    PullKeepsAllowances(c.ledger.quote, v.quoteBalance, v.self, from, trader, quote, c.gateway.self);
  }

  lemma VenueCallSafe(c: ChainState, sender: Address, call: Call)
    requires Safe(c) && VenueCall(c.ledger.venue, sender, call).Done?
    ensures Safe(c.(ledger := c.ledger.(venue := VenueCall(c.ledger.venue, sender, call).value)))
  {
    if call.Settling? {
      SettleChecks(c.ledger.venue, call.payload, call.signers, call.feed, call.now);
      SettleConserves(c.ledger.venue, call.payload, call.signers, call.feed, call.now);
    }
  }

  lemma FundKeepsAccounts(credits: map<Bytes32, Claim>, id: Bytes32, claim: Claim)
    requires id !in credits
    ensures Total(Drops(credits[id := claim])) == Total(Drops(credits)) + claim.drops
  {
    assert Drops(credits[id := claim]) == Drops(credits)[id := claim.drops];
    TotalSet(Drops(credits), id, claim.drops);
  }

  lemma FundKeepsGateway(c: ChainState, p: Payment, feed: Feed)
    requires GatewayOk(c) && FundOn(c, p, feed).Done?
    ensures GatewayOk(FundOn(c, p, feed).value)
    ensures FundOn(c, p, feed).value.gateway.self == c.gateway.self
  {
    var quote := Fund(c.gateway, c.ledger, p, feed).value.2;
    FundKeepsAccounts(c.credits, p.transactionId, Claim(Beneficiary(p), p.receivedAmount, quote));
  }

  lemma FundSafe(c: ChainState, p: Payment, feed: Feed)
    requires Safe(c) && FundOn(c, p, feed).Done?
    ensures Safe(FundOn(c, p, feed).value)
  {
    var (g, l, quote) := Fund(c.gateway, c.ledger, p, feed).value;
    FundKeepsGateway(c, p, feed);
    DepositSafe(c, c.gateway.self, Beneficiary(p), 0, quote, l);
    FundKeepsCustody(c.(ledger := l), FundOn(c, p, feed).value);
  }

  lemma FundKeepsCustody(deposited: ChainState, c': ChainState)
    requires Safe(deposited) && c'.ledger == deposited.ledger && c'.gateway.self == deposited.gateway.self
    ensures Solvent(c'.ledger) && RegistryOk(c'.ledger.venue) && CustodyOk(c')
  {
  }

  lemma DrainSafe(c: ChainState, sender: Address, amount: nat, to: Address, t: TokenState)
    requires Safe(c) && WithdrawFloat(c.gateway, c.ledger.quote, sender, amount, to) == Done(t)
    ensures Safe(c.(ledger := c.ledger.(quote := t)))
  {
    MoveKeepsTotal(c.ledger.quote.balanceOf, c.gateway.self, to, amount);
    MoveMoves(c.ledger.quote.balanceOf, c.gateway.self, to, amount, c.ledger.venue.self);
  }

  lemma WithdrawSafe(c: ChainState, sender: Address, base: nat, quote: nat, l: Ledger)
    requires Safe(c) && Outside(c, sender) && Withdraw(c.ledger, sender, base, quote) == Done(l)
    ensures Safe(c.(ledger := l))
  {
    WithdrawExactly(c.ledger, sender, base, quote);
  }

  // No outside call, whatever its arguments, breaks solvency, custody, the
  // signer registry or the gateway's accounts.
  lemma CallSafe(c: ChainState, sender: Address, call: Call)
    requires Safe(c) && Outside(c, sender)
    ensures Safe(After(c, sender, call))
  {
    if Apply(c, sender, call).Done? {
      if call.Depositing? {
        DepositSafe(c, sender, sender, call.base, call.quote,
                    DepositFrom(c.ledger, sender, sender, call.base, call.quote).value);
      } else if call.DepositingFor? {
        DepositSafe(c, sender, call.trader, call.base, call.quote,
                    DepositFrom(c.ledger, sender, call.trader, call.base, call.quote).value);
      } else if call.Withdrawing? {
        WithdrawSafe(c, sender, call.base, call.quote, Withdraw(c.ledger, sender, call.base, call.quote).value);
      } else if call.Funding? {
        FundSafe(c, call.payment, call.feed);
      } else if call.DrainingFloat? {
        DrainSafe(c, sender, call.amount, call.to,
                  WithdrawFloat(c.gateway, c.ledger.quote, sender, call.amount, call.to).value);
      } else if call.HandingOver? {
        HandoverSafe(c, sender, call.newOwner);
      } else if IsTokenCall(call) {
        TokenCallSafe(c, sender, call);
      } else {
        VenueCallSafe(c, sender, call);
      }
    }
  }

  lemma HandoverSafe(c: ChainState, sender: Address, newOwner: Address)
    requires Safe(c)
    ensures Safe(After(c, sender, HandingOver(newOwner)))
  {
  }

  // --- What they buy ---------------------------------------------------------

  // In a safe state an unlocked trader can withdraw all it has, and only that.
  lemma CanAlwaysWithdraw(c: ChainState, sender: Address, base: Uint256, quote: Uint256)
    requires Safe(c) && Outside(c, sender)
    ensures Apply(c, sender, Withdrawing(base, quote)).Done? <==>
      && !Locked(c.ledger.venue, sender)
      && base <= At(c.ledger.venue.baseBalance, sender) && quote <= At(c.ledger.venue.quoteBalance, sender)
  {
    WithdrawExactly(c.ledger, sender, base, quote);
  }

  // A payment is honoured exactly when its proof passes, it was never honoured
  // before, and the float covers it; the deposit leg cannot fail.
  lemma FundExactly(c: ChainState, sender: Address, p: Payment, feed: Feed)
    requires Safe(c)
    ensures Apply(c, sender, Funding(p, feed)).Done? <==>
      && Payable(c.gateway, p)
      && feed.value > 0 && feed.timestamp > 0 && -128 < feed.decimals <= 18 && PriceOf(feed) < U256
      && p.receivedAmount * PriceOf(feed) < U256
      && 0 < Worth(p.receivedAmount, PriceOf(feed)) <= At(c.ledger.quote.balanceOf, c.gateway.self)
      && c.gateway.totalDropsCredited + p.receivedAmount < U256
  {
    CheckPaymentExactly(c.gateway, p);
    if Payable(c.gateway, p) {
      var float := At(c.ledger.quote.balanceOf, c.gateway.self);
      PriceExactly(p, feed, float);
      XrpUsdExactly(feed);
      if Price(p, feed, float).Done? {
        FloatDeposits(c, Beneficiary(p), Price(p, feed, float).value);
      }
    }
  }

  // The venue can always take from the float what the float holds.
  lemma FloatDeposits(c: ChainState, trader: Address, credited: nat)
    requires Safe(c) && trader != ZERO_ADDRESS && 0 < credited <= At(c.ledger.quote.balanceOf, c.gateway.self)
    ensures DepositFor(c.ledger, c.gateway.self, trader, 0, credited).Done?
  {
    var v, t := c.ledger.venue, c.ledger.quote;
    MoveKeepsTotal(t.balanceOf, c.gateway.self, v.self, credited);
    AtMostTotal(v.quoteBalance, trader);
    PairAtMostTotal(t.balanceOf, c.gateway.self, v.self);
  }

  // An honoured payment moves its drops' worth of quote from the float to the
  // venue's holding and to the trader its reference names, claims its ID, adds its
  // drops to the total, and changes nothing else.
  lemma FundMoves(c: ChainState, sender: Address, p: Payment, feed: Feed, a: Address)
    requires Safe(c) && Apply(c, sender, Funding(p, feed)).Done?
    ensures p.receivedAmount > 0 && feed.decimals <= 18
    ensures var c' := Apply(c, sender, Funding(p, feed)).value;
      var quote := Worth(p.receivedAmount, PriceOf(feed));
      var trader := p.reference % 0x1_0000000000000000000000000000000000000000;
      && quote > 0 && p.transactionId !in c.credits
      && c'.credits == c.credits[p.transactionId := Claim(trader, p.receivedAmount, quote)]
      && At(c'.ledger.quote.balanceOf, a) == At(c.ledger.quote.balanceOf, a)
           - (if a == c.gateway.self then quote else 0) + (if a == c.ledger.venue.self then quote else 0)
      && At(c'.ledger.venue.quoteBalance, a) == At(c.ledger.venue.quoteBalance, a) + (if a == trader then quote else 0)
    ensures var c' := Apply(c, sender, Funding(p, feed)).value;
      && c'.gateway == c.gateway.(claimed := c.gateway.claimed + {p.transactionId},
                                  totalDropsCredited := c.gateway.totalDropsCredited + p.receivedAmount)
      && c'.ledger.base == c.ledger.base && c'.ledger.quote.allowance == c.ledger.quote.allowance
      && c'.ledger.quote.totalSupply == c.ledger.quote.totalSupply
      && c'.ledger.venue == c.ledger.venue.(quoteBalance := c'.ledger.venue.quoteBalance)
  {
    PriceExactly(p, feed, At(c.ledger.quote.balanceOf, c.gateway.self));
    XrpUsdExactly(feed);
    MoveMoves(c.ledger.quote.balanceOf, c.gateway.self, c.ledger.venue.self,
              Worth(p.receivedAmount, PriceOf(feed)), a);
  }
}
