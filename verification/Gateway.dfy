// The XRP Ledger gateway (contracts/XrplGateway.sol): one credit per payment,
// paid out of its float into the named trader's venue balance.
module Gateway {
  import opened Types
  import opened Arithmetic
  import opened Sums
  import opened Token
  import opened Venue
  import opened Nightjar
  import Decimal

  type Bytes32 = n: nat | n < U256

  // "Payment", right-padded to 32 bytes.
  const ATTESTATION_TYPE: Bytes32 := 0x5061796d656e7400000000000000000000000000000000000000000000000000

  // A payment proof; verified is the Data Connector's verdict on it.
  datatype Payment = Payment(
    verified: bool, attestationType: Bytes32, sourceId: Bytes32, status: nat, receivingAddressHash: Bytes32,
    receivedAmount: int, transactionId: Bytes32, reference: Bytes32)

  datatype GatewayState = GatewayState(
    self: Address, sourceId: Bytes32, accountHash: Bytes32, owner: Address,
    claimed: set<Bytes32>, totalDropsCredited: nat)

  // The reference names a trader in its low 20 bytes.
  function Beneficiary(p: Payment): Address {
    p.reference % ADDRESS_LIMIT
  }

  function XrpUsd(feed: Feed): Tx<nat> {
    if feed.value == 0 || feed.timestamp == 0 then Revert(StalePrice)
    else
      :- Need(-128 < feed.decimals <= 18, Overflow);
      var price := feed.value * (if feed.decimals >= 0 then Pow10(18 - feed.decimals) else Pow10(18 + -feed.decimals));
      :- Need(price < U256, Overflow);
      Done(price)
  }

  // Drops and quote units are both millionths, so only the price scale divides out.
  function QuoteOf(drops: nat, price: nat): nat {
    drops * price / PRICE_SCALE
  }

  // Everything fund checks of a proof before it looks at a price.
  function CheckPayment(g: GatewayState, p: Payment): Check {
    if !p.verified then Fail(InvalidProof)
    else if p.attestationType != ATTESTATION_TYPE then Fail(WrongAttestationType)
    else if p.sourceId != g.sourceId then Fail(WrongSource)
    else if p.status != 0 then Fail(PaymentFailedOnLedger)
    else if p.receivingAddressHash != g.accountHash then Fail(WrongDestination)
    else if p.receivedAmount <= 0 then Fail(NothingReceived)
    else if p.transactionId in g.claimed then Fail(AlreadyClaimed)
    else if Beneficiary(p) == ZERO_ADDRESS then Fail(NoReference)
    else Pass
  }

  // What a payment is worth: the quote to credit, if the float covers it.
  function Price(p: Payment, feed: Feed, float: nat): Tx<nat>
    requires p.receivedAmount > 0
  {
    var price :- XrpUsd(feed);
    :- Need(p.receivedAmount * price < U256, Overflow);
    var credited := QuoteOf(p.receivedAmount, price);
    :- Need(credited != 0, NothingReceived);
    :- Need(float >= credited, InsufficientFloat);
    Done(credited)
  }

  function Fund(g: GatewayState, l: Ledger, p: Payment, feed: Feed): Tx<(GatewayState, Ledger, nat)> {
    match CheckPayment(g, p)
    case Fail(e) => Revert(e)
    case Pass =>
      var credited :- Price(p, feed, At(l.quote.balanceOf, g.self));
      :- Need(g.totalDropsCredited + p.receivedAmount < U256, Overflow);
      var l' :- DepositFor(l, g.self, Beneficiary(p), 0, credited);
      Done((g.(claimed := g.claimed + {p.transactionId}, totalDropsCredited := g.totalDropsCredited + p.receivedAmount),
            l', credited))
  }

  function CapacityAt(float: nat, price: nat): nat
    requires price > 0
  {
    float * PRICE_SCALE / price
  }

  function RemainingCapacityDrops(float: nat, feed: Feed): Tx<nat> {
    var price :- XrpUsd(feed);
    if price == 0 then Done(0)
    else
      :- Need(float * PRICE_SCALE < U256, Overflow);
      Done(CapacityAt(float, price))
  }

  function WithdrawFloat(g: GatewayState, t: TokenState, sender: Address, amount: nat, to: Address): Tx<TokenState> {
    if sender != g.owner then Revert(NotOwner)
    else
      :- Need(to != ZERO_ADDRESS, ZeroAddress);
      Transfer(t, g.self, to, amount)
  }

  function TransferOwnership(g: GatewayState, sender: Address, newOwner: Address): Tx<GatewayState> {
    if sender != g.owner then Revert(NotOwner)
    else
      :- Need(newOwner != ZERO_ADDRESS, ZeroAddress);
      Done(g.(owner := newOwner))
  }

  // --- The oracle ------------------------------------------------------------

  // Whenever both accept a reading, the venue and the gateway price XRP alike,
  // at value * 10^18 / 10^decimals.
  lemma OracleReadsAgree(feed: Feed, now: nat)
    requires XrpUsd(feed).Done? && ReferencePrice(feed, now).Done?
    ensures XrpUsd(feed).value == ReferencePrice(feed, now).value
    ensures if feed.decimals >= 0 then XrpUsd(feed).value * Pow10(feed.decimals) == feed.value * PRICE_SCALE
            else XrpUsd(feed).value == feed.value * PRICE_SCALE * Pow10(-feed.decimals)
  {
    Decimal.PriceDecimals();
    if feed.decimals >= 0 {
      Pow10Sum(18 - feed.decimals, feed.decimals, 18);
      Associate(feed.value, Pow10(18 - feed.decimals), Pow10(feed.decimals));
    } else {
      Pow10Sum(18, -feed.decimals, 18 + -feed.decimals);
      Associate(feed.value, PRICE_SCALE, Pow10(-feed.decimals));
    }
  }

  // The readings only one of them accepts: the gateway takes any age and smaller
  // decimals, the venue a zero value or timestamp.
  lemma OracleReadsDiffer(feed: Feed, now: nat)
    ensures XrpUsd(feed).Done? && ReferencePrice(feed, now).Revert? <==>
      && XrpUsd(feed).Done?
      && (feed.timestamp + 3600 < now || feed.timestamp + 3600 >= U64 || feed.decimals < -18)
    ensures ReferencePrice(feed, now).Done? && XrpUsd(feed).Revert? <==>
      ReferencePrice(feed, now).Done? && (feed.value == 0 || feed.timestamp == 0)
  {
    if -18 <= feed.decimals <= 18 {
      SamePrice(feed);
    }
  }

  // Both scale the value by the same power of ten.
  lemma SamePrice(feed: Feed)
    requires -18 <= feed.decimals <= 18
    ensures feed.decimals < 0 ==>
      feed.value * PRICE_SCALE * Pow10(-feed.decimals) == feed.value * Pow10(18 + -feed.decimals)
  {
    Decimal.PriceDecimals();
    if feed.decimals < 0 {
      Pow10Sum(18, -feed.decimals, 18 + -feed.decimals);
      Associate(feed.value, PRICE_SCALE, Pow10(-feed.decimals));
    }
  }

  // value * 10^18 / 10^decimals, for decimals of either sign.
  function PriceOf(feed: Feed): nat
    requires feed.decimals <= 18
  {
    feed.value * Pow10(18 - feed.decimals)
  }

  // A reading the venue accepts is at most an hour old and prices within a word.
  lemma ReferencePriceExactly(feed: Feed, now: nat)
    ensures ReferencePrice(feed, now).Done? <==>
      && now <= feed.timestamp + 3600 < U64 && -18 <= feed.decimals <= 18 && PriceOf(feed) < U256
    ensures ReferencePrice(feed, now).Done? ==> ReferencePrice(feed, now).value == PriceOf(feed)
    ensures ReferencePrice(feed, now) == Revert(StaleOracle) ==> feed.timestamp + 3600 < now
    ensures ReferencePrice(feed, now) == Revert(BadFeedDecimals) ==>
      -128 < feed.decimals < -18 || feed.decimals > 18
  {
    if -18 <= feed.decimals <= 18 {
      SamePrice(feed);
    }
  }

  // A reading the gateway accepts is of any age, but not empty.
  lemma XrpUsdExactly(feed: Feed)
    ensures XrpUsd(feed).Done? <==>
      feed.value > 0 && feed.timestamp > 0 && -128 < feed.decimals <= 18 && PriceOf(feed) < U256
    ensures XrpUsd(feed).Done? ==> XrpUsd(feed).value == PriceOf(feed)
    ensures XrpUsd(feed) == Revert(StalePrice) <==> feed.value == 0 || feed.timestamp == 0
  {
  }

  // A proof fund accepts, before any price: verified, of an XRP payment on the
  // right chain to the right account that succeeded and was not claimed, for a
  // positive amount, naming a trader in the low 160 bits of its reference.
  predicate Payable(g: GatewayState, p: Payment) {
    && p.verified
    && p.attestationType == 0x5061796d656e7400000000000000000000000000000000000000000000000000
    && p.sourceId == g.sourceId && p.status == 0 && p.receivingAddressHash == g.accountHash
    && p.receivedAmount > 0 && p.transactionId !in g.claimed
    && p.reference % 0x1_0000000000000000000000000000000000000000 != 0
  }

  lemma CheckPaymentExactly(g: GatewayState, p: Payment)
    ensures CheckPayment(g, p) == Pass <==> Payable(g, p)
    ensures CheckPayment(g, p) == Fail(InvalidProof) <==> !p.verified
    ensures CheckPayment(g, p) == Fail(WrongSource) ==> p.sourceId != g.sourceId
    ensures CheckPayment(g, p) == Fail(PaymentFailedOnLedger) ==> p.status != 0
    ensures CheckPayment(g, p) == Fail(WrongDestination) ==> p.receivingAddressHash != g.accountHash
    ensures CheckPayment(g, p) == Fail(NothingReceived) ==> p.receivedAmount <= 0
    ensures CheckPayment(g, p) == Fail(AlreadyClaimed) ==> p.transactionId in g.claimed
    ensures CheckPayment(g, p) == Fail(NoReference) ==> Beneficiary(p) == 0
  {
  }

  // Drops at a price, in quote units, rounded down.
  function Worth(drops: nat, price: nat): nat {
    drops * price / 1_000_000_000_000_000_000
  }

  lemma PriceExactly(p: Payment, feed: Feed, float: nat)
    requires p.receivedAmount > 0
    ensures Price(p, feed, float).Done? <==>
      && XrpUsd(feed).Done? && p.receivedAmount * PriceOf(feed) < U256
      && 0 < Worth(p.receivedAmount, PriceOf(feed)) <= float
    ensures Price(p, feed, float).Done? ==> Price(p, feed, float).value == Worth(p.receivedAmount, PriceOf(feed))
    ensures Price(p, feed, float) == Revert(InsufficientFloat) ==> float < Worth(p.receivedAmount, PriceOf(feed))
  {
    XrpUsdExactly(feed);
  }

  // The advertised capacity is the float at that price, and reverts with the reading.
  lemma RemainingCapacityExactly(float: nat, feed: Feed)
    ensures RemainingCapacityDrops(float, feed).Done? <==>
      XrpUsd(feed).Done? && float * 1_000_000_000_000_000_000 < U256
    ensures RemainingCapacityDrops(float, feed).Done? ==>
      && PriceOf(feed) > 0
      && RemainingCapacityDrops(float, feed).value == float * 1_000_000_000_000_000_000 / PriceOf(feed)
  {
    XrpUsdExactly(feed);
    if XrpUsd(feed).Done? {
      PricePositive(feed);
    }
  }

  // --- Capacity --------------------------------------------------------------

  // The float check passes for exactly these payments.
  lemma FloatCoversExactly(float: nat, price: nat, drops: nat)
    requires price > 0
    ensures QuoteOf(drops, price) <= float <==> drops <= ((float + 1) * PRICE_SCALE - 1) / price
  {
    var limit := (float + 1) * PRICE_SCALE - 1;
    var worth := drops * price;
    DivAtMost(worth, PRICE_SCALE, float);
    MulAtMost(drops, price, limit);
  }

  // Any single payment within the advertised capacity passes the float check,
  // and a payment of exactly that capacity all but empties the float.
  lemma CapacityIsSafe(float: nat, feed: Feed, drops: nat)
    requires RemainingCapacityDrops(float, feed).Done?
    ensures var capacity, price := RemainingCapacityDrops(float, feed).value, XrpUsd(feed).value;
      && (drops <= capacity ==> QuoteOf(drops, price) <= float)
      && float - QuoteOf(capacity, price) <= price / PRICE_SCALE + 1
  {
    PricePositive(feed);
    var price := XrpUsd(feed).value;
    var have := float * PRICE_SCALE;
    var capacity := have / price;
    MulAtMost(drops, price, have);
    MulAtMost(capacity, price, have);
    DivAtMost(drops * price, PRICE_SCALE, float);
    DivAtMost(have, price, capacity);
    var spent := capacity * price;
    assert have < spent + price;
    DivMod(spent, PRICE_SCALE);
    DivMod(price, PRICE_SCALE);
  }

  lemma PricePositive(feed: Feed)
    requires XrpUsd(feed).Done?
    ensures XrpUsd(feed).value > 0
  {
    MulPositive(feed.value, Pow10(18 - feed.decimals));
  }

  // --- The contract ----------------------------------------------------------

  class XrplGateway {
    const self: Address
    const sourceId: Bytes32
    const accountHash: Bytes32
    const venue: NightjarAuction
    const quoteToken: TestUSD

    var owner: Address
    var claimed: set<Bytes32>
    var totalDropsCredited: nat

    constructor (self: Address, sourceId: Bytes32, accountHash: Bytes32, deployer: Address,
                 venue: NightjarAuction, quoteToken: TestUSD)
      modifies quoteToken
      ensures State() == GatewayState(self, sourceId, accountHash, deployer, {}, 0)
      ensures this.venue == venue && this.quoteToken == quoteToken
      ensures quoteToken.State() == Approve(old(quoteToken.State()), self, venue.self, MAX_ALLOWANCE)
    {
      this.self, this.sourceId, this.accountHash, this.owner := self, sourceId, accountHash, deployer;
      this.venue, this.quoteToken := venue, quoteToken;
      claimed, totalDropsCredited := {}, 0;
      new;
      quoteToken.ApproveSpender(self, venue.self, MAX_ALLOWANCE);
    }

    function State(): GatewayState
      reads this
    {
      GatewayState(self, sourceId, accountHash, owner, claimed, totalDropsCredited)
    }

    method FundTrader(p: Payment, feed: Feed) returns (r: Tx<nat>)
      requires quoteToken == venue.quoteToken && venue.baseToken != venue.quoteToken
      modifies this, venue, venue.baseToken, venue.quoteToken
      ensures match Fund(old(State()), old(venue.Holdings()), p, feed)
              case Done((g, l, credited)) => r == Done(credited) && State() == g && venue.Holdings() == l
              case Revert(e) => r == Revert(e) && State() == old(State()) && venue.Holdings() == old(venue.Holdings())
    {
      var checked := CheckPayment(State(), p);
      if checked.Fail? {
        return Revert(checked.error);
      }
      var savedClaimed, savedDrops := claimed, totalDropsCredited;
      claimed := claimed + {p.transactionId};
      var credited := Price(p, feed, At(quoteToken.balanceOf, self));
      if credited.Revert? {
        claimed := savedClaimed;
        return credited;
      }
      if totalDropsCredited + p.receivedAmount >= U256 {
        claimed := savedClaimed;
        return Revert(Overflow);
      }
      totalDropsCredited := totalDropsCredited + p.receivedAmount;
      var deposited := venue.DepositForTrader(self, Beneficiary(p), 0, credited.value);
      if deposited.Fail? {
        claimed, totalDropsCredited := savedClaimed, savedDrops;
        return Revert(deposited.error);
      }
      return credited;
    }

    method RemainingCapacity(feed: Feed) returns (r: Tx<nat>)
      ensures r == RemainingCapacityDrops(At(quoteToken.balanceOf, self), feed)
    {
      var price := XrpUsd(feed);
      if price.Revert? || price.value == 0 {
        return if price.Revert? then price else Done(0);
      }
      var float := At(quoteToken.balanceOf, self);
      if float * PRICE_SCALE >= U256 {
        return Revert(Overflow);
      }
      return Done(CapacityAt(float, price.value));
    }

    method Drain(sender: Address, amount: nat, to: Address) returns (r: Check)
      modifies quoteToken
      ensures Took(WithdrawFloat(State(), old(quoteToken.State()), sender, amount, to),
                   old(quoteToken.State()), quoteToken.State(), r)
    {
      if sender != owner {
        return Fail(NotOwner);
      }
      if to == ZERO_ADDRESS {
        return Fail(ZeroAddress);
      }
      r := quoteToken.TransferTo(self, to, amount);
    }

    method HandOver(sender: Address, newOwner: Address) returns (r: Check)
      modifies this
      ensures Took(TransferOwnership(old(State()), sender, newOwner), old(State()), State(), r)
    {
      if sender != owner {
        return Fail(NotOwner);
      }
      if newOwner == ZERO_ADDRESS {
        return Fail(ZeroAddress);
      }
      owner := newOwner;
      return Pass;
    }
  }
}
