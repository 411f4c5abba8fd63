# Nightjar: a verified model of the sealed-order batch auction

Nightjar is a dark-pool venue. Traders deposit two tokens into a contract and
submit sealed orders; enclaves open the orders, clear each batch at one price,
and sign the result; the contract executes a settlement that enough registered
enclaves signed. This project models the auction engine, the venue contract,
the enclave extension, the XRP Ledger gateway, the test token, the signed
settlement layout and the decimal parser and printer, and proves what the whole
guarantees, in Dafny. `dafny verify dfyconfig.toml` checks everything.

## How the project is laid out

| module | models |
|---|---|
| `Types`, `Arithmetic`, `Sums` | the values exchanged, and the arithmetic and sums the proofs rest on |
| `Auction` | what clearing means: depth, the tie-break, the best price, fill order, the outcomes `Clear` may return |
| `Clearing` | the engine as it runs: sorting, the price scan, the greedy fill, `Clear`, with its loops and arrays |
| `AuctionTheorems`, `Efficiency`, `Allocation` | volume optimality, stability, gains from trade, aggregation, truncation, order independence |
| `Lots`, `Overflow` | conditions on the orders alone under which quote is conserved exactly, and under which every number fits its word |
| `Codec` | the settlement payload, word by word |
| `Token` | the token: its calls, its invariant, and the contract that runs them |
| `Venue`, `Nightjar` | every call of the venue as a function from state to state or revert, and the contract class that updates storage in place |
| `VenueTheorems`, `Truncation` | quorum, band, conservation, fees, solvency; the batches an honest enclave clears but the venue refuses |
| `Gateway` | crediting XRP Ledger payments out of a float |
| `Enclave` | the book per batch, order validation, clearing and signing |
| `Chain` | the four contracts together and the invariant no outside call breaks |
| `Effects`, `Authority` | what each call does, account by account, and who may change what |
| `System`, `SystemTheorems`, `Agreement`, `Provenance`, `History` | venue and enclaves as one transition system, and what holds over every run |
| `Pairs`, `Ties`, `Example` | a book of one buy and one sell, a book with equal IDs, a run that settles and a run that a faulty signer breaks |
| `Decimal` | decimal fixed point on the trading page and in the Go tool |

Each contract is a class whose methods change storage in place. A method is
proved against the function of the same call (`Nightjar.NightjarAuction.SettleBatch`
against `Venue.Settle`), reverts included: on a revert every field, and both
tokens, are what they were. What those functions mean is stated again without
them in `Effects`: exactly when each call succeeds, whose balances move by how
much, and what stays. The theorems are proved about those functions and about
runs of them. `Clearing.Clear` is proved against the relation
`Auction.Clears`, which says nothing of loops, sorting or accumulators.

## What a run is

`System.Next` has three kinds of step: any outside account makes any call with
any arguments, a submitted order is delivered to an enclave, or a request to
run is delivered to an enclave, which clears its book and may sign. Transport
may delay, reorder, repeat or drop instructions, and oracle readings and times
are arbitrary. Addresses that are not honest enclaves may sign anything; an
honest enclave's signature appears only on what it signed.

`System.Run` is any sequence of such steps from deployment, whoever is faulty.
Solvency, custody, the signer registry, the gateway's accounts, one credit per
payment, distinct order IDs, order counts and agreement between honest enclaves
are proved for all of them, so a compromised quorum is covered
(`SystemTheorems.FaultyQuorumBounded` says what it cannot do).
`System.TrustedRun` adds one assumption, and only at the steps where a
settlement executes: fewer registered signers than the threshold are anything
but honest enclaves. A call of settle that reverts asks for no trust.
`Example.SomeRunSettles` exhibits such a run, in which a batch settles.

`settle` does not compare the batch in the payload with the current one
(contracts/InstructionSender.sol:397-401, 437-438). On its own it keeps the batch
sequence exactly when the payload names the current batch
(`System.SettleKeepsSequenceExactly`), and `Example.RogueBreaksSequence` is a run
in which one faulty signer settles a later batch and breaks it. Over trusted
runs the sequence holds, because an honest enclave signs only batches the venue
asked it to run (`System.SettlesCurrent`); cancelling always keeps it.

## Where the code and its own words differ

* An honestly cleared batch can be unsettleable. Quote is truncated order by
  order, while `settle` wants the deltas to sum to exactly zero.
  `Allocation.TruncationBound` bounds the residual,
  `Truncation.HonestBatchSettlesExactly` says exactly when the venue settles,
  and `Truncation.HonestBatchCanBeRejected` gives a book of three orders that
  clears and is refused. Books whose sizes are whole lots and whose limits are
  whole ticks, with PRICE_SCALE dividing lot times tick, never are
  (`Truncation.GridPasses`). The comment that settlements conserve both assets
  (contracts/InstructionSender.sol:376-379) is a check, not something `Clear`
  achieves.
* One trader who cannot pay stops the whole batch:
  `VenueTheorems.ApplyFillsExactly`.
* The comment at go/internal/matching/matching.go:59-62 says that two enclaves
  with the same book always agree. They do when the orders have distinct IDs
  (`Allocation.OrderIndependent`), which the venue guarantees
  (`Agreement.QuorumCanAgree`); a book with equal IDs can clear to two outcomes
  (`Ties.EqualIdsDisagree`).
* The comment at contracts/InstructionSender.sol:236-237 says that the
  threshold cannot exceed the number registered. In any run it is at most that
  number exactly when an enclave is registered; before, it is 1 and the number
  is 0 (`SystemTheorems.ThresholdWithinSigners`).
* The comment at contracts/XrplGateway.sol:198-200 says that the gateway mirrors
  the auction's oracle read. The prices agree (`Gateway.OracleReadsAgree`), but
  the gateway accepts readings of any age, and the venue accepts a zero value or
  timestamp; `Gateway.OracleReadsDiffer` says exactly which only one accepts.
* Packing a number that does not fit its word keeps it modulo 2^256, and order
  sizes and limits have no upper bound in the enclave. A buy and a sell of size
  2^256 clear in full and the venue settles them as a batch that moves nothing
  (`Overflow.HugeBatchVanishes`). This rests on how the packing library treats
  such numbers, and the library is not in the repository. The settlement the venue decodes is the one
  computed exactly when every number in it fits (`Codec.RoundTripExactly`);
  `Overflow.ClearedInRange` gives a condition on the orders that ensures it,
  met by any 2^64 orders whose sizes and limits are at most 2^96
  (`Overflow.CappedFits`).
* The trading page and the Go tool do not accept the same strings: the page
  ignores surrounding space, and the tool takes a sign in front of the whole
  part and of the fraction (`Decimal.PageOnly`, `Decimal.ToolOnly`), so that it
  reads -1.5 as half above minus one (`Decimal.MinusReads`). The page prints a
  negative value with a sign in front of the whole part and another inside the
  fraction (`Decimal.NegativePrints`).

## Model

| member | source | states |
|---|---|---|
| `Clearing.Clear` | go/internal/matching/matching.go:57-109 | The outcome is one `Auction.Clears` allows: no-cross only when no limit price trades; otherwise the price is the limit that beats every other limit, out-of-band exactly when it breaks the tolerance, and else the fills are the per-trader sums of a price-then-ID greedy fill of exactly the matched volume |
| `Clearing.ScanPrices` | go/internal/matching/matching.go:74-91 | Over any ascending candidates, the scan ends with the one that beats every other that trades, or none when none trades |
| `Clearing.KeepBest` | go/internal/matching/matching.go:88-90 | Replacing the incumbent by a better candidate keeps it better than everything scanned, because the comparison is transitive and total |
| `Clearing.DepthAt` | go/internal/matching/matching.go:145-162 | The two running sums are the total buy interest at or above the price and the total sell interest at or below it |
| `Clearing.CandidatePrices` | go/internal/matching/matching.go:129-143 | The result has every limit price and nothing else, strictly ascending, so each once |
| `Clearing.EligibleOrders` | go/internal/matching/matching.go:236-251 | Each side is exactly the orders of that side whose limit accepts the price, in arrival order |
| `Clearing.SortSlice` | go/internal/matching/matching.go:141 | In-place sorting permutes the array and leaves it ordered, for any comparison that is a strict order up to ties |
| `Clearing.SortSide` | go/internal/matching/matching.go:169-181 | A side is permuted into priority: better price first, then lower ID |
| `Clearing.FillSide` | go/internal/matching/matching.go:201-223 | The early-stopping loop posts exactly the trades of a greedy fill of the whole volume, and counts them |
| `Clearing.Allocate` | go/internal/matching/matching.go:164-234 | The fills are both sides' greedy trades at one price summed per trader, and the traded count is the number of trades |
| `Clearing.Positions.AddPosts` | go/internal/matching/matching.go:187-199 | The map with its first-touch order behaves as one list of distinct traders to which trades are added |
| `Clearing.Positions.AddValid` | go/internal/matching/matching.go:191-199 | Touching a trader keeps the map and the first-touch order in step, each trader once |
| `AuctionTheorems.VolumeOptimal` | go/internal/matching/matching.go:59-62 | The chosen price matches at least as much volume as any integer price, not only the limits scanned |
| `AuctionTheorems.LimitMatchesAnyPrice` | go/internal/matching/matching.go:129-131 | Whatever volume trades at some price, some limit price trades as much: why scanning limits is enough |
| `AuctionTheorems.DepthMonotone` | go/internal/matching/matching.go:145-162 | Demand falls and supply rises with the price |
| `AuctionTheorems.DepthIs` | go/internal/matching/matching.go:145-162 | Depth is the sizes of the side-0 orders limited at the price or above, or of the side-1 orders limited at it or below; the matched volume is the smaller of the two |
| `AuctionTheorems.NoCrossExactly` | go/internal/matching/matching.go:93-95 | No-cross is returned exactly when no buy with size reaches a sell with size |
| `AuctionTheorems.PriceBetween` | go/internal/matching/matching.go:80-91 | The chosen price lies between the limits of a sell and a buy that cross |
| `AuctionTheorems.BeatsTotal` | go/internal/matching/matching.go:111-127 | Of two distinct prices exactly one beats the other |
| `AuctionTheorems.BeatsTransitive` | go/internal/matching/matching.go:111-127 | The four-level tie-break is transitive |
| `AuctionTheorems.BestUnique` | go/internal/matching/matching.go:59-62 | At most one price is best |
| `AuctionTheorems.TieBreak` | go/internal/matching/matching.go:111-127 | Of two limits that match the same volume, the chosen one has the smaller gap between demand and supply; at equal gaps it is the nearer to a positive reference; and failing that the lower |
| `AuctionTheorems.TakesSum` | go/internal/matching/matching.go:201-223 | Each order gives at most its size, and together they give the volume or all the side has |
| `AuctionTheorems.FullBeforeTouched` | go/internal/matching/matching.go:201-223 | An order trades only when every order before it is full |
| `AuctionTheorems.ResidualDepth` | go/internal/matching/matching.go:145-223 | At the limit of an order left unfilled, its side has more interest than the matched volume |
| `AuctionTheorems.Stable` | go/internal/matching/matching.go:67-109 | After clearing, no buy with size left reaches a sell with size left: the residual book is uncrossed |
| `Efficiency.Efficient` | go/internal/matching/matching.go:67-234 | No allocation with fills within sizes and bought equal to sold has greater gains from trade than the fills of a cleared batch |
| `Efficiency.FillsFeasible` | go/internal/matching/matching.go:201-226 | Those fills are themselves such an allocation |
| `Efficiency.SupportingPrice` | go/internal/matching/matching.go:67-234 | Some price leaves every filled order no better off unfilled and every unfilled one no better off filled |
| `Efficiency.WeakDuality` | go/internal/matching/matching.go:67-234 | At no price can an allocation gain more than the traders' surplus at it plus the price of its imbalance |
| `Allocation.BaseConserved` | go/internal/matching/matching.go:183-226 | Each side trades exactly the matched volume, and base deltas sum to zero |
| `Allocation.FillsAggregate` | go/internal/matching/matching.go:187-233 | Fills list distinct traders, exactly those with an order that traded, each with the sums of its per-order base and quote |
| `Allocation.EntryIs` | go/internal/matching/matching.go:201-233 | A trader's entry buys what its buys take less what its sells take, and for each of its orders the take times the one price over 10^18, rounded down, goes the other way |
| `Allocation.FillsInOrder` | go/internal/matching/matching.go:187-233 | Fills list the traders in the order they first trade, all buys in priority order before the sells |
| `Allocation.UnmatchedCounts` | go/internal/matching/matching.go:103-108 | Unmatched plus the orders touched on either side is the number of orders, and is not negative |
| `Allocation.LimitRespected` | go/internal/matching/matching.go:166-226 | Every filled order is one of the book that accepts the price; a buy costs at most its limit's quote and a sell earns at least its own |
| `Allocation.PriorityRespected` | go/internal/matching/matching.go:169-223 | No order trades before one with a better price (higher for buys, lower for sells), or an equal price and a lower ID, is full |
| `Allocation.OnePartialFill` | go/internal/matching/matching.go:201-223 | Whenever one order of a side trades and another has size left, the first is ahead, and is full if the second trades at all |
| `Allocation.ResidualIsDropped` | go/internal/matching/matching.go:47-55 | The quote deltas sum to exactly what truncation drops from the buys less what it drops from the sells |
| `Allocation.TruncationBound` | go/internal/matching/matching.go:201-226 | With nb buys and ns sells trading, that sum lies between -(ns - 1) and nb - 1 |
| `Allocation.QuoteConservedExactly` | go/internal/matching/matching.go:201-226 | Quote nets to zero exactly when both sides drop the same; in particular when the scale divides the price or one order trades on each side |
| `Lots.GridConservesQuote` | go/internal/matching/matching.go:47-55 | If every size is a whole number of lots, every limit a whole number of ticks and the price scale divides lot times tick, every outcome that trades conserves quote exactly |
| `Overflow.CappedFits` | go/internal/extension/extension.go:200-207 | Up to 2^64 orders with sizes and limits of at most 2^96 each satisfy the condition of the next row |
| `Overflow.ClearedInRange` | go/pkg/types/types.go:180-194 | If the whole book's size, and its worth at any limit in it, stay below the signed range, every price, volume and delta `Clear` makes of it fits its word |
| `Overflow.EntryWithin` | go/internal/matching/matching.go:201-226 | No trader's base entry exceeds the matched volume, nor its quote entry the worth of that volume |
| `Overflow.HugeBatchVanishes` | contracts/InstructionSender.sol:388-450 | A buy and a sell of size 2^256 clear in full, their settlement is out of range, and the venue reads it as matching nothing and closes the batch without moving a balance |
| `Pairs.PairClears` | go/internal/matching/matching.go:57-109 | One buy and one sell of one size that meet at one limit trade in full with each other, at any reference that allows the limit |
| `Allocation.ClearedBatch` | go/internal/matching/matching.go:57-109 | Every outcome of `Clear` that trades comes from fills that trade as much as any price could, at the limit the documented tie-breaks prefer, leave no crossing pair unfilled, gain as much as any feasible allocation and net base to zero |
| `Allocation.OrderIndependent` | go/internal/matching/matching.go:59-62 | Clearing any permutation of a book with distinct IDs gives the same outcome: error, price, volume, fill sequence and unmatched count |
| `Allocation.PriorityUnique` | go/internal/matching/matching.go:169-181 | With distinct IDs there is only one listing of a side in priority order |
| `Ties.EqualIdsDisagree` | go/internal/matching/matching.go:59-62 | A book in which two buys share price and ID clears to two different outcomes |
| `Codec.EncodeSettlement` | go/pkg/types/types.go:180-194 | The loop over fills packs the payload in the layout `Codec.Encode` defines |
| `Codec.DecodeEncoded` | contracts/InstructionSender.sol:388-395 | Decoding what was packed gives the same settlement with each number reduced into its type's range, for any number of fills below 2^64, and never another batch |
| `Codec.RoundTripExactly` | go/pkg/types/types.go:176-194 | A settlement survives packing and decoding exactly when every number is in range |
| `Codec.EncodingInjective` | go/pkg/types/types.go:176-194 | Equal signed words mean equal settlements |
| `Codec.DecodedShort` | contracts/InstructionSender.sol:388-395 | Whatever decodes is in range, whoever made the payload |
| `Codec.Layout` | go/pkg/types/types.go:166-194 | The packed words are chain, venue, batch, price, volume, the offset 192, the number of fills, then trader, base and quote of each, numbers modulo 2^256 |
| `Codec.DecodesExactly` | contracts/InstructionSender.sol:388-395 | The decoder refuses a payload exactly when a word is out of its type's range, the array's offset is off a word or outside, or its elements do not fit |
| `Codec.DecodeReads` | contracts/InstructionSender.sol:388-395 | From any other payload it reads the head in order and, at the array's offset, its length and three words a fill, the deltas signed |
| `Token.TestUSD.MintTo` | contracts/TestUSD.sol:26-30 | Credits the account and the supply, or reverts on overflow changing nothing |
| `Token.TestUSD.TransferTo` | contracts/TestUSD.sol:32-38 | Moves the amount, also to oneself, or reverts changing nothing |
| `Token.TestUSD.ApproveSpender` | contracts/TestUSD.sol:40-44 | Sets one allowance and nothing else |
| `Token.TestUSD.TransferFromTo` | contracts/TestUSD.sol:46-57 | Moves the amount and spends the allowance unless it is unlimited, or reverts changing nothing |
| `Token.MintSound` | contracts/TestUSD.sol:26-30 | Minting keeps the balances adding up to the supply |
| `Token.MoveKeepsTotal` | contracts/TestUSD.sol:32-57 | While balances add up to a supply that fits a word, a transfer fails only for want of balance, and keeps the total |
| `Token.MoveMoves` | contracts/TestUSD.sol:32-57 | A transfer changes the sender's and the receiver's balances by the amount and no other balance |
| `Nightjar.NightjarAuction.constructor` | contracts/InstructionSender.sol:190-209 | A new venue has no signers or balances, a threshold of one, and its first batch and order numbered 1 |
| `Nightjar.NightjarAuction.Register` | contracts/InstructionSender.sol:226-234 | Only the owner adds a signer; set and list grow together, a repeat changes nothing |
| `Nightjar.NightjarAuction.SetThreshold` | contracts/InstructionSender.sol:236-242 | Only the owner, and only to between 1 and the number of signers |
| `Nightjar.NightjarAuction.SetDeviation` | contracts/InstructionSender.sol:254-256 | Only the owner changes the tolerance, and only that changes |
| `Nightjar.NightjarAuction.ConfigureFee` | contracts/InstructionSender.sol:258-266 | Only the owner, at most the fixed ceiling, and never to the zero address |
| `Nightjar.NightjarAuction.PullLeg` | contracts/InstructionSender.sol:296-303 | Tokens move in and the trader is credited the same amount, or neither |
| `Nightjar.NightjarAuction.Deposit` | contracts/InstructionSender.sol:274-305 | Both legs happen or neither: a failing quote leg undoes the base leg, token included |
| `Nightjar.NightjarAuction.DepositForTrader` | contracts/InstructionSender.sol:289-292 | The caller's tokens become the named trader's balance, which may not be the zero address |
| `Nightjar.NightjarAuction.PushLeg` | contracts/InstructionSender.sol:313-320 | The trader is debited what leaves in tokens, or neither |
| `Nightjar.NightjarAuction.WithdrawFunds` | contracts/InstructionSender.sol:307-322 | Refused while locked in an unsettled batch or beyond either balance; otherwise pays out both legs or neither |
| `Nightjar.NightjarAuction.Submit` | contracts/InstructionSender.sol:329-348 | Takes the next order ID, locks the sender in the current batch, counts the order and sends it attributed to the sender |
| `Nightjar.NightjarAuction.RequestRun` | contracts/InstructionSender.sol:352-371 | Asks for the current batch at the oracle's price, if it has orders, and changes no storage |
| `Nightjar.NightjarAuction.CheckQuorum` | contracts/InstructionSender.sol:544-557 | The loop over signers accepts and refuses, with the same error, as the check `VenueTheorems.QuorumExactly` characterises |
| `Nightjar.NightjarAuction.SumDeltas` | contracts/InstructionSender.sol:405-411 | The two running sums, reverting when either leaves int256 at any step |
| `Nightjar.NightjarAuction.CheckTerms` | contracts/InstructionSender.sol:397-416 | Chain, venue, batch, oracle, band and conservation, in that order, each with its own error |
| `Nightjar.NightjarAuction.ApplyDelta` | contracts/InstructionSender.sol:419-429 | One fill moves its trader's two balances, less the fee, or reverts |
| `Nightjar.NightjarAuction.ApplyAll` | contracts/InstructionSender.sol:418-429 | The loop applies all fills in order, one after the other on the balances the last one left |
| `Nightjar.NightjarAuction.Collect` | contracts/InstructionSender.sol:431-435 | The batch's fees reach the recipient's balance and the running total, or revert |
| `Nightjar.NightjarAuction.Close` | contracts/InstructionSender.sol:437-447 | Marks the batch settled, moves to the next and records the result, or reverts at the last batch number |
| `Nightjar.NightjarAuction.SettleBatch` | contracts/InstructionSender.sol:383-450 | The whole of settle: on success the state `Venue.Settle` gives, and on any revert, in the middle of the fills included, every field as it was |
| `Nightjar.NightjarAuction.MoveAll` | contracts/InstructionSender.sol:418-435 | The fills and their fees move together: on success the balances, the recipient's and the fee total are those of all fills applied in order |
| `Nightjar.NightjarAuction.ExecuteFills` | contracts/InstructionSender.sol:418-447 | The fills execute in full or leave every field as it was; the source has no restoring code, the chain does this to a call that reverts, and the method writes it out |
| `Nightjar.NightjarAuction.Cancel` | contracts/InstructionSender.sol:452-467 | Only the owner closes the current batch, without moving a balance |
| `VenueTheorems.QuorumExactly` | contracts/InstructionSender.sol:538-557 | A quorum passes exactly when there are at least the threshold of signers, all registered, strictly increasing and non-zero |
| `VenueTheorems.QuorumIsSet` | contracts/InstructionSender.sol:541-543 | So no signer counts twice: they form a set of at least the threshold of registered addresses |
| `VenueTheorems.QuorumHasHonest` | contracts/InstructionSender.sol:538-557 | With fewer faulty registered signers than the threshold, an honest enclave signed |
| `VenueTheorems.BandsAgree` | contracts/InstructionSender.sol:510-515 | The venue's band and the engine's give the same verdict wherever the venue's products fit a word, and elsewhere the venue reverts |
| `VenueTheorems.OutOfBandExactly` | go/internal/matching/matching.go:97-99 | For the price `Clear` chose, the venue's verdict is overflow where its products do not fit a word, otherwise out-of-band exactly when `Clear` reported that, and otherwise a pass |
| `VenueTheorems.FeeBounded` | contracts/InstructionSender.sol:421-428 | A fee is at most 30 bps of the notional and never turns a receipt into a payment |
| `VenueTheorems.FeeExactly` | contracts/InstructionSender.sol:421-422 | The fee is the largest whole amount within feeBps ten-thousandths of the notional |
| `VenueTheorems.NetDeltasExactly` | contracts/InstructionSender.sol:405-411 | The sums succeed exactly when every running sum of the deltas stays within int256 |
| `VenueTheorems.ApplyFillDone` | contracts/InstructionSender.sol:419-429 | One fill applies exactly when its trader can pay it with the fee and every number fits its word |
| `VenueTheorems.SettleChecks` | contracts/InstructionSender.sol:383-450 | A settlement that executes had a quorum, this chain and venue, an unsettled batch and deltas that sum to zero; it settles that batch alone and touches no other part of the state |
| `VenueTheorems.SettleInBand` | contracts/InstructionSender.sol:510-515 | A settled price is within the tolerance of the oracle reading at settlement |
| `VenueTheorems.SettleConserves` | contracts/InstructionSender.sol:405-435 | Total base and total quote, counting the fee recipient, are the same before and after |
| `VenueTheorems.SettlePerTrader` | contracts/InstructionSender.sol:418-435 | Every balance moves by exactly the sum of its fills less their fees, plus all fees for the recipient, even when a trader repeats or is the recipient |
| `VenueTheorems.SettleTouchesOnlyNamed` | contracts/InstructionSender.sol:418-435 | Nobody else's balance changes |
| `VenueTheorems.ApplyFillsExactly` | contracts/InstructionSender.sol:418-429 | Fills of distinct traders apply exactly when every trader named can pay, fee included, on the balances held before the batch |
| `VenueTheorems.DepositKeepsSolvent` | contracts/InstructionSender.sol:294-305 | A deposit keeps the venue holding at least what it owes in each token |
| `VenueTheorems.WithdrawExactly` | contracts/InstructionSender.sol:307-322 | From a solvent venue a withdrawal succeeds exactly when the trader is unlocked and asks for no more than its balances, and the venue stays solvent |
| `Truncation.TruncationVerdict` | contracts/InstructionSender.sol:413-416 | Past the checks before it, an honest settlement passes the conservation check exactly when truncation dropped as much from the buys as from the sells; whether the fills then apply is the row after next |
| `Truncation.GridPasses` | contracts/InstructionSender.sol:413-416 | A book on a grid of lots and ticks passes the conservation check |
| `Truncation.HonestBatchSettlesExactly` | contracts/InstructionSender.sol:383-450 | Given a quorum, the checks before conservation and room in the words, an honest settlement executes exactly when truncation is even-handed and every trader named can pay |
| `Truncation.HonestBatchCanBeRejected` | contracts/InstructionSender.sol:413-416 | A book of three orders that clears at any reference allowing its price, and that every venue then refuses for quote conservation |
| `Gateway.XrplGateway.constructor` | contracts/XrplGateway.sol:134-150 | Nothing claimed, and the venue approved without limit on the float |
| `Gateway.XrplGateway.FundTrader` | contracts/XrplGateway.sol:152-196 | The claim, the total and the deposit through the venue all happen or none does, with the source's errors in its order |
| `Gateway.XrplGateway.RemainingCapacity` | contracts/XrplGateway.sol:211-218 | The float's worth in drops at the oracle price, reverting on a stale price or overflow |
| `Gateway.XrplGateway.Drain` | contracts/XrplGateway.sol:222-227 | Only the owner moves float out, and no claim is reopened |
| `Gateway.XrplGateway.HandOver` | contracts/XrplGateway.sol:229-233 | Only the owner names a new one, never the zero address |
| `Gateway.OracleReadsAgree` | contracts/XrplGateway.sol:198-209 | Whenever both accept a reading, gateway and venue price XRP alike, at value * 10^18 / 10^decimals for either sign of the decimals |
| `Gateway.OracleReadsDiffer` | contracts/XrplGateway.sol:198-209 | Of the readings the gateway accepts, the venue refuses exactly those older than an hour, too near the end of time to tell, or with decimals below -18; of those the venue accepts, the gateway refuses exactly a zero value or timestamp |
| `Gateway.ReferencePriceExactly` | contracts/InstructionSender.sol:490-508 | The venue accepts exactly readings at most an hour old with decimals from -18 to 18 whose price fits a word, and prices them at value * 10^(18 - decimals) |
| `Gateway.XrpUsdExactly` | contracts/XrplGateway.sol:198-209 | The gateway accepts exactly readings with a value and a timestamp and decimals up to 18 whose price fits a word, and prices them the same |
| `Gateway.CheckPaymentExactly` | contracts/XrplGateway.sol:160-180 | A proof passes exactly when it is verified, of type Payment, from this source, successful, to this account, of a positive amount, unclaimed, and its reference names a non-zero address in its low 160 bits; each error names its fault |
| `Gateway.PriceExactly` | contracts/XrplGateway.sol:182-187 | A payment is worth its drops at the price over 10^18, rounded down, and is refused exactly when that is zero, exceeds the float or does not fit a word |
| `Gateway.RemainingCapacityExactly` | contracts/XrplGateway.sol:211-218 | The capacity is the float times 10^18 over the price, rounded down, and reverts exactly with the reading or on overflow |
| `Gateway.FloatCoversExactly` | contracts/XrplGateway.sol:182-187 | Exactly which payments the float check lets through |
| `Gateway.CapacityIsSafe` | contracts/XrplGateway.sol:211-218 | Any single payment within the advertised capacity passes the float check, and one of exactly that capacity leaves at most price/1e18 + 1 units |
| `Enclave.ParseSealedOrder` | go/internal/extension/extension.go:176-216 | An order is accepted exactly when it is well formed, belongs to the attributed trader, is a buy or a sell and has positive limit and size; its ID and trader are the chain's |
| `Enclave.OpensExactly` | go/internal/extension/extension.go:139-207 | A submission becomes an order exactly when its ciphertext opens to terms of the submitting trader, on side 0 or 1, with positive limit and size |
| `Enclave.Extension.constructor` | go/internal/extension/extension.go:47-53 | A new enclave has an empty book |
| `Enclave.Extension.ProcessSubmitOrder` | go/internal/extension/extension.go:130-174 | An order that opens and validates is appended to the book of its own batch; any other changes nothing |
| `Enclave.Extension.ProcessRunBatch` | go/internal/extension/extension.go:218-279 | Clears that batch's book: an empty book changes nothing, an uncleared one is dropped, a failed signature keeps it, and success signs the encoding of an outcome `Clears` allows and drops it |
| `Enclave.Extension.FinishBatch` | go/internal/extension/extension.go:237-262 | The three endings, with the counters of each |
| `Enclave.Extension.DropBook` | go/internal/extension/extension.go:281-287 | One batch's orders are forgotten and the others kept |
| `Enclave.DeliverFills` | go/internal/extension/extension.go:155-161 | After any deliveries a batch's book is what it was followed by that batch's valid orders |
| `Enclave.EnclavesAgree` | contracts/InstructionSender.sol:517-520 | Two enclaves sent the same orders of a batch, in any order, and the same request sign the same bytes or refuse alike |
| `Agreement.BookIsDelivered` | go/internal/extension/extension.go:155-161 | In any run an enclave's book of a batch is the valid ones among the orders the run delivered to it since it last gave the batch up, in delivery order |
| `Agreement.QuorumCanAgree` | contracts/InstructionSender.sol:517-520 | In any run, whoever is faulty: when two enclaves of the run were delivered the same orders of a batch, in whatever order, they answer the same request with the same bytes |
| `Agreement.AlwaysCountsSigned` | go/internal/extension/extension.go:256-262 | In any run the counter an enclave reports is the number of settlements it signed |
| `Agreement.StepCounts` | go/internal/extension/extension.go:256-262 | Signing raises the counter by one and records the price and volume of what was signed; no other step touches them |
| `Agreement.StepMovesOn` | go/internal/extension/extension.go:156-158 | The batch an enclave reports on is the one after the last it gave up, else the first it took an order for |
| `Chain.GenesisSafe` | contracts/InstructionSender.sol:190-209 | The contracts as deployed satisfy the invariant |
| `Chain.TokenCallKeeps` | contracts/TestUSD.sol:26-57 | No outside token call takes from an account that approved nobody, or changes its allowances |
| `Chain.CallSafe` | contracts/InstructionSender.sol:226-467 | No outside call to any of the four contracts, whatever its arguments, breaks solvency, custody of the tokens, the signer registry or the gateway's accounts |
| `Chain.CanAlwaysWithdraw` | contracts/InstructionSender.sol:307-322 | In a safe state an unlocked trader can withdraw all it has, and only that |
| `Chain.FundExactly` | contracts/XrplGateway.sol:152-196 | A payment is honoured exactly when it is verified, of the right type, source, status and destination, positive, unclaimed and names a trader; the reading is usable; its worth is positive and within the float; and nothing overflows: the deposit leg cannot fail |
| `Chain.FundMoves` | contracts/XrplGateway.sol:172-193 | An honoured payment moves its drops times the price over 10^18, rounded down, from the float to the venue's holding and to the address in the low 160 bits of its reference; claims its ID, adds its drops to the total, and changes nothing else |
| `Effects.MintingEffect` | contracts/TestUSD.sol:26-30 | Anyone mints exactly when balance and supply have room; that account and the supply grow by the amount, nothing else changes |
| `Effects.TransferringEffect` | contracts/TestUSD.sol:32-38 | Succeeds exactly when the sender has the amount and the receiver room; moves it between those two, and nothing else changes |
| `Effects.ApprovingEffect` | contracts/TestUSD.sol:40-44 | Sets the caller's allowance for one spender and no other |
| `Effects.TransferringFromEffect` | contracts/TestUSD.sol:46-57 | Succeeds exactly when allowance and balance cover the amount; moves it, and spends the allowance unless it is 2^256 - 1 |
| `Effects.DepositingEffect` | contracts/InstructionSender.sol:274-305 | Succeeds exactly when some amount is given and both legs can be paid and fit; the caller's tokens become the venue's and the caller is credited as many of each |
| `Effects.DepositingForEffect` | contracts/InstructionSender.sol:289-305 | The same with the named trader credited, who may not be the zero address; the caller pays |
| `Effects.WithdrawingEffect` | contracts/InstructionSender.sol:307-322 | Succeeds exactly when the slot names no unsettled batch and both balances and holdings cover the amounts; the caller is debited and paid by the venue, and nobody else changes |
| `Effects.SubmittingEffect` | contracts/InstructionSender.sol:329-348 | Succeeds exactly when there are signers, a ciphertext and room; locks the sender alone in the current batch, counts one order, takes one ID |
| `Effects.SubmittedRequest` | contracts/InstructionSender.sol:333-346 | The instruction carries that ID, that batch, the sender and its ciphertext |
| `Effects.RunningEffect` | contracts/InstructionSender.sol:352-371 | Succeeds exactly when there are signers, orders in the current batch and a usable reading, and changes nothing |
| `Effects.RunRequested` | contracts/InstructionSender.sol:359-366 | The instruction carries the current batch, the reading's price, the venue's tolerance, chain and address |
| `Effects.ChecksExactly` | contracts/InstructionSender.sol:397-416 | The payload's checks pass exactly for this chain and venue, an unsettled batch, a usable reading, a price in band and deltas that fit and sum to zero; each error names its fault |
| `Effects.QuorumIs` | contracts/InstructionSender.sol:544-557 | A quorum is at least the threshold of registered, non-zero, strictly increasing signers |
| `Effects.SignerErrors` | contracts/InstructionSender.sol:550-556 | Each refusal of signers names a fault one of them has |
| `Effects.FirstFault` | contracts/InstructionSender.sol:550-556 | The first signer at fault decides the error: not recovered, else not registered, else not above the one before |
| `Effects.SettlesExactly` | contracts/InstructionSender.sol:383-450 | Settle succeeds exactly with signers registered, a quorum, a payload that decodes and passes the checks, fills that apply, and room for the fees and the next batch |
| `Effects.SettleRefusals` | contracts/InstructionSender.sol:383-395 | Without signers, without enough signatures, or with a malformed payload, it reverts with that error |
| `Effects.SettlingEffect` | contracts/InstructionSender.sol:431-447 | It settles the payload's batch, makes the next one current, adds the fees to the total and records price, volume, fees, time and both counts |
| `Effects.SettlingPays` | contracts/InstructionSender.sol:418-435 | Every account's balances move by the sum of its fills, less feeBps ten-thousandths of each, rounded down, and the recipient gets the sum of all charges |
| `Effects.CancellingEffect` | contracts/InstructionSender.sol:452-467 | Only the owner, short of the last batch number; the current batch is settled with an empty record and no balance moves |
| `Effects.DeploymentTerms` | contracts/InstructionSender.sol:79-119 | A new venue has no signers, one signature to settle, a tolerance of 5%, a fee of 5 basis points to its deployer, first batch and order numbered 1, and empty books |
| `Effects.AddingTeeEffect` | contracts/InstructionSender.sol:226-234 | Only the owner, and not the zero address; the signer joins set and list unless already there |
| `Effects.SettingEffects` | contracts/InstructionSender.sol:236-266 | Threshold, tolerance and fee: only the owner, within 1 to the number of signers and up to 30 bps to a non-zero recipient, and only that field changes |
| `Effects.DrainingEffect` | contracts/XrplGateway.sol:222-227 | Only the gateway's owner, to a non-zero address the float covers; only those two token balances move |
| `Effects.HandingOverEffect` | contracts/XrplGateway.sol:229-233 | Only the gateway's owner, to a non-zero address, and only the owner changes |
| `Authority.OnlyOwnerConfigures` | contracts/InstructionSender.sol:226-266 | Over any step of the system, the signers, threshold, tolerance and fee change only by a call of the venue's owner, to what that call says |
| `Authority.OnlySettlingOrOwnerCloses` | contracts/InstructionSender.sol:437-457 | Over any step, a batch closes only by a settlement that executes or the owner's cancellation |
| `Authority.OnlyOwnHandsTake` | contracts/InstructionSender.sol:286-322 | Over any step, a trader's balance falls only by its own withdrawal or a settlement that executes |
| `Authority.OnlyOwnerDrains` | contracts/XrplGateway.sol:220-227 | Over any step from a safe state, the float falls only by honouring a payment or by its owner's call |
| `Authority.OnlyOwnerHandsOver` | contracts/XrplGateway.sol:229-233 | Over any step, the gateway's owner changes only by its own call naming the new one |
| `System.QuorumVouches` | contracts/InstructionSender.sol:383-386 | Among the signers of a quorum is an honest enclave that did sign the payload, which is what `Clear` makes of some orders submitted to the batch, for a request the venue sent; which orders is the row on `Provenance.SettlementSource` |
| `System.SettleKeepsSequenceExactly` | contracts/InstructionSender.sol:397-401 | A settle that executes keeps the batch sequence exactly when its payload names the current batch |
| `System.CancelKeepsSequence` | contracts/InstructionSender.sol:452-467 | Cancelling keeps the batch sequence |
| `System.SettlesCurrent` | contracts/InstructionSender.sol:437-438 | A settlement that executes is for the current batch, though the contract does not check it |
| `System.StepKeepsBasics` | contracts/InstructionSender.sol:226-467 | Every step, whoever is faulty, keeps the contracts safe, order IDs distinct, honest books made of submitted orders and honest signatures made by `Clear` |
| `System.RunBasics` | contracts/InstructionSender.sol:226-467 | So they hold in every reachable state |
| `System.StepKeepsProtocol` | contracts/InstructionSender.sol:329-467 | Every step keeps the whole protocol invariant, trusting the quorum only if the step executes a settlement |
| `System.RunProtocol` | contracts/InstructionSender.sol:329-467 | So every state of a trusted run satisfies it |
| `SystemTheorems.BatchSequence` | contracts/InstructionSender.sol:437-457 | In every state of a trusted run, batch b is settled exactly when 1 <= b < the current batch |
| `SystemTheorems.SettledOnce` | contracts/InstructionSender.sol:401 | In a trusted run every executed settlement is for a batch before the current one, and later settlements are for later batches |
| `SystemTheorems.SlotNamesBatch` | contracts/InstructionSender.sol:112-114 | In a trusted run, a trader with an order in an unsettled batch is locked in it, and it is the current one: a single slot per trader is enough |
| `SystemTheorems.LockedBalancesHold` | contracts/InstructionSender.sol:307-322 | In a trusted run, from locking until its batch settles, a trader's balances never fall, over any steps in between |
| `SystemTheorems.CancelReleases` | contracts/InstructionSender.sol:452-467 | In any state of a trusted run short of the last batch number, the owner's cancellation succeeds and unlocks every trader |
| `Provenance.SettlementSource` | go/internal/extension/extension.go:218-279 | Every payload executed in a trusted run is, byte for byte, what an honest enclave signed at an earlier step of the run: `Clear` of exactly the valid orders the run had delivered to that enclave for the batch since it last gave it up |
| `Provenance.RequestedAt` | contracts/InstructionSender.sol:352-371 | In any run every request to run was sent at an earlier step by a call of runBatch: for the batch then current, which had orders, at the price of that call's own reading, with the tolerance, chain and address of the venue then |
| `Provenance.SubmittedAt` | contracts/InstructionSender.sol:329-348 | In any run every order was submitted at an earlier step by the trader it is attributed to, with that ciphertext, for the batch and ID then current |
| `SystemTheorems.QuorumSafety` | contracts/InstructionSender.sol:373-382 | For every settlement executed in a trusted run there is an earlier step at which an honest enclave signed it, computed with `Clear` from the orders delivered to it, and a still earlier one at which the venue asked for it: base nets to zero, the price is within the tolerance then set of the price then read, the fills name only that batch's submitters, and when the orders fit words the venue reads exactly that price, volume and fills |
| `SystemTheorems.LimitsHonoured` | go/internal/matching/matching.go:166-226 | When a settlement executes in a trusted run and its orders fit words, each trader named gets the net base of its own delivered orders, and pays no more quote and earns no less than their limits allow for it, but for the fee |
| `Allocation.EntryWithinLimits` | go/internal/matching/matching.go:201-226 | A trader's entry, over all its orders on both sides, costs no more and earns no less than those orders trading the same base at their own limits |
| `SystemTheorems.OnlySubmittersMove` | contracts/InstructionSender.sol:418-435 | In a trusted run a settlement changes no balance but those of its batch's submitters and the fee recipient |
| `SystemTheorems.AlwaysSolvent` | contracts/InstructionSender.sol:294-322 | In any run, whoever is faulty, the venue holds what it owes in each token, and a trader's withdrawal succeeds exactly when it is unlocked and within its balances |
| `SystemTheorems.AlwaysAccounted` | contracts/XrplGateway.sol:101-105 | In any run, whoever is faulty, the signer set and list agree without duplicates, the threshold is between 1 and the larger of 1 and the number of signers, the fee is within its ceiling, and the gateway's total is the sum of the drops of the payments it honoured |
| `SystemTheorems.ThresholdWithinSigners` | contracts/InstructionSender.sol:236-242 | In any run the threshold is at most the number of signers exactly when there is a signer |
| `SystemTheorems.HonouredStays` | contracts/XrplGateway.sol:172-174 | In any run a payment honoured once keeps its one credit for ever |
| `SystemTheorems.HonouredOnce` | contracts/XrplGateway.sol:101-102 | In any run presenting it again, with any proof, price or float, reverts |
| `SystemTheorems.FaultyQuorumBounded` | contracts/InstructionSender.sol:376-379 | In any run a settlement, whoever signed it, keeps the totals of base and quote and, if it executes, has a price within the tolerance of the reading it was checked against |
| `Example.SomeRunSettles` | contracts/InstructionSender.sol:383-450 | There is a trusted run in which two traders deposit, submit and are settled: each ends with the other's token, and unlocked |
| `Example.RogueBreaksSequence` | contracts/InstructionSender.sol:397-438 | There is a run in which one faulty signer settles batch 7 first, passing over batches 1 to 6: the sequence is not kept and the run is not a trusted one |
| `History.AlwaysRecorded` | contracts/InstructionSender.sol:121-136 | In every state of a trusted run the record has exactly the settled batches, holds the price and volume of each settlement executed, whose deltas net to zero, and its fees add up to the fees collected |
| `History.AlwaysTallied` | contracts/InstructionSender.sol:121-136 | In a trusted run the entry of a settled batch counts exactly the orders submitted to it |
| `History.AlwaysCounted` | contracts/InstructionSender.sol:117-119 | In any run each batch's counter is the number of orders submitted to it, and every request sent is for a batch with orders at a price the oracle gave |
| `Decimal.SplitExactly` | frontend/lib/seal.ts:55-58 | The parser's pattern accepts exactly a run of digits, optionally followed by a point and another run |
| `Decimal.PrintRoundsDown` | frontend/lib/seal.ts:44-81 | Printing with at least one place and parsing back rounds down to a multiple of the last place printed |
| `Decimal.RoundTripExactly` | frontend/lib/seal.ts:44-81 | A printed value parses back to itself exactly when it is not negative and at least one place, and every non-zero one, was printed |
| `Decimal.ToolsAgree` | tools/cmd/run-test/main.go:465-483 | Whatever the page accepts, the Go tool reads as the same number once surrounding space is removed, fractions longer than the scale included |
| `Decimal.PageOnly` | tools/cmd/run-test/main.go:465-483 | Of what the page accepts, the tool refuses exactly what has space around it, and reads the rest as the same number |
| `Decimal.ToolOnly` | frontend/lib/seal.ts:52-61 | Of what the tool accepts, the page refuses exactly what has a sign before the whole part or the fraction |
| `Decimal.TrimIs` | frontend/lib/seal.ts:54 | Trimming takes the white space off both ends, all of it and nothing else |
| `Decimal.SpacesAre` | frontend/lib/seal.ts:54 | White space is the 25 code points that ECMAScript's trim removes |
| `Decimal.NegativePrints` | frontend/lib/seal.ts:44-81 | A negative value prints whole part and remainder each with its own sign |
| `Decimal.SignedReads` | tools/cmd/run-test/main.go:468-477 | The tool reads one leading sign on a run of digits |
| `Decimal.MinusReads` | tools/cmd/run-test/main.go:466-483 | It reads -1.5 as half above minus one, because the fraction does not take the whole part's sign |
| `Decimal.PriceDecimals` | go/pkg/types/types.go:13-15 | Eighteen decimals are the price scale |
| `Types.Widths` | contracts/InstructionSender.sol:103-136 | The word, address and counter widths are those of uint256, int256, address, uint64, uint32, uint16 and uint8 |

## Left out

- Servers, JSON envelopes, logging, operation-code routing, the state endpoint, deployment and registration tools, web pages: plumbing around the steps modelled.
- Hashing, signature recovery and encryption are ideal: a signer list is what recovery returned, with zero for a signature it rejects; a ciphertext is what it opens to.
- The price feed, the payment verifier and the instruction registry are inputs: a reading, a verdict, and whether sending succeeded.
- The random choice of enclaves for an instruction is replaced by arbitrary delivery: any enclave may receive any instruction sent, any number of times, or never. That enclaves agree is proved for those sent the same orders.
- Reentrancy, gas, events, contract addresses without code, the extension ID and interleaving inside an enclave's handlers: calls and handlers are atomic.
- Enclave restarts: an enclave that loses its book is covered only as one that was never sent the orders again.
- Confidentiality: the clearing price can depend on limits of orders that never trade, so no claim is made.
- contracts/TransparentVenue.sol: a control venue whose conservation and fill-once claims are easier copies of these.
- Both tokens are modelled by contracts/TestUSD.sol and are distinct; one token on both sides is outside the model.
- Clearing.SortSlice: the library sort is modelled as an insertion sort; ties come out in one of the orders a sort may choose, and `Clears` allows all of them.
- Clearing.Clear: orders of negative size, which order validation refuses, are not modelled; an absent reference is modelled as zero, which the code treats alike.
- Codec.DecodeEncoded: payloads are words rather than bytes; a payload whose array starts off a word boundary is refused by the model and accepted by the contract's decoder.
- Codec.EncodeSettlement: the packing library is not part of the repository; numbers are packed as two's complement modulo 2^256.
- Decimal.RoundTripExactly: places and decimals are natural numbers; strings are sequences of characters.
- Nightjar.NightjarAuction.constructor: the checks that the registries and tokens are non-zero addresses with code are not modelled.
- Gateway.XrplGateway.constructor: the checks for zero arguments are not modelled.
