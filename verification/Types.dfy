// The values the auction, the venue, the gateway and the enclave exchange
// (go/pkg/types/types.go, contracts/InstructionSender.sol).
module Types {

  datatype Option<+T> = None | Some(value: T)

  const ADDRESS_LIMIT: int := 0x1_0000000000_0000000000_0000000000_0000000000
  const U8: int := 0x100
  const U16: int := 0x1_0000
  const U32: int := 0x1_0000_0000
  const U64: int := 0x1_0000_0000_0000_0000
  const U256: int := 0x1_00000000_00000000_00000000_00000000_00000000_00000000_00000000_00000000
  const I256: int := 0x80000000_00000000_00000000_00000000_00000000_00000000_00000000_00000000

  // The integer widths of the contracts, and the price scale.
  lemma Widths()
    ensures U8 == 256 && U16 == U8 * U8 && U32 == U16 * U16 && U64 == U32 * U32
    ensures U256 == U64 * U64 * U64 * U64 == 2 * I256
    ensures ADDRESS_LIMIT == U64 * U64 * U32
    ensures PRICE_SCALE == 1000 * 1000 * 1000 * 1000 * 1000 * 1000
  {
  }

  type Address = a: nat | a < ADDRESS_LIMIT
  type Uint8 = n: nat | n < U8
  type Uint16 = n: nat | n < U16
  type Uint32 = n: nat | n < U32
  type Uint64 = n: nat | n < U64
  type Uint256 = n: nat | n < U256

  const ZERO_ADDRESS: Address := 0

  // A limit of PRICE_SCALE offers one quote unit for one base unit.
  const PRICE_SCALE: int := 1_000_000_000_000_000_000

  // Side is a uint8 on the wire; any other code is an order no side trades.
  const SIDE_BUY: nat := 0
  const SIDE_SELL: nat := 1

  datatype Order = Order(id: nat, trader: Address, side: nat, limit: int, size: nat)

  datatype Fill = Fill(trader: Address, base: int, quote: int)

  // The payload an enclave signs and the venue decodes.
  datatype Settlement = Settlement(
    chainId: int, venue: Address, batchId: Uint64,
    price: int, matched: int, fills: seq<Fill>)

  type Int8 = d: int | -128 <= d < 128

  // One FTSO reading.
  datatype Feed = Feed(value: Uint256, decimals: Int8, timestamp: Uint64)

  // Encryption is ideal: a ciphertext is what the enclave finds on opening it.
  // A number is None when it is not a decimal integer.
  datatype Ciphertext = NoBytes | Unopenable | Opens(plaintext: Plaintext)

  datatype Plaintext = Malformed | Terms(trader: Option<Address>, side: nat, limit: Option<int>, size: Option<int>)

  // The two instructions the venue sends to enclaves.
  datatype SubmitRequest = SubmitRequest(orderId: Uint64, batchId: Uint64, trader: Address, ciphertext: Ciphertext)

  datatype RunRequest = RunRequest(
    batchId: Uint64, refPrice: nat, maxDeviationBps: nat, chainId: Uint256, venue: Address)

  datatype Error =
    | NotOwner | ZeroAddress | TeeNotSet | BatchAlreadySettled | BadSignature
    | InsufficientBalance | BalanceLocked | ClearingPriceOutOfBand | StaleOracle
    | NothingToDo | FeeTooHigh | BadThreshold | NotEnoughSignatures
    | DuplicateSigner | UnknownSigner | EmptyCiphertext | SendFailed
    | WrongChain | WrongVenue | BaseNotConserved | QuoteNotConserved
    | MalformedPayload | BadFeedDecimals | Overflow
    | InsufficientAllowance | InvalidProof | WrongAttestationType | WrongSource
    | WrongDestination | PaymentFailedOnLedger | AlreadyClaimed | NoReference
    | NothingReceived | InsufficientFloat | StalePrice

  // A contract call: either it commits a value or it reverts and changes nothing.
  datatype Tx<+T> = Done(value: T) | Revert(error: Error) {
    predicate IsFailure() {
      Revert?
    }

    function PropagateFailure<U>(): Tx<U>
      requires Revert?
    {
      Revert(error)
    }

    function Extract(): T
      requires Done?
    {
      value
    }
  }

  datatype Check = Pass | Fail(error: Error) {
    predicate IsFailure() {
      Fail?
    }

    function PropagateFailure<U>(): Tx<U>
      requires Fail?
    {
      Revert(error)
    }
  }

  // A method that ran tx from before left after and reported r.
  predicate Took<S(==)>(tx: Tx<S>, before: S, after: S, r: Check) {
    match tx
    case Done(s) => r == Pass && after == s
    case Revert(e) => r == Fail(e) && after == before
  }

  function Need(condition: bool, error: Error): Check {
    if condition then Pass else Fail(error)
  }

  function Min(a: int, b: int): int {
    if a <= b then a else b
  }

  function Abs(a: int): int {
    if a < 0 then -a else a
  }
}
