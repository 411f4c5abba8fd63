// The settlement payload, word by word (go/pkg/types/types.go,
// contracts/InstructionSender.sol). The layout is that of the Solidity Contract
// ABI Specification, section "Formal Specification of the Encoding":
// (uint256, address, uint64, uint256, uint256, (address, int256, int256)[]).
module Codec {
  import opened Types

  type Word = w: nat | w < U256
  type Payload = seq<Word>

  // Five static words, the offset of the array, then its length and elements.
  const HEAD_WORDS: nat := 6
  const WORD_BYTES: nat := 32

  // An integer of either sign, as packed: two's complement, modulo 2^256.
  function ToWord(x: int): Word {
    x % U256
  }

  function FromSigned(w: Word): int {
    if w < I256 then w else w - U256
  }

  function EncodeFills(fills: seq<Fill>): (ws: Payload)
    ensures |ws| == 3 * |fills|
  {
    if fills == [] then []
    else [fills[0].trader, ToWord(fills[0].base), ToWord(fills[0].quote)] + EncodeFills(fills[1..])
  }

  function Head(s: Settlement): (ws: Payload)
    ensures |ws| == HEAD_WORDS
  {
    [ToWord(s.chainId), s.venue, s.batchId, ToWord(s.price), ToWord(s.matched), HEAD_WORDS * WORD_BYTES]
  }

  function Encode(s: Settlement): Payload {
    Head(s) + [ToWord(|s.fills|)] + EncodeFills(s.fills)
  }

  function DecodeFills(ws: Payload, count: nat): (r: Option<seq<Fill>>)
    requires 3 * count <= |ws|
    decreases count
  {
    if count == 0 then Some([])
    else if ws[0] >= ADDRESS_LIMIT then None
    else
      match DecodeFills(ws[3..], count - 1)
      case None => None
      case Some(rest) => Some([Fill(ws[0], FromSigned(ws[1]), FromSigned(ws[2]))] + rest)
  }

  // abi.decode: every word must be in its type's range and the array must fit.
  function Decode(ws: Payload): Option<Settlement> {
    if |ws| < HEAD_WORDS || ws[1] >= ADDRESS_LIMIT || ws[2] >= U64 || ws[5] >= U64 then None
    else if ws[5] % WORD_BYTES != 0 || ws[5] / WORD_BYTES >= |ws| then None
    else
      var at := ws[5] / WORD_BYTES;
      if ws[at] >= U64 || at + 1 + 3 * ws[at] > |ws| then None
      else
        match DecodeFills(ws[at + 1..], ws[at])
        case None => None
        case Some(fills) => Some(Settlement(ws[0], ws[1], ws[2], ws[3], ws[4], fills))
  }

  // --- What decoding an encoding gives back ----------------------------------

  predicate IsUint256(x: int) {
    0 <= x < U256
  }

  predicate IsInt256(x: int) {
    -I256 <= x < I256
  }

  predicate InRange(s: Settlement) {
    && IsUint256(s.chainId) && IsUint256(s.price) && IsUint256(s.matched)
    && |s.fills| < U64
    && forall i :: 0 <= i < |s.fills| ==> IsInt256(s.fills[i].base) && IsInt256(s.fills[i].quote)
  }

  // The value of x as read back from its word.
  function WrapInt(x: int): int {
    FromSigned(ToWord(x))
  }

  function WrapFills(fills: seq<Fill>): (r: seq<Fill>)
    ensures |r| == |fills|
    ensures forall i :: 0 <= i < |fills| ==>
      r[i] == Fill(fills[i].trader, WrapInt(fills[i].base), WrapInt(fills[i].quote))
  {
    if fills == [] then []
    else [Fill(fills[0].trader, WrapInt(fills[0].base), WrapInt(fills[0].quote))] + WrapFills(fills[1..])
  }

  function Wrapped(s: Settlement): Settlement {
    Settlement(ToWord(s.chainId), s.venue, s.batchId, ToWord(s.price), ToWord(s.matched), WrapFills(s.fills))
  }

  lemma WrapIdentity(x: int)
    ensures WrapInt(x) == x <==> IsInt256(x)
    ensures (WrapInt(x) - x) % U256 == 0 && IsInt256(WrapInt(x))
  {
    var k := x / U256;
    assert x == k * U256 + ToWord(x);
    assert WrapInt(x) - x == (if ToWord(x) < I256 then -k else -k - 1) * U256;
  }

  lemma WrapUintIdentity(x: int)
    ensures ToWord(x) == x <==> IsUint256(x)
  {
  }

  lemma {:induction false} DecodeFillsEncoded(fills: seq<Fill>)
    ensures DecodeFills(EncodeFills(fills), |fills|) == Some(WrapFills(fills))
  {
    if fills != [] {
      DecodeFillsEncoded(fills[1..]);
      assert EncodeFills(fills)[3..] == EncodeFills(fills[1..]);
    }
  }

  // Decoding an encoding reduces every number into its type's range, and fails
  // only for an array too long to decode.
  lemma DecodeEncoded(s: Settlement)
    ensures |s.fills| < U64 ==> Decode(Encode(s)) == Some(Wrapped(s))
    ensures Decode(Encode(s)).Some? ==> Decode(Encode(s)).value.batchId == s.batchId
  {
    var ws := Encode(s);
    assert ws[..HEAD_WORDS] == Head(s);
    assert forall i :: 0 <= i < HEAD_WORDS ==> ws[i] == Head(s)[i];
    assert ws[HEAD_WORDS] == ToWord(|s.fills|);
    assert ws[HEAD_WORDS + 1..] == EncodeFills(s.fills);
    if |s.fills| < U64 {
      DecodeFillsEncoded(s.fills);
    }
  }

  // A settlement survives the round trip exactly when it is in range.
  lemma RoundTripExactly(s: Settlement)
    ensures Decode(Encode(s)) == Some(s) <==> InRange(s)
  {
    DecodeEncoded(s);
    WrapUintIdentity(s.chainId);
    WrapUintIdentity(s.price);
    WrapUintIdentity(s.matched);
    forall i | 0 <= i < |s.fills|
      ensures WrapFills(s.fills)[i] == s.fills[i] <==> IsInt256(s.fills[i].base) && IsInt256(s.fills[i].quote)
    {
      WrapIdentity(s.fills[i].base);
      WrapIdentity(s.fills[i].quote);
    }
    if InRange(s) {
      assert WrapFills(s.fills) == s.fills;
    }
    if Decode(Encode(s)) == Some(s) {
      DecodedShort(Encode(s));
    }
  }

  // Equal signed words mean equal settlements.
  lemma EncodingInjective(s: Settlement, t: Settlement)
    requires InRange(s) && InRange(t) && Encode(s) == Encode(t)
    ensures s == t
  {
    RoundTripExactly(s);
    RoundTripExactly(t);
  }

  lemma {:induction false} DecodedFills(ws: Payload, count: nat)
    requires 3 * count <= |ws| && DecodeFills(ws, count).Some?
    ensures |DecodeFills(ws, count).value| == count
    ensures forall i :: 0 <= i < count ==>
      IsInt256(DecodeFills(ws, count).value[i].base) && IsInt256(DecodeFills(ws, count).value[i].quote)
    decreases count
  {
    if count > 0 {
      DecodedFills(ws[3..], count - 1);
    }
  }

  // Whatever decodes is in range.
  lemma DecodedShort(ws: Payload)
    requires Decode(ws).Some?
    ensures InRange(Decode(ws).value)
  {
    var at := ws[5] / WORD_BYTES;
    DecodedFills(ws[at + 1..], ws[at]);
  }

  // --- The layout ------------------------------------------------------------

  lemma {:induction false} FillWords(fills: seq<Fill>, i: nat)
    requires i < |fills|
    ensures EncodeFills(fills)[3 * i] == fills[i].trader
    ensures EncodeFills(fills)[3 * i + 1] == fills[i].base % U256
    ensures EncodeFills(fills)[3 * i + 2] == fills[i].quote % U256
  {
    if i > 0 {
      FillWords(fills[1..], i - 1);
      assert EncodeFills(fills)[3..] == EncodeFills(fills[1..]);
    }
  }

  // The words of a settlement: the array's offset is 192 bytes, its length follows,
  // then three words a fill.
  lemma Layout(s: Settlement)
    ensures var ws := Encode(s);
      && |ws| == 7 + 3 * |s.fills|
      && ws[..7] == [s.chainId % U256, s.venue, s.batchId, s.price % U256, s.matched % U256, 192, |s.fills| % U256]
      && forall i :: 0 <= i < |s.fills| ==>
           && ws[7 + 3 * i] == s.fills[i].trader
           && ws[8 + 3 * i] == s.fills[i].base % U256 && ws[9 + 3 * i] == s.fills[i].quote % U256
  {
    var ws := Encode(s);
    assert ws[7..] == EncodeFills(s.fills);
    forall i | 0 <= i < |s.fills|
      ensures ws[7 + 3 * i] == s.fills[i].trader
      ensures ws[8 + 3 * i] == s.fills[i].base % U256 && ws[9 + 3 * i] == s.fills[i].quote % U256
    {
      FillWords(s.fills, i);
      assert ws[7 + 3 * i] == ws[7..][3 * i] && ws[8 + 3 * i] == ws[7..][3 * i + 1]
          && ws[9 + 3 * i] == ws[7..][3 * i + 2];
    }
  }

  // A word as a signed integer.
  function Signed(w: Word): int {
    if w >= I256 then w - U256 else w
  }

  predicate TradersFit(ws: Payload, count: nat)
    requires 3 * count <= |ws|
  {
    forall i :: 0 <= i < count ==> ws[3 * i] < ADDRESS_LIMIT
  }

  lemma TradersFitNext(ws: Payload, count: nat)
    requires 0 < count && 3 * count <= |ws|
    ensures TradersFit(ws, count) <==> ws[0] < ADDRESS_LIMIT && TradersFit(ws[3..], count - 1)
  {
    assert forall i :: 0 <= i < count - 1 ==> ws[3..][3 * i] == ws[3 * (i + 1)];
    assert forall i :: 0 < i < count ==> ws[3 * i] == ws[3..][3 * (i - 1)];
    assert ws[3 * 0] == ws[0];
  }

  lemma {:induction false} FillsFit(ws: Payload, count: nat)
    requires 3 * count <= |ws|
    ensures DecodeFills(ws, count).Some? <==> TradersFit(ws, count)
    decreases count
  {
    if count > 0 {
      FillsFit(ws[3..], count - 1);
      TradersFitNext(ws, count);
    }
  }

  lemma {:induction false} FillRead(ws: Payload, count: nat, i: nat)
    requires i < count && 3 * count <= |ws| && DecodeFills(ws, count).Some?
    ensures |DecodeFills(ws, count).value| == count
    ensures DecodeFills(ws, count).value[i].trader == ws[3 * i]
    ensures DecodeFills(ws, count).value[i].base == Signed(ws[3 * i + 1])
    ensures DecodeFills(ws, count).value[i].quote == Signed(ws[3 * i + 2])
    decreases count
  {
    DecodedFills(ws, count);
    if i > 0 {
      FillRead(ws[3..], count - 1, i - 1);
    }
  }

  // Which payloads the decoder refuses.
  lemma DecodesExactly(ws: Payload)
    ensures Decode(ws).Some? <==>
      && |ws| >= 6 && ws[1] < ADDRESS_LIMIT && ws[2] < U64 && ws[5] < U64 && ws[5] % 32 == 0
      && ws[5] / 32 < |ws| && ws[ws[5] / 32] < U64 && ws[5] / 32 + 1 + 3 * ws[ws[5] / 32] <= |ws|
      && TradersFit(ws[ws[5] / 32 + 1..], ws[ws[5] / 32])
  {
    if |ws| >= 6 && ws[5] / 32 < |ws| && ws[5] / 32 + 1 + 3 * ws[ws[5] / 32] <= |ws| {
      FillsFit(ws[ws[5] / 32 + 1..], ws[ws[5] / 32]);
    }
  }

  // What it reads from the others: the head in order, and at the array's offset its
  // length and three words a fill.
  lemma DecodeReads(ws: Payload, i: nat)
    requires Decode(ws).Some?
    ensures var s := Decode(ws).value;
      s.chainId == ws[0] && s.venue == ws[1] && s.batchId == ws[2] && s.price == ws[3] && s.matched == ws[4]
    ensures var s, at := Decode(ws).value, ws[5] / 32;
      && at + 1 + 3 * |s.fills| <= |ws| && |s.fills| == ws[at]
      && (i < |s.fills| ==>
            && s.fills[i].trader == ws[at + 1 + 3 * i]
            && s.fills[i].base == Signed(ws[at + 2 + 3 * i]) && s.fills[i].quote == Signed(ws[at + 3 + 3 * i]))
  {
    var at := ws[5] / WORD_BYTES;
    DecodedFills(ws[at + 1..], ws[at]);
    if i < ws[at] {
      FillRead(ws[at + 1..], ws[at], i);
    }
  }

  method EncodeSettlement(chainId: int, venue: Address, batchId: Uint64, clearingPrice: int, matchedBase: int,
                          fills: seq<Fill>)
      returns (message: Payload)
    ensures message == Encode(Settlement(chainId, venue, batchId, clearingPrice, matchedBase, fills))
  {
    var encoded: Payload := [];
    for i := 0 to |fills|
      invariant encoded + EncodeFills(fills[i..]) == EncodeFills(fills)
    {
      var f := fills[i];
      assert fills[i..][1..] == fills[i + 1..];
      encoded := encoded + [f.trader, ToWord(f.base), ToWord(f.quote)];
    }
    assert encoded == EncodeFills(fills);
    message := [ToWord(chainId), venue, batchId, ToWord(clearingPrice), ToWord(matchedBase), HEAD_WORDS * WORD_BYTES]
             + [ToWord(|fills|)] + encoded;
  }
}
