// Decimal fixed point as the trading page parses and prints it
// (frontend/lib/seal.ts), and as the Go tool reads it (tools/cmd/run-test/main.go).
module Decimal {
  import opened Types
  import opened Arithmetic

  predicate IsDigit(c: char) {
    '0' <= c <= '9'
  }

  predicate AllDigits(s: string) {
    forall i :: 0 <= i < |s| ==> IsDigit(s[i])
  }

  // The number a run of digits denotes; none denotes zero.
  function Val(s: string): nat
    requires AllDigits(s)
  {
    if s == "" then 0 else Val(s[..|s| - 1]) * 10 + (s[|s| - 1] as int - '0' as int)
  }

  function Digits(n: nat): string {
    if n < 10 then [('0' as int + n) as char] else Digits(n / 10) + [('0' as int + n % 10) as char]
  }

  function ToString(n: int): string {
    if n < 0 then "-" + Digits(-n) else Digits(n)
  }

  function Zeros(n: nat): (s: string)
    ensures |s| == n && AllDigits(s)
  {
    seq(n, _ => '0')
  }

  function PadStart(s: string, width: nat): string {
    if |s| < width then Zeros(width - |s|) + s else s
  }

  function Slice(s: string, n: nat): string {
    s[..Min(n, |s|)]
  }

  // The characters String.prototype.trim removes.
  predicate IsSpace(c: char) {
    var u := c as int;
    0x9 <= u <= 0xd || u == 0x20 || u == 0xa0 || u == 0x1680 || 0x2000 <= u <= 0x200a
    || u == 0x2028 || u == 0x2029 || u == 0x202f || u == 0x205f || u == 0x3000 || u == 0xfeff
  }

  function Trim(s: string): string {
    if s == "" then ""
    else if IsSpace(s[0]) then Trim(s[1..])
    else if IsSpace(s[|s| - 1]) then Trim(s[..|s| - 1])
    else s
  }

  // Leading digits of s.
  function DigitRun(s: string): (n: nat)
    ensures n <= |s| && AllDigits(s[..n]) && (n < |s| ==> !IsDigit(s[n]))
  {
    if s == "" || !IsDigit(s[0]) then 0 else
      assert forall i :: 1 <= i < 1 + DigitRun(s[1..]) ==> s[i] == s[1..][i - 1];
      1 + DigitRun(s[1..])
  }

  // Whole and fractional digits of a string matching \d+(\.\d+)? entirely.
  function SplitDecimal(s: string): Option<(string, string)> {
    var n := DigitRun(s);
    if n == 0 then None
    else if n == |s| then Some((s, ""))
    else if s[n] == '.' && n + 1 < |s| && DigitRun(s[n + 1..]) == |s| - n - 1 then Some((s[..n], s[n + 1..]))
    else None
  }

  // The first `decimals` digits of a fraction, padded with zeros where it is shorter.
  function Padded(frac: string, decimals: nat): string {
    (frac + Zeros(decimals))[..decimals]
  }

  // parseAmount, and with 18 decimals parsePrice.
  function Parse(input: string, decimals: nat): Option<nat> {
    match SplitDecimal(Trim(input))
    case None => None
    case Some((whole, frac)) =>
      SplitIsDigits(Trim(input));
      Some(Val(whole) * Pow10(decimals) + Val(Padded(frac, decimals)))
  }

  // BigInt division and remainder truncate toward zero.
  function Quotient(a: int, b: nat): int
    requires b > 0
  {
    if a < 0 then -Div(-a, b) else Div(a, b)
  }

  function Remainder(a: int, b: nat): int
    requires b > 0
  {
    if a < 0 then -Mod(-a, b) else Mod(a, b)
  }

  // formatAmount, and with 18 decimals formatPrice.
  function Format(value: int, decimals: nat, places: nat): string {
    var unit := Pow10(decimals);
    ToString(Quotient(value, unit)) + "." + Slice(PadStart(ToString(Remainder(value, unit)), decimals), places)
  }

  // --- Digits ----------------------------------------------------------------

  lemma SplitIsDigits(s: string)
    requires SplitDecimal(s).Some?
    ensures AllDigits(SplitDecimal(s).value.0) && AllDigits(SplitDecimal(s).value.1)
  {
    var n := DigitRun(s);
    if n < |s| {
      var rest := s[n + 1..];
      assert rest[..|rest|] == rest;
    } else {
      assert s[..n] == s;
    }
  }

  lemma {:induction false} RunIsAll(s: string, n: nat)
    requires n <= |s| && AllDigits(s[..n]) && (n < |s| ==> !IsDigit(s[n]))
    ensures DigitRun(s) == n
  {
    if n > 0 {
      assert s[0] == s[..n][0] && s[1..][..n - 1] == s[..n][1..];
      RunIsAll(s[1..], n - 1);
    }
  }

  // A string splits into a pair of digit runs exactly when it is written as them.
  lemma SplitExactly(s: string, whole: string, frac: string)
    ensures SplitDecimal(s) == Some((whole, frac)) <==>
      && whole != "" && AllDigits(whole) && AllDigits(frac)
      && s == if frac == "" then whole else whole + "." + frac
  {
    if SplitDecimal(s) == Some((whole, frac)) {
      SplitIsDigits(s);
      var n := DigitRun(s);
      if n < |s| {
        assert s == s[..n] + [s[n]] + s[n + 1..];
      }
    }
    if whole != "" && AllDigits(whole) && AllDigits(frac) && s == if frac == "" then whole else whole + "." + frac {
      assert s[..|whole|] == whole;
      RunIsAll(s, |whole|);
      if frac != "" {
        assert s[|whole| + 1..] == frac && frac[..|frac|] == frac;
        RunIsAll(frac, |frac|);
      }
    }
  }

  lemma {:induction false} DigitsDenote(n: nat)
    ensures AllDigits(Digits(n)) && Digits(n) != "" && Val(Digits(n)) == n
  {
    var last := [('0' as int + n % 10) as char];
    if n >= 10 {
      DigitsDenote(n / 10);
      assert (Digits(n / 10) + last)[..|Digits(n)| - 1] == Digits(n / 10);
    } else {
      assert last[..0] == "";
    }
  }

  lemma {:induction false} DigitsShort(n: nat, d: nat)
    requires d >= 1 && n < Pow10(d)
    ensures |Digits(n)| <= d
  {
    if n >= 10 {
      DigitsShort(n / 10, d - 1);
    }
  }

  lemma {:induction false} ValAppend(a: string, b: string)
    requires AllDigits(a) && AllDigits(b)
    ensures AllDigits(a + b) && Val(a + b) == Val(a) * Pow10(|b|) + Val(b)
  {
    if b == "" {
      assert a + b == a;
    } else {
      var b' := b[..|b| - 1];
      assert (a + b)[..|a + b| - 1] == a + b' && (a + b)[|a + b| - 1] == b[|b| - 1];
      ValAppend(a, b');
      Shift(Val(a), Pow10(|b'|), Val(b'));
    }
  }

  lemma Shift(v: int, p: int, t: int)
    ensures (v * p + t) * 10 == v * (10 * p) + t * 10
  {
  }

  lemma {:induction false} ValBound(s: string)
    requires AllDigits(s)
    ensures Val(s) < Pow10(|s|)
  {
    if s != "" {
      ValBound(s[..|s| - 1]);
    }
  }

  lemma {:induction false} ValZeros(n: nat)
    ensures Val(Zeros(n)) == 0
  {
    if n > 0 {
      ValZeros(n - 1);
      assert Zeros(n)[..n - 1] == Zeros(n - 1);
    }
  }

  // A number split into leading and trailing digits.
  lemma ValParts(a: string, b: string)
    requires AllDigits(a) && AllDigits(b)
    ensures AllDigits(a + b)
    ensures Div(Val(a + b), Pow10(|b|)) == Val(a) && Mod(Val(a + b), Pow10(|b|)) == Val(b)
  {
    ValAppend(a, b);
    ValBound(b);
    DivUnique(Val(a + b), Pow10(|b|), Val(a), Val(b));
  }

  // --- Printing and parsing back ---------------------------------------------

  lemma {:induction false} LeadingZeros(k: nat, s: string)
    requires AllDigits(s)
    ensures AllDigits(Zeros(k) + s) && Val(Zeros(k) + s) == Val(s)
  {
    ValAppend(Zeros(k), s);
    ValZeros(k);
  }

  // Padding to d digits keeps the value.
  lemma PaddedDenotes(frac: nat, d: nat)
    requires frac < Pow10(d)
    ensures AllDigits(PadStart(Digits(frac), d)) && Val(PadStart(Digits(frac), d)) == frac
    ensures |PadStart(Digits(frac), d)| == if d == 0 then 1 else d
  {
    var s := Digits(frac);
    DigitsDenote(frac);
    if d >= 1 {
      DigitsShort(frac, d);
    }
    if |s| < d {
      LeadingZeros(d - |s|, s);
    }
  }

  lemma TrimDigits(s: string)
    requires s != "" && IsDigit(s[0]) && IsDigit(s[|s| - 1])
    ensures Trim(s) == s
  {
  }

  // White space and line terminators of ECMAScript, by code point.
  const SPACES: set<int> := {
    0x9, 0xa, 0xb, 0xc, 0xd, 0x20, 0xa0, 0x1680, 0x2000, 0x2001, 0x2002, 0x2003, 0x2004, 0x2005, 0x2006, 0x2007,
    0x2008, 0x2009, 0x200a, 0x2028, 0x2029, 0x202f, 0x205f, 0x3000, 0xfeff}

  lemma SpacesAre(c: char)
    ensures IsSpace(c) <==> c as int in SPACES
  {
  }

  // s is blank outside [i, j).
  predicate BlankOutside(s: string, i: nat, j: nat)
    requires i <= j <= |s|
  {
    forall k :: 0 <= k < |s| && !(i <= k < j) ==> IsSpace(s[k])
  }

  lemma BlankFront(s: string, i: nat, j: nat)
    requires s != "" && IsSpace(s[0]) && i <= j <= |s[1..]| && BlankOutside(s[1..], i, j)
    ensures BlankOutside(s, i + 1, j + 1) && s[1..][i..j] == s[i + 1..j + 1]
  {
    forall k | 0 <= k < |s| && !(i + 1 <= k < j + 1)
      ensures IsSpace(s[k])
    {
      if k > 0 {
        assert s[1..][k - 1] == s[k];
      }
    }
  }

  lemma BlankBack(s: string, i: nat, j: nat)
    requires s != "" && IsSpace(s[|s| - 1]) && i <= j <= |s| - 1 && BlankOutside(s[..|s| - 1], i, j)
    ensures BlankOutside(s, i, j) && s[..|s| - 1][i..j] == s[i..j]
  {
    forall k | 0 <= k < |s| && !(i <= k < j)
      ensures IsSpace(s[k])
    {
      if k < |s| - 1 {
        assert s[..|s| - 1][k] == s[k];
      }
    }
  }

  // Trimming takes off white space at both ends, and all of it.
  lemma {:induction false} TrimIs(s: string) returns (i: nat, j: nat)
    ensures i <= j <= |s| && Trim(s) == s[i..j] && BlankOutside(s, i, j)
    ensures i < j ==> !IsSpace(s[i]) && !IsSpace(s[j - 1])
  {
    i, j := 0, |s|;
    if s != "" && IsSpace(s[0]) {
      i, j := TrimIs(s[1..]);
      BlankFront(s, i, j);
      i, j := i + 1, j + 1;
    } else if s != "" && IsSpace(s[|s| - 1]) {
      i, j := TrimIs(s[..|s| - 1]);
      BlankBack(s, i, j);
    }
  }

  // A negative value prints its sign twice: whole part and remainder both carry it.
  lemma NegativePrints(value: int, decimals: nat, places: nat)
    requires value < 0
    ensures var whole, rest := Div(-value, Pow10(decimals)), Mod(-value, Pow10(decimals));
      Format(value, decimals, places)
      == (if whole == 0 then "0" else "-" + Digits(whole)) + "."
         + Slice(PadStart(if rest == 0 then "0" else "-" + Digits(rest), decimals), places)
  {
  }

  // Replacing the last digits by zeros drops what they denote.
  lemma CutDigits(a: string, b: string)
    requires AllDigits(a) && AllDigits(b)
    ensures AllDigits(a + b) && AllDigits(a + Zeros(|b|))
    ensures Val(a + Zeros(|b|)) == Val(a + b) - Mod(Val(a + b), Pow10(|b|))
  {
    ValParts(a, b);
    ValAppend(a, b);
    ValAppend(a, Zeros(|b|));
    ValZeros(|b|);
  }

  // The first m of a fraction's d digits, followed by zeros.
  lemma ShownDenotes(value: nat, d: nat, m: nat, padded: string)
    requires m <= d && padded == PadStart(Digits(Mod(value, Pow10(d))), d)
    ensures m <= |padded| && AllDigits(padded[..m] + Zeros(d - m))
    ensures Val(padded[..m] + Zeros(d - m)) == Mod(value, Pow10(d)) - Mod(value, Pow10(d - m))
  {
    PaddedDenotes(Mod(value, Pow10(d)), d);
    if d == 0 {
      assert padded[..0] + Zeros(0) == "";
    } else {
      CutAfter(padded, m);
      NestedMod(value, m, d - m, d);
    }
  }

  lemma CutAfter(s: string, m: nat)
    requires m <= |s| && AllDigits(s)
    ensures AllDigits(s[..m] + Zeros(|s| - m))
    ensures Val(s[..m] + Zeros(|s| - m)) == Val(s) - Mod(Val(s), Pow10(|s| - m))
  {
    assert s == s[..m] + s[m..];
    CutDigits(s[..m], s[m..]);
  }

  lemma NestedMod(value: nat, m: nat, j: nat, d: nat)
    requires d == m + j
    ensures Mod(Mod(value, Pow10(d)), Pow10(j)) == Mod(value, Pow10(j))
  {
    Pow10Sum(m, j, d);
    ModOfMod(value, Pow10(m), Pow10(j), Pow10(d));
  }

  // The digits printed, read back as a fraction.
  lemma PaddedShown(padded: string, decimals: nat, places: nat, m: nat)
    requires m == Min(places, decimals) && AllDigits(padded)
    requires |padded| == if decimals == 0 then 1 else decimals
    ensures AllDigits(padded[..m] + Zeros(decimals - m))
    ensures Padded(Slice(padded, places), decimals) == padded[..m] + Zeros(decimals - m)
  {
  }

  // A whole part, a point and at least one of the padded digits.
  lemma TextParses(whole: string, padded: string, decimals: nat, places: nat, m: nat)
    requires places >= 1 && m == Min(places, decimals)
    requires whole != "" && AllDigits(whole) && AllDigits(padded)
    requires |padded| == if decimals == 0 then 1 else decimals
    ensures AllDigits(padded[..m] + Zeros(decimals - m))
    ensures Parse(whole + "." + Slice(padded, places), decimals)
         == Some(Val(whole) * Pow10(decimals) + Val(padded[..m] + Zeros(decimals - m)))
  {
    var shown := Slice(padded, places);
    TextSplits(whole, shown);
    PaddedShown(padded, decimals, places, m);
    ParsesTo(whole + "." + shown, whole, shown, decimals);
  }

  lemma TextSplits(whole: string, frac: string)
    requires whole != "" && AllDigits(whole) && frac != "" && AllDigits(frac)
    ensures SplitDecimal(Trim(whole + "." + frac)) == Some((whole, frac))
  {
    TrimDigits(whole + "." + frac);
    SplitExactly(whole + "." + frac, whole, frac);
  }

  // The text of a value that is not negative.
  lemma FormatIs(value: nat, decimals: nat, places: nat)
    ensures Format(value, decimals, places)
         == Digits(Div(value, Pow10(decimals))) + "."
          + Slice(PadStart(Digits(Mod(value, Pow10(decimals))), decimals), places)
  {
  }

  lemma NumberParses(whole: nat, padded: string, decimals: nat, places: nat, m: nat)
    requires places >= 1 && m == Min(places, decimals) && AllDigits(padded)
    requires |padded| == if decimals == 0 then 1 else decimals
    ensures AllDigits(padded[..m] + Zeros(decimals - m))
    ensures Parse(Digits(whole) + "." + Slice(padded, places), decimals)
         == Some(whole * Pow10(decimals) + Val(padded[..m] + Zeros(decimals - m)))
  {
    DigitsDenote(whole);
    TextParses(Digits(whole), padded, decimals, places, m);
  }

  lemma PartsParse(whole: nat, frac: nat, decimals: nat, places: nat, m: nat, padded: string)
    requires places >= 1 && m == Min(places, decimals)
    requires frac < Pow10(decimals) && padded == PadStart(Digits(frac), decimals)
    ensures m <= |padded| && AllDigits(padded[..m] + Zeros(decimals - m))
    ensures Parse(Digits(whole) + "." + Slice(padded, places), decimals)
         == Some(whole * Pow10(decimals) + Val(padded[..m] + Zeros(decimals - m)))
  {
    PaddedDenotes(frac, decimals);
    NumberParses(whole, padded, decimals, places, m);
  }

  // What a printed value parses as: its whole part and the digits shown.
  lemma PrintedParses(value: nat, decimals: nat, places: nat, whole: nat, padded: string, m: nat)
    requires places >= 1 && m == Min(places, decimals) && whole == Div(value, Pow10(decimals))
    requires padded == PadStart(Digits(Mod(value, Pow10(decimals))), decimals)
    ensures m <= |padded| && AllDigits(padded[..m] + Zeros(decimals - m))
    ensures Parse(Format(value, decimals, places), decimals)
         == Some(whole * Pow10(decimals) + Val(padded[..m] + Zeros(decimals - m)))
  {
    FormatIs(value, decimals, places);
    PartsParse(whole, Mod(value, Pow10(decimals)), decimals, places, m, padded);
  }

  // Printing with `places` decimals (at least one) and parsing back rounds down
  // to a multiple of the last place printed.
  lemma PrintRoundsDown(value: nat, decimals: nat, places: nat)
    requires places >= 1
    ensures Parse(Format(value, decimals, places), decimals)
         == Some(value - Mod(value, Pow10(decimals - Min(places, decimals))))
  {
    var m: nat := Min(places, decimals);
    var padded := PadStart(Digits(Mod(value, Pow10(decimals))), decimals);
    PrintedParses(value, decimals, places, Div(value, Pow10(decimals)), padded, m);
    ShownDenotes(value, decimals, m, padded);
    DivMod(value, Pow10(decimals));
  }

  lemma ParsesTo(text: string, whole: string, frac: string, decimals: nat)
    requires SplitDecimal(Trim(text)) == Some((whole, frac))
    ensures AllDigits(whole) && AllDigits(Padded(frac, decimals))
    ensures Parse(text, decimals) == Some(Val(whole) * Pow10(decimals) + Val(Padded(frac, decimals)))
  {
    SplitIsDigits(Trim(text));
  }

  // A printed value parses back to itself exactly when it is not negative and
  // at least one place, and every non-zero one, was printed.
  lemma RoundTripExactly(value: int, decimals: nat, places: nat)
    ensures Parse(Format(value, decimals, places), decimals) == Some(value) <==>
      value >= 0 && places >= 1 && Mod(value, Pow10(decimals - Min(places, decimals))) == 0
  {
    if value < 0 {
      var parsed := Parse(Format(value, decimals, places), decimals);
      assert parsed.Some? ==> parsed.value >= 0;
    } else if places >= 1 {
      PrintRoundsDown(value, decimals, places);
    } else {
      NothingAfterPoint(value, decimals);
    }
  }

  lemma NothingAfterPoint(value: nat, decimals: nat)
    ensures Parse(Format(value, decimals, 0), decimals) == None
  {
    var whole := Digits(Div(value, Pow10(decimals)));
    DigitsDenote(Div(value, Pow10(decimals)));
    assert Format(value, decimals, 0) == whole + ".";
    TrimPoint(whole);
    NoTrailingPoint(whole);
  }

  lemma TrimPoint(whole: string)
    requires whole != "" && AllDigits(whole)
    ensures Trim(whole + ".") == whole + "."
  {
    assert (whole + ".")[0] == whole[0] && (whole + ".")[|whole|] == '.';
  }

  lemma NoTrailingPoint(whole: string)
    requires whole != "" && AllDigits(whole)
    ensures SplitDecimal(whole + ".") == None
  {
    assert (whole + ".")[..|whole|] == whole;
    RunIsAll(whole + ".", |whole|);
  }

  // --- The Go tool -----------------------------------------------------------

  // big.Int.SetString in base 10: an optional sign and at least one digit.
  function SetString(s: string): Option<int> {
    var digits := if Signed(s) then s[1..] else s;
    if digits == "" || !AllDigits(digits) then None
    else Some(if s[0] == '-' then 0 - Val(digits) else Val(digits))
  }

  predicate Signed(s: string) {
    s != "" && (s[0] == '-' || s[0] == '+')
  }

  function FirstPoint(s: string): (i: nat)
    ensures i <= |s| && (i < |s| ==> s[i] == '.')
    ensures forall j :: 0 <= j < i ==> s[j] != '.'
  {
    if s == "" || s[0] == '.' then 0
    else
      assert forall j :: 1 <= j < |s| ==> s[j] == s[1..][j - 1];
      1 + FirstPoint(s[1..])
  }

  // scaled: the fraction is divided by its own power of ten.
  function Scaled(dec: string, decimals: nat): Option<int> {
    var i := FirstPoint(dec);
    match SetString(dec[..i])
    case None => None
    case Some(whole) =>
      if i == |dec| then Some(whole * Pow10(decimals))
      else
        match SetString(dec[i + 1..])
        case None => None
        case Some(frac) => Some(whole * Pow10(decimals) + Div(frac * Pow10(decimals), Pow10(|dec| - i - 1)))
  }

  lemma SetStringOfDigits(s: string)
    requires s != "" && AllDigits(s)
    ensures SetString(s) == Some(Val(s))
  {
  }

  // The tool's numbers are signed, the fraction's sign apart from the whole's: it
  // reads "-1.5" as half above minus one.
  lemma SignedReads(digits: string)
    requires digits != "" && AllDigits(digits)
    ensures SetString("-" + digits) == Some(0 - Val(digits)) && SetString("+" + digits) == Some(Val(digits))
  {
    assert ("-" + digits)[1..] == digits && ("+" + digits)[1..] == digits;
  }

  lemma MinusReads()
    ensures Scaled("-1.5", 1) == Some(-5)
  {
    assert "-1.5"[1..] == "1.5" && "1.5"[1..] == ".5" && "-1.5"[..2] == "-1" && "-1.5"[3..] == "5";
    assert "1"[..0] == "" && "5"[..0] == "" && "-1"[1..] == "1";
    assert Val("1") == 1 && Val("5") == 5;
    assert FirstPoint("1.5") == 1 && FirstPoint("-1.5") == 2;
    assert Pow10(1) == 10;
  }

  lemma ScaledShort(frac: string, decimals: nat, j: nat)
    requires AllDigits(frac) && |frac| + j == decimals
    ensures AllDigits(frac + Zeros(j))
    ensures Div(Val(frac) * Pow10(decimals), Pow10(|frac|)) == Val(frac + Zeros(j))
  {
    ValAppend(frac, Zeros(j));
    ValZeros(j);
    Pow10Sum(j, |frac|, decimals);
    DivFactor(Val(frac), Pow10(j), Pow10(|frac|), Pow10(decimals));
  }

  lemma ScaledLong(frac: string, decimals: nat)
    requires AllDigits(frac) && decimals <= |frac|
    ensures AllDigits(frac[..decimals])
    ensures Div(Val(frac) * Pow10(decimals), Pow10(|frac|)) == Val(frac[..decimals])
  {
    var rest := |frac| - decimals;
    assert frac == frac[..decimals] + frac[decimals..];
    ValParts(frac[..decimals], frac[decimals..]);
    Pow10Sum(decimals, rest, |frac|);
    DivCancel(Val(frac), Pow10(decimals), Pow10(rest), Pow10(|frac|));
  }

  lemma PaddedIs(frac: string, decimals: nat)
    ensures Padded(frac, decimals)
         == if |frac| <= decimals then frac + Zeros(decimals - |frac|) else frac[..decimals]
  {
  }

  // Scaling a fraction keeps those digits, however many it has.
  lemma ScaledFraction(frac: string, decimals: nat)
    requires AllDigits(frac)
    ensures AllDigits(Padded(frac, decimals))
    ensures Div(Val(frac) * Pow10(decimals), Pow10(|frac|)) == Val(Padded(frac, decimals))
  {
    PaddedIs(frac, decimals);
    if |frac| <= decimals {
      ScaledShort(frac, decimals, decimals - |frac|);
    } else {
      ScaledLong(frac, decimals);
    }
  }

  // Whatever the page accepts, the Go tool reads as the same number once trimmed.
  lemma ToolsAgree(input: string, decimals: nat)
    requires Parse(input, decimals).Some?
    ensures Scaled(Trim(input), decimals) == Some(Parse(input, decimals).value)
  {
    var s := Trim(input);
    var (whole, frac) := SplitDecimal(s).value;
    SplitExactly(s, whole, frac);
    SetStringOfDigits(whole);
    PointAfter(s, whole, frac);
    assert s[..|whole|] == whole;
    ScaledFraction(frac, decimals);
    if frac != "" {
      assert s[|whole| + 1..] == frac;
      SetStringOfDigits(frac);
    } else {
      assert Padded(frac, decimals) == Zeros(decimals);
      ValZeros(decimals);
    }
  }

  lemma {:induction false} PointAfter(s: string, whole: string, frac: string)
    requires AllDigits(whole) && AllDigits(frac) && s == if frac == "" then whole else whole + "." + frac
    ensures FirstPoint(s) == |whole|
  {
    if whole != "" {
      assert s[0] == whole[0] && s[1..] == if frac == "" then whole[1..] else whole[1..] + "." + frac;
      PointAfter(s[1..], whole[1..], frac);
    }
  }

  // A number the tool can read has no space at either end.
  lemma ReadableEnds(s: string)
    requires SetString(s).Some?
    ensures s != "" && !IsSpace(s[0]) && IsDigit(s[|s| - 1])
  {
    if Signed(s) {
      assert s[|s| - 1] == s[1..][|s| - 2];
    }
  }

  lemma ToolTrimmed(input: string, decimals: nat)
    requires Scaled(input, decimals).Some?
    ensures Trim(input) == input
  {
    var i := FirstPoint(input);
    ReadableEnds(input[..i]);
    assert input[0] == input[..i][0];
    if i < |input| {
      ReadableEnds(input[i + 1..]);
      assert input[|input| - 1] == input[i + 1..][|input| - i - 2];
    }
  }

  // Of what the page reads, the tool refuses exactly what has space around it.
  lemma PageOnly(input: string, decimals: nat)
    requires Parse(input, decimals).Some?
    ensures Scaled(input, decimals) == if Trim(input) == input then Some(Parse(input, decimals).value) else None
  {
    ToolsAgree(input, decimals);
    if Scaled(input, decimals).Some? {
      ToolTrimmed(input, decimals);
    }
  }

  lemma CutAt(s: string, i: nat)
    requires i < |s|
    ensures s == s[..i] + [s[i]] + s[i + 1..]
  {
  }

  lemma UnsignedIsDigits(s: string)
    requires SetString(s).Some?
    ensures AllDigits(s) <==> !Signed(s)
  {
    if Signed(s) {
      assert !IsDigit(s[0]);
    }
  }

  // Of what the tool reads, the page refuses exactly what has a sign, in front of
  // the whole part or of the fraction.
  lemma ToolOnly(input: string, decimals: nat)
    requires Scaled(input, decimals).Some?
    ensures var i := FirstPoint(input);
      Parse(input, decimals).None? <==> Signed(input[..i]) || (i < |input| && Signed(input[i + 1..]))
  {
    var i := FirstPoint(input);
    var whole, frac := input[..i], if i < |input| then input[i + 1..] else "";
    ToolTrimmed(input, decimals);
    UnsignedIsDigits(whole);
    if i < |input| {
      CutAt(input, i);
      UnsignedIsDigits(frac);
    }
    SplitExactly(input, whole, frac);
    if Parse(input, decimals).Some? {
      var (w, f) := SplitDecimal(input).value;
      SplitExactly(input, w, f);
      PointAfter(input, w, f);
      assert input[..|w|] == w;
      if f != "" {
        assert input[|w| + 1..] == f;
      }
    }
  }

  // The page and the tool use the scale the venue prices in.
  lemma PriceDecimals()
    ensures Pow10(18) == PRICE_SCALE == 1_000_000_000_000_000_000
  {
    assert Pow10(6) == 1_000_000;
    Pow10Sum(6, 6, 12);
    Pow10Sum(12, 6, 18);
  }
}
