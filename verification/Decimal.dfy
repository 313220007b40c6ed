/** Decimal text to minor units and back, and the quantity text an exchange order carries.
    Amounts are 64-bit in the program: a value that does not fit is a parse error. */
module Decimal {
  import opened Wrappers
  import opened Text
  import opened Arithmetic

  const MAX_INT64 := 9_223_372_036_854_775_807
  const MIN_INT64 := -9_223_372_036_854_775_808

  datatype ParseError = Missing | Negative | Syntax | OutOfRange

  function Pow10(k: nat): (p: nat)
    ensures p >= 1
  {
    if k == 0 then 1 else 10 * Pow10(k - 1)
  }

  predicate AllDigits(s: string) {
    forall i :: 0 <= i < |s| ==> IsDigit(s[i])
  }

  function Digit(c: char): (d: nat)
    requires IsDigit(c)
    ensures d < 10
  {
    c as int - '0' as int
  }

  /** The number a string of digits spells. */
  function Number(s: string): nat
    requires AllDigits(s)
  {
    if s == "" then 0 else 10 * Number(s[..|s| - 1]) + Digit(s[|s| - 1])
  }

  function Spell(n: nat): (s: string)
    ensures s != "" && AllDigits(s)
    ensures Number(s) == n
  {
    var d := [(n % 10 + '0' as int) as char];
    if n < 10 then d
    else
      var s := Spell(n / 10) + d;
      assert s[..|s| - 1] == Spell(n / 10);
      s
  }

  function Repeat(c: char, n: nat): (s: string)
    ensures |s| == n && forall i :: 0 <= i < n ==> s[i] == c
  {
    seq(n, i => c)
  }

  function DropLeadingZeros(s: string): string {
    if s != "" && s[0] == '0' then DropLeadingZeros(s[1..]) else s
  }

  function DropTrailingZeros(s: string): (r: string)
    ensures r <= s
    ensures forall i :: |r| <= i < |s| ==> s[i] == '0'
    ensures r != "" ==> r[|r| - 1] != '0'
  {
    if s != "" && s[|s| - 1] == '0' then DropTrailingZeros(s[..|s| - 1]) else s
  }

  /** Position of the first '.', or the length when there is none. */
  function PointAt(s: string): (k: nat)
    ensures k <= |s|
    ensures k < |s| ==> s[k] == '.'
    ensures forall i :: 0 <= i < k ==> s[i] != '.'
  {
    if s == "" || s[0] == '.' then 0
    else
      var k := 1 + PointAt(s[1..]);
      assert forall i :: 1 <= i < k ==> s[i] == s[1..][i - 1];
      k
  }

  /** Base-10 integer text as the program's number parser reads it: one optional sign, then digits only. */
  function ParseInt64(s: string): Result<int, ParseError> {
    var signed := s != "" && (s[0] == '+' || s[0] == '-');
    var digits := if signed then s[1..] else s;
    if digits == "" || !AllDigits(digits) then Err(Syntax)
    else
      var v := if signed && s[0] == '-' then -(Number(digits) as int) else Number(digits);
      if MIN_INT64 <= v <= MAX_INT64 then Ok(v) else Err(OutOfRange)
  }

  function Pad(s: string, n: nat): string {
    if |s| < n then s + Repeat('0', n - |s|) else s
  }

  // The parts of an amount text around its first point; a missing whole part reads as zero.
  function WholePart(value: string): string {
    var k := PointAt(value);
    if k == 0 then "0" else value[..k]
  }

  function FractionPart(value: string): string {
    var k := PointAt(value);
    if k < |value| then value[k + 1..] else ""
  }

  /** Amount text to minor units with the given number of decimals; digits beyond them are dropped. */
  function ParseMinor(input: string, decimals: nat): Result<int, ParseError> {
    var value := Trim(input);
    if value == "" then Err(Missing)
    else if value[0] == '-' then Err(Negative)
    else
      ParseDigits(WholePart(value) + Pad(Cut(FractionPart(value), decimals), decimals))
  }

  function ParseDigits(digits: string): Result<int, ParseError> {
    var combined := DropLeadingZeros(digits);
    if combined == "" then Ok(0) else ParseInt64(combined)
  }

  method PadFraction(fraction: string, decimals: nat) returns (padded: string)
    ensures padded == Pad(fraction, decimals)
  {
    padded := fraction;
    while |padded| < decimals
      invariant |padded| <= |fraction| || |padded| <= decimals
      invariant |fraction| <= |padded| && padded == fraction + Repeat('0', |padded| - |fraction|)
    {
      padded := padded + "0";
    }
  }

  /** The parser as the program runs it, reassigning the two parts and padding the fraction in a loop. */
  method ParseMinorUnits(input: string, decimals: nat) returns (r: Result<int, ParseError>)
    ensures r == ParseMinor(input, decimals)
  {
    var value := Trim(input);
    if value == "" {
      return Err(Missing);
    }
    if value[0] == '-' {
      return Err(Negative);
    }
    var k := PointAt(value);
    var whole := value[..k];
    var fraction := "";
    if k < |value| {
      fraction := value[k + 1..];
    }
    if whole == "" {
      whole := "0";
    }
    if |fraction| > decimals {
      fraction := fraction[..decimals];
    }
    fraction := PadFraction(fraction, decimals);
    var combined := DropLeadingZeros(whole + fraction);
    if combined == "" {
      return Ok(0);
    }
    r := ParseInt64(combined);
  }

  function AssetDecimals(asset: string): (d: nat)
    ensures d in {6, 8, 18}
  {
    var a := Upper(asset);
    if a == "BTC" then 8
    else if a == "ETH" || a == "BNB" then 18
    else if a == "USDT" || a == "USDC" then 6
    else 8
  }

  /** Digits of a non-negative amount, with enough leading zeros to have a whole part. */
  function Padded(v: nat, decimals: nat): (s: string)
    ensures |s| > decimals && AllDigits(s)
  {
    var raw := Spell(v);
    if |raw| <= decimals then Repeat('0', decimals - |raw| + 1) + raw else raw
  }

  function Joined(whole: string, fraction: string): string {
    if fraction == "" then whole else whole + "." + fraction
  }

  // Negation in 64 bits: the smallest value is its own negative.
  function Negated(v: int): int {
    if v == MIN_INT64 then v else -v
  }

  /** Minor units as decimal text, trailing zeros of the fraction dropped. */
  function PrintMinor(value: int, decimals: nat): string {
    if value >= 0 then
      var s := Padded(value, decimals);
      Joined(s[..|s| - decimals], DropTrailingZeros(s[|s| - decimals..]))
    else if Negated(value) >= 0 then
      var s := Padded(Negated(value), decimals);
      "-" + Joined(s[..|s| - decimals], DropTrailingZeros(s[|s| - decimals..]))
    else
      var s := "-" + Spell(-value);
      var t := if |s| <= decimals then Repeat('0', decimals - |s| + 1) + s else s;
      "-" + Joined(t[..|t| - decimals], DropTrailingZeros(t[|t| - decimals..]))
  }

  /** Digits of the decimals an exchange accepts for an asset. */
  function LotDecimals(asset: string): (p: nat)
    ensures p in {2, 3, 5, 6}
  {
    var a := Upper(Trim(asset));
    if a == "BTC" then 6
    else if a == "ETH" then 5
    else if a == "BNB" then 3
    else if a == "USDT" || a == "USDC" then 2
    else 6
  }

  /** The quantity of a sell order: the printed amount with its fraction cut to the exchange's precision. */
  function ExchangeQuantity(value: int, decimals: nat, lot: nat): string {
    var q := PrintMinor(value, decimals);
    var k := PointAt(q);
    if k == |q| then q else Joined(q[..k], DropTrailingZeros(Cut(q[k + 1..], lot)))
  }

  // ------------------------------------------------------------------ numbers and text

  lemma {:induction false} PowAdds(a: nat, b: nat)
    ensures Pow10(a + b) == Pow10(a) * Pow10(b)
  {
    if a > 0 {
      PowAdds(a - 1, b);
    }
  }

  lemma {:induction false} NumberOfConcat(s: string, t: string)
    requires AllDigits(s) && AllDigits(t)
    ensures AllDigits(s + t) && Number(s + t) == Number(s) * Pow10(|t|) + Number(t)
  {
    if t == "" {
      assert s + t == s;
    } else {
      var n := |t| - 1;
      NumberOfConcat(s, t[..n]);
      assert (s + t)[..|s + t| - 1] == s + t[..n];
      assert (s + t)[|s + t| - 1] == t[n];
      TenTimes(Number(s), Pow10(n), Number(t[..n]));
    }
  }

  lemma {:induction false} NumberBelow(s: string)
    requires AllDigits(s)
    ensures Number(s) < Pow10(|s|)
  {
    if s != "" {
      NumberBelow(s[..|s| - 1]);
    }
  }

  lemma {:induction false} ZerosAreZero(n: nat)
    ensures AllDigits(Repeat('0', n)) && Number(Repeat('0', n)) == 0
  {
    if n > 0 {
      assert Repeat('0', n)[..n - 1] == Repeat('0', n - 1);
      ZerosAreZero(n - 1);
    }
  }

  lemma {:induction false} LeadingZerosDoNotCount(s: string)
    requires AllDigits(s)
    ensures AllDigits(DropLeadingZeros(s)) && Number(DropLeadingZeros(s)) == Number(s)
  {
    if s != "" && s[0] == '0' {
      LeadingZerosDoNotCount(s[1..]);
      NumberOfConcat(s[..1], s[1..]);
      assert s[..1][..0] == "";
      assert Number(s[..1]) == 0;
      assert s == s[..1] + s[1..];
    }
  }

  /** What the digits after a point are worth in minor units. */
  function FractionWorth(fraction: string, decimals: nat): nat
    requires AllDigits(fraction)
  {
    if |fraction| >= decimals then Number(fraction[..decimals]) else Number(fraction) * Pow10(decimals - |fraction|)
  }

  function Worth(whole: string, fraction: string, decimals: nat): nat
    requires AllDigits(whole) && AllDigits(fraction)
  {
    Number(whole) * Pow10(decimals) + FractionWorth(fraction, decimals)
  }

  function Bounded(v: nat): Result<int, ParseError> {
    if v <= MAX_INT64 then Ok(v) else Err(OutOfRange)
  }

  lemma PadIsWorth(fraction: string, decimals: nat)
    requires AllDigits(fraction)
    ensures var p := Pad(Cut(fraction, decimals), decimals);
            |p| == decimals && AllDigits(p) && Number(p) == FractionWorth(fraction, decimals)
  {
    if |fraction| < decimals {
      var zeros := Repeat('0', decimals - |fraction|);
      ZerosAreZero(|zeros|);
      NumberOfConcat(fraction, zeros);
    } else {
      assert Pad(Cut(fraction, decimals), decimals) == fraction[..decimals];
    }
  }

  lemma ParseDigitsIs(digits: string)
    requires AllDigits(digits)
    ensures ParseDigits(digits) == Bounded(Number(digits))
  {
    LeadingZerosDoNotCount(digits);
    var combined := DropLeadingZeros(digits);
    if combined != "" {
      assert IsDigit(combined[0]);
    }
  }

  // The parser's answer for an amount whose two parts are digits.
  lemma ParseParts(value: string, decimals: nat)
    requires Trim(value) == value && value != "" && value[0] != '-'
    requires AllDigits(WholePart(value)) && AllDigits(FractionPart(value))
    ensures ParseMinor(value, decimals) == Bounded(Worth(WholePart(value), FractionPart(value), decimals))
  {
    hide Trim, PointAt, ParseDigits, Pad, Cut, FractionWorth;
    var whole, fraction := WholePart(value), FractionPart(value);
    var p := Pad(Cut(fraction, decimals), decimals);
    PadIsWorth(fraction, decimals);
    hide WholePart, FractionPart;
    NumberOfConcat(whole, p);
    ParseDigitsIs(whole + p);
  }

  /** The amount digits are worth: floor(value * 10^decimals), the value being the number all the digits
      spell, shifted right by the number of digits after the point. */
  function Floor(whole: string, fraction: string, decimals: nat): nat
    requires AllDigits(whole + fraction)
  {
    Scaled(Number(whole + fraction), Pow10(decimals), Pow10(|fraction|))
  }

  lemma WorthIsFloor(whole: string, fraction: string, decimals: nat)
    requires AllDigits(whole) && AllDigits(fraction)
    ensures AllDigits(whole + fraction)
    ensures Floor(whole, fraction, decimals) == Worth(whole, fraction, decimals)
  {
    NumberOfConcat(whole, fraction);
    var n, w := Number(whole + fraction), Number(whole);
    if |fraction| >= decimals {
      var kept, lost := fraction[..decimals], fraction[decimals..];
      assert fraction == kept + lost;
      NumberOfConcat(kept, lost);
      NumberBelow(lost);
      PowAdds(decimals, |lost|);
      FloorOfCut(n, Pow10(|fraction|), w, Number(kept), Number(lost), Pow10(decimals), Pow10(|lost|));
    } else {
      PowAdds(|fraction|, decimals - |fraction|);
      FloorOfShort(n, Pow10(decimals), w, Number(fraction), Pow10(|fraction|), Pow10(decimals - |fraction|));
    }
  }

  function Written(whole: string, fraction: string, point: bool): string {
    if point then whole + "." + fraction else whole
  }

  /** Well-formed amounts parse to the floor of their value in minor units, or are out of range: digits,
      optionally a point and more digits (in any number), possibly with white space around them. */
  lemma WellFormedParsesToFloor(input: string, whole: string, fraction: string, point: bool, decimals: nat)
    requires AllDigits(whole) && AllDigits(fraction) && (!point ==> whole != "" && fraction == "")
    requires Trim(input) == Written(whole, fraction, point)
    ensures AllDigits(whole + fraction)
    ensures ParseMinor(input, decimals) == Bounded(Floor(whole, fraction, decimals))
  {
    WorthIsFloor(whole, fraction, decimals);
    PartsOf(whole, fraction, point);
    BareIsZero(fraction, decimals);
    TrimTwice(input);
    var value := Trim(input);
    assert ParseMinor(input, decimals) == ParseMinor(value, decimals);
    hide Trim, Written, WholePart, FractionPart, Worth, ParseMinor, Floor;
    ParseParts(value, decimals);
  }

  lemma BareIsZero(fraction: string, decimals: nat)
    requires AllDigits(fraction)
    ensures AllDigits("") && AllDigits("0") && Worth("0", fraction, decimals) == Worth("", fraction, decimals)
  {
    assert "0"[..0] == "";
    assert Number("0") == Number("") == 0;
  }

  lemma PartsOf(whole: string, fraction: string, point: bool)
    requires AllDigits(whole) && AllDigits(fraction) && (!point ==> whole != "" && fraction == "")
    ensures var value := Written(whole, fraction, point);
            value != "" && WholePart(value) == (if whole == "" then "0" else whole) && FractionPart(value) == fraction
            && value[0] != '-'
  {
    var value := Written(whole, fraction, point);
    var k := PointAt(value);
    forall i | 0 <= i < |whole|
      ensures value[i] != '.'
    {
      assert value[i] == whole[i] && IsDigit(whole[i]);
    }
    if point {
      assert value[|whole|] == '.';
      assert k == |whole|;
      assert value[..k] == whole;
      assert value[k + 1..] == fraction;
    } else {
      assert k == |whole|;
    }
  }

  // ------------------------------------------------------------------ signs

  /** Zeros, a minus sign, and digits that spell a number of 64 bits other than zero. */
  ghost predicate SpellsNegative(s: string, k: int) {
    && 0 <= k < |s| && (forall i :: 0 <= i < k ==> s[i] == '0') && s[k] == '-' && AllDigits(s[k + 1..])
    && 0 < Number(s[k + 1..]) <= 9_223_372_036_854_775_808
  }

  lemma {:induction false} NegativeDigits(s: string)
    ensures ParseDigits(s).Ok? && ParseDigits(s).value < 0 <==> exists k :: SpellsNegative(s, k)
  {
    if s != "" && s[0] == '0' {
      NegativeDigits(s[1..]);
      assert forall k :: SpellsNegative(s[1..], k) ==> SpellsNegative(s, k + 1) by {
        forall k | SpellsNegative(s[1..], k)
          ensures SpellsNegative(s, k + 1)
        {
          assert s[1..][k + 1..] == s[k + 2..];
        }
      }
      if k :| SpellsNegative(s, k) {
        assert k > 0 && s[1..][k..] == s[k + 1..];
        assert SpellsNegative(s[1..], k - 1);
      }
    } else if s != "" {
      assert SpellsNegative(s, 0) <==> exists k :: SpellsNegative(s, k);
      assert s[0] == '-' ==> s[1..] == s[0 + 1..];
    }
  }

  /** The parser turns down texts that start with a minus sign and still reads some as negative: those, and only those, whose
      whole part is zeros and whose fraction has a minus sign behind zeros. */
  lemma ParsesNegativeIff(input: string, decimals: nat)
    ensures ParseMinor(input, decimals).Ok? && ParseMinor(input, decimals).value < 0 <==>
              var value := Trim(input);
              value != "" && value[0] != '-'
              && exists k :: SpellsNegative(WholePart(value) + Pad(Cut(FractionPart(value), decimals), decimals), k)
  {
    var value := Trim(input);
    NegativeDigits(WholePart(value) + Pad(Cut(FractionPart(value), decimals), decimals));
    hide Trim, WholePart, FractionPart, Pad, Cut, ParseDigits;
  }

  /** A plus sign before the digits is read and means nothing. */
  lemma PlusIsRead(digits: string)
    requires AllDigits(digits) && digits != ""
    ensures ParseDigits("+" + digits) == Bounded(Number(digits))
  {
    var s := "+" + digits;
    assert DropLeadingZeros(s) == s && s[1..] == digits;
  }

  /** A negative amount is printed as its opposite behind a minus sign. */
  lemma NegativePrints(v: int, decimals: nat)
    requires MIN_INT64 < v < 0
    ensures PrintMinor(v, decimals) == "-" + PrintMinor(-v, decimals)
  {
    hide Joined, DropTrailingZeros, Padded, Spell, Negated;
    NegatedIs(v);
  }

  lemma NegatedIs(v: int)
    requires MIN_INT64 < v
    ensures Negated(v) == -v
  {
  }

  /** All but the smallest, which is its own opposite in 64 bits and comes out with two signs. */
  lemma SmallestPrints(decimals: nat)
    requires decimals <= 18
    ensures "--" <= PrintMinor(-9_223_372_036_854_775_808, decimals)
  {
    var n: nat := 9_223_372_036_854_775_808;
    LongSpelling(n);
    hide Spell, Pow10, Number;
    var t := "-" + Spell(n);
    assert t[..|t| - decimals][0] == '-';
  }

  lemma LongSpelling(n: nat)
    requires n >= 1_000_000_000_000_000_000
    ensures |Spell(n)| > 18
  {
    NumberBelow(Spell(n));
    if |Spell(n)| <= 18 {
      PowersGrow(|Spell(n)|, 18);
    }
    assert Pow10(18) == 10 * Pow10(17) == 100 * Pow10(16) == 1000 * Pow10(15);
    LotsInFull();
  }

  lemma {:induction false} PowersGrow(a: nat, b: nat)
    requires a <= b
    ensures Pow10(a) <= Pow10(b)
  {
    if a < b {
      PowersGrow(a, b - 1);
    }
  }

  // Half a coin below zero.
  lemma NegativeHalf()
    ensures ParseMinor("0.-5", 2) == Ok(-5)
  {
    var value := "0.-5";
    VisibleEnds(value);
    assert PointAt(value) == 1;
    assert value[2..] == "-5" && "0" + "-5" == "0-5" && "0-5"[1..] == "-5" && "-5"[1..] == "5" && "5"[..0] == "";
    assert DropLeadingZeros("0-5") == DropLeadingZeros("-5") == "-5";
    assert Number("5") == 5;
  }

  // ------------------------------------------------------------------ round trips

  lemma VisibleEnds(s: string)
    requires s != "" && !IsSpace(s[0]) && !IsSpace(s[|s| - 1])
    ensures Trim(s) == s
  {
  }

  // Trailing zeros of a fraction are worth nothing.
  lemma TrailingZerosWorth(x: string, n: nat, decimals: nat)
    requires AllDigits(x) && |x| + n <= decimals
    ensures AllDigits(x + Repeat('0', n))
    ensures FractionWorth(x + Repeat('0', n), decimals) == FractionWorth(x, decimals)
  {
    ZerosAreZero(n);
    NumberOfConcat(x, Repeat('0', n));
    FractionOfShort(x, decimals);
    FractionOfShort(x + Repeat('0', n), decimals);
    PowAdds(n, decimals - |x| - n);
    Associate(Number(x), Pow10(n), Pow10(decimals - |x| - n));
  }

  lemma FractionOfShort(x: string, decimals: nat)
    requires AllDigits(x) && |x| <= decimals
    ensures FractionWorth(x, decimals) == Number(x) * Pow10(decimals - |x|)
  {
    if |x| == decimals {
      assert x[..decimals] == x;
    }
  }

  lemma ZerosDropped(x: string)
    requires AllDigits(x)
    ensures x == DropTrailingZeros(x) + Repeat('0', |x| - |DropTrailingZeros(x)|) && AllDigits(DropTrailingZeros(x))
  {
  }

  lemma DroppedZerosWorth(x: string, decimals: nat)
    requires AllDigits(x) && |x| <= decimals
    ensures AllDigits(DropTrailingZeros(x)) && FractionWorth(DropTrailingZeros(x), decimals) == FractionWorth(x, decimals)
  {
    ZerosDropped(x);
    hide DropTrailingZeros, FractionWorth, Repeat;
    TrailingZerosWorth(DropTrailingZeros(x), |x| - |DropTrailingZeros(x)|, decimals);
  }

  // The two parts of a printed amount.
  function WholeDigits(v: nat, decimals: nat): string {
    Padded(v, decimals)[..|Padded(v, decimals)| - decimals]
  }

  function FractionDigits(v: nat, decimals: nat): string {
    Padded(v, decimals)[|Padded(v, decimals)| - decimals..]
  }

  lemma PartsSpell(v: nat, decimals: nat)
    ensures var w, f := WholeDigits(v, decimals), FractionDigits(v, decimals);
            w != "" && |f| == decimals && AllDigits(w) && AllDigits(f) && AllDigits(w + f) && Number(w + f) == v
  {
    var raw := Spell(v);
    var s := Padded(v, decimals);
    if |raw| <= decimals {
      var zeros := Repeat('0', decimals - |raw| + 1);
      ZerosAreZero(|zeros|);
      NumberOfConcat(zeros, raw);
    }
    assert WholeDigits(v, decimals) + FractionDigits(v, decimals) == s;
  }

  lemma JoinedIsWritten(w: string, f: string)
    requires w != "" && AllDigits(w) && AllDigits(f)
    ensures Joined(w, f) == Written(w, f, f != "") && Trim(Joined(w, f)) == Joined(w, f)
  {
    VisibleEnds(Joined(w, f));
  }

  // A joined text parses to what its parts are worth.
  lemma JoinedParses(w: string, f: string, decimals: nat)
    requires w != "" && AllDigits(w) && AllDigits(f)
    ensures ParseMinor(Joined(w, f), decimals) == Bounded(Worth(w, f, decimals))
  {
    JoinedIsWritten(w, f);
    WorthIsFloor(w, f, decimals);
    hide Trim, Joined, ParseMinor, Floor, Worth;
    WellFormedParsesToFloor(Joined(w, f), w, f, f != "", decimals);
  }

  lemma PrintedWorth(v: nat, decimals: nat)
    ensures var w, f := WholeDigits(v, decimals), DropTrailingZeros(FractionDigits(v, decimals));
            w != "" && AllDigits(w) && AllDigits(f) && Worth(w, f, decimals) == v
    ensures PrintMinor(v, decimals) == Joined(WholeDigits(v, decimals), DropTrailingZeros(FractionDigits(v, decimals)))
  {
    var w, f := WholeDigits(v, decimals), FractionDigits(v, decimals);
    PartsSpell(v, decimals);
    DroppedZerosWorth(f, decimals);
    NumberOfConcat(w, f);
    FractionOfShort(f, decimals);
  }

  /** Printing and parsing are inverse: every amount of 64 bits, printed and parsed back, is itself when it is
      not negative, and is refused when it is. */
  lemma PrintThenParse(v: int, decimals: nat)
    requires MIN_INT64 <= v <= MAX_INT64
    ensures ParseMinor(PrintMinor(v, decimals), decimals) == if v >= 0 then Ok(v) else Err(Negative)
  {
    if v >= 0 {
      PrintedWorth(v, decimals);
      hide *;
      JoinedParses(WholeDigits(v, decimals), DropTrailingZeros(FractionDigits(v, decimals)), decimals);
      BoundedFits(v);
    } else {
      NegativeParses(PrintMinor(v, decimals)[1..], decimals);
      assert PrintMinor(v, decimals) == "-" + PrintMinor(v, decimals)[1..];
    }
  }

  lemma BoundedFits(v: nat)
    requires v <= MAX_INT64
    ensures Bounded(v) == Ok(v)
  {
  }

  lemma NegativeParses(rest: string, decimals: nat)
    ensures ParseMinor("-" + rest, decimals) == Err(Negative)
  {
    TrimKeepsHead("-", rest);
  }

  // ------------------------------------------------------------------ exchange quantities

  lemma PointOfJoined(w: string, f: string)
    requires AllDigits(w)
    ensures PointAt(Joined(w, f)) == |w|
  {
    var q := Joined(w, f);
    assert forall i :: 0 <= i < |w| ==> q[i] == w[i] && IsDigit(w[i]);
    if f != "" {
      assert q[|w|] == '.';
    }
  }

  // The fraction an order keeps of the fraction f of an amount.
  function LotFraction(f: string, lot: nat): string {
    DropTrailingZeros(Cut(DropTrailingZeros(f), lot))
  }

  lemma QuantityIsJoined(v: nat, decimals: nat, lot: nat)
    ensures ExchangeQuantity(v, decimals, lot) == Joined(WholeDigits(v, decimals), LotFraction(FractionDigits(v, decimals), lot))
  {
    var w, f := WholeDigits(v, decimals), DropTrailingZeros(FractionDigits(v, decimals));
    PartsSpell(v, decimals);
    assert PrintMinor(v, decimals) == Joined(w, f);
    hide PrintMinor, WholeDigits, FractionDigits, PointAt;
    PointOfJoined(w, f);
    var q := Joined(w, f);
    if f != "" {
      assert q[..|w|] == w;
      assert q[|w| + 1..] == f;
    }
  }

  // What the kept fraction is worth: its first digits, scaled back up.
  lemma LotFractionWorth(f: string, decimals: nat, lot: nat)
    requires AllDigits(f) && |f| == decimals && lot < decimals
    ensures AllDigits(LotFraction(f, lot)) && AllDigits(f[..lot])
    ensures FractionWorth(LotFraction(f, lot), decimals) == Number(f[..lot]) * LotOf(decimals, lot)
  {
    var t := Cut(DropTrailingZeros(f), lot);
    assert t == f[..|t|];
    assert AllDigits(t);
    DroppedZerosWorth(t, decimals);
    assert f[..lot] == t + Repeat('0', lot - |t|);
    TrailingZerosWorth(t, lot - |t|, decimals);
    FractionOfShort(f[..lot], decimals);
  }

  function LotOf(decimals: nat, lot: nat): (size: nat)
    requires lot <= decimals
    ensures size >= 1
  {
    Pow10(decimals - lot)
  }

  lemma NumberSplit(s: string, t: string, unit: nat)
    requires AllDigits(s) && AllDigits(t) && unit == Pow10(|t|)
    ensures AllDigits(s + t) && Number(s + t) == Number(s) * unit + Number(t) && Number(t) < unit
  {
    NumberOfConcat(s, t);
    NumberBelow(t);
  }

  lemma LotIs(decimals: nat, lot: nat, n: nat)
    requires lot < decimals && n == decimals - lot
    ensures LotOf(decimals, lot) == Pow10(n) && Pow10(decimals) == Pow10(lot) * LotOf(decimals, lot)
  {
    PowAdds(lot, n);
    hide Pow10;
  }

  lemma LotDigits(v: nat, decimals: nat, lot: nat)
    requires lot < decimals
    ensures var w, f, unit := WholeDigits(v, decimals), FractionDigits(v, decimals), LotOf(decimals, lot);
            AllDigits(w) && |f| == decimals && AllDigits(f[..lot]) && AllDigits(f[lot..]) && Number(f[lot..]) < unit
            && AllDigits(w + f[..lot]) && v == Number(w + f[..lot]) * unit + Number(f[lot..])
            && Number(w + f[..lot]) == Number(w) * Pow10(lot) + Number(f[..lot])
    ensures Pow10(decimals) == Pow10(lot) * LotOf(decimals, lot)
  {
    var w, f := WholeDigits(v, decimals), FractionDigits(v, decimals);
    hide *;
    PartsSpell(v, decimals);
    SplitFraction(w, f, lot);
    LotIs(decimals, lot, |f[lot..]|);
    NumberSplit(w, f[..lot], Pow10(lot));
    NumberSplit(w + f[..lot], f[lot..], LotOf(decimals, lot));
  }

  lemma SplitFraction(w: string, f: string, lot: nat)
    requires AllDigits(w) && AllDigits(f) && lot <= |f|
    ensures AllDigits(f[..lot]) && AllDigits(f[lot..]) && AllDigits(w + f[..lot])
    ensures w + f == (w + f[..lot]) + f[lot..]
  {
  }

  lemma LotSplit(v: nat, decimals: nat, lot: nat)
    requires lot < decimals
    ensures var w, f := WholeDigits(v, decimals), FractionDigits(v, decimals);
            AllDigits(w) && |f| == decimals && AllDigits(f[..lot])
            && Number(w) * Pow10(decimals) + Number(f[..lot]) * LotOf(decimals, lot) == WholePortion(v, LotOf(decimals, lot))
  {
    LotDigits(v, decimals, lot);
    var w, f := WholeDigits(v, decimals), FractionDigits(v, decimals);
    hide WholeDigits, FractionDigits, Pow10, LotOf, Number, WholePortion;
    WholeUnits(v, Number(w + f[..lot]), Number(w), Number(f[..lot]), Number(f[lot..]), Pow10(decimals), Pow10(lot), LotOf(decimals, lot));
  }

  /** An order sells whole lots: the quantity text of an amount, read back, is the amount less its remainder by
      the lot size, so an order never exceeds the deposit and leaves less than one lot of it. */
  lemma QuantityIsWholeLots(v: nat, decimals: nat, lot: nat)
    requires v <= MAX_INT64 && lot < decimals
    ensures ParseMinor(ExchangeQuantity(v, decimals, lot), decimals) == Ok(WholePortion(v, LotOf(decimals, lot)))
    ensures WholePortion(v, LotOf(decimals, lot)) <= v < WholePortion(v, LotOf(decimals, lot)) + LotOf(decimals, lot)
  {
    QuantityWorth(v, decimals, lot);
    QuantityIsJoined(v, decimals, lot);
    PortionBounds(v, LotOf(decimals, lot));
    hide *;
    JoinedParses(WholeDigits(v, decimals), LotFraction(FractionDigits(v, decimals), lot), decimals);
    BoundedFits(WholePortion(v, LotOf(decimals, lot)));
  }

  lemma QuantityWorth(v: nat, decimals: nat, lot: nat)
    requires lot < decimals
    ensures var w, g := WholeDigits(v, decimals), LotFraction(FractionDigits(v, decimals), lot);
            w != "" && AllDigits(w) && AllDigits(g) && Worth(w, g, decimals) == WholePortion(v, LotOf(decimals, lot))
  {
    PartsSpell(v, decimals);
    hide WholeDigits, FractionDigits, LotFraction, FractionWorth, Number, Pow10, LotOf, WholePortion;
    LotFractionWorth(FractionDigits(v, decimals), decimals, lot);
    LotSplit(v, decimals, lot);
  }

  lemma {:induction false} SpellLeads(n: nat)
    requires n > 0
    ensures Spell(n)[0] != '0'
  {
    if n >= 10 {
      SpellLeads(n / 10);
    }
  }

  lemma {:induction false} LeadingDigitCounts(s: string)
    requires AllDigits(s) && s != "" && s[0] != '0'
    ensures Number(s) > 0
  {
    if |s| > 1 {
      LeadingDigitCounts(s[..|s| - 1]);
    }
  }

  lemma {:induction false} LastDigitCounts(s: string)
    requires AllDigits(s) && s != "" && s[|s| - 1] != '0'
    ensures Number(s) > 0
  {
  }

  lemma WholeIsZeroOrLeads(v: nat, decimals: nat)
    ensures WholeDigits(v, decimals) == "0" || WholeDigits(v, decimals)[..1] != "0"
    ensures WholeDigits(v, decimals) != ""
  {
    var raw := Spell(v);
    var s := Padded(v, decimals);
    if |raw| <= decimals {
      assert WholeDigits(v, decimals) == s[..1] == "0";
    } else if v > 0 {
      SpellLeads(v);
      assert WholeDigits(v, decimals)[0] == raw[0];
    } else {
      assert raw == "0";
    }
  }

  /** The order is refused as empty ("0") exactly when the amount is less than one lot. */
  lemma QuantityZeroIff(v: nat, decimals: nat, lot: nat)
    requires v <= MAX_INT64 && lot < decimals
    ensures ExchangeQuantity(v, decimals, lot) == "0" <==> v < LotOf(decimals, lot)
  {
    var w, f := WholeDigits(v, decimals), FractionDigits(v, decimals);
    var g := LotFraction(f, lot);
    PartsSpell(v, decimals);
    QuantityIsJoined(v, decimals, lot);
    LotFractionWorth(f, decimals, lot);
    LotSplit(v, decimals, lot);
    WholeIsZeroOrLeads(v, decimals);
    var unit := LotOf(decimals, lot);
    if v < unit {
      QuotientIs(v, unit, 0, v);
      ZeroFactor(Number(w), Pow10(decimals), Number(f[..lot]) * unit);
      if w != "0" {
        LeadingDigitCounts(w);
      } else if g != "" {
        LastDigitCounts(g);
        FractionOfLot(g, decimals, lot);
      }
    } else if ExchangeQuantity(v, decimals, lot) == "0" {
      QuantityIsWholeLots(v, decimals, lot);
      ZeroParses(decimals);
    }
  }

  lemma ZeroFactor(a: nat, b: nat, c: nat)
    requires a * b + c == 0 && b > 0
    ensures a == 0 && c == 0
  {
    ProductNonNegative(a, b);
    if a > 0 {
      MulStep(0, a, b);
    }
  }

  lemma ZeroParses(decimals: nat)
    ensures ParseMinor("0", decimals) == Ok(0)
  {
    ZeroWorth(decimals);
    assert AllDigits("0") && Joined("0", "") == "0";
    hide Worth, ParseMinor, AllDigits, Joined;
    JoinedParses("0", "", decimals);
  }

  lemma ZeroWorth(decimals: nat)
    ensures Worth("0", "", decimals) == 0 && AllDigits("")
  {
    BareIsZero("", decimals);
    ProductNonNegative(0, Pow10(decimals));
    FractionOfShort("", decimals);
  }

  lemma FractionOfLot(g: string, decimals: nat, lot: nat)
    requires AllDigits(g) && |g| <= lot <= decimals && Number(g) > 0
    ensures FractionWorth(g, decimals) > 0
  {
    FractionOfShort(g, decimals);
    MulStep(0, Number(g), Pow10(decimals - |g|));
  }

  // ------------------------------------------------------------------ every asset

  // A text whose upper case shows visible ends is already trimmed.
  lemma VisibleIsTrimmed(s: string)
    requires s != "" && !IsSpace(Upper(s)[0]) && !IsSpace(Upper(s)[|s| - 1])
    ensures Trim(s) == s
  {
    assert !IsSpace(s[0]) && !IsSpace(s[|s| - 1]);
    VisibleEnds(s);
  }

  lemma StableCoins(asset: string)
    requires Upper(asset) == "USDT" || Upper(asset) == "USDC"
    ensures |asset| == 4 && !IsSpace(Upper(asset)[0]) && !IsSpace(Upper(asset)[3])
  {
  }

  /** For every asset name, known or not, the exchange's precision is coarser than the asset's. */
  lemma PrecisionBelowDecimals(asset: string)
    ensures LotDecimals(asset) < AssetDecimals(asset)
  {
    if Upper(asset) == "USDT" || Upper(asset) == "USDC" {
      StableCoins(asset);
      VisibleIsTrimmed(asset);
      hide Upper, Trim;
    } else {
      hide Upper, Trim;
    }
  }

  /** For every asset and every amount of 64 bits, the quantity sent to the exchange, read back, is the deposit less
      its remainder by the asset's lot. */
  lemma SaleNeverExceedsDeposit(asset: string, v: nat)
    requires v <= MAX_INT64
    ensures var d, p := AssetDecimals(asset), LotDecimals(asset);
            p < d && ParseMinor(ExchangeQuantity(v, d, p), d) == Ok(WholePortion(v, LotOf(d, p)))
            && WholePortion(v, LotOf(d, p)) <= v < WholePortion(v, LotOf(d, p)) + LotOf(d, p)
  {
    PrecisionBelowDecimals(asset);
    hide *;
    QuantityIsWholeLots(v, AssetDecimals(asset), LotDecimals(asset));
  }

  // What the assets traded are counted in, and the lot of each the exchange sells, in literals.
  ghost predicate CountedIn(name: string, decimals: nat, unit: nat) {
    && (name == "BTC" ==> decimals == 8 && unit == 100)
    && (name == "ETH" ==> decimals == 18 && unit == 10_000_000_000_000)
    && (name == "BNB" ==> decimals == 18 && unit == 1_000_000_000_000_000)
    && (name == "USDT" || name == "USDC" ==> decimals == 6 && unit == 10_000)
    && (name !in {"BTC", "ETH", "BNB", "USDT", "USDC"} ==> decimals == 8 && unit == 100)
  }

  ghost predicate LeavesRemainder(sold: Result<int, ParseError>, v: nat, unit: nat)
    requires unit > 0
  {
    sold == Ok(v - v % unit)
  }

  lemma LotsInFull()
    ensures Pow10(2) == 100 && Pow10(4) == 10_000
    ensures Pow10(13) == 10_000_000_000_000 && Pow10(15) == 1_000_000_000_000_000
  {
    assert Pow10(4) == 10 * Pow10(3) == 100 * Pow10(2);
    assert Pow10(8) == 10 * Pow10(7) == 100 * Pow10(6) == 1000 * Pow10(5) == 10_000 * Pow10(4);
    assert Pow10(12) == 10 * Pow10(11) == 100 * Pow10(10) == 1000 * Pow10(9) == 10_000 * Pow10(8);
    assert Pow10(15) == 10 * Pow10(14) == 100 * Pow10(13);
  }

  lemma AssetIsCountedIn(asset: string, decimals: nat, unit: nat)
    requires Trim(asset) == asset && CountedIn(Upper(asset), decimals, unit)
    ensures AssetDecimals(asset) == decimals && LotDecimals(asset) < decimals && LotOf(decimals, LotDecimals(asset)) == unit
  {
    LotsInFull();
    hide Trim, Upper, Pow10;
  }

  /** In its own unit the quantity of an order is the deposit less its remainder by the lot: a millionth of a bitcoin
      (100 of its 10^8 parts), 10^13 wei of ether, 10^15 of BNB, a cent of a dollar coin. */
  lemma AssetSellsInLots(v: nat, asset: string, decimals: nat, unit: nat)
    requires v <= MAX_INT64 && Trim(asset) == asset && CountedIn(Upper(asset), decimals, unit) && unit > 0
    ensures LeavesRemainder(ParseMinor(ExchangeQuantity(v, AssetDecimals(asset), LotDecimals(asset)), decimals), v, unit)
  {
    AssetIsCountedIn(asset, decimals, unit);
    hide *;
    QuantityIsWholeLots(v, decimals, LotDecimals(asset));
    PortionIs(v, unit);
  }

  lemma PortionIs(v: nat, unit: nat)
    requires unit > 0
    ensures LeavesRemainder(Ok(WholePortion(v, unit)), v, unit)
  {
  }

  /** The exchange takes the text of every order: digits, and after a point at most as many more as its precision
      allows, the last of them not zero. */
  lemma QuantityFitsExchange(v: nat, decimals: nat, lot: nat)
    ensures exists w, f :: w != "" && AllDigits(w) && AllDigits(f) && |f| <= lot && (f != "" ==> f[|f| - 1] != '0')
                           && ExchangeQuantity(v, decimals, lot) == Written(w, f, f != "")
  {
    var w, f := WholeDigits(v, decimals), LotFraction(FractionDigits(v, decimals), lot);
    PartsSpell(v, decimals);
    QuantityIsJoined(v, decimals, lot);
    hide WholeDigits, FractionDigits, ExchangeQuantity;
    assert AllDigits(f);
    JoinedIsWritten(w, f);
  }
}
