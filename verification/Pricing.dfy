/** Quote amounts on the live and the fallback path, and the chunked funding of the sandbox.
    Rates are exact numbers here; amounts are cut to kobo where the program cuts them. */
module Pricing {

  datatype Amounts = Amounts(gross: int, fee: int, net: int)

  /** Fee in basis points for an amount in minor units. */
  function FeeBps(amount: int): (bps: nat)
    ensures 100 <= bps <= 300
  {
    var estimate := TruncatedQuotient(amount, 100);
    if estimate < 10_000 then 300
    else if estimate < 100_000 then 200
    else if estimate < 1_000_000 then 150
    else 100
  }

  /** Integer division that truncates toward zero. */
  function TruncatedQuotient(a: int, b: int): int
    requires b > 0
  {
    if a >= 0 then a / b else -(-a / b)
  }

  /** A number cut toward zero. */
  function Truncate(x: real): int {
    if x >= 0.0 then x.Floor else -((-x).Floor)
  }

  /** Worth of an amount in kobo before the fee, not yet cut to a whole number. */
  function Worth(amount: int, unit: int, cryptoPrice: real, fiatRate: real): real
    requires unit > 0
  {
    amount as real / unit as real * cryptoPrice * fiatRate * 100.0
  }

  function Share(bps: nat): real {
    1.0 - bps as real / 10000.0
  }

  /** The live quote: gross and net are cut separately and the fee is what lies between them. */
  function Live(amount: int, unit: int, cryptoPrice: real, fiatRate: real): Amounts
    requires unit > 0
  {
    var worth := Worth(amount, unit, cryptoPrice, fiatRate);
    var gross := Truncate(worth);
    var net := Truncate(worth * Share(FeeBps(amount)));
    Amounts(gross, gross - net, net)
  }

  /** The fallback quote: fixed prices, a flat two per cent, and the fee cut from the gross amount. */
  function Fallback(amount: int, unit: int, cryptoPrice: real): Amounts
    requires unit > 0
  {
    var gross := Truncate(Worth(amount, unit, cryptoPrice, 1650.0));
    var fee := TruncatedQuotient(gross * 200, 10_000);
    Amounts(gross, fee, gross - fee)
  }

  lemma FeeFallsWithVolume(a: int, b: int)
    requires a <= b
    ensures FeeBps(a) >= FeeBps(b)
  {
    assert TruncatedQuotient(a, 100) <= TruncatedQuotient(b, 100);
  }

  lemma ProductGrows(x: real, y: real, k: real, l: real)
    requires 0.0 <= x <= y && 0.0 <= k <= l
    ensures 0.0 <= x * k <= y * l
  {
    assert x * k <= y * k;
    assert y * k <= y * l;
  }

  lemma WorthGrows(a: int, b: int, unit: int, cryptoPrice: real, fiatRate: real)
    requires unit > 0 && 0 <= a <= b && cryptoPrice >= 0.0 && fiatRate >= 0.0
    ensures 0.0 <= Worth(a, unit, cryptoPrice, fiatRate) <= Worth(b, unit, cryptoPrice, fiatRate)
  {
    var x, y := a as real / unit as real, b as real / unit as real;
    assert 0.0 <= x <= y;
    ProductGrows(x, y, cryptoPrice, cryptoPrice);
    ProductGrows(x * cryptoPrice, y * cryptoPrice, fiatRate, fiatRate);
  }

  lemma TruncateGrows(x: real, y: real)
    requires x <= y
    ensures Truncate(x) <= Truncate(y)
    ensures 0.0 <= x ==> Truncate(x) >= 0
  {
  }

  /** A live quote never pays more than the sale is worth and never less than nothing, and what it withholds
      is exactly the fee. */
  lemma LiveQuoteIsSound(amount: int, unit: int, cryptoPrice: real, fiatRate: real)
    requires unit > 0 && amount >= 0 && cryptoPrice >= 0.0 && fiatRate >= 0.0
    ensures var q := Live(amount, unit, cryptoPrice, fiatRate);
            0 <= q.net <= q.gross && 0 <= q.fee && q.net + q.fee == q.gross
  {
    var worth := Worth(amount, unit, cryptoPrice, fiatRate);
    WorthGrows(amount, amount, unit, cryptoPrice, fiatRate);
    var share := Share(FeeBps(amount));
    ProductGrows(worth, worth, share, 1.0);
    ProductGrows(worth, worth, 0.0, share);
    TruncateGrows(worth * share, worth);
  }

  /** Selling more never pays out less, even where the fee tier changes. */
  lemma LivePayoutGrows(a: int, b: int, unit: int, cryptoPrice: real, fiatRate: real)
    requires unit > 0 && 0 <= a <= b && cryptoPrice >= 0.0 && fiatRate >= 0.0
    ensures Live(a, unit, cryptoPrice, fiatRate).net <= Live(b, unit, cryptoPrice, fiatRate).net
    ensures Live(a, unit, cryptoPrice, fiatRate).gross <= Live(b, unit, cryptoPrice, fiatRate).gross
  {
    var x, y := Worth(a, unit, cryptoPrice, fiatRate), Worth(b, unit, cryptoPrice, fiatRate);
    WorthGrows(a, b, unit, cryptoPrice, fiatRate);
    FeeFallsWithVolume(a, b);
    SharesGrow(FeeBps(b), FeeBps(a));
    ProductGrows(x, y, Share(FeeBps(a)), Share(FeeBps(b)));
    TruncateGrows(x, y);
    TruncateGrows(x * Share(FeeBps(a)), y * Share(FeeBps(b)));
  }

  lemma SharesGrow(low: nat, high: nat)
    requires low <= high <= 10_000
    ensures 0.0 <= Share(high) <= Share(low) <= 1.0
  {
  }

  /** The same of the fallback path, and a fee of at most two per cent rounded down. */
  lemma FallbackQuoteIsSound(a: int, b: int, unit: int, cryptoPrice: real)
    requires unit > 0 && 0 <= a <= b && cryptoPrice >= 0.0
    ensures var p, q := Fallback(a, unit, cryptoPrice), Fallback(b, unit, cryptoPrice);
            && 0 <= q.net <= q.gross && 0 <= q.fee && q.net + q.fee == q.gross && 50 * q.fee <= q.gross < 50 * q.fee + 50
            && p.net <= q.net
  {
    var x, y := Worth(a, unit, cryptoPrice, 1650.0), Worth(b, unit, cryptoPrice, 1650.0);
    WorthGrows(a, b, unit, cryptoPrice, 1650.0);
    TruncateGrows(x, y);
    NetOfGrossGrows(Truncate(x), Truncate(y));
  }

  lemma NetOfGrossGrows(g: int, h: int)
    requires 0 <= g <= h
    ensures 0 <= TruncatedQuotient(g * 200, 10_000) <= g
    ensures 50 * TruncatedQuotient(g * 200, 10_000) <= g < 50 * TruncatedQuotient(g * 200, 10_000) + 50
    ensures 50 * TruncatedQuotient(h * 200, 10_000) <= h < 50 * TruncatedQuotient(h * 200, 10_000) + 50
    ensures g - TruncatedQuotient(g * 200, 10_000) <= h - TruncatedQuotient(h * 200, 10_000)
  {
  }

  // ------------------------------------------------------------------ the amounts themselves

  /** The four fee rates and the amounts, in minor units, from which they hold. */
  lemma FeeTiers(amount: int)
    ensures FeeBps(amount) == if amount < 1_000_000 then 300 else if amount < 10_000_000 then 200 else if amount < 100_000_000 then 150 else 100
  {
  }

  /** The whole number of units in an amount. */
  predicate RoundedDown(n: int, amount: real, unit: real) {
    n as real * unit <= amount < (n + 1) as real * unit
  }

  /** The worth in kobo, a hundred to the naira, of as many coins as the amount has minor units. */
  function Kobo(amount: int, cryptoPrice: real, fiatRate: real): real {
    amount as real * cryptoPrice * fiatRate * 100.0
  }

  lemma WorthOfUnits(amount: int, unit: int, cryptoPrice: real, fiatRate: real)
    requires unit > 0
    ensures Worth(amount, unit, cryptoPrice, fiatRate) * unit as real == Kobo(amount, cryptoPrice, fiatRate)
  {
    var x, u := amount as real / unit as real, unit as real;
    assert x * u == amount as real;
    Reorder(x, cryptoPrice, fiatRate, u);
  }

  lemma Reorder(x: real, p: real, r: real, u: real)
    ensures x * p * r * 100.0 * u == x * u * p * r * 100.0
  {
    assert x * p * u == x * u * p;
    assert x * p * r * u == x * p * u * r;
    assert x * p * r * 100.0 * u == x * p * r * u * 100.0;
  }

  lemma CutBetween(x: real, u: real)
    requires x >= 0.0 && u > 0.0
    ensures Truncate(x) as real * u <= x * u < (Truncate(x) + 1) as real * u
  {
    var n := Truncate(x);
    assert n as real <= x < (n + 1) as real;
    ScaleUp(n as real, x, u);
    StrictlyUp(x, (n + 1) as real, u);
  }

  lemma ScaleUp(x: real, y: real, u: real)
    requires x <= y && u > 0.0
    ensures x * u <= y * u
  {
  }

  lemma StrictlyUp(x: real, y: real, u: real)
    requires x < y && u > 0.0
    ensures x * u < y * u
  {
  }

  /** What is left of an amount after a fee in basis points. */
  function LessFee(kobo: real, bps: nat): real {
    kobo * (1.0 - bps as real / 10000.0)
  }

  /** The live amounts in whole kobo, a hundred to the naira: gross is what the sale of the amount is worth, and net what is
      left of it after the fee, each rounded down. */
  lemma LiveAmounts(amount: int, unit: int, cryptoPrice: real, fiatRate: real)
    requires unit > 0 && amount >= 0 && cryptoPrice >= 0.0 && fiatRate >= 0.0
    ensures var q := Live(amount, unit, cryptoPrice, fiatRate); var u := unit as real;
            var kobo := Kobo(amount, cryptoPrice, fiatRate);
            RoundedDown(q.gross, kobo, u) && RoundedDown(q.net, LessFee(kobo, FeeBps(amount)), u)
  {
    hide *;
    var worth, share, u := Worth(amount, unit, cryptoPrice, fiatRate), Share(FeeBps(amount)), unit as real;
    WorthGrows(amount, amount, unit, cryptoPrice, fiatRate);
    WorthOfUnits(amount, unit, cryptoPrice, fiatRate);
    var kobo := Kobo(amount, cryptoPrice, fiatRate);
    var part, rest := worth * share, LessFee(kobo, FeeBps(amount));
    LiveIs(amount, unit, cryptoPrice, fiatRate, part);
    CutsTo(worth, u, kobo);
    LessFeeIs(kobo, FeeBps(amount));
    NetCuts(worth, share, u, kobo, part, rest);
  }

  lemma NetCuts(worth: real, share: real, u: real, kobo: real, part: real, rest: real)
    requires worth >= 0.0 && share >= 0.0 && u > 0.0 && worth * u == kobo && part == worth * share && rest == kobo * share
    ensures RoundedDown(Truncate(part), rest, u)
  {
    hide Truncate, RoundedDown;
    ProductGrows(worth, worth, share, share);
    assert part * u == worth * u * share;
    CutsTo(part, u, rest);
  }

  lemma LessFeeIs(kobo: real, bps: nat)
    ensures LessFee(kobo, bps) == kobo * Share(bps)
  {
  }

  lemma LiveIs(amount: int, unit: int, cryptoPrice: real, fiatRate: real, part: real)
    requires unit > 0 && part == Worth(amount, unit, cryptoPrice, fiatRate) * Share(FeeBps(amount))
    ensures var q := Live(amount, unit, cryptoPrice, fiatRate);
            q.gross == Truncate(Worth(amount, unit, cryptoPrice, fiatRate)) && q.net == Truncate(part)
    ensures 0.0 <= Share(FeeBps(amount))
  {
    hide Worth, Truncate;
  }

  lemma CutsTo(x: real, u: real, kobo: real)
    requires x >= 0.0 && u > 0.0 && x * u == kobo
    ensures RoundedDown(Truncate(x), kobo, u)
  {
    hide Truncate;
    CutBetween(x, u);
  }

  /** The fallback amounts: gross is worth the fixed price at 1650 naira to the dollar, and the fee is two per cent of it, each
      rounded down. */
  lemma FallbackAmounts(amount: int, unit: int, cryptoPrice: real)
    requires unit > 0 && amount >= 0 && cryptoPrice >= 0.0
    ensures var q := Fallback(amount, unit, cryptoPrice); var u := unit as real;
            var kobo := Kobo(amount, cryptoPrice, 1650.0);
            RoundedDown(q.gross, kobo, u) && 50 * q.fee <= q.gross < 50 * q.fee + 50
  {
    FallbackIs(amount, unit, cryptoPrice);
    hide *;
    var worth, u := Worth(amount, unit, cryptoPrice, 1650.0), unit as real;
    WorthGrows(amount, amount, unit, cryptoPrice, 1650.0);
    WorthOfUnits(amount, unit, cryptoPrice, 1650.0);
    CutsTo(worth, u, worth * u);
    FallbackQuoteIsSound(amount, amount, unit, cryptoPrice);
  }

  lemma FallbackIs(amount: int, unit: int, cryptoPrice: real)
    requires unit > 0
    ensures Fallback(amount, unit, cryptoPrice).gross == Truncate(Worth(amount, unit, cryptoPrice, 1650.0))
  {
    hide Worth, Truncate, TruncatedQuotient;
  }

  // ------------------------------------------------------------------ sandbox funding

  const MAX_DEPOSIT := 1_000_000_000
  const MIN_DEPOSIT := 10_000

  function SeedAmount(payout: int): int {
    if payout < MIN_DEPOSIT then MIN_DEPOSIT else payout
  }

  /** How many deposits the readiness report says a payout takes. */
  function ChunkCount(payout: int): int {
    var amount := SeedAmount(payout);
    var chunks := amount / MAX_DEPOSIT + if amount % MAX_DEPOSIT != 0 then 1 else 0;
    if chunks == 0 then 1 else chunks
  }

  function Sum(xs: seq<int>): int {
    if xs == [] then 0 else Sum(xs[..|xs| - 1]) + xs[|xs| - 1]
  }

  /** The funding loop makes exactly that many deposits for every amount; each is positive and within the cap,
      only the last may be below it, and together they are the larger of the amount and the minimum. */
  method SeedDeposits(payout: int) returns (deposits: seq<int>)
    ensures |deposits| == ChunkCount(payout)
    ensures forall i :: 0 <= i < |deposits| ==> 0 < deposits[i] <= 1_000_000_000
    ensures forall i :: 0 <= i < |deposits| - 1 ==> deposits[i] == 1_000_000_000
    ensures Sum(deposits) == if payout < 10_000 then 10_000 else payout
  {
    var amount := payout;
    if amount < MIN_DEPOSIT {
      amount := MIN_DEPOSIT;
    }
    var remaining := amount;
    deposits := [];
    while remaining > 0
      invariant 0 <= remaining <= amount
      invariant Sum(deposits) == amount - remaining
      invariant forall i :: 0 <= i < |deposits| ==> 0 < deposits[i] <= MAX_DEPOSIT
      invariant forall i :: 0 <= i < |deposits| - 1 ==> deposits[i] == MAX_DEPOSIT
      invariant remaining > 0 ==> forall i :: 0 <= i < |deposits| ==> deposits[i] == MAX_DEPOSIT
      invariant remaining > 0 ==> amount == remaining + MAX_DEPOSIT * |deposits|
      invariant remaining == 0 ==> MAX_DEPOSIT * (|deposits| - 1) < amount <= MAX_DEPOSIT * |deposits|
    {
      var chunk := remaining;
      if chunk > MAX_DEPOSIT {
        chunk := MAX_DEPOSIT;
      }
      assert (deposits + [chunk])[..|deposits|] == deposits;
      deposits := deposits + [chunk];
      remaining := remaining - chunk;
    }
  }
}
