// The fee calculator and its rounding.
module Fees {
  import opened Basics
  import opened World

  /** Amount.MulRat: the floor of a * num / den. */
  function MulRat(a: int, num: int, den: Pos): int {
    (a * num) / den
  }

  /** CalcFee: the fee the payer owes for calling fn with this amount. */
  function CalcFee(tokens: map<string, Token>, payer: Address, fn: string, amount: int): Result<int> {
    if payer.code !in tokens then Err("the token is not issued")
    else
      var token := tokens[payer.code];
      if token.policy.None? || fn !in token.policy.value.rates then Ok(0)
      else if token.genesis == payer || token.policy.value.target == payer then Ok(0)
      else Ok(RatedFee(token.policy.value.rates[fn], amount))
  }

  function RatedFee(rate: FeeRate, amount: int): int {
    var fee := MulRat(amount, rate.num, rate.den);
    if fee < 0 then 0
    else if rate.max > 0 && fee > rate.max then rate.max
    else fee
  }

  lemma FloorBounds(a: int, num: int, den: Pos)
    ensures MulRat(a, num, den) * den <= a * num < (MulRat(a, num, den) + 1) * den
  {
    var x := a * num;
    assert x == (x / den) * den + x % den;
  }

  /** The floor is the one integer between its bounds. */
  lemma FloorUnique(x: int, den: Pos, q: int)
    requires q * den <= x < (q + 1) * den
    ensures x / den == q
  {
    var r := x / den;
    assert x == r * den + x % den;
    assert r < q ==> (r + 1) * den <= q * den;
    assert r > q ==> (q + 1) * den <= r * den;
  }

  lemma MulMonotone(a: int, b: int, c: int)
    requires a <= b && c >= 0
    ensures a * c <= b * c
  {
  }

  lemma FloorMonotone(x: int, y: int, den: Pos)
    requires x <= y
    ensures x / den <= y / den
  {
    var p, q := x / den, y / den;
    assert x == p * den + x % den && y == q * den + y % den;
    if p > q { MulMonotone(q + 1, p, den); }
  }

  lemma FloorSuperadditive(x: int, y: int, den: Pos)
    ensures x / den + y / den <= (x + y) / den
  {
    var p, q := x / den, y / den;
    assert x == p * den + x % den && y == q * den + y % den;
    var s := x + y - (p + q) * den;
    assert s >= 0;
    FloorMonotone((p + q) * den, x + y, den);
    FloorUnique((p + q) * den, den, p + q);
  }

  /** Reducing the rate to lowest terms, as big.Rat does, changes no fee. */
  lemma ReducedRate(a: int, num: int, den: Pos, g: Pos)
    ensures MulRat(a, num * g, den * g) == MulRat(a, num, den)
  {
    var q := MulRat(a, num, den);
    FloorBounds(a, num, den);
    MulMonotone(q * den, a * num, g);
    assert (a * num + 1) * g <= ((q + 1) * den) * g by { MulMonotone(a * num + 1, (q + 1) * den, g); }
    assert q * (den * g) == (q * den) * g;
    assert a * (num * g) == (a * num) * g;
    assert (q + 1) * (den * g) == ((q + 1) * den) * g;
    FloorUnique(a * (num * g), den * g, q);
  }

  /** A fee is never negative, never above a cap that is set, and never falls when the amount grows. */
  lemma FeeBounds(rate: FeeRate, a: int, b: int)
    ensures RatedFee(rate, a) >= 0
    ensures rate.max > 0 ==> RatedFee(rate, a) <= rate.max
    ensures rate.num >= 0 && a <= b ==> RatedFee(rate, a) <= RatedFee(rate, b)
  {
    if rate.num >= 0 && a <= b {
      MulMonotone(a, b, rate.num);
      FloorMonotone(a * rate.num, b * rate.num, rate.den);
    }
  }

  /** An uncapped fee is the exact product rounded down; splitting an amount never costs more. */
  lemma UncappedFee(rate: FeeRate, a: nat, b: nat)
    requires rate.max <= 0 && rate.num >= 0
    ensures RatedFee(rate, a) * rate.den <= a * rate.num < (RatedFee(rate, a) + 1) * rate.den
    ensures RatedFee(rate, a) + RatedFee(rate, b) <= RatedFee(rate, a + b)
  {
    UncappedIsFloor(rate, a);
    UncappedIsFloor(rate, b);
    UncappedIsFloor(rate, a + b);
    FloorBounds(a, rate.num, rate.den);
    FloorSuperadditive(a * rate.num, b * rate.num, rate.den);
    assert (a + b) * rate.num == a * rate.num + b * rate.num;
  }

  lemma UncappedIsFloor(rate: FeeRate, a: nat)
    requires rate.max <= 0 && rate.num >= 0
    ensures RatedFee(rate, a) == (a * rate.num) / rate.den
  {
    assert a * rate.num >= 0;
    FloorMonotone(0, a * rate.num, rate.den);
  }

  /** What a rate comes to: the product rounded down, cut at zero below and at a cap that is set above. The
      floor q is the one integer between its bounds. */
  lemma RateExact(rate: FeeRate, a: int, q: int)
    requires q * rate.den <= a * rate.num < (q + 1) * rate.den
    ensures q < 0 ==> RatedFee(rate, a) == 0
    ensures q >= 0 && (rate.max <= 0 || q <= rate.max) ==> RatedFee(rate, a) == q
    ensures q >= 0 && 0 < rate.max < q ==> RatedFee(rate, a) == rate.max
  {
    FloorUnique(a * rate.num, rate.den, q);
  }

  /** A capped fee is the exact product rounded down, until it reaches the cap. */
  lemma CappedFee(rate: FeeRate, a: nat)
    requires rate.max > 0 && rate.num >= 0
    ensures var fee := RatedFee(rate, a);
            && fee * rate.den <= a * rate.num && fee <= rate.max
            && (fee == rate.max || a * rate.num < (fee + 1) * rate.den)
  {
    var q := MulRat(a, rate.num, rate.den);
    FloorBounds(a, rate.num, rate.den);
    FloorMonotone(0, a * rate.num, rate.den);
    FloorUnique(0, rate.den, 0);
    RateExact(rate, a, q);
    if q > rate.max { MulMonotone(rate.max, q, rate.den); }
  }

  /** The rate a payer is charged for a call, if any: the policy's, unless the payer is the genesis account
      or the target. */
  function RateFor(token: Token, payer: Address, fn: string): Option<FeeRate> {
    if token.policy == None || payer in {token.genesis, token.policy.value.target} then None
    else if fn in token.policy.value.rates then Some(token.policy.value.rates[fn])
    else None
  }

  /** The calculator: an error for a token that is not issued, no fee without a rate, and otherwise the
      product rounded down, cut at zero below and at a cap that is set above. */
  lemma CalcFeeExact(tokens: map<string, Token>, payer: Address, fn: string, amount: int, q: int)
    ensures CalcFee(tokens, payer, fn, amount).Ok? <==> payer.code in tokens
    ensures payer.code in tokens ==>
              var fee := CalcFee(tokens, payer, fn, amount).value;
              match RateFor(tokens[payer.code], payer, fn)
              case None => fee == 0
              case Some(rate) =>
                q * rate.den <= amount * rate.num < (q + 1) * rate.den ==>
                  fee == if q < 0 then 0 else if rate.max > 0 && q > rate.max then rate.max else q
  {
    if payer.code in tokens {
      var rate := RateFor(tokens[payer.code], payer, fn);
      if rate.Some? && q * rate.value.den <= amount * rate.value.num < (q + 1) * rate.value.den {
        RateExact(rate.value, amount, q);
      }
    }
  }

  /** A rate of at most one never takes more than the amount. */
  lemma FeeWithinAmount(rate: FeeRate, a: nat)
    requires rate.num <= rate.den
    ensures 0 <= RatedFee(rate, a) <= a
  {
    MulMonotone(rate.num, rate.den, a);
    FloorMonotone(a * rate.num, a * rate.den, rate.den);
    FloorUnique(a * rate.den, rate.den, a);
  }

  /** The genesis account and the target of the policy pay no fee. */
  lemma FeeFree(tokens: map<string, Token>, payer: Address, fn: string, amount: int)
    ensures CalcFee(tokens, payer, fn, amount).Ok? <==> payer.code in tokens
    ensures CalcFee(tokens, payer, fn, amount).Ok? ==> CalcFee(tokens, payer, fn, amount).value >= 0
    ensures payer.code in tokens &&
            (tokens[payer.code].genesis == payer ||
             (tokens[payer.code].policy.Some? && tokens[payer.code].policy.value.target == payer)) ==>
              CalcFee(tokens, payer, fn, amount) == Ok(0)
  {
  }
}
