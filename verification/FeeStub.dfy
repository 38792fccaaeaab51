// The fee stub at work.
module FeeStub {
  import opened Basics
  import opened World
  import opened Sums
  import opened Paging
  import opened Stubs
  import F = Fees
  import opened Shim

  /** A fee of zero leaves no record. */
  method CreateFee(stub: Stub, payer: Address, amount: int)
    modifies stub`writes
    ensures stub.writes == old(stub.writes).(book := old(stub.writes).book.(fees :=
              Stubs.CreateFee(old(stub.writes).book.fees, stub.env, payer, amount)))
  {
    if amount == 0 { return; }
    stub.PutFee(stub.env.recordId, Fee(payer.code, payer, amount, stub.env.ts));
  }

  method CalcFee(stub: Stub, payer: Address, fn: string, amount: int) returns (r: Result<int>)
    ensures r.Ok? <==> payer.code in stub.state.tokens
    ensures r.Ok? ==> r == F.CalcFee(stub.state.tokens, payer, fn, amount)
    ensures r.Ok? ==> r.value >= 0
  {
    if payer.code !in stub.state.tokens { return Err("the token is not issued"); }
    var token := stub.state.tokens[payer.code];
    if token.policy.Some? && fn in token.policy.value.rates {
      var rate := token.policy.value.rates[fn];
      if token.genesis != payer && token.policy.value.target != payer {
        var fee := new Amount(amount);
        fee.MulRat(rate.num, rate.den);
        if fee.value < 0 { return Ok(0); }
        if rate.max > 0 && fee.value > rate.max { return Ok(rate.max); }
        return Ok(fee.value);
      }
    }
    r := Ok(0);
  }

  /** One pass over the answer to the prune query: add up the first 900, and look at one more to see
      whether there is more. */
  method GetFeeSumByTime(stub: Stub, code: string, start: Time, end: Time) returns (s: PageSum)
    ensures s == FeeSum(stub.state.book.fees, stub.env.query(FeeTimes(stub.state.book.fees, code), start, end))
  {
    var fees := stub.state.book.fees;
    var rows := stub.env.query(FeeTimes(fees, code), start, end);
    var first, last, sum, cnt, more := "", "", 0, 0, false;
    while cnt < |rows|
      invariant 0 <= cnt <= |rows| && cnt <= PRUNE_SIZE && !more
      invariant sum == SumOver(FeeAmounts(fees), rows[..cnt])
      invariant first == (if cnt == 0 then "" else rows[0]) && last == (if cnt == 0 then "" else rows[cnt - 1])
    {
      cnt := cnt + 1;
      var id := rows[cnt - 1];
      if cnt == 1 { first := id; }
      if cnt > PRUNE_SIZE {
        more := true;
        cnt := cnt - 1;
        break;
      }
      assert rows[..cnt][..cnt - 1] == rows[..cnt - 1];
      sum := sum + if id in fees then fees[id].amount else 0;
      last := id;
    }
    s := PageSum(sum, 0, cnt, first, last, more);
  }
}
