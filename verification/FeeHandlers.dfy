// The fee prune transaction at work.
module FeeHandlers {
  import opened Basics
  import opened World
  import opened Stubs
  import opened Transactions
  import opened Shim
  import FeeStub

  method Prune(stub: Stub, code: string, safe: bool, endSeconds: Option<int>) returns (res: Result<()>)
    requires stub.writes == stub.state
    modifies stub`writes
    ensures Answered(stub, FeePruneTx(stub.state, stub.env, code, safe, endSeconds), res)
  {
    var token :- stub.GetToken(code);
    if token.policy.None? { return Ok(()); }
    var target := token.policy.value.target;
    var account :- GetAccount(stub.state, target);
    :- Need(stub.env.kid in HoldersOf(target, account), "no authority");
    var cursor := Migrate(stub, token);
    var start :- ReadCursor(cursor.feeId);
    var end := stub.env.ts;
    if endSeconds.Some? { end := endSeconds.value * SECOND; }
    if safe {
      var safeTime := stub.env.ts - 10 * MINUTE;
      if end > safeTime { end := safeTime; }
    }
    assert start == FeeCursor(stub.state, code) && end == WindowEnd(stub.env.ts, safe, endSeconds);
    var s := FeeStub.GetFeeSumByTime(stub, code, start, end);
    var bal :- stub.GetBalance(target);
    if s.count == 0 { return Err("found no record to prune."); }
    CreditFees(stub, bal, cursor, s);
    res := Ok(());
  }

  /** The stored cursor; on the first prune after the upgrade, the token's own, which is then cleared. */
  method Migrate(stub: Stub, token: TokenCopy) returns (cursor: FeeCursorCopy)
    requires stub.writes == stub.state && token.code in stub.state.tokens &&
             token.Doc() == stub.state.tokens[token.code]
    modifies stub`writes, token
    ensures fresh(cursor) && cursor.code == token.code
    ensures cursor.feeId == FeeCursorId(stub.state.tokens, stub.state.book.lastFee, token.code)
    ensures stub.writes == if token.code in stub.state.book.lastFee then stub.state
                           else Stubs.PutToken(stub.state, token.code, old(token.Doc()).(lastPrunedFee := ""))
  {
    if token.code in stub.state.book.lastFee {
      cursor := new FeeCursorCopy(token.code, stub.state.book.lastFee[token.code]);
    } else {
      cursor := new FeeCursorCopy(token.code, token.lastPrunedFee);
      token.lastPrunedFee := "";
      stub.PutToken(token);
    }
  }

  method CreditFees(stub: Stub, bal: Balance, cursor: FeeCursorCopy, s: PageSum)
    modifies stub`writes, bal, cursor
    ensures stub.writes == old(stub.writes).(book :=
              PrunedFees(old(stub.writes).book, stub.env, cursor.code, bal.id, old(bal.Doc()), s))
  {
    bal.amount := bal.amount + s.sum;
    stub.PutBalance(bal);
    cursor.feeId := s.end;
    stub.PutLastPrunedFeeID(cursor);
    stub.PutBalanceLog(bal.id, Log(PrunedFee, s.sum, None, bal.amount));
  }
}
