// The pay transactions and the pay callback at work.
module PayHandlers {
  import opened Basics
  import opened World
  import opened Stamps
  import opened Stubs
  import opened Transactions
  import opened Shim
  import BalanceStub
  import FeeStub
  import PayStub

  method Pay(stub: Stub, from: Option<Address>, r: Address, amount: int, orderId: string, memo: string)
    returns (res: Result<()>)
    requires stub.writes == stub.state
    modifies stub`writes
    ensures Answered(stub, PayTransaction(stub.state, stub.env, from, r, amount, orderId, memo), res)
  {
    var kid := stub.env.kid;
    var s := SenderOf(from, r, kid);
    :- Need(s.code == r.code, "different token accounts");
    :- Need(s != r, "can't pay to self");
    :- Need(amount > 0, "invalid amount. must be greater than 0");
    var parties :- Parties(stub.state, s, r, kid);
    var sBal :- stub.GetBalance(s);
    :- Need(sBal.amount >= amount, "not enough balance");
    var signers := {kid};
    if parties.0.JointAccount? { signers := signers + parties.0.holders; }
    if |signers| > 1 {
      :- Need(|signers| <= 128, "too many signers");
      var con :- stub.CreateContract(signers, PayDoc(stub.env.txId, s, r, amount, orderId, memo));
      BalanceStub.Deposit(stub, stub.env.txId, sBal, con, amount, None, memo);
    } else {
      var fee :- FeeStub.CalcFee(stub, r, "pay", amount);
      PayStub.MakePay(stub, sBal, r, amount, fee, orderId, memo);
    }
    res := Ok(());
  }

  method Refund(stub: Stub, payId: string, amount: int, memo: string) returns (res: Result<()>)
    requires stub.writes == stub.state
    modifies stub`writes
    ensures Answered(stub, PayRefundTx(stub.state, stub.env, payId, amount, memo), res)
  {
    if amount <= 0 { return Err("invalid amount. must be greater than 0"); }
    :- Need(payId in stub.state.book.pays, "the pay id does not exist");
    var parent := new PayCopy(payId, stub.state.book.pays[payId]);
    var s, r := parent.filed.merchant, parent.filed.rid;
    :- Need(r.code == s.code, "different token accounts");
    :- Need(r != s, "can't refund to self");
    :- Need(parent.totalRefund + amount <= parent.filed.amount, "can't exceed the original pay amount");
    var _ :- Parties(stub.state, s, r, stub.env.kid);
    var sBal :- stub.GetBalance(s);
    var rBal :- stub.GetBalance(r);
    var feeAmount := new Amount(amount);
    if amount != parent.filed.amount && parent.filed.amount > 0 {
      feeAmount.MulRat(parent.filed.fee, parent.filed.amount);
    } else {
      feeAmount := new Amount(parent.filed.fee);
    }
    PayStub.Refund(stub, sBal.id, rBal, amount, feeAmount.value, memo, parent);
    res := Ok(());
  }

  /** The page's sum less its fees goes to the balance, its fees become a fee record, and the cursor moves
      to its end. */
  method CreditPays(stub: Stub, bal: Balance, s: PageSum)
    modifies stub`writes, bal
    ensures stub.writes ==
            old(stub.writes).(book := PrunedPays(old(stub.writes).book, stub.env, bal.id, old(bal.Doc()), s))
  {
    var applied := new Amount(s.fee);
    applied.Neg();
    var sum := new Amount(s.sum);
    applied.Add(sum);
    bal.amount := bal.amount + applied.value;
    if s.end != "" { bal.lastPruned := s.end; }
    stub.PutBalance(bal);
    FeeStub.CreateFee(stub, bal.id, s.fee);
    stub.PutBalanceLog(bal.id, Log(PrunedPay, applied.value, None, bal.amount));
  }

  method Prune(stub: Stub, a: Address, safe: bool, endSeconds: Option<int>) returns (res: Result<()>)
    requires stub.writes == stub.state
    modifies stub`writes
    ensures Answered(stub, PayPruneTx(stub.state, stub.env, a, safe, endSeconds), res)
  {
    var account :- GetAccount(stub.state, a);
    :- Need(stub.env.kid in HoldersOf(a, account), "invoker is not holder");
    :- Need(!IsSuspended(account), "the account is suspended");
    var bal :- stub.GetBalance(a);
    var start :- ReadCursor(bal.lastPruned);
    var end := stub.env.ts;
    if endSeconds.Some? { end := endSeconds.value * SECOND; }
    if safe {
      var safeTime := stub.env.ts - 10 * MINUTE;
      if end > safeTime { end := safeTime; }
    }
    assert start == PayCursor(stub.state.book.balances, a) && end == WindowEnd(stub.env.ts, safe, endSeconds);
    var s := PayStub.GetPaySumByTime(stub, a, start, end);
    if s.count == 0 { return Err("found no record to prune."); }
    CreditPays(stub, bal, s);
    res := Ok(());
  }

  /** Hands the order id over as the memo, and the memo as the order id. */
  method Execute(stub: Stub, cid: string, doc: Doc) returns (res: Result<()>)
    requires stub.writes == stub.state && doc.PayDoc?
    modifies stub`writes
    ensures Answered(stub, ExecutePay(stub.state, stub.env, cid, doc), res)
  {
    var p :- Escrow(stub.state, cid, doc.pbId);
    var fee :- FeeStub.CalcFee(stub, doc.receiver, "pay", p.amount);
    PayStub.PayPendingBalance(stub, doc.pbId, p, fee, doc.receiver, doc.orderId, doc.memo);
    res := Ok(());
  }
}
