// The pay stub at work.
module PayStub {
  import opened Basics
  import opened World
  import opened Sums
  import opened Paging
  import opened Stubs
  import opened Shim

  method MakePay(stub: Stub, sender: Balance, merchant: Address, amount: int, fee: int, orderId: string, memo: string)
    modifies stub`writes, sender
    ensures stub.writes == old(stub.writes).(book :=
              PayNow(old(stub.writes).book, stub.env, sender.id, old(sender.Doc()), merchant, amount, fee, orderId,
                     memo))
  {
    stub.PutPay(stub.env.recordId, Pay(merchant, amount, fee, 0, sender.id, "", orderId, memo, stub.env.ts));
    var neg := new Amount(amount);
    neg.Neg();
    sender.amount := sender.amount + neg.value;
    stub.PutBalance(sender);
    stub.PutBalanceLog(sender.id, Log(Paid, -amount, None, sender.amount));
  }

  /** Files the refund, raises the parent's running total in place, and credits the payer. */
  method Refund(stub: Stub, merchant: Address, receiver: Balance, amount: int, fee: int, memo: string, parent: PayCopy)
    modifies stub`writes, receiver, parent
    ensures stub.writes == old(stub.writes).(book :=
              Stubs.Refund(old(stub.writes).book, stub.env, merchant, receiver.id, old(receiver.Doc()), amount, fee,
                           memo, parent.id, old(parent.Doc())))
    ensures parent.totalRefund == old(parent.totalRefund) + amount
  {
    stub.PutPay(stub.env.recordId, Pay(merchant, -amount, -fee, 0, receiver.id, parent.id, "", memo, stub.env.ts));
    parent.totalRefund := parent.totalRefund + amount;
    stub.PutPay(parent.id, parent.Doc());
    receiver.amount := receiver.amount + amount;
    stub.PutBalance(receiver);
    stub.PutBalanceLog(receiver.id, Log(Refunded, amount, None, receiver.amount));
  }

  /** One pass over the answer to the prune query: amounts and fees of the first 900 records, and a look
      at one more. */
  method GetPaySumByTime(stub: Stub, merchant: Address, start: Time, end: Time) returns (s: PageSum)
    ensures s == PaySum(stub.state.book.pays, stub.env.query(PayTimes(stub.state.book.pays, merchant), start, end))
  {
    var pays := stub.state.book.pays;
    var rows := stub.env.query(PayTimes(pays, merchant), start, end);
    var first, last, sum, fee, cnt, more := "", "", 0, 0, 0, false;
    while cnt < |rows|
      invariant 0 <= cnt <= |rows| && cnt <= PRUNE_SIZE && !more
      invariant sum == SumOver(PayAmounts(pays), rows[..cnt]) && fee == SumOver(PayFees(pays), rows[..cnt])
      invariant first == (if cnt == 0 then "" else rows[0]) && last == (if cnt == 0 then "" else rows[cnt - 1])
    {
      cnt := cnt + 1;
      var id := rows[cnt - 1];
      if cnt == 1 { first := id; }
      if cnt > PRUNE_SIZE {
        more := true;
        cnt := cnt - 1;
        break;
      }
      assert rows[..cnt][..cnt - 1] == rows[..cnt - 1];
      sum := sum + if id in pays then pays[id].amount else 0;
      fee := fee + if id in pays then pays[id].fee else 0;
      last := id;
    }
    s := PageSum(sum, fee, cnt, first, last, more);
  }

  method PayPendingBalance(stub: Stub, id: string, p: Pending, fee: int, merchant: Address, memo: string,
                           orderId: string)
    modifies stub`writes
    ensures stub.writes == old(stub.writes).(book :=
              PayPending(old(stub.writes).book, stub.env, id, p, fee, merchant, memo, orderId))
  {
    stub.PutPay(stub.env.recordId, Pay(merchant, p.amount, fee, 0, p.account, "", orderId, memo, stub.env.ts));
    stub.DelPendingBalance(id);
  }
}
