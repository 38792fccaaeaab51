// The balance stub at work, each operation against what Stubs says it writes.
module BalanceStub {
  import opened Basics
  import opened World
  import opened Stubs
  import opened Shim
  import FeeStub

  method CreateBalance(stub: Stub, a: Address) returns (bal: Balance)
    modifies stub`writes
    ensures fresh(bal) && bal.id == a && bal.Doc() == BalanceDoc(0, "")
    ensures stub.writes ==
            old(stub.writes).(book := old(stub.writes).book
                                      .(balances := old(stub.writes).book.balances[a := BalanceDoc(0, "")]))
  {
    bal := new Balance(a, BalanceDoc(0, ""));
    stub.PutBalance(bal);
  }

  method Supply(stub: Stub, bal: Balance, amount: int)
    modifies stub`writes, bal
    ensures stub.writes ==
            old(stub.writes).(book := Stubs.Supply(old(stub.writes).book, stub.env, bal.id, old(bal.Doc()), amount))
    ensures bal.Doc() == Plus(old(bal.Doc()), amount)
  {
    bal.amount := bal.amount + amount;
    stub.PutBalance(bal);
    stub.PutBalanceLog(bal.id, Log(if amount < 0 then Burnt else Minted, amount, None, bal.amount));
  }

  /** The sign of the difference decides whose log it is. */
  method PutTransferLog(stub: Stub, sender: Balance, receiver: Balance, diff: int, fee: Option<int>)
    modifies stub`writes
    ensures stub.writes == old(stub.writes).(book := old(stub.writes).book.(logs :=
              TransferLog(old(stub.writes).book.logs, stub.env, sender.id, sender.amount, receiver.id, receiver.amount,
                          diff, fee)))
  {
    if diff < 0 {
      stub.PutBalanceLog(sender.id, Log(Sent, diff, fee, sender.amount));
    } else {
      stub.PutBalanceLog(receiver.id, Log(Received, diff, None, receiver.amount));
    }
  }

  /** The receiving half: credit the copy and write it back, or lock the amount until its time. */
  method Receive(stub: Stub, sender: Balance, receiver: Balance, amount: int, memo: string, pendingTime: Option<Time>)
    requires sender != receiver
    modifies stub`writes, receiver
    ensures stub.writes == old(stub.writes).(book :=
              Arrive(old(stub.writes).book, stub.env, sender.id, sender.amount, receiver.id, old(receiver.Doc()),
                     amount, memo, pendingTime))
    ensures receiver.Doc() ==
            if TimeLocked(stub.env, pendingTime) then old(receiver.Doc()) else Plus(old(receiver.Doc()), amount)
  {
    if pendingTime.Some? && pendingTime.value > stub.env.ts {
      stub.PutPendingBalance(stub.env.txId,
                             Pending(receiver.id, ToAccount(sender.id), amount, None, memo, stub.env.ts,
                                     pendingTime.value));
    } else {
      receiver.amount := receiver.amount + amount;
      stub.PutBalance(receiver);
      PutTransferLog(stub, sender, receiver, amount, None);
    }
  }

  /** Sender and receiver are two copies, changed one after the other and written back separately; they
      may be copies of one account. */
  method Transfer(stub: Stub, sender: Balance, receiver: Balance, amount: int, fee: int, memo: string,
                  pendingTime: Option<Time>)
    requires sender != receiver
    modifies stub`writes, sender, receiver
    ensures stub.writes == old(stub.writes).(book :=
              Transferred(old(stub.writes).book, stub.env, sender.id, old(sender.Doc()), receiver.id,
                          old(receiver.Doc()), amount, fee, memo, pendingTime))
  {
    Receive(stub, sender, receiver, amount, memo, pendingTime);
    var neg := new Amount(amount);
    neg.Neg();
    sender.amount := sender.amount + neg.value;
    sender.amount := sender.amount - fee;
    stub.PutBalance(sender);
    PutTransferLog(stub, sender, receiver, neg.value, Some(fee));
    FeeStub.CreateFee(stub, sender.id, fee);
  }

  /** The sender is a proxy that only lends its id to the receiver's log. */
  method TransferPendingBalance(stub: Stub, id: string, p: Pending, receiver: Balance, pendingTime: Option<Time>)
    modifies stub`writes, receiver
    ensures stub.writes == old(stub.writes).(book :=
              TransferredPending(old(stub.writes).book, stub.env, id, p, receiver.id, old(receiver.Doc()), pendingTime))
  {
    var sender := new Balance(p.account, BalanceDoc(0, ""));
    Receive(stub, sender, receiver, p.amount, p.memo, pendingTime);
    if p.fee.Some? {
      FeeStub.CreateFee(stub, p.account, p.fee.value);
    }
    stub.DelPendingBalance(id);
  }

  method Deposit(stub: Stub, id: string, sender: Balance, con: NewContract, amount: int, fee: Option<int>, memo: string)
    modifies stub`writes, sender
    ensures stub.writes == old(stub.writes).(book :=
              Stubs.Deposit(old(stub.writes).book, stub.env, id, sender.id, old(sender.Doc()), con, amount, fee, memo))
  {
    stub.PutPendingBalance(id, Pending(sender.id, ToContract(con.cid), amount, fee, memo, stub.env.ts, con.expiry));
    var applied := new Amount(amount);
    if fee.Some? {
      var f := new Amount(fee.value);
      applied.Add(f);
    }
    applied.Neg();
    sender.amount := sender.amount + applied.value;
    stub.PutBalance(sender);
    stub.PutBalanceLog(sender.id, Log(Deposited, -amount, fee, sender.amount));
  }

  /** Reads its owner's balance anew, and fails when there is none. */
  method Withdraw(stub: Stub, id: string, p: Pending) returns (r: Result<()>)
    requires stub.writes == stub.state
    modifies stub`writes
    ensures var spec := Stubs.Withdraw(stub.state.book, stub.env, id, p);
            (r.Ok? <==> spec.Ok?) && (r.Ok? ==> stub.writes == stub.state.(book := spec.value))
  {
    var bal :- stub.GetBalance(p.account);
    var applied := new Amount(p.amount);
    if p.fee.Some? {
      var f := new Amount(p.fee.value);
      applied.Add(f);
    }
    bal.amount := bal.amount + applied.value;
    stub.PutBalance(bal);
    stub.PutBalanceLog(bal.id, Log(Withdrawn, applied.value, None, bal.amount));
    stub.DelPendingBalance(id);
    r := Ok(());
  }
}
