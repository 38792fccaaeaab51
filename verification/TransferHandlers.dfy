// The transfer transaction and its contract callbacks at work.
module TransferHandlers {
  import opened Basics
  import opened World
  import opened Stubs
  import opened Transactions
  import opened Shim
  import AccountStub
  import BalanceStub
  import FeeStub

  /** One signer sends at once; more wait for their contract. */
  method Dispatch(stub: Stub, sBal: Balance, rBal: Balance, amount: int, fee: int, memo: string, seconds: Option<int>,
                  signers: set<Kid>) returns (res: Result<()>)
    requires stub.writes == stub.state && sBal != rBal
    modifies stub`writes, sBal, rBal
    ensures Answered(stub, Send(stub.state, stub.env, sBal.id, old(sBal.Doc()), rBal.id, old(rBal.Doc()), amount, fee,
                                memo, seconds, signers), res)
  {
    if |signers| > 1 {
      :- Need(|signers| <= 128, "too many signers");
      var con :- stub.CreateContract(signers, TransferDoc(stub.env.txId, sBal.id, rBal.id, amount, fee, memo, seconds));
      BalanceStub.Deposit(stub, stub.env.txId, sBal, con, amount, Some(fee), memo);
    } else {
      BalanceStub.Transfer(stub, sBal, rBal, amount, fee, memo, AsTime(seconds));
    }
    res := Ok(());
  }

  /** The two in-memory copies a transfer works on, its fee and its signers. */
  datatype Plan = Plan(sBal: Balance, rBal: Balance, fee: int, signers: set<Kid>)

  method CheckTransfer(stub: Stub, from: Option<Address>, r: Address, amount: int, extra: seq<Address>)
    returns (res: Result<Plan>)
    ensures res.Ok? <==> TransferTerms(stub.state, stub.env, from, r, amount, extra).Ok?
    ensures res.Ok? ==>
              var t, plan := TransferTerms(stub.state, stub.env, from, r, amount, extra).value, res.value;
              && fresh(plan.sBal) && fresh(plan.rBal) && plan.sBal != plan.rBal
              && plan.sBal.id == t.s && plan.sBal.Doc() == t.sDoc && plan.rBal.id == r && plan.rBal.Doc() == t.rDoc
              && plan.fee == t.fee && plan.signers == t.signers
  {
    var kid := stub.env.kid;
    :- Need(amount > 0, "invalid amount. must be greater than 0");
    var s := SenderOf(from, r, kid);
    :- Need(s.code == r.code, "different token accounts");
    :- Need(s != r, "can't transfer to self");
    var parties :- Parties(stub.state, s, r, kid);
    var sBal :- stub.GetBalance(s);
    var fee :- FeeStub.CalcFee(stub, s, "transfer", amount);
    :- Need(sBal.amount >= amount + fee, "not enough balance");
    var rBal :- stub.GetBalance(r);
    var signers := {kid};
    if parties.0.JointAccount? { signers := signers + parties.0.holders; }
    var others :- AccountStub.CollectSignableIDs(stub, r.code, extra);
    signers := signers + others;
    res := Ok(Plan(sBal, rBal, fee, signers));
  }

  method Transfer(stub: Stub, from: Option<Address>, r: Address, amount: int, memo: string, pendingSeconds: Option<int>,
                  extra: seq<Address>) returns (res: Result<()>)
    requires stub.writes == stub.state
    modifies stub`writes
    ensures Answered(stub, TransferTx(stub.state, stub.env, from, r, amount, memo, pendingSeconds, extra), res)
  {
    var plan :- CheckTransfer(stub, from, r, amount, extra);
    var seconds: Option<int> := None;
    if pendingSeconds.Some? && stub.env.ts / SECOND < pendingSeconds.value { seconds := pendingSeconds; }
    res := Dispatch(stub, plan.sBal, plan.rBal, amount, plan.fee, memo, seconds, plan.signers);
  }

  method Cancel(stub: Stub, cid: string, pbId: string) returns (res: Result<()>)
    requires stub.writes == stub.state
    modifies stub`writes
    ensures Answered(stub, CancelTransfer(stub.state, stub.env, cid, pbId), res)
  {
    var p :- Escrow(stub.state, cid, pbId);
    res := BalanceStub.Withdraw(stub, pbId, p);
  }

  method Execute(stub: Stub, cid: string, doc: Doc) returns (res: Result<()>)
    requires stub.writes == stub.state && doc.TransferDoc?
    modifies stub`writes
    ensures Answered(stub, ExecuteTransfer(stub.state, stub.env, cid, doc), res)
  {
    var p :- Escrow(stub.state, cid, doc.pbId);
    var rBal :- stub.GetBalance(doc.receiver);
    var seconds: Option<int> := None;
    if doc.pendingSeconds.Some? && doc.pendingSeconds.value != 0 { seconds := doc.pendingSeconds; }
    BalanceStub.TransferPendingBalance(stub, doc.pbId, p, rBal, AsTime(seconds));
    res := Ok(());
  }

  /** balance/pending/withdraw */
  method PendingWithdraw(stub: Stub, id: string) returns (res: Result<()>)
    requires stub.writes == stub.state
    modifies stub`writes
    ensures Answered(stub, PendingWithdrawTx(stub.state, stub.env, id), res)
  {
    if id !in stub.state.book.pendings { return Err("the pending balance is not exists"); }
    var p := stub.state.book.pendings[id];
    :- Need(p.pendingTime <= stub.env.ts, "too early to withdraw");
    var account :- GetAccount(stub.state, p.account);
    :- Need(stub.env.kid in HoldersOf(p.account, account), "invoker is not holder");
    :- Need(!IsSuspended(account), "the account is suspended");
    res := BalanceStub.Withdraw(stub, id, p);
  }
}
