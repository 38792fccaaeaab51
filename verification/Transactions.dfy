// The transactions: every handler as a function from the world state to a response. An error
// response commits nothing.
module Transactions {
  import opened Basics
  import opened Stamps
  import opened World
  import opened Stubs
  import opened Fees
  import opened Paging

  // ---- accounts and guards ----

  function GetAccount(w: World, a: Address): Result<Account> {
    if a in w.registry.accounts then Ok(w.registry.accounts[a]) else Err("the account does not exist")
  }

  function GetBalance(w: World, a: Address): Result<BalanceDoc> {
    if a in w.book.balances then Ok(w.book.balances[a]) else Err("balance is not exists")
  }

  function GetToken(w: World, code: string): Result<Token> {
    if code in w.tokens then Ok(w.tokens[code]) else Err("the token is not issued")
  }

  /** The Kiesnet ids that may act for an account. */
  function HoldersOf(a: Address, account: Account): set<Kid> {
    match account
    case PersonalAccount(_) => {a.id}
    case JointAccount(holders) => holders
  }

  predicate IsSuspended(account: Account) {
    account.PersonalAccount? && account.suspended
  }

  /** GetSignableIDs over a list of addresses: all their holders, or the first failure. */
  function Signables(w: World, code: string, addrs: seq<Address>): Result<set<Kid>> {
    if addrs == [] then Ok({})
    else
      var front :- Signables(w, code, addrs[..|addrs| - 1]);
      var a := addrs[|addrs| - 1];
      :- Need(a.code == code, "mismatched token account");
      var account :- GetAccount(w, a);
      Ok(front + HoldersOf(a, account))
  }

  /** A list of addresses without its repetitions. */
  function Named(addrs: seq<Address>): set<Address> {
    set a | a in addrs
  }

  /** The holders of a set of accounts. */
  ghost function KidsOf(accounts: map<Address, Account>, addrs: set<Address>): set<Kid> {
    set a, k | a in addrs && a in accounts && k in HoldersOf(a, accounts[a]) :: k
  }

  /** Collecting signers does not depend on the order of the addresses, nor on repeated ones. */
  lemma {:induction false} SignablesAre(w: World, code: string, addrs: seq<Address>)
    ensures Signables(w, code, addrs).Ok? <==> forall a :: a in addrs ==> a.code == code && a in w.registry.accounts
    ensures Signables(w, code, addrs).Ok? ==>
              Signables(w, code, addrs).value == KidsOf(w.registry.accounts, Named(addrs))
    decreases |addrs|
  {
    if addrs != [] {
      var front, last := addrs[..|addrs| - 1], addrs[|addrs| - 1];
      SignablesAre(w, code, front);
      assert forall a :: a in addrs <==> a in front || a == last;
    }
  }

  /** The contract chaincode needs at least two signers and files the document under a new id. */
  function CreateContract(w: World, env: Env, signers: set<Kid>, doc: Doc): Result<World> {
    if |signers| < 2 then Err("signers must be 2+") else
    :- Need(env.contract.Some?, "failed to create a contract");
    Ok(w.(contracts := w.contracts[env.contract.value.cid := doc]))
  }

  predicate ValidMeta(meta: Meta) {
    0 <= meta.decimal <= 18 && 0 <= meta.supply <= meta.maxSupply
  }

  function GetMeta(env: Env): Result<Meta> {
    if env.meta.Some? && ValidMeta(env.meta.value) then Ok(env.meta.value) else Err("invalid token meta")
  }

  /** The sender of a payment: named, or the invoker's personal account. */
  function SenderOf(sender: Option<Address>, receiver: Address, kid: Kid): Address {
    if sender.Some? then sender.value else Address(receiver.code, Personal, kid)
  }

  /** The parties of a transfer or a payment: neither suspended, the invoker a holder of the sender. */
  function Parties(w: World, s: Address, r: Address, kid: Kid): Result<(Account, Account)> {
    var sender :- GetAccount(w, s);
    :- Need(kid in HoldersOf(s, sender), "invoker is not holder");
    :- Need(!IsSuspended(sender), "the sender account is suspended");
    var receiver :- GetAccount(w, r);
    :- Need(!IsSuspended(receiver), "the receiver account is suspended");
    Ok((sender, receiver))
  }

  /** The holders who must sign besides the invoker: all of a joint sender's. */
  function Signers(kid: Kid, sender: Account): set<Kid> {
    {kid} + if sender.JointAccount? then sender.holders else {}
  }

  // ---- account transactions ----

  function AccountCreateTx(w: World, env: Env, code: string, coHolders: seq<Address>): Result<World> {
    if code !in w.tokens && env.meta.None? then Err("failed to get the token meta") else
    if coHolders == [] then CreateAccount(w, env, code)
    else
      var _ :- GetAccount(w, Address(code, Personal, env.kid));
      :- Need(|Named(coHolders)| <= 128, "too many holders");
      var others :- Signables(w, code, coHolders);
      var holders := {env.kid} + others;
      :- Need(|holders| >= 2, "joint account needs co-holders");
      CreateContract(w, env, holders, AccountDoc(code, holders))
  }

  /** The joint account whose holders are to change. */
  function HolderTarget(w: World, a: Address, t: Address): Result<set<Kid>> {
    if a.kind != Joint then Err("the account must be joint account") else
    :- Need(t.kind == Personal, "the co-holder's account must be personal account");
    :- Need(a.code == t.code, "mismatched token accounts");
    var account :- GetAccount(w, a);
    Ok(HoldersOf(a, account))
  }

  function HolderAddTx(w: World, env: Env, a: Address, t: Address): Result<World> {
    var holders :- HolderTarget(w, a, t);
    :- Need(|holders| <= 127, "already has max holders (128)");
    :- Need(env.kid in holders, "no authority");
    var _ :- GetAccount(w, t);
    :- Need(t.id !in holders, "existed holder");
    CreateContract(w, env, holders + {t.id}, AddHolderDoc(a, t.id))
  }

  function HolderRemoveTx(w: World, env: Env, a: Address, t: Address): Result<World> {
    var holders :- HolderTarget(w, a, t);
    :- Need(|holders| >= 3, "the account has minimum holders (2)");
    :- Need(env.kid in holders, "no authority");
    if t.id == env.kid then Ok(w.(registry := RemoveHolder(w.registry, a, holders, env.kid)))
    else
      :- Need(t.id in holders, "not existed holder");
      CreateContract(w, env, holders - {t.id}, RemoveHolderDoc(a, t.id))
  }

  function SuspendTx(w: World, env: Env, code: string, suspend: bool): Result<World> {
    var a := Address(code, Personal, env.kid);
    var account :- GetAccount(w, a);
    :- Need(IsSuspended(account) != suspend, if suspend then "already suspended" else "not suspended");
    Ok(w.(registry := w.registry.(accounts := w.registry.accounts[a := PersonalAccount(suspend)])))
  }

  // ---- transfers and escrow ----

  /** What the checks of a transfer establish. */
  datatype Terms = Terms(s: Address, sDoc: BalanceDoc, rDoc: BalanceDoc, fee: int, signers: set<Kid>)

  function TransferTerms(w: World, env: Env, from: Option<Address>, r: Address, amount: int,
                         extra: seq<Address>): Result<Terms> {
    if amount <= 0 then Err("invalid amount. must be greater than 0") else
    var s := SenderOf(from, r, env.kid);
    :- Need(s.code == r.code, "different token accounts");
    :- Need(s != r, "can't transfer to self");
    var parties :- Parties(w, s, r, env.kid);
    var sDoc :- GetBalance(w, s);
    var fee :- CalcFee(w.tokens, s, "transfer", amount);
    :- Need(sDoc.amount >= amount + fee, "not enough balance");
    var rDoc :- GetBalance(w, r);
    var others :- Signables(w, r.code, extra);
    Ok(Terms(s, sDoc, rDoc, fee, Signers(env.kid, parties.0) + others))
  }

  function TransferTx(w: World, env: Env, from: Option<Address>, r: Address, amount: int, memo: string,
                      pendingSeconds: Option<int>, extra: seq<Address>): Result<World> {
    var t :- TransferTerms(w, env, from, r, amount, extra);
    var seconds := if pendingSeconds.Some? && env.ts / SECOND < pendingSeconds.value then pendingSeconds else None;
    Send(w, env, t.s, t.sDoc, r, t.rDoc, amount, t.fee, memo, seconds, t.signers)
  }

  /** With one signer the transfer happens at once; with more it waits in escrow for its contract. */
  function Send(w: World, env: Env, s: Address, sDoc: BalanceDoc, r: Address, rDoc: BalanceDoc, amount: int, fee: int,
                memo: string, seconds: Option<int>, signers: set<Kid>): Result<World> {
    if |signers| > 1 then
      :- Need(|signers| <= 128, "too many signers");
      var w1 :- CreateContract(w, env, signers, TransferDoc(env.txId, s, r, amount, fee, memo, seconds));
      Ok(w1.(book := Deposit(w.book, env, env.txId, s, sDoc, env.contract.value, amount, Some(fee), memo)))
    else
      Ok(w.(book := Transferred(w.book, env, s, sDoc, r, rDoc, amount, fee, memo, AsTime(seconds))))
  }

  function AsTime(seconds: Option<int>): Option<Time> {
    if seconds.Some? then Some(seconds.value * SECOND) else None
  }

  /** The escrow a callback acts on: it must belong to the calling contract. */
  function Escrow(w: World, cid: string, pbId: string): Result<Pending> {
    if pbId !in w.book.pendings then Err("the pending balance is not exists") else
    :- Need(w.book.pendings[pbId].rid == ToContract(cid), "invalid pending balance");
    Ok(w.book.pendings[pbId])
  }

  function CancelTransfer(w: World, env: Env, cid: string, pbId: string): Result<World> {
    var p :- Escrow(w, cid, pbId);
    var book :- Withdraw(w.book, env, pbId, p);
    Ok(w.(book := book))
  }

  function ExecuteTransfer(w: World, env: Env, cid: string, doc: Doc): Result<World>
    requires doc.TransferDoc?
  {
    var p :- Escrow(w, cid, doc.pbId);
    var rDoc :- GetBalance(w, doc.receiver);
    var seconds := if doc.pendingSeconds == Some(0) then None else doc.pendingSeconds;
    Ok(w.(book := TransferredPending(w.book, env, doc.pbId, p, doc.receiver, rDoc, AsTime(seconds))))
  }

  function PendingWithdrawTx(w: World, env: Env, id: string): Result<World> {
    if id !in w.book.pendings then Err("the pending balance is not exists") else
    var p := w.book.pendings[id];
    :- Need(p.pendingTime <= env.ts, "too early to withdraw");
    var account :- GetAccount(w, p.account);
    :- Need(env.kid in HoldersOf(p.account, account), "invoker is not holder");
    :- Need(!IsSuspended(account), "the account is suspended");
    var book :- Withdraw(w.book, env, id, p);
    Ok(w.(book := book))
  }

  // ---- payments ----

  /** What the checks of a payment establish: the sender, its balance and the signers. */
  function PayTerms(w: World, env: Env, from: Option<Address>, r: Address,
                    amount: int): Result<(Address, BalanceDoc, set<Kid>)> {
    var s := SenderOf(from, r, env.kid);
    :- Need(s.code == r.code, "different token accounts");
    :- Need(s != r, "can't pay to self");
    :- Need(amount > 0, "invalid amount. must be greater than 0");
    var parties :- Parties(w, s, r, env.kid);
    var sDoc :- GetBalance(w, s);
    :- Need(sDoc.amount >= amount, "not enough balance");
    Ok((s, sDoc, Signers(env.kid, parties.0)))
  }

  function PayTransaction(w: World, env: Env, from: Option<Address>, r: Address, amount: int, orderId: string,
                          memo: string): Result<World> {
    var t :- PayTerms(w, env, from, r, amount);
    Settle(w, env, t.0, t.1, r, amount, orderId, memo, t.2)
  }

  /** With one signer the payment is filed at once, with its fee; with more it waits in escrow, and the
      fee is worked out when the contract executes. */
  function Settle(w: World, env: Env, s: Address, sDoc: BalanceDoc, r: Address, amount: int, orderId: string,
                  memo: string, signers: set<Kid>): Result<World> {
    if |signers| > 1 then
      :- Need(|signers| <= 128, "too many signers");
      var w1 :- CreateContract(w, env, signers, PayDoc(env.txId, s, r, amount, orderId, memo));
      Ok(w1.(book := Deposit(w.book, env, env.txId, s, sDoc, env.contract.value, amount, None, memo)))
    else
      var fee :- CalcFee(w.tokens, r, "pay", amount);
      Ok(w.(book := PayNow(w.book, env, s, sDoc, r, amount, fee, orderId, memo)))
  }

  /** The stub takes the memo before the order id, and the callback passes them the other way round. */
  function ExecutePay(w: World, env: Env, cid: string, doc: Doc): Result<World>
    requires doc.PayDoc?
  {
    var p :- Escrow(w, cid, doc.pbId);
    var fee :- CalcFee(w.tokens, doc.receiver, "pay", p.amount);
    Ok(w.(book := PayPending(w.book, env, doc.pbId, p, fee, doc.receiver, doc.orderId, doc.memo)))
  }

  /** The share of the fee that goes back with a refund: rounded down unless all is refunded at once.
      A payment that still can be refunded is positive. */
  function RefundedFee(parent: Pay, amount: int): int {
    if amount == parent.amount || parent.amount <= 0 then parent.fee
    else MulRat(amount, parent.fee, parent.amount)
  }

  function PayRefundTx(w: World, env: Env, payId: string, amount: int, memo: string): Result<World> {
    if amount <= 0 then Err("invalid amount. must be greater than 0") else
    :- Need(payId in w.book.pays, "the pay id does not exist");
    var parent := w.book.pays[payId];
    :- Need(parent.rid.code == parent.merchant.code, "different token accounts");
    :- Need(parent.rid != parent.merchant, "can't refund to self");
    :- Need(parent.totalRefund + amount <= parent.amount, "can't exceed the original pay amount");
    var parties :- Parties(w, parent.merchant, parent.rid, env.kid);
    var _ :- GetBalance(w, parent.merchant);
    var rDoc :- GetBalance(w, parent.rid);
    Ok(w.(book := Refund(w.book, env, parent.merchant, parent.rid, rDoc, amount, RefundedFee(parent, amount), memo,
                         payId, parent)))
  }

  /** The end of a prune window: the given time or now, and with the flag no later than ten minutes ago. */
  function WindowEnd(ts: Time, safe: bool, endSeconds: Option<int>): Time {
    var end := if endSeconds.Some? then endSeconds.value * SECOND else ts;
    if safe then Min(end, ts - 10 * MINUTE) else end
  }

  function ReadCursor(id: string): Result<Time> {
    if CursorTime(id).Some? then Ok(CursorTime(id).value) else Err("failed to get seconds from timestamp")
  }

  /** The records a pay prune sees: those of the merchant after its cursor, up to the window's end. */
  function PayRows(w: World, env: Env, a: Address, safe: bool, endSeconds: Option<int>): seq<string> {
    env.query(PayTimes(w.book.pays, a), PayCursor(w.book.balances, a), WindowEnd(env.ts, safe, endSeconds))
  }

  function FeeRows(w: World, env: Env, code: string, safe: bool, endSeconds: Option<int>): seq<string> {
    env.query(FeeTimes(w.book.fees, code), FeeCursor(w, code), WindowEnd(env.ts, safe, endSeconds))
  }

  function PayPruneTx(w: World, env: Env, a: Address, safe: bool, endSeconds: Option<int>): Result<World> {
    var account :- GetAccount(w, a);
    :- Need(env.kid in HoldersOf(a, account), "invoker is not holder");
    :- Need(!IsSuspended(account), "the account is suspended");
    var doc :- GetBalance(w, a);
    var _ :- ReadCursor(doc.lastPruned);
    var s := PaySum(w.book.pays, PayRows(w, env, a, safe, endSeconds));
    :- Need(s.count > 0, "found no record to prune.");
    Ok(w.(book := PrunedPays(w.book, env, a, doc, s)))
  }

  /** Without a policy there is nothing to prune and the call succeeds. The first prune after the
      upgrade moves the cursor from the token to its own document. */
  function FeePruneTx(w: World, env: Env, code: string, safe: bool, endSeconds: Option<int>): Result<World> {
    var token :- GetToken(w, code);
    if token.policy.None? then Ok(w)
    else
      var target := token.policy.value.target;
      var account :- GetAccount(w, target);
      :- Need(env.kid in HoldersOf(target, account), "no authority");
      var w1 := if code in w.book.lastFee then w else PutToken(w, code, token.(lastPrunedFee := ""));
      var _ :- ReadCursor(FeeCursorId(w.tokens, w.book.lastFee, code));
      var s := FeeSum(w.book.fees, FeeRows(w, env, code, safe, endSeconds));
      var doc :- GetBalance(w, target);
      :- Need(s.count > 0, "found no record to prune.");
      Ok(w1.(book := PrunedFees(w.book, env, code, target, doc, s)))
  }

  // ---- tokens ----

  /** Mint and burn need a holder of the genesis account. */
  function GenesisHolders(w: World, env: Env, token: Token): Result<set<Kid>> {
    var account :- GetAccount(w, token.genesis);
    :- Need(env.kid in HoldersOf(token.genesis, account), "no authority");
    Ok(HoldersOf(token.genesis, account))
  }

  function TokenBurnTx(w: World, env: Env, code: string): Result<World> {
    var token :- GetToken(w, code);
    var holders :- GenesisHolders(w, env, token);
    var doc :- GetBalance(w, token.genesis);
    :- Need(doc.amount != 0, "genesis account balance is 0");
    :- Need(env.kntAmount.Some? && env.kntAmount.value >= 0, "not burnable");
    var amount := env.kntAmount.value;
    :- Need(amount <= token.supply, "amount must be less or equal than total supply");
    if |holders| > 1 then CreateContract(w, env, holders, BurnDoc(code, amount))
    else BurnToken(w, env, code, token, doc, amount)
  }

  function TokenMintTx(w: World, env: Env, code: string): Result<World> {
    var token :- GetToken(w, code);
    :- Need(token.supply < token.maxSupply, "max supplied");
    var holders :- GenesisHolders(w, env, token);
    var doc :- GetBalance(w, token.genesis);
    :- Need(env.kntAmount.Some? && env.kntAmount.value >= 0, "not mintable");
    if |holders| > 1 then CreateContract(w, env, holders, MintDoc(code, env.kntAmount.value))
    else MintToken(w, env, code, token, doc, env.kntAmount.value)
  }

  function TokenCreateTx(w: World, env: Env, code: string, coHolders: seq<Address>): Result<World> {
    if code in w.tokens then Err("already issued token") else
    var meta :- GetMeta(env);
    var others :- Signables(w, code, coHolders);
    var holders := {env.kid} + others;
    if |holders| > 1 then CreateContract(w, env, holders, TokenDoc(code, holders))
    else CreateToken(w, env, code, meta, holders)
  }

  /** A policy once imported stays: without rates in the metadata its rates are emptied, without a
      target its target is kept. */
  function UpdatedPolicy(w: World, token: Token, meta: Meta): Result<Option<Policy>> {
    match meta.rates
    case None =>
      Ok(if token.policy.None? then None else Some(token.policy.value.(rates := map[])))
    case Some(rates) =>
      match meta.target
      case Some(t) =>
        var _ :- GetAccount(w, t);
        Ok(Some(Policy(t, rates)))
      case None =>
        Ok(Some(Policy(if token.policy.None? then token.genesis else token.policy.value.target, rates)))
  }

  function TokenUpdateTx(w: World, env: Env, code: string): Result<World> {
    var token :- GetToken(w, code);
    var meta :- GetMeta(env);
    var policy :- UpdatedPolicy(w, token, meta);
    Ok(PutToken(w, code, token.(policy := policy)))
  }

  // ---- contract callbacks ----

  function ExecuteDoc(w: World, env: Env, cid: string, doc: Doc): Result<World> {
    match doc
    case TransferDoc(_, _, _, _, _, _, _) => ExecuteTransfer(w, env, cid, doc)
    case PayDoc(_, _, _, _, _, _) => ExecutePay(w, env, cid, doc)
    case MintDoc(code, amount) =>
      var token :- GetToken(w, code);
      var bal :- GetBalance(w, token.genesis);
      MintToken(w, env, code, token, bal, amount)
    case BurnDoc(code, amount) =>
      var token :- GetToken(w, code);
      var bal :- GetBalance(w, token.genesis);
      BurnToken(w, env, code, token, bal, amount)
    case TokenDoc(code, holders) =>
      :- Need(code !in w.tokens, "already issued token");
      var meta :- GetMeta(env);
      CreateToken(w, env, code, meta, holders)
    case AccountDoc(code, holders) => CreateJointAccount(w, env, code, holders)
    case AddHolderDoc(a, kid) =>
      var account :- GetAccount(w, a);
      :- Need(account.JointAccount?, "failed to add the holder");
      :- Need(|account.holders| <= 127, "already has max holders (128)");
      :- Need(kid !in account.holders, "existed holder");
      Ok(w.(registry := AddHolder(w.registry, a, account.holders, kid)))
    case RemoveHolderDoc(a, kid) =>
      var account :- GetAccount(w, a);
      :- Need(account.JointAccount?, "failed to remove the holder");
      :- Need(|account.holders| >= 3, "the account has minimum holders (2)");
      :- Need(kid in account.holders, "not existed holder");
      Ok(w.(registry := RemoveHolder(w.registry, a, account.holders, kid)))
  }

  /** Cancelling returns an escrow and leaves every other kind of contract alone. */
  function CancelDoc(w: World, env: Env, cid: string, doc: Doc): Result<World> {
    if doc.TransferDoc? || doc.PayDoc? then CancelTransfer(w, env, cid, doc.pbId) else Ok(w)
  }

  // ---- one transaction ----

  function Handle(w: World, env: Env, tx: Tx): Result<World> {
    match tx
    case AccountCreate(code, coHolders) => AccountCreateTx(w, env, code, coHolders)
    case AccountHolderAdd(a, t) => HolderAddTx(w, env, a, t)
    case AccountHolderRemove(a, t) => HolderRemoveTx(w, env, a, t)
    case AccountSuspend(code) => SuspendTx(w, env, code, true)
    case AccountUnsuspend(code) => SuspendTx(w, env, code, false)
    case PendingWithdraw(id) => PendingWithdrawTx(w, env, id)
    case ContractCancel(cid) =>
      if cid in w.contracts then CancelDoc(w, env, cid, w.contracts[cid]) else Err("unknown contract")
    case ContractExecute(cid) =>
      if cid in w.contracts then ExecuteDoc(w, env, cid, w.contracts[cid]) else Err("unknown contract")
    case FeePrune(code, safe, end) => FeePruneTx(w, env, code, safe, end)
    case PayTx(s, r, amount, orderId, memo) => PayTransaction(w, env, s, r, amount, orderId, memo)
    case PayPrune(a, safe, end) => PayPruneTx(w, env, a, safe, end)
    case PayRefund(payId, amount, memo) => PayRefundTx(w, env, payId, amount, memo)
    case TokenBurn(code, _) => TokenBurnTx(w, env, code)
    case TokenCreate(code, coHolders) => TokenCreateTx(w, env, code, coHolders)
    case TokenMint(code, _) => TokenMintTx(w, env, code)
    case TokenUpdate(code) => TokenUpdateTx(w, env, code)
    case Transfer(s, r, amount, memo, seconds, extra) => TransferTx(w, env, s, r, amount, memo, seconds, extra)
  }

  /** A success commits the writes and uses up the transaction id. */
  function Step(w: World, env: Env, tx: Tx): Result<World> {
    var w' :- Handle(w, env, tx);
    Ok(w'.(txs := w.txs + {env.txId}))
  }

  /** The world after a transaction, whatever its response. */
  function Next(w: World, env: Env, tx: Tx): World {
    if Step(w, env, tx).Ok? then Step(w, env, tx).value else w
  }
}
