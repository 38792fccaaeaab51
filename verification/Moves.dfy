// Every successful transaction is one of eighteen moves of the ledger. A move says what is true when
// it is made and what it writes, without the checks and look-ups that led to it; the properties of
// whole runs are proved about moves.
module Moves {
  import opened Basics
  import opened World
  import opened Stubs
  import opened Fees
  import opened Paging
  import opened Transactions

  datatype Move =
    | MTransfer(s: Address, r: Address, amount: int, fee: int, memo: string, pendingTime: Option<Time>)
    | MDeposit(s: Address, con: NewContract, amount: int, feeHeld: Option<int>, memo: string, doc: Doc)
    | MRelease(id: string)
    | MDeliver(cid: string, pendingTime: Option<Time>)
    | MPay(s: Address, merchant: Address, amount: int, fee: int, orderId: string, memo: string)
    | MPayPending(cid: string, fee: int)
    | MRefund(payId: string, amount: int, memo: string)
    | MPayPrune(a: Address, end: Time)
    | MFeePrune(code: string, end: Time)
    | MMint(code: string, amount: int)
    | MBurn(code: string, amount: int)
    | MOpen(a: Address, account: Account)
    | MIssue(code: string, meta: Meta, holders: set<Kid>)
    | MHolder(a: Address, kid: Kid, add: bool)
    | MSuspend(a: Address, suspend: bool)
    | MPolicy(code: string, policy: Option<Policy>)
    | MContract(doc: Doc)
    | MNothing

  /** Moves between balances and escrow; moves of pay and fee records; and the others. */
  datatype Group = Flow | Records | Office

  function GroupOf(m: Move): Group {
    match m
    case MTransfer(_, _, _, _, _, _) => Flow
    case MDeposit(_, _, _, _, _, _) => Flow
    case MRelease(_) => Flow
    case MDeliver(_, _) => Flow
    case MPay(_, _, _, _, _, _) => Records
    case MPayPending(_, _) => Records
    case MRefund(_, _, _) => Records
    case MPayPrune(_, _) => Records
    case MFeePrune(_, _) => Records
    case _ => Office
  }

  /** The documents filed by a deposit describe it. */
  predicate DescribesDeposit(doc: Doc, id: string, s: Address, amount: int, fee: Option<int>) {
    match doc
    case TransferDoc(pbId, sender, receiver, a, f, _, _) =>
      pbId == id && sender == s && receiver.code == s.code && a == amount && fee == Some(f)
    case PayDoc(pbId, sender, receiver, a, _, _) =>
      pbId == id && sender == s && receiver.code == s.code && a == amount && fee == None
    case _ => false
  }

  /** A document of a contract that holds no escrow. */
  predicate PlainDoc(doc: Doc) {
    match doc
    case TransferDoc(_, _, _, _, _, _, _) => false
    case PayDoc(_, _, _, _, _, _) => false
    case MintDoc(_, amount) => amount >= 0
    case BurnDoc(_, amount) => amount >= 0
    case AccountDoc(_, holders) => |holders| >= 2
    case _ => true
  }

  predicate EscrowOf(w: World, cid: string) {
    cid in w.contracts && (w.contracts[cid].TransferDoc? || w.contracts[cid].PayDoc?) &&
    w.contracts[cid].pbId in w.book.pendings && w.book.pendings[w.contracts[cid].pbId].rid == ToContract(cid)
  }

  function RowsOfPays(w: World, env: Env, a: Address, end: Time): seq<string> {
    env.query(PayTimes(w.book.pays, a), PayCursor(w.book.balances, a), end)
  }

  function RowsOfFees(w: World, env: Env, code: string, end: Time): seq<string> {
    env.query(FeeTimes(w.book.fees, code), FeeCursor(w, code), end)
  }

  /** What holds when a move is made. */
  predicate Enabled(w: World, env: Env, m: Move) {
    match m
    case MTransfer(s, r, amount, fee, _, _) =>
      s != r && s.code == r.code && s in w.book.balances && r in w.book.balances && amount > 0 &&
      CalcFee(w.tokens, s, "transfer", amount) == Ok(fee) && w.book.balances[s].amount >= amount + fee
    case MDeposit(s, con, amount, fee, _, doc) =>
      s in w.book.balances && amount > 0 && OrZero(fee) >= 0 && w.book.balances[s].amount >= amount + OrZero(fee) &&
      env.contract == Some(con) && DescribesDeposit(doc, env.txId, s, amount, fee)
    case MRelease(id) =>
      id in w.book.pendings && w.book.pendings[id].account in w.book.balances
    case MDeliver(cid, _) =>
      EscrowOf(w, cid) && w.contracts[cid].TransferDoc? && w.contracts[cid].receiver in w.book.balances
    case MPay(s, merchant, amount, fee, _, _) =>
      s != merchant && s.code == merchant.code && s in w.book.balances && amount > 0 &&
      w.book.balances[s].amount >= amount && CalcFee(w.tokens, merchant, "pay", amount) == Ok(fee)
    case MPayPending(cid, fee) =>
      EscrowOf(w, cid) && w.contracts[cid].PayDoc? &&
      CalcFee(w.tokens, w.contracts[cid].receiver, "pay", w.book.pendings[w.contracts[cid].pbId].amount) == Ok(fee)
    case MRefund(payId, amount, _) =>
      amount > 0 && payId in w.book.pays &&
      var parent := w.book.pays[payId];
      parent.rid.code == parent.merchant.code && parent.rid != parent.merchant &&
      parent.totalRefund + amount <= parent.amount && parent.rid in w.book.balances
    case MPayPrune(a, end) =>
      a in w.book.balances && RowsOfPays(w, env, a, end) != []
    case MFeePrune(code, end) =>
      code in w.tokens && w.tokens[code].policy.Some? && w.tokens[code].policy.value.target in w.book.balances &&
      RowsOfFees(w, env, code, end) != []
    case MMint(code, amount) =>
      code in w.tokens && w.tokens[code].genesis in w.book.balances &&
      w.tokens[code].supply < w.tokens[code].maxSupply &&
      amount >= 0
    case MBurn(code, amount) =>
      code in w.tokens && w.tokens[code].genesis in w.book.balances && w.tokens[code].supply != 0 &&
      0 < Min(amount, w.book.balances[w.tokens[code].genesis].amount)
    case MOpen(a, account) =>
      a !in w.registry.accounts &&
      if a.kind == Personal then account == PersonalAccount(false)
      else account.JointAccount? && |account.holders| >= 2
    case MIssue(code, meta, holders) =>
      code !in w.tokens && ValidMeta(meta) && CreateToken(w, env, code, meta, holders).Ok?
    case MHolder(a, kid, add) =>
      a in w.registry.accounts && w.registry.accounts[a].JointAccount? &&
      if add then |w.registry.accounts[a].holders| <= 127 && kid !in w.registry.accounts[a].holders
      else |w.registry.accounts[a].holders| >= 3 && kid in w.registry.accounts[a].holders
    case MSuspend(a, _) =>
      a in w.registry.accounts && a.kind == Personal
    case MPolicy(code, policy) =>
      code in w.tokens && (policy.None? ==> w.tokens[code].policy.None?) &&
      (policy.Some? ==> policy.value.target in w.registry.accounts || policy.value.target == w.tokens[code].genesis ||
                        (w.tokens[code].policy.Some? && policy.value.target == w.tokens[code].policy.value.target))
    case MContract(doc) =>
      env.contract.Some? && PlainDoc(doc)
    case MNothing => true
  }

  /** What a move writes. */
  function Apply(w: World, env: Env, m: Move): World
    requires Enabled(w, env, m)
  {
    match m
    case MTransfer(s, r, amount, fee, memo, pt) =>
      w.(book := Transferred(w.book, env, s, w.book.balances[s], r, w.book.balances[r], amount, fee, memo, pt))
    case MDeposit(s, con, amount, fee, memo, doc) =>
      w.(contracts := w.contracts[con.cid := doc],
         book := Deposit(w.book, env, env.txId, s, w.book.balances[s], con, amount, fee, memo))
    case MRelease(id) =>
      w.(book := Withdraw(w.book, env, id, w.book.pendings[id]).value)
    case MDeliver(cid, pt) =>
      var doc := w.contracts[cid];
      w.(book := TransferredPending(w.book, env, doc.pbId, w.book.pendings[doc.pbId], doc.receiver,
                                    w.book.balances[doc.receiver], pt))
    case MPay(s, merchant, amount, fee, orderId, memo) =>
      w.(book := PayNow(w.book, env, s, w.book.balances[s], merchant, amount, fee, orderId, memo))
    case MPayPending(cid, fee) =>
      var doc := w.contracts[cid];
      w.(book := PayPending(w.book, env, doc.pbId, w.book.pendings[doc.pbId], fee, doc.receiver, doc.orderId, doc.memo))
    case MRefund(payId, amount, memo) =>
      var parent := w.book.pays[payId];
      w.(book := Refund(w.book, env, parent.merchant, parent.rid, w.book.balances[parent.rid], amount,
                        RefundedFee(parent, amount), memo, payId, parent))
    case MPayPrune(a, end) =>
      w.(book := PrunedPays(w.book, env, a, w.book.balances[a], PaySum(w.book.pays, RowsOfPays(w, env, a, end))))
    case MFeePrune(code, end) =>
      var target := w.tokens[code].policy.value.target;
      var tokens := if code in w.book.lastFee then w.tokens else w.tokens[code := w.tokens[code].(lastPrunedFee := "")];
      w.(tokens := tokens,
         book := PrunedFees(w.book, env, code, target, w.book.balances[target],
                            FeeSum(w.book.fees, RowsOfFees(w, env, code, end))))
    case MMint(code, amount) =>
      MintToken(w, env, code, w.tokens[code], w.book.balances[w.tokens[code].genesis], amount).value
    case MBurn(code, amount) =>
      BurnToken(w, env, code, w.tokens[code], w.book.balances[w.tokens[code].genesis], amount).value
    case MOpen(a, account) =>
      OpenAccount(w, a, account, HoldersOf(a, account))
    case MIssue(code, meta, holders) =>
      CreateToken(w, env, code, meta, holders).value
    case MHolder(a, kid, add) =>
      var holders := w.registry.accounts[a].holders;
      w.(registry := if add then AddHolder(w.registry, a, holders, kid) else RemoveHolder(w.registry, a, holders, kid))
    case MSuspend(a, suspend) =>
      w.(registry := w.registry.(accounts := w.registry.accounts[a := PersonalAccount(suspend)]))
    case MPolicy(code, policy) =>
      PutToken(w, code, w.tokens[code].(policy := policy))
    case MContract(doc) =>
      w.(contracts := w.contracts[env.contract.value.cid := doc])
    case MNothing => w
  }

  /** What the inversion of a callback needs to know about the documents on file. */
  predicate DocsPlain(w: World) {
    forall cid :: cid in w.contracts ==>
      PlainDoc(w.contracts[cid]) || w.contracts[cid].TransferDoc? || w.contracts[cid].PayDoc?
  }

  ghost predicate IsMove(w: World, env: Env, m: Move, r: Result<World>) {
    r.Ok? ==> Enabled(w, env, m) && r.value == Apply(w, env, m)
  }

  predicate KindsOk(r: Registry) {
    forall a :: a in r.accounts ==> (r.accounts[a].JointAccount? <==> a.kind == Joint)
  }

  /** The time, in nanoseconds, that a lock until the given second waits for. */
  function LockTime(seconds: Option<int>): Option<Time> {
    match seconds
    case None => None
    case Some(s) => Some(s * 1_000_000_000)
  }

  /** Up to when a prune takes records: the second given or the present, and ten minutes ago at most when it
      plays safe. */
  function PruneEnd(ts: Time, safe: bool, seconds: Option<int>): (end: Time)
    ensures end <= match seconds case None => ts case Some(s) => s * 1_000_000_000
    ensures safe ==> end <= ts - 600_000_000_000
  {
    var given := match seconds case None => ts case Some(s) => s * 1_000_000_000;
    if safe && ts - 600_000_000_000 < given then ts - 600_000_000_000 else given
  }

  // ---- the move of each transaction (of no account when the transaction fails) ----

  function SendMove(env: Env, s: Address, r: Address, amount: int, fee: int, memo: string, seconds: Option<int>,
                    signers: set<Kid>): Move {
    if |signers| <= 1 then MTransfer(s, r, amount, fee, memo, LockTime(seconds))
    else if env.contract.None? then MNothing
    else MDeposit(s, env.contract.value, amount, Some(fee), memo,
                  TransferDoc(env.txId, s, r, amount, fee, memo, seconds))
  }

  function TransferMove(w: World, env: Env, from: Option<Address>, r: Address, amount: int, memo: string,
                        seconds: Option<int>, extra: seq<Address>): Move {
    var t := TransferTerms(w, env, from, r, amount, extra);
    if t.Err? then MNothing
    else
      var now := if seconds.Some? && env.ts / SECOND < seconds.value then seconds else None;
      SendMove(env, t.value.s, r, amount, t.value.fee, memo, now, t.value.signers)
  }

  function PayMove(w: World, env: Env, from: Option<Address>, r: Address, amount: int, orderId: string,
                   memo: string): Move {
    var t := PayTerms(w, env, from, r, amount);
    if t.Err? then MNothing else SettleMove(w, env, t.value.0, r, amount, orderId, memo, t.value.2)
  }

  function SettleMove(w: World, env: Env, s: Address, r: Address, amount: int, orderId: string, memo: string,
                      signers: set<Kid>): Move {
    if |signers| <= 1 then
      var fee := CalcFee(w.tokens, r, "pay", amount);
      if fee.Err? then MNothing else MPay(s, r, amount, fee.value, orderId, memo)
    else if env.contract.None? then MNothing
    else MDeposit(s, env.contract.value, amount, None, memo, PayDoc(env.txId, s, r, amount, orderId, memo))
  }

  function FeePruneMove(w: World, env: Env, code: string, safe: bool, end: Option<int>): Move {
    if code in w.tokens && w.tokens[code].policy.Some? then MFeePrune(code, PruneEnd(env.ts, safe, end)) else MNothing
  }

  function AccountMove(w: World, env: Env, code: string, coHolders: seq<Address>): Move {
    if coHolders == [] then MOpen(Address(code, Personal, env.kid), PersonalAccount(false))
    else
      var others := Signables(w, code, coHolders);
      if others.Err? then MNothing else MContract(AccountDoc(code, {env.kid} + others.value))
  }

  function HolderRemoveMove(env: Env, a: Address, t: Address): Move {
    if t.id == env.kid then MHolder(a, t.id, false) else MContract(RemoveHolderDoc(a, t.id))
  }

  function SupplyMove(w: World, env: Env, code: string, mint: bool): Move {
    if code !in w.tokens || env.kntAmount.None? then MNothing
    else
      var holders := GenesisHolders(w, env, w.tokens[code]);
      if holders.Err? then MNothing
      else if |holders.value| > 1 then
        MContract(if mint then MintDoc(code, env.kntAmount.value) else BurnDoc(code, env.kntAmount.value))
      else if mint then MMint(code, env.kntAmount.value)
      else BurnMove(w, code, env.kntAmount.value)
  }

  function BurnMove(w: World, code: string, amount: int): Move {
    if code in w.tokens && w.tokens[code].genesis in w.book.balances &&
       0 < Min(amount, w.book.balances[w.tokens[code].genesis].amount)
    then MBurn(code, amount) else MNothing
  }

  function IssueMove(w: World, env: Env, code: string, coHolders: seq<Address>): Move {
    var others := Signables(w, code, coHolders);
    if others.Err? || env.meta.None? then MNothing
    else
      var holders := {env.kid} + others.value;
      if |holders| > 1 then MContract(TokenDoc(code, holders)) else MIssue(code, env.meta.value, holders)
  }

  function UpdateMove(w: World, env: Env, code: string): Move {
    if code !in w.tokens || env.meta.None? then MNothing
    else
      var policy := UpdatedPolicy(w, w.tokens[code], env.meta.value);
      if policy.Err? then MNothing else MPolicy(code, policy.value)
  }

  function CancelMove(doc: Doc): Move {
    if doc.TransferDoc? || doc.PayDoc? then MRelease(doc.pbId) else MNothing
  }

  function ExecuteMove(w: World, env: Env, cid: string, doc: Doc): Move {
    match doc
    case TransferDoc(_, _, _, _, _, _, seconds) => MDeliver(cid, LockTime(if seconds == Some(0) then None else seconds))
    case PayDoc(pbId, _, r, _, _, _) =>
      if pbId !in w.book.pendings then MNothing
      else
        var fee := CalcFee(w.tokens, r, "pay", w.book.pendings[pbId].amount);
        if fee.Err? then MNothing else MPayPending(cid, fee.value)
    case MintDoc(code, amount) => MMint(code, amount)
    case BurnDoc(code, amount) => BurnMove(w, code, amount)
    case TokenDoc(code, holders) => if env.meta.Some? then MIssue(code, env.meta.value, holders) else MNothing
    case AccountDoc(code, holders) => MOpen(Address(code, Joint, env.jointId), JointAccount(holders))
    case AddHolderDoc(a, kid) => MHolder(a, kid, true)
    case RemoveHolderDoc(a, kid) => MHolder(a, kid, false)
  }

  function MoveOf(w: World, env: Env, tx: Tx): Move {
    match tx
    case AccountCreate(code, coHolders) => AccountMove(w, env, code, coHolders)
    case AccountHolderAdd(a, t) => MContract(AddHolderDoc(a, t.id))
    case AccountHolderRemove(a, t) => HolderRemoveMove(env, a, t)
    case AccountSuspend(code) => MSuspend(Address(code, Personal, env.kid), true)
    case AccountUnsuspend(code) => MSuspend(Address(code, Personal, env.kid), false)
    case PendingWithdraw(id) => MRelease(id)
    case ContractCancel(cid) => if cid in w.contracts then CancelMove(w.contracts[cid]) else MNothing
    case ContractExecute(cid) => if cid in w.contracts then ExecuteMove(w, env, cid, w.contracts[cid]) else MNothing
    case FeePrune(code, safe, end) => FeePruneMove(w, env, code, safe, end)
    case PayTx(s, r, amount, orderId, memo) => PayMove(w, env, s, r, amount, orderId, memo)
    case PayPrune(a, safe, end) => MPayPrune(a, PruneEnd(env.ts, safe, end))
    case PayRefund(payId, amount, memo) => MRefund(payId, amount, memo)
    case TokenBurn(code, _) => SupplyMove(w, env, code, false)
    case TokenCreate(code, coHolders) => IssueMove(w, env, code, coHolders)
    case TokenMint(code, _) => SupplyMove(w, env, code, true)
    case TokenUpdate(code) => UpdateMove(w, env, code)
    case Transfer(s, r, amount, memo, seconds, extra) => TransferMove(w, env, s, r, amount, memo, seconds, extra)
  }

  // ---- each handler makes its move ----

  lemma SendIsMove(w: World, env: Env, s: Address, r: Address, amount: int, fee: int, memo: string,
                   seconds: Option<int>, signers: set<Kid>)
    requires s != r && s.code == r.code && s in w.book.balances && r in w.book.balances && amount > 0 && fee >= 0
    requires CalcFee(w.tokens, s, "transfer", amount) == Ok(fee) && w.book.balances[s].amount >= amount + fee
    ensures IsMove(w, env, SendMove(env, s, r, amount, fee, memo, seconds, signers),
                   Send(w, env, s, w.book.balances[s], r, w.book.balances[r], amount, fee, memo, seconds, signers))
  {
  }

  lemma TermsHold(w: World, env: Env, from: Option<Address>, r: Address, amount: int, extra: seq<Address>)
    ensures var t := TransferTerms(w, env, from, r, amount, extra);
            t.Ok? ==>
              var s := t.value.s;
              s != r && s.code == r.code && s in w.book.balances && r in w.book.balances && amount > 0 &&
              t.value.sDoc == w.book.balances[s] && t.value.rDoc == w.book.balances[r] && t.value.fee >= 0 &&
              CalcFee(w.tokens, s, "transfer", amount) == Ok(t.value.fee) && t.value.sDoc.amount >= amount + t.value.fee
  {
    FeeFree(w.tokens, SenderOf(from, r, env.kid), "transfer", amount);
  }

  lemma TransferIsMove(w: World, env: Env, from: Option<Address>, r: Address, amount: int, memo: string,
                       seconds: Option<int>, extra: seq<Address>)
    ensures IsMove(w, env, TransferMove(w, env, from, r, amount, memo, seconds, extra),
                   TransferTx(w, env, from, r, amount, memo, seconds, extra))
  {
    TermsHold(w, env, from, r, amount, extra);
    var t := TransferTerms(w, env, from, r, amount, extra);
    if t.Ok? {
      var now := if seconds.Some? && env.ts / SECOND < seconds.value then seconds else None;
      SendIsMove(w, env, t.value.s, r, amount, t.value.fee, memo, now, t.value.signers);
    }
  }

  lemma SettleIsMove(w: World, env: Env, s: Address, r: Address, amount: int, orderId: string, memo: string,
                     signers: set<Kid>)
    requires s != r && s.code == r.code && s in w.book.balances && amount > 0 && w.book.balances[s].amount >= amount
    ensures IsMove(w, env, SettleMove(w, env, s, r, amount, orderId, memo, signers),
                   Settle(w, env, s, w.book.balances[s], r, amount, orderId, memo, signers))
  {
  }

  lemma PayTermsHold(w: World, env: Env, from: Option<Address>, r: Address, amount: int)
    ensures var t := PayTerms(w, env, from, r, amount);
            t.Ok? ==>
              var s := t.value.0;
              s != r && s.code == r.code && s in w.book.balances && amount > 0 && t.value.1 == w.book.balances[s] &&
              t.value.1.amount >= amount
  {
  }

  lemma PayIsMove(w: World, env: Env, from: Option<Address>, r: Address, amount: int, orderId: string, memo: string)
    ensures IsMove(w, env, PayMove(w, env, from, r, amount, orderId, memo),
                   PayTransaction(w, env, from, r, amount, orderId, memo))
  {
    PayTermsHold(w, env, from, r, amount);
    var t := PayTerms(w, env, from, r, amount);
    if t.Ok? {
      SettleIsMove(w, env, t.value.0, r, amount, orderId, memo, t.value.2);
    }
  }

  lemma RefundIsMove(w: World, env: Env, payId: string, amount: int, memo: string)
    ensures IsMove(w, env, MRefund(payId, amount, memo), PayRefundTx(w, env, payId, amount, memo))
  {
  }

  lemma PayPruneIsMove(w: World, env: Env, a: Address, safe: bool, end: Option<int>)
    ensures IsMove(w, env, MPayPrune(a, PruneEnd(env.ts, safe, end)), PayPruneTx(w, env, a, safe, end))
  {
  }

  lemma FeePruneIsMove(w: World, env: Env, code: string, safe: bool, end: Option<int>)
    ensures IsMove(w, env, FeePruneMove(w, env, code, safe, end), FeePruneTx(w, env, code, safe, end))
  {
  }

  lemma AccountIsMove(w: World, env: Env, code: string, coHolders: seq<Address>)
    ensures IsMove(w, env, AccountMove(w, env, code, coHolders), AccountCreateTx(w, env, code, coHolders))
  {
  }

  lemma HolderAddIsMove(w: World, env: Env, a: Address, t: Address)
    ensures IsMove(w, env, MContract(AddHolderDoc(a, t.id)), HolderAddTx(w, env, a, t))
  {
  }

  lemma TargetIsJoint(w: World, a: Address, t: Address)
    requires KindsOk(w.registry)
    ensures var h := HolderTarget(w, a, t);
            h.Ok? ==> a in w.registry.accounts && w.registry.accounts[a] == JointAccount(h.value)
  {
  }

  lemma HolderRemoveIsMove(w: World, env: Env, a: Address, t: Address)
    requires KindsOk(w.registry)
    ensures IsMove(w, env, HolderRemoveMove(env, a, t), HolderRemoveTx(w, env, a, t))
  {
    TargetIsJoint(w, a, t);
  }

  lemma SuspendIsMove(w: World, env: Env, code: string, suspend: bool)
    ensures IsMove(w, env, MSuspend(Address(code, Personal, env.kid), suspend), SuspendTx(w, env, code, suspend))
  {
  }

  lemma WithdrawIsMove(w: World, env: Env, id: string)
    ensures IsMove(w, env, MRelease(id), PendingWithdrawTx(w, env, id))
  {
  }

  lemma MintIsMove(w: World, env: Env, code: string)
    ensures IsMove(w, env, SupplyMove(w, env, code, true), TokenMintTx(w, env, code))
  {
  }

  lemma BurnNowIsMove(w: World, env: Env, code: string, amount: int)
    requires code in w.tokens && w.tokens[code].genesis in w.book.balances
    ensures IsMove(w, env, BurnMove(w, code, amount),
                   BurnToken(w, env, code, w.tokens[code], w.book.balances[w.tokens[code].genesis], amount))
  {
  }

  lemma BurnIsMove(w: World, env: Env, code: string)
    ensures IsMove(w, env, SupplyMove(w, env, code, false), TokenBurnTx(w, env, code))
  {
    var r := TokenBurnTx(w, env, code);
    if r.Ok? {
      BurnNowIsMove(w, env, code, env.kntAmount.value);
      if |GenesisHolders(w, env, w.tokens[code]).value| > 1 {
        assert SupplyMove(w, env, code, false) == MContract(BurnDoc(code, env.kntAmount.value));
      } else {
        assert SupplyMove(w, env, code, false) == BurnMove(w, code, env.kntAmount.value);
      }
    }
  }

  lemma IssueIsMove(w: World, env: Env, code: string, coHolders: seq<Address>)
    ensures IsMove(w, env, IssueMove(w, env, code, coHolders), TokenCreateTx(w, env, code, coHolders))
  {
  }

  lemma UpdateIsMove(w: World, env: Env, code: string)
    ensures IsMove(w, env, UpdateMove(w, env, code), TokenUpdateTx(w, env, code))
  {
  }

  lemma CancelIsMove(w: World, env: Env, cid: string)
    requires cid in w.contracts
    ensures IsMove(w, env, CancelMove(w.contracts[cid]), CancelDoc(w, env, cid, w.contracts[cid]))
  {
  }

  lemma ExecuteEscrowIsMove(w: World, env: Env, cid: string)
    requires cid in w.contracts && (w.contracts[cid].TransferDoc? || w.contracts[cid].PayDoc?)
    ensures IsMove(w, env, ExecuteMove(w, env, cid, w.contracts[cid]), ExecuteDoc(w, env, cid, w.contracts[cid]))
  {
  }

  predicate SupplyDoc(doc: Doc) {
    doc.MintDoc? || doc.BurnDoc? || doc.TokenDoc?
  }

  lemma ExecuteSupplyIsMove(w: World, env: Env, cid: string)
    requires cid in w.contracts && PlainDoc(w.contracts[cid]) && SupplyDoc(w.contracts[cid])
    ensures IsMove(w, env, ExecuteMove(w, env, cid, w.contracts[cid]), ExecuteDoc(w, env, cid, w.contracts[cid]))
  {
  }

  lemma ExecuteAccountIsMove(w: World, env: Env, cid: string)
    requires cid in w.contracts && PlainDoc(w.contracts[cid]) && !SupplyDoc(w.contracts[cid])
    ensures IsMove(w, env, ExecuteMove(w, env, cid, w.contracts[cid]), ExecuteDoc(w, env, cid, w.contracts[cid]))
  {
  }

  predicate AboutAccounts(tx: Tx) {
    tx.AccountCreate? || tx.AccountHolderAdd? || tx.AccountHolderRemove? || tx.AccountSuspend? || tx.AccountUnsuspend?
  }

  predicate AboutTokens(tx: Tx) {
    tx.TokenBurn? || tx.TokenCreate? || tx.TokenMint? || tx.TokenUpdate? || tx.FeePrune?
  }

  lemma AccountStepIsMove(w: World, env: Env, tx: Tx)
    requires KindsOk(w.registry) && AboutAccounts(tx)
    ensures IsMove(w, env, MoveOf(w, env, tx), Handle(w, env, tx))
  {
    match tx
    case AccountCreate(code, coHolders) => AccountIsMove(w, env, code, coHolders);
    case AccountHolderAdd(a, t) => HolderAddIsMove(w, env, a, t);
    case AccountHolderRemove(a, t) => HolderRemoveIsMove(w, env, a, t);
    case AccountSuspend(code) => SuspendIsMove(w, env, code, true);
    case AccountUnsuspend(code) => SuspendIsMove(w, env, code, false);
  }

  lemma TokenStepIsMove(w: World, env: Env, tx: Tx)
    requires AboutTokens(tx)
    ensures IsMove(w, env, MoveOf(w, env, tx), Handle(w, env, tx))
  {
    match tx
    case FeePrune(code, safe, end) => FeePruneIsMove(w, env, code, safe, end);
    case TokenBurn(code, _) => BurnIsMove(w, env, code);
    case TokenCreate(code, coHolders) => IssueIsMove(w, env, code, coHolders);
    case TokenMint(code, _) => MintIsMove(w, env, code);
    case TokenUpdate(code) => UpdateIsMove(w, env, code);
  }

  lemma CallbackIsMove(w: World, env: Env, tx: Tx)
    requires DocsPlain(w) && (tx.ContractCancel? || tx.ContractExecute?)
    ensures IsMove(w, env, MoveOf(w, env, tx), Handle(w, env, tx))
  {
    if tx.cid in w.contracts {
      match tx
      case ContractCancel(cid) => CancelIsMove(w, env, cid);
      case ContractExecute(cid) =>
        if !PlainDoc(w.contracts[cid]) { ExecuteEscrowIsMove(w, env, cid); }
        else if SupplyDoc(w.contracts[cid]) { ExecuteSupplyIsMove(w, env, cid); }
        else { ExecuteAccountIsMove(w, env, cid); }
    }
  }

  lemma ValueStepIsMove(w: World, env: Env, tx: Tx)
    requires tx.PendingWithdraw? || tx.PayTx? || tx.PayPrune? || tx.PayRefund? || tx.Transfer?
    ensures IsMove(w, env, MoveOf(w, env, tx), Handle(w, env, tx))
  {
    match tx
    case PendingWithdraw(id) => WithdrawIsMove(w, env, id);
    case PayTx(s, r, amount, orderId, memo) => PayIsMove(w, env, s, r, amount, orderId, memo);
    case PayPrune(a, safe, end) => PayPruneIsMove(w, env, a, safe, end);
    case PayRefund(payId, amount, memo) => RefundIsMove(w, env, payId, amount, memo);
    case Transfer(s, r, amount, memo, seconds, extra) => TransferIsMove(w, env, s, r, amount, memo, seconds, extra);
  }

  /** Every successful transaction makes its move. */
  lemma StepIsMove(w: World, env: Env, tx: Tx)
    requires KindsOk(w.registry) && DocsPlain(w)
    ensures IsMove(w, env, MoveOf(w, env, tx), Handle(w, env, tx))
  {
    if AboutAccounts(tx) { AccountStepIsMove(w, env, tx); }
    else if AboutTokens(tx) { TokenStepIsMove(w, env, tx); }
    else if tx.ContractCancel? || tx.ContractExecute? { CallbackIsMove(w, env, tx); }
    else { ValueStepIsMove(w, env, tx); }
  }
}
