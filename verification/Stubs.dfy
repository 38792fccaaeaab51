// What the stubs write, as functions of the book. A stub works on in-memory copies of balances that
// its caller read earlier, so those copies are parameters: nothing here looks a balance up again.
module Stubs {
  import opened Basics
  import opened World
  import opened Sums
  import opened Paging

  type Balances = map<Address, BalanceDoc>
  type Logs = map<(Address, Time), Log>

  /** The copy of a balance with its amount changed. */
  function Plus(doc: BalanceDoc, diff: int): BalanceDoc {
    doc.(amount := doc.amount + diff)
  }

  /** A fee of zero leaves no record. */
  function CreateFee(fees: map<string, Fee>, env: Env, payer: Address, amount: int): map<string, Fee> {
    if amount == 0 then fees else fees[env.recordId := Fee(payer.code, payer, amount, env.ts)]
  }

  /** One account's balance written back together with its log. */
  function Posted(b: Book, env: Env, a: Address, doc: BalanceDoc, log: Log): Book {
    b.(balances := b.balances[a := doc], logs := b.logs[(a, env.ts) := log])
  }

  function Supply(b: Book, env: Env, a: Address, doc: BalanceDoc, amount: int): Book {
    var doc' := Plus(doc, amount);
    Posted(b, env, a, doc', Log(if amount < 0 then Burnt else Minted, amount, None, doc'.amount))
  }

  /** Files the log of a transfer: the sign of the difference decides whose it is. */
  function TransferLog(logs: Logs, env: Env, s: Address, sAmount: int, r: Address, rAmount: int, diff: int,
                       fee: Option<int>): Logs {
    if diff < 0 then logs[(s, env.ts) := Log(Sent, diff, fee, sAmount)]
    else logs[(r, env.ts) := Log(Received, diff, None, rAmount)]
  }

  predicate TimeLocked(env: Env, pendingTime: Option<Time>) {
    pendingTime.Some? && pendingTime.value > env.ts
  }

  /** The receiving half of a transfer: credit now, or lock until the pending time. */
  function Arrive(b: Book, env: Env, s: Address, sAmount: int, r: Address, rDoc: BalanceDoc, amount: int, memo: string,
                  pendingTime: Option<Time>): Book {
    if TimeLocked(env, pendingTime) then
      b.(pendings := b.pendings[env.txId := Pending(r, ToAccount(s), amount, None, memo, env.ts, pendingTime.value)])
    else
      b.(balances := b.balances[r := Plus(rDoc, amount)],
         logs := TransferLog(b.logs, env, s, sAmount, r, rDoc.amount + amount, amount, None))
  }

  function Transferred(b: Book, env: Env, s: Address, sDoc: BalanceDoc, r: Address, rDoc: BalanceDoc, amount: int,
                       fee: int, memo: string, pendingTime: Option<Time>): Book {
    var b1 := Arrive(b, env, s, sDoc.amount, r, rDoc, amount, memo, pendingTime);
    var sDoc' := Plus(sDoc, -amount - fee);
    var rAmount := if TimeLocked(env, pendingTime) then rDoc.amount else rDoc.amount + amount;
    b1.(balances := b1.balances[s := sDoc'],
        logs := TransferLog(b1.logs, env, s, sDoc'.amount, r, rAmount, -amount, Some(fee)),
        fees := CreateFee(b.fees, env, s, fee))
  }

  function TransferredPending(b: Book, env: Env, pbId: string, p: Pending, r: Address, rDoc: BalanceDoc,
                              pendingTime: Option<Time>): Book {
    var b1 := Arrive(b, env, p.account, 0, r, rDoc, p.amount, p.memo, pendingTime);
    b1.(pendings := b1.pendings - {pbId}, fees := CreateFee(b.fees, env, p.account, OrZero(p.fee)))
  }

  function Deposit(b: Book, env: Env, id: string, s: Address, sDoc: BalanceDoc, con: NewContract, amount: int,
                   fee: Option<int>, memo: string): Book {
    var sDoc' := Plus(sDoc, -(amount + OrZero(fee)));
    Posted(b, env, s, sDoc', Log(Deposited, -amount, fee, sDoc'.amount))
    .(pendings := b.pendings[id := Pending(s, ToContract(con.cid), amount, fee, memo, env.ts, con.expiry)])
  }

  function Withdraw(b: Book, env: Env, id: string, p: Pending): Result<Book> {
    if p.account !in b.balances then Err("balance is not exists")
    else
      var doc := Plus(b.balances[p.account], Held(p));
      Ok(Posted(b, env, p.account, doc, Log(Withdrawn, Held(p), None, doc.amount)).(pendings := b.pendings - {id}))
  }

  function PayNow(b: Book, env: Env, s: Address, sDoc: BalanceDoc, merchant: Address, amount: int, fee: int,
                  orderId: string, memo: string): Book {
    var sDoc' := Plus(sDoc, -amount);
    Posted(b, env, s, sDoc', Log(Paid, -amount, None, sDoc'.amount))
    .(pays := b.pays[env.recordId := Pay(merchant, amount, fee, 0, s, "", orderId, memo, env.ts)])
  }

  /** A refund files a negative pay under the merchant, raises the parent's running total, and credits
      the payer at once; the merchant's balance is not touched until the record is pruned. */
  function Refund(b: Book, env: Env, merchant: Address, r: Address, rDoc: BalanceDoc, amount: int, fee: int,
                  memo: string, parentId: string, parent: Pay): Book {
    var rDoc' := Plus(rDoc, amount);
    Posted(b, env, r, rDoc', Log(Refunded, amount, None, rDoc'.amount))
    .(pays := b.pays[env.recordId := Pay(merchant, -amount, -fee, 0, r, parentId, "", memo, env.ts)]
                    [parentId := parent.(totalRefund := parent.totalRefund + amount)])
  }

  /** The escrow of a pay contract becomes a pay record. The escrow's own fee is not looked at. */
  function PayPending(b: Book, env: Env, pbId: string, p: Pending, fee: int, merchant: Address, memo: string,
                      orderId: string): Book {
    b.(pays := b.pays[env.recordId := Pay(merchant, p.amount, fee, 0, p.account, "", orderId, memo, env.ts)],
       pendings := b.pendings - {pbId})
  }

  /** What one prune call adds up. */
  datatype PageSum = PageSum(sum: int, fee: int, count: nat, start: string, end: string, hasMore: bool)

  function PaySum(pays: map<string, Pay>, rows: seq<string>): PageSum {
    var page := Page(rows);
    PageSum(SumOver(PayAmounts(pays), page), SumOver(PayFees(pays), page), |page|,
            if rows == [] then "" else rows[0], if rows == [] then "" else PageEnd(rows), HasMore(rows))
  }

  function FeeSum(fees: map<string, Fee>, rows: seq<string>): PageSum {
    var page := Page(rows);
    PageSum(SumOver(FeeAmounts(fees), page), 0, |page|,
            if rows == [] then "" else rows[0], if rows == [] then "" else PageEnd(rows), HasMore(rows))
  }

  /** A pay prune credits the page's sum less its fees, moves the cursor, and files the fees. */
  function PrunedPays(b: Book, env: Env, a: Address, doc: BalanceDoc, s: PageSum): Book {
    var doc' := BalanceDoc(doc.amount + s.sum - s.fee, if s.end != "" then s.end else doc.lastPruned);
    Posted(b, env, a, doc', Log(PrunedPay, s.sum - s.fee, None, doc'.amount)).(fees := CreateFee(b.fees, env, a, s.fee))
  }

  function PrunedFees(b: Book, env: Env, code: string, target: Address, doc: BalanceDoc, s: PageSum): Book {
    var doc' := Plus(doc, s.sum);
    Posted(b, env, target, doc', Log(PrunedFee, s.sum, None, doc'.amount)).(lastFee := b.lastFee[code := s.end])
  }

  // ---- accounts ----

  /** A new account with an empty balance. */
  function OpenAccount(w: World, a: Address, account: Account, holders: set<Kid>): World {
    w.(registry := Registry(w.registry.accounts[a := account],
                            w.registry.holders + set k | k in holders :: (k, a)),
       book := w.book.(balances := w.book.balances[a := BalanceDoc(0, "")]))
  }

  function CreateAccount(w: World, env: Env, code: string): Result<World> {
    var a := Address(code, Personal, env.kid);
    if a in w.registry.accounts then Err("the account already exists")
    else Ok(OpenAccount(w, a, PersonalAccount(false), {env.kid}))
  }

  function CreateJointAccount(w: World, env: Env, code: string, holders: set<Kid>): Result<World> {
    var a := Address(code, Joint, env.jointId);
    if a in w.registry.accounts then Err("failed to create a random address")
    else Ok(OpenAccount(w, a, JointAccount(holders), holders))
  }

  function AddHolder(r: Registry, a: Address, holders: set<Kid>, kid: Kid): Registry {
    Registry(r.accounts[a := JointAccount(holders + {kid})], r.holders + {(kid, a)})
  }

  function RemoveHolder(r: Registry, a: Address, holders: set<Kid>, kid: Kid): Registry {
    Registry(r.accounts[a := JointAccount(holders - {kid})], r.holders - {(kid, a)})
  }

  // ---- token supply ----

  function PutToken(w: World, code: string, token: Token): World {
    w.(tokens := w.tokens[code := token])
  }

  /** Minting stops at the maximum supply. */
  function MintToken(w: World, env: Env, code: string, token: Token, doc: BalanceDoc, amount: int): Result<World> {
    if token.supply >= token.maxSupply then Err("max supplied")
    else
      var minted := Min(amount, token.maxSupply - token.supply);
      Ok(PutToken(w, code, token.(supply := token.supply + minted))
         .(book := Supply(w.book, env, token.genesis, doc, minted)))
  }

  /** Burning stops at the genesis balance, and burning nothing changes nothing. */
  function BurnToken(w: World, env: Env, code: string, token: Token, doc: BalanceDoc, amount: int): Result<World> {
    if token.supply == 0 then Err("no supply")
    else
      var burnt := Min(amount, doc.amount);
      if burnt <= 0 then Ok(w)
      else Ok(PutToken(w, code, token.(supply := token.supply - burnt))
              .(book := Supply(w.book, env, token.genesis, doc, -burnt)))
  }

  /** A token starts with a joint genesis account that receives the initial supply. The fee target is
      looked up as it was before the transaction: a transaction does not see its own writes. */
  function CreateToken(w: World, env: Env, code: string, meta: Meta, holders: set<Kid>): Result<World> {
    match CreateJointAccount(w, env, code, holders)
    case Err(e) => Err(e)
    case Ok(w1) =>
      var genesis := Address(code, Joint, env.jointId);
      if meta.rates.Some? && meta.target.Some? && meta.target.value !in w.registry.accounts then
        Err("the account does not exist")
      else
        var policy := if meta.rates.Some?
                      then Some(Policy(if meta.target.Some? then meta.target.value else genesis, meta.rates.value))
                      else None;
        var book := if meta.supply > 0 then Supply(w1.book, env, genesis, BalanceDoc(0, ""), meta.supply) else w1.book;
        Ok(PutToken(w1.(book := book), code, Token(meta.maxSupply, meta.supply, "", genesis, policy)))
  }
}
