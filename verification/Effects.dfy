// Who gains and who loses: the change of every balance in every move, as a table. Nothing else moves.
module Effects {
  import opened Basics
  import opened World
  import opened Stubs
  import opened Sums
  import opened Paging
  import opened Transactions
  import opened Moves
  import opened Invariants

  function If(condition: bool, amount: int): int {
    if condition then amount else 0
  }

  /** What a move does to the balance of a. */
  function Effect(w: World, env: Env, m: Move, a: Address): int
    requires Enabled(w, env, m)
  {
    match m
    case MTransfer(s, r, amount, fee, _, pt) =>
      If(a == s, -amount - fee) + If(a == r && !TimeLocked(env, pt), amount)
    case MDeposit(s, _, amount, fee, _, _) => If(a == s, -amount - OrZero(fee))
    case MRelease(id) => If(a == w.book.pendings[id].account, Held(w.book.pendings[id]))
    case MDeliver(cid, pt) =>
      If(a == w.contracts[cid].receiver && !TimeLocked(env, pt), w.book.pendings[w.contracts[cid].pbId].amount)
    case MPay(s, _, amount, _, _, _) => If(a == s, -amount)
    case MRefund(payId, amount, _) => If(a == w.book.pays[payId].rid, amount)
    case MPayPrune(b, end) =>
      var s := PaySum(w.book.pays, RowsOfPays(w, env, b, end));
      If(a == b, s.sum - s.fee)
    case MFeePrune(code, end) =>
      If(a == w.tokens[code].policy.value.target, FeeSum(w.book.fees, RowsOfFees(w, env, code, end)).sum)
    case MMint(code, amount) =>
      If(a == w.tokens[code].genesis, Min(amount, w.tokens[code].maxSupply - w.tokens[code].supply))
    case MBurn(code, amount) =>
      If(a == w.tokens[code].genesis, -Min(amount, w.book.balances[w.tokens[code].genesis].amount))
    case MIssue(code, meta, _) => If(a == Address(code, Joint, env.jointId), meta.supply)
    case _ => 0
  }

  lemma TransferEffect(w: World, env: Env, m: Move, a: Address)
    requires Enabled(w, env, m) && m.MTransfer?
    ensures AmountOf(Apply(w, env, m).book, a) == AmountOf(w.book, a) + Effect(w, env, m, a)
  {
  }

  lemma FlowEffect(w: World, env: Env, m: Move, a: Address)
    requires Enabled(w, env, m) && GroupOf(m) == Flow && !m.MTransfer?
    ensures AmountOf(Apply(w, env, m).book, a) == AmountOf(w.book, a) + Effect(w, env, m, a)
  {
  }

  lemma RecordsEffect(w: World, env: Env, m: Move, a: Address)
    requires Enabled(w, env, m) && GroupOf(m) == Records
    ensures AmountOf(Apply(w, env, m).book, a) == AmountOf(w.book, a) + Effect(w, env, m, a)
  {
  }

  lemma OfficeEffect(w: World, env: Env, m: Move, a: Address)
    requires RegistryOk(w) && Enabled(w, env, m) && GroupOf(m) == Office
    ensures AmountOf(Apply(w, env, m).book, a) == AmountOf(w.book, a) + Effect(w, env, m, a)
  {
    if m.MIssue? { IssueWrites(w, env, m.code, m.meta, m.holders); }
  }

  /** Every balance changes by exactly what the table says: the sender of a transfer by its amount and
      fee, the receiver by the amount unless it is locked, and all others by nothing. */
  lemma BalanceEffects(w: World, env: Env, m: Move, a: Address)
    requires RegistryOk(w) && Enabled(w, env, m)
    ensures AmountOf(Apply(w, env, m).book, a) == AmountOf(w.book, a) + Effect(w, env, m, a)
  {
    match GroupOf(m)
    case Flow => if m.MTransfer? { TransferEffect(w, env, m, a); } else { FlowEffect(w, env, m, a); }
    case Records => RecordsEffect(w, env, m, a);
    case Office => OfficeEffect(w, env, m, a);
  }

  /** The effect of a transaction that succeeds is that of its move. */
  lemma StepEffect(w: World, env: Env, tx: Tx, a: Address)
    requires Inv(w) && Admitted(w, env) && Step(w, env, tx).Ok?
    ensures Enabled(w, env, MoveOf(w, env, tx))
    ensures AmountOf(Step(w, env, tx).value.book, a) == AmountOf(w.book, a) + Effect(w, env, MoveOf(w, env, tx), a)
  {
    InvStep(w, env, tx);
    BalanceEffects(w, env, MoveOf(w, env, tx), a);
  }

  lemma PruneEffects(w: World, env: Env, m: Move, a: Address)
    requires Enabled(w, env, m)
    ensures m.MPayPrune? ==>
              var page := Page(RowsOfPays(w, env, m.a, m.end));
              Effect(w, env, m, a) ==
              If(a == m.a, SumOver(PayAmounts(w.book.pays), page) - SumOver(PayFees(w.book.pays), page))
    ensures m.MFeePrune? ==>
              Effect(w, env, m, a) ==
              If(a == w.tokens[m.code].policy.value.target,
                 SumOver(FeeAmounts(w.book.fees), Page(RowsOfFees(w, env, m.code, m.end))))
  {
  }

  /** An escrow of the amount is in the book, for its owner from the given time on. */
  predicate Locked(b: Book, env: Env, owner: Address, sender: Address, amount: int, time: Time) {
    env.txId in b.pendings &&
    var p := b.pendings[env.txId];
    p.account == owner && p.rid == ToAccount(sender) && Held(p) == amount && p.createdTime == env.ts &&
    p.pendingTime == time
  }

  /** The records a move files: what is paid and locked is what was taken. */
  lemma RecordsFiled(w: World, env: Env, m: Move)
    requires NewIds(w, env) && Enabled(w, env, m)
    ensures var b, b' := w.book, Apply(w, env, m).book;
            match m
            case MTransfer(s, r, amount, fee, _, pt) =>
              (fee != 0 ==> env.recordId in b'.fees && b'.fees[env.recordId] == Fee(s.code, s, fee, env.ts)) &&
              (TimeLocked(env, pt) ==> Locked(b', env, r, s, amount, pt.value))
            case MDeliver(cid, pt) =>
              var p := b.pendings[w.contracts[cid].pbId];
              (OrZero(p.fee) != 0 ==>
                 env.recordId in b'.fees && b'.fees[env.recordId] ==
                 Fee(p.account.code, p.account, OrZero(p.fee), env.ts)) &&
              (TimeLocked(env, pt) ==> Locked(b', env, w.contracts[cid].receiver, p.account, p.amount, pt.value))
            case MPay(s, merchant, amount, fee, orderId, _) =>
              env.recordId in b'.pays &&
              var p := b'.pays[env.recordId];
              p.merchant == merchant && p.rid == s && p.amount == amount && p.fee == fee && p.orderId == orderId &&
              p.parentId == "" &&
              p.totalRefund == 0 && p.createdTime == env.ts
            case MRefund(payId, amount, _) =>
              env.recordId in b'.pays &&
              var p, q := b'.pays[env.recordId], b.pays[payId];
              p.merchant == q.merchant && p.rid == q.rid && p.amount == -amount && p.parentId == payId &&
              p.fee == -RefundedFee(q, amount) && p.totalRefund == 0 && p.createdTime == env.ts &&
              b'.pays[payId].totalRefund == q.totalRefund + amount
            case MPayPending(cid, fee) =>
              env.recordId in b'.pays &&
              var p, q := b'.pays[env.recordId], b.pendings[w.contracts[cid].pbId];
              p.merchant == w.contracts[cid].receiver && p.rid == q.account && p.amount == q.amount && p.fee == fee &&
              p.parentId == "" &&
              p.totalRefund == 0 && p.createdTime == env.ts
            case MPayPrune(a, end) =>
              var s := PaySum(b.pays, RowsOfPays(w, env, a, end));
              s.fee != 0 ==> env.recordId in b'.fees && b'.fees[env.recordId] == Fee(a.code, a, s.fee, env.ts)
            case _ => true
  {
  }
}
