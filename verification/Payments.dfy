// Payments and refunds: exactly when each succeeds, and what it files. Only a merchant's holders refund, and
// without them nobody makes a merchant poorer.
module Payments {
  import opened Basics
  import opened World
  import opened Stubs
  import opened Sums
  import opened Fees
  import opened Transactions
  import opened Moves
  import opened Invariants
  import opened Runs
  import opened Effects
  import opened Authority
  import opened Escrow
  import opened Rights
  import opened Transfers
  import opened Refunds
  import Holders
  import Interleaved

  // ---- pay ----

  /** What a payment takes, whoever signs. */
  predicate CanPay(w: World, env: Env, tx: Tx)
    requires tx.PayTx?
  {
    var s, r := Source(env, tx), tx.receiver;
    && tx.amount > 0 && s.code == r.code && s != r
    && MayAct(w, env.kid, s) && Usable(w, r) && AmountOf(w.book, s) >= tx.amount
  }

  lemma PayTermsIff(w: World, env: Env, tx: Tx)
    requires RegistryOk(w) && tx.PayTx?
    ensures PayTerms(w, env, tx.sender, tx.receiver, tx.amount).Ok? <==> CanPay(w, env, tx)
  {
    PartiesIff(w, Source(env, tx), tx.receiver, env.kid);
  }

  lemma PayTermsAre(w: World, env: Env, tx: Tx)
    requires KindsOk(w.registry) && tx.PayTx? && PayTerms(w, env, tx.sender, tx.receiver, tx.amount).Ok?
    ensures var t, s := PayTerms(w, env, tx.sender, tx.receiver, tx.amount).value, Source(env, tx);
            t.0 == s && s in w.book.balances && t.1 == w.book.balances[s] && t.2 == MustSign(w, env, tx)
  {
    PaySigners(w, env, tx);
  }

  lemma TermsToSettle(w: World, env: Env, tx: Tx)
    requires tx.PayTx?
    ensures var t := PayTerms(w, env, tx.sender, tx.receiver, tx.amount);
            if t.Err? then Handle(w, env, tx).Err?
            else Handle(w, env, tx) ==
                 Settle(w, env, t.value.0, t.value.1, tx.receiver, tx.amount, tx.orderId, tx.memo, t.value.2)
  {
  }

  lemma SettleIff(w: World, env: Env, s: Address, sDoc: BalanceDoc, r: Address, amount: int, orderId: string,
                  memo: string, signers: set<Kid>)
    ensures Settle(w, env, s, sDoc, r, amount, orderId, memo, signers).Ok? <==>
            if |signers| > 1 then |signers| <= 128 && env.contract.Some? else r.code in w.tokens
  {
    FeeFree(w.tokens, r, "pay", amount);
  }

  /** A payment succeeds exactly when the amount is positive, source and receiver are two usable accounts of one
      token, the invoker holds the source and it covers the amount; with one signer the token must be issued,
      with more, at most 128, there must be a contract. */
  lemma PaySucceedsIff(w: World, env: Env, tx: Tx)
    requires RegistryOk(w) && tx.PayTx?
    ensures Step(w, env, tx).Ok? <==>
            CanPay(w, env, tx) &&
            if |MustSign(w, env, tx)| > 1 then |MustSign(w, env, tx)| <= 128 && env.contract.Some?
            else tx.receiver.code in w.tokens
  {
    StepAnswers(w, env, tx);
    PayTermsIff(w, env, tx);
    TermsToSettle(w, env, tx);
    var terms := PayTerms(w, env, tx.sender, tx.receiver, tx.amount);
    if terms.Ok? {
      var t := terms.value;
      PayTermsAre(w, env, tx);
      SettleIff(w, env, t.0, t.1, tx.receiver, tx.amount, tx.orderId, tx.memo, t.2);
    }
  }

  /** A payment on file: the payer has paid it and nobody has it yet. */
  ghost predicate Filed(w: World, w': World, env: Env, s: Address, r: Address, amount: int, orderId: string,
                        memo: string) {
    var fee := CalcFee(w.tokens, r, "pay", amount);
    && fee.Ok? && OnlyBook(w, w') && w'.book.fees == w.book.fees && w'.book.pendings == w.book.pendings
    && w'.book.pays == w.book.pays[env.recordId := Pay(r, amount, fee.value, 0, s, "", orderId, memo, env.ts)]
    && AmountOf(w'.book, s) == AmountOf(w.book, s) - amount
    && forall a :: a != s ==> AmountOf(w'.book, a) == AmountOf(w.book, a)
  }

  lemma SettleNow(w: World, env: Env, s: Address, r: Address, amount: int, orderId: string, memo: string,
                  signers: set<Kid>, txs: set<string>)
    requires s in w.book.balances && |signers| <= 1
    requires Settle(w, env, s, w.book.balances[s], r, amount, orderId, memo, signers).Ok?
    ensures var w' := Settle(w, env, s, w.book.balances[s], r, amount, orderId, memo, signers).value;
            Filed(w, w'.(txs := txs), env, s, r, amount, orderId, memo)
  {
  }

  lemma SettleWaits(w: World, env: Env, s: Address, r: Address, amount: int, orderId: string, memo: string,
                    signers: set<Kid>, txs: set<string>)
    requires s in w.book.balances && |signers| > 1
    requires Settle(w, env, s, w.book.balances[s], r, amount, orderId, memo, signers).Ok?
    ensures env.contract.Some?
    ensures var w' := Settle(w, env, s, w.book.balances[s], r, amount, orderId, memo, signers).value;
            Waiting(w, w'.(txs := txs), env, PayDoc(env.txId, s, r, amount, orderId, memo),
                    InTrust(env, s, amount, None, memo))
  {
  }

  lemma PaySettles(w: World, env: Env, tx: Tx)
    requires KindsOk(w.registry) && tx.PayTx? && Handle(w, env, tx).Ok?
    ensures var s := Source(env, tx);
            && s in w.book.balances
            && Handle(w, env, tx) == Settle(w, env, s, w.book.balances[s], tx.receiver, tx.amount, tx.orderId, tx.memo,
                                            MustSign(w, env, tx))
  {
    TermsToSettle(w, env, tx);
    PayTermsAre(w, env, tx);
  }

  /** With one signer: the payment is on file under its order id and memo, with the fee of today. */
  lemma PayAtOnce(w: World, env: Env, tx: Tx)
    requires KindsOk(w.registry) && tx.PayTx? && Step(w, env, tx).Ok? && |MustSign(w, env, tx)| <= 1
    ensures Filed(w, Step(w, env, tx).value, env, Source(env, tx), tx.receiver, tx.amount, tx.orderId, tx.memo)
  {
    StepAnswers(w, env, tx);
    PaySettles(w, env, tx);
    SettleNow(w, env, Source(env, tx), tx.receiver, tx.amount, tx.orderId, tx.memo, MustSign(w, env, tx),
              w.txs + {env.txId});
  }

  /** With more: the amount waits in escrow, and the contract's document names merchant, order id and memo. */
  lemma PayWaits(w: World, env: Env, tx: Tx)
    requires KindsOk(w.registry) && tx.PayTx? && Step(w, env, tx).Ok? && |MustSign(w, env, tx)| > 1
    ensures env.contract.Some?
    ensures var s := Source(env, tx);
            Waiting(w, Step(w, env, tx).value, env, PayDoc(env.txId, s, tx.receiver, tx.amount, tx.orderId, tx.memo),
                    InTrust(env, s, tx.amount, None, tx.memo))
  {
    StepAnswers(w, env, tx);
    PaySettles(w, env, tx);
    SettleWaits(w, env, Source(env, tx), tx.receiver, tx.amount, tx.orderId, tx.memo, MustSign(w, env, tx),
                w.txs + {env.txId});
  }

  // ---- the contract of a payment ----

  /** The escrow has become a payment, order id and memo changed over, and no balance has changed. */
  predicate PaidOut(w: World, w': World, env: Env, id: string, p: Pending, r: Address, orderId: string, memo: string) {
    var fee := CalcFee(w.tokens, r, "pay", p.amount);
    && fee.Ok? && OnlyBook(w, w') && w'.book.fees == w.book.fees && w'.book.pendings == w.book.pendings - {id}
    && w'.book.pays == w.book.pays[env.recordId := Pay(r, p.amount, fee.value, 0, p.account, "", memo, orderId, env.ts)]
    && w'.book.balances == w.book.balances
  }

  /** The contract of a payment is carried out exactly while its escrow is there and the token is issued. */
  lemma PayOutSucceedsIff(w: World, env: Env, cid: string)
    requires cid in w.contracts && w.contracts[cid].PayDoc?
    ensures var r, doc := Step(w, env, ContractExecute(cid)), w.contracts[cid];
            && (r.Ok? <==> EscrowThere(w, cid, doc.pbId) && doc.receiver.code in w.tokens)
            && (r.Ok? ==>
                  PaidOut(w, r.value, env, doc.pbId, w.book.pendings[doc.pbId], doc.receiver, doc.orderId, doc.memo))
  {
    StepAnswers(w, env, ContractExecute(cid));
    if EscrowThere(w, cid, w.contracts[cid].pbId) {
      FeeFree(w.tokens, w.contracts[cid].receiver, "pay", w.book.pendings[w.contracts[cid].pbId].amount);
    }
  }

  lemma PaysOutLater(w: World, w1: World, env: Env, es: seq<Event>, callback: Event, doc: Doc, p: Pending)
    requires Inv(w1) && Waiting(w, w1, env, doc, p)
    requires doc.PayDoc? && doc.pbId == env.txId && p.rid == ToContract(env.contract.value.cid)
    requires AdmittedRun(w1, es) && Succeeds(Run(w1, es), callback)
    requires callback.tx == ContractExecute(env.contract.value.cid)
    ensures PaidOut(Run(w1, es), Next(Run(w1, es), callback.env, callback.tx), callback.env, doc.pbId, p, doc.receiver,
                    doc.orderId, doc.memo)
  {
    var x, cid := Run(w1, es), env.contract.value.cid;
    WaitingLeaves(w, w1, env, doc, p);
    RunInv(w1, es);
    Holders.DocStays(w1, es, cid);
    PayOutSucceedsIff(x, callback.env, cid);
    HeldUnchanged(w1, es, doc.pbId);
  }

  /** A payment by contract, whatever happens before the callback that carries it out: the merchant of the
      request has a payment of the request's amount from its source. */
  lemma PaymentArrives(w: World, env: Env, tx: Tx, w1: World, es: seq<Event>, callback: Event)
    requires Inv(w) && Admitted(w, env) && tx.PayTx? && Step(w, env, tx) == Ok(w1)
    requires |MustSign(w, env, tx)| > 1 && env.contract.Some?
    requires AdmittedRun(w1, es) && Succeeds(Run(w1, es), callback)
    requires callback.tx == ContractExecute(env.contract.value.cid)
    ensures PaidOut(Run(w1, es), Next(Run(w1, es), callback.env, callback.tx), callback.env, env.txId,
                    InTrust(env, Source(env, tx), tx.amount, None, tx.memo), tx.receiver, tx.orderId, tx.memo)
  {
    var doc := PayDoc(env.txId, Source(env, tx), tx.receiver, tx.amount, tx.orderId, tx.memo);
    var p := InTrust(env, Source(env, tx), tx.amount, None, tx.memo);
    assert Inv(w1) by { StepKeepsInv(w, Event(env, tx)); }
    assert Waiting(w, w1, env, doc, p) by { PayWaits(w, env, tx); }
    PaysOutLater(w, w1, env, es, callback, doc, p);
  }

  // ---- refund ----

  /** A refund succeeds exactly when its amount is positive and fits in what is left of the payment, merchant and
      payer are two usable accounts of one token, and the invoker holds the merchant's. */
  lemma RefundSucceedsIff(w: World, env: Env, payId: string, amount: int, memo: string)
    requires RegistryOk(w)
    ensures Step(w, env, PayRefund(payId, amount, memo)).Ok? <==>
            && amount > 0 && payId in w.book.pays
            && var p := w.book.pays[payId];
               p.rid.code == p.merchant.code && p.rid != p.merchant && p.totalRefund + amount <= p.amount &&
               MayAct(w, env.kid, p.merchant) && Usable(w, p.rid)
  {
    StepAnswers(w, env, PayRefund(payId, amount, memo));
    if payId in w.book.pays { PartiesIff(w, w.book.pays[payId].merchant, w.book.pays[payId].rid, env.kid); }
  }

  /** The share of the fee that goes back: all of it with the whole payment, otherwise rounded down. */
  predicate FeeShare(p: Pay, amount: int, share: int) {
    if amount == p.amount then share == p.fee else share * p.amount <= amount * p.fee < (share + 1) * p.amount
  }

  lemma ShareExact(p: Pay, amount: int)
    requires p.amount > 0
    ensures FeeShare(p, amount, RefundedFee(p, amount))
  {
    if amount != p.amount { FloorBounds(amount, p.fee, p.amount); }
  }

  /** The payer has the amount at once, a negative payment with the fee's share waits for the merchant's next
      prune, the payment's total is raised, and nothing else changes. */
  ghost predicate GivenBack(w: World, w': World, env: Env, payId: string, amount: int, memo: string, share: int)
    requires payId in w.book.pays
  {
    var p := w.book.pays[payId];
    && OnlyBook(w, w') && w'.book.fees == w.book.fees && w'.book.pendings == w.book.pendings
    && FeeShare(p, amount, share)
    && w'.book.pays ==
       w.book.pays[env.recordId := Pay(p.merchant, -amount, -share, 0, p.rid, payId, "", memo, env.ts)]
                  [payId := p.(totalRefund := p.totalRefund + amount)]
    && AmountOf(w'.book, p.rid) == AmountOf(w.book, p.rid) + amount
    && forall a :: a != p.rid ==> AmountOf(w'.book, a) == AmountOf(w.book, a)
  }

  lemma RefundWrites(w: World, env: Env, payId: string, amount: int, memo: string)
    requires PayRefundTx(w, env, payId, amount, memo).Ok?
    ensures payId in w.book.pays && w.book.pays[payId].rid in w.book.balances
    ensures var p := w.book.pays[payId];
            PayRefundTx(w, env, payId, amount, memo).value ==
            w.(book := Refund(w.book, env, p.merchant, p.rid, w.book.balances[p.rid], amount, RefundedFee(p, amount),
                              memo, payId, p))
  {
  }

  lemma RefundBooks(w: World, env: Env, payId: string, amount: int, memo: string, txs: set<string>)
    requires payId in w.book.pays && w.book.pays[payId].rid in w.book.balances
    requires FeeShare(w.book.pays[payId], amount, RefundedFee(w.book.pays[payId], amount))
    ensures var p := w.book.pays[payId];
            var book := Refund(w.book, env, p.merchant, p.rid, w.book.balances[p.rid], amount, RefundedFee(p, amount),
                               memo, payId, p);
            GivenBack(w, w.(book := book, txs := txs), env, payId, amount, memo, RefundedFee(p, amount))
  {
  }

  lemma RefundGives(w: World, env: Env, payId: string, amount: int, memo: string)
    requires RegistryOk(w) && RefundsOk(w.book.pays) && payId in w.book.pays
    requires Step(w, env, PayRefund(payId, amount, memo)).Ok?
    ensures GivenBack(w, Step(w, env, PayRefund(payId, amount, memo)).value, env, payId, amount, memo,
                      RefundedFee(w.book.pays[payId], amount))
  {
    assert w.book.pays[payId].amount > 0 by {
      RefundSucceedsIff(w, env, payId, amount, memo);
      assert Accounted(w.book.pays, payId);
    }
    StepAnswers(w, env, PayRefund(payId, amount, memo));
    RefundWrites(w, env, payId, amount, memo);
    ShareExact(w.book.pays[payId], amount);
    RefundBooks(w, env, payId, amount, memo, w.txs + {env.txId});
  }

  // ---- nobody makes a merchant poorer ----

  /** The pays of a merchant after a cursor. */
  ghost function PaysAfter(pays: map<string, Pay>, a: Address, cursor: Time): map<string, int> {
    map id | id in pays && pays[id].merchant == a && pays[id].createdTime > cursor :: pays[id].amount
  }

  /** What a merchant has, and what is still to be pruned for it. */
  ghost function Wealth(w: World, a: Address): int {
    AmountOf(w.book, a) + Sum(PaysAfter(w.book.pays, a, PayCursor(w.book.balances, a)))
  }

  /** Payments have been added for a merchant, under one id, and nothing negative. */
  ghost predicate OnlyPaid(pays: map<string, Pay>, pays': map<string, Pay>, a: Address, id: string) {
    && (forall x :: x in pays ==> x in pays' && SamePay(pays[x], pays'[x]))
    && (forall x :: x in pays' && x !in pays && pays'[x].merchant == a ==> x == id && pays'[x].amount > 0)
  }

  lemma PaysAfterGrow(pays: map<string, Pay>, pays': map<string, Pay>, a: Address, id: string, cursor: Time)
    requires OnlyPaid(pays, pays', a, id)
    ensures Sum(PaysAfter(pays', a, cursor)) >= Sum(PaysAfter(pays, a, cursor))
  {
    var before, after := PaysAfter(pays, a, cursor), PaysAfter(pays', a, cursor);
    if id in after && id !in before {
      assert after == before[id := pays'[id].amount];
      SumPut(before, id, pays'[id].amount);
    } else {
      assert after == before;
    }
  }

  /** A move files at most one pay, and a negative one only to refund. */
  lemma MovePays(w: World, env: Env, m: Move, a: Address)
    requires DocsOk(w) && NewIds(w, env) && Enabled(w, env, m) && (m.MPay? || m.MPayPending? || m.MRefund?)
    requires m.MRefund? ==> w.book.pays[m.payId].merchant != a
    ensures OnlyPaid(w.book.pays, Apply(w, env, m).book.pays, a, env.recordId)
  {
  }

  lemma MoveOnlyPays(w: World, env: Env, m: Move, a: Address)
    requires DocsOk(w) && NewIds(w, env) && Enabled(w, env, m)
    requires m.MRefund? ==> w.book.pays[m.payId].merchant != a
    ensures OnlyPaid(w.book.pays, Apply(w, env, m).book.pays, a, env.recordId)
  {
    if m.MPay? || m.MPayPending? || m.MRefund? { MovePays(w, env, m, a); } else { OtherPays(w, env, m); }
  }

  lemma MoveKinds(w: World, env: Env, tx: Tx)
    ensures var m := MoveOf(w, env, tx);
            && (m.MRefund? ==> tx.PayRefund? && tx.payId == m.payId)
            && (m.MPayPrune? ==> tx.PayPrune? && tx.account == m.a)
  {
  }

  /** Only a holder of the merchant refunds, and only a holder prunes. */
  lemma RefundByHolder(w: World, env: Env, payId: string, amount: int, memo: string)
    requires RegistryOk(w) && PayRefundTx(w, env, payId, amount, memo).Ok?
    ensures payId in w.book.pays && Holds(w, env.kid, w.book.pays[payId].merchant)
  {
  }

  lemma PruneByHolder(w: World, env: Env, a: Address, safe: bool, end: Option<int>)
    requires PayPruneTx(w, env, a, safe, end).Ok?
    ensures Holds(w, env.kid, a)
  {
  }

  lemma StrangersMoves(w: World, e: Event, a: Address)
    requires RegistryOk(w) && Succeeds(w, e) && !Holds(w, e.env.kid, a)
    ensures var m := MoveOf(w, e.env, e.tx);
            && (m.MRefund? ==> m.payId in w.book.pays && w.book.pays[m.payId].merchant != a)
            && !Interleaved.PrunesPays(w, e, a)
  {
    MoveKinds(w, e.env, e.tx);
    if e.tx.PayRefund? {
      RefundByHolder(w, e.env, e.tx.payId, e.tx.amount, e.tx.memo);
    } else if e.tx.PayPrune? {
      PruneByHolder(w, e.env, e.tx.account, e.tx.safe, e.tx.endSeconds);
    }
  }

  lemma OpenPaysStay(w: World, e: Event, a: Address)
    requires Inv(w) && Admitted(w, e.env) && Succeeds(w, e) && !Holds(w, e.env.kid, a)
    ensures var w' := Next(w, e.env, e.tx);
            Sum(PaysAfter(w'.book.pays, a, PayCursor(w'.book.balances, a))) >=
            Sum(PaysAfter(w.book.pays, a, PayCursor(w.book.balances, a)))
  {
    StrangersMoves(w, e, a);
    Interleaved.PayCursorStays(w, e, a);
    InvStep(w, e.env, e.tx);
    MoveOnlyPays(w, e.env, MoveOf(w, e.env, e.tx), a);
    PaysAfterGrow(w.book.pays, Next(w, e.env, e.tx).book.pays, a, e.env.recordId, PayCursor(w.book.balances, a));
  }

  /** In any run without a transaction of its holders or a burn of its balance, a merchant's balance and open
      pays together do not fall: what it is owed is lost to nobody else's prune or refund. */
  lemma {:induction false} StrangersLeaveWealth(w: World, es: seq<Event>, a: Address)
    requires Inv(w) && AdmittedRun(w, es) && Strangers(w, es, a)
    ensures Wealth(Run(w, es), a) >= Wealth(w, a)
    decreases |es|
  {
    if es != [] {
      var front, e := es[..|es| - 1], es[|es| - 1];
      var x := Run(w, front);
      StrangersLeaveWealth(w, front, a);
      RunInv(w, front);
      if Succeeds(x, e) {
        OpenPaysStay(x, e, a);
        if AmountOf(Next(x, e.env, e.tx).book, a) < AmountOf(x.book, a) { OnlyHoldersTake(x, e.env, e.tx, a); }
      }
    }
  }
}
