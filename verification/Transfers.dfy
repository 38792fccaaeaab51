// Transfers and what becomes of them: exactly when one succeeds, until when it is locked, what waits in
// escrow, and what arrives when the escrow is released, delivered or withdrawn.
module Transfers {
  import opened Basics
  import opened World
  import opened Stubs
  import opened Fees
  import opened Transactions
  import opened Moves
  import opened Invariants
  import opened Runs
  import opened Escrow
  import opened Effects
  import opened Authority
  import opened Rights
  import Holders

  // ---- exactly when a transfer succeeds ----

  /** What a transfer takes, whoever signs. */
  predicate Payable(w: World, env: Env, tx: Tx)
    requires tx.Transfer?
  {
    var s, r := Source(env, tx), tx.receiver;
    && tx.amount > 0 && s.code == r.code && s != r
    && MayAct(w, env.kid, s) && Usable(w, r)
    && s.code in w.tokens && AmountOf(w.book, s) >= Price(w, env, tx)
    && (forall a :: a in tx.extra ==> a.code == r.code && a in w.registry.accounts)
  }

  lemma TermsAre(w: World, env: Env, tx: Tx)
    requires KindsOk(w.registry) && tx.Transfer?
    requires TransferTerms(w, env, tx.sender, tx.receiver, tx.amount, tx.extra).Ok?
    ensures var t, s, r := TransferTerms(w, env, tx.sender, tx.receiver, tx.amount, tx.extra).value, Source(env, tx),
                           tx.receiver;
            && t.s == s && s != r && t.fee == Price(w, env, tx) - tx.amount && t.signers == MustSign(w, env, tx)
            && s in w.book.balances && t.sDoc == w.book.balances[s] && r in w.book.balances
            && t.rDoc == w.book.balances[r]
  {
    TransferSigners(w, env, tx);
  }

  lemma TermsIff(w: World, env: Env, tx: Tx)
    requires RegistryOk(w) && tx.Transfer?
    ensures TransferTerms(w, env, tx.sender, tx.receiver, tx.amount, tx.extra).Ok? <==> Payable(w, env, tx)
  {
    PartiesIff(w, Source(env, tx), tx.receiver, env.kid);
    FeeFree(w.tokens, Source(env, tx), "transfer", tx.amount);
    SignablesAre(w, tx.receiver.code, tx.extra);
  }

  /** The second a transfer asks to be locked until has not come yet. */
  predicate Later(env: Env, tx: Tx)
    requires tx.Transfer?
  {
    tx.pendingSeconds.Some? && env.ts / 1_000_000_000 < tx.pendingSeconds.value
  }

  /** The second a transfer is locked until, if it asks for one and it has not come yet. */
  function LockSecond(env: Env, tx: Tx): Option<int>
    requires tx.Transfer?
  {
    if Later(env, tx) then tx.pendingSeconds else None
  }

  lemma TermsToSend(w: World, env: Env, tx: Tx)
    requires tx.Transfer?
    ensures var terms := TransferTerms(w, env, tx.sender, tx.receiver, tx.amount, tx.extra);
            if terms.Err? then Handle(w, env, tx).Err?
            else
              var t := terms.value;
              Handle(w, env, tx) ==
              Send(w, env, t.s, t.sDoc, tx.receiver, t.rDoc, tx.amount, t.fee, tx.memo, LockSecond(env, tx), t.signers)
  {
  }

  lemma SendIff(w: World, env: Env, s: Address, sDoc: BalanceDoc, r: Address, rDoc: BalanceDoc, amount: int, fee: int,
                memo: string, seconds: Option<int>, signers: set<Kid>)
    ensures Send(w, env, s, sDoc, r, rDoc, amount, fee, memo, seconds, signers).Ok? <==>
            (|signers| > 1 ==> |signers| <= 128 && env.contract.Some?)
  {
  }

  /** A transfer succeeds exactly when the amount is positive, source and receiver are two usable accounts of
      one issued token, the invoker holds the source, it covers amount and fee, all extra signers' accounts are
      of the token, and there are at most 128 signers, with a contract for more than one. */
  lemma TransferSucceedsIff(w: World, env: Env, tx: Tx)
    requires RegistryOk(w) && tx.Transfer?
    ensures Step(w, env, tx).Ok? <==>
            Payable(w, env, tx) && |MustSign(w, env, tx)| <= 128 &&
            (|MustSign(w, env, tx)| > 1 ==> env.contract.Some?)
  {
    StepAnswers(w, env, tx);
    TermsIff(w, env, tx);
    TermsToSend(w, env, tx);
    var terms := TransferTerms(w, env, tx.sender, tx.receiver, tx.amount, tx.extra);
    if terms.Ok? {
      var t := terms.value;
      TermsAre(w, env, tx);
      SendIff(w, env, t.s, t.sDoc, tx.receiver, t.rDoc, tx.amount, t.fee, tx.memo, LockSecond(env, tx), t.signers);
    }
  }

  // ---- at once: credited or locked ----

  /** r receives the amount: locked for it until the given time, or at once. Nothing else is in escrow that
      was not before. */
  predicate Arrives(b: Book, kept: map<string, Pending>, b': Book, env: Env, s: Address, r: Address, amount: int,
                    memo: string, lock: Option<Time>) {
    match lock
    case Some(until) =>
      AmountOf(b', r) == AmountOf(b, r) &&
      b'.pendings == kept[env.txId := Pending(r, ToAccount(s), amount, None, memo, env.ts, until)]
    case None => AmountOf(b', r) == AmountOf(b, r) + amount && b'.pendings == kept
  }

  /** The fee a sender pays is on file, if it is not zero. */
  predicate FeeFiled(b: Book, b': Book, env: Env, payer: Address, fee: int) {
    b'.fees == if fee == 0 then b.fees else b.fees[env.recordId := Fee(payer.code, payer, fee, env.ts)]
  }

  /** One signer's transfer: the source pays amount and fee, the receiver gets the amount, now or locked. */
  predicate Sent(w: World, w': World, env: Env, s: Address, r: Address, amount: int, fee: int, memo: string,
                 lock: Option<Time>) {
    && OnlyBook(w, w') && w'.book.pays == w.book.pays
    && Arrives(w.book, w.book.pendings, w'.book, env, s, r, amount, memo, lock)
    && FeeFiled(w.book, w'.book, env, s, fee)
    && AmountOf(w'.book, s) == AmountOf(w.book, s) - amount - fee
  }

  lemma SendNow(w: World, env: Env, s: Address, r: Address, amount: int, fee: int, memo: string, seconds: Option<int>,
                signers: set<Kid>)
    requires s != r && s in w.book.balances && r in w.book.balances && |signers| <= 1
    requires seconds.Some? ==> env.ts / 1_000_000_000 < seconds.value
    ensures var w' := Send(w, env, s, w.book.balances[s], r, w.book.balances[r], amount, fee, memo, seconds,
                           signers).value;
            var lock := if seconds.Some? then Some(seconds.value * 1_000_000_000) else None;
            forall txs :: Sent(w, w'.(txs := txs), env, s, r, amount, fee, memo, lock)
  {
  }

  lemma TransferSends(w: World, env: Env, tx: Tx)
    requires RegistryOk(w) && tx.Transfer? && Handle(w, env, tx).Ok?
    ensures var s, r, fee := Source(env, tx), tx.receiver, Price(w, env, tx) - tx.amount;
            && s != r && s in w.book.balances && r in w.book.balances
            && Handle(w, env, tx) ==
               Send(w, env, s, w.book.balances[s], r, w.book.balances[r], tx.amount, fee, tx.memo, LockSecond(env, tx),
                    MustSign(w, env, tx))
  {
    TermsToSend(w, env, tx);
    TermsAre(w, env, tx);
  }

  /** With one signer: when the second asked for has not come, the receiver's balance stays and the amount is
      locked for it until exactly then; otherwise the receiver has it at once and nothing is locked. */
  lemma TransferAtOnce(w: World, env: Env, tx: Tx)
    requires RegistryOk(w) && tx.Transfer? && Step(w, env, tx).Ok? && |MustSign(w, env, tx)| <= 1
    ensures var lock := if Later(env, tx) then Some(tx.pendingSeconds.value * 1_000_000_000) else None;
            Sent(w, Step(w, env, tx).value, env, Source(env, tx), tx.receiver, tx.amount, Price(w, env, tx) - tx.amount,
                 tx.memo, lock)
  {
    StepAnswers(w, env, tx);
    TransferSends(w, env, tx);
    SendNow(w, env, Source(env, tx), tx.receiver, tx.amount, Price(w, env, tx) - tx.amount, tx.memo,
            LockSecond(env, tx), MustSign(w, env, tx));
  }

  // ---- by contract ----

  /** The escrow waits for the new contract, whose document this is, and its owner has paid what it holds. */
  predicate Waiting(w: World, w': World, env: Env, doc: Doc, p: Pending) {
    && env.contract.Some? && w'.registry == w.registry && w'.tokens == w.tokens
    && w'.contracts == w.contracts[env.contract.value.cid := doc]
    && w'.book.pays == w.book.pays && w'.book.fees == w.book.fees && w'.book.pendings == w.book.pendings[env.txId := p]
    && AmountOf(w'.book, p.account) == AmountOf(w.book, p.account) - p.amount - OrZero(p.fee)
  }

  /** What a deposit for a new contract puts in escrow; its owner may have it back when the contract expires. */
  function InTrust(env: Env, s: Address, amount: int, fee: Option<int>, memo: string): Pending
    requires env.contract.Some?
  {
    Pending(s, ToContract(env.contract.value.cid), amount, fee, memo, env.ts, env.contract.value.expiry)
  }

  lemma SendWaits(w: World, env: Env, s: Address, r: Address, amount: int, fee: int, memo: string, seconds: Option<int>,
                  signers: set<Kid>)
    requires s in w.book.balances && r in w.book.balances && |signers| > 1
    requires Send(w, env, s, w.book.balances[s], r, w.book.balances[r], amount, fee, memo, seconds, signers).Ok?
    ensures env.contract.Some?
    ensures var w' := Send(w, env, s, w.book.balances[s], r, w.book.balances[r], amount, fee, memo, seconds,
                           signers).value;
            forall txs :: Waiting(w, w'.(txs := txs), env, TransferDoc(env.txId, s, r, amount, fee, memo, seconds),
                                  InTrust(env, s, amount, Some(fee), memo))
  {
  }

  /** The document of the contract that a transfer asks for: it names the receiver and the second. */
  function DocFor(w: World, env: Env, tx: Tx): Doc
    requires tx.Transfer?
  {
    TransferDoc(env.txId, Source(env, tx), tx.receiver, tx.amount, Price(w, env, tx) - tx.amount, tx.memo,
                LockSecond(env, tx))
  }

  /** With more signers: amount and fee wait in escrow for the contract. */
  lemma TransferWaits(w: World, env: Env, tx: Tx)
    requires RegistryOk(w) && tx.Transfer? && Step(w, env, tx).Ok? && |MustSign(w, env, tx)| > 1
    ensures env.contract.Some?
    ensures Waiting(w, Step(w, env, tx).value, env, DocFor(w, env, tx),
                    InTrust(env, Source(env, tx), tx.amount, Some(Price(w, env, tx) - tx.amount), tx.memo))
  {
    StepAnswers(w, env, tx);
    TransferSends(w, env, tx);
    SendWaits(w, env, Source(env, tx), tx.receiver, tx.amount, Price(w, env, tx) - tx.amount, tx.memo,
              LockSecond(env, tx), MustSign(w, env, tx));
  }

  // ---- out of escrow ----

  /** The escrow of a contract's document is there, and is the contract's. */
  predicate EscrowThere(w: World, cid: string, pbId: string) {
    pbId in w.book.pendings && w.book.pendings[pbId].rid == ToContract(cid)
  }

  /** When a delivery is locked: a second is asked for and has not come. */
  function DeliveryLock(env: Env, seconds: Option<int>): Option<Time> {
    if seconds.Some? && seconds.value * 1_000_000_000 > env.ts then Some(seconds.value * 1_000_000_000) else None
  }

  lemma DeliverIff(w: World, env: Env, cid: string)
    requires cid in w.contracts && w.contracts[cid].TransferDoc? && RegistryOk(w)
    ensures ExecuteTransfer(w, env, cid, w.contracts[cid]).Ok? <==>
            EscrowThere(w, cid, w.contracts[cid].pbId) && w.contracts[cid].receiver in w.registry.accounts
  {
  }

  /** The escrow is gone, the receiver has its amount, now or locked, and its fee is on file. */
  predicate Delivered(w: World, w': World, env: Env, id: string, p: Pending, r: Address, lock: Option<Time>) {
    && OnlyBook(w, w') && w'.book.pays == w.book.pays
    && Arrives(w.book, w.book.pendings - {id}, w'.book, env, p.account, r, p.amount, p.memo, lock)
    && FeeFiled(w.book, w'.book, env, p.account, OrZero(p.fee))
  }

  lemma DeliverGives(w: World, env: Env, cid: string, txs: set<string>)
    requires cid in w.contracts && w.contracts[cid].TransferDoc? && RegistryOk(w) && env.ts > 0
    requires env.txId !in w.book.pendings
    requires ExecuteTransfer(w, env, cid, w.contracts[cid]).Ok?
    ensures EscrowThere(w, cid, w.contracts[cid].pbId)
    ensures var w', doc := ExecuteTransfer(w, env, cid, w.contracts[cid]).value, w.contracts[cid];
            Delivered(w, w'.(txs := txs), env, doc.pbId, w.book.pendings[doc.pbId], doc.receiver,
                      DeliveryLock(env, doc.pendingSeconds))
  {
  }

  /** The contract of a transfer delivers exactly while its escrow is there and the receiver's account exists.
      The amount is locked for the receiver until the document's second, or credited when none is to come. */
  lemma DeliverySucceedsIff(w: World, env: Env, cid: string)
    requires Inv(w) && Admitted(w, env) && cid in w.contracts && w.contracts[cid].TransferDoc?
    ensures var r, doc := Step(w, env, ContractExecute(cid)), w.contracts[cid];
            && (r.Ok? <==> EscrowThere(w, cid, doc.pbId) && doc.receiver in w.registry.accounts)
            && (r.Ok? ==> Delivered(w, r.value, env, doc.pbId, w.book.pendings[doc.pbId], doc.receiver,
                                    DeliveryLock(env, doc.pendingSeconds)))
  {
    StepAnswers(w, env, ContractExecute(cid));
    DeliverIff(w, env, cid);
    if Step(w, env, ContractExecute(cid)).Ok? { DeliverGives(w, env, cid, w.txs + {env.txId}); }
  }

  /** An escrow goes back to its owner: all it holds, to no one else, and nothing else changes but the log. */
  predicate Returned(w: World, w': World, id: string)
    requires id in w.book.pendings
  {
    var p := w.book.pendings[id];
    && OnlyBook(w, w') && w'.book.pays == w.book.pays && w'.book.fees == w.book.fees
    && w'.book.pendings == w.book.pendings - {id}
    && AmountOf(w'.book, p.account) == AmountOf(w.book, p.account) + p.amount + OrZero(p.fee)
  }

  /** An owner withdraws exactly what is in escrow for a usable account of its own when its time has come. */
  lemma WithdrawSucceedsIff(w: World, env: Env, id: string)
    requires RegistryOk(w)
    ensures Step(w, env, PendingWithdraw(id)).Ok? <==>
            id in w.book.pendings && w.book.pendings[id].pendingTime <= env.ts &&
            MayAct(w, env.kid, w.book.pendings[id].account)
    ensures Step(w, env, PendingWithdraw(id)).Ok? ==> Returned(w, Step(w, env, PendingWithdraw(id)).value, id)
  {
    StepAnswers(w, env, PendingWithdraw(id));
  }

  /** Cancelling a contract returns the escrow that is there for it, to an owner whose account exists. The
      contracts without an escrow are cancelled without a trace. */
  lemma CancelSucceedsIff(w: World, env: Env, cid: string)
    requires RegistryOk(w)
    ensures var r := Step(w, env, ContractCancel(cid));
            if cid !in w.contracts then r.Err?
            else if DocEscrow(w, cid).None? then r == Ok(w.(txs := w.txs + {env.txId}))
            else
              var id := DocEscrow(w, cid).value;
              (r.Ok? <==> EscrowThere(w, cid, id) && w.book.pendings[id].account in w.registry.accounts) &&
              (r.Ok? ==> Returned(w, r.value, id))
  {
    StepAnswers(w, env, ContractCancel(cid));
  }

  // ---- from the request to the delivery ----

  lemma StillWaiting(w: World, es: seq<Event>, cid: string)
    requires Inv(w) && AdmittedRun(w, es) && cid in w.contracts && w.contracts[cid].TransferDoc?
    requires EscrowThere(w, cid, w.contracts[cid].pbId)
    ensures var x, doc := Run(w, es), w.contracts[cid];
            && Inv(x) && cid in x.contracts && x.contracts[cid] == doc
            && (EscrowThere(x, cid, doc.pbId) ==> x.book.pendings[doc.pbId] == w.book.pendings[doc.pbId])
  {
    RunInv(w, es);
    Holders.DocStays(w, es, cid);
    if HeldIn(Run(w, es), w.contracts[cid].pbId) { HeldUnchanged(w, es, w.contracts[cid].pbId); }
  }

  lemma DeliversTo(x: World, callback: Event, cid: string, doc: Doc, p: Pending)
    requires Inv(x) && Admitted(x, callback.env) && Succeeds(x, callback) && callback.tx == ContractExecute(cid)
    requires cid in x.contracts && x.contracts[cid] == doc && doc.TransferDoc?
    requires EscrowThere(x, cid, doc.pbId) ==> x.book.pendings[doc.pbId] == p
    ensures Delivered(x, Next(x, callback.env, callback.tx), callback.env, doc.pbId, p, doc.receiver,
                      DeliveryLock(callback.env, doc.pendingSeconds))
  {
    DeliverySucceedsIff(x, callback.env, cid);
  }

  lemma WaitingLeaves(w: World, w': World, env: Env, doc: Doc, p: Pending)
    requires Waiting(w, w', env, doc, p)
    ensures env.contract.value.cid in w'.contracts && w'.contracts[env.contract.value.cid] == doc
    ensures env.txId in w'.book.pendings && w'.book.pendings[env.txId] == p
  {
  }

  lemma DeliversLater(w: World, w1: World, env: Env, es: seq<Event>, callback: Event, doc: Doc, p: Pending)
    requires Inv(w1) && Waiting(w, w1, env, doc, p)
    requires doc.TransferDoc? && doc.pbId == env.txId && p.rid == ToContract(env.contract.value.cid)
    requires AdmittedRun(w1, es) && Admitted(Run(w1, es), callback.env) && Succeeds(Run(w1, es), callback)
    requires callback.tx == ContractExecute(env.contract.value.cid)
    ensures Delivered(Run(w1, es), Next(Run(w1, es), callback.env, callback.tx), callback.env, doc.pbId, p,
                      doc.receiver, DeliveryLock(callback.env, doc.pendingSeconds))
  {
    WaitingLeaves(w, w1, env, doc, p);
    StillWaiting(w1, es, env.contract.value.cid);
    DeliversTo(Run(w1, es), callback, env.contract.value.cid, doc, p);
  }

  /** A transfer by contract, whatever happens between the request and the callback that delivers it: the
      receiver of the request gets exactly the amount of the request, at once or locked until the second of
      the request, and the fee of the request is on file for its sender. */
  lemma TransferArrives(w: World, env: Env, tx: Tx, w1: World, es: seq<Event>, callback: Event)
    requires Inv(w) && Admitted(w, env) && tx.Transfer? && Step(w, env, tx) == Ok(w1)
    requires |MustSign(w, env, tx)| > 1 && env.contract.Some?
    requires AdmittedRun(w1, es) && Admitted(Run(w1, es), callback.env) && Succeeds(Run(w1, es), callback)
    requires callback.tx == ContractExecute(env.contract.value.cid)
    ensures var x, fee := Run(w1, es), Price(w, env, tx) - tx.amount;
            Delivered(x, Next(x, callback.env, callback.tx), callback.env, env.txId,
                      InTrust(env, Source(env, tx), tx.amount, Some(fee), tx.memo), tx.receiver,
                      DeliveryLock(callback.env, LockSecond(env, tx)))
  {
    var p := InTrust(env, Source(env, tx), tx.amount, Some(Price(w, env, tx) - tx.amount), tx.memo);
    assert Inv(w1) by { StepKeepsInv(w, Event(env, tx)); }
    assert Waiting(w, w1, env, DocFor(w, env, tx), p) by { TransferWaits(w, env, tx); }
    DeliversLater(w, w1, env, es, callback, DocFor(w, env, tx), p);
  }
}
