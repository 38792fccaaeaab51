// Who may take from an account. Only its holders make a balance fall, and what several must sign for waits
// in escrow.
module Authority {
  import opened Basics
  import opened World
  import opened Stubs
  import opened Fees
  import opened Transactions
  import opened Moves
  import opened Invariants
  import opened Runs
  import opened Effects

  /** One of the people who act for an account. */
  predicate Holds(w: World, kid: Kid, a: Address) {
    a in w.registry.accounts && kid in HoldersOf(a, w.registry.accounts[a])
  }

  /** The account a transfer or a payment takes from. */
  function Source(env: Env, tx: Tx): Address
    requires tx.Transfer? || tx.PayTx?
  {
    match tx.sender
    case Some(s) => s
    case None => Address(tx.receiver.code, Personal, env.kid)
  }

  /** Everybody who must sign a transfer or a payment: the invoker, all holders of a joint sender, and the
      holders of the accounts a transfer names as extra signers. */
  ghost function MustSign(w: World, env: Env, tx: Tx): set<Kid>
    requires tx.Transfer? || tx.PayTx?
  {
    var accounts := w.registry.accounts;
    {env.kid}
    + (if Source(env, tx).kind == Joint then KidsOf(accounts, {Source(env, tx)}) else {})
    + (if tx.Transfer? then KidsOf(accounts, Named(tx.extra)) else {})
  }

  /** A holder spends from an account that is not suspended. */
  predicate Spends(w: World, env: Env, tx: Tx, a: Address) {
    (tx.Transfer? || tx.PayTx?) && Source(env, tx) == a && Holds(w, env.kid, a) && !IsSuspended(w.registry.accounts[a])
  }

  /** A holder prunes pays into an account that is not suspended, or fees into the target of a policy. Refunds
      can make the sum negative. */
  predicate Settles(w: World, env: Env, tx: Tx, a: Address) {
    match tx
    case PayPrune(b, _, _) => b == a && Holds(w, env.kid, a) && !IsSuspended(w.registry.accounts[a])
    case FeePrune(code, _, _) =>
      code in w.tokens && w.tokens[code].policy.Some? && w.tokens[code].policy.value.target == a && Holds(w, env.kid, a)
    case _ => false
  }

  /** The only holder of a genesis account burns from it, or the contract for a burn is carried out. */
  predicate Burns(w: World, env: Env, tx: Tx, a: Address) {
    match tx
    case TokenBurn(code, _) =>
      code in w.tokens && w.tokens[code].genesis == a && Holds(w, env.kid, a) &&
      |HoldersOf(a, w.registry.accounts[a])| <= 1
    case ContractExecute(cid) =>
      cid in w.contracts && w.contracts[cid].BurnDoc? && w.contracts[cid].code in w.tokens &&
      w.tokens[w.contracts[cid].code].genesis == a
    case _ => false
  }

  // ---- which moves take ----

  /** The account a move takes from, if any. */
  predicate TakesFrom(w: World, m: Move, a: Address) {
    match m
    case MTransfer(s, _, _, _, _, _) => s == a
    case MDeposit(s, _, _, _, _, _) => s == a
    case MPay(s, _, _, _, _, _) => s == a
    case MPayPrune(b, _) => b == a
    case MFeePrune(code, _) =>
      code in w.tokens && w.tokens[code].policy.Some? && w.tokens[code].policy.value.target == a
    case MBurn(code, _) => code in w.tokens && w.tokens[code].genesis == a
    case _ => false
  }

  lemma FallTakes(w: World, env: Env, m: Move, a: Address)
    requires DocsOk(w) && TokensOk(w) && Enabled(w, env, m) && Effect(w, env, m, a) < 0
    ensures TakesFrom(w, m, a)
  {
  }

  // ---- which transactions make them ----

  lemma TransferSource(w: World, env: Env, tx: Tx, a: Address)
    requires tx.Transfer? && Handle(w, env, tx).Ok? && TakesFrom(w, MoveOf(w, env, tx), a)
    ensures Spends(w, env, tx, a)
  {
  }

  lemma PaySource(w: World, env: Env, tx: Tx, a: Address)
    requires tx.PayTx? && Handle(w, env, tx).Ok? && TakesFrom(w, MoveOf(w, env, tx), a)
    ensures Spends(w, env, tx, a)
  {
  }

  lemma PruneSource(w: World, env: Env, tx: Tx, a: Address)
    requires (tx.PayPrune? || tx.FeePrune?) && Handle(w, env, tx).Ok? && TakesFrom(w, MoveOf(w, env, tx), a)
    ensures Settles(w, env, tx, a)
  {
  }

  lemma BurnSource(w: World, env: Env, tx: Tx, a: Address)
    requires (tx.TokenBurn? || tx.ContractExecute?) && Handle(w, env, tx).Ok? && TakesFrom(w, MoveOf(w, env, tx), a)
    ensures Burns(w, env, tx, a)
  {
  }

  lemma OtherSource(w: World, env: Env, tx: Tx, a: Address)
    requires !tx.Transfer? && !tx.PayTx? && !tx.PayPrune? && !tx.FeePrune? && !tx.TokenBurn? && !tx.ContractExecute?
    ensures !TakesFrom(w, MoveOf(w, env, tx), a)
  {
  }

  /** A balance falls only by a transaction of one of its holders: spending, pruning or burning. The one
      exception is the contract for a burn, which is carried out for its signers. */
  lemma OnlyHoldersTake(w: World, env: Env, tx: Tx, a: Address)
    requires Inv(w) && Admitted(w, env) && Step(w, env, tx).Ok?
    requires AmountOf(Next(w, env, tx).book, a) < AmountOf(w.book, a)
    ensures Spends(w, env, tx, a) || Settles(w, env, tx, a) || Burns(w, env, tx, a)
  {
    StepEffect(w, env, tx, a);
    FallTakes(w, env, MoveOf(w, env, tx), a);
    if tx.Transfer? { TransferSource(w, env, tx, a); }
    else if tx.PayTx? { PaySource(w, env, tx, a); }
    else if tx.PayPrune? || tx.FeePrune? { PruneSource(w, env, tx, a); }
    else if tx.TokenBurn? || tx.ContractExecute? { BurnSource(w, env, tx, a); }
    else { OtherSource(w, env, tx, a); }
  }

  // ---- what spending takes, and where it goes ----

  /** What a transfer or a payment takes: a transfer pays its fee on top, and a payment's is taken from the
      merchant when it is pruned. */
  function Price(w: World, env: Env, tx: Tx): int
    requires tx.Transfer? || tx.PayTx?
  {
    var fee := if tx.Transfer? then CalcFee(w.tokens, Source(env, tx), "transfer", tx.amount) else Ok(0);
    tx.amount + if fee.Ok? then fee.value else 0
  }

  lemma TransferSigners(w: World, env: Env, tx: Tx)
    requires KindsOk(w.registry) && tx.Transfer?
    requires TransferTerms(w, env, tx.sender, tx.receiver, tx.amount, tx.extra).Ok?
    ensures TransferTerms(w, env, tx.sender, tx.receiver, tx.amount, tx.extra).value.signers == MustSign(w, env, tx)
  {
    SignablesAre(w, tx.receiver.code, tx.extra);
  }

  lemma PaySigners(w: World, env: Env, tx: Tx)
    requires KindsOk(w.registry) && tx.PayTx? && PayTerms(w, env, tx.sender, tx.receiver, tx.amount).Ok?
    ensures PayTerms(w, env, tx.sender, tx.receiver, tx.amount).value.2 == MustSign(w, env, tx)
  {
  }

  /** The move of a transfer or a payment: at once with one signer, into escrow with more. */
  predicate SpendingMove(w: World, env: Env, tx: Tx, m: Move, alone: bool)
    requires tx.Transfer? || tx.PayTx?
  {
    var s := Source(env, tx);
    if alone then
      (m.MTransfer? && m.s == s && m.r == tx.receiver && m.amount + m.fee == Price(w, env, tx)) ||
      (m.MPay? && m.s == s && m.amount == Price(w, env, tx))
    else m.MDeposit? && m.s == s && m.amount + OrZero(m.feeHeld) == Price(w, env, tx)
  }

  lemma SentMove(w: World, env: Env, s: Address, r: Address, amount: int, fee: int, memo: string, seconds: Option<int>,
                 signers: set<Kid>)
    requires s in w.book.balances && r in w.book.balances
    requires Send(w, env, s, w.book.balances[s], r, w.book.balances[r], amount, fee, memo, seconds, signers).Ok?
    ensures var m := SendMove(env, s, r, amount, fee, memo, seconds, signers);
            && |signers| <= 128
            && if |signers| <= 1 then m.MTransfer? && m.s == s && m.r == r && m.amount == amount && m.fee == fee
               else m.MDeposit? && m.s == s && m.amount == amount && m.feeHeld == Some(fee)
  {
  }

  lemma SettledMove(w: World, env: Env, s: Address, r: Address, amount: int, orderId: string, memo: string,
                    signers: set<Kid>)
    requires s in w.book.balances
    requires Settle(w, env, s, w.book.balances[s], r, amount, orderId, memo, signers).Ok?
    ensures var m := SettleMove(w, env, s, r, amount, orderId, memo, signers);
            && |signers| <= 128
            && if |signers| <= 1 then m.MPay? && m.s == s && m.amount == amount
               else m.MDeposit? && m.s == s && m.amount == amount && m.feeHeld == None
  {
  }

  lemma TransferSpends(w: World, env: Env, tx: Tx)
    requires KindsOk(w.registry) && tx.Transfer?
    requires TransferTx(w, env, tx.sender, tx.receiver, tx.amount, tx.memo, tx.pendingSeconds, tx.extra).Ok?
    ensures var m := TransferMove(w, env, tx.sender, tx.receiver, tx.amount, tx.memo, tx.pendingSeconds, tx.extra);
            SpendingMove(w, env, tx, m, |MustSign(w, env, tx)| <= 1) && |MustSign(w, env, tx)| <= 128
  {
    TransferSigners(w, env, tx);
    TermsHold(w, env, tx.sender, tx.receiver, tx.amount, tx.extra);
    var t := TransferTerms(w, env, tx.sender, tx.receiver, tx.amount, tx.extra).value;
    var seconds := tx.pendingSeconds;
    var now := if seconds.Some? && env.ts / SECOND < seconds.value then seconds else None;
    SentMove(w, env, t.s, tx.receiver, tx.amount, t.fee, tx.memo, now, t.signers);
  }

  lemma PaySpends(w: World, env: Env, tx: Tx)
    requires KindsOk(w.registry) && tx.PayTx?
    requires PayTransaction(w, env, tx.sender, tx.receiver, tx.amount, tx.orderId, tx.memo).Ok?
    ensures var m := PayMove(w, env, tx.sender, tx.receiver, tx.amount, tx.orderId, tx.memo);
            SpendingMove(w, env, tx, m, |MustSign(w, env, tx)| <= 1) && |MustSign(w, env, tx)| <= 128
  {
    PaySigners(w, env, tx);
    PayTermsHold(w, env, tx.sender, tx.receiver, tx.amount);
    var t := PayTerms(w, env, tx.sender, tx.receiver, tx.amount).value;
    SettledMove(w, env, t.0, tx.receiver, tx.amount, tx.orderId, tx.memo, t.2);
  }

  lemma SpendingMade(w: World, env: Env, tx: Tx)
    requires KindsOk(w.registry) && (tx.Transfer? || tx.PayTx?) && Handle(w, env, tx).Ok?
    ensures SpendingMove(w, env, tx, MoveOf(w, env, tx), |MustSign(w, env, tx)| <= 1) && |MustSign(w, env, tx)| <= 128
  {
    if tx.Transfer? { TransferSpends(w, env, tx); } else { PaySpends(w, env, tx); }
  }

  /** The escrow a deposit opens: the owner's, of what it took, waiting for the new contract. */
  predicate InEscrow(b: Book, env: Env, owner: Address, amount: int) {
    env.contract.Some? && env.txId in b.pendings &&
    var p := b.pendings[env.txId];
    p.account == owner && p.rid == ToContract(env.contract.value.cid) && Held(p) == amount
  }

  lemma DepositHolds(w: World, env: Env, m: Move)
    requires Enabled(w, env, m) && m.MDeposit?
    ensures InEscrow(Apply(w, env, m).book, env, m.s, m.amount + OrZero(m.feeHeld))
  {
  }

  lemma SpendingEffect(w: World, env: Env, tx: Tx, m: Move, alone: bool)
    requires (tx.Transfer? || tx.PayTx?) && Enabled(w, env, m) && SpendingMove(w, env, tx, m, alone)
    ensures Effect(w, env, m, Source(env, tx)) == -Price(w, env, tx)
    ensures !alone ==> InEscrow(Apply(w, env, m).book, env, Source(env, tx), Price(w, env, tx))
    ensures !alone ==> forall b :: b != Source(env, tx) ==> Effect(w, env, m, b) == 0
  {
    if m.MDeposit? { DepositHolds(w, env, m); }
  }

  lemma SpendingWaits(w: World, env: Env, tx: Tx)
    requires Inv(w) && Admitted(w, env) && Step(w, env, tx).Ok? && (tx.Transfer? || tx.PayTx?)
    requires |MustSign(w, env, tx)| > 1
    ensures InEscrow(Next(w, env, tx).book, env, Source(env, tx), Price(w, env, tx))
  {
    SpendingMade(w, env, tx);
    InvStep(w, env, tx);
    SpendingEffect(w, env, tx, MoveOf(w, env, tx), false);
  }

  /** A transfer or a payment that succeeds takes its price from its source. When more than one must sign,
      all of it is in escrow afterwards, still the owner's, and no other balance has changed. */
  lemma SpendingTakes(w: World, env: Env, tx: Tx, b: Address)
    requires Inv(w) && Admitted(w, env) && Step(w, env, tx).Ok? && (tx.Transfer? || tx.PayTx?)
    ensures var w', s := Next(w, env, tx), Source(env, tx);
            && AmountOf(w'.book, s) == AmountOf(w.book, s) - Price(w, env, tx) && |MustSign(w, env, tx)| <= 128
            && (|MustSign(w, env, tx)| > 1 ==> InEscrow(w'.book, env, s, Price(w, env, tx)))
            && (|MustSign(w, env, tx)| > 1 && b != s ==> AmountOf(w'.book, b) == AmountOf(w.book, b))
  {
    SpendingMade(w, env, tx);
    StepEffect(w, env, tx, Source(env, tx));
    StepEffect(w, env, tx, b);
    SpendingEffect(w, env, tx, MoveOf(w, env, tx), |MustSign(w, env, tx)| <= 1);
    if |MustSign(w, env, tx)| > 1 { SpendingWaits(w, env, tx); }
  }

  // ---- whole runs ----

  /** An event that nobody who holds a invokes, and that does not carry out a burn of a. */
  predicate Stranger(w: World, e: Event, a: Address) {
    !Holds(w, e.env.kid, a) && !Burns(w, e.env, e.tx, a)
  }

  predicate Strangers(w: World, es: seq<Event>, a: Address)
    decreases |es|
  {
    es == [] || (Strangers(w, es[..|es| - 1], a) && Stranger(Run(w, es[..|es| - 1]), es[|es| - 1], a))
  }

  /** Whatever everybody else does, an account does not lose anything. */
  lemma {:induction false} StrangersTakeNothing(w: World, es: seq<Event>, a: Address)
    requires Inv(w) && AdmittedRun(w, es) && Strangers(w, es, a)
    ensures AmountOf(Run(w, es).book, a) >= AmountOf(w.book, a)
    decreases |es|
  {
    if es != [] {
      var front, e := es[..|es| - 1], es[|es| - 1];
      StrangersTakeNothing(w, front, a);
      RunInv(w, front);
      var x := Run(w, front);
      if Succeeds(x, e) && AmountOf(Next(x, e.env, e.tx).book, a) < AmountOf(x.book, a) {
        OnlyHoldersTake(x, e.env, e.tx, a);
      }
    }
  }
}
