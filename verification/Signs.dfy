// Signs: only the two prunes can take a balance below zero, and without refunds none does.
module Signs {
  import opened Basics
  import opened World
  import opened Stubs
  import opened Sums
  import opened Fees
  import opened Paging
  import opened Transactions
  import opened Moves
  import opened Invariants
  import opened Conservation
  import opened Effects
  import opened Runs
  import opened Series

  lemma FlowCovered(w: World, env: Env, m: Move, a: Address)
    requires DocsOk(w) && Enabled(w, env, m) && GroupOf(m) == Flow && AmountOf(w.book, a) >= 0
    ensures AmountOf(Apply(w, env, m).book, a) >= 0
  {
    if m.MTransfer? { FeeFree(w.tokens, m.s, "transfer", m.amount); }
  }

  /** Away from the prunes a balance that is not negative stays so: what is taken was covered. */
  lemma OnlyPrunesGoNegative(w: World, env: Env, m: Move, a: Address)
    requires DocsOk(w) && Enabled(w, env, m) && !m.MPayPrune? && !m.MFeePrune?
    requires AmountOf(w.book, a) >= 0
    ensures AmountOf(Apply(w, env, m).book, a) >= 0
  {
    if GroupOf(m) == Flow { FlowCovered(w, env, m, a); }
  }

  /** No pay rate takes more than the payment. */
  predicate FairRates(w: World) {
    forall c :: c in w.tokens && w.tokens[c].policy.Some? && "pay" in w.tokens[c].policy.value.rates ==>
      w.tokens[c].policy.value.rates["pay"].num <= w.tokens[c].policy.value.rates["pay"].den
  }

  predicate NonNegative(b: Book) {
    && (forall a :: a in b.balances ==> b.balances[a].amount >= 0)
    && (forall id :: id in b.pays ==> 0 <= b.pays[id].fee <= b.pays[id].amount)
    && (forall id :: id in b.fees ==> b.fees[id].amount >= 0)
  }

  lemma PayFeeFair(w: World, payer: Address, amount: int)
    requires FairRates(w) && amount >= 0 && CalcFee(w.tokens, payer, "pay", amount).Ok?
    ensures 0 <= CalcFee(w.tokens, payer, "pay", amount).value <= amount
  {
    var token := w.tokens[payer.code];
    if token.policy.Some? && "pay" in token.policy.value.rates {
      FeeWithinAmount(token.policy.value.rates["pay"], amount);
    }
  }

  lemma {:induction false} SumsOrdered(x: map<string, int>, y: map<string, int>, ids: seq<string>)
    requires forall id :: 0 <= At(x, id) <= At(y, id)
    ensures 0 <= SumOver(x, ids) <= SumOver(y, ids)
    decreases |ids|
  {
    if ids != [] { SumsOrdered(x, y, ids[..|ids| - 1]); }
  }

  lemma TransferSigns(w: World, env: Env, m: Move)
    requires NonNegative(w.book) && NewIds(w, env) && Enabled(w, env, m) && m.MTransfer?
    ensures NonNegative(Apply(w, env, m).book)
  {
    FeeFree(w.tokens, m.s, "transfer", m.amount);
  }

  lemma DeliverSigns(w: World, env: Env, m: Move)
    requires DocsOk(w) && NonNegative(w.book) && NewIds(w, env) && Enabled(w, env, m) && m.MDeliver?
    ensures NonNegative(Apply(w, env, m).book)
  {
  }

  lemma DepositSigns(w: World, env: Env, m: Move)
    requires DocsOk(w) && NonNegative(w.book) && NewIds(w, env) && Enabled(w, env, m) && (m.MDeposit? || m.MRelease?)
    ensures NonNegative(Apply(w, env, m).book)
  {
  }

  lemma PaySigns(w: World, env: Env, m: Move)
    requires DocsOk(w) && NonNegative(w.book) && FairRates(w) && Enabled(w, env, m) && (m.MPay? || m.MPayPending?)
    ensures NonNegative(Apply(w, env, m).book)
  {
    if m.MPay? {
      PayFeeFair(w, m.merchant, m.amount);
    } else {
      PayFeeFair(w, w.contracts[m.cid].receiver, w.book.pendings[w.contracts[m.cid].pbId].amount);
    }
  }

  lemma PayPruneSigns(w: World, env: Env, m: Move)
    requires NonNegative(w.book) && Enabled(w, env, m) && m.MPayPrune?
    ensures NonNegative(Apply(w, env, m).book)
  {
    SumsOrdered(PayFees(w.book.pays), PayAmounts(w.book.pays), Page(RowsOfPays(w, env, m.a, m.end)));
  }

  lemma FeePruneSigns(w: World, env: Env, m: Move)
    requires NonNegative(w.book) && Enabled(w, env, m) && m.MFeePrune?
    ensures NonNegative(Apply(w, env, m).book)
  {
    SumsOrdered(FeeAmounts(w.book.fees), FeeAmounts(w.book.fees), Page(RowsOfFees(w, env, m.code, m.end)));
  }

  lemma OfficeSigns(w: World, env: Env, m: Move)
    requires NonNegative(w.book) && Enabled(w, env, m) && GroupOf(m) == Office
    ensures NonNegative(Apply(w, env, m).book)
  {
  }

  lemma MoveSigns(w: World, env: Env, m: Move)
    requires DocsOk(w) && NonNegative(w.book) && FairRates(w) && NewIds(w, env) && Enabled(w, env, m) && !m.MRefund?
    ensures NonNegative(Apply(w, env, m).book)
  {
    match GroupOf(m)
    case Flow =>
      if m.MTransfer? { TransferSigns(w, env, m); }
      else if m.MDeliver? { DeliverSigns(w, env, m); }
      else { DepositSigns(w, env, m); }
    case Records =>
      if m.MPayPrune? { PayPruneSigns(w, env, m); }
      else if m.MFeePrune? { FeePruneSigns(w, env, m); }
      else { PaySigns(w, env, m); }
    case Office => OfficeSigns(w, env, m);
  }

  /** Neither a refund nor, at any point, an unfair pay rate. */
  predicate RefundFree(w: World, es: seq<Event>)
    decreases |es|
  {
    es == [] || (RefundFree(w, es[..|es| - 1]) && FairRates(Run(w, es[..|es| - 1])) && !es[|es| - 1].tx.PayRefund?)
  }

  lemma RefundOnlyByRefund(w: World, env: Env, tx: Tx)
    ensures MoveOf(w, env, tx).MRefund? ==> tx.PayRefund?
  {
  }

  lemma {:induction false} RefundFreeRun(w: World, es: seq<Event>)
    requires Inv(w) && NonNegative(w.book) && AdmittedRun(w, es) && RefundFree(w, es)
    ensures NonNegative(Run(w, es).book)
    decreases |es|
  {
    if es != [] {
      var front, e := es[..|es| - 1], es[|es| - 1];
      var x := Run(w, front);
      RefundFreeRun(w, front);
      RunInv(w, front);
      if Succeeds(x, e) {
        InvStep(x, e.env, e.tx);
        RefundOnlyByRefund(x, e.env, e.tx);
        MoveSigns(x, e.env, MoveOf(x, e.env, e.tx));
      }
    }
  }

  lemma PartsNonNegative(w: World, c: string)
    requires DocsOk(w) && NonNegative(w.book)
    ensures Sum(BalanceParts(w.book.balances, c)) >= 0 && Sum(EscrowParts(w.book.pendings, c)) >= 0
    ensures Sum(PayParts(w.book.pays, Cursors(w.book.balances), c)) >= 0 &&
            Sum(FeeParts(w.book.fees, FeeCursor(w, c), c)) >= 0
    ensures forall a :: a in w.book.balances && a.code == c ==>
              w.book.balances[a].amount <= Sum(BalanceParts(w.book.balances, c))
  {
    SumNonNegative(BalanceParts(w.book.balances, c));
    SumNonNegative(EscrowParts(w.book.pendings, c));
    SumNonNegative(PayParts(w.book.pays, Cursors(w.book.balances), c));
    SumNonNegative(FeeParts(w.book.fees, FeeCursor(w, c), c));
    forall a | a in w.book.balances && a.code == c
      ensures w.book.balances[a].amount <= Sum(BalanceParts(w.book.balances, c))
    {
      SumTake(BalanceParts(w.book.balances, c), a);
      SumNonNegative(BalanceParts(w.book.balances, c) - {a});
    }
  }

  // ---- balances within the supply ----

  lemma RecordsLoseNothingNegative(w: World, env: Env, m: Move, c: string)
    requires NonNegative(w.book) && Enabled(w, env, m) && (m.MPayPrune? || m.MFeePrune?)
    requires m.MFeePrune? ==> w.tokens[m.code].policy.value.target.code == m.code
    ensures Lost(w, env, m, c) >= 0
  {
    if m.MPayPrune? {
      var rows, amounts, fees := RowsOfPays(w, env, m.a, m.end), PayAmounts(w.book.pays), PayFees(w.book.pays);
      SumsOrdered(amounts, amounts, LostRows(PayTimes(w.book.pays, m.a), rows));
      SumsOrdered(fees, fees, Page(rows));
    } else {
      var rows, amounts := RowsOfFees(w, env, m.code, m.end), FeeAmounts(w.book.fees);
      SumsOrdered(amounts, amounts, LostRows(FeeTimes(w.book.fees, m.code), rows));
    }
  }

  /** Where nothing is negative and fee targets are at home, whatever a move loses it loses, and never
      makes value out of nothing. */
  lemma LossNonNegative(w: World, env: Env, m: Move, c: string)
    requires DocsOk(w) && NonNegative(w.book) && Enabled(w, env, m) && !m.MRefund?
    requires m.MFeePrune? ==> w.tokens[m.code].policy.value.target.code == m.code
    ensures Lost(w, env, m, c) >= 0
  {
    if m.MPayPrune? || m.MFeePrune? {
      RecordsLoseNothingNegative(w, env, m, c);
    } else if m.MTransfer? {
      FeeFree(w.tokens, m.s, "transfer", m.amount);
    }
  }

  lemma StepLosesNothingNegative(w: World, e: Event, c: string)
    requires Inv(w) && NonNegative(w.book) && Admitted(w, e.env) && !e.tx.PayRefund? && HomeTarget(w, e.tx)
    ensures Gap(Next(w, e.env, e.tx), c) <= Gap(w, c)
  {
    StepDrift(w, e, c);
    if Succeeds(w, e) {
      InvStep(w, e.env, e.tx);
      RefundOnlyByRefund(w, e.env, e.tx);
      FeePruneOf(w, e.env, e.tx);
      LossNonNegative(w, e.env, MoveOf(w, e.env, e.tx), c);
    }
  }

  /** In refund-free runs with fair pay rates and fee targets at home, value never outgrows the supply:
      page ties, late records and prunes without the flag only widen the margin. */
  lemma {:induction false} ValueWithinSupply(w: World, es: seq<Event>, c: string)
    requires Inv(w) && NonNegative(w.book) && AdmittedRun(w, es) && RefundFree(w, es) && HomeTargets(w, es)
    ensures Gap(Run(w, es), c) <= Gap(w, c)
    decreases |es|
  {
    if es != [] {
      var front, e := es[..|es| - 1], es[|es| - 1];
      ValueWithinSupply(w, front, c);
      RefundFreeRun(w, front);
      RunInv(w, front);
      StepLosesNothingNegative(Run(w, front), e, c);
    }
  }

  /** In every such run nothing is ever negative, the supply included, and no balance exceeds its token's
      supply. */
  lemma BalancesWithinSupply(w: World, es: seq<Event>, a: Address)
    requires Inv(w) && NonNegative(w.book) && AdmittedRun(w, es) && RefundFree(w, es) && HomeTargets(w, es)
    requires Total(w, a.code) <= SupplyOf(w, a.code)
    ensures NonNegative(Run(w, es).book)
    ensures 0 <= SupplyOf(Run(w, es), a.code)
    ensures 0 <= AmountOf(Run(w, es).book, a) <= SupplyOf(Run(w, es), a.code)
  {
    RefundFreeRun(w, es);
    ValueWithinSupply(w, es, a.code);
    RunInv(w, es);
    PartsNonNegative(Run(w, es), a.code);
  }

  // ---- when a prune goes below zero ----

  /** A pay prune takes a balance below zero exactly when the pruned account's own balance does not cover
      what its page comes to. */
  lemma PayPruneNegativeIff(w: World, e: Event)
    requires Inv(w) && Admitted(w, e.env) && e.tx.PayPrune? && Succeeds(w, e)
    ensures var a, w' := e.tx.account, Next(w, e.env, e.tx);
            var page := Page(RowsOfPays(w, e.env, a, PruneEnd(e.env.ts, e.tx.safe, e.tx.endSeconds)));
            && (AmountOf(w'.book, a) >= 0 <==> AmountOf(w.book, a) + Net(w.book.pays, page) >= 0)
            && (forall b :: b != a ==> AmountOf(w'.book, b) == AmountOf(w.book, b))
  {
    var a, end := e.tx.account, PruneEnd(e.env.ts, e.tx.safe, e.tx.endSeconds);
    forall b ensures AmountOf(Next(w, e.env, e.tx).book, b) ==
                     AmountOf(w.book, b) + if b == a then Net(w.book.pays, Page(RowsOfPays(w, e.env, a, end))) else 0
    {
      StepEffect(w, e.env, e.tx, b);
      PruneEffects(w, e.env, MPayPrune(a, end), b);
    }
  }

  lemma FeePruneCredits(w: World, e: Event, b: Address)
    requires Inv(w) && Admitted(w, e.env) && e.tx.FeePrune? && Succeeds(w, e) && PolicyOf(w, e.tx.code).Some?
    ensures var target, end := PolicyOf(w, e.tx.code).value.target, PruneEnd(e.env.ts, e.tx.safe, e.tx.endSeconds);
            AmountOf(Next(w, e.env, e.tx).book, b) ==
            AmountOf(w.book, b) + If(b == target,
                                     SumOver(FeeAmounts(w.book.fees), Page(RowsOfFees(w, e.env, e.tx.code, end))))
  {
    StepEffect(w, e.env, e.tx, b);
    PruneEffects(w, e.env, MFeePrune(e.tx.code, PruneEnd(e.env.ts, e.tx.safe, e.tx.endSeconds)), b);
  }

  /** A fee prune does so exactly when the target's balance does not cover the sum of the page: fee records
      of pruned refunds are negative. */
  lemma FeePruneNegativeIff(w: World, e: Event)
    requires Inv(w) && Admitted(w, e.env) && e.tx.FeePrune? && Succeeds(w, e)
    requires PolicyOf(w, e.tx.code).Some?
    ensures var a, w' := PolicyOf(w, e.tx.code).value.target, Next(w, e.env, e.tx);
            var page := Page(RowsOfFees(w, e.env, e.tx.code, PruneEnd(e.env.ts, e.tx.safe, e.tx.endSeconds)));
            && (AmountOf(w'.book, a) >= 0 <==> AmountOf(w.book, a) + SumOver(FeeAmounts(w.book.fees), page) >= 0)
            && (forall b :: b != a ==> AmountOf(w'.book, b) == AmountOf(w.book, b))
  {
    forall b
      ensures var target, end := PolicyOf(w, e.tx.code).value.target, PruneEnd(e.env.ts, e.tx.safe, e.tx.endSeconds);
              AmountOf(Next(w, e.env, e.tx).book, b) ==
              AmountOf(w.book, b) + If(b == target,
                                       SumOver(FeeAmounts(w.book.fees), Page(RowsOfFees(w, e.env, e.tx.code, end))))
    {
      FeePruneCredits(w, e, b);
    }
  }
}
