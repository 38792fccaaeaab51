// Repeated prunes. However many calls it takes, a series of prunes up to one end credits what one sum
// over the whole window would: each call 900 records, the last the rest, and then no call succeeds.
module Series {
  import opened Basics
  import opened World
  import opened Stubs
  import opened Sums
  import opened Paging
  import opened Transactions
  import opened Moves
  import opened Invariants
  import opened Runs

  /** Successful prunes of one account up to one end, one after another. */
  ghost predicate PayPrunes(w: World, a: Address, end: Time, es: seq<Event>)
    decreases |es|
  {
    es == [] ||
    (Succeeds(w, es[0]) && MoveOf(w, es[0].env, es[0].tx) == MPayPrune(a, end) &&
     PayPrunes(Next(w, es[0].env, es[0].tx), a, end, es[1..]))
  }

  /** The records each of them sees. */
  ghost function PayAnswers(w: World, a: Address, end: Time, es: seq<Event>): (answers: seq<seq<string>>)
    ensures |answers| == |es|
    decreases |es|
  {
    if es == [] then []
    else [RowsOfPays(w, es[0].env, a, end)] + PayAnswers(Next(w, es[0].env, es[0].tx), a, end, es[1..])
  }

  /** What records are worth to their merchant: the amounts less the fees. */
  ghost function Net(pays: map<string, Pay>, ids: seq<string>): int {
    SumOver(PayAmounts(pays), ids) - SumOver(PayFees(pays), ids)
  }

  lemma NetAppend(pays: map<string, Pay>, a: seq<string>, b: seq<string>)
    ensures Net(pays, a + b) == Net(pays, a) + Net(pays, b)
  {
    SumOverAppend(PayAmounts(pays), a, b);
    SumOverAppend(PayFees(pays), a, b);
  }

  /** One prune credits its page's amounts less its fees. */
  lemma PayPruneStep(w: World, e: Event, a: Address, end: Time)
    requires Inv(w) && Admitted(w, e.env) && Succeeds(w, e) && MoveOf(w, e.env, e.tx) == MPayPrune(a, end)
    ensures var w', rows := Next(w, e.env, e.tx), RowsOfPays(w, e.env, a, end);
            && Inv(w') && w'.book.pays == w.book.pays
            && Answers(PayTimes(w.book.pays, a), PayCursor(w.book.balances, a), end, rows) && rows != []
            && PageEnd(rows) in PayTimes(w.book.pays, a)
            && PayCursor(w'.book.balances, a) == PayTimes(w.book.pays, a)[PageEnd(rows)]
            && AmountOf(w'.book, a) == AmountOf(w.book, a) + Net(w.book.pays, Page(rows))
  {
    InvStep(w, e.env, e.tx);
    PayPruneCursor(w, e.env, a, end);
    PayPruneTimes(w, e.env, a, end);
  }

  /** A series of prunes is a chain of pages, and credits what the pages hold. */
  lemma {:induction false} PayPrunesChain(w: World, a: Address, end: Time, es: seq<Event>)
    requires Inv(w) && AdmittedRun(w, es) && PayPrunes(w, a, end, es)
    ensures var pays, start, answers := w.book.pays, PayCursor(w.book.balances, a), PayAnswers(w, a, end, es);
            && PruneChain(PayTimes(pays, a), start, end, answers)
            && Run(w, es).book.pays == pays
            && PayCursor(Run(w, es).book.balances, a) == ChainCursor(PayTimes(pays, a), start, answers)
            && AmountOf(Run(w, es).book, a) == AmountOf(w.book, a) + Net(pays, ChainPages(answers))
    decreases |es|
  {
    if es != [] {
      var w' := Next(w, es[0].env, es[0].tx);
      var rest := PayAnswers(w', a, end, es[1..]);
      RunCons(w, es);
      PayPruneStep(w, es[0], a, end);
      PayPrunesChain(w', a, end, es[1..]);
      var first := RowsOfPays(w, es[0].env, a, end);
      ChainCons(PayTimes(w.book.pays, a), PayCursor(w.book.balances, a), end, first, rest);
      NetAppend(w.book.pays, Page(first), ChainPages(rest));
    }
  }

  /** A merchant entitled to prune succeeds exactly while fewer than all records have been taken, at 900
      a call; and when a call first fails, the calls were ceil(n / 900), together they have credited the
      sum of all n amounts less the sum of all n fees, and all but the last reported more. */
  lemma PayPrunesRefineSum(w: World, a: Address, end: Time, es: seq<Event>, rows: seq<string>, next: Event)
    requires Inv(w) && AdmittedRun(w, es) && PayPrunes(w, a, end, es)
    requires DistinctTimes(PayTimes(w.book.pays, a))
    requires Answers(PayTimes(w.book.pays, a), PayCursor(w.book.balances, a), end, rows)
    requires next.tx.PayPrune? && next.tx.account == a &&
             PruneEnd(next.env.ts, next.tx.safe, next.tx.endSeconds) == end
    requires var x := Run(w, es);
             Admitted(x, next.env) && a in x.registry.accounts &&
             next.env.kid in HoldersOf(a, x.registry.accounts[a]) &&
             !IsSuspended(x.registry.accounts[a])
    ensures Succeeds(Run(w, es), next) <==> |es| * PRUNE_SIZE < |rows|
    ensures !Succeeds(Run(w, es), next) ==>
              && |es| == CeilDiv(|rows|, PRUNE_SIZE)
              && AmountOf(Run(w, es).book, a) == AmountOf(w.book, a) + Net(w.book.pays, rows)
              && forall i :: 0 <= i < |es| ==> (HasMore(PayAnswers(w, a, end, es)[i]) <==> i < |es| - 1)
  {
    var times, start, answers, x := PayTimes(w.book.pays, a), PayCursor(w.book.balances, a), PayAnswers(w, a, end, es),
                                    Run(w, es);
    PayPrunesChain(w, a, end, es);
    RunInv(w, es);
    ChainProgress(times, start, end, rows, answers);
    var found := RowsOfPays(x, next.env, a, end);
    assert Answers(times, PayCursor(x.book.balances, a), end, found);
    PruneSucceedsIff(x, next);
    NoneOrSome(times, PayCursor(x.book.balances, a), end, found);
    if found == [] { ChainRefinesWindow(times, start, end, rows, answers); }
  }

  lemma NoneOrSome(times: map<string, Time>, start: Time, end: Time, rows: seq<string>)
    requires Answers(times, start, end, rows)
    ensures Answers(times, start, end, []) <==> rows == []
  {
    if rows != [] { assert rows[0] in rows; }
  }

  lemma PayCursorReads(w: World, a: Address)
    requires IdsOk(w) && CursorsOk(w) && a in w.book.balances
    ensures ReadCursor(w.book.balances[a].lastPruned).Ok?
  {
    var last := w.book.balances[a].lastPruned;
    if last != "" { StampedCursor(last, w.book.pays[last].createdTime, w.txs); }
  }

  lemma PruneFinds(w: World, env: Env, a: Address, safe: bool, seconds: Option<int>)
    requires a in w.registry.accounts && env.kid in HoldersOf(a, w.registry.accounts[a])
    requires !IsSuspended(w.registry.accounts[a])
    requires a in w.book.balances && ReadCursor(w.book.balances[a].lastPruned).Ok?
    ensures Step(w, env, PayPrune(a, safe, seconds)).Ok? <==>
            RowsOfPays(w, env, a, PruneEnd(env.ts, safe, seconds)) != []
  {
  }

  /** For who may prune at all, a pay prune succeeds exactly when it finds a record. */
  lemma PruneSucceedsIff(w: World, e: Event)
    requires Inv(w) && e.tx.PayPrune?
    requires var a := e.tx.account;
             a in w.registry.accounts && e.env.kid in HoldersOf(a, w.registry.accounts[a]) &&
             !IsSuspended(w.registry.accounts[a])
    ensures var a := e.tx.account;
            Succeeds(w, e) <==> RowsOfPays(w, e.env, a, PruneEnd(e.env.ts, e.tx.safe, e.tx.endSeconds)) != []
  {
    PayCursorReads(w, e.tx.account);
    PruneFinds(w, e.env, e.tx.account, e.tx.safe, e.tx.endSeconds);
  }

  // ---- fees ----

  ghost predicate FeePrunes(w: World, code: string, end: Time, es: seq<Event>)
    decreases |es|
  {
    es == [] ||
    (Succeeds(w, es[0]) && MoveOf(w, es[0].env, es[0].tx) == MFeePrune(code, end) &&
     FeePrunes(Next(w, es[0].env, es[0].tx), code, end, es[1..]))
  }

  ghost function FeeAnswers(w: World, code: string, end: Time, es: seq<Event>): (answers: seq<seq<string>>)
    ensures |answers| == |es|
    decreases |es|
  {
    if es == [] then []
    else [RowsOfFees(w, es[0].env, code, end)] + FeeAnswers(Next(w, es[0].env, es[0].tx), code, end, es[1..])
  }

  function PolicyOf(w: World, code: string): Option<Policy> {
    if code in w.tokens then w.tokens[code].policy else None
  }

  lemma FeePruneWrites(w: World, env: Env, code: string, end: Time)
    requires Enabled(w, env, MFeePrune(code, end))
    ensures var w', target := Apply(w, env, MFeePrune(code, end)), PolicyOf(w, code).value.target;
            && w'.book.fees == w.book.fees && PolicyOf(w', code) == PolicyOf(w, code)
            && AmountOf(w'.book, target) ==
               AmountOf(w.book, target) + SumOver(FeeAmounts(w.book.fees), Page(RowsOfFees(w, env, code, end)))
  {
  }

  lemma FeePruneStep(w: World, e: Event, code: string, end: Time)
    requires Inv(w) && Admitted(w, e.env) && Succeeds(w, e) && MoveOf(w, e.env, e.tx) == MFeePrune(code, end)
    ensures var w', rows := Next(w, e.env, e.tx), RowsOfFees(w, e.env, code, end);
            && Inv(w') && w'.book.fees == w.book.fees
            && PolicyOf(w, code).Some? && PolicyOf(w', code) == PolicyOf(w, code)
            && Answers(FeeTimes(w.book.fees, code), FeeCursor(w, code), end, rows) && rows != []
            && PageEnd(rows) in FeeTimes(w.book.fees, code)
            && FeeCursor(w', code) == FeeTimes(w.book.fees, code)[PageEnd(rows)]
            && AmountOf(w'.book, PolicyOf(w, code).value.target) ==
               AmountOf(w.book, PolicyOf(w, code).value.target) + SumOver(FeeAmounts(w.book.fees), Page(rows))
  {
    InvStep(w, e.env, e.tx);
    FeePruneWrites(w, e.env, code, end);
    FeePruneCursor(w, e.env, code, end);
    FeePruneTimes(w, e.env, code, end);
  }

  lemma {:induction false} FeePrunesChain(w: World, code: string, end: Time, es: seq<Event>, target: Address)
    requires Inv(w) && AdmittedRun(w, es) && FeePrunes(w, code, end, es)
    requires PolicyOf(w, code).Some? && PolicyOf(w, code).value.target == target
    ensures var fees, start, answers := w.book.fees, FeeCursor(w, code), FeeAnswers(w, code, end, es);
            && PruneChain(FeeTimes(fees, code), start, end, answers)
            && Run(w, es).book.fees == fees && PolicyOf(Run(w, es), code) == PolicyOf(w, code)
            && FeeCursor(Run(w, es), code) == ChainCursor(FeeTimes(fees, code), start, answers)
            && AmountOf(Run(w, es).book, target) ==
               AmountOf(w.book, target) + SumOver(FeeAmounts(fees), ChainPages(answers))
    decreases |es|
  {
    if es != [] {
      var w' := Next(w, es[0].env, es[0].tx);
      var rest := FeeAnswers(w', code, end, es[1..]);
      RunCons(w, es);
      FeePruneStep(w, es[0], code, end);
      FeePrunesChain(w', code, end, es[1..], target);
      var first := RowsOfFees(w, es[0].env, code, end);
      ChainCons(FeeTimes(w.book.fees, code), FeeCursor(w, code), end, first, rest);
      SumOverAppend(FeeAmounts(w.book.fees), Page(first), ChainPages(rest));
    }
  }

  lemma FeeCursorReads(w: World, code: string)
    requires IdsOk(w) && CursorsOk(w)
    ensures ReadCursor(FeeCursorId(w.tokens, w.book.lastFee, code)).Ok?
  {
    var last := FeeCursorId(w.tokens, w.book.lastFee, code);
    if last != "" { StampedCursor(last, w.book.fees[last].createdTime, w.txs); }
  }

  lemma FeePruneFinds(w: World, env: Env, code: string, safe: bool, seconds: Option<int>)
    requires PolicyOf(w, code).Some? && ReadCursor(FeeCursorId(w.tokens, w.book.lastFee, code)).Ok?
    requires var target := PolicyOf(w, code).value.target;
             target in w.registry.accounts && env.kid in HoldersOf(target, w.registry.accounts[target]) &&
             target in w.book.balances
    ensures Step(w, env, FeePrune(code, safe, seconds)).Ok? <==>
            RowsOfFees(w, env, code, PruneEnd(env.ts, safe, seconds)) != []
  {
  }

  /** For a holder of the target of a policy, a fee prune succeeds exactly when it finds a record. */
  lemma FeePruneSucceedsIff(w: World, e: Event)
    requires Inv(w) && e.tx.FeePrune? && PolicyOf(w, e.tx.code).Some?
    requires var target := PolicyOf(w, e.tx.code).value.target;
             target in w.registry.accounts && e.env.kid in HoldersOf(target, w.registry.accounts[target])
    ensures Succeeds(w, e) <==> RowsOfFees(w, e.env, e.tx.code, PruneEnd(e.env.ts, e.tx.safe, e.tx.endSeconds)) != []
  {
    FeeCursorReads(w, e.tx.code);
    FeePruneFinds(w, e.env, e.tx.code, e.tx.safe, e.tx.endSeconds);
  }

  /** A holder of the policy's target succeeds exactly while 900 a call have not covered the window; and
      when a call first fails, through the cursor's migration or after it, ceil(n / 900) prunes have
      credited the target with the sum of all n fees, and all but the last reported more. */
  lemma FeePrunesRefineSum(w: World, code: string, end: Time, es: seq<Event>, rows: seq<string>, target: Address,
                           next: Event)
    requires Inv(w) && AdmittedRun(w, es) && FeePrunes(w, code, end, es)
    requires PolicyOf(w, code).Some? && PolicyOf(w, code).value.target == target
    requires DistinctTimes(FeeTimes(w.book.fees, code)) &&
             Answers(FeeTimes(w.book.fees, code), FeeCursor(w, code), end, rows)
    requires next.tx.FeePrune? && next.tx.code == code &&
             PruneEnd(next.env.ts, next.tx.safe, next.tx.endSeconds) == end
    requires var x := Run(w, es);
             Admitted(x, next.env) && target in x.registry.accounts &&
             next.env.kid in HoldersOf(target, x.registry.accounts[target])
    ensures Succeeds(Run(w, es), next) <==> |es| * PRUNE_SIZE < |rows|
    ensures !Succeeds(Run(w, es), next) ==>
              && |es| == CeilDiv(|rows|, PRUNE_SIZE)
              && AmountOf(Run(w, es).book, target) == AmountOf(w.book, target) + SumOver(FeeAmounts(w.book.fees), rows)
              && forall i :: 0 <= i < |es| ==> (HasMore(FeeAnswers(w, code, end, es)[i]) <==> i < |es| - 1)
  {
    var times, start, answers, x := FeeTimes(w.book.fees, code), FeeCursor(w, code), FeeAnswers(w, code, end, es),
                                    Run(w, es);
    FeePrunesChain(w, code, end, es, target);
    RunInv(w, es);
    ChainProgress(times, start, end, rows, answers);
    var found := RowsOfFees(x, next.env, code, end);
    assert Answers(times, FeeCursor(x, code), end, found);
    FeePruneSucceedsIff(x, next);
    NoneOrSome(times, FeeCursor(x, code), end, found);
    if found == [] { ChainRefinesWindow(times, start, end, rows, answers); }
  }
}
