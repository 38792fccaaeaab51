// What does not hold of the chaincode, each shown by a run from the empty ledger in which every transaction
// succeeds. The names in a run do not matter. The exact conditions are proved where the operations are.
module Counterexamples {
  import opened Basics
  import opened Stamps
  import opened World
  import opened Stubs
  import opened Sums
  import opened Paging
  import opened Fees
  import opened Transactions
  import opened Moves
  import opened Invariants
  import opened Conservation
  import opened Runs
  import opened Series
  import opened ExactlyOnce
  import opened Skew
  import opened Scenes
  import Holders
  import A = Addresses

  /** The run es reaches a sound world in which the event is admitted and succeeds. */
  ghost predicate Shows(es: seq<Event>, e: Event) {
    AdmittedRun(EMPTY, es) && Inv(Run(EMPTY, es)) && Admitted(Run(EMPTY, es), e.env) && Succeeds(Run(EMPTY, es), e)
  }

  lemma ShowsLast(es: seq<Event>, e: Event)
    requires AdmittedRun(EMPTY, es) && Admitted(Run(EMPTY, es), e.env) && Succeeds(Run(EMPTY, es), e)
    ensures Shows(es, e)
  {
    Reached(es);
  }

  // ---- what a transaction loses ----

  lemma PayLoses(w: World, e: Event, s: Address, r: Address, amount: int, fee: int)
    requires Own(w, e.env.kid, s) && Active(w, r) && s != r && s.code == r.code
    requires 0 < amount <= w.book.balances[s].amount && CalcFee(w.tokens, r, "pay", amount) == Ok(fee)
    requires e.tx == PayTx(Some(s), r, amount, "", "")
    ensures LostAt(w, e, r.code) == if e.env.ts <= PayCursor(w.book.balances, r) then amount else 0
  {
    PayStep(w, e.env, s, r, amount, fee);
    OneSigner(w, e.env.kid, s, r);
    assert PayTerms(w, e.env, Some(s), r, amount) == Ok((s, w.book.balances[s], {e.env.kid}));
    assert MoveOf(w, e.env, e.tx) == MPay(s, r, amount, fee, "", "");
  }

  lemma StepLoses(es: seq<Event>, e: Event, code: string, loss: int)
    requires Shows(es, e) && LostAt(Run(EMPTY, es), e, code) == loss
    ensures Gap(Next(Run(EMPTY, es), e.env, e.tx), code) == Gap(Run(EMPTY, es), code) - loss
  {
    StepDrift(Run(EMPTY, es), e, code);
  }

  // ---- a late record ----

  lemma FiledClosed(w: World, e: Event, s: Address, r: Address, amount: int)
    requires Own(w, e.env.kid, s) && Active(w, r) && s != r && s.code == r.code
    requires 0 < amount <= w.book.balances[s].amount && CalcFee(w.tokens, r, "pay", amount) == Ok(0)
    requires e.tx == PayTx(Some(s), r, amount, "", "") && e.env.ts <= PayCursor(w.book.balances, r)
    ensures var w', id := Next(w, e.env, e.tx), e.env.recordId;
            id in w'.book.pays && w'.book.pays[id].amount == amount && !PayOpen(w', id)
  {
    PayStep(w, e.env, s, r, amount, 0);
  }

  /** Any payment that its run files at or below the cursor is lost. */
  lemma EarlyPaymentLost(es: seq<Event>, e: Event, s: Address, r: Address, amount: int)
    requires Shows(es, e) && e.tx == PayTx(Some(s), r, amount, "", "") && s != r && s.code == r.code
    requires var w := Run(EMPTY, es);
             && Own(w, e.env.kid, s) && Active(w, r) && 0 < amount <= w.book.balances[s].amount
             && CalcFee(w.tokens, r, "pay", amount) == Ok(0) && e.env.ts <= PayCursor(w.book.balances, r)
    ensures var w, w' := Run(EMPTY, es), Next(Run(EMPTY, es), e.env, e.tx);
            && Gap(w', r.code) == Gap(w, r.code) - amount
            && e.env.recordId in w'.book.pays && w'.book.pays[e.env.recordId].amount == amount
            && forall later :: AdmittedRun(w', later) ==> e.env.recordId !in PayCredits(w', later)
  {
    FiledClosed(Run(EMPTY, es), e, s, r, amount);
    PayLoses(Run(EMPTY, es), e, s, r, amount, 0);
    StepLoses(es, e, r.code, amount);
    Extend(es, e);
    NeverCredited(es, e, e.env.recordId);
  }

  /** A payment filed at its merchant's cursor: it succeeds, its amount leaves the ledger, and no later run
      ever credits it. */
  lemma EarlyPaymentVanishes(c: Cast, query: Query) returns (es: seq<Event>, e: Event)
    requires Faithful(query) && c.code != c.other
    ensures Shows(es, e) && e.tx == PayTx(Some(c.Genesis()), c.Shop(), 4, "", "")
    ensures var w, w' := Run(EMPTY, es), Next(Run(EMPTY, es), e.env, e.tx);
            && Gap(w', c.code) == Gap(w, c.code) - 4
            && e.env.recordId in w'.book.pays && w'.book.pays[e.env.recordId].amount == 4
            && forall later :: AdmittedRun(w', later) ==> e.env.recordId !in PayCredits(w', later)
  {
    e := PayEvent(c, query, 5, PAID, 4, None);
    var front, prune, id := PrunedOnce(c, query, 4, None, PAID + 1, false);
    es := front + [prune];
    var w := Run(EMPTY, es);
    MarketFee(c, w, 5, 996, 4, id, None, 4);
    MarketAdmits(c, w, 5, e, c.buyer, 996, 4, id, None);
    PayScene(c, es, 5, e, 4, 0, 996, 4, id, None);
    ShowsLast(es, e);
    EarlyPaymentLost(es, e, c.Genesis(), c.Shop(), 4);
  }

  /** A record that is closed after the event stays without credit. */
  lemma NeverCredited(es: seq<Event>, e: Event, id: string)
    requires AdmittedRun(EMPTY, es + [e]) && Run(EMPTY, es + [e]) == Next(Run(EMPTY, es), e.env, e.tx)
    requires var w' := Next(Run(EMPTY, es), e.env, e.tx); id in w'.book.pays && !PayOpen(w', id)
    ensures var w' := Next(Run(EMPTY, es), e.env, e.tx);
            forall later :: AdmittedRun(w', later) ==> id !in PayCredits(w', later)
  {
    var w' := Next(Run(EMPTY, es), e.env, e.tx);
    Reached(es + [e]);
    forall later | AdmittedRun(w', later) ensures id !in PayCredits(w', later) {
      ClosedForGood(w', later, id);
    }
  }

  // ---- a refund that is not covered ----

  const REFUNDED: Time := TEN18 + 4

  lemma SpentOnce(c: Cast, query: Query) returns (es: seq<Event>, id: string)
    requires Faithful(query) && c.code != c.other
    ensures AdmittedRun(EMPTY, es) && Market(c, Run(EMPTY, es), 6, 1000, 0, id, None) &&
            OnePay(c, Run(EMPTY, es), id, 10, 0)
  {
    var e := Event(Clock(c, query, PAID + 2, 5, c.shopKid, MetaFor(None), None),
                   Transfer(Some(c.Shop()), c.Genesis(), 10, "", None, []));
    var front: seq<Event>, prune: Event;
    front, prune, id := PrunedOnce(c, query, 10, None, PAID + 1, false);
    es := front + [prune];
    ReturnScene(c, es, 5, e, 10, 990, 10, id);
    es := es + [e];
  }

  /** The payment and its refund. */
  predicate Refunded(c: Cast, w: World, id: string, rid: string) {
    id != "" && CursorTime(id) == Some(PAID) && rid != "" && rid != id &&
    w.book.pays == map[id := Pay(c.Shop(), 10, 0, 10, c.Genesis(), "", "", "", PAID),
                       rid := Pay(c.Shop(), -10, 0, 0, c.Genesis(), id, "", "", REFUNDED)]
  }

  lemma RefundedPays(c: Cast, pays: map<string, Pay>, id: string, rid: string)
    requires pays == map[id := Pay(c.Shop(), 10, 0, 0, c.Genesis(), "", "", "", PAID)] && rid !in pays
    ensures rid != id
    ensures pays[rid := Pay(c.Shop(), -10, 0, 0, c.Genesis(), id, "", "", REFUNDED)]
                [id := pays[id].(totalRefund := 10)] ==
            map[id := Pay(c.Shop(), 10, 0, 10, c.Genesis(), "", "", "", PAID),
                rid := Pay(c.Shop(), -10, 0, 0, c.Genesis(), id, "", "", REFUNDED)]
  {
  }

  lemma OnePayRefundable(c: Cast, w: World, id: string)
    requires OnePay(c, w, id, 10, 0)
    ensures id in w.book.pays && w.book.pays[id] == Pay(c.Shop(), 10, 0, 0, c.Genesis(), "", "", "", PAID)
  {
  }

  lemma RefundsFirst(c: Cast, es: seq<Event>, e: Event, id: string)
    requires c.code != c.other && AdmittedRun(EMPTY, es) && Market(c, Run(EMPTY, es), 6, 1000, 0, id, None)
    requires OnePay(c, Run(EMPTY, es), id, 10, 0) && Nth(c, e, 6, c.shopKid, None) && e.env.ts == REFUNDED
    requires e.tx == PayRefund(id, 10, "")
    ensures AdmittedRun(EMPTY, es + [e]) && Market(c, Run(EMPTY, es + [e]), 7, 1010, 0, id, None)
    ensures Refunded(c, Run(EMPTY, es + [e]), id, e.env.recordId)
  {
    OnePayRefundable(c, Run(EMPTY, es), id);
    RefundScene(c, es, 6, e, id, 10, 1000, 0, id);
    RefundedPays(c, Run(EMPTY, es).book.pays, id, e.env.recordId);
    RecordCursor(e.env);
  }

  /** The shop has pruned ten, spent them, and refunded the payment. */
  lemma RefundedOnce(c: Cast, query: Query) returns (es: seq<Event>, id: string, rid: string)
    requires Faithful(query) && c.code != c.other
    ensures AdmittedRun(EMPTY, es) && Market(c, Run(EMPTY, es), 7, 1010, 0, id, None) &&
            Refunded(c, Run(EMPTY, es), id, rid)
  {
    es, id := SpentOnce(c, query);
    var e := Event(Clock(c, query, REFUNDED, 6, c.shopKid, MetaFor(None), None), PayRefund(id, 10, ""));
    RefundsFirst(c, es, e, id);
    es, rid := es + [e], e.env.recordId;
  }

  lemma RefundRow(c: Cast, w: World, env: Env, end: Time, id: string, rid: string)
    requires Faithful(env.query) && REFUNDED <= end && Refunded(c, w, id, rid) &&
             PayCursor(w.book.balances, c.Shop()) == PAID
    ensures var rows := RowsOfPays(w, env, c.Shop(), end);
            rows == [rid] && Page(rows) == rows && PageEnd(rows) == rid && Net(w.book.pays, rows) == -10
  {
    OneRow(w, env, c.Shop(), end, rid);
  }

  lemma RefundPruned(c: Cast, w: World, e: Event, id: string, rid: string)
    requires c.code != c.other && Market(c, w, 7, 1010, 0, id, None) && Refunded(c, w, id, rid)
    requires Nth(c, e, 7, c.shopKid, None) && e.tx == PayPrune(c.Shop(), false, None) && REFUNDED <= e.env.ts
    ensures Succeeds(w, e) && AmountOf(w.book, c.Shop()) == 0 && AmountOf(Next(w, e.env, e.tx).book, c.Shop()) == -10
  {
    RefundRow(c, w, e.env, e.env.ts, id, rid);
    MarketPruned(c, w, e, 7, [rid], 1010, 0, id, None);
  }

  /** A merchant with nothing prunes a refund and is at minus ten. */
  lemma PrunedRefundGoesNegative(c: Cast, query: Query) returns (es: seq<Event>, e: Event)
    requires Faithful(query) && c.code != c.other
    ensures Shows(es, e) && e.tx == PayPrune(c.Shop(), false, None)
    ensures AmountOf(Run(EMPTY, es).book, c.Shop()) == 0
    ensures AmountOf(Next(Run(EMPTY, es), e.env, e.tx).book, c.Shop()) == -10
  {
    var id, rid := "", "";
    e := PruneEvent(c, query, 7, REFUNDED + 1, false, None);
    es, id, rid := RefundedOnce(c, query);
    MarketAdmits(c, Run(EMPTY, es), 7, e, c.shopKid, 1010, 0, id, None);
    RefundPruned(c, Run(EMPTY, es), e, id, rid);
    ShowsLast(es, e);
  }

  // ---- a fee target of another token ----

  const FEE_TIME: Time := PAID + 1

  function FeePruneEvent(c: Cast, query: Query): Event {
    Event(Clock(c, query, FEE_TIME + 1, 5, c.shopKid, MetaFor(Some(c.Foreign())), None), FeePrune(c.code, false, None))
  }

  lemma FeeRow(c: Cast, w: World, env: Env, fid: string, last: string)
    requires Faithful(env.query) && Market(c, w, 5, 970, 27, last, Some(c.Foreign())) && FeeLeft(c, w, fid, FEE_TIME, 3)
    ensures var rows := RowsOfFees(w, env, c.code, FEE_TIME + 1);
            rows == [fid] && FeeSum(w.book.fees, rows).sum == 3 && LostRows(FeeTimes(w.book.fees, c.code), rows) == []
  {
    var rows := RowsOfFees(w, env, c.code, FEE_TIME + 1);
    assert Answers(FeeTimes(w.book.fees, c.code), 0, FEE_TIME + 1, rows);
    SingleAnswer(FeeTimes(w.book.fees, c.code), 0, FEE_TIME + 1, fid, rows);
    OneSum(FeeAmounts(w.book.fees), fid);
    assert Page(rows) == [fid];
  }

  lemma FeePruneLost(c: Cast, w: World, env: Env, fid: string, last: string, code: string)
    requires Faithful(env.query) && Market(c, w, 5, 970, 27, last, Some(c.Foreign())) && FeeLeft(c, w, fid, FEE_TIME, 3)
    requires c.code != c.other
    ensures var m := MFeePrune(c.code, FEE_TIME + 1);
            Enabled(w, env, m) && Lost(w, env, m, code) ==
            (if code == c.code then 3 else 0) - (if code == c.other then 3 else 0)
  {
    FeeRow(c, w, env, fid, last);
    assert SumOver(FeeAmounts(w.book.fees), []) == 0;
  }

  lemma FeePruneLoses(w: World, e: Event, code: string, end: Time, c: string, loss: int)
    requires e.tx == FeePrune(code, false, None) && e.env.ts == end && Succeeds(w, e) && PolicyOf(w, code).Some?
    requires Enabled(w, e.env, MFeePrune(code, end)) && Lost(w, e.env, MFeePrune(code, end), c) == loss
    ensures LostAt(w, e, c) == loss
  {
  }

  lemma FeePruneLeaks(c: Cast, es: seq<Event>, e: Event, fid: string, last: string, code: string)
    requires c.code != c.other && AdmittedRun(EMPTY, es) &&
             Market(c, Run(EMPTY, es), 5, 970, 27, last, Some(c.Foreign()))
    requires FeeLeft(c, Run(EMPTY, es), fid, FEE_TIME, 3) && Nth(c, e, 5, c.shopKid, Some(c.Foreign()))
    requires e.env.ts == FEE_TIME + 1 && e.tx == FeePrune(c.code, false, None)
    ensures Shows(es, e)
    ensures Gap(Next(Run(EMPTY, es), e.env, e.tx), code) ==
            Gap(Run(EMPTY, es), code) - (if code == c.code then 3 else 0) + (if code == c.other then 3 else 0)
  {
    var w := Run(EMPTY, es);
    FeeRow(c, w, e.env, fid, last);
    FeePruneShows(c, es, e, last);
    FeePruneLost(c, w, e.env, fid, last, code);
    FeePruneLoses(w, e, c.code, FEE_TIME + 1, code,
                  (if code == c.code then 3 else 0) - (if code == c.other then 3 else 0));
    StepLoses(es, e, code, (if code == c.code then 3 else 0) - (if code == c.other then 3 else 0));
  }

  lemma FeePruneShows(c: Cast, es: seq<Event>, e: Event, last: string)
    requires AdmittedRun(EMPTY, es) && Market(c, Run(EMPTY, es), 5, 970, 27, last, Some(c.Foreign()))
    requires Nth(c, e, 5, c.shopKid, Some(c.Foreign())) && e.tx == FeePrune(c.code, false, None)
    requires RowsOfFees(Run(EMPTY, es), e.env, c.code, e.env.ts) != []
    ensures Shows(es, e)
  {
    MarketAdmits(c, Run(EMPTY, es), 5, e, c.shopKid, 970, 27, last, Some(c.Foreign()));
    Reached(es);
    FeePruneSucceedsIff(Run(EMPTY, es), e);
  }

  /** Nothing ties the target of a fee policy to the policy's own token: a holder of the target prunes, and
      three units of one token become three of another. */
  lemma ForeignTargetLeaks(c: Cast, query: Query) returns (es: seq<Event>, e: Event)
    requires Faithful(query) && c.code != c.other
    ensures Shows(es, e) && e.tx == FeePrune(c.code, false, None)
    ensures var w, w' := Run(EMPTY, es), Next(Run(EMPTY, es), e.env, e.tx);
            && Gap(w', c.code) == Gap(w, c.code) - 3 && Gap(w', c.other) == Gap(w, c.other) + 3
  {
    e := FeePruneEvent(c, query);
    var front, prune, id := PrunedOnce(c, query, 30, Some(c.Foreign()), FEE_TIME, false);
    es := front + [prune];
    FeePruneLeaks(c, es, e, prune.env.recordId, id, c.code);
    FeePruneLeaks(c, es, e, prune.env.recordId, id, c.other);
  }

  // ---- a page that ends inside one time ----

  /** k payments of one, all at one time. */
  ghost predicate SameTimePays(c: Cast, pays: map<string, Pay>, k: nat) {
    |pays| == k && forall id :: id in pays ==> pays[id] == Pay(c.Shop(), 1, 0, 0, c.Genesis(), "", "", "", PAID)
  }

  lemma OneMoreRecord(c: Cast, pays: map<string, Pay>, id: string, k: nat)
    requires SameTimePays(c, pays, k) && id !in pays
    ensures SameTimePays(c, pays[id := Pay(c.Shop(), 1, 0, 0, c.Genesis(), "", "", "", PAID)], k + 1)
  {
  }

  lemma OneMorePay(c: Cast, query: Query, es: seq<Event>, k: nat, e: Event)
    requires Faithful(query) && c.code != c.other && 0 < k <= 1000 && AdmittedRun(EMPTY, es)
    requires Market(c, Run(EMPTY, es), 2 + k, 1001 - k, 0, "", None) && SameTimePays(c, Run(EMPTY, es).book.pays, k - 1)
    requires e == PayEvent(c, query, 2 + k, PAID, 1, None)
    ensures AdmittedRun(EMPTY, es + [e]) && Market(c, Run(EMPTY, es + [e]), 3 + k, 1000 - k, 0, "", None)
    ensures SameTimePays(c, Run(EMPTY, es + [e]).book.pays, k)
  {
    MarketFee(c, Run(EMPTY, es), 2 + k, 1001 - k, 0, "", None, 1);
    PayScene(c, es, 2 + k, e, 1, 0, 1001 - k, 0, "", None);
    OneMoreRecord(c, Run(EMPTY, es).book.pays, e.env.recordId, k - 1);
  }

  lemma {:induction false} ManyPays(c: Cast, query: Query, k: nat) returns (es: seq<Event>)
    requires Faithful(query) && c.code != c.other && k <= 1000
    ensures AdmittedRun(EMPTY, es) && Market(c, Run(EMPTY, es), 3 + k, 1000 - k, 0, "", None)
    ensures SameTimePays(c, Run(EMPTY, es).book.pays, k)
  {
    if k == 0 {
      es := MarketOpens(c, query, None);
    } else {
      es := ManyPays(c, query, k - 1);
      var e := PayEvent(c, query, 2 + k, PAID, 1, None);
      OneMorePay(c, query, es, k, e);
      es := es + [e];
    }
  }

  lemma {:induction false} RowsCount<T>(rows: seq<T>, keys: set<T>)
    requires Distinct(rows) && forall x :: x in rows <==> x in keys
    ensures |rows| == |keys|
    decreases |rows|
  {
    if rows == [] {
      assert keys == {};
    } else {
      var front, last := rows[..|rows| - 1], rows[|rows| - 1];
      assert last in rows && last !in front;
      assert forall x :: x in front <==> x in keys - {last};
      RowsCount(front, keys - {last});
    }
  }

  lemma {:induction false} SumOfOnes(m: map<string, int>, ids: seq<string>, one: int)
    requires forall id :: id in ids ==> id in m && m[id] == one
    ensures SumOver(m, ids) == one * |ids|
    decreases |ids|
  {
    if ids != [] {
      SumOfOnes(m, ids[..|ids| - 1], one);
    }
  }

  /** The answer to a prune of 901 such payments. */
  lemma TiedRows(c: Cast, w: World, env: Env, end: Time)
    requires Faithful(env.query) && SameTimePays(c, w.book.pays, 901) && PAID <= end &&
             PayCursor(w.book.balances, c.Shop()) == 0
    ensures var rows, times := RowsOfPays(w, env, c.Shop(), end), PayTimes(w.book.pays, c.Shop());
            && |rows| == 901 && |LostRows(times, rows)| == 1 && PageEnd(rows) in w.book.pays
            && Net(w.book.pays, Page(rows)) == 900 && SumOver(PayFees(w.book.pays), Page(rows)) == 0
            && SumOver(PayAmounts(w.book.pays), LostRows(times, rows)) == 1
  {
    var rows, times := RowsOfPays(w, env, c.Shop(), end), PayTimes(w.book.pays, c.Shop());
    assert Answers(times, 0, end, rows);
    RowsCount(rows, w.book.pays.Keys);
    assert rows[899] in rows && rows[900] in rows;
    assert Reach(times, rows, 901) == 901;
    assert forall id :: id in Page(rows) || id in LostRows(times, rows) ==> id in rows;
    SumOfOnes(PayAmounts(w.book.pays), Page(rows), 1);
    SumOfOnes(PayFees(w.book.pays), Page(rows), 0);
    SumOfOnes(PayAmounts(w.book.pays), LostRows(times, rows), 1);
  }

  lemma FreePruneLoses(w: World, env: Env, a: Address, end: Time)
    requires Enabled(w, env, MPayPrune(a, end)) && PaySum(w.book.pays, RowsOfPays(w, env, a, end)).fee == 0
    ensures Lost(w, env, MPayPrune(a, end), a.code) ==
            SumOver(PayAmounts(w.book.pays), LostRows(PayTimes(w.book.pays, a), RowsOfPays(w, env, a, end)))
  {
  }

  lemma PruneLoses(w: World, e: Event, code: string)
    requires e.tx.PayPrune? && Succeeds(w, e) && e.tx.account.code == code && e.tx.account in w.book.balances
    requires var rows := RowsOfPays(w, e.env, e.tx.account, PruneEnd(e.env.ts, e.tx.safe, e.tx.endSeconds));
             rows != [] && PaySum(w.book.pays, rows).fee == 0
    ensures var a := e.tx.account;
            var rows := RowsOfPays(w, e.env, a, PruneEnd(e.env.ts, e.tx.safe, e.tx.endSeconds));
            LostAt(w, e, code) == SumOver(PayAmounts(w.book.pays), LostRows(PayTimes(w.book.pays, a), rows))
  {
    FreePruneLoses(w, e.env, e.tx.account, PruneEnd(e.env.ts, e.tx.safe, e.tx.endSeconds));
  }

  lemma TiedPrune(c: Cast, w: World, e: Event)
    requires c.code != c.other && IdsOk(w) && Market(c, w, 904, 99, 0, "", None) && SameTimePays(c, w.book.pays, 901)
    requires Faithful(e.env.query) && e.env == Clock(c, e.env.query, PAID + 1, 904, c.shopKid, MetaFor(None), None)
    requires e.tx == PayPrune(c.Shop(), false, None)
    ensures var w' := Next(w, e.env, e.tx);
            && Succeeds(w, e) && w'.book.pays == w.book.pays && HasMore(RowsOfPays(w, e.env, c.Shop(), PAID + 1))
            && AmountOf(w'.book, c.Shop()) == 900 && PayCursor(w'.book.balances, c.Shop()) == PAID
  {
    var rows := RowsOfPays(w, e.env, c.Shop(), PAID + 1);
    TiedRows(c, w, e.env, PAID + 1);
    StampedCursor(PageEnd(rows), PAID, w.txs);
    MarketPruned(c, w, e, 904, rows, 99, 0, "", None);
  }

  lemma TiedPruneLoses(c: Cast, w: World, e: Event)
    requires c.code != c.other && IdsOk(w) && Market(c, w, 904, 99, 0, "", None) && SameTimePays(c, w.book.pays, 901)
    requires Faithful(e.env.query) && e.env == Clock(c, e.env.query, PAID + 1, 904, c.shopKid, MetaFor(None), None)
    requires e.tx == PayPrune(c.Shop(), false, None) && Succeeds(w, e)
    ensures LostAt(w, e, c.code) == 1
  {
    TiedRows(c, w, e.env, PAID + 1);
    PruneLoses(w, e, c.code);
  }

  /** 901 payments of one time: the prune takes 900 and says that there is more, but its cursor has passed
      the last one too. Its amount leaves the ledger, and no later run credits any of the 901 again. */
  lemma PageTieLoses(c: Cast, query: Query) returns (es: seq<Event>, e: Event)
    requires Faithful(query) && c.code != c.other
    ensures Shows(es, e) && e.tx == PayPrune(c.Shop(), false, None)
    ensures var w, w' := Run(EMPTY, es), Next(Run(EMPTY, es), e.env, e.tx);
            && SameTimePays(c, w.book.pays, 901) && HasMore(RowsOfPays(w, e.env, c.Shop(), e.env.ts))
            && AmountOf(w.book, c.Shop()) == 0 && AmountOf(w'.book, c.Shop()) == 900
            && Gap(w', c.code) == Gap(w, c.code) - 1
            && forall id, later :: id in w.book.pays && AdmittedRun(w', later) ==> id !in PayCredits(w', later)
  {
    e := PruneEvent(c, query, 904, PAID + 1, false, None);
    es := ManyPays(c, query, 901);
    ReachedRegistry(es);
    MarketAdmits(c, Run(EMPTY, es), 904, e, c.shopKid, 99, 0, "", None);
    TiedPrune(c, Run(EMPTY, es), e);
    TiedPruneLoses(c, Run(EMPTY, es), e);
    ShowsLast(es, e);
    StepLoses(es, e, c.code, 1);
    Extend(es, e);
    forall id | id in Run(EMPTY, es).book.pays
      ensures forall later :: AdmittedRun(Next(Run(EMPTY, es), e.env, e.tx), later) ==>
                                id !in PayCredits(Next(Run(EMPTY, es), e.env, e.tx), later)
    {
      NeverCredited(es, e, id);
    }
  }

  // ---- a payment by contract ----

  /** A shop whose token has two genesis holders, the buyer and the shop. */
  predicate Partners(c: Cast, w: World, n: nat) {
    && Active(w, c.Shop()) && Active(w, c.Genesis())
    && HoldersOf(c.Genesis(), w.registry.accounts[c.Genesis()]) == {c.buyer, c.shopKid}
    && w.registry.accounts[c.Genesis()].JointAccount? && w.book.balances[c.Genesis()].amount == 1000
    && c.code in w.tokens && w.tokens[c.code].policy == None && UsedBelow(w, n)
    && (forall cid :: cid in w.contracts ==> |cid| < n)
  }

  function Signed(c: Cast, query: Query, n: nat, kid: Kid): Env {
    Clock(c, query, TEN18, n, kid, MetaFor(None), Some(NewContract(Tick(n), TEN18)))
  }

  /** The shop's account, and the request for the token. */
  function TokenAsked(c: Cast): World {
    OneAccount(c).(contracts := EMPTY.contracts[Tick(1) := TokenDoc(c.code, {c.buyer, c.shopKid})],
                   txs := OneAccount(c).txs + {Tick(1)})
  }

  lemma RequestToken(c: Cast, query: Query) returns (es: seq<Event>)
    requires Faithful(query) && c.buyer != c.shopKid
    ensures AdmittedRun(EMPTY, es) && Run(EMPTY, es) == TokenAsked(c) && Opening(es)
  {
    var e := Event(Signed(c, query, 1, c.buyer), TokenCreate(c.code, [c.Shop()]));
    es := FirstAccount(c, query, MetaFor(None));
    TokenRequestStep(OneAccount(c), e.env, c.code, c.Shop());
    es := OpensWith(es, e);
  }

  lemma TokenIssued(c: Cast, env: Env)
    requires env.jointId == c.digest && env.meta == Some(MetaFor(None))
    ensures CreateToken(TokenAsked(c), env, c.code, MetaFor(None), {c.buyer, c.shopKid}).Ok?
  {
  }

  lemma PartnersIssued(c: Cast, env: Env, txs: set<string>)
    requires RegistryOk(TokenAsked(c)) && env.jointId == c.digest && env.meta == Some(MetaFor(None))
    requires CreateToken(TokenAsked(c), env, c.code, MetaFor(None), {c.buyer, c.shopKid}).Ok?
    requires forall id :: id in txs ==> |id| < 3
    ensures Partners(c, CreateToken(TokenAsked(c), env, c.code, MetaFor(None), {c.buyer, c.shopKid}).value.(txs := txs),
                     3)
  {
    IssueWrites(TokenAsked(c), env, c.code, MetaFor(None), {c.buyer, c.shopKid});
  }

  lemma TokenByContract(c: Cast, env: Env)
    requires RegistryOk(TokenAsked(c)) && env.txId == Tick(2) && env.meta == Some(MetaFor(None)) &&
             env.jointId == c.digest
    ensures Step(TokenAsked(c), env, ContractExecute(Tick(1))).Ok?
    ensures Partners(c, Next(TokenAsked(c), env, ContractExecute(Tick(1))), 3)
  {
    TokenIssued(c, env);
    TokenDocStep(TokenAsked(c), env, Tick(1));
    PartnersIssued(c, env, TokenAsked(c).txs + {env.txId});
  }

  lemma TokenAskedOk(c: Cast, query: Query, env: Env)
    requires Faithful(query) && c.buyer != c.shopKid
    requires Stampable(env.ts) && Faithful(env.query) && env.txId == Tick(2) && env.recordId == NewId(env.ts, env.txId)
    requires env.contract.None?
    ensures RegistryOk(TokenAsked(c)) && Admitted(TokenAsked(c), env)
  {
    var es := RequestToken(c, query);
    ReachedRegistry(es);
  }

  lemma PartnersOpen(c: Cast, query: Query) returns (es: seq<Event>)
    requires Faithful(query) && c.buyer != c.shopKid
    ensures AdmittedRun(EMPTY, es) && Partners(c, Run(EMPTY, es), 3)
  {
    var e := Event(Clock(c, query, TEN18, 2, c.buyer, MetaFor(None), None), ContractExecute(Tick(1)));
    es := RequestToken(c, query);
    TokenAskedOk(c, query, e.env);
    TokenByContract(c, e.env);
    es := OpensWith(es, e);
  }

  lemma PartnersCanAsk(c: Cast, w: World)
    requires Partners(c, w, 3) && c.buyer != c.shopKid
    ensures Active(w, c.Genesis()) && Active(w, c.Shop()) &&
            w.registry.accounts[c.Genesis()] == JointAccount({c.buyer, c.shopKid})
    ensures |{c.buyer, c.shopKid}| == 2 && w.book.balances[c.Genesis()].amount == 1000
  {
  }

  /** The buyer asks to pay five from the joint account, under an order id and with a memo. */
  lemma RequestPay(c: Cast, w: World, e: Event, orderId: string, memo: string)
    requires Partners(c, w, 3) && e.env == Signed(c, e.env.query, 3, c.buyer)
    requires e.tx == PayTx(Some(c.Genesis()), c.Shop(), 5, orderId, memo) && c.buyer != c.shopKid
    ensures Succeeds(w, e)
    ensures var w' := Next(w, e.env, e.tx);
            && Tick(3) in w'.contracts && w'.contracts[Tick(3)] ==
               PayDoc(Tick(3), c.Genesis(), c.Shop(), 5, orderId, memo)
            && Tick(3) in w'.book.pendings && w'.book.pendings[Tick(3)].rid == ToContract(Tick(3))
            && c.code in w'.tokens && w'.tokens[c.code].policy == None && UsedBelow(w', 4)
  {
    PartnersCanAsk(c, w);
    PayRequestStep(w, e.env, c.Genesis(), c.Shop(), 5, orderId, memo);
  }

  lemma ExecuteSwaps(w: World, e: Event, doc: Doc, cid: string)
    requires cid in w.contracts && w.contracts[cid] == doc && doc.PayDoc? && e.tx == ContractExecute(cid)
    requires doc.pbId in w.book.pendings && w.book.pendings[doc.pbId].rid == ToContract(cid)
    requires doc.receiver.code in w.tokens
    ensures Succeeds(w, e)
    ensures var pays := Next(w, e.env, e.tx).book.pays;
            e.env.recordId in pays && pays[e.env.recordId].orderId == doc.memo &&
            pays[e.env.recordId].memo == doc.orderId
  {
  }

  /** A payment by contract is filed with its memo as the order id and its order id as the memo. */
  lemma OrderIdsSwapped(c: Cast, query: Query, orderId: string, memo: string) returns (es: seq<Event>, e: Event)
    requires Faithful(query) && c.buyer != c.shopKid && orderId != memo
    ensures Shows(es, e) && e.tx.ContractExecute?
    ensures var w, w' := Run(EMPTY, es), Next(Run(EMPTY, es), e.env, e.tx);
            && e.tx.cid in w.contracts && w.contracts[e.tx.cid].PayDoc?
            && w.contracts[e.tx.cid].orderId == orderId && w.contracts[e.tx.cid].memo == memo
            && e.env.recordId in w'.book.pays
            && w'.book.pays[e.env.recordId].orderId == memo && w'.book.pays[e.env.recordId].memo == orderId
  {
    var pay := Event(Signed(c, query, 3, c.buyer), PayTx(Some(c.Genesis()), c.Shop(), 5, orderId, memo));
    e := Event(Clock(c, query, TEN18, 4, c.buyer, MetaFor(None), None), ContractExecute(Tick(3)));
    es := PartnersOpen(c, query);
    RequestPay(c, Run(EMPTY, es), pay, orderId, memo);
    Extend(es, pay);
    es := es + [pay];
    ExecuteSwaps(Run(EMPTY, es), e, PayDoc(Tick(3), c.Genesis(), c.Shop(), 5, orderId, memo), Tick(3));
    ShowsLast(es, e);
  }

  // ---- a joint account of 129 ----

  function Person(c: Cast, i: nat): Address {
    Address(c.code, Personal, Tick(i))
  }

  /** k people have opened their accounts, and nobody else has. */
  ghost predicate Town(c: Cast, w: World, k: nat) {
    && (forall i :: 0 <= i < k ==>
          Person(c, i) in w.registry.accounts && w.registry.accounts[Person(c, i)] == PersonalAccount(false))
    && (forall a :: a in w.registry.accounts ==> a.kind == Personal && |a.id| < k)
    && w.contracts == map[] && w.tokens == map[] && UsedBelow(w, k)
  }

  lemma NewNeighbour(c: Cast, w: World, e: Event, k: nat)
    requires Town(c, w, k) && e.tx == AccountCreate(c.code, []) && e.env.kid == Tick(k) && e.env.txId == Tick(k) &&
             e.env.meta.Some?
    ensures Succeeds(w, e) && Town(c, Next(w, e.env, e.tx), k + 1)
  {
    OpenStep(w, e.env, c.code);
  }

  lemma {:induction false} TownGrows(c: Cast, query: Query, k: nat) returns (es: seq<Event>)
    requires Faithful(query)
    ensures AdmittedRun(EMPTY, es) && Town(c, Run(EMPTY, es), k)
  {
    if k == 0 {
      es := [];
    } else {
      es := TownGrows(c, query, k - 1);
      var e := Event(Clock(c, query, TEN18, k - 1, Tick(k - 1), MetaFor(None), None), AccountCreate(c.code, []));
      NewNeighbour(c, Run(EMPTY, es), e, k - 1);
      Extend(es, e);
      es := es + [e];
    }
  }

  function Neighbours(c: Cast, n: nat): seq<Address> {
    seq(n, i requires 0 <= i < n => Person(c, i))
  }

  lemma NeighboursCount(c: Cast, n: nat)
    ensures |Named(Neighbours(c, n))| == n && Person(c, n) !in Neighbours(c, n)
  {
    var all := Neighbours(c, n);
    assert forall i :: 0 <= i < n ==> all[i] == Person(c, i) && |all[i].id| == i;
    RowsCount(all, Named(all));
  }

  /** 128 personal co-holders and the invoker make a joint account of 129 holders. */
  lemma TooManyHolders(c: Cast, query: Query) returns (es: seq<Event>, e: Event)
    requires Faithful(query)
    ensures Shows(es, e) && e.tx.ContractExecute?
    ensures var a, accounts := Address(c.code, Joint, c.digest), Next(Run(EMPTY, es), e.env, e.tx).registry.accounts;
            a in accounts && accounts[a].JointAccount? && |accounts[a].holders| == 129
  {
    var request := Event(Clock(c, query, TEN18, 129, Tick(128), MetaFor(None), Some(NewContract(Tick(0), TEN18))),
                         AccountCreate(c.code, Neighbours(c, 128)));
    e := Event(Clock(c, query, TEN18, 130, Tick(128), MetaFor(None), None), ContractExecute(Tick(0)));
    es := TownGrows(c, query, 129);
    RequestedAccount(c, Run(EMPTY, es), request, e);
    Extend(es, request);
    es := es + [request];
    ShowsLast(es, e);
  }

  lemma RequestedAccount(c: Cast, w: World, request: Event, e: Event)
    requires Town(c, w, 129) && Faithful(e.env.query)
    requires request.tx == AccountCreate(c.code, Neighbours(c, 128)) && request.env.kid == Tick(128) &&
             request.env.txId == Tick(129)
    requires request.env.contract == Some(NewContract(Tick(0), TEN18)) && request.env.meta.Some?
    requires e.tx == ContractExecute(Tick(0)) &&
             e.env == Clock(c, e.env.query, TEN18, 130, Tick(128), MetaFor(None), None)
    ensures var w1 := Next(w, request.env, request.tx);
            var a, accounts := Address(c.code, Joint, c.digest), Next(w1, e.env, e.tx).registry.accounts;
            Admitted(w1, e.env) && Succeeds(w1, e) && a in accounts && accounts[a].JointAccount? &&
            |accounts[a].holders| == 129
  {
    RequestLeads(c, w, request);
    CallbackSucceeds(c, Next(w, request.env, request.tx), e, Holders.Requested(w, request.env, Neighbours(c, 128)));
  }

  lemma RequestFits(c: Cast, w: World, env: Env)
    requires Town(c, w, 129) && env.kid == Tick(128)
    ensures |Holders.Requested(w, env, Neighbours(c, 128))| == 129 && Neighbours(c, 128) != []
    ensures |Named(Neighbours(c, 128))| <= 128
    ensures forall a :: a in Neighbours(c, 128) ==> a.code == c.code && a in w.registry.accounts
    ensures Person(c, 128) in w.registry.accounts
  {
    NeighboursCount(c, 128);
    RequestedCount(c, w, env);
  }

  lemma RequestLeads(c: Cast, w: World, request: Event)
    requires Town(c, w, 129)
    requires request.tx == AccountCreate(c.code, Neighbours(c, 128)) && request.env.kid == Tick(128) &&
             request.env.txId == Tick(129)
    requires request.env.contract == Some(NewContract(Tick(0), TEN18)) && request.env.meta.Some?
    ensures var w1, holders := Next(w, request.env, request.tx), Holders.Requested(w, request.env, Neighbours(c, 128));
            && |holders| == 129 && Tick(0) in w1.contracts && w1.contracts[Tick(0)] == AccountDoc(c.code, holders)
            && UsedBelow(w1, 130) && w1.registry == w.registry
  {
    RequestFits(c, w, request.env);
    Holders.RequestStep(w, request.env, c.code, Neighbours(c, 128));
  }

  lemma RequestedCount(c: Cast, w: World, env: Env)
    requires Town(c, w, 129) && env.kid == Tick(128)
    ensures |Holders.Requested(w, env, Neighbours(c, 128))| == 129
  {
    NeighboursCount(c, 128);
    Holders.PersonalCount(w, env, c.code, Neighbours(c, 128));
    var addrs := Named(Neighbours(c, 128));
    assert addrs - {Person(c, 128)} == addrs;
  }

  lemma CallbackSucceeds(c: Cast, w: World, e: Event, holders: set<Kid>)
    requires Tick(0) in w.contracts && w.contracts[Tick(0)] == AccountDoc(c.code, holders) && UsedBelow(w, 130)
    requires forall a :: a in w.registry.accounts ==> a.kind == Personal
    requires Faithful(e.env.query) && e.env == Clock(c, e.env.query, TEN18, 130, Tick(128), MetaFor(None), None)
    requires e.tx == ContractExecute(Tick(0))
    ensures var a, accounts := Address(c.code, Joint, c.digest), Next(w, e.env, e.tx).registry.accounts;
            Admitted(w, e.env) && Succeeds(w, e) && a in accounts && accounts[a] == JointAccount(holders)
  {
  }

  // ---- a genesis account of any size ----

  lemma TokenRequestedCount(c: Cast, w: World, env: Env, n: nat)
    requires Town(c, w, n) && n > 0 && env.kid == Tick(0)
    ensures |Holders.Requested(w, env, Neighbours(c, n))| == n
  {
    NeighboursCount(c, n);
    Holders.PersonalCount(w, env, c.code, Neighbours(c, n));
    assert Neighbours(c, n)[0] == Person(c, 0) && Person(c, 0) in Named(Neighbours(c, n));
  }

  lemma TokenRequestLeads(c: Cast, w: World, request: Event, n: nat)
    requires Town(c, w, n) && n > 1 && request.env.kid == Tick(0) && request.env.txId == Tick(n)
    requires request.tx == TokenCreate(c.code, Neighbours(c, n)) && request.env.meta == Some(MetaFor(None))
    requires request.env.contract == Some(NewContract(Tick(0), TEN18))
    ensures var w1, holders := Next(w, request.env, request.tx), Holders.Requested(w, request.env, Neighbours(c, n));
            && Succeeds(w, request) && |holders| == n && UsedBelow(w1, n + 1) && w1.registry == w.registry
            && w1.tokens == w.tokens
            && Tick(0) in w1.contracts && w1.contracts[Tick(0)] == TokenDoc(c.code, holders)
  {
    TokenRequestedCount(c, w, request.env, n);
    Holders.TokenRequestStep(w, request.env, c.code, Neighbours(c, n));
  }

  /** Everybody is asked for, and the request waits under the first contract id. */
  ghost predicate AskedByAll(c: Cast, w: World, holders: set<Kid>, n: nat) {
    && |holders| == n && UsedBelow(w, n + 1) && c.code !in w.tokens
    && (forall a :: a in w.registry.accounts ==> a.kind == Personal)
    && Tick(0) in w.contracts && w.contracts[Tick(0)] == TokenDoc(c.code, holders)
  }

  lemma EverybodyAsked(c: Cast, es: seq<Event>, request: Event, n: nat)
    requires AdmittedRun(EMPTY, es) && Town(c, Run(EMPTY, es), n) && n > 1 && Faithful(request.env.query)
    requires request.env ==
             Clock(c, request.env.query, TEN18, n, Tick(0), MetaFor(None), Some(NewContract(Tick(0), TEN18)))
    requires request.tx == TokenCreate(c.code, Neighbours(c, n))
    ensures AdmittedRun(EMPTY, es + [request])
    ensures AskedByAll(c, Run(EMPTY, es + [request]), Holders.Requested(Run(EMPTY, es), request.env, Neighbours(c, n)),
                       n)
  {
    TokenRequestLeads(c, Run(EMPTY, es), request, n);
    Extend(es, request);
  }

  lemma CallbackAdmitted(c: Cast, w: World, query: Query, n: nat)
    requires UsedBelow(w, n + 1) && Faithful(query)
    ensures Admitted(w, Clock(c, query, TEN18, n + 1, Tick(0), MetaFor(None), None))
  {
  }

  lemma CallbackIssues(c: Cast, w: World, env: Env, holders: set<Kid>, n: nat)
    requires AskedByAll(c, w, holders, n) && env == Clock(c, env.query, TEN18, n + 1, Tick(0), MetaFor(None), None)
    ensures CreateToken(w, env, c.code, env.meta.value, holders).Ok?
  {
    assert c.Genesis() !in w.registry.accounts;
  }

  /** A token document is executed by issuing the token. */
  lemma TokenDocStep(w: World, env: Env, cid: string)
    requires cid in w.contracts && w.contracts[cid].TokenDoc? && w.contracts[cid].code !in w.tokens
    requires env.meta.Some? && ValidMeta(env.meta.value)
    ensures var doc, r := w.contracts[cid], Step(w, env, ContractExecute(cid));
            var issued := CreateToken(w, env, doc.code, env.meta.value, doc.holders);
            (r.Ok? <==> issued.Ok?) && (r.Ok? ==> r.value == issued.value.(txs := w.txs + {env.txId}))
  {
  }

  lemma TokenCallbackSucceeds(c: Cast, w: World, e: Event, holders: set<Kid>, n: nat)
    requires AskedByAll(c, w, holders, n)
    requires e == Event(Clock(c, e.env.query, TEN18, n + 1, Tick(0), MetaFor(None), None), ContractExecute(Tick(0)))
    ensures Succeeds(w, e)
  {
    CallbackIssues(c, w, e.env, holders, n);
    TokenDocStep(w, e.env, Tick(0));
  }

  /** A token whose genesis account has n holders. */
  predicate GenesisHolders(w: World, code: string, n: nat) {
    code in w.tokens &&
    var a := w.tokens[code].genesis;
    a in w.registry.accounts && w.registry.accounts[a].JointAccount? && |w.registry.accounts[a].holders| == n
  }

  lemma GenesisShown(c: Cast, es: seq<Event>, e: Event, holders: set<Kid>, n: nat)
    requires AdmittedRun(EMPTY, es) && AskedByAll(c, Run(EMPTY, es), holders, n) && Faithful(e.env.query)
    requires e == Event(Clock(c, e.env.query, TEN18, n + 1, Tick(0), MetaFor(None), None), ContractExecute(Tick(0)))
    ensures Shows(es, e) && GenesisHolders(Next(Run(EMPTY, es), e.env, e.tx), c.code, n)
  {
    ReachedRegistry(es);
    CallbackAdmitted(c, Run(EMPTY, es), e.env.query, n);
    TokenCallbackSucceeds(c, Run(EMPTY, es), e, holders, n);
    ShowsLast(es, e);
    Holders.TokenCallback(Run(EMPTY, es), e, Tick(0));
  }

  /** token/create checks no number at all: as many people as you like hold a genesis account. */
  lemma AnyNumberOfGenesisHolders(c: Cast, query: Query, n: nat) returns (es: seq<Event>, e: Event)
    requires Faithful(query) && n > 1
    ensures Shows(es, e) && e.tx.ContractExecute? && GenesisHolders(Next(Run(EMPTY, es), e.env, e.tx), c.code, n)
  {
    var request := Event(Clock(c, query, TEN18, n, Tick(0), MetaFor(None), Some(NewContract(Tick(0), TEN18))),
                         TokenCreate(c.code, Neighbours(c, n)));
    e := Event(Clock(c, query, TEN18, n + 1, Tick(0), MetaFor(None), None), ContractExecute(Tick(0)));
    var before := TownGrows(c, query, n);
    EverybodyAsked(c, before, request, n);
    es := before + [request];
    GenesisShown(c, es, e, Holders.Requested(Run(EMPTY, before), request.env, Neighbours(c, n)), n);
  }

  // ---- outside the ledger's runs ----

  /** The transfer stub on two copies of one account's balance destroys the amount. No transaction calls it
      so: the guard of transfer keeps sender and receiver apart. */
  lemma SelfTransferLoses(b: Book, env: Env, a: Address)
    requires b.balances == map[a := BalanceDoc(10, "")]
    ensures Transferred(b, env, a, b.balances[a], a, b.balances[a], 3, 0, "", None).balances ==
            map[a := BalanceDoc(7, "")]
  {
  }

  /** A valid address with a lower-case code does not come back from its printed form. The address functions
      allow it; the handlers only make addresses with validated, upper-case codes. */
  lemma LowerCaseCodeIsLost(shake: A.Shake, id: string)
    requires A.IsShake(shake)
    ensures var a := A.NewAddress(shake, "kin", A.PERSONAL, id);
            A.Valid(shake, a) && A.Parse(shake, A.Print(a)) != Ok(a)
  {
    A.NewIsValid(shake, "kin", A.PERSONAL, id);
    A.ParsePrint(shake, A.NewAddress(shake, "kin", A.PERSONAL, id));
    assert A.Upper("kin")[0] == 'K';
  }
}
