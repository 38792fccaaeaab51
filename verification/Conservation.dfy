// Where the value of a token is: in balances, in escrow, in pay records above their merchant's cursor,
// and in fee records above the token's cursor. Every move keeps the sum equal to the supply.
module Conservation {
  import opened Basics
  import opened World
  import opened Stubs
  import opened Sums
  import opened Paging
  import opened Transactions
  import opened Fees
  import opened Moves
  import opened Invariants

  function Cursors(balances: Balances): map<Address, Time> {
    map a | a in balances :: CursorOf(balances[a].lastPruned)
  }

  predicate Live(p: Pay, cursors: map<Address, Time>) {
    p.createdTime > At(cursors, p.merchant)
  }

  ghost function BalanceParts(balances: Balances, c: string): map<Address, int> {
    map a | a in balances :: if a.code == c then balances[a].amount else 0
  }

  ghost function EscrowParts(pendings: map<string, Pending>, c: string): map<string, int> {
    map id | id in pendings :: if pendings[id].account.code == c then Held(pendings[id]) else 0
  }

  ghost function PayParts(pays: map<string, Pay>, cursors: map<Address, Time>, c: string): map<string, int> {
    map id | id in pays :: if pays[id].merchant.code == c && Live(pays[id], cursors) then pays[id].amount else 0
  }

  ghost function FeeParts(fees: map<string, Fee>, cursor: Time, c: string): map<string, int> {
    map id | id in fees :: if fees[id].code == c && fees[id].createdTime > cursor then fees[id].amount else 0
  }

  /** The value of a token, over the four places it can be. */
  ghost function Total(w: World, c: string): int {
    Sum(BalanceParts(w.book.balances, c)) + Sum(EscrowParts(w.book.pendings, c)) +
    Sum(PayParts(w.book.pays, Cursors(w.book.balances), c)) + Sum(FeeParts(w.book.fees, FeeCursor(w, c), c))
  }

  function SupplyOf(w: World, c: string): int {
    if c in w.tokens then w.tokens[c].supply else 0
  }

  // ---- what one write does to each sum ----

  lemma BalancePut(balances: Balances, a: Address, doc: BalanceDoc, c: string)
    ensures Sum(BalanceParts(balances[a := doc], c)) == Sum(BalanceParts(balances, c)) +
            if a.code != c then 0 else if a in balances then doc.amount - balances[a].amount else doc.amount
  {
    assert BalanceParts(balances[a := doc], c) == BalanceParts(balances, c)[a := if a.code == c then doc.amount else 0];
    SumPut(BalanceParts(balances, c), a, if a.code == c then doc.amount else 0);
  }

  lemma EscrowPut(pendings: map<string, Pending>, id: string, p: Pending, c: string)
    requires id !in pendings
    ensures Sum(EscrowParts(pendings[id := p], c)) ==
            Sum(EscrowParts(pendings, c)) + if p.account.code == c then Held(p) else 0
  {
    var v := if p.account.code == c then Held(p) else 0;
    assert EscrowParts(pendings[id := p], c) == EscrowParts(pendings, c)[id := v];
    SumPut(EscrowParts(pendings, c), id, v);
  }

  lemma EscrowDrop(pendings: map<string, Pending>, id: string, c: string)
    requires id in pendings
    ensures Sum(EscrowParts(pendings - {id}, c)) ==
            Sum(EscrowParts(pendings, c)) - if pendings[id].account.code == c then Held(pendings[id]) else 0
  {
    assert EscrowParts(pendings - {id}, c) == EscrowParts(pendings, c) - {id};
    SumDrop(EscrowParts(pendings, c), id);
  }

  lemma PayPut(pays: map<string, Pay>, id: string, p: Pay, cursors: map<Address, Time>, c: string)
    requires id in pays ==> SamePay(pays[id], p)
    ensures Sum(PayParts(pays[id := p], cursors, c)) == Sum(PayParts(pays, cursors, c)) +
            if id !in pays && p.merchant.code == c && Live(p, cursors) then p.amount else 0
  {
    var v := if p.merchant.code == c && Live(p, cursors) then p.amount else 0;
    assert PayParts(pays[id := p], cursors, c) == PayParts(pays, cursors, c)[id := v];
    SumPut(PayParts(pays, cursors, c), id, v);
  }

  lemma FeePut(fees: map<string, Fee>, env: Env, payer: Address, amount: int, cursor: Time, c: string)
    requires env.recordId !in fees
    ensures Sum(FeeParts(CreateFee(fees, env, payer, amount), cursor, c)) == Sum(FeeParts(fees, cursor, c)) +
            if payer.code == c && env.ts > cursor then amount else 0
  {
    if amount != 0 {
      var v := if payer.code == c && env.ts > cursor then amount else 0;
      assert FeeParts(CreateFee(fees, env, payer, amount), cursor, c) == FeeParts(fees, cursor, c)[env.recordId := v];
      SumPut(FeeParts(fees, cursor, c), env.recordId, v);
    }
  }

  /** The unspent pays depend on the cursors only through what each cursor is. */
  lemma PaysSame(pays: map<string, Pay>, x: map<Address, Time>, y: map<Address, Time>, c: string)
    requires forall a :: At(x, a) == At(y, a)
    ensures PayParts(pays, x, c) == PayParts(pays, y, c)
  {
  }

  lemma CursorsSame(x: Balances, y: Balances)
    requires forall a :: a in y ==> y[a].lastPruned == if a in x then x[a].lastPruned else ""
    requires x.Keys <= y.Keys
    ensures forall a :: At(Cursors(x), a) == At(Cursors(y), a)
  {
    assert CursorOf("") == 0;
  }

  // ---- what a move loses ----

  /** The value of token c that a move takes out of the four places without a matching change of the
      supply: records filed at or below their cursor, records a prune's page end skips, and fees
      credited to an account of another token. */
  ghost function Lost(w: World, env: Env, m: Move, c: string): int
    requires Enabled(w, env, m)
  {
    match m
    case MTransfer(s, _, _, fee, _, _) => if s.code == c && env.ts <= FeeCursor(w, c) then fee else 0
    case MDeliver(cid, _) =>
      var p := w.book.pendings[w.contracts[cid].pbId];
      if p.account.code == c && env.ts <= FeeCursor(w, c) then OrZero(p.fee) else 0
    case MPay(_, merchant, amount, _, _, _) =>
      if merchant.code == c && env.ts <= PayCursor(w.book.balances, merchant) then amount else 0
    case MPayPending(cid, _) =>
      var doc := w.contracts[cid];
      if doc.receiver.code == c && env.ts <= PayCursor(w.book.balances, doc.receiver)
      then w.book.pendings[doc.pbId].amount else 0
    case MRefund(payId, amount, _) =>
      var merchant := w.book.pays[payId].merchant;
      if merchant.code == c && env.ts <= PayCursor(w.book.balances, merchant) then -amount else 0
    case MPayPrune(a, end) =>
      var rows := RowsOfPays(w, env, a, end);
      if a.code != c then 0
      else SumOver(PayAmounts(w.book.pays), LostRows(PayTimes(w.book.pays, a), rows)) +
           if env.ts <= FeeCursor(w, c) then PaySum(w.book.pays, rows).fee else 0
    case MFeePrune(code, end) =>
      var rows := RowsOfFees(w, env, code, end);
      var sum := FeeSum(w.book.fees, rows).sum;
      (if code == c then sum + SumOver(FeeAmounts(w.book.fees), LostRows(FeeTimes(w.book.fees, code), rows)) else 0)
      - (if w.tokens[code].policy.value.target.code == c then sum else 0)
    case _ => 0
  }

  /** While no cursor moves, records stay as unspent as they were. */
  lemma Steady(w: World, w': World, c: string)
    requires CursorsKept(w, w') && w.book.balances.Keys <= w'.book.balances.Keys
    ensures forall pays :: PayParts(pays, Cursors(w'.book.balances), c) == PayParts(pays, Cursors(w.book.balances), c)
    ensures FeeCursor(w', c) == FeeCursor(w, c)
    ensures forall a :: At(Cursors(w'.book.balances), a) == PayCursor(w.book.balances, a)
  {
    CursorsSame(w.book.balances, w'.book.balances);
    forall pays: map<string, Pay>
      ensures PayParts(pays, Cursors(w'.book.balances), c) == PayParts(pays, Cursors(w.book.balances), c)
    {
      PaysSame(pays, Cursors(w'.book.balances), Cursors(w.book.balances), c);
    }
  }

  /** The two halves of the transfer stub: the sender's copy is written last. */
  lemma SendDrift(w: World, env: Env, s: Address, r: Address, amount: int, fee: int, memo: string, pt: Option<Time>,
                  c: string)
    requires NewIds(w, env) && s in w.book.balances && r in w.book.balances && s.code == r.code && !TimeLocked(env, pt)
    ensures var w' := w.(book := Transferred(w.book, env, s, w.book.balances[s], r, w.book.balances[r], amount, fee,
                                             memo, pt));
            Total(w', c) == Total(w, c) - (if s.code == c && env.ts <= FeeCursor(w, c) then fee else 0)
                            - (if s == r && s.code == c then amount else 0)
  {
    var b := w.book;
    var w' := w.(book := Transferred(b, env, s, b.balances[s], r, b.balances[r], amount, fee, memo, pt));
    var s', r' := Plus(b.balances[s], -amount - fee), Plus(b.balances[r], amount);
    Steady(w, w', c);
    FeePut(b.fees, env, s, fee, FeeCursor(w, c), c);
    BalancePut(b.balances, r, r', c);
    BalancePut(b.balances[r := r'], s, s', c);
  }

  lemma LockDrift(w: World, env: Env, s: Address, r: Address, amount: int, fee: int, memo: string, pt: Option<Time>,
                  c: string)
    requires NewIds(w, env) && s in w.book.balances && r in w.book.balances && s.code == r.code && TimeLocked(env, pt)
    ensures var w' := w.(book := Transferred(w.book, env, s, w.book.balances[s], r, w.book.balances[r], amount, fee,
                                             memo, pt));
            Total(w', c) == Total(w, c) - (if s.code == c && env.ts <= FeeCursor(w, c) then fee else 0)
  {
    var b := w.book;
    var w' := w.(book := Transferred(b, env, s, b.balances[s], r, b.balances[r], amount, fee, memo, pt));
    Steady(w, w', c);
    FeePut(b.fees, env, s, fee, FeeCursor(w, c), c);
    BalancePut(b.balances, s, Plus(b.balances[s], -amount - fee), c);
    EscrowPut(b.pendings, env.txId, w'.book.pendings[env.txId], c);
  }

  /** The transfer stub on two copies of balances: what is lost is a fee filed too early, and, when both
      copies are of one account, the credit that the second write overwrites. */
  lemma StubTransferDrift(w: World, env: Env, s: Address, r: Address, amount: int, fee: int, memo: string,
                          pt: Option<Time>, c: string)
    requires NewIds(w, env) && s in w.book.balances && r in w.book.balances && s.code == r.code
    ensures var w' := w.(book := Transferred(w.book, env, s, w.book.balances[s], r, w.book.balances[r], amount, fee,
                                             memo, pt));
            Total(w', c) == Total(w, c) - (if s.code == c && env.ts <= FeeCursor(w, c) then fee else 0)
                            - (if s == r && !TimeLocked(env, pt) && s.code == c then amount else 0)
  {
    if TimeLocked(env, pt) {
      LockDrift(w, env, s, r, amount, fee, memo, pt, c);
    } else {
      SendDrift(w, env, s, r, amount, fee, memo, pt, c);
    }
  }

  lemma TransferDrift(w: World, env: Env, m: Move, c: string)
    requires m.MTransfer? && NewIds(w, env) && Enabled(w, env, m)
    ensures Total(Apply(w, env, m), c) == Total(w, c) - Lost(w, env, m, c)
  {
    StubTransferDrift(w, env, m.s, m.r, m.amount, m.fee, m.memo, m.pendingTime, c);
  }

  lemma DepositDrift(w: World, env: Env, m: Move, c: string)
    requires m.MDeposit? && NewIds(w, env) && Enabled(w, env, m)
    ensures Total(Apply(w, env, m), c) == Total(w, c)
  {
    FlowKeepsCursors(w, env, m);
    var w' := Apply(w, env, m);
    Steady(w, w', c);
    BalancePut(w.book.balances, m.s, w'.book.balances[m.s], c);
    EscrowPut(w.book.pendings, env.txId, w'.book.pendings[env.txId], c);
  }

  lemma ReleaseDrift(w: World, env: Env, m: Move, c: string)
    requires m.MRelease? && Enabled(w, env, m)
    ensures Total(Apply(w, env, m), c) == Total(w, c)
  {
    FlowKeepsCursors(w, env, m);
    var w' := Apply(w, env, m);
    Steady(w, w', c);
    var a := w.book.pendings[m.id].account;
    BalancePut(w.book.balances, a, w'.book.balances[a], c);
    EscrowDrop(w.book.pendings, m.id, c);
  }

  lemma DeliverDrift(w: World, env: Env, m: Move, c: string)
    requires m.MDeliver? && DocsOk(w) && NewIds(w, env) && Enabled(w, env, m)
    ensures Total(Apply(w, env, m), c) == Total(w, c) - Lost(w, env, m, c)
  {
    FlowKeepsCursors(w, env, m);
    var w', b, doc := Apply(w, env, m), w.book, w.contracts[m.cid];
    var p := b.pendings[doc.pbId];
    Steady(w, w', c);
    FeePut(b.fees, env, p.account, OrZero(p.fee), FeeCursor(w, c), c);
    if TimeLocked(env, m.pendingTime) {
      var q := Pending(doc.receiver, ToAccount(p.account), p.amount, None, p.memo, env.ts, m.pendingTime.value);
      EscrowPut(b.pendings, env.txId, q, c);
      EscrowDrop(b.pendings[env.txId := q], doc.pbId, c);
    } else {
      BalancePut(b.balances, doc.receiver, w'.book.balances[doc.receiver], c);
      EscrowDrop(b.pendings, doc.pbId, c);
    }
  }

  lemma PayDrift(w: World, env: Env, m: Move, c: string)
    requires m.MPay? && NewIds(w, env) && Enabled(w, env, m)
    ensures Total(Apply(w, env, m), c) == Total(w, c) - Lost(w, env, m, c)
  {
    RecordsKeepCursors(w, env, m);
    var w' := Apply(w, env, m);
    Steady(w, w', c);
    BalancePut(w.book.balances, m.s, w'.book.balances[m.s], c);
    PayPut(w.book.pays, env.recordId, w'.book.pays[env.recordId], Cursors(w'.book.balances), c);
  }

  lemma PayPendingDrift(w: World, env: Env, m: Move, c: string)
    requires m.MPayPending? && DocsOk(w) && NewIds(w, env) && Enabled(w, env, m)
    ensures Total(Apply(w, env, m), c) == Total(w, c) - Lost(w, env, m, c)
  {
    RecordsKeepCursors(w, env, m);
    var w' := Apply(w, env, m);
    Steady(w, w', c);
    EscrowDrop(w.book.pendings, w.contracts[m.cid].pbId, c);
    PayPut(w.book.pays, env.recordId, w'.book.pays[env.recordId], Cursors(w'.book.balances), c);
  }

  lemma RefundDrift(w: World, env: Env, m: Move, c: string)
    requires m.MRefund? && NewIds(w, env) && Enabled(w, env, m)
    ensures Total(Apply(w, env, m), c) == Total(w, c) - Lost(w, env, m, c)
  {
    RecordsKeepCursors(w, env, m);
    var w', parent := Apply(w, env, m), w.book.pays[m.payId];
    Steady(w, w', c);
    BalancePut(w.book.balances, parent.rid, w'.book.balances[parent.rid], c);
    var refund := w'.book.pays[env.recordId];
    PayPut(w.book.pays, env.recordId, refund, Cursors(w'.book.balances), c);
    PayPut(w.book.pays[env.recordId := refund], m.payId, w'.book.pays[m.payId], Cursors(w'.book.balances), c);
  }

  /** What a cursor passes over is what becomes spent. */
  lemma PaysPassed(pays: map<string, Pay>, x: map<Address, Time>, y: map<Address, Time>, a: Address, gone: seq<string>)
    requires forall b :: b != a ==> At(y, b) == At(x, b)
    requires At(x, a) <= At(y, a)
    requires forall id :: id in gone ==> id in PayTimes(pays, a)
    requires forall id :: id in PayTimes(pays, a) ==> (id in gone <==> At(x, a) < PayTimes(pays, a)[id] <= At(y, a))
    ensures PayParts(pays, y, a.code) == ZeroOut(PayParts(pays, x, a.code), gone)
  {
  }

  /** Moving a merchant's cursor to the page's end takes the page and the lost rows out of the unspent pays. */
  lemma PaysPruned(pays: map<string, Pay>, x: map<Address, Time>, y: map<Address, Time>, a: Address, end: Time,
                   rows: seq<string>)
    requires Answers(PayTimes(pays, a), At(x, a), end, rows) && rows != [] && PageEnd(rows) in PayTimes(pays, a)
    requires At(y, a) == PayTimes(pays, a)[PageEnd(rows)]
    requires forall b :: b != a ==> At(y, b) == At(x, b)
    ensures Sum(PayParts(pays, y, a.code)) == Sum(PayParts(pays, x, a.code)) - SumOver(PayAmounts(pays), Page(rows))
                                              - SumOver(PayAmounts(pays), LostRows(PayTimes(pays, a), rows))
  {
    var times := PayTimes(pays, a);
    var parts, gone := PayParts(pays, x, a.code), Page(rows) + LostRows(times, rows);
    ReachSplitsWindow(times, At(x, a), end, rows);
    assert forall id :: id in gone ==> id in rows;
    PaysPassed(pays, x, y, a, gone);
    SumZeroOut(parts, gone);
    SumOverSame(parts, PayAmounts(pays), gone);
    SumOverAppend(PayAmounts(pays), Page(rows), LostRows(times, rows));
  }

  lemma PaysOfOthers(pays: map<string, Pay>, x: map<Address, Time>, y: map<Address, Time>, a: Address, c: string)
    requires a.code != c
    requires forall b :: b != a ==> At(y, b) == At(x, b)
    ensures PayParts(pays, y, c) == PayParts(pays, x, c)
  {
  }

  lemma FeesPruned(fees: map<string, Fee>, start: Time, code: string, end: Time, rows: seq<string>)
    requires Answers(FeeTimes(fees, code), start, end, rows) && rows != [] && PageEnd(rows) in FeeTimes(fees, code)
    ensures Sum(FeeParts(fees, FeeTimes(fees, code)[PageEnd(rows)], code)) ==
            Sum(FeeParts(fees, start, code)) - SumOver(FeeAmounts(fees), Page(rows))
            - SumOver(FeeAmounts(fees), LostRows(FeeTimes(fees, code), rows))
  {
    var times := FeeTimes(fees, code);
    var parts, gone := FeeParts(fees, start, code), Page(rows) + LostRows(times, rows);
    ReachSplitsWindow(times, start, end, rows);
    assert forall id :: id in gone ==> id in rows;
    assert FeeParts(fees, times[PageEnd(rows)], code) == ZeroOut(parts, gone);
    SumZeroOut(parts, gone);
    SumOverSame(parts, FeeAmounts(fees), gone);
    SumOverAppend(FeeAmounts(fees), Page(rows), LostRows(times, rows));
  }

  /** What a pay prune takes out of the unspent pays. */
  lemma PayPruneSpends(w: World, env: Env, m: Move, c: string)
    requires m.MPayPrune? && IdsOk(w) && Enabled(w, env, m) && Faithful(env.query)
    ensures var pays, rows := w.book.pays, RowsOfPays(w, env, m.a, m.end);
            Sum(PayParts(pays, Cursors(Apply(w, env, m).book.balances), c)) ==
            Sum(PayParts(pays, Cursors(w.book.balances), c)) -
              if m.a.code != c then 0
              else SumOver(PayAmounts(pays), Page(rows)) +
                   SumOver(PayAmounts(pays), LostRows(PayTimes(pays, m.a), rows))
  {
    var w', rows := Apply(w, env, m), RowsOfPays(w, env, m.a, m.end);
    var x, y := Cursors(w.book.balances), Cursors(w'.book.balances);
    PayPruneCursor(w, env, m.a, m.end);
    StampedCursor(PageEnd(rows), w.book.pays[PageEnd(rows)].createdTime, w.txs);
    assert forall b :: b != m.a ==> At(y, b) == At(x, b);
    if m.a.code == c {
      PaysPruned(w.book.pays, x, y, m.a, m.end, rows);
    } else {
      PaysOfOthers(w.book.pays, x, y, m.a, c);
    }
  }

  /** A prune that credits sum less fee, files the fee, and takes sum and lost out of the unspent pays. */
  lemma PrunedTotal(w: World, w': World, env: Env, a: Address, doc: BalanceDoc, sum: int, fee: int, lost: int,
                    c: string)
    requires NewIds(w, env) && a in w.book.balances && doc.amount == w.book.balances[a].amount + sum - fee
    requires w'.book.balances == w.book.balances[a := doc] && w'.book.pendings == w.book.pendings
    requires w'.book.fees == CreateFee(w.book.fees, env, a, fee) && FeeCursor(w', c) == FeeCursor(w, c)
    requires Sum(PayParts(w'.book.pays, Cursors(w'.book.balances), c)) ==
             Sum(PayParts(w.book.pays, Cursors(w.book.balances), c)) - if a.code != c then 0 else sum + lost
    ensures Total(w', c) == Total(w, c) - if a.code != c then 0 else lost + if env.ts <= FeeCursor(w, c) then fee else 0
  {
    BalancePut(w.book.balances, a, doc, c);
    FeePut(w.book.fees, env, a, fee, FeeCursor(w, c), c);
  }

  lemma PayPruneDrift(w: World, env: Env, m: Move, c: string)
    requires m.MPayPrune? && IdsOk(w) && NewIds(w, env) && Enabled(w, env, m) && Faithful(env.query)
    ensures Total(Apply(w, env, m), c) == Total(w, c) - Lost(w, env, m, c)
  {
    var w', rows := Apply(w, env, m), RowsOfPays(w, env, m.a, m.end);
    var s := PaySum(w.book.pays, rows);
    PayPruneSpends(w, env, m, c);
    PrunedTotal(w, w', env, m.a, w'.book.balances[m.a], s.sum, s.fee,
                SumOver(PayAmounts(w.book.pays), LostRows(PayTimes(w.book.pays, m.a), rows)), c);
  }

  lemma FeePruneDrift(w: World, env: Env, m: Move, c: string)
    requires m.MFeePrune? && IdsOk(w) && NewIds(w, env) && Enabled(w, env, m) && Faithful(env.query)
    ensures Total(Apply(w, env, m), c) == Total(w, c) - Lost(w, env, m, c)
  {
    var w', rows := Apply(w, env, m), RowsOfFees(w, env, m.code, m.end);
    FeePruneCursor(w, env, m.code, m.end);
    StampedCursor(PageEnd(rows), w.book.fees[PageEnd(rows)].createdTime, w.txs);
    var target := w.tokens[m.code].policy.value.target;
    CursorsSame(w.book.balances, w'.book.balances);
    PaysSame(w.book.pays, Cursors(w'.book.balances), Cursors(w.book.balances), c);
    BalancePut(w.book.balances, target, w'.book.balances[target], c);
    if m.code == c {
      FeesPruned(w.book.fees, FeeCursor(w, c), c, m.end, rows);
    }
  }

  // ---- tokens and accounts ----

  lemma IssueDrift(w: World, env: Env, m: Move, c: string)
    requires m.MIssue? && RegistryOk(w) && Enabled(w, env, m)
    ensures Total(Apply(w, env, m), c) - SupplyOf(Apply(w, env, m), c) == Total(w, c) - SupplyOf(w, c)
  {
    var w', g := Apply(w, env, m), Address(m.code, Joint, env.jointId);
    IssueWrites(w, env, m.code, m.meta, m.holders);
    IssueKeepsCursors(w, env, m.code, m.meta, m.holders);
    Steady(w, w', c);
    BalancePut(w.book.balances, g, BalanceDoc(m.meta.supply, ""), c);
  }

  lemma SupplyDrift(w: World, env: Env, m: Move, c: string)
    requires (m.MMint? || m.MBurn?) && RegistryOk(w) && TokensOk(w) && Enabled(w, env, m)
    ensures Total(Apply(w, env, m), c) - SupplyOf(Apply(w, env, m), c) == Total(w, c) - SupplyOf(w, c)
  {
    OfficeKeepsCursors(w, env, m);
    var w', g := Apply(w, env, m), w.tokens[m.code].genesis;
    Steady(w, w', c);
    BalancePut(w.book.balances, g, w'.book.balances[g], c);
  }

  lemma OfficeDrift(w: World, env: Env, m: Move, c: string)
    requires RegistryOk(w) && Enabled(w, env, m) && GroupOf(m) == Office && !m.MIssue? && !m.MMint? && !m.MBurn?
    ensures Total(Apply(w, env, m), c) == Total(w, c) && SupplyOf(Apply(w, env, m), c) == SupplyOf(w, c)
  {
    OfficeKeepsCursors(w, env, m);
    var w' := Apply(w, env, m);
    Steady(w, w', c);
    if m.MOpen? { BalancePut(w.book.balances, m.a, BalanceDoc(0, ""), c); }
  }

  lemma FlowDrift(w: World, env: Env, m: Move, c: string)
    requires DocsOk(w) && NewIds(w, env) && Enabled(w, env, m) && GroupOf(m) == Flow
    ensures Total(Apply(w, env, m), c) == Total(w, c) - Lost(w, env, m, c) && Apply(w, env, m).tokens == w.tokens
  {
    match m
    case MTransfer(_, _, _, _, _, _) => TransferDrift(w, env, m, c);
    case MDeposit(_, _, _, _, _, _) => DepositDrift(w, env, m, c);
    case MRelease(_) => ReleaseDrift(w, env, m, c);
    case MDeliver(_, _) => DeliverDrift(w, env, m, c);
  }

  lemma RecordsDrift(w: World, env: Env, m: Move, c: string)
    requires IdsOk(w) && DocsOk(w) && NewIds(w, env) && Enabled(w, env, m) && GroupOf(m) == Records &&
             Faithful(env.query)
    ensures Total(Apply(w, env, m), c) == Total(w, c) - Lost(w, env, m, c) &&
            SupplyOf(Apply(w, env, m), c) == SupplyOf(w, c)
  {
    match m
    case MPay(_, _, _, _, _, _) => PayDrift(w, env, m, c);
    case MPayPending(_, _) => PayPendingDrift(w, env, m, c);
    case MRefund(_, _, _) => RefundDrift(w, env, m, c);
    case MPayPrune(_, _) => PayPruneDrift(w, env, m, c);
    case MFeePrune(_, _) => FeePruneDrift(w, env, m, c);
  }

  /** Exact accounting: every move changes the difference between a token's value and its supply by
      exactly what the move loses. */
  lemma MoveDrift(w: World, env: Env, m: Move, c: string)
    requires Inv(w) && NewIds(w, env) && Enabled(w, env, m) && Faithful(env.query)
    ensures Total(Apply(w, env, m), c) - SupplyOf(Apply(w, env, m), c) ==
            Total(w, c) - SupplyOf(w, c) - Lost(w, env, m, c)
  {
    if GroupOf(m) == Flow {
      FlowDrift(w, env, m, c);
    } else if GroupOf(m) == Records {
      RecordsDrift(w, env, m, c);
    } else if m.MIssue? {
      IssueDrift(w, env, m, c);
    } else if m.MMint? || m.MBurn? {
      SupplyDrift(w, env, m, c);
    } else {
      OfficeDrift(w, env, m, c);
    }
  }

  // ---- when nothing is lost ----

  /** The prune's page does not end between two records of one time. */
  predicate PageClean(w: World, env: Env, m: Move) {
    match m
    case MPayPrune(a, end) => CleanBoundary(PayTimes(w.book.pays, a), RowsOfPays(w, env, a, end))
    case MFeePrune(code, end) => CleanBoundary(FeeTimes(w.book.fees, code), RowsOfFees(w, env, code, end))
    case _ => true
  }

  /** What a caller can check beforehand: the record that is about to be filed is later than the cursor
      it falls under (or is worth nothing), and fees go to an account of their own token. */
  predicate Lands(w: World, env: Env, m: Move)
    requires Enabled(w, env, m)
  {
    match m
    case MTransfer(s, _, _, fee, _, _) => fee == 0 || env.ts > FeeCursor(w, s.code)
    case MDeliver(cid, _) =>
      var p := w.book.pendings[w.contracts[cid].pbId];
      OrZero(p.fee) == 0 || env.ts > FeeCursor(w, p.account.code)
    case MPay(_, merchant, _, _, _, _) => env.ts > PayCursor(w.book.balances, merchant)
    case MPayPending(cid, _) =>
      var doc := w.contracts[cid];
      w.book.pendings[doc.pbId].amount == 0 || env.ts > PayCursor(w.book.balances, doc.receiver)
    case MRefund(payId, _, _) => env.ts > PayCursor(w.book.balances, w.book.pays[payId].merchant)
    case MPayPrune(a, end) =>
      PaySum(w.book.pays, RowsOfPays(w, env, a, end)).fee == 0 || env.ts > FeeCursor(w, a.code)
    case MFeePrune(code, end) =>
      w.tokens[code].policy.value.target.code == code || FeeSum(w.book.fees, RowsOfFees(w, env, code, end)).sum == 0
    case _ => true
  }

  lemma CleanLosesNoRows(w: World, env: Env, m: Move)
    requires Enabled(w, env, m) && PageClean(w, env, m) && Faithful(env.query)
    ensures m.MPayPrune? ==> LostRows(PayTimes(w.book.pays, m.a), RowsOfPays(w, env, m.a, m.end)) == []
    ensures m.MFeePrune? ==> LostRows(FeeTimes(w.book.fees, m.code), RowsOfFees(w, env, m.code, m.end)) == []
  {
    if m.MPayPrune? {
      assert Answers(PayTimes(w.book.pays, m.a), PayCursor(w.book.balances, m.a), m.end,
                     RowsOfPays(w, env, m.a, m.end));
      ReachSplitsWindow(PayTimes(w.book.pays, m.a), PayCursor(w.book.balances, m.a), m.end,
                        RowsOfPays(w, env, m.a, m.end));
    } else if m.MFeePrune? {
      assert Answers(FeeTimes(w.book.fees, m.code), FeeCursor(w, m.code), m.end, RowsOfFees(w, env, m.code, m.end));
      ReachSplitsWindow(FeeTimes(w.book.fees, m.code), FeeCursor(w, m.code), m.end, RowsOfFees(w, env, m.code, m.end));
    }
  }

  /** Where the value of each loss is booked. */
  function LossToken(w: World, m: Move): string
    requires m.MFeePrune? ==> m.code in w.tokens
    requires m.MDeliver? || m.MPayPending? ==>
               m.cid in w.contracts && (w.contracts[m.cid].TransferDoc? || w.contracts[m.cid].PayDoc?) &&
               w.contracts[m.cid].pbId in w.book.pendings
    requires m.MRefund? ==> m.payId in w.book.pays
  {
    match m
    case MTransfer(s, _, _, _, _, _) => s.code
    case MDeliver(cid, _) => w.book.pendings[w.contracts[cid].pbId].account.code
    case MPay(_, merchant, _, _, _, _) => merchant.code
    case MPayPending(cid, _) => w.contracts[cid].receiver.code
    case MRefund(payId, _, _) => w.book.pays[payId].merchant.code
    case MPayPrune(a, _) => a.code
    case MFeePrune(code, _) => code
    case _ => ""
  }

  /** Away from page ends, a move conserves every token exactly when its record lands. */
  lemma ConservesIff(w: World, env: Env, m: Move)
    requires Inv(w) && NewIds(w, env) && Enabled(w, env, m) && Faithful(env.query) && PageClean(w, env, m)
    ensures (forall c :: Total(Apply(w, env, m), c) - SupplyOf(Apply(w, env, m), c) ==
               Total(w, c) - SupplyOf(w, c)) <==>
            Lands(w, env, m)
  {
    forall c
      ensures Total(Apply(w, env, m), c) - SupplyOf(Apply(w, env, m), c) ==
              Total(w, c) - SupplyOf(w, c) - Lost(w, env, m, c)
    {
      MoveDrift(w, env, m, c);
    }
    LandsIffNothingLost(w, env, m);
  }

  lemma LandsIffNothingLost(w: World, env: Env, m: Move)
    requires Enabled(w, env, m) && Faithful(env.query) && PageClean(w, env, m)
    ensures (forall c :: Lost(w, env, m, c) == 0) <==> Lands(w, env, m)
  {
    CleanLosesNoRows(w, env, m);
    var c := LossToken(w, m);
    if !Lands(w, env, m) {
      assert Lost(w, env, m, c) != 0;
    }
  }

  /** The transfer stub works on two copies of balances and writes both back, the sender's last. It
      conserves value exactly when the copies are of different accounts (or nothing is credited now):
      on one account the credit is overwritten and the amount is gone. */
  lemma TransferNeedsTwoAccounts(w: World, env: Env, s: Address, r: Address, amount: int, fee: int, memo: string,
                                 pt: Option<Time>)
    requires NewIds(w, env) && s in w.book.balances && r in w.book.balances && s.code == r.code
    requires fee == 0 || env.ts > FeeCursor(w, s.code)
    ensures var w' := w.(book := Transferred(w.book, env, s, w.book.balances[s], r, w.book.balances[r], amount, fee,
                                             memo, pt));
            (forall c :: Total(w', c) == Total(w, c)) <==> s != r || TimeLocked(env, pt) || amount == 0
  {
    var w' := w.(book := Transferred(w.book, env, s, w.book.balances[s], r, w.book.balances[r], amount, fee, memo, pt));
    forall c
      ensures Total(w', c) == Total(w, c) - if s == r && !TimeLocked(env, pt) && s.code == c then amount else 0
    {
      StubTransferDrift(w, env, s, r, amount, fee, memo, pt, c);
    }
    assert Total(w', s.code) == Total(w, s.code) - if s == r && !TimeLocked(env, pt) then amount else 0;
  }
}
