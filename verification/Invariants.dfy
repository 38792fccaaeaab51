// What every transaction keeps: how records are stamped, what cursors and contract documents refer
// to, the accounts behind tokens, the holder index, and the supply bound.
module Invariants {
  import opened Basics
  import opened Stamps
  import opened World
  import opened Stubs
  import opened Transactions
  import opened Paging
  import opened Fees
  import opened Moves

  /** The state database answers every query as the index promises. */
  ghost predicate Faithful(query: Query) {
    forall times: map<string, Time>, start: Time, end: Time :: Answers(times, start, end, query(times, start, end))
  }

  ghost function AnAnswer(times: map<string, Time>, start: Time, end: Time): (rows: seq<string>)
    ensures Answers(times, start, end, rows)
  {
    AnswerIsThere(times, start, end);
    var rows :| Answers(times, start, end, rows);
    rows
  }

  lemma AnswerIsThere(times: map<string, Time>, start: Time, end: Time)
    ensures exists rows :: Answers(times, start, end, rows)
  {
    var rows := AnswerExists(times, start, end);
  }

  /** Such a database is possible. */
  lemma FaithfulExists() returns (query: Query)
    ensures Faithful(query)
  {
    query := (times, start, end) => AnAnswer(times, start, end);
  }

  /** What the platform grants a transaction: a new transaction id, a time the id format can hold, a new
      contract id, and a faithful database. */
  ghost predicate Admitted(w: World, env: Env) {
    && env.txId !in w.txs
    && Stampable(env.ts) && env.recordId == NewId(env.ts, env.txId)
    && (env.contract.Some? ==> env.contract.value.cid !in w.contracts)
    && Faithful(env.query)
  }

  // ---- record ids and cursors ----

  predicate Stamped(id: string, t: Time, txs: set<string>) {
    Stampable(t) && |id| >= 19 && id[..19] == Decimal(t) && id[19..] in txs
  }

  ghost predicate IdsOk(w: World) {
    && (forall id :: id in w.book.pays ==> Stamped(id, w.book.pays[id].createdTime, w.txs))
    && (forall id :: id in w.book.fees ==> Stamped(id, w.book.fees[id].createdTime, w.txs))
    && (forall id :: id in w.book.pendings ==> id in w.txs)
  }

  lemma StampedCursor(id: string, t: Time, txs: set<string>)
    requires Stamped(id, t, txs)
    ensures CursorTime(id) == Some(t) && CursorOf(id) == t && id != ""
  {
    CursorRoundTrip(t, id[19..]);
    assert id == NewId(t, id[19..]);
  }

  lemma RecordIdStamped(w: World, env: Env)
    requires Stampable(env.ts) && env.recordId == NewId(env.ts, env.txId)
    ensures Stamped(env.recordId, env.ts, w.txs + {env.txId})
    ensures IdsOk(w) && env.txId !in w.txs ==>
              env.recordId !in w.book.pays && env.recordId !in w.book.fees && env.txId !in w.book.pendings
  {
    CursorRoundTrip(env.ts, env.txId);
  }

  /** A pay record never changes but for its running refund total. */
  predicate SamePay(p: Pay, q: Pay) {
    q == p.(totalRefund := q.totalRefund)
  }

  /** How any transaction may change the book: pays and fees are only added, under the new record id
      and at the present time; the only escrow added is the transaction's own; escrows never change;
      no balance disappears. */
  ghost predicate BookGrows(b: Book, env: Env, b': Book) {
    && (forall id :: id in b.pays ==> id in b'.pays && SamePay(b.pays[id], b'.pays[id]))
    && (forall id :: id in b'.pays && id !in b.pays ==> id == env.recordId && b'.pays[id].createdTime == env.ts)
    && (forall id :: id in b.fees ==> id in b'.fees && b'.fees[id] == b.fees[id])
    && (forall id :: id in b'.fees && id !in b.fees ==> id == env.recordId && b'.fees[id].createdTime == env.ts)
    && (forall id :: id in b'.pendings ==> id == env.txId || (id in b.pendings && b'.pendings[id] == b.pendings[id]))
    && b.balances.Keys <= b'.balances.Keys
  }

  /** Contract documents, accounts and tokens stay. */
  ghost predicate Grows(w: World, env: Env, w': World) {
    && BookGrows(w.book, env, w'.book)
    && (forall cid :: cid in w.contracts ==> cid in w'.contracts && w'.contracts[cid] == w.contracts[cid])
    && w.registry.accounts.Keys <= w'.registry.accounts.Keys
    && w.tokens.Keys <= w'.tokens.Keys
  }

  /** The freshness that a new transaction id brings. */
  ghost predicate NewIds(w: World, env: Env) {
    && env.recordId !in w.book.pays
    && env.recordId !in w.book.fees
    && env.txId !in w.book.pendings
    && (env.contract.Some? ==> env.contract.value.cid !in w.contracts)
  }

  lemma TransferGrows(w: World, env: Env, m: Move)
    requires NewIds(w, env) && Enabled(w, env, m) && m.MTransfer?
    ensures Grows(w, env, Apply(w, env, m))
  {
  }

  lemma DeliverGrows(w: World, env: Env, m: Move)
    requires NewIds(w, env) && Enabled(w, env, m) && m.MDeliver?
    ensures Grows(w, env, Apply(w, env, m))
  {
  }

  lemma DepositGrows(w: World, env: Env, m: Move)
    requires NewIds(w, env) && Enabled(w, env, m) && (m.MDeposit? || m.MRelease?)
    ensures Grows(w, env, Apply(w, env, m))
  {
  }

  lemma PaysGrow(w: World, env: Env, m: Move)
    requires NewIds(w, env) && Enabled(w, env, m) && (m.MPay? || m.MPayPending? || m.MRefund?)
    ensures Grows(w, env, Apply(w, env, m))
  {
  }

  lemma PruneGrows(w: World, env: Env, m: Move)
    requires NewIds(w, env) && Enabled(w, env, m) && (m.MPayPrune? || m.MFeePrune?)
    ensures Grows(w, env, Apply(w, env, m))
  {
  }

  lemma SupplyGrows(w: World, env: Env, m: Move)
    requires NewIds(w, env) && Enabled(w, env, m) && (m.MMint? || m.MBurn? || m.MIssue?)
    ensures Grows(w, env, Apply(w, env, m))
  {
  }

  lemma OfficeGrows(w: World, env: Env, m: Move)
    requires NewIds(w, env) && Enabled(w, env, m) && GroupOf(m) == Office && !m.MMint? && !m.MBurn? && !m.MIssue?
    ensures Grows(w, env, Apply(w, env, m))
  {
  }

  lemma MoveGrows(w: World, env: Env, m: Move)
    requires NewIds(w, env) && Enabled(w, env, m)
    ensures Grows(w, env, Apply(w, env, m))
  {
    match GroupOf(m)
    case Flow =>
      if m.MTransfer? { TransferGrows(w, env, m); }
      else if m.MDeliver? { DeliverGrows(w, env, m); }
      else { DepositGrows(w, env, m); }
    case Records => if m.MPayPrune? || m.MFeePrune? { PruneGrows(w, env, m); } else { PaysGrow(w, env, m); }
    case Office => if m.MMint? || m.MBurn? || m.MIssue? { SupplyGrows(w, env, m); } else { OfficeGrows(w, env, m); }
  }

  lemma IdsMove(w: World, env: Env, w': World)
    requires IdsOk(w) && Admitted(w, env) && Grows(w, env, w')
    ensures IdsOk(w'.(txs := w.txs + {env.txId}))
  {
    RecordIdStamped(w, env);
  }

  // ---- cursors ----

  /** A prune cursor is empty or the id of one of the records it prunes. */
  ghost predicate CursorsOk(w: World) {
    && (forall a :: a in w.book.balances ==>
          var id := w.book.balances[a].lastPruned;
          id == "" || (id in w.book.pays && w.book.pays[id].merchant == a))
    && (forall c :: var id := FeeCursorId(w.tokens, w.book.lastFee, c);
          id == "" || (id in w.book.fees && w.book.fees[id].code == c))
  }

  /** The prune cursors are where they were. */
  ghost predicate CursorsKept(w: World, w': World) {
    && (forall a :: a in w'.book.balances ==>
          w'.book.balances[a].lastPruned == if a in w.book.balances then w.book.balances[a].lastPruned else "")
    && (forall c :: FeeCursorId(w'.tokens, w'.book.lastFee, c) == FeeCursorId(w.tokens, w.book.lastFee, c))
  }

  lemma FlowKeepsCursors(w: World, env: Env, m: Move)
    requires Enabled(w, env, m) && GroupOf(m) == Flow
    ensures CursorsKept(w, Apply(w, env, m))
  {
  }

  /** What issuing a token writes. */
  lemma IssueWrites(w: World, env: Env, code: string, meta: Meta, holders: set<Kid>)
    requires RegistryOk(w) && ValidMeta(meta) && CreateToken(w, env, code, meta, holders).Ok?
    ensures var w' := CreateToken(w, env, code, meta, holders).value;
            var g := Address(code, Joint, env.jointId);
            g !in w.book.balances && w'.book.balances == w.book.balances[g := BalanceDoc(meta.supply, "")] &&
            w'.book.lastFee == w.book.lastFee && w'.book.pays == w.book.pays && w'.book.fees == w.book.fees &&
            w'.book.pendings == w.book.pendings && w'.contracts == w.contracts &&
            code in w'.tokens && w'.tokens == w.tokens[code := w'.tokens[code]] &&
            w'.tokens[code].lastPrunedFee == "" && w'.tokens[code].supply == meta.supply &&
            w'.tokens[code].maxSupply == meta.maxSupply && w'.tokens[code].genesis == g &&
            w'.registry == OpenAccount(w, g, JointAccount(holders), holders).registry
  {
    var w' := CreateToken(w, env, code, meta, holders).value;
    var g := Address(code, Joint, env.jointId);
    assert w'.book.balances == w.book.balances[g := BalanceDoc(0, "")][g := BalanceDoc(meta.supply, "")];
  }

  lemma IssueKeepsCursors(w: World, env: Env, code: string, meta: Meta, holders: set<Kid>)
    requires RegistryOk(w) && code !in w.tokens && ValidMeta(meta) && CreateToken(w, env, code, meta, holders).Ok?
    ensures CursorsKept(w, CreateToken(w, env, code, meta, holders).value)
  {
    IssueWrites(w, env, code, meta, holders);
  }

  lemma OfficeKeepsCursors(w: World, env: Env, m: Move)
    requires RegistryOk(w) && Enabled(w, env, m) && GroupOf(m) == Office && !m.MIssue?
    ensures CursorsKept(w, Apply(w, env, m))
  {
  }

  lemma RecordsKeepCursors(w: World, env: Env, m: Move)
    requires Enabled(w, env, m) && GroupOf(m) == Records && !m.MPayPrune? && !m.MFeePrune?
    ensures CursorsKept(w, Apply(w, env, m))
  {
  }

  /** Only the two prunes move a cursor. */
  lemma OnlyPrunesMoveCursors(w: World, env: Env, m: Move)
    requires RegistryOk(w) && Enabled(w, env, m) && !m.MPayPrune? && !m.MFeePrune?
    ensures CursorsKept(w, Apply(w, env, m))
  {
    match GroupOf(m)
    case Flow => FlowKeepsCursors(w, env, m);
    case Records => RecordsKeepCursors(w, env, m);
    case Office =>
      if m.MIssue? { IssueKeepsCursors(w, env, m.code, m.meta, m.holders); } else { OfficeKeepsCursors(w, env, m); }
  }

  /** A pay prune moves its account's cursor to the page's end, and no other. */
  lemma PayPruneCursor(w: World, env: Env, a: Address, end: Time)
    requires Enabled(w, env, MPayPrune(a, end)) && Faithful(env.query) && IdsOk(w)
    ensures var rows := RowsOfPays(w, env, a, end);
            Answers(PayTimes(w.book.pays, a), PayCursor(w.book.balances, a), end, rows) &&
            PageEnd(rows) in PayTimes(w.book.pays, a)
    ensures var w' := Apply(w, env, MPayPrune(a, end));
            w'.book.balances.Keys == w.book.balances.Keys && w'.book.lastFee == w.book.lastFee &&
            w'.tokens == w.tokens &&
            forall b :: b in w.book.balances ==>
              w'.book.balances[b].lastPruned ==
              if b == a then PageEnd(RowsOfPays(w, env, a, end)) else w.book.balances[b].lastPruned
  {
    var rows := RowsOfPays(w, env, a, end);
    assert Answers(PayTimes(w.book.pays, a), PayCursor(w.book.balances, a), end, rows);
    PageIsConsumed(PayTimes(w.book.pays, a), PayCursor(w.book.balances, a), end, rows);
    StampedCursor(PageEnd(rows), w.book.pays[PageEnd(rows)].createdTime, w.txs);
  }

  /** A fee prune moves its token's cursor to the page's end, and no other, migrated or not. */
  lemma FeePruneCursor(w: World, env: Env, code: string, end: Time)
    requires Enabled(w, env, MFeePrune(code, end)) && Faithful(env.query)
    ensures var rows := RowsOfFees(w, env, code, end);
            Answers(FeeTimes(w.book.fees, code), FeeCursor(w, code), end, rows) &&
            PageEnd(rows) in FeeTimes(w.book.fees, code)
    ensures var w' := Apply(w, env, MFeePrune(code, end));
            w'.book.balances.Keys == w.book.balances.Keys &&
            (forall b :: b in w.book.balances ==> w'.book.balances[b].lastPruned == w.book.balances[b].lastPruned) &&
            (forall c :: FeeCursorId(w'.tokens, w'.book.lastFee, c) ==
                         if c == code then PageEnd(RowsOfFees(w, env, code, end))
                         else FeeCursorId(w.tokens, w.book.lastFee, c))
  {
    var rows := RowsOfFees(w, env, code, end);
    assert Answers(FeeTimes(w.book.fees, code), FeeCursor(w, code), end, rows);
    PageIsConsumed(FeeTimes(w.book.fees, code), FeeCursor(w, code), end, rows);
  }

  /** In times: a pay prune moves its account's cursor strictly forward, to its page's end, and no other cursor. */
  lemma PayPruneTimes(w: World, env: Env, a: Address, end: Time)
    requires Enabled(w, env, MPayPrune(a, end)) && Faithful(env.query) && IdsOk(w)
    ensures var w', times, last := Apply(w, env, MPayPrune(a, end)), PayTimes(w.book.pays, a),
                                   PageEnd(RowsOfPays(w, env, a, end));
            last in times && PayCursor(w.book.balances, a) < times[last] <= end &&
            (forall b :: PayCursor(w'.book.balances, b) ==
               if b == a then times[last] else PayCursor(w.book.balances, b)) &&
            (forall c :: FeeCursor(w', c) == FeeCursor(w, c))
  {
    var rows := RowsOfPays(w, env, a, end);
    PayPruneCursor(w, env, a, end);
    PageIsConsumed(PayTimes(w.book.pays, a), PayCursor(w.book.balances, a), end, rows);
    StampedCursor(PageEnd(rows), w.book.pays[PageEnd(rows)].createdTime, w.txs);
  }

  lemma FeePruneTimes(w: World, env: Env, code: string, end: Time)
    requires Enabled(w, env, MFeePrune(code, end)) && Faithful(env.query) && IdsOk(w)
    ensures var w', times, last := Apply(w, env, MFeePrune(code, end)), FeeTimes(w.book.fees, code),
                                   PageEnd(RowsOfFees(w, env, code, end));
            last in times && FeeCursor(w, code) < times[last] <= end &&
            (forall b :: PayCursor(w'.book.balances, b) == PayCursor(w.book.balances, b)) &&
            (forall c :: FeeCursor(w', c) == if c == code then times[last] else FeeCursor(w, c))
  {
    var rows := RowsOfFees(w, env, code, end);
    FeePruneCursor(w, env, code, end);
    PageIsConsumed(FeeTimes(w.book.fees, code), FeeCursor(w, code), end, rows);
    StampedCursor(PageEnd(rows), w.book.fees[PageEnd(rows)].createdTime, w.txs);
  }

  lemma KeptCursorsOk(w: World, env: Env, w': World)
    requires CursorsOk(w) && Grows(w, env, w') && CursorsKept(w, w')
    ensures CursorsOk(w')
  {
  }

  lemma PayPruneCursorsOk(w: World, env: Env, a: Address, end: Time)
    requires CursorsOk(w) && IdsOk(w) && Enabled(w, env, MPayPrune(a, end)) && Faithful(env.query)
    requires Grows(w, env, Apply(w, env, MPayPrune(a, end)))
    ensures CursorsOk(Apply(w, env, MPayPrune(a, end)))
  {
    PayPruneCursor(w, env, a, end);
  }

  lemma FeePruneCursorsOk(w: World, env: Env, code: string, end: Time)
    requires CursorsOk(w) && Enabled(w, env, MFeePrune(code, end)) && Faithful(env.query)
    requires Grows(w, env, Apply(w, env, MFeePrune(code, end)))
    ensures CursorsOk(Apply(w, env, MFeePrune(code, end)))
  {
    FeePruneCursor(w, env, code, end);
  }

  lemma CursorsMove(w: World, env: Env, m: Move)
    requires IdsOk(w) && CursorsOk(w) && RegistryOk(w) && NewIds(w, env) && Enabled(w, env, m) && Faithful(env.query)
    ensures CursorsOk(Apply(w, env, m))
  {
    MoveGrows(w, env, m);
    if m.MPayPrune? {
      PayPruneCursorsOk(w, env, m.a, m.end);
    } else if m.MFeePrune? {
      FeePruneCursorsOk(w, env, m.code, m.end);
    } else {
      OnlyPrunesMoveCursors(w, env, m);
      KeptCursorsOk(w, env, Apply(w, env, m));
    }
  }

  // ---- contract documents ----

  /** Contract documents keep their promises, and an escrow held by a contract is described by the
      contract's document: same id, owner, amount and token, and no fee under a pay document. Every
      escrow holds something. */
  ghost predicate DocsOk(w: World) {
    && DocsPlain(w)
    && (forall id :: id in w.book.pendings && w.book.pendings[id].rid.ToContract? ==>
          var p := w.book.pendings[id];
          p.rid.cid in w.contracts && DescribesDeposit(w.contracts[p.rid.cid], id, p.account, p.amount, p.fee))
    && (forall id :: id in w.book.pendings ==> w.book.pendings[id].amount > 0 && OrZero(w.book.pendings[id].fee) >= 0)
  }

  lemma DocsTransfer(w: World, env: Env, m: Move)
    requires DocsOk(w) && NewIds(w, env) && Enabled(w, env, m) && m.MTransfer?
    ensures DocsOk(Apply(w, env, m))
  {
  }

  lemma DocsRelease(w: World, env: Env, m: Move)
    requires DocsOk(w) && Enabled(w, env, m) && m.MRelease?
    ensures DocsOk(Apply(w, env, m))
  {
  }

  lemma DocsDeliver(w: World, env: Env, m: Move)
    requires DocsOk(w) && NewIds(w, env) && Enabled(w, env, m) && m.MDeliver?
    ensures DocsOk(Apply(w, env, m))
  {
  }

  lemma DocsDeposit(w: World, env: Env, m: Move)
    requires DocsOk(w) && NewIds(w, env) && Enabled(w, env, m) && m.MDeposit?
    ensures DocsOk(Apply(w, env, m))
  {
  }

  lemma DocsRecords(w: World, env: Env, m: Move)
    requires DocsOk(w) && NewIds(w, env) && Enabled(w, env, m) && GroupOf(m) == Records
    ensures DocsOk(Apply(w, env, m))
  {
  }

  lemma DocsOffice(w: World, env: Env, m: Move)
    requires DocsOk(w) && NewIds(w, env) && Enabled(w, env, m) && GroupOf(m) == Office
    ensures DocsOk(Apply(w, env, m))
  {
  }

  // ---- accounts ----

  /** An account exists exactly when its balance does; its kind is its address's; the holder index lists
      exactly the accounts a Kiesnet id holds. */
  ghost predicate RegistryOk(w: World) {
    && KindsOk(w.registry)
    && w.registry.accounts.Keys == w.book.balances.Keys
    && (forall k, a :: (k, a) in w.registry.holders <==>
          a in w.registry.accounts && k in HoldersOf(a, w.registry.accounts[a]))
  }

  lemma RegistryTransfer(w: World, env: Env, m: Move)
    requires RegistryOk(w) && Enabled(w, env, m) && (m.MTransfer? || m.MDeliver?)
    ensures RegistryOk(Apply(w, env, m))
  {
  }

  lemma RegistryDeposit(w: World, env: Env, m: Move)
    requires RegistryOk(w) && Enabled(w, env, m) && (m.MDeposit? || m.MRelease?)
    ensures RegistryOk(Apply(w, env, m))
  {
  }

  lemma RegistryRecords(w: World, env: Env, m: Move)
    requires RegistryOk(w) && Enabled(w, env, m) && GroupOf(m) == Records
    ensures RegistryOk(Apply(w, env, m))
  {
  }

  lemma RegistryIssue(w: World, env: Env, code: string, meta: Meta, holders: set<Kid>)
    requires RegistryOk(w) && ValidMeta(meta) && CreateToken(w, env, code, meta, holders).Ok?
    ensures RegistryOk(CreateToken(w, env, code, meta, holders).value)
  {
    IssueWrites(w, env, code, meta, holders);
  }

  lemma RegistryOpen(w: World, env: Env, m: Move)
    requires RegistryOk(w) && Enabled(w, env, m) && m.MOpen?
    ensures RegistryOk(Apply(w, env, m))
  {
  }

  lemma RegistryHolder(w: World, env: Env, m: Move)
    requires RegistryOk(w) && Enabled(w, env, m) && m.MHolder?
    ensures RegistryOk(Apply(w, env, m))
  {
  }

  lemma RegistryOffice(w: World, env: Env, m: Move)
    requires RegistryOk(w) && Enabled(w, env, m) && GroupOf(m) == Office
    requires !m.MIssue? && !m.MOpen? && !m.MHolder?
    ensures RegistryOk(Apply(w, env, m))
  {
  }

  // ---- tokens ----

  /** A token's genesis account is a joint account of that token; its fee target is an account; its
      supply is within the maximum. */
  ghost predicate TokensOk(w: World) {
    forall c :: c in w.tokens ==>
      var t := w.tokens[c];
      t.genesis.code == c && t.genesis.kind == Joint && t.genesis in w.registry.accounts &&
      0 <= t.maxSupply && t.supply <= t.maxSupply &&
      (t.policy.Some? ==> t.policy.value.target in w.registry.accounts)
  }

  lemma TokensFlow(w: World, env: Env, m: Move)
    requires TokensOk(w) && Enabled(w, env, m) && GroupOf(m) == Flow
    ensures TokensOk(Apply(w, env, m))
  {
  }

  lemma TokensRecords(w: World, env: Env, m: Move)
    requires TokensOk(w) && Enabled(w, env, m) && GroupOf(m) == Records
    ensures TokensOk(Apply(w, env, m))
  {
  }

  lemma TokensOffice(w: World, env: Env, m: Move)
    requires TokensOk(w) && Enabled(w, env, m) && GroupOf(m) == Office
    ensures TokensOk(Apply(w, env, m))
  {
  }

  // ---- all together ----

  ghost predicate Inv(w: World) {
    IdsOk(w) && CursorsOk(w) && DocsOk(w) && RegistryOk(w) && TokensOk(w)
  }

  lemma DocsMove(w: World, env: Env, m: Move)
    requires DocsOk(w) && NewIds(w, env) && Enabled(w, env, m)
    ensures DocsOk(Apply(w, env, m))
  {
    match GroupOf(m)
    case Flow =>
      if m.MDeposit? { DocsDeposit(w, env, m); }
      else if m.MDeliver? { DocsDeliver(w, env, m); }
      else if m.MRelease? { DocsRelease(w, env, m); }
      else { DocsTransfer(w, env, m); }
    case Records => DocsRecords(w, env, m);
    case Office => DocsOffice(w, env, m);
  }

  lemma RegistryMove(w: World, env: Env, m: Move)
    requires RegistryOk(w) && Enabled(w, env, m)
    ensures RegistryOk(Apply(w, env, m))
  {
    match GroupOf(m)
    case Flow =>
      if m.MTransfer? || m.MDeliver? { RegistryTransfer(w, env, m); } else { RegistryDeposit(w, env, m); }
    case Records => RegistryRecords(w, env, m);
    case Office =>
      if m.MIssue? { RegistryIssue(w, env, m.code, m.meta, m.holders); }
      else if m.MOpen? { RegistryOpen(w, env, m); }
      else if m.MHolder? { RegistryHolder(w, env, m); }
      else { RegistryOffice(w, env, m); }
  }

  lemma TokensMove(w: World, env: Env, m: Move)
    requires TokensOk(w) && Enabled(w, env, m)
    ensures TokensOk(Apply(w, env, m))
  {
    match GroupOf(m)
    case Flow => TokensFlow(w, env, m);
    case Records => TokensRecords(w, env, m);
    case Office => TokensOffice(w, env, m);
  }

  lemma AdmittedIsNew(w: World, env: Env)
    requires IdsOk(w) && Admitted(w, env)
    ensures NewIds(w, env)
  {
    RecordIdStamped(w, env);
  }

  /** A successful transaction makes its move, keeps the invariant and only adds to the records. */
  lemma InvStep(w: World, env: Env, tx: Tx)
    requires Inv(w) && Admitted(w, env) && Step(w, env, tx).Ok?
    ensures NewIds(w, env) && Enabled(w, env, MoveOf(w, env, tx))
    ensures Step(w, env, tx).value == Apply(w, env, MoveOf(w, env, tx)).(txs := w.txs + {env.txId})
    ensures Inv(Step(w, env, tx).value)
    ensures Grows(w, env, Step(w, env, tx).value)
  {
    AdmittedIsNew(w, env);
    StepIsMove(w, env, tx);
    InvMove(w, env, MoveOf(w, env, tx));
  }

  lemma InvMove(w: World, env: Env, m: Move)
    requires Inv(w) && Admitted(w, env) && NewIds(w, env) && Enabled(w, env, m)
    ensures Inv(Apply(w, env, m).(txs := w.txs + {env.txId}))
    ensures Grows(w, env, Apply(w, env, m))
  {
    var w' := Apply(w, env, m);
    MoveGrows(w, env, m);
    IdsMove(w, env, w');
    CursorsMove(w, env, m);
    DocsMove(w, env, m);
    RegistryMove(w, env, m);
    TokensMove(w, env, m);
    CommitKeeps(w', w.txs + {env.txId});
  }

  /** Using up the transaction id touches nothing else. */
  lemma CommitKeeps(w: World, txs: set<string>)
    requires CursorsOk(w) && DocsOk(w) && RegistryOk(w) && TokensOk(w)
    ensures var w' := w.(txs := txs); CursorsOk(w') && DocsOk(w') && RegistryOk(w') && TokensOk(w')
  {
  }

  lemma EmptyInv()
    ensures Inv(EMPTY)
  {
  }
}
