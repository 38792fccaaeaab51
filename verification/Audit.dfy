// The balance log as an audit trail: the differences less the fees of an account's logs add up to its
// balance, and each log shows the sum up to itself.
module Audit {
  import opened Basics
  import opened World
  import opened Stubs
  import opened Sums
  import opened Fees
  import opened Transactions
  import opened Moves
  import opened Invariants
  import opened Runs

  /** What each log of an account says happened to its balance. */
  ghost function LogParts(logs: Logs, a: Address): map<(Address, Time), int> {
    map k | k in logs && k.0 == a :: logs[k].diff - OrZero(logs[k].fee)
  }

  ghost predicate AuditOk(b: Book, a: Address) {
    Sum(LogParts(b.logs, a)) == AmountOf(b, a)
  }

  /** The accounts whose log a move writes. */
  function Logged(w: World, env: Env, m: Move): set<Address>
    requires Enabled(w, env, m)
  {
    match m
    case MTransfer(s, r, _, _, _, pt) => if TimeLocked(env, pt) then {s} else {s, r}
    case MDeposit(s, _, _, _, _, _) => {s}
    case MRelease(id) => {w.book.pendings[id].account}
    case MDeliver(cid, pt) => if TimeLocked(env, pt) then {} else {w.contracts[cid].receiver}
    case MPay(s, _, _, _, _, _) => {s}
    case MRefund(payId, _, _) => {w.book.pays[payId].rid}
    case MPayPrune(a, _) => {a}
    case MFeePrune(code, _) => {w.tokens[code].policy.value.target}
    case MMint(code, _) => {w.tokens[code].genesis}
    case MBurn(code, _) => {w.tokens[code].genesis}
    case MIssue(code, meta, _) => if meta.supply > 0 then {Address(code, Joint, env.jointId)} else {}
    case _ => {}
  }

  /** A move changes an account's balance by what its new log says, and the log shows the new balance. */
  ghost predicate LoggedAs(b: Book, b': Book, a: Address, ts: Time) {
    && (a, ts) in b'.logs
    && b'.logs[(a, ts)].amount == AmountOf(b', a)
    && b'.logs[(a, ts)].diff - OrZero(b'.logs[(a, ts)].fee) == AmountOf(b', a) - AmountOf(b, a)
    && (forall k: (Address, Time) :: k != (a, ts) && k.0 == a ==>
          (k in b'.logs <==> k in b.logs) && (k in b.logs ==> b'.logs[k] == b.logs[k]))
  }

  ghost predicate Unlogged(b: Book, b': Book, a: Address) {
    && AmountOf(b', a) == AmountOf(b, a)
    && (forall k: (Address, Time) :: k.0 == a ==>
          (k in b'.logs <==> k in b.logs) && (k in b.logs ==> b'.logs[k] == b.logs[k]))
  }

  lemma TransferLogs(w: World, env: Env, m: Move, a: Address)
    requires Enabled(w, env, m) && m.MTransfer?
    ensures var b' := Apply(w, env, m).book;
            if a in Logged(w, env, m) then LoggedAs(w.book, b', a, env.ts) else Unlogged(w.book, b', a)
  {
  }

  lemma FlowLogs(w: World, env: Env, m: Move, a: Address)
    requires DocsOk(w) && Enabled(w, env, m) && GroupOf(m) == Flow && !m.MTransfer?
    ensures var b' := Apply(w, env, m).book;
            if a in Logged(w, env, m) then LoggedAs(w.book, b', a, env.ts) else Unlogged(w.book, b', a)
  {
  }

  lemma RecordsLog(w: World, env: Env, m: Move, a: Address)
    requires Enabled(w, env, m) && GroupOf(m) == Records
    ensures var b' := Apply(w, env, m).book;
            if a in Logged(w, env, m) then LoggedAs(w.book, b', a, env.ts) else Unlogged(w.book, b', a)
  {
  }

  lemma OfficeLogs(w: World, env: Env, m: Move, a: Address)
    requires RegistryOk(w) && Enabled(w, env, m) && GroupOf(m) == Office && !m.MIssue?
    ensures var b' := Apply(w, env, m).book;
            if a in Logged(w, env, m) then LoggedAs(w.book, b', a, env.ts) else Unlogged(w.book, b', a)
  {
  }

  lemma IssueLogs(w: World, env: Env, m: Move, a: Address)
    requires RegistryOk(w) && Enabled(w, env, m) && m.MIssue?
    ensures var b' := Apply(w, env, m).book;
            if a in Logged(w, env, m) then LoggedAs(w.book, b', a, env.ts) else Unlogged(w.book, b', a)
  {
    IssueWrites(w, env, m.code, m.meta, m.holders);
  }

  lemma MoveLogs(w: World, env: Env, m: Move, a: Address)
    requires DocsOk(w) && RegistryOk(w) && Enabled(w, env, m)
    ensures var b' := Apply(w, env, m).book;
            if a in Logged(w, env, m) then LoggedAs(w.book, b', a, env.ts) else Unlogged(w.book, b', a)
  {
    match GroupOf(m)
    case Flow => if m.MTransfer? { TransferLogs(w, env, m, a); } else { FlowLogs(w, env, m, a); }
    case Records => RecordsLog(w, env, m, a);
    case Office => if m.MIssue? { IssueLogs(w, env, m, a); } else { OfficeLogs(w, env, m, a); }
  }

  // ---- what a log says ----

  /** What a move is to an account whose log it writes. */
  function EntryKind(m: Move, a: Address): LogKind {
    match m
    case MTransfer(s, _, _, _, _, _) => if a == s then Sent else Received
    case MDeposit(_, _, _, _, _, _) => Deposited
    case MRelease(_) => Withdrawn
    case MDeliver(_, _) => Received
    case MPay(_, _, _, _, _, _) => Paid
    case MRefund(_, _, _) => Refunded
    case MPayPrune(_, _) => PrunedPay
    case MFeePrune(_, _) => PrunedFee
    case MBurn(_, _) => Burnt
    case _ => Minted
  }

  /** The fee a log names next to its difference: the one a sender or a depositor pays. */
  function EntryFee(m: Move, a: Address): Option<int> {
    match m
    case MTransfer(s, _, _, fee, _, _) => if a == s then Some(fee) else None
    case MDeposit(_, _, _, feeHeld, _, _) => feeHeld
    case _ => None
  }

  ghost predicate Entered(b: Book, a: Address, ts: Time, kind: LogKind, fee: Option<int>) {
    (a, ts) in b.logs && b.logs[(a, ts)].kind == kind && b.logs[(a, ts)].fee == fee
  }

  lemma TransferEntry(w: World, env: Env, m: Move, a: Address)
    requires Enabled(w, env, m) && m.MTransfer? && a in Logged(w, env, m)
    ensures Entered(Apply(w, env, m).book, a, env.ts, EntryKind(m, a), EntryFee(m, a))
  {
    FeeFree(w.tokens, m.s, "transfer", m.amount);
  }

  lemma FlowEntry(w: World, env: Env, m: Move, a: Address)
    requires DocsOk(w) && Enabled(w, env, m) && GroupOf(m) == Flow && !m.MTransfer? && a in Logged(w, env, m)
    ensures Entered(Apply(w, env, m).book, a, env.ts, EntryKind(m, a), EntryFee(m, a))
  {
  }

  lemma RecordsEntry(w: World, env: Env, m: Move, a: Address)
    requires Enabled(w, env, m) && GroupOf(m) == Records && a in Logged(w, env, m)
    ensures Entered(Apply(w, env, m).book, a, env.ts, EntryKind(m, a), EntryFee(m, a))
  {
  }

  lemma SupplyEntry(w: World, env: Env, m: Move, a: Address)
    requires Enabled(w, env, m) && GroupOf(m) == Office && a in Logged(w, env, m)
    ensures Entered(Apply(w, env, m).book, a, env.ts, EntryKind(m, a), EntryFee(m, a))
  {
  }

  /** Every log says what happened: its kind is the move's part for its account, and it names a fee exactly
      for who pays one with the move. */
  lemma LogSaysWhat(w: World, env: Env, m: Move, a: Address)
    requires DocsOk(w) && Enabled(w, env, m) && a in Logged(w, env, m)
    ensures Entered(Apply(w, env, m).book, a, env.ts, EntryKind(m, a), EntryFee(m, a))
  {
    match GroupOf(m)
    case Flow => if m.MTransfer? { TransferEntry(w, env, m, a); } else { FlowEntry(w, env, m, a); }
    case Records => RecordsEntry(w, env, m, a);
    case Office => SupplyEntry(w, env, m, a);
  }

  /** A log under a new time adds its difference; one under a used time would replace another's. */
  lemma LogAdds(b: Book, b': Book, a: Address, ts: Time)
    requires LoggedAs(b, b', a, ts)
    ensures Sum(LogParts(b'.logs, a)) - AmountOf(b', a) ==
            Sum(LogParts(b.logs, a)) - AmountOf(b, a) - At(LogParts(b.logs, a), (a, ts))
  {
    var v := b'.logs[(a, ts)].diff - OrZero(b'.logs[(a, ts)].fee);
    assert LogParts(b'.logs, a) == LogParts(b.logs, a)[(a, ts) := v];
    SumPut(LogParts(b.logs, a), (a, ts), v);
  }

  lemma NoLogKeeps(b: Book, b': Book, a: Address)
    requires Unlogged(b, b', a)
    ensures LogParts(b'.logs, a) == LogParts(b.logs, a)
  {
  }

  /** The event does not reuse a log time of this account. */
  predicate NewLogTime(w: World, e: Event, a: Address) {
    Succeeds(w, e) && Enabled(w, e.env, MoveOf(w, e.env, e.tx)) && a in Logged(w, e.env, MoveOf(w, e.env, e.tx)) ==>
      (a, e.env.ts) !in w.book.logs
  }

  predicate DistinctLogTimes(w: World, es: seq<Event>, a: Address)
    decreases |es|
  {
    es == [] || (DistinctLogTimes(w, es[..|es| - 1], a) && NewLogTime(Run(w, es[..|es| - 1]), es[|es| - 1], a))
  }

  lemma StepAudited(w: World, e: Event, a: Address)
    requires Inv(w) && Admitted(w, e.env) && AuditOk(w.book, a) && NewLogTime(w, e, a)
    ensures AuditOk(Next(w, e.env, e.tx).book, a)
    ensures Succeeds(w, e) ==> Enabled(w, e.env, MoveOf(w, e.env, e.tx))
    ensures Succeeds(w, e) && a in Logged(w, e.env, MoveOf(w, e.env, e.tx)) ==>
              LoggedAs(w.book, Next(w, e.env, e.tx).book, a, e.env.ts)
  {
    if Succeeds(w, e) {
      var m := MoveOf(w, e.env, e.tx);
      InvStep(w, e.env, e.tx);
      MoveLogs(w, e.env, m, a);
      var b' := Apply(w, e.env, m).book;
      if a in Logged(w, e.env, m) { LogAdds(w.book, b', a, e.env.ts); } else { NoLogKeeps(w.book, b', a); }
    }
  }

  /** A faithful audit trail: if an account's log times are distinct, then at every point of every run
      the differences less the fees of its logs add up to its balance. */
  lemma {:induction false} LogsAddUp(w: World, es: seq<Event>, a: Address)
    requires Inv(w) && AdmittedRun(w, es) && AuditOk(w.book, a) && DistinctLogTimes(w, es, a)
    ensures AuditOk(Run(w, es).book, a)
    decreases |es|
  {
    if es != [] {
      var front, e := es[..|es| - 1], es[|es| - 1];
      LogsAddUp(w, front, a);
      RunInv(w, front);
      StepAudited(Run(w, front), e, a);
    }
  }

  /** Each log shows the sum of the differences up to and including its own. */
  lemma LogShowsPrefixSum(w: World, es: seq<Event>, a: Address)
    requires Inv(w) && AdmittedRun(w, es) && AuditOk(w.book, a) && DistinctLogTimes(w, es, a) && es != []
    ensures var x, e := Run(w, es[..|es| - 1]), es[|es| - 1];
            Succeeds(x, e) && Enabled(x, e.env, MoveOf(x, e.env, e.tx)) &&
            a in Logged(x, e.env, MoveOf(x, e.env, e.tx)) ==>
              (a, e.env.ts) in Run(w, es).book.logs &&
              Run(w, es).book.logs[(a, e.env.ts)].amount == Sum(LogParts(Run(w, es).book.logs, a))
  {
    var front, e := es[..|es| - 1], es[|es| - 1];
    LogsAddUp(w, es, a);
    LogsAddUp(w, front, a);
    RunInv(w, front);
    StepAudited(Run(w, front), e, a);
  }

  /** What was logged stays as it was. */
  ghost predicate LogsStay(b: Book, b': Book, a: Address) {
    forall k: (Address, Time) :: k.0 == a && k in b.logs ==> k in b'.logs && b'.logs[k] == b.logs[k]
  }

  /** One event: the account's logs stay, and the only new one is the event's own. */
  lemma StepKeepsLogs(w: World, e: Event, a: Address, k: (Address, Time))
    requires Inv(w) && Admitted(w, e.env) && NewLogTime(w, e, a) && k.0 == a
    ensures LogsStay(w.book, Next(w, e.env, e.tx).book, a)
    ensures k !in w.book.logs && k in Next(w, e.env, e.tx).book.logs ==>
              Succeeds(w, e) && Enabled(w, e.env, MoveOf(w, e.env, e.tx)) &&
              a in Logged(w, e.env, MoveOf(w, e.env, e.tx)) &&
              k == (a, e.env.ts)
  {
    if Succeeds(w, e) {
      var m := MoveOf(w, e.env, e.tx);
      InvStep(w, e.env, e.tx);
      MoveLogs(w, e.env, m, a);
    }
  }

  /** Event i wrote this log. It and all logs before it are still there as they were, and it shows the sum
      of the differences up to and including its own. */
  ghost predicate WrittenBy(w: World, es: seq<Event>, a: Address, k: (Address, Time), i: nat) {
    i < |es| && k == (a, es[i].env.ts) &&
    var before, now := Run(w, es[..i + 1]).book, Run(w, es).book;
    && k !in Run(w, es[..i]).book.logs && k in before.logs && k in now.logs
    && LogsStay(before, now, a) && now.logs[k].amount == Sum(LogParts(before.logs, a))
  }

  lemma WrittenEarlier(w: World, es: seq<Event>, a: Address, k: (Address, Time), i: nat)
    requires es != [] && WrittenBy(w, es[..|es| - 1], a, k, i) &&
             LogsStay(Run(w, es[..|es| - 1]).book, Run(w, es).book, a)
    ensures WrittenBy(w, es, a, k, i)
  {
    var front := es[..|es| - 1];
    assert front[..i] == es[..i] && front[..i + 1] == es[..i + 1] && front[i] == es[i];
  }

  lemma WrittenLast(w: World, es: seq<Event>, a: Address, k: (Address, Time))
    requires Inv(w) && AdmittedRun(w, es) && AuditOk(w.book, a) && DistinctLogTimes(w, es, a) && es != []
    requires var x, e := Run(w, es[..|es| - 1]), es[|es| - 1];
             Succeeds(x, e) && Enabled(x, e.env, MoveOf(x, e.env, e.tx)) &&
             a in Logged(x, e.env, MoveOf(x, e.env, e.tx)) &&
             k == (a, e.env.ts) && k !in x.book.logs
    ensures WrittenBy(w, es, a, k, |es| - 1)
  {
    assert es[..|es| - 1 + 1] == es;
    LogShowsPrefixSum(w, es, a);
  }

  lemma SomethingHappened(w: World, es: seq<Event>, k: (Address, Time))
    requires k !in w.book.logs && k in Run(w, es).book.logs
    ensures es != []
  {
  }

  lemma LastKeepsLogs(w: World, es: seq<Event>, a: Address, k: (Address, Time))
    requires Inv(w) && AdmittedRun(w, es) && AuditOk(w.book, a) && DistinctLogTimes(w, es, a) && es != [] && k.0 == a
    ensures LogsStay(Run(w, es[..|es| - 1]).book, Run(w, es).book, a)
    ensures k !in Run(w, es[..|es| - 1]).book.logs && k in Run(w, es).book.logs ==> WrittenBy(w, es, a, k, |es| - 1)
  {
    var x, e := Run(w, es[..|es| - 1]), es[|es| - 1];
    RunInv(w, es[..|es| - 1]);
    StepKeepsLogs(x, e, a, k);
    if k !in x.book.logs && k in Run(w, es).book.logs { WrittenLast(w, es, a, k); }
  }

  /** Every log an account got in a run was written by an event of it, stays as it was written, and shows
      the sum of the differences up to and including its own. */
  lemma {:induction false} EveryLogShowsItsSum(w: World, es: seq<Event>, a: Address, k: (Address, Time))
    returns (i: nat)
    requires Inv(w) && AdmittedRun(w, es) && AuditOk(w.book, a) && DistinctLogTimes(w, es, a)
    requires k.0 == a && k !in w.book.logs && k in Run(w, es).book.logs
    ensures WrittenBy(w, es, a, k, i)
    decreases |es|
  {
    SomethingHappened(w, es, k);
    var front := es[..|es| - 1];
    LastKeepsLogs(w, es, a, k);
    if k in Run(w, front).book.logs {
      i := EveryLogShowsItsSum(w, front, a, k);
      WrittenEarlier(w, es, a, k, i);
    } else {
      i := |es| - 1;
    }
  }
}
