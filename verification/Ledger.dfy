// The ledger: a transaction is routed to its handler, and its writes are committed when it answers with
// success and dropped when it answers with an error.
module Ledger {
  import opened Basics
  import opened Stamps
  import opened World
  import opened Transactions
  import opened Moves
  import opened Shim
  import opened Invariants
  import opened Runs
  import opened Conservation
  import opened ExactlyOnce
  import opened Skew
  import Lifecycle
  import Refunds
  import Scenes
  import AccountHandlers
  import FeeHandlers
  import PayHandlers
  import TokenHandlers
  import TransferHandlers

  /** contract/execute and contract/cancel: the document decides the callback. */
  method Execute(stub: Stub, cid: string) returns (res: Result<()>)
    requires stub.writes == stub.state
    modifies stub`writes
    ensures Answered(stub, Handle(stub.state, stub.env, ContractExecute(cid)), res)
  {
    if cid !in stub.state.contracts { return Err("unknown contract"); }
    var doc := stub.state.contracts[cid];
    match doc
    case TransferDoc(_, _, _, _, _, _, _) => res := TransferHandlers.Execute(stub, cid, doc);
    case PayDoc(_, _, _, _, _, _) => res := PayHandlers.Execute(stub, cid, doc);
    case MintDoc(code, amount) => res := TokenHandlers.ExecuteMint(stub, code, amount);
    case BurnDoc(code, amount) => res := TokenHandlers.ExecuteBurn(stub, code, amount);
    case TokenDoc(code, holders) => res := TokenHandlers.ExecuteCreate(stub, code, holders);
    case AccountDoc(code, holders) => res := AccountHandlers.ExecuteCreate(stub, code, holders);
    case AddHolderDoc(a, kid) => res := AccountHandlers.ExecuteHolderAdd(stub, a, kid);
    case RemoveHolderDoc(a, kid) => res := AccountHandlers.ExecuteHolderRemove(stub, a, kid);
  }

  method Cancel(stub: Stub, cid: string) returns (res: Result<()>)
    requires stub.writes == stub.state
    modifies stub`writes
    ensures Answered(stub, Handle(stub.state, stub.env, ContractCancel(cid)), res)
  {
    if cid !in stub.state.contracts { return Err("unknown contract"); }
    var doc := stub.state.contracts[cid];
    if doc.TransferDoc? || doc.PayDoc? {
      res := TransferHandlers.Cancel(stub, cid, doc.pbId);
    } else {
      res := Ok(());
    }
  }

  method RouteOffice(stub: Stub, tx: Tx) returns (res: Result<()>)
    requires stub.writes == stub.state && (AboutAccounts(tx) || AboutTokens(tx))
    modifies stub`writes
    ensures Answered(stub, Handle(stub.state, stub.env, tx), res)
  {
    match tx
    case AccountCreate(code, coHolders) => res := AccountHandlers.Create(stub, code, coHolders);
    case AccountHolderAdd(a, t) => res := AccountHandlers.HolderAdd(stub, a, t);
    case AccountHolderRemove(a, t) => res := AccountHandlers.HolderRemove(stub, a, t);
    case AccountSuspend(code) => res := AccountHandlers.Suspend(stub, code, true);
    case AccountUnsuspend(code) => res := AccountHandlers.Suspend(stub, code, false);
    case FeePrune(code, safe, end) => res := FeeHandlers.Prune(stub, code, safe, end);
    case TokenBurn(code, _) => res := TokenHandlers.Burn(stub, code);
    case TokenCreate(code, coHolders) => res := TokenHandlers.Create(stub, code, coHolders);
    case TokenMint(code, _) => res := TokenHandlers.Mint(stub, code);
    case TokenUpdate(code) => res := TokenHandlers.Update(stub, code);
  }

  method Route(stub: Stub, tx: Tx) returns (res: Result<()>)
    requires stub.writes == stub.state
    modifies stub`writes
    ensures Answered(stub, Handle(stub.state, stub.env, tx), res)
  {
    if AboutAccounts(tx) || AboutTokens(tx) {
      res := RouteOffice(stub, tx);
    } else {
      match tx
      case PendingWithdraw(id) => res := TransferHandlers.PendingWithdraw(stub, id);
      case ContractCancel(cid) => res := Cancel(stub, cid);
      case ContractExecute(cid) => res := Execute(stub, cid);
      case PayTx(s, r, amount, orderId, memo) => res := PayHandlers.Pay(stub, s, r, amount, orderId, memo);
      case PayPrune(a, safe, end) => res := PayHandlers.Prune(stub, a, safe, end);
      case PayRefund(payId, amount, memo) => res := PayHandlers.Refund(stub, payId, amount, memo);
      case Transfer(s, r, amount, memo, seconds, extra) =>
        res := TransferHandlers.Transfer(stub, s, r, amount, memo, seconds, extra);
    }
  }

  // ---- what holds of every ledger ----

  /** Whatever the transactions were: the invariant, two holders for every joint account but a genesis
      account, sound refund books, and a supply that differs from the value on the ledger by exactly what
      the transactions lost. */
  lemma EveryLedger(es: seq<Event>)
    requires AdmittedRun(EMPTY, es)
    ensures var w := Run(EMPTY, es);
            Inv(w) && Lifecycle.HoldersOk(w) && Refunds.RefundsOk(w.book.pays) &&
            forall c :: Gap(w, c) == -LostIn(EMPTY, es, c)
  {
    EmptyInv();
    Lifecycle.LifecycleRun(EMPTY, es);
    Refunds.RefundsRun(EMPTY, es);
    forall c ensures Gap(Run(EMPTY, es), c) == -LostIn(EMPTY, es, c) {
      EmptyConserved(c);
      ExactAccounting(EMPTY, es, c);
    }
  }

  lemma CursorsStartEarly(es: seq<Event>, truth: seq<Time>)
    requires AdmittedRun(EMPTY, es) && Skewed(es, truth) && es != []
    ensures CursorsBy(EMPTY, truth[0] - SKEW)
  {
    RunCons(EMPTY, es);
    assert CursorOf("") == 0;
  }

  /** With clocks within five minutes of the truth, ten-minute prunes, distinct record times and fee
      targets of their own token: the supply of every token is the value on the ledger, and each record
      ever filed was credited by exactly one prune or is still to be credited. */
  lemma SafeLedger(es: seq<Event>, truth: seq<Time>)
    requires AdmittedRun(EMPTY, es) && Skewed(es, truth) && SafePrunes(es) && HomeTargets(EMPTY, es)
    requires DistinctRecords(Run(EMPTY, es))
    ensures forall c :: Total(Run(EMPTY, es), c) == SupplyOf(Run(EMPTY, es), c)
    ensures forall id :: id in Run(EMPTY, es).book.pays ==>
              multiset(PayCredits(EMPTY, es))[id] == if PayOpen(Run(EMPTY, es), id) then 0 else 1
    ensures forall id :: id in Run(EMPTY, es).book.fees ==>
              multiset(FeeCredits(EMPTY, es))[id] == if FeeOpen(Run(EMPTY, es), id) then 0 else 1
  {
    EmptyInv();
    if es != [] { CursorsStartEarly(es, truth); }
    forall c ensures Total(Run(EMPTY, es), c) == SupplyOf(Run(EMPTY, es), c) {
      EmptyConserved(c);
      SkewedRunConserves(EMPTY, es, truth, c);
    }
    forall id
      ensures id in Run(EMPTY, es).book.pays ==>
                multiset(PayCredits(EMPTY, es))[id] == if PayOpen(Run(EMPTY, es), id) then 0 else 1
      ensures id in Run(EMPTY, es).book.fees ==>
                multiset(FeeCredits(EMPTY, es))[id] == if FeeOpen(Run(EMPTY, es), id) then 0 else 1
    {
      SafePruningIsExactlyOnce(EMPTY, es, truth, id);
    }
  }

  lemma {:induction false} NoFeePrunes(w: World, es: seq<Event>)
    requires forall i :: 0 <= i < |es| ==> !es[i].tx.FeePrune?
    ensures HomeTargets(w, es)
    decreases |es|
  {
    if es != [] { NoFeePrunes(w, es[..|es| - 1]); }
  }

  /** All transactions but the last at about one time, and the last a safe prune. */
  lemma SafeTimes(front: seq<Event>, e: Event) returns (truth: seq<Time>)
    requires Scenes.Early(front) && e.env.ts == Scenes.PAID + 11 * MINUTE && e.tx.PayPrune? && e.tx.safe
    ensures Skewed(front + [e], truth) && SafePrunes(front + [e]) && HomeTargets(EMPTY, front + [e])
  {
    truth := seq(|front| + 1, i => if i < |front| then Scenes.PAID else Scenes.PAID + 11 * MINUTE);
    NoFeePrunes(EMPTY, front + [e]);
  }

  lemma TakesOne(w: World, e: Event, id: string)
    requires e.tx.PayPrune?
    requires RowsOfPays(w, e.env, e.tx.account, PruneEnd(e.env.ts, e.tx.safe, e.tx.endSeconds)) == [id]
    ensures id in PaysTaken(w, e.env, MoveOf(w, e.env, e.tx))
  {
    assert MoveOf(w, e.env, e.tx) == MPayPrune(e.tx.account, PruneEnd(e.env.ts, e.tx.safe, e.tx.endSeconds));
    assert PaysTaken(w, e.env, MoveOf(w, e.env, e.tx)) == [id];
  }

  lemma LastCredits(front: seq<Event>, e: Event, id: string)
    requires Succeeds(Run(EMPTY, front), e)
    requires id in PaysTaken(Run(EMPTY, front), e.env, MoveOf(Run(EMPTY, front), e.env, e.tx))
    ensures id in PayCredits(EMPTY, front + [e])
  {
    assert (front + [e])[..|front + [e]| - 1] == front;
  }

  lemma SingleRecord(c: Scenes.Cast, w: World, id: string, amount: int)
    requires Scenes.OnePay(c, w, id, amount, 0) && w.book.fees == map[]
    ensures DistinctRecords(w)
  {
  }

  /** The hypotheses of SafeLedger can be met: two accounts, a token, a payment, and eleven minutes later a
      safe prune that credits it. */
  lemma SafeLedgersExist() returns (es: seq<Event>, truth: seq<Time>, id: string)
    ensures AdmittedRun(EMPTY, es) && Skewed(es, truth) && SafePrunes(es) && HomeTargets(EMPTY, es)
    ensures DistinctRecords(Run(EMPTY, es))
    ensures id in Run(EMPTY, es).book.pays && id in PayCredits(EMPTY, es)
  {
    var query := FaithfulExists();
    var c := Scenes.Cast("a", "", "shop", "buyer", "genesis");
    var front: seq<Event>, e: Event;
    front, e, id := Scenes.PrunedOnce(c, query, 10, None, Scenes.PAID + 11 * MINUTE, true);
    es := front + [e];
    truth := SafeTimes(front, e);
    TakesOne(Run(EMPTY, front), e, id);
    LastCredits(front, e, id);
    SingleRecord(c, Run(EMPTY, es), id, 10);
  }

  class Ledger {
    var world: World
    ghost var history: seq<Event>

    /** The world is what the transactions so far have made of the empty one. */
    ghost predicate Valid()
      reads this
    {
      AdmittedRun(EMPTY, history) && world == Run(EMPTY, history)
    }

    constructor ()
      ensures Valid() && world == EMPTY && history == []
    {
      world, history := EMPTY, [];
    }

    /** One transaction: all of its writes, or none. */
    method Invoke(env: Env, tx: Tx) returns (res: Result<()>)
      requires Valid() && Admitted(world, env)
      modifies this
      ensures Valid() && history == old(history) + [Event(env, tx)]
      ensures world == Next(old(world), env, tx)
      ensures res.Ok? <==> Step(old(world), env, tx).Ok?
      ensures res.Err? ==> world == old(world)
      ensures Inv(world)
    {
      var stub := new Stub(env, world);
      res := Route(stub, tx);
      if res.Ok? {
        world := stub.writes.(txs := world.txs + {env.txId});
      }
      history := history + [Event(env, tx)];
      assert history[..|history| - 1] == old(history);
      EmptyInv();
      RunInv(EMPTY, history);
    }
  }
}
