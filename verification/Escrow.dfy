// Escrow: a pending balance enters the ledger once, never changes while it is there, and leaves once:
// by its contract's cancel or execute, or by its owner's withdrawal when its time has come.
module Escrow {
  import opened Basics
  import opened World
  import opened Stubs
  import opened Transactions
  import opened Moves
  import opened Invariants
  import opened Runs

  predicate HeldIn(w: World, id: string) {
    id in w.book.pendings
  }

  /** The escrow a transaction tries to consume. */
  function Wanted(w: World, tx: Tx): Option<string> {
    match tx
    case PendingWithdraw(id) => Some(id)
    case ContractCancel(cid) => DocEscrow(w, cid)
    case ContractExecute(cid) => DocEscrow(w, cid)
    case _ => None
  }

  function DocEscrow(w: World, cid: string): Option<string> {
    if cid in w.contracts && (w.contracts[cid].TransferDoc? || w.contracts[cid].PayDoc?)
    then Some(w.contracts[cid].pbId) else None
  }

  /** The right a transaction must have to consume an escrow. */
  predicate Entitled(w: World, e: Event, p: Pending) {
    match e.tx
    case PendingWithdraw(_) =>
      p.pendingTime <= e.env.ts && p.account in w.registry.accounts &&
      e.env.kid in HoldersOf(p.account, w.registry.accounts[p.account]) && !IsSuspended(w.registry.accounts[p.account])
    case ContractCancel(cid) => p.rid == ToContract(cid)
    case ContractExecute(cid) => p.rid == ToContract(cid)
    case _ => false
  }

  /** An attempt on an escrow that is not there, or without the right to it, fails. */
  lemma AttemptFails(w: World, e: Event, id: string)
    requires Wanted(w, e.tx) == Some(id)
    requires !HeldIn(w, id) || !Entitled(w, e, w.book.pendings[id])
    ensures !Succeeds(w, e)
  {
  }

  lemma FlowTakes(w: World, env: Env, m: Move, id: string)
    requires Enabled(w, env, m) && HeldIn(w, id) && env.txId != id && GroupOf(m) == Flow
    ensures HeldIn(Apply(w, env, m), id) <==>
            !(m.MRelease? && m.id == id) && !(m.MDeliver? && DocEscrow(w, m.cid) == Some(id))
    ensures HeldIn(Apply(w, env, m), id) ==> Apply(w, env, m).book.pendings[id] == w.book.pendings[id]
  {
  }

  lemma OthersTake(w: World, env: Env, m: Move, id: string)
    requires Enabled(w, env, m) && HeldIn(w, id) && GroupOf(m) != Flow
    ensures HeldIn(Apply(w, env, m), id) <==> !(m.MPayPending? && DocEscrow(w, m.cid) == Some(id))
    ensures HeldIn(Apply(w, env, m), id) ==> Apply(w, env, m).book.pendings[id] == w.book.pendings[id]
  {
  }

  /** A move takes out of escrow what it releases, delivers or pays, and nothing else. */
  lemma MoveTakes(w: World, env: Env, m: Move, id: string)
    requires Enabled(w, env, m) && HeldIn(w, id) && env.txId != id
    ensures HeldIn(Apply(w, env, m), id) <==>
            !(m.MRelease? && m.id == id) && !((m.MDeliver? || m.MPayPending?) && DocEscrow(w, m.cid) == Some(id))
    ensures HeldIn(Apply(w, env, m), id) ==> Apply(w, env, m).book.pendings[id] == w.book.pendings[id]
  {
    if GroupOf(m) == Flow { FlowTakes(w, env, m, id); } else { OthersTake(w, env, m, id); }
  }

  lemma TakingMoves(w: World, env: Env, tx: Tx)
    ensures var m := MoveOf(w, env, tx);
            (m.MRelease? ==> Wanted(w, tx) == Some(m.id)) &&
            (m.MDeliver? || m.MPayPending? ==> tx == ContractExecute(m.cid) && Wanted(w, tx) == DocEscrow(w, m.cid))
    ensures Wanted(w, tx).Some? && Step(w, env, tx).Ok? ==>
              var m := MoveOf(w, env, tx);
              m == MRelease(Wanted(w, tx).value) ||
              ((m.MDeliver? || m.MPayPending?) && DocEscrow(w, m.cid) == Wanted(w, tx))
  {
  }

  /** An escrow leaves exactly when an entitled transaction asks for it and succeeds; until then it stays
      as it was made. */
  lemma LeavesIff(w: World, e: Event, id: string)
    requires Inv(w) && Admitted(w, e.env) && HeldIn(w, id)
    ensures !HeldIn(Next(w, e.env, e.tx), id) <==> Succeeds(w, e) && Wanted(w, e.tx) == Some(id)
    ensures !HeldIn(Next(w, e.env, e.tx), id) ==> Entitled(w, e, w.book.pendings[id])
    ensures HeldIn(Next(w, e.env, e.tx), id) ==> Next(w, e.env, e.tx).book.pendings[id] == w.book.pendings[id]
  {
    if Succeeds(w, e) {
      InvStep(w, e.env, e.tx);
      TakingMoves(w, e.env, e.tx);
      MoveTakes(w, e.env, MoveOf(w, e.env, e.tx), id);
      if Wanted(w, e.tx) == Some(id) && !Entitled(w, e, w.book.pendings[id]) {
        AttemptFails(w, e, id);
      }
    }
  }

  // ---- whole runs ----

  /** How often an id enters and leaves the escrow in a run. */
  function Entries(w: World, es: seq<Event>, id: string): nat
    decreases |es|
  {
    if es == [] then 0
    else
      var x, e := Run(w, es[..|es| - 1]), es[|es| - 1];
      Entries(w, es[..|es| - 1], id) + Once(!HeldIn(x, id) && HeldIn(Next(x, e.env, e.tx), id))
  }

  function Exits(w: World, es: seq<Event>, id: string): nat
    decreases |es|
  {
    if es == [] then 0
    else
      var x, e := Run(w, es[..|es| - 1]), es[|es| - 1];
      Exits(w, es[..|es| - 1], id) + Once(HeldIn(x, id) && !HeldIn(Next(x, e.env, e.tx), id))
  }

  /** An escrow enters under a transaction id used for the first time. */
  lemma EntersFresh(w: World, e: Event, id: string)
    requires Inv(w) && Admitted(w, e.env)
    ensures !HeldIn(w, id) && HeldIn(Next(w, e.env, e.tx), id) ==> id !in w.txs && id in Next(w, e.env, e.tx).txs
    ensures w.txs <= Next(w, e.env, e.tx).txs
  {
    if Succeeds(w, e) {
      InvStep(w, e.env, e.tx);
    }
  }

  /** In every run an id is put into escrow at most once, and never after it was used; it leaves at most
      once; and what was put in and has not left is still there. */
  lemma {:induction false} EscrowOnce(w: World, es: seq<Event>, id: string)
    requires Inv(w) && AdmittedRun(w, es)
    ensures Entries(w, es, id) + Once(id in w.txs) <= Once(id in Run(w, es).txs) <= 1
    ensures Exits(w, es, id) + Once(HeldIn(Run(w, es), id)) == Entries(w, es, id) + Once(HeldIn(w, id))
    ensures Exits(w, es, id) <= 1
    decreases |es|
  {
    assert HeldIn(w, id) ==> id in w.txs;
    if es != [] {
      var front, e := es[..|es| - 1], es[|es| - 1];
      EscrowOnce(w, front, id);
      RunInv(w, front);
      EntersFresh(Run(w, front), e, id);
    }
  }

  /** An escrow that has left never comes back. */
  lemma NeverBack(w: World, es: seq<Event>, id: string)
    requires Inv(w) && AdmittedRun(w, es) && id in w.txs && !HeldIn(w, id)
    ensures !HeldIn(Run(w, es), id)
  {
    EscrowOnce(w, es, id);
  }

  /** While it is held an escrow keeps its owner, its amount, its fee and its time. */
  lemma {:induction false} HeldUnchanged(w: World, es: seq<Event>, id: string)
    requires Inv(w) && AdmittedRun(w, es) && HeldIn(w, id) && HeldIn(Run(w, es), id)
    ensures Run(w, es).book.pendings[id] == w.book.pendings[id]
    decreases |es|
  {
    if es != [] {
      var front, e := es[..|es| - 1], es[|es| - 1];
      var x := Run(w, front);
      RunInv(w, front);
      EscrowOnce(w, front, id);
      EntersFresh(x, e, id);
      assert HeldIn(x, id);
      HeldUnchanged(w, front, id);
      LeavesIff(x, e, id);
    }
  }

  // ---- what goes in comes out ----

  /** A deposit takes from its owner exactly what the escrow holds, and touches no other balance. */
  lemma DepositTakes(w: World, env: Env, m: Move)
    requires m.MDeposit? && Enabled(w, env, m)
    ensures var w' := Apply(w, env, m);
            HeldIn(w', env.txId) && w'.book.pendings[env.txId].account == m.s &&
            AmountOf(w'.book, m.s) == AmountOf(w.book, m.s) - Held(w'.book.pendings[env.txId]) &&
            forall a :: a != m.s ==> AmountOf(w'.book, a) == AmountOf(w.book, a)
  {
  }

  /** A cancel or a withdrawal gives the owner exactly what the escrow holds, and touches no other balance. */
  lemma ReleaseGives(w: World, env: Env, id: string)
    requires Enabled(w, env, MRelease(id))
    ensures var w', p := Apply(w, env, MRelease(id)), w.book.pendings[id];
            !HeldIn(w', id) && AmountOf(w'.book, p.account) == AmountOf(w.book, p.account) + Held(p) &&
            forall a :: a != p.account ==> AmountOf(w'.book, a) == AmountOf(w.book, a)
  {
  }

  /** Whatever happens in between, the cancel or withdrawal of a deposit gives back exactly what the
      deposit took. */
  lemma DepositRoundTrip(w: World, d: Event, es: seq<Event>, r: Event)
    requires Inv(w) && Admitted(w, d.env) && Succeeds(w, d) && MoveOf(w, d.env, d.tx).MDeposit?
    requires AdmittedRun(Next(w, d.env, d.tx), es)
    requires var x := Run(Next(w, d.env, d.tx), es);
             Admitted(x, r.env) && Succeeds(x, r) && MoveOf(x, r.env, r.tx) == MRelease(d.env.txId)
    ensures var s, w1 := MoveOf(w, d.env, d.tx).s, Next(w, d.env, d.tx);
            var x := Run(w1, es);
            AmountOf(Next(x, r.env, r.tx).book, s) - AmountOf(x.book, s) == AmountOf(w.book, s) - AmountOf(w1.book, s)
  {
    var w1 := Next(w, d.env, d.tx);
    var x := Run(w1, es);
    InvStep(w, d.env, d.tx);
    DepositTakes(w, d.env, MoveOf(w, d.env, d.tx));
    RunInv(w1, es);
    InvStep(x, r.env, r.tx);
    ReleaseGives(x, r.env, d.env.txId);
    HeldUnchanged(w1, es, d.env.txId);
  }
}
