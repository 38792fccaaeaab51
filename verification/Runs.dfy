// Runs: any sequence of transactions, failed ones included. What holds of every run from a sound world.
module Runs {
  import opened Basics
  import opened World
  import opened Transactions
  import opened Moves
  import opened Invariants
  import opened Conservation

  datatype Event = Event(env: Env, tx: Tx)

  function Run(w: World, es: seq<Event>): World
    decreases |es|
  {
    if es == [] then w
    else
      var last := es[|es| - 1];
      Next(Run(w, es[..|es| - 1]), last.env, last.tx)
  }

  /** What the platform grants, at every event. */
  ghost predicate AdmittedRun(w: World, es: seq<Event>)
    decreases |es|
  {
    es == [] || (AdmittedRun(w, es[..|es| - 1]) && Admitted(Run(w, es[..|es| - 1]), es[|es| - 1].env))
  }

  predicate Succeeds(w: World, e: Event) {
    Step(w, e.env, e.tx).Ok?
  }

  lemma {:induction false} RunInv(w: World, es: seq<Event>)
    requires Inv(w) && AdmittedRun(w, es)
    ensures Inv(Run(w, es))
    decreases |es|
  {
    if es != [] {
      var front, last := es[..|es| - 1], es[|es| - 1];
      RunInv(w, front);
      if Succeeds(Run(w, front), last) {
        InvStep(Run(w, front), last.env, last.tx);
      }
    }
  }

  lemma StepKeepsInv(w: World, e: Event)
    requires Inv(w) && Admitted(w, e.env)
    ensures Inv(Next(w, e.env, e.tx))
  {
    if Succeeds(w, e) { InvStep(w, e.env, e.tx); }
  }

  /** A run seen from its first event. */
  lemma {:induction false} RunCons(w: World, es: seq<Event>)
    requires es != []
    ensures Run(w, es) == Run(Next(w, es[0].env, es[0].tx), es[1..])
    ensures AdmittedRun(w, es) <==> Admitted(w, es[0].env) && AdmittedRun(Next(w, es[0].env, es[0].tx), es[1..])
    decreases |es|
  {
    var front, rest, last := es[..|es| - 1], es[1..], es[|es| - 1];
    if |es| == 1 {
      assert Run(w, []) == w && rest == [];
    } else {
      RunCons(w, front);
      assert front[1..] == rest[..|rest| - 1] && rest[|rest| - 1] == last && front[0] == es[0];
      assert Run(w, es) == Next(Run(w, front), last.env, last.tx);
    }
  }

  // ---- conservation ----

  /** How far a token's value is from its supply. */
  ghost function Gap(w: World, c: string): int {
    Total(w, c) - SupplyOf(w, c)
  }

  /** What one event loses of token c. */
  ghost function LostAt(w: World, e: Event, c: string): int
  {
    if Succeeds(w, e) && Enabled(w, e.env, MoveOf(w, e.env, e.tx)) then Lost(w, e.env, MoveOf(w, e.env, e.tx), c) else 0
  }

  ghost function LostIn(w: World, es: seq<Event>, c: string): int
    decreases |es|
  {
    if es == [] then 0
    else LostIn(w, es[..|es| - 1], c) + LostAt(Run(w, es[..|es| - 1]), es[|es| - 1], c)
  }

  lemma StepDrift(w: World, e: Event, c: string)
    requires Inv(w) && Admitted(w, e.env)
    ensures Gap(Next(w, e.env, e.tx), c) == Gap(w, c) - LostAt(w, e, c)
  {
    if Succeeds(w, e) {
      InvStep(w, e.env, e.tx);
      MoveDrift(w, e.env, MoveOf(w, e.env, e.tx), c);
      CommitKeepsTotal(Apply(w, e.env, MoveOf(w, e.env, e.tx)), w.txs + {e.env.txId}, c);
    }
  }

  lemma CommitKeepsTotal(w: World, txs: set<string>, c: string)
    ensures Total(w.(txs := txs), c) == Total(w, c) && SupplyOf(w.(txs := txs), c) == SupplyOf(w, c)
  {
  }

  /** Over any run, value and supply drift apart by exactly what the run's events lose. */
  lemma {:induction false} ExactAccounting(w: World, es: seq<Event>, c: string)
    requires Inv(w) && AdmittedRun(w, es)
    ensures Gap(Run(w, es), c) == Gap(w, c) - LostIn(w, es, c)
    decreases |es|
  {
    if es != [] {
      var front, last := es[..|es| - 1], es[|es| - 1];
      ExactAccounting(w, front, c);
      RunInv(w, front);
      StepDrift(Run(w, front), last, c);
    }
  }

  /** An event that loses nothing: its record lands above the cursor, fees stay in their token, and its
      page ends between two times. */
  predicate Careful(w: World, e: Event) {
    Succeeds(w, e) && Enabled(w, e.env, MoveOf(w, e.env, e.tx)) ==>
      PageClean(w, e.env, MoveOf(w, e.env, e.tx)) && Lands(w, e.env, MoveOf(w, e.env, e.tx))
  }

  predicate CarefulRun(w: World, es: seq<Event>)
    decreases |es|
  {
    es == [] || (CarefulRun(w, es[..|es| - 1]) && Careful(Run(w, es[..|es| - 1]), es[|es| - 1]))
  }

  /** A fee prune of this world would pay an account of the token it prunes. */
  predicate HomeTarget(w: World, tx: Tx) {
    tx.FeePrune? && tx.code in w.tokens && w.tokens[tx.code].policy.Some? ==>
      w.tokens[tx.code].policy.value.target.code == tx.code
  }

  predicate HomeTargets(w: World, es: seq<Event>)
    decreases |es|
  {
    es == [] || (HomeTargets(w, es[..|es| - 1]) && HomeTarget(Run(w, es[..|es| - 1]), es[|es| - 1].tx))
  }

  lemma FeePruneOf(w: World, env: Env, tx: Tx)
    ensures MoveOf(w, env, tx).MFeePrune? ==> tx.FeePrune? && MoveOf(w, env, tx).code == tx.code
  {
  }

  lemma StepConserves(w: World, e: Event, c: string)
    requires Inv(w) && Admitted(w, e.env) && Careful(w, e)
    ensures Gap(Next(w, e.env, e.tx), c) == Gap(w, c)
  {
    StepDrift(w, e, c);
    if Succeeds(w, e) {
      InvStep(w, e.env, e.tx);
      LandsIffNothingLost(w, e.env, MoveOf(w, e.env, e.tx));
    }
  }

  /** Conservation over every run: with careful events the supply of every token is at all times the sum
      of its balances, its escrow, its unspent pays and its unspent fees. */
  lemma {:induction false} ValueConserved(w: World, es: seq<Event>, c: string)
    requires Inv(w) && AdmittedRun(w, es) && CarefulRun(w, es)
    requires Total(w, c) == SupplyOf(w, c)
    ensures Total(Run(w, es), c) == SupplyOf(Run(w, es), c)
    decreases |es|
  {
    if es != [] {
      var front, last := es[..|es| - 1], es[|es| - 1];
      ValueConserved(w, front, c);
      RunInv(w, front);
      StepConserves(Run(w, front), last, c);
    }
  }

  lemma EmptyConserved(c: string)
    ensures Inv(EMPTY) && Total(EMPTY, c) == SupplyOf(EMPTY, c)
  {
    EmptyInv();
    assert BalanceParts(EMPTY.book.balances, c) == map[];
    assert EscrowParts(EMPTY.book.pendings, c) == map[];
    assert PayParts(EMPTY.book.pays, Cursors(EMPTY.book.balances), c) == map[];
    assert FeeParts(EMPTY.book.fees, FeeCursor(EMPTY, c), c) == map[];
  }
}
