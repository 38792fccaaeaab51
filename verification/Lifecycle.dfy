// What only ever moves one way: accounts, tokens and their maximum supply, fee policies, prune cursors.
// And the bounds on the holders of joint accounts.
module Lifecycle {
  import opened Basics
  import opened World
  import opened Stubs
  import opened Paging
  import opened Transactions
  import opened Moves
  import opened Invariants
  import opened Runs
  import opened ExactlyOnce

  // ---- tokens and accounts ----

  /** Accounts and tokens never disappear; a token keeps its maximum supply and its genesis account; a
      fee policy once present is never absent again. */
  ghost predicate Endures(w: World, w': World) {
    && w.registry.accounts.Keys <= w'.registry.accounts.Keys
    && (forall c :: c in w.tokens ==>
          c in w'.tokens && w'.tokens[c].maxSupply == w.tokens[c].maxSupply &&
          w'.tokens[c].genesis == w.tokens[c].genesis &&
          (w.tokens[c].policy.Some? ==> w'.tokens[c].policy.Some?))
  }

  lemma MoveEndures(w: World, env: Env, m: Move)
    requires Enabled(w, env, m)
    ensures Endures(w, Apply(w, env, m))
  {
    match GroupOf(m)
    case Flow => FlowEndures(w, env, m);
    case Records => RecordsEndure(w, env, m);
    case Office => OfficeEndures(w, env, m);
  }

  lemma FlowEndures(w: World, env: Env, m: Move)
    requires Enabled(w, env, m) && GroupOf(m) == Flow
    ensures Endures(w, Apply(w, env, m))
  {
  }

  lemma RecordsEndure(w: World, env: Env, m: Move)
    requires Enabled(w, env, m) && GroupOf(m) == Records
    ensures Endures(w, Apply(w, env, m))
  {
  }

  lemma OfficeEndures(w: World, env: Env, m: Move)
    requires Enabled(w, env, m) && GroupOf(m) == Office
    ensures Endures(w, Apply(w, env, m))
  {
  }

  /** Opening an account or issuing a token leaves every existing balance and its prune cursor alone. */
  lemma CreationResetsNothing(w: World, env: Env, m: Move, a: Address)
    requires RegistryOk(w) && Enabled(w, env, m) && (m.MOpen? || m.MIssue?) && a in w.book.balances
    ensures a in Apply(w, env, m).book.balances && Apply(w, env, m).book.balances[a] == w.book.balances[a]
  {
    if m.MIssue? { IssueWrites(w, env, m.code, m.meta, m.holders); }
  }

  // ---- supply ----

  /** Only minting and burning change a supply. A mint adds what fits under the maximum, a burn removes what
      the genesis account has, and the genesis balance moves by the same difference, alone. */
  lemma SupplyMoves(w: World, env: Env, m: Move, c: string)
    requires RegistryOk(w) && TokensOk(w) && Enabled(w, env, m) && c in w.tokens
    ensures var w', t := Apply(w, env, m), w.tokens[c];
            c in w'.tokens &&
            w'.tokens[c].supply - t.supply ==
              if m.MMint? && m.code == c then Min(m.amount, t.maxSupply - t.supply)
              else if m.MBurn? && m.code == c then -Min(m.amount, AmountOf(w.book, t.genesis))
              else 0
    ensures (m.MMint? || m.MBurn?) && m.code == c ==>
              var w', g := Apply(w, env, m), w.tokens[c].genesis;
              AmountOf(w'.book, g) - AmountOf(w.book, g) == w'.tokens[c].supply - w.tokens[c].supply &&
              forall a :: a != g ==> AmountOf(w'.book, a) == AmountOf(w.book, a)
  {
    match GroupOf(m)
    case Flow => FlowKeepsTokens(w, env, m);
    case Records => FlowKeepsTokens(w, env, m);
    case Office => if m.MIssue? { IssueWrites(w, env, m.code, m.meta, m.holders); }
  }

  lemma FlowKeepsTokens(w: World, env: Env, m: Move)
    requires Enabled(w, env, m) && GroupOf(m) != Office
    ensures w.tokens.Keys <= Apply(w, env, m).tokens.Keys
    ensures forall c :: c in w.tokens ==> Apply(w, env, m).tokens[c].supply == w.tokens[c].supply
  {
  }

  // ---- holders ----

  predicate IsGenesis(w: World, a: Address) {
    a.code in w.tokens && w.tokens[a.code].genesis == a
  }

  /** Every joint account has at least two holders, but for genesis accounts. */
  ghost predicate HoldersOk(w: World) {
    forall a :: a in w.registry.accounts && w.registry.accounts[a].JointAccount? ==>
      |w.registry.accounts[a].holders| >= 2 || IsGenesis(w, a)
  }

  lemma BooksKeepHolders(w: World, env: Env, m: Move)
    requires HoldersOk(w) && Enabled(w, env, m) && GroupOf(m) != Office
    ensures HoldersOk(Apply(w, env, m))
  {
    MoveEndures(w, env, m);
    assert Apply(w, env, m).registry == w.registry;
  }

  lemma IssueKeepsHolders(w: World, env: Env, m: Move)
    requires HoldersOk(w) && RegistryOk(w) && Enabled(w, env, m) && m.MIssue?
    ensures HoldersOk(Apply(w, env, m))
  {
    MoveEndures(w, env, m);
    IssueWrites(w, env, m.code, m.meta, m.holders);
  }

  lemma OfficeKeepsHolders(w: World, env: Env, m: Move)
    requires HoldersOk(w) && Enabled(w, env, m) && GroupOf(m) == Office && !m.MIssue?
    ensures HoldersOk(Apply(w, env, m))
    ensures m.MHolder? && !m.add ==> 2 <= |Apply(w, env, m).registry.accounts[m.a].holders|
    ensures m.MHolder? && m.add ==> |Apply(w, env, m).registry.accounts[m.a].holders| <= 128
  {
    MoveEndures(w, env, m);
  }

  lemma MoveKeepsHolders(w: World, env: Env, m: Move)
    requires HoldersOk(w) && RegistryOk(w) && Enabled(w, env, m)
    ensures HoldersOk(Apply(w, env, m))
  {
    if GroupOf(m) != Office { BooksKeepHolders(w, env, m); }
    else if m.MIssue? { IssueKeepsHolders(w, env, m); }
    else { OfficeKeepsHolders(w, env, m); }
  }

  // ---- cursors ----

  /** No prune cursor moves back. */
  ghost predicate CursorsForward(w: World, w': World) {
    && (forall a :: PayCursor(w.book.balances, a) <= PayCursor(w'.book.balances, a))
    && (forall c :: FeeCursor(w, c) <= FeeCursor(w', c))
  }

  /** A pay prune moves its cursor strictly forward, to the end of its page. */
  lemma PayPruneForward(w: World, env: Env, a: Address, end: Time)
    requires Inv(w) && Enabled(w, env, MPayPrune(a, end)) && Faithful(env.query)
    ensures var w' := Apply(w, env, MPayPrune(a, end));
            CursorsForward(w, w') && PayCursor(w.book.balances, a) < PayCursor(w'.book.balances, a) <= end
  {
    PayPruneTimes(w, env, a, end);
  }

  /** So does a fee prune, whether the cursor was already stored or is still in the token. */
  lemma FeePruneForward(w: World, env: Env, code: string, end: Time)
    requires Inv(w) && Enabled(w, env, MFeePrune(code, end)) && Faithful(env.query)
    ensures var w' := Apply(w, env, MFeePrune(code, end));
            CursorsForward(w, w') && FeeCursor(w, code) < FeeCursor(w', code) <= end
  {
    FeePruneTimes(w, env, code, end);
  }

  lemma MoveForward(w: World, env: Env, m: Move)
    requires Inv(w) && NewIds(w, env) && Enabled(w, env, m) && Faithful(env.query)
    ensures CursorsForward(w, Apply(w, env, m))
  {
    if m.MPayPrune? { PayPruneForward(w, env, m.a, m.end); }
    else if m.MFeePrune? { FeePruneForward(w, env, m.code, m.end); }
    else {
      MoveGrows(w, env, m);
      OnlyPrunesMoveCursors(w, env, m);
      KeptCursorTimes(w, Apply(w, env, m));
    }
  }

  // ---- whole runs ----

  lemma StepLifecycle(w: World, e: Event)
    requires Inv(w) && HoldersOk(w) && Admitted(w, e.env)
    ensures var w' := Next(w, e.env, e.tx); Endures(w, w') && CursorsForward(w, w') && HoldersOk(w')
  {
    if Succeeds(w, e) {
      var m := MoveOf(w, e.env, e.tx);
      InvStep(w, e.env, e.tx);
      MoveEndures(w, e.env, m);
      MoveForward(w, e.env, m);
      MoveKeepsHolders(w, e.env, m);
    }
  }

  /** Over every run: accounts and tokens stay, no cursor moves back through prunes, migration, updates
      or failures, the supply keeps within an unchanging maximum, and joint accounts keep two holders. */
  lemma {:induction false} LifecycleRun(w: World, es: seq<Event>)
    requires Inv(w) && HoldersOk(w) && AdmittedRun(w, es)
    ensures var w' := Run(w, es);
            Inv(w') && HoldersOk(w') && Endures(w, w') && CursorsForward(w, w') &&
            forall c :: c in w.tokens ==> w'.tokens[c].supply <= w.tokens[c].maxSupply
    decreases |es|
  {
    RunInv(w, es);
    if es != [] {
      var front, e := es[..|es| - 1], es[|es| - 1];
      LifecycleRun(w, front);
      StepLifecycle(Run(w, front), e);
    }
  }

  /** A token with a fee policy always has one from then on, and its target is always an account. */
  lemma PolicyStays(w: World, es: seq<Event>, c: string)
    requires Inv(w) && HoldersOk(w) && AdmittedRun(w, es) && c in w.tokens && w.tokens[c].policy.Some?
    ensures var w' := Run(w, es);
            c in w'.tokens && w'.tokens[c].policy.Some? && w'.tokens[c].policy.value.target in w'.registry.accounts
  {
    LifecycleRun(w, es);
  }

  // ---- order ids ----

  /** What a payment by contract files under its order id and its memo: the callback hands the two to the
      stub in the wrong order, so the record is right exactly when they are equal. */
  lemma ContractPayOrder(w: World, env: Env, cid: string)
    requires cid in w.contracts && w.contracts[cid].PayDoc? && NewIds(w, env)
    requires ExecuteDoc(w, env, cid, w.contracts[cid]).Ok?
    ensures var doc, b := w.contracts[cid], ExecuteDoc(w, env, cid, w.contracts[cid]).value.book;
            env.recordId in b.pays &&
            (b.pays[env.recordId].orderId == doc.orderId && b.pays[env.recordId].memo == doc.memo <==>
             doc.orderId == doc.memo)
  {
  }
}
