// Who may do what, in terms of the documents on file: the holder index and the suspension of accounts.
module Rights {
  import opened Basics
  import opened World
  import opened Transactions
  import opened Moves
  import opened Invariants

  /** An account that is there and not suspended. */
  predicate Usable(w: World, a: Address) {
    a in w.registry.accounts && w.registry.accounts[a] != PersonalAccount(true)
  }

  /** The holder index lists the account for this person, and it is not suspended. */
  predicate MayAct(w: World, kid: Kid, a: Address) {
    (kid, a) in w.registry.holders && Usable(w, a)
  }

  /** A transaction answers as its handler does, and commits the handler's world with its id used up. */
  lemma StepAnswers(w: World, env: Env, tx: Tx)
    ensures Step(w, env, tx).Ok? <==> Handle(w, env, tx).Ok?
    ensures Step(w, env, tx).Ok? ==>
              Step(w, env, tx).value == Handle(w, env, tx).value.(txs := w.txs + {env.txId})
  {
  }

  lemma PartiesIff(w: World, s: Address, r: Address, kid: Kid)
    requires RegistryOk(w)
    ensures Parties(w, s, r, kid).Ok? <==> MayAct(w, kid, s) && Usable(w, r)
    ensures Parties(w, s, r, kid).Ok? ==> Parties(w, s, r, kid).value.0 == w.registry.accounts[s]
    ensures MayAct(w, kid, s) ==> s in w.book.balances
    ensures Usable(w, r) ==> r in w.book.balances
  {
  }

  /** Everything but balances, logs and escrow, pays and fees as it was. */
  predicate OnlyBook(w: World, w': World) {
    w'.registry == w.registry && w'.tokens == w.tokens && w'.contracts == w.contracts
  }

  /** A new contract with this document, and nothing else. */
  predicate Asked(w: World, env: Env, w': World, doc: Doc) {
    env.contract.Some? &&
    w' == w.(contracts := w.contracts[env.contract.value.cid := doc], txs := w.txs + {env.txId})
  }
}
