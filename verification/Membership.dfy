// Accounts and their holders: exactly when an account is opened, suspended, or gets or loses a holder, and
// that the person of the request, and nobody else, is then a holder.
module Membership {
  import opened Basics
  import opened World
  import opened Stubs
  import opened Transactions
  import opened Moves
  import opened Invariants
  import opened Runs
  import opened Rights
  import opened Holders

  // ---- opening an account ----

  /** A new account with these holders in the index, an empty balance, and nothing else. */
  ghost predicate Opened(w: World, w': World, a: Address, account: Account, holders: set<Kid>) {
    && a !in w.registry.accounts && w'.registry.accounts == w.registry.accounts[a := account]
    && (forall k, b :: (k, b) in w'.registry.holders <==> (k, b) in w.registry.holders || (b == a && k in holders))
    && w'.book == w.book.(balances := w.book.balances[a := BalanceDoc(0, "")])
    && w'.tokens == w.tokens && w'.contracts == w.contracts
  }

  /** Without co-holders: the invoker's personal account is opened exactly when there is none yet and the token
      is issued or has metadata. */
  lemma PersonalSucceedsIff(w: World, env: Env, code: string)
    ensures var r, a := Step(w, env, AccountCreate(code, [])), Address(code, Personal, env.kid);
            && (r.Ok? <==> (code in w.tokens || env.meta.Some?) && a !in w.registry.accounts)
            && (r.Ok? ==> Opened(w, r.value, a, PersonalAccount(false), {env.kid}))
  {
    StepAnswers(w, env, AccountCreate(code, []));
  }

  /** With co-holders: a contract is asked for exactly when the invoker has a personal account, at most 128
      addresses of existing accounts of the token are named, and they stand for somebody else. */
  lemma JointSucceedsIff(w: World, env: Env, code: string, coHolders: seq<Address>)
    requires coHolders != []
    ensures var r := Step(w, env, AccountCreate(code, coHolders));
            && (r.Ok? <==>
                  && (code in w.tokens || env.meta.Some?) && Address(code, Personal, env.kid) in w.registry.accounts
                  && |Named(coHolders)| <= 128
                  && (forall a :: a in coHolders ==> a.code == code && a in w.registry.accounts)
                  && |Requested(w, env, coHolders)| >= 2 && env.contract.Some?)
            && (r.Ok? ==> Asked(w, env, r.value, AccountDoc(code, Requested(w, env, coHolders))))
  {
    StepAnswers(w, env, AccountCreate(code, coHolders));
    SignablesAre(w, code, coHolders);
  }

  /** The contract opens the joint account exactly when its address is free. */
  lemma OpenSucceedsIff(w: World, env: Env, cid: string)
    requires cid in w.contracts && w.contracts[cid].AccountDoc?
    ensures var r, doc := Step(w, env, ContractExecute(cid)), w.contracts[cid];
            var a := Address(doc.code, Joint, env.jointId);
            && (r.Ok? <==> a !in w.registry.accounts)
            && (r.Ok? ==> Opened(w, r.value, a, JointAccount(doc.holders), doc.holders))
  {
    StepAnswers(w, env, ContractExecute(cid));
  }

  // ---- suspension ----

  /** The invoker's own personal account is suspended exactly when it exists and is not, and the other way round;
      nothing else changes. */
  lemma SuspendSucceedsIff(w: World, env: Env, code: string, suspend: bool)
    requires KindsOk(w.registry)
    ensures var r := Step(w, env, if suspend then AccountSuspend(code) else AccountUnsuspend(code));
            var a := Address(code, Personal, env.kid);
            && (r.Ok? <==> a in w.registry.accounts && w.registry.accounts[a] == PersonalAccount(!suspend))
            && (r.Ok? ==>
                  && r.value.registry.accounts == w.registry.accounts[a := PersonalAccount(suspend)]
                  && r.value == w.(registry := r.value.registry, txs := w.txs + {env.txId})
                  && r.value.registry.holders == w.registry.holders)
  {
    StepAnswers(w, env, if suspend then AccountSuspend(code) else AccountUnsuspend(code));
  }

  // ---- holders come and go ----

  /** A person is added to an account, or taken from it: the account and the index change by exactly that. */
  predicate Changed(w: World, w': World, a: Address, kid: Kid, added: bool) {
    && a in w.registry.accounts && w.registry.accounts[a].JointAccount?
    && var holders := w.registry.accounts[a].holders;
       && (kid in holders <==> !added)
       && w'.registry.accounts ==
          w.registry.accounts[a := JointAccount(if added then holders + {kid} else holders - {kid})]
       && w'.registry.holders == (if added then w.registry.holders + {(kid, a)} else w.registry.holders - {(kid, a)})
       && w'.book == w.book && w'.tokens == w.tokens && w'.contracts == w.contracts
  }

  /** Adding needs a joint account of fewer than 128 that the invoker holds, and somebody's personal account of the
      same token who does not hold it yet. It asks for a contract that names exactly that person. */
  lemma AddSucceedsIff(w: World, env: Env, a: Address, t: Address)
    requires KindsOk(w.registry)
    ensures var r := Step(w, env, AccountHolderAdd(a, t));
            && (r.Ok? <==>
                  && a.kind == Joint && t.kind == Personal && a.code == t.code
                  && a in w.registry.accounts && t in w.registry.accounts
                  && var holders := w.registry.accounts[a].holders;
                     |holders| <= 127 && env.kid in holders && t.id !in holders && env.contract.Some?)
            && (r.Ok? ==> Asked(w, env, r.value, AddHolderDoc(a, t.id)))
  {
    StepAnswers(w, env, AccountHolderAdd(a, t));
    if a in w.registry.accounts && a.kind == Joint { AtLeastTwo(w.registry.accounts[a].holders, env.kid, t.id); }
  }

  lemma AtLeastTwo(holders: set<Kid>, kid: Kid, other: Kid)
    ensures kid in holders && other !in holders ==> |holders + {other}| >= 2
  {
    if kid in holders && other !in holders { Subset({kid, other}, holders + {other}); }
  }

  lemma {:induction false} Subset<T>(a: set<T>, b: set<T>)
    requires a <= b
    ensures |a| <= |b|
    decreases a
  {
    if a != {} {
      var x :| x in a;
      Subset(a - {x}, b - {x});
    }
  }

  /** The contract adds its person exactly while there is room and the person is not yet a holder. */
  lemma AddedIff(w: World, env: Env, cid: string)
    requires cid in w.contracts && w.contracts[cid].AddHolderDoc?
    ensures var r, a, kid := Step(w, env, ContractExecute(cid)), w.contracts[cid].account, w.contracts[cid].holder;
            && (r.Ok? <==> a in w.registry.accounts && w.registry.accounts[a].JointAccount? &&
                           |w.registry.accounts[a].holders| <= 127 && kid !in w.registry.accounts[a].holders)
            && (r.Ok? ==> Changed(w, r.value, a, kid, true))
  {
    StepAnswers(w, env, ContractExecute(cid));
  }

  /** Removing needs a joint account of more than two that the invoker holds. Oneself is removed at once; for
      another holder it asks for a contract that names exactly that person. */
  lemma RemoveSucceedsIff(w: World, env: Env, a: Address, t: Address)
    requires KindsOk(w.registry)
    ensures var r := Step(w, env, AccountHolderRemove(a, t));
            && (r.Ok? <==>
                  && a.kind == Joint && t.kind == Personal && a.code == t.code && a in w.registry.accounts
                  && var holders := w.registry.accounts[a].holders;
                     |holders| >= 3 && env.kid in holders && t.id in holders && (t.id == env.kid || env.contract.Some?))
            && (r.Ok? ==>
                  if t.id == env.kid then Changed(w, r.value, a, t.id, false)
                  else Asked(w, env, r.value, RemoveHolderDoc(a, t.id)))
  {
    StepAnswers(w, env, AccountHolderRemove(a, t));
  }

  /** The contract removes its person exactly while two others stay. */
  lemma RemovedIff(w: World, env: Env, cid: string)
    requires cid in w.contracts && w.contracts[cid].RemoveHolderDoc?
    ensures var r, a, kid := Step(w, env, ContractExecute(cid)), w.contracts[cid].account, w.contracts[cid].holder;
            && (r.Ok? <==> a in w.registry.accounts && w.registry.accounts[a].JointAccount? &&
                           |w.registry.accounts[a].holders| >= 3 && kid in w.registry.accounts[a].holders)
            && (r.Ok? ==> Changed(w, r.value, a, kid, false))
  {
    StepAnswers(w, env, ContractExecute(cid));
  }

  // ---- from the request to the callback ----

  lemma AskedStays(w: World, w1: World, env: Env, es: seq<Event>, doc: Doc)
    requires Inv(w1) && Asked(w, env, w1, doc) && AdmittedRun(w1, es)
    ensures var x, cid := Run(w1, es), env.contract.value.cid; cid in x.contracts && x.contracts[cid] == doc
  {
    DocStays(w1, es, env.contract.value.cid);
  }

  /** Whatever happens between the request for a new holder and the callback: if the callback succeeds, the
      account of the request has got the person of the request, and no other account and no other person is
      concerned. */
  lemma HolderAdded(w: World, env: Env, a: Address, t: Address, w1: World, es: seq<Event>, callback: Event)
    requires Inv(w) && Admitted(w, env) && Step(w, env, AccountHolderAdd(a, t)) == Ok(w1) && env.contract.Some?
    requires AdmittedRun(w1, es) && Succeeds(Run(w1, es), callback)
    requires callback.tx == ContractExecute(env.contract.value.cid)
    ensures Changed(Run(w1, es), Next(Run(w1, es), callback.env, callback.tx), a, t.id, true)
  {
    StepKeepsInv(w, Event(env, AccountHolderAdd(a, t)));
    AddSucceedsIff(w, env, a, t);
    AskedStays(w, w1, env, es, AddHolderDoc(a, t.id));
    AddedIff(Run(w1, es), callback.env, env.contract.value.cid);
  }

  /** The same for the removal of another holder. */
  lemma HolderRemoved(w: World, env: Env, a: Address, t: Address, w1: World, es: seq<Event>, callback: Event)
    requires Inv(w) && Admitted(w, env) && Step(w, env, AccountHolderRemove(a, t)) == Ok(w1)
    requires t.id != env.kid && env.contract.Some?
    requires AdmittedRun(w1, es) && Succeeds(Run(w1, es), callback)
    requires callback.tx == ContractExecute(env.contract.value.cid)
    ensures Changed(Run(w1, es), Next(Run(w1, es), callback.env, callback.tx), a, t.id, false)
  {
    StepKeepsInv(w, Event(env, AccountHolderRemove(a, t)));
    RemoveSucceedsIff(w, env, a, t);
    AskedStays(w, w1, env, es, RemoveHolderDoc(a, t.id));
    RemovedIff(Run(w1, es), callback.env, env.contract.value.cid);
  }
}
