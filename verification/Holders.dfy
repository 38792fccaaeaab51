// How many holders a joint account can have. The documentation promises 128 at most; adding a holder keeps
// to it, and creating an account or a token keeps to it only when the request does.
module Holders {
  import opened Basics
  import opened World
  import opened Stubs
  import opened Transactions
  import opened Moves
  import opened Invariants
  import opened Runs

  /** Personal accounts of one token stand for as many people. */
  lemma {:induction false} PersonalKids(accounts: map<Address, Account>, code: string, addrs: set<Address>)
    requires forall a :: a in addrs ==>
               a.code == code && a.kind == Personal && a in accounts && accounts[a].PersonalAccount?
    ensures |KidsOf(accounts, addrs)| == |addrs|
    ensures forall kid :: kid in KidsOf(accounts, addrs) <==> Address(code, Personal, kid) in addrs
    decreases addrs
  {
    assert forall a :: a in addrs ==> a == Address(code, Personal, a.id) && HoldersOf(a, accounts[a]) == {a.id};
    if addrs != {} {
      var a :| a in addrs;
      var rest := addrs - {a};
      PersonalKids(accounts, code, rest);
      assert KidsOf(accounts, addrs) == KidsOf(accounts, rest) + {a.id};
    } else {
      assert KidsOf(accounts, addrs) == {};
    }
  }

  /** The holders a request for a joint account names: the invoker, and all holders of all co-holders. */
  ghost function Requested(w: World, env: Env, coHolders: seq<Address>): set<Kid> {
    {env.kid} + KidsOf(w.registry.accounts, Named(coHolders))
  }

  lemma OthersKids(accounts: map<Address, Account>, code: string, kid: Kid, addrs: set<Address>)
    requires forall a :: a in addrs ==>
               a.code == code && a.kind == Personal && a in accounts && accounts[a].PersonalAccount?
    ensures var mine := Address(code, Personal, kid);
            {kid} + KidsOf(accounts, addrs) == {kid} + KidsOf(accounts, addrs - {mine}) &&
            kid !in KidsOf(accounts, addrs - {mine})
  {
    PersonalKids(accounts, code, addrs);
    PersonalKids(accounts, code, addrs - {Address(code, Personal, kid)});
    WithoutMine(code, kid, addrs, KidsOf(accounts, addrs), KidsOf(accounts, addrs - {Address(code, Personal, kid)}));
  }

  lemma WithoutMine(code: string, kid: Kid, addrs: set<Address>, all: set<Kid>, others: set<Kid>)
    requires forall k :: k in all <==> Address(code, Personal, k) in addrs
    requires forall k :: k in others <==> Address(code, Personal, k) in addrs - {Address(code, Personal, kid)}
    ensures {kid} + all == {kid} + others && kid !in others
  {
  }

  /** With personal co-holders: the invoker, and one person for every other address named. */
  lemma PersonalCount(w: World, env: Env, code: string, coHolders: seq<Address>)
    requires forall a :: a in coHolders ==>
               a.kind == Personal && a.code == code && a in w.registry.accounts &&
               w.registry.accounts[a].PersonalAccount?
    ensures |Requested(w, env, coHolders)| == 1 + |Named(coHolders) - {Address(code, Personal, env.kid)}|
  {
    var addrs, mine := Named(coHolders), Address(code, Personal, env.kid);
    OthersKids(w.registry.accounts, code, env.kid, addrs);
    PersonalKids(w.registry.accounts, code, addrs - {mine});
  }

  // ---- accounts ----

  lemma RequestFiled(w: World, env: Env, code: string, coHolders: seq<Address>)
    requires AccountCreateTx(w, env, code, coHolders).Ok? && coHolders != []
    ensures env.contract.Some?
    ensures AccountCreateTx(w, env, code, coHolders).value ==
            w.(contracts := w.contracts[env.contract.value.cid := AccountDoc(code, Requested(w, env, coHolders))])
    ensures forall a :: a in coHolders ==> a.code == code && a in w.registry.accounts
    ensures |Named(coHolders)| <= 128
  {
    SignablesAre(w, code, coHolders);
  }

  /** What it takes for a request to be filed. */
  lemma RequestStep(w: World, env: Env, code: string, coHolders: seq<Address>)
    requires env.meta.Some? && env.contract.Some? && coHolders != [] &&
             Address(code, Personal, env.kid) in w.registry.accounts
    requires |Named(coHolders)| <= 128 && forall a :: a in coHolders ==> a.code == code && a in w.registry.accounts
    requires |Requested(w, env, coHolders)| >= 2
    ensures Step(w, env, AccountCreate(code, coHolders)) ==
            Ok(w.(contracts := w.contracts[env.contract.value.cid := AccountDoc(code, Requested(w, env, coHolders))],
                  txs := w.txs + {env.txId}))
  {
    SignablesAre(w, code, coHolders);
  }

  /** When all co-holders are personal accounts, a request keeps to 128 holders exactly when it names fewer
      than 128 of them, or the invoker's own is among them. */
  lemma PersonalLimitIff(w: World, env: Env, code: string, coHolders: seq<Address>)
    requires KindsOk(w.registry) && AccountCreateTx(w, env, code, coHolders).Ok? && coHolders != []
    requires forall a :: a in coHolders ==> a.kind == Personal
    ensures |Requested(w, env, coHolders)| <= 128 <==>
            |Named(coHolders)| < 128 || Address(code, Personal, env.kid) in coHolders
  {
    RequestFiled(w, env, code, coHolders);
    PersonalCount(w, env, code, coHolders);
    var addrs, mine := Named(coHolders), Address(code, Personal, env.kid);
    if mine in addrs { assert |addrs - {mine}| == |addrs| - 1; } else { assert addrs - {mine} == addrs; }
  }

  lemma {:induction false} DocStays(w: World, es: seq<Event>, cid: string)
    requires Inv(w) && AdmittedRun(w, es) && cid in w.contracts
    ensures cid in Run(w, es).contracts && Run(w, es).contracts[cid] == w.contracts[cid]
    decreases |es|
  {
    if es != [] {
      var front, e := es[..|es| - 1], es[|es| - 1];
      DocStays(w, front, cid);
      RunInv(w, front);
      if Succeeds(Run(w, front), e) { InvStep(Run(w, front), e.env, e.tx); }
    }
  }

  /** The joint account that a request ends in, whatever happens in between: it has exactly the requested
      holders. So it keeps to 128 of them exactly when the invoker and the holders of the named accounts are
      at most 128; for personal co-holders, exactly when fewer than 128 are named or the invoker is. */
  lemma HolderLimitIff(w: World, request: Event, es: seq<Event>, callback: Event)
    requires Inv(w) && Admitted(w, request.env) && Succeeds(w, request)
    requires request.tx.AccountCreate? && request.tx.coHolders != [] && request.env.contract.Some?
    requires var w1 := Next(w, request.env, request.tx);
             AdmittedRun(w1, es) && Succeeds(Run(w1, es), callback)
    requires callback.tx == ContractExecute(request.env.contract.value.cid)
    ensures var x := Run(Next(w, request.env, request.tx), es);
            var accounts := Next(x, callback.env, callback.tx).registry.accounts;
            var a, coHolders := Address(request.tx.code, Joint, callback.env.jointId), request.tx.coHolders;
            && a !in x.registry.accounts && a in accounts
            && accounts[a] == JointAccount(Requested(w, request.env, coHolders))
            && ((forall b :: b in coHolders ==> b.kind == Personal) ==>
                  (|accounts[a].holders| <= 128 <==>
                   |Named(coHolders)| < 128 || Address(request.tx.code, Personal, request.env.kid) in coHolders))
  {
    var w1 := Next(w, request.env, request.tx);
    var cid := request.env.contract.value.cid;
    RequestFiled(w, request.env, request.tx.code, request.tx.coHolders);
    assert w1.contracts[cid] == AccountDoc(request.tx.code, Requested(w, request.env, request.tx.coHolders));
    InvStep(w, request.env, request.tx);
    DocStays(w1, es, cid);
    CallbackOpens(Run(w1, es), callback, cid);
    if forall b :: b in request.tx.coHolders ==> b.kind == Personal {
      PersonalLimitIff(w, request.env, request.tx.code, request.tx.coHolders);
    }
  }

  lemma CallbackOpens(w: World, e: Event, cid: string)
    requires cid in w.contracts && w.contracts[cid].AccountDoc? && e.tx == ContractExecute(cid) && Succeeds(w, e)
    ensures var a := Address(w.contracts[cid].code, Joint, e.env.jointId);
            var accounts := Next(w, e.env, e.tx).registry.accounts;
            a !in w.registry.accounts && a in accounts && accounts[a] == JointAccount(w.contracts[cid].holders)
  {
  }

  // ---- tokens ----

  /** A request for a token counts nothing: more than one holder go by contract, a single one at once. */
  lemma TokenRequestFiled(w: World, env: Env, code: string, coHolders: seq<Address>)
    requires TokenCreateTx(w, env, code, coHolders).Ok?
    ensures env.meta.Some? && ValidMeta(env.meta.value)
    ensures forall a :: a in coHolders ==> a.code == code && a in w.registry.accounts
    ensures var holders := Requested(w, env, coHolders);
            if |holders| > 1 then
              env.contract.Some? &&
              TokenCreateTx(w, env, code, coHolders).value ==
              w.(contracts := w.contracts[env.contract.value.cid := TokenDoc(code, holders)])
            else
              CreateToken(w, env, code, env.meta.value, holders).Ok? &&
              TokenCreateTx(w, env, code, coHolders).value == CreateToken(w, env, code, env.meta.value, holders).value
  {
    SignablesAre(w, code, coHolders);
  }

  lemma TokenRequestOk(w: World, env: Env, code: string, coHolders: seq<Address>)
    requires code !in w.tokens && env.meta.Some? && ValidMeta(env.meta.value) && env.contract.Some?
    requires forall a :: a in coHolders ==> a.code == code && a in w.registry.accounts
    requires |Requested(w, env, coHolders)| >= 2
    ensures TokenCreateTx(w, env, code, coHolders) ==
            Ok(w.(contracts := w.contracts[env.contract.value.cid := TokenDoc(code, Requested(w, env, coHolders))]))
  {
    SignablesAre(w, code, coHolders);
    assert Signables(w, code, coHolders) == Ok(KidsOf(w.registry.accounts, Named(coHolders)));
  }

  lemma TokenRequestStep(w: World, env: Env, code: string, coHolders: seq<Address>)
    requires code !in w.tokens && env.meta.Some? && ValidMeta(env.meta.value) && env.contract.Some?
    requires forall a :: a in coHolders ==> a.code == code && a in w.registry.accounts
    requires |Requested(w, env, coHolders)| >= 2
    ensures Step(w, env, TokenCreate(code, coHolders)) ==
            Ok(w.(contracts := w.contracts[env.contract.value.cid := TokenDoc(code, Requested(w, env, coHolders))],
                  txs := w.txs + {env.txId}))
  {
    TokenRequestOk(w, env, code, coHolders);
    assert Handle(w, env, TokenCreate(code, coHolders)) == TokenCreateTx(w, env, code, coHolders);
  }

  /** The genesis account of a token has these holders, and is new. */
  predicate GenesisOf(w: World, w': World, code: string, a: Address, holders: set<Kid>) {
    && a !in w.registry.accounts && a in w'.registry.accounts && w'.registry.accounts[a] == JointAccount(holders)
    && code in w'.tokens && w'.tokens[code].genesis == a
  }

  lemma IssuedGenesis(w: World, env: Env, code: string, meta: Meta, holders: set<Kid>)
    requires RegistryOk(w) && ValidMeta(meta) && CreateToken(w, env, code, meta, holders).Ok?
    ensures GenesisOf(w, CreateToken(w, env, code, meta, holders).value, code, Address(code, Joint, env.jointId),
                      holders)
  {
    IssueWrites(w, env, code, meta, holders);
  }

  lemma TokenCallback(w: World, e: Event, cid: string)
    requires RegistryOk(w) && cid in w.contracts && w.contracts[cid].TokenDoc? && e.tx == ContractExecute(cid) &&
             Succeeds(w, e)
    ensures var doc := w.contracts[cid];
            GenesisOf(w, Next(w, e.env, e.tx), doc.code, Address(doc.code, Joint, e.env.jointId), doc.holders)
  {
    var doc := w.contracts[cid];
    IssuedGenesis(w, e.env, doc.code, e.env.meta.value, doc.holders);
  }

  /** A token issued at once has the requested holder. */
  lemma GenesisAtOnce(w: World, request: Event)
    requires Inv(w) && Succeeds(w, request) && request.tx.TokenCreate?
    requires |Requested(w, request.env, request.tx.coHolders)| <= 1
    ensures var code, holders := request.tx.code, Requested(w, request.env, request.tx.coHolders);
            GenesisOf(w, Next(w, request.env, request.tx), code, Address(code, Joint, request.env.jointId), holders) &&
            |holders| == 1
  {
    var code, holders := request.tx.code, Requested(w, request.env, request.tx.coHolders);
    TokenRequestFiled(w, request.env, code, request.tx.coHolders);
    IssuedGenesis(w, request.env, code, request.env.meta.value, holders);
    assert request.env.kid in holders;
  }

  lemma GenesisExact(w: World, request: Event, es: seq<Event>, callback: Event)
    requires Inv(w) && Admitted(w, request.env) && Succeeds(w, request) && request.tx.TokenCreate?
    requires |Requested(w, request.env, request.tx.coHolders)| > 1 && request.env.contract.Some?
    requires AdmittedRun(Next(w, request.env, request.tx), es)
    requires Succeeds(Run(Next(w, request.env, request.tx), es), callback)
    requires callback.tx == ContractExecute(request.env.contract.value.cid)
    ensures var x, code := Run(Next(w, request.env, request.tx), es), request.tx.code;
            GenesisOf(x, Next(x, callback.env, callback.tx), code, Address(code, Joint, callback.env.jointId),
                      Requested(w, request.env, request.tx.coHolders))
  {
    TokenRequested(w, request);
    TokenAnswered(Next(w, request.env, request.tx), es, callback, request.env.contract.value.cid);
  }

  /** The genesis account that a token request with more holders ends in, whatever happens in between: it
      has exactly the requested holders, and nothing limits them. With personal co-holders it keeps to 128
      exactly when at most 127 are named besides the invoker. */
  lemma GenesisLimitIff(w: World, request: Event, es: seq<Event>, callback: Event)
    requires Inv(w) && Admitted(w, request.env) && Succeeds(w, request) && request.tx.TokenCreate?
    requires |Requested(w, request.env, request.tx.coHolders)| > 1 && request.env.contract.Some?
    requires AdmittedRun(Next(w, request.env, request.tx), es)
    requires Succeeds(Run(Next(w, request.env, request.tx), es), callback)
    requires callback.tx == ContractExecute(request.env.contract.value.cid)
    ensures var x, code := Run(Next(w, request.env, request.tx), es), request.tx.code;
            var accounts, a := Next(x, callback.env, callback.tx).registry.accounts,
                               Address(code, Joint, callback.env.jointId);
            var coHolders := request.tx.coHolders;
            && GenesisOf(x, Next(x, callback.env, callback.tx), code, a, Requested(w, request.env, coHolders))
            && ((forall b :: b in coHolders ==> b.kind == Personal) ==>
                  (|accounts[a].holders| <= 128 <==>
                   |Named(coHolders) - {Address(code, Personal, request.env.kid)}| <= 127))
  {
    GenesisExact(w, request, es, callback);
    TokenRequestLimit(w, request);
  }

  lemma TokenRequestLimit(w: World, request: Event)
    requires Inv(w) && Succeeds(w, request) && request.tx.TokenCreate?
    ensures var code, coHolders := request.tx.code, request.tx.coHolders;
            (forall a :: a in coHolders ==> a.kind == Personal) ==>
              (|Requested(w, request.env, coHolders)| <= 128 <==>
               |Named(coHolders) - {Address(code, Personal, request.env.kid)}| <= 127)
  {
    TokenPersonalLimit(w, request.env, request.tx.code, request.tx.coHolders);
  }

  lemma TokenPersonalLimit(w: World, env: Env, code: string, coHolders: seq<Address>)
    requires KindsOk(w.registry) && TokenCreateTx(w, env, code, coHolders).Ok?
    ensures (forall a :: a in coHolders ==> a.kind == Personal) ==>
              (|Requested(w, env, coHolders)| <= 128 <==>
               |Named(coHolders) - {Address(code, Personal, env.kid)}| <= 127)
  {
    TokenRequestFiled(w, env, code, coHolders);
    if forall a :: a in coHolders ==> a.kind == Personal { PersonalCount(w, env, code, coHolders); }
  }

  lemma TokenRequested(w: World, request: Event)
    requires Inv(w) && Admitted(w, request.env) && Succeeds(w, request) && request.tx.TokenCreate?
    requires |Requested(w, request.env, request.tx.coHolders)| > 1
    ensures var w1 := Next(w, request.env, request.tx);
            && Inv(w1) && request.env.contract.Some? && request.env.contract.value.cid in w1.contracts
            && w1.contracts[request.env.contract.value.cid] ==
               TokenDoc(request.tx.code, Requested(w, request.env, request.tx.coHolders))
  {
    TokenRequestFiled(w, request.env, request.tx.code, request.tx.coHolders);
    InvStep(w, request.env, request.tx);
  }

  lemma TokenAnswered(w: World, es: seq<Event>, callback: Event, cid: string)
    requires Inv(w) && AdmittedRun(w, es) && cid in w.contracts && w.contracts[cid].TokenDoc?
    requires Succeeds(Run(w, es), callback) && callback.tx == ContractExecute(cid)
    ensures var x, doc := Run(w, es), w.contracts[cid];
            GenesisOf(x, Next(x, callback.env, callback.tx), doc.code, Address(doc.code, Joint, callback.env.jointId),
                      doc.holders)
  {
    DocStays(w, es, cid);
    RunInv(w, es);
    TokenCallback(Run(w, es), callback, cid);
  }
}
