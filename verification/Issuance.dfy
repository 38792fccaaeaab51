// Tokens: exactly when one is issued, minted, burnt or updated, with which supply and which fee policy.
module Issuance {
  import opened Basics
  import opened World
  import opened Stubs
  import opened Transactions
  import opened Moves
  import opened Invariants
  import opened Runs
  import opened Rights
  import opened Holders
  import opened Membership

  /** Metadata the chaincode accepts. */
  predicate Acceptable(meta: Option<Meta>) {
    && meta.Some? && 0 <= meta.value.decimal <= 18
    && 0 <= meta.value.supply && meta.value.supply <= meta.value.maxSupply
  }

  /** The target that metadata with fee rates names is an account. */
  predicate TargetKnown(w: World, meta: Meta) {
    meta.rates.Some? && meta.target.Some? ==> meta.target.value in w.registry.accounts
  }

  // ---- issuing ----

  /** The fee policy of a new token: none without rates; the genesis account is the target if none is named. */
  predicate FirstPolicy(meta: Meta, genesis: Address, policy: Option<Policy>) {
    match (meta.rates, meta.target)
    case (None, _) => policy == None
    case (Some(rates), Some(t)) => policy == Some(Policy(t, rates))
    case (Some(rates), None) => policy == Some(Policy(genesis, rates))
  }

  /** The token is there, with a new genesis account that holds the initial supply, and nothing else changed. */
  ghost predicate Issued(w: World, w': World, env: Env, code: string, meta: Meta, holders: set<Kid>) {
    var g := Address(code, Joint, env.jointId);
    && code in w'.tokens && w'.tokens == w.tokens[code := w'.tokens[code]]
    && w'.tokens[code] == Token(meta.maxSupply, meta.supply, "", g, w'.tokens[code].policy)
    && FirstPolicy(meta, g, w'.tokens[code].policy)
    && g !in w.registry.accounts && w'.registry.accounts == w.registry.accounts[g := JointAccount(holders)]
    && (forall k, b :: (k, b) in w'.registry.holders <==> (k, b) in w.registry.holders || (b == g && k in holders))
    && w'.book.balances == w.book.balances[g := BalanceDoc(meta.supply, "")] && w'.contracts == w.contracts
    && w'.book.pays == w.book.pays && w'.book.fees == w.book.fees && w'.book.pendings == w.book.pendings
  }

  lemma CreateIff(w: World, env: Env, code: string, meta: Meta, holders: set<Kid>)
    ensures CreateToken(w, env, code, meta, holders).Ok? <==>
            Address(code, Joint, env.jointId) !in w.registry.accounts && TargetKnown(w, meta)
  {
  }

  lemma CreateIssues(w: World, env: Env, code: string, meta: Meta, holders: set<Kid>, txs: set<string>)
    requires RegistryOk(w) && Acceptable(Some(meta)) && CreateToken(w, env, code, meta, holders).Ok?
    ensures Issued(w, CreateToken(w, env, code, meta, holders).value.(txs := txs), env, code, meta, holders)
  {
    IssueWrites(w, env, code, meta, holders);
  }

  /** What token/create asks for before it counts holders. */
  predicate MayIssue(w: World, env: Env, code: string, coHolders: seq<Address>) {
    && code !in w.tokens && Acceptable(env.meta)
    && forall a :: a in coHolders ==> a.code == code && a in w.registry.accounts
  }

  lemma CreateRefuses(w: World, env: Env, code: string, coHolders: seq<Address>)
    requires !MayIssue(w, env, code, coHolders)
    ensures TokenCreateTx(w, env, code, coHolders).Err?
  {
    SignablesAre(w, code, coHolders);
  }

  lemma CreateAnswers(w: World, env: Env, code: string, coHolders: seq<Address>)
    requires MayIssue(w, env, code, coHolders)
    ensures var holders := Requested(w, env, coHolders);
            TokenCreateTx(w, env, code, coHolders) ==
            if |holders| > 1 then CreateContract(w, env, holders, TokenDoc(code, holders))
            else CreateToken(w, env, code, env.meta.value, holders)
  {
    SignablesAre(w, code, coHolders);
  }

  lemma CreateTxIff(w: World, env: Env, code: string, coHolders: seq<Address>)
    ensures TokenCreateTx(w, env, code, coHolders).Ok? <==>
            && MayIssue(w, env, code, coHolders)
            && if |Requested(w, env, coHolders)| > 1 then env.contract.Some?
               else Address(code, Joint, env.jointId) !in w.registry.accounts && TargetKnown(w, env.meta.value)
  {
    if !MayIssue(w, env, code, coHolders) {
      CreateRefuses(w, env, code, coHolders);
    } else {
      CreateAnswers(w, env, code, coHolders);
      CreateIff(w, env, code, env.meta.value, Requested(w, env, coHolders));
    }
  }

  /** token/create needs a code that is not issued, acceptable metadata and existing accounts of the token as
      co-holders; for several holders a contract, and for one a free address and a known target. */
  lemma IssueSucceedsIff(w: World, env: Env, code: string, coHolders: seq<Address>)
    ensures Step(w, env, TokenCreate(code, coHolders)).Ok? <==>
            && MayIssue(w, env, code, coHolders)
            && if |Requested(w, env, coHolders)| > 1 then env.contract.Some?
               else Address(code, Joint, env.jointId) !in w.registry.accounts && TargetKnown(w, env.meta.value)
  {
    StepAnswers(w, env, TokenCreate(code, coHolders));
    CreateTxIff(w, env, code, coHolders);
  }

  /** A request that stands for several asks for a contract; otherwise the token is issued at once. */
  lemma IssueGives(w: World, env: Env, code: string, coHolders: seq<Address>, w': World)
    requires RegistryOk(w) && Step(w, env, TokenCreate(code, coHolders)) == Ok(w')
    ensures env.meta.Some?
    ensures var holders := Requested(w, env, coHolders);
            if |holders| > 1 then Asked(w, env, w', TokenDoc(code, holders))
            else Issued(w, w', env, code, env.meta.value, holders)
  {
    StepAnswers(w, env, TokenCreate(code, coHolders));
    CreateTxIff(w, env, code, coHolders);
    CreateAnswers(w, env, code, coHolders);
    var holders := Requested(w, env, coHolders);
    if |holders| <= 1 { CreateIssues(w, env, code, env.meta.value, holders, w.txs + {env.txId}); }
  }

  /** The contract issues the token exactly while the code is free, with the metadata of the day. */
  lemma IssuedIff(w: World, env: Env, cid: string)
    requires RegistryOk(w) && cid in w.contracts && w.contracts[cid].TokenDoc?
    ensures var r, doc := Step(w, env, ContractExecute(cid)), w.contracts[cid];
            && (r.Ok? <==>
                  && doc.code !in w.tokens && Acceptable(env.meta)
                  && Address(doc.code, Joint, env.jointId) !in w.registry.accounts && TargetKnown(w, env.meta.value))
            && (r.Ok? ==> Issued(w, r.value, env, doc.code, env.meta.value, doc.holders))
  {
    var doc := w.contracts[cid];
    StepAnswers(w, env, ContractExecute(cid));
    if Acceptable(env.meta) {
      CreateIff(w, env, doc.code, env.meta.value, doc.holders);
      if CreateToken(w, env, doc.code, env.meta.value, doc.holders).Ok? {
        CreateIssues(w, env, doc.code, env.meta.value, doc.holders, w.txs + {env.txId});
      }
    }
  }

  // ---- minting and burning ----

  /** The supply of a token and its genesis balance have changed by diff, and nothing else. */
  predicate Supplied(w: World, w': World, code: string, diff: int)
    requires code in w.tokens
  {
    var t := w.tokens[code];
    && w'.tokens == w.tokens[code := t.(supply := t.supply + diff)]
    && AmountOf(w'.book, t.genesis) == AmountOf(w.book, t.genesis) + diff
    && w'.registry == w.registry && w'.contracts == w.contracts && w'.book.pays == w.book.pays
    && w'.book.fees == w.book.fees && w'.book.pendings == w.book.pendings && w'.book.lastFee == w.book.lastFee
    && t.genesis in w'.book.balances
    && w'.book.balances == w.book.balances[t.genesis := w'.book.balances[t.genesis]]
  }

  /** The invoker holds the genesis account of the token. */
  predicate HoldsGenesis(w: World, kid: Kid, code: string) {
    code in w.tokens && (kid, w.tokens[code].genesis) in w.registry.holders
  }

  ghost predicate Shared(w: World, code: string)
    requires code in w.tokens
  {
    w.tokens[code].genesis in w.registry.accounts &&
    |HoldersOf(w.tokens[code].genesis, w.registry.accounts[w.tokens[code].genesis])| > 1
  }

  /** Minting adds the amount, but never more than there is room for under the maximum. */
  predicate MintedUpTo(w: World, w': World, code: string, amount: int)
    requires code in w.tokens
  {
    var room := w.tokens[code].maxSupply - w.tokens[code].supply;
    Supplied(w, w', code, if amount > room then room else amount)
  }

  /** Burning takes the amount, but never more than the genesis account has; without either, nothing changes. */
  predicate BurntUpTo(w: World, w': World, code: string, amount: int)
    requires code in w.tokens
  {
    var has := AmountOf(w.book, w.tokens[code].genesis);
    var burnt := if amount > has then has else amount;
    if burnt <= 0 then w' == w.(txs := w'.txs) else Supplied(w, w', code, -burnt)
  }

  lemma MintBooks(w: World, env: Env, code: string, amount: int, txs: set<string>)
    requires code in w.tokens && w.tokens[code].genesis in w.book.balances
    ensures var token := w.tokens[code];
            var r := MintToken(w, env, code, token, w.book.balances[token.genesis], amount);
            && (r.Ok? <==> token.supply < token.maxSupply)
            && (r.Ok? ==> MintedUpTo(w, r.value.(txs := txs), code, amount))
  {
  }

  lemma BurnBooks(w: World, env: Env, code: string, amount: int, txs: set<string>)
    requires code in w.tokens && w.tokens[code].genesis in w.book.balances
    ensures var token := w.tokens[code];
            var r := BurnToken(w, env, code, token, w.book.balances[token.genesis], amount);
            && (r.Ok? <==> token.supply != 0)
            && (r.Ok? ==> BurntUpTo(w, r.value.(txs := txs), code, amount))
  {
  }

  /** token/mint needs a holder of the genesis account, room under the maximum, and a mintable amount that is not
      negative. Alone, a holder mints it at once; several ask for a contract of that amount. */
  lemma MintSucceedsIff(w: World, env: Env, code: string, amount: int)
    requires RegistryOk(w) && TokensOk(w)
    ensures var r := Step(w, env, TokenMint(code, amount));
            && (r.Ok? <==>
                  && HoldsGenesis(w, env.kid, code) && w.tokens[code].supply < w.tokens[code].maxSupply
                  && env.kntAmount.Some? && env.kntAmount.value >= 0 && (Shared(w, code) ==> env.contract.Some?))
            && (r.Ok? ==>
                  if Shared(w, code) then Asked(w, env, r.value, MintDoc(code, env.kntAmount.value))
                  else MintedUpTo(w, r.value, code, env.kntAmount.value))
  {
    StepAnswers(w, env, TokenMint(code, amount));
    if code in w.tokens && env.kntAmount.Some? { MintBooks(w, env, code, env.kntAmount.value, w.txs + {env.txId}); }
  }

  /** token/burn needs a holder of the genesis account, a balance there that is not zero, and a burnable amount
      between zero and the supply. */
  lemma BurnSucceedsIff(w: World, env: Env, code: string, amount: int)
    requires RegistryOk(w) && TokensOk(w)
    ensures var r := Step(w, env, TokenBurn(code, amount));
            && (r.Ok? <==>
                  && HoldsGenesis(w, env.kid, code) && AmountOf(w.book, w.tokens[code].genesis) != 0
                  && env.kntAmount.Some? && 0 <= env.kntAmount.value && env.kntAmount.value <= w.tokens[code].supply
                  && if Shared(w, code) then env.contract.Some? else w.tokens[code].supply != 0)
            && (r.Ok? ==>
                  if Shared(w, code) then Asked(w, env, r.value, BurnDoc(code, env.kntAmount.value))
                  else BurntUpTo(w, r.value, code, env.kntAmount.value))
  {
    StepAnswers(w, env, TokenBurn(code, amount));
    if code in w.tokens && env.kntAmount.Some? { BurnBooks(w, env, code, env.kntAmount.value, w.txs + {env.txId}); }
  }

  /** The contracts for minting and burning are carried out with the amount of their documents. */
  lemma MintedIff(w: World, env: Env, cid: string)
    requires RegistryOk(w) && TokensOk(w) && cid in w.contracts && w.contracts[cid].MintDoc?
    ensures var r, code := Step(w, env, ContractExecute(cid)), w.contracts[cid].code;
            && (r.Ok? <==> code in w.tokens && w.tokens[code].supply < w.tokens[code].maxSupply)
            && (r.Ok? ==> MintedUpTo(w, r.value, code, w.contracts[cid].amount))
  {
    StepAnswers(w, env, ContractExecute(cid));
    if w.contracts[cid].code in w.tokens {
      MintBooks(w, env, w.contracts[cid].code, w.contracts[cid].amount, w.txs + {env.txId});
    }
  }

  lemma BurntIff(w: World, env: Env, cid: string)
    requires RegistryOk(w) && TokensOk(w) && cid in w.contracts && w.contracts[cid].BurnDoc?
    ensures var r, code := Step(w, env, ContractExecute(cid)), w.contracts[cid].code;
            && (r.Ok? <==> code in w.tokens && w.tokens[code].supply != 0)
            && (r.Ok? ==> BurntUpTo(w, r.value, code, w.contracts[cid].amount))
  {
    StepAnswers(w, env, ContractExecute(cid));
    if w.contracts[cid].code in w.tokens {
      BurnBooks(w, env, w.contracts[cid].code, w.contracts[cid].amount, w.txs + {env.txId});
    }
  }

  // ---- from the request to the callback ----

  /** Whatever happens in between, the contract of a mint mints the amount that was granted to the request. */
  lemma MintArrives(w: World, env: Env, code: string, amount: int, w1: World, es: seq<Event>, callback: Event)
    requires Inv(w) && Admitted(w, env) && Step(w, env, TokenMint(code, amount)) == Ok(w1)
    requires code in w.tokens && Shared(w, code) && env.contract.Some?
    requires AdmittedRun(w1, es) && Succeeds(Run(w1, es), callback)
    requires callback.tx == ContractExecute(env.contract.value.cid)
    ensures env.kntAmount.Some? && code in Run(w1, es).tokens
    ensures MintedUpTo(Run(w1, es), Next(Run(w1, es), callback.env, callback.tx), code, env.kntAmount.value)
  {
    MintSucceedsIff(w, env, code, amount);
    StepKeepsInv(w, Event(env, TokenMint(code, amount)));
    AskedStays(w, w1, env, es, MintDoc(code, env.kntAmount.value));
    RunInv(w1, es);
    MintedIff(Run(w1, es), callback.env, env.contract.value.cid);
  }

  lemma BurnArrives(w: World, env: Env, code: string, amount: int, w1: World, es: seq<Event>, callback: Event)
    requires Inv(w) && Admitted(w, env) && Step(w, env, TokenBurn(code, amount)) == Ok(w1)
    requires code in w.tokens && Shared(w, code) && env.contract.Some?
    requires AdmittedRun(w1, es) && Succeeds(Run(w1, es), callback)
    requires callback.tx == ContractExecute(env.contract.value.cid)
    ensures env.kntAmount.Some? && code in Run(w1, es).tokens
    ensures BurntUpTo(Run(w1, es), Next(Run(w1, es), callback.env, callback.tx), code, env.kntAmount.value)
  {
    BurnSucceedsIff(w, env, code, amount);
    StepKeepsInv(w, Event(env, TokenBurn(code, amount)));
    AskedStays(w, w1, env, es, BurnDoc(code, env.kntAmount.value));
    RunInv(w1, es);
    BurntIff(Run(w1, es), callback.env, env.contract.value.cid);
  }

  /** And the contract of a new token issues it for the holders of the request, with the metadata of the day. */
  lemma IssueArrives(w: World, env: Env, code: string, coHolders: seq<Address>, w1: World, es: seq<Event>,
                     callback: Event)
    requires Inv(w) && Admitted(w, env) && Step(w, env, TokenCreate(code, coHolders)) == Ok(w1)
    requires |Requested(w, env, coHolders)| > 1 && env.contract.Some?
    requires AdmittedRun(w1, es) && Succeeds(Run(w1, es), callback)
    requires callback.tx == ContractExecute(env.contract.value.cid)
    ensures callback.env.meta.Some?
    ensures Issued(Run(w1, es), Next(Run(w1, es), callback.env, callback.tx), callback.env, code,
                   callback.env.meta.value, Requested(w, env, coHolders))
  {
    IssueGives(w, env, code, coHolders, w1);
    StepKeepsInv(w, Event(env, TokenCreate(code, coHolders)));
    AskedStays(w, w1, env, es, TokenDoc(code, Requested(w, env, coHolders)));
    RunInv(w1, es);
    IssuedIff(Run(w1, es), callback.env, env.contract.value.cid);
  }

  // ---- updating ----

  /** The policy after an update: rates come from the metadata, and none there empties them; a target named with
      rates replaces the old one, and the genesis account is the first. */
  predicate NextPolicy(token: Token, meta: Meta, policy: Option<Policy>) {
    match (meta.rates, token.policy)
    case (None, None) => policy == None
    case (None, Some(kept)) => policy == Some(Policy(kept.target, map[]))
    case (Some(rates), _) =>
      && policy.Some? && policy.value.rates == rates
      && match (meta.target, token.policy)
         case (Some(t), _) => policy.value.target == t
         case (None, Some(kept)) => policy.value.target == kept.target
         case (None, None) => policy.value.target == token.genesis
  }

  /** token/update needs an issued token, acceptable metadata and a known target; anybody may ask for it. It
      changes the policy of that token and nothing else. */
  lemma UpdateSucceedsIff(w: World, env: Env, code: string)
    ensures var r := Step(w, env, TokenUpdate(code));
            && (r.Ok? <==> code in w.tokens && Acceptable(env.meta) && TargetKnown(w, env.meta.value))
            && (r.Ok? ==>
                  && code in r.value.tokens && NextPolicy(w.tokens[code], env.meta.value, r.value.tokens[code].policy)
                  && r.value ==
                     w.(tokens := w.tokens[code := w.tokens[code].(policy := r.value.tokens[code].policy)],
                        txs := w.txs + {env.txId}))
  {
    StepAnswers(w, env, TokenUpdate(code));
  }
}
