// The chaincode at work. A transaction reads the state committed before it and stages its writes; the
// documents it reads it changes as in-memory copies and writes back.
module Shim {
  import opened Basics
  import opened World
  import opened Stubs
  import opened Fees
  import Transactions

  /** Amounts are changed in place, and a Copy is a new amount. */
  class Amount {
    var value: int

    constructor (value: int)
      ensures this.value == value
    {
      this.value := value;
    }

    /** The argument may be the amount itself. */
    method Add(x: Amount)
      modifies this
      ensures value == old(value) + old(x.value)
    {
      value := value + x.value;
    }

    method Neg()
      modifies this
      ensures value == -old(value)
    {
      value := -value;
    }

    method Copy() returns (n: Amount)
      ensures fresh(n) && n.value == value
    {
      n := new Amount(0);
      n.Add(this);
    }

    /** The floor of the amount times num / den: multiply first, then divide. */
    method MulRat(num: int, den: Pos)
      modifies this
      ensures value * den <= old(value) * num < (value + 1) * den
      ensures value == Fees.MulRat(old(value), num, den)
    {
      FloorBounds(value, num, den);
      value := value * num;
      value := value / den;
    }
  }

  /** In-memory copies of the documents a transaction changes. */
  class Balance {
    const id: Address
    var amount: int
    var lastPruned: string

    function Doc(): BalanceDoc
      reads this
    {
      BalanceDoc(amount, lastPruned)
    }

    constructor (id: Address, doc: BalanceDoc)
      ensures this.id == id && Doc() == doc
    {
      this.id, amount, lastPruned := id, doc.amount, doc.lastPruned;
    }
  }

  class TokenCopy {
    const code: string
    const maxSupply: int
    const genesis: Address
    var supply: int
    var lastPrunedFee: string
    var policy: Option<Policy>

    function Doc(): Token
      reads this
    {
      Token(maxSupply, supply, lastPrunedFee, genesis, policy)
    }

    constructor (code: string, doc: Token)
      ensures this.code == code && Doc() == doc
    {
      this.code, maxSupply, genesis := code, doc.maxSupply, doc.genesis;
      supply, lastPrunedFee, policy := doc.supply, doc.lastPrunedFee, doc.policy;
    }
  }

  class PayCopy {
    const id: string
    const filed: Pay
    var totalRefund: int

    function Doc(): Pay
      reads this
    {
      filed.(totalRefund := totalRefund)
    }

    constructor (id: string, doc: Pay)
      ensures this.id == id && Doc() == doc && filed == doc
    {
      this.id, filed, totalRefund := id, doc, doc.totalRefund;
    }
  }

  class JointCopy {
    const id: Address
    var holders: set<Kid>

    constructor (id: Address, holders: set<Kid>)
      ensures this.id == id && this.holders == holders
    {
      this.id, this.holders := id, holders;
    }
  }

  class PersonalCopy {
    const id: Address
    var suspended: bool

    constructor (id: Address, suspended: bool)
      ensures this.id == id && this.suspended == suspended
    {
      this.id, this.suspended := id, suspended;
    }
  }

  class FeeCursorCopy {
    const code: string
    var feeId: string

    constructor (code: string, feeId: string)
      ensures this.code == code && this.feeId == feeId
    {
      this.code, this.feeId := code, feeId;
    }
  }

  /** One transaction's view of the ledger. */
  class Stub {
    const env: Env
    const state: World
    var writes: World

    constructor (env: Env, state: World)
      ensures this.env == env && this.state == state && writes == state
    {
      this.env, this.state, writes := env, state, state;
    }

    method PutBalance(bal: Balance)
      modifies this`writes
      ensures writes ==
              old(writes).(book := old(writes).book.(balances := old(writes).book.balances[bal.id := bal.Doc()]))
    {
      writes := writes.(book := writes.book.(balances := writes.book.balances[bal.id := bal.Doc()]));
    }

    method PutBalanceLog(a: Address, log: Log)
      modifies this`writes
      ensures writes == old(writes).(book := old(writes).book.(logs := old(writes).book.logs[(a, env.ts) := log]))
    {
      writes := writes.(book := writes.book.(logs := writes.book.logs[(a, env.ts) := log]));
    }

    method PutPendingBalance(id: string, p: Pending)
      modifies this`writes
      ensures writes == old(writes).(book := old(writes).book.(pendings := old(writes).book.pendings[id := p]))
    {
      writes := writes.(book := writes.book.(pendings := writes.book.pendings[id := p]));
    }

    method DelPendingBalance(id: string)
      modifies this`writes
      ensures writes == old(writes).(book := old(writes).book.(pendings := old(writes).book.pendings - {id}))
    {
      writes := writes.(book := writes.book.(pendings := writes.book.pendings - {id}));
    }

    method PutPay(id: string, pay: Pay)
      modifies this`writes
      ensures writes == old(writes).(book := old(writes).book.(pays := old(writes).book.pays[id := pay]))
    {
      writes := writes.(book := writes.book.(pays := writes.book.pays[id := pay]));
    }

    method PutFee(id: string, fee: Fee)
      modifies this`writes
      ensures writes == old(writes).(book := old(writes).book.(fees := old(writes).book.fees[id := fee]))
    {
      writes := writes.(book := writes.book.(fees := writes.book.fees[id := fee]));
    }

    method PutLastPrunedFeeID(cursor: FeeCursorCopy)
      modifies this`writes
      ensures writes ==
              old(writes).(book := old(writes).book.(lastFee := old(writes).book.lastFee[cursor.code := cursor.feeId]))
    {
      writes := writes.(book := writes.book.(lastFee := writes.book.lastFee[cursor.code := cursor.feeId]));
    }

    method PutToken(token: TokenCopy)
      modifies this`writes
      ensures writes == Stubs.PutToken(old(writes), token.code, token.Doc())
    {
      writes := writes.(tokens := writes.tokens[token.code := token.Doc()]);
    }

    method PutAccount(a: Address, account: Account)
      modifies this`writes
      ensures writes ==
              old(writes).(registry := old(writes).registry.(accounts := old(writes).registry.accounts[a := account]))
    {
      writes := writes.(registry := writes.registry.(accounts := writes.registry.accounts[a := account]));
    }

    method PutHolder(kid: Kid, a: Address)
      modifies this`writes
      ensures writes ==
              old(writes).(registry := old(writes).registry.(holders := old(writes).registry.holders + {(kid, a)}))
    {
      writes := writes.(registry := writes.registry.(holders := writes.registry.holders + {(kid, a)}));
    }

    method DelHolder(kid: Kid, a: Address)
      modifies this`writes
      ensures writes ==
              old(writes).(registry := old(writes).registry.(holders := old(writes).registry.holders - {(kid, a)}))
    {
      writes := writes.(registry := writes.registry.(holders := writes.registry.holders - {(kid, a)}));
    }

    /** The contract chaincode files the document under the id it chose, when there are signers enough. */
    method CreateContract(signers: set<Kid>, doc: Doc) returns (r: Result<NewContract>)
      modifies this`writes
      ensures var spec := Transactions.CreateContract(old(writes), env, signers, doc);
              (r.Ok? <==> spec.Ok?) && (r.Ok? ==> writes == spec.value && env.contract == Some(r.value))
    {
      if |signers| < 2 || env.contract.None? { return Err("failed to create a contract"); }
      writes := writes.(contracts := writes.contracts[env.contract.value.cid := doc]);
      r := Ok(env.contract.value);
    }

    /** A new in-memory copy of a balance, each time it is asked for. */
    method GetBalance(a: Address) returns (r: Result<Balance>)
      ensures r.Ok? <==> a in state.book.balances
      ensures r.Ok? ==> fresh(r.value) && r.value.id == a && r.value.Doc() == state.book.balances[a]
    {
      if a !in state.book.balances { return Err("balance is not exists"); }
      var bal := new Balance(a, state.book.balances[a]);
      r := Ok(bal);
    }

    method GetToken(code: string) returns (r: Result<TokenCopy>)
      ensures r.Ok? <==> code in state.tokens
      ensures r.Ok? ==> fresh(r.value) && r.value.code == code && r.value.Doc() == state.tokens[code]
    {
      if code !in state.tokens { return Err("the token is not issued"); }
      var token := new TokenCopy(code, state.tokens[code]);
      r := Ok(token);
    }
  }

  /** The response and the staged writes are those of the specification; what an error response leaves
      staged is never committed. */
  ghost predicate Answered(stub: Stub, spec: Result<World>, r: Result<()>)
    reads stub
  {
    (r.Ok? <==> spec.Ok?) && (spec.Ok? ==> stub.writes == spec.value)
  }
}
