// The token transactions and their contract callbacks at work.
module TokenHandlers {
  import opened Basics
  import opened World
  import opened Stubs
  import opened Transactions
  import opened Shim
  import AccountStub
  import TokenStub

  method Burn(stub: Stub, code: string) returns (res: Result<()>)
    requires stub.writes == stub.state
    modifies stub`writes
    ensures Answered(stub, TokenBurnTx(stub.state, stub.env, code), res)
  {
    var token :- stub.GetToken(code);
    var holders :- GenesisHolders(stub.state, stub.env, token.Doc());
    var bal :- stub.GetBalance(token.genesis);
    :- Need(bal.amount != 0, "genesis account balance is 0");
    :- Need(stub.env.kntAmount.Some? && stub.env.kntAmount.value >= 0, "not burnable");
    var amount := stub.env.kntAmount.value;
    :- Need(amount <= token.supply, "amount must be less or equal than total supply");
    if |holders| > 1 {
      var _ :- stub.CreateContract(holders, BurnDoc(code, amount));
      return Ok(());
    }
    res := TokenStub.Burn(stub, token, bal, amount);
  }

  method Mint(stub: Stub, code: string) returns (res: Result<()>)
    requires stub.writes == stub.state
    modifies stub`writes
    ensures Answered(stub, TokenMintTx(stub.state, stub.env, code), res)
  {
    var token :- stub.GetToken(code);
    :- Need(token.supply < token.maxSupply, "max supplied");
    var holders :- GenesisHolders(stub.state, stub.env, token.Doc());
    var bal :- stub.GetBalance(token.genesis);
    :- Need(stub.env.kntAmount.Some? && stub.env.kntAmount.value >= 0, "not mintable");
    if |holders| > 1 {
      var _ :- stub.CreateContract(holders, MintDoc(code, stub.env.kntAmount.value));
      return Ok(());
    }
    res := TokenStub.Mint(stub, token, bal, stub.env.kntAmount.value);
  }

  method Create(stub: Stub, code: string, coHolders: seq<Address>) returns (res: Result<()>)
    requires stub.writes == stub.state
    modifies stub`writes
    ensures Answered(stub, TokenCreateTx(stub.state, stub.env, code, coHolders), res)
  {
    if code in stub.state.tokens { return Err("already issued token"); }
    var meta :- GetMeta(stub.env);
    var holders := {stub.env.kid};
    var others :- AccountStub.CollectSignableIDs(stub, code, coHolders);
    holders := holders + others;
    if |holders| > 1 {
      var _ :- stub.CreateContract(holders, TokenDoc(code, holders));
      return Ok(());
    }
    res := TokenStub.CreateToken(stub, code, meta, holders);
  }

  /** The policy is never taken away: without new rates the old ones are emptied, and without a new target
      the old one is kept. */
  method Update(stub: Stub, code: string) returns (res: Result<()>)
    requires stub.writes == stub.state
    modifies stub`writes
    ensures Answered(stub, TokenUpdateTx(stub.state, stub.env, code), res)
  {
    var token :- stub.GetToken(code);
    var meta :- GetMeta(stub.env);
    var update := false;
    if meta.rates.None? {
      if token.policy.Some? {
        token.policy := Some(token.policy.value.(rates := map[]));
        update := true;
      }
    } else {
      var target := token.genesis;
      if meta.target.Some? {
        var _ :- GetAccount(stub.state, meta.target.value);
        target := meta.target.value;
      } else if token.policy.Some? {
        target := token.policy.value.target;
      }
      token.policy := Some(Policy(target, meta.rates.value));
      update := true;
    }
    if update {
      stub.PutToken(token);
    } else {
      assert stub.state.tokens[code := token.Doc()] == stub.state.tokens;
    }
    res := Ok(());
  }

  /** The callbacks of token/mint, token/burn and token/create. */
  method ExecuteMint(stub: Stub, code: string, amount: int) returns (res: Result<()>)
    requires stub.writes == stub.state
    modifies stub`writes
    ensures Answered(stub, ExecuteDoc(stub.state, stub.env, "", MintDoc(code, amount)), res)
  {
    var token :- stub.GetToken(code);
    var bal :- stub.GetBalance(token.genesis);
    res := TokenStub.Mint(stub, token, bal, amount);
  }

  method ExecuteBurn(stub: Stub, code: string, amount: int) returns (res: Result<()>)
    requires stub.writes == stub.state
    modifies stub`writes
    ensures Answered(stub, ExecuteDoc(stub.state, stub.env, "", BurnDoc(code, amount)), res)
  {
    var token :- stub.GetToken(code);
    var bal :- stub.GetBalance(token.genesis);
    res := TokenStub.Burn(stub, token, bal, amount);
  }

  method ExecuteCreate(stub: Stub, code: string, holders: set<Kid>) returns (res: Result<()>)
    requires stub.writes == stub.state
    modifies stub`writes
    ensures Answered(stub, ExecuteDoc(stub.state, stub.env, "", TokenDoc(code, holders)), res)
  {
    if code in stub.state.tokens { return Err("already issued token"); }
    var meta :- GetMeta(stub.env);
    res := TokenStub.CreateToken(stub, code, meta, holders);
  }
}
