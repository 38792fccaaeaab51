// The token stub at work.
module TokenStub {
  import opened Basics
  import opened World
  import opened Stubs
  import opened Shim
  import BalanceStub
  import AccountStub

  /** The supply is raised first; past the maximum the amount is cut back by what the supply has too much,
      through a supply that is for a moment negative. */
  method Mint(stub: Stub, token: TokenCopy, bal: Balance, amount: int) returns (r: Result<()>)
    requires stub.writes == stub.state && bal.id == token.genesis
    modifies stub`writes, token, bal
    ensures var spec := MintToken(stub.state, stub.env, token.code, old(token.Doc()), old(bal.Doc()), amount);
            (r.Ok? <==> spec.Ok?) && (r.Ok? ==> stub.writes == spec.value)
    ensures r.Ok? ==> token.supply - old(token.supply) == bal.amount - old(bal.amount)
  {
    if token.supply >= token.maxSupply { return Err("max supplied"); }
    var diff := amount;
    token.supply := token.supply + diff;
    if token.maxSupply < token.supply {
      diff := diff + token.maxSupply;
      token.supply := -token.supply;
      diff := diff + token.supply;
      token.supply := token.maxSupply;
    }
    stub.PutToken(token);
    BalanceStub.Supply(stub, bal, diff);
    r := Ok(());
  }

  method Burn(stub: Stub, token: TokenCopy, bal: Balance, amount: int) returns (r: Result<()>)
    requires stub.writes == stub.state && bal.id == token.genesis
    modifies stub`writes, token, bal
    ensures var spec := BurnToken(stub.state, stub.env, token.code, old(token.Doc()), old(bal.Doc()), amount);
            (r.Ok? <==> spec.Ok?) && (r.Ok? ==> stub.writes == spec.value)
    ensures r.Ok? ==> token.supply - old(token.supply) == bal.amount - old(bal.amount)
  {
    if token.supply == 0 { return Err("no supply"); }
    var diff := amount;
    if bal.amount < diff { diff := bal.amount; }
    if diff <= 0 { return Ok(()); }
    diff := -diff;
    BalanceStub.Supply(stub, bal, diff);
    token.supply := token.supply + diff;
    stub.PutToken(token);
    r := Ok(());
  }

  method CreateToken(stub: Stub, code: string, meta: Meta, holders: set<Kid>) returns (r: Result<()>)
    requires stub.writes == stub.state
    modifies stub`writes
    ensures var spec := Stubs.CreateToken(stub.state, stub.env, code, meta, holders);
            (r.Ok? <==> spec.Ok?) && (r.Ok? ==> stub.writes == spec.value)
  {
    var bal :- AccountStub.CreateJointAccount(stub, code, holders);
    var policy: Option<Policy> := None;
    if meta.rates.Some? {
      if meta.target.Some? {
        if meta.target.value !in stub.state.registry.accounts { return Err("the account does not exist"); }
        policy := Some(Policy(meta.target.value, meta.rates.value));
      } else {
        policy := Some(Policy(bal.id, meta.rates.value));
      }
    }
    if meta.supply > 0 {
      BalanceStub.Supply(stub, bal, meta.supply);
    }
    var token := new TokenCopy(code, Token(meta.maxSupply, meta.supply, "", bal.id, policy));
    stub.PutToken(token);
    r := Ok(());
  }
}
