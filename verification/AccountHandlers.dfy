// The account transactions and their contract callbacks at work.
module AccountHandlers {
  import opened Basics
  import opened World
  import opened Stubs
  import opened Transactions
  import opened Shim
  import AccountStub

  method Create(stub: Stub, code: string, coHolders: seq<Address>) returns (res: Result<()>)
    requires stub.writes == stub.state
    modifies stub`writes
    ensures Answered(stub, AccountCreateTx(stub.state, stub.env, code, coHolders), res)
  {
    if code !in stub.state.tokens && stub.env.meta.None? { return Err("failed to get the token meta"); }
    if coHolders == [] {
      var _ :- AccountStub.CreateAccount(stub, code);
      return Ok(());
    }
    var _ :- GetAccount(stub.state, Address(code, Personal, stub.env.kid));
    :- Need(|Named(coHolders)| <= 128, "too many holders");
    var holders := {stub.env.kid};
    var others :- AccountStub.CollectSignableIDs(stub, code, coHolders);
    holders := holders + others;
    :- Need(|holders| >= 2, "joint account needs co-holders");
    var _ :- stub.CreateContract(holders, AccountDoc(code, holders));
    res := Ok(());
  }

  method HolderAdd(stub: Stub, a: Address, t: Address) returns (res: Result<()>)
    requires stub.writes == stub.state
    modifies stub`writes
    ensures Answered(stub, HolderAddTx(stub.state, stub.env, a, t), res)
  {
    var holders :- HolderTarget(stub.state, a, t);
    :- Need(|holders| <= 127, "already has max holders (128)");
    :- Need(stub.env.kid in holders, "no authority");
    var _ :- GetAccount(stub.state, t);
    :- Need(t.id !in holders, "existed holder");
    var signers := {t.id};
    signers := signers + holders;
    assert signers == holders + {t.id};
    var _ :- stub.CreateContract(signers, AddHolderDoc(a, t.id));
    res := Ok(());
  }

  method HolderRemove(stub: Stub, a: Address, t: Address) returns (res: Result<()>)
    requires stub.writes == stub.state
    modifies stub`writes
    ensures Answered(stub, HolderRemoveTx(stub.state, stub.env, a, t), res)
  {
    var holders :- HolderTarget(stub.state, a, t);
    :- Need(|holders| >= 3, "the account has minimum holders (2)");
    :- Need(stub.env.kid in holders, "no authority");
    if t.id == stub.env.kid {
      var jac := new JointCopy(a, holders);
      res := AccountStub.RemoveHolder(stub, jac, stub.env.kid);
      return;
    }
    :- Need(t.id in holders, "not existed holder");
    var signers := holders;
    signers := signers - {t.id};
    var _ :- stub.CreateContract(signers, RemoveHolderDoc(a, t.id));
    res := Ok(());
  }

  method Suspend(stub: Stub, code: string, suspend: bool) returns (res: Result<()>)
    requires stub.writes == stub.state
    modifies stub`writes
    ensures Answered(stub, SuspendTx(stub.state, stub.env, code, suspend), res)
  {
    res := AccountStub.SetSuspended(stub, code, suspend);
  }

  method ExecuteCreate(stub: Stub, code: string, holders: set<Kid>) returns (res: Result<()>)
    requires stub.writes == stub.state
    modifies stub`writes
    ensures Answered(stub, ExecuteDoc(stub.state, stub.env, "", AccountDoc(code, holders)), res)
  {
    var _ :- AccountStub.CreateJointAccount(stub, code, holders);
    res := Ok(());
  }

  method ExecuteHolderAdd(stub: Stub, a: Address, kid: Kid) returns (res: Result<()>)
    requires stub.writes == stub.state
    modifies stub`writes
    ensures Answered(stub, ExecuteDoc(stub.state, stub.env, "", AddHolderDoc(a, kid)), res)
  {
    var account :- GetAccount(stub.state, a);
    :- Need(account.JointAccount?, "failed to add the holder");
    var jac := new JointCopy(a, account.holders);
    :- Need(|jac.holders| <= 127, "already has max holders (128)");
    :- Need(kid !in jac.holders, "existed holder");
    res := AccountStub.AddHolder(stub, jac, kid);
  }

  method ExecuteHolderRemove(stub: Stub, a: Address, kid: Kid) returns (res: Result<()>)
    requires stub.writes == stub.state
    modifies stub`writes
    ensures Answered(stub, ExecuteDoc(stub.state, stub.env, "", RemoveHolderDoc(a, kid)), res)
  {
    var account :- GetAccount(stub.state, a);
    :- Need(account.JointAccount?, "failed to remove the holder");
    var jac := new JointCopy(a, account.holders);
    :- Need(|jac.holders| >= 3, "the account has minimum holders (2)");
    :- Need(kid in jac.holders, "not existed holder");
    res := AccountStub.RemoveHolder(stub, jac, kid);
  }
}
