// The account stub at work.
module AccountStub {
  import opened Basics
  import opened World
  import opened Stubs
  import opened Transactions
  import opened Shim
  import BalanceStub

  method CreateAccount(stub: Stub, code: string) returns (r: Result<Balance>)
    requires stub.writes == stub.state
    modifies stub`writes
    ensures var spec := Stubs.CreateAccount(stub.state, stub.env, code);
            (r.Ok? <==> spec.Ok?) && (r.Ok? ==> stub.writes == spec.value)
  {
    var a := Address(code, Personal, stub.env.kid);
    if a in stub.state.registry.accounts { return Err("the account already exists"); }
    stub.PutAccount(a, PersonalAccount(false));
    var bal := BalanceStub.CreateBalance(stub, a);
    stub.PutHolder(stub.env.kid, a);
    assert (set k | k in {stub.env.kid} :: (k, a)) == {(stub.env.kid, a)};
    r := Ok(bal);
  }

  /** The index entries of the holders, in whatever order their set yields them. */
  method CreateJointAccount(stub: Stub, code: string, holders: set<Kid>) returns (r: Result<Balance>)
    requires stub.writes == stub.state
    modifies stub`writes
    ensures var spec := Stubs.CreateJointAccount(stub.state, stub.env, code, holders);
            (r.Ok? <==> spec.Ok?) && (r.Ok? ==> stub.writes == spec.value)
    ensures r.Ok? ==>
              fresh(r.value) && r.value.id == Address(code, Joint, stub.env.jointId) &&
              r.value.Doc() == BalanceDoc(0, "")
  {
    var a := Address(code, Joint, stub.env.jointId);
    if a in stub.state.registry.accounts { return Err("failed to create a random address"); }
    stub.PutAccount(a, JointAccount(holders));
    var bal := BalanceStub.CreateBalance(stub, a);
    ghost var begun := stub.writes;
    var rest := holders;
    while rest != {}
      invariant rest <= holders && bal.Doc() == BalanceDoc(0, "")
      invariant stub.writes == begun.(registry := begun.registry.(holders :=
                  begun.registry.holders + set k | k in holders - rest :: (k, a)))
      decreases |rest|
    {
      var kid :| kid in rest;
      stub.PutHolder(kid, a);
      rest := rest - {kid};
    }
    assert holders - rest == holders;
    r := Ok(bal);
  }

  /** The account's set of holders grows in place, and the index with it. */
  method AddHolder(stub: Stub, account: JointCopy, kid: Kid) returns (r: Result<()>)
    modifies stub`writes, account
    ensures r.Ok? <==> kid !in old(account.holders)
    ensures r.Ok? ==> stub.writes == old(stub.writes).(registry :=
              Stubs.AddHolder(old(stub.writes).registry, account.id, old(account.holders), kid))
  {
    if kid in account.holders { return Err("already existed holder"); }
    account.holders := account.holders + {kid};
    stub.PutAccount(account.id, JointAccount(account.holders));
    stub.PutHolder(kid, account.id);
    r := Ok(());
  }

  method RemoveHolder(stub: Stub, account: JointCopy, kid: Kid) returns (r: Result<()>)
    modifies stub`writes, account
    ensures r.Ok? <==> kid in old(account.holders)
    ensures r.Ok? ==> stub.writes == old(stub.writes).(registry :=
              Stubs.RemoveHolder(old(stub.writes).registry, account.id, old(account.holders), kid))
  {
    if kid !in account.holders { return Err("not existed holder"); }
    account.holders := account.holders - {kid};
    stub.PutAccount(account.id, JointAccount(account.holders));
    stub.DelHolder(kid, account.id);
    r := Ok(());
  }

  /** SuspendAccount and UnsuspendAccount. */
  method SetSuspended(stub: Stub, code: string, suspend: bool) returns (r: Result<()>)
    requires stub.writes == stub.state
    modifies stub`writes
    ensures var spec := SuspendTx(stub.state, stub.env, code, suspend);
            (r.Ok? <==> spec.Ok?) && (r.Ok? ==> stub.writes == spec.value)
  {
    var a := Address(code, Personal, stub.env.kid);
    var account :- GetAccount(stub.state, a);
    var pac := new PersonalCopy(a, IsSuspended(account));
    if pac.suspended == suspend { return Err(if suspend then "already suspended" else "not suspended"); }
    pac.suspended := suspend;
    stub.PutAccount(a, PersonalAccount(pac.suspended));
    r := Ok(());
  }

  /** The holders of every address, taken in whatever order the set of addresses yields them. */
  method CollectSignableIDs(stub: Stub, code: string, addrs: seq<Address>) returns (r: Result<set<Kid>>)
    ensures r.Ok? <==> Signables(stub.state, code, addrs).Ok?
    ensures r.Ok? ==> r == Signables(stub.state, code, addrs)
  {
    SignablesAre(stub.state, code, addrs);
    var accounts := stub.state.registry.accounts;
    var all := Named(addrs);
    var kids, rest := {}, all;
    while rest != {}
      invariant rest <= all && kids == KidsOf(accounts, all - rest)
      invariant forall a :: a in all - rest ==> a.code == code && a in accounts
      decreases |rest|
    {
      var a :| a in rest;
      if a.code != code { return Err("mismatched token account"); }
      var account :- GetAccount(stub.state, a);
      kids := kids + HoldersOf(a, account);
      rest := rest - {a};
    }
    assert all - rest == all;
    r := Ok(kids);
  }
}
