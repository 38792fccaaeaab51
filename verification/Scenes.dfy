// Short runs from the empty ledger, told one transaction at a time: a shop, a token whose genesis account
// is held by one person, payments, prunes and refunds. The names do not matter.
module Scenes {
  import opened Basics
  import opened Stamps
  import opened World
  import opened Stubs
  import opened Sums
  import opened Paging
  import opened Fees
  import opened Transactions
  import opened Moves
  import opened Invariants
  import opened Runs
  import opened Series

  /** The names of a scene: two token codes, a shop, a buyer, and the digest that makes the genesis account. */
  datatype Cast = Cast(code: string, other: string, shopKid: Kid, buyer: Kid, digest: string) {
    function Shop(): Address {
      Address(code, Personal, shopKid)
    }

    /** The shop's account of another token. */
    function Foreign(): Address {
      Address(other, Personal, shopKid)
    }

    function Genesis(): Address {
      Address(code, Joint, digest)
    }
  }

  /** Transaction ids that differ by their length. */
  function Tick(n: nat): (s: string)
    ensures |s| == n
  {
    seq(n, _ => 'x')
  }

  /** The transactions so far have used shorter ids. */
  predicate UsedBelow(w: World, n: nat) {
    forall id :: id in w.txs ==> |id| < n
  }

  /** The environment of the n-th transaction: its time and its invoker. */
  function Clock(c: Cast, query: Query, ts: Time, n: nat, kid: Kid, meta: Meta, contract: Option<NewContract>): Env {
    Env(ts, Tick(n), NewId(ts, Tick(n)), kid, c.digest, contract, None, Some(meta), query)
  }

  /** One more event of a run from the empty ledger. */
  lemma Extend(es: seq<Event>, e: Event)
    requires AdmittedRun(EMPTY, es) && Admitted(Run(EMPTY, es), e.env)
    ensures AdmittedRun(EMPTY, es + [e]) && Run(EMPTY, es + [e]) == Next(Run(EMPTY, es), e.env, e.tx)
  {
    assert (es + [e])[..|es + [e]| - 1] == es;
  }

  lemma Reached(es: seq<Event>)
    requires AdmittedRun(EMPTY, es)
    ensures Inv(Run(EMPTY, es))
  {
    EmptyInv();
    RunInv(EMPTY, es);
  }

  lemma ReachedRegistry(es: seq<Event>)
    requires AdmittedRun(EMPTY, es)
    ensures RegistryOk(Run(EMPTY, es)) && IdsOk(Run(EMPTY, es))
  {
    Reached(es);
  }

  /** The id of a record is never empty and stands for its time. */
  lemma RecordCursor(env: Env)
    requires Stampable(env.ts) && env.recordId == NewId(env.ts, env.txId)
    ensures env.recordId != "" && CursorTime(env.recordId) == Some(env.ts)
  {
    CursorRoundTrip(env.ts, env.txId);
  }

  lemma FreshRecord(es: seq<Event>, env: Env)
    requires AdmittedRun(EMPTY, es) && Admitted(Run(EMPTY, es), env)
    ensures env.recordId !in Run(EMPTY, es).book.pays && env.recordId !in Run(EMPTY, es).book.fees
  {
    Reached(es);
    AdmittedIsNew(Run(EMPTY, es), env);
  }

  // ---- transactions that succeed ----

  lemma OpenStep(w: World, env: Env, code: string)
    requires Address(code, Personal, env.kid) !in w.registry.accounts && env.meta.Some?
    ensures Step(w, env, AccountCreate(code, [])) ==
            Ok(OpenAccount(w, Address(code, Personal, env.kid), PersonalAccount(false),
                           {env.kid}).(txs := w.txs + {env.txId}))
  {
  }

  lemma IssueStep(w: World, env: Env, code: string)
    requires code !in w.tokens && env.meta.Some? && ValidMeta(env.meta.value)
    requires CreateToken(w, env, code, env.meta.value, {env.kid}).Ok?
    ensures Step(w, env, TokenCreate(code, [])) ==
            Ok(CreateToken(w, env, code, env.meta.value, {env.kid}).value.(txs := w.txs + {env.txId}))
  {
    assert {env.kid} + {} == {env.kid};
  }

  /** The invoker alone holds the account, and it is not suspended. */
  predicate Own(w: World, kid: Kid, a: Address) {
    a in w.registry.accounts && a in w.book.balances && !IsSuspended(w.registry.accounts[a]) &&
    HoldersOf(a, w.registry.accounts[a]) == {kid}
  }

  predicate Active(w: World, a: Address) {
    a in w.registry.accounts && a in w.book.balances && !IsSuspended(w.registry.accounts[a])
  }

  lemma OneSigner(w: World, kid: Kid, s: Address, r: Address)
    requires Own(w, kid, s) && Active(w, r)
    ensures Parties(w, s, r, kid).Ok? && Signers(kid, Parties(w, s, r, kid).value.0) == {kid}
  {
    assert {kid} + {kid} == {kid} && {kid} + {} == {kid};
  }

  lemma PayStep(w: World, env: Env, s: Address, r: Address, amount: int, fee: int)
    requires Own(w, env.kid, s) && Active(w, r) && s != r && s.code == r.code
    requires 0 < amount <= w.book.balances[s].amount && CalcFee(w.tokens, r, "pay", amount) == Ok(fee)
    ensures Step(w, env, PayTx(Some(s), r, amount, "", "")) ==
            Ok(w.(book := PayNow(w.book, env, s, w.book.balances[s], r, amount, fee, "", ""),
                  txs := w.txs + {env.txId}))
  {
    OneSigner(w, env.kid, s, r);
  }

  /** With more signers the payment waits for its contract. */
  lemma PayRequestStep(w: World, env: Env, s: Address, r: Address, amount: int, orderId: string, memo: string)
    requires Active(w, s) && w.registry.accounts[s].JointAccount? && Active(w, r) && s != r && s.code == r.code
    requires env.kid in w.registry.accounts[s].holders && 2 <= |w.registry.accounts[s].holders| <= 128 &&
             env.contract.Some?
    requires 0 < amount <= w.book.balances[s].amount
    ensures var con := env.contract.value;
            Step(w, env, PayTx(Some(s), r, amount, orderId, memo)) ==
            Ok(w.(contracts := w.contracts[con.cid := PayDoc(env.txId, s, r, amount, orderId, memo)],
                  book := Deposit(w.book, env, env.txId, s, w.book.balances[s], con, amount, None, memo),
                  txs := w.txs + {env.txId}))
  {
    var holders := w.registry.accounts[s].holders;
    assert {env.kid} + holders == holders;
    assert PayTerms(w, env, Some(s), r, amount) == Ok((s, w.book.balances[s], holders));
  }

  lemma TokenRequestStep(w: World, env: Env, code: string, coHolder: Address)
    requires code !in w.tokens && env.meta.Some? && ValidMeta(env.meta.value) && env.contract.Some?
    requires coHolder.code == code && Active(w, coHolder) && coHolder.kind == Personal && coHolder.id != env.kid
    requires w.registry.accounts[coHolder].PersonalAccount?
    ensures Step(w, env, TokenCreate(code, [coHolder])) ==
            Ok(w.(contracts := w.contracts[env.contract.value.cid := TokenDoc(code, {env.kid, coHolder.id})],
                  txs := w.txs + {env.txId}))
  {
    assert [coHolder][..0] == [] && Signables(w, code, []) == Ok({});
    assert Signables(w, code, [coHolder]) == Ok({} + {coHolder.id});
    assert {env.kid} + ({} + {coHolder.id}) == {env.kid, coHolder.id};
  }

  lemma TransferStep(w: World, env: Env, s: Address, r: Address, amount: int)
    requires Own(w, env.kid, s) && Active(w, r) && s != r && s.code == r.code
    requires 0 < amount <= w.book.balances[s].amount && CalcFee(w.tokens, s, "transfer", amount) == Ok(0)
    ensures Step(w, env, Transfer(Some(s), r, amount, "", None, [])) ==
            Ok(w.(book := Transferred(w.book, env, s, w.book.balances[s], r, w.book.balances[r], amount, 0, "", None),
                  txs := w.txs + {env.txId}))
  {
    OneSigner(w, env.kid, s, r);
    assert {env.kid} + {} == {env.kid};
  }

  lemma RefundStep(w: World, env: Env, id: string, amount: int)
    requires id in w.book.pays && Own(w, env.kid, w.book.pays[id].merchant) && Active(w, w.book.pays[id].rid)
    requires var p := w.book.pays[id];
             p.merchant != p.rid && p.merchant.code == p.rid.code && 0 < amount && p.totalRefund + amount <= p.amount
    ensures var p := w.book.pays[id];
            Step(w, env, PayRefund(id, amount, "")) ==
            Ok(w.(book := Refund(w.book, env, p.merchant, p.rid, w.book.balances[p.rid], amount, RefundedFee(p, amount),
                                 "", id, p),
                  txs := w.txs + {env.txId}))
  {
    OneSigner(w, env.kid, w.book.pays[id].merchant, w.book.pays[id].rid);
  }

  lemma FullRefundStep(w: World, env: Env, id: string, s: Address, r: Address, amount: int)
    requires Own(w, env.kid, s) && Active(w, r) && s != r && s.code == r.code && id in w.book.pays
    requires var p := w.book.pays[id];
             p.merchant == s && p.rid == r && p.amount == amount > 0 && p.totalRefund == 0 && p.fee == 0
    ensures Step(w, env, PayRefund(id, amount, "")) ==
            Ok(w.(book := Refund(w.book, env, s, r, w.book.balances[r], amount, 0, "", id, w.book.pays[id]),
                  txs := w.txs + {env.txId}))
  {
    RefundStep(w, env, id, amount);
  }

  lemma PruneStep(w: World, env: Env, a: Address, safe: bool, endSeconds: Option<int>)
    requires Own(w, env.kid, a) && CursorTime(w.book.balances[a].lastPruned).Some?
    requires RowsOfPays(w, env, a, PruneEnd(env.ts, safe, endSeconds)) != []
    ensures var rows := RowsOfPays(w, env, a, PruneEnd(env.ts, safe, endSeconds));
            Step(w, env, PayPrune(a, safe, endSeconds)) ==
            Ok(w.(book := PrunedPays(w.book, env, a, w.book.balances[a], PaySum(w.book.pays, rows)),
                  txs := w.txs + {env.txId}))
  {
  }

  // ---- the market ----

  /** A policy that takes a tenth of each payment, for the given account; without an account, no policy. */
  function PolicyFor(target: Option<Address>): Option<Policy> {
    if target.None? then None else Some(Policy(target.value, map["pay" := FeeRate(1, 10, 0)]))
  }

  function MetaFor(target: Option<Address>): Meta {
    Meta(0, 1000, 1000, if target.None? then None else Some(map["pay" := FeeRate(1, 10, 0)]), target)
  }

  /** A shop with an account of the token and one of another token, and the buyer's genesis account. */
  predicate Market(c: Cast, w: World, n: nat, cash: int, shop: int, last: string, target: Option<Address>) {
    && Own(w, c.buyer, c.Genesis()) && Own(w, c.shopKid, c.Shop()) && Own(w, c.shopKid, c.Foreign())
    && w.book.balances[c.Genesis()] == BalanceDoc(cash, "") && w.book.balances[c.Shop()] == BalanceDoc(shop, last)
    && c.code in w.tokens && w.tokens[c.code] == Token(1000, 1000, "", c.Genesis(), PolicyFor(target))
    && c.code !in w.book.lastFee && UsedBelow(w, n)
  }

  /** The market opens at the first time the id format can hold: two accounts and a token. */
  predicate Opening(es: seq<Event>) {
    forall i :: 0 <= i < |es| ==> es[i].env.ts == TEN18 && !es[i].tx.PayPrune? && !es[i].tx.FeePrune?
  }

  function OneAccount(c: Cast): World {
    OpenAccount(EMPTY, c.Shop(), PersonalAccount(false), {c.shopKid}).(txs := {} + {Tick(0)})
  }

  function TwoAccounts(c: Cast): World {
    OpenAccount(OneAccount(c), c.Foreign(), PersonalAccount(false), {c.shopKid}).(txs := {} + {Tick(0)} + {Tick(1)})
  }

  /** Any event that is admitted can come next. */
  lemma OpensWith(es: seq<Event>, e: Event) returns (es': seq<Event>)
    requires AdmittedRun(EMPTY, es) && Admitted(Run(EMPTY, es), e.env) && Opening(es)
    requires e.env.ts == TEN18 && !e.tx.PayPrune? && !e.tx.FeePrune?
    ensures AdmittedRun(EMPTY, es') && Run(EMPTY, es') == Next(Run(EMPTY, es), e.env, e.tx) && Opening(es')
  {
    es' := es + [e];
    Extend(es, e);
  }

  lemma FirstAccount(c: Cast, query: Query, meta: Meta) returns (es: seq<Event>)
    requires Faithful(query)
    ensures AdmittedRun(EMPTY, es) && Run(EMPTY, es) == OneAccount(c) && Opening(es)
  {
    var e := Event(Clock(c, query, TEN18, 0, c.shopKid, meta, None), AccountCreate(c.code, []));
    OpenStep(EMPTY, e.env, c.code);
    es := OpensWith([], e);
  }

  lemma SecondAccount(c: Cast, query: Query, meta: Meta) returns (es: seq<Event>)
    requires Faithful(query) && c.code != c.other
    ensures AdmittedRun(EMPTY, es) && Run(EMPTY, es) == TwoAccounts(c) && Opening(es)
  {
    var e := Event(Clock(c, query, TEN18, 1, c.shopKid, meta, None), AccountCreate(c.other, []));
    es := FirstAccount(c, query, meta);
    OpenStep(OneAccount(c), e.env, c.other);
    es := OpensWith(es, e);
  }

  lemma MarketIssued(c: Cast, env: Env, target: Option<Address>)
    requires env.jointId == c.digest && RegistryOk(TwoAccounts(c)) && c.code != c.other
    requires target.Some? ==> target.value == c.Foreign()
    ensures var r := CreateToken(TwoAccounts(c), env, c.code, MetaFor(target), {c.buyer});
            && r.Ok? && r.value.txs == TwoAccounts(c).txs
            && Market(c, r.value, 2, 1000, 0, "", target) && r.value.book.pays == map[] && r.value.book.fees == map[]
  {
    IssueWrites(TwoAccounts(c), env, c.code, MetaFor(target), {c.buyer});
  }

  lemma MarketBegins(c: Cast, e: Event, target: Option<Address>)
    requires RegistryOk(TwoAccounts(c)) && c.code != c.other && (target.Some? ==> target.value == c.Foreign())
    requires e.tx == TokenCreate(c.code, []) && e.env == Clock(c, e.env.query, TEN18, 2, c.buyer, MetaFor(target), None)
    ensures var w := Next(TwoAccounts(c), e.env, e.tx);
            Market(c, w, 3, 1000, 0, "", target) && w.book.pays == map[] && w.book.fees == map[]
  {
    MarketIssued(c, e.env, target);
    IssueStep(TwoAccounts(c), e.env, c.code);
    MarketCommits(c, CreateToken(TwoAccounts(c), e.env, c.code, MetaFor(target), {c.buyer}).value, 2, 1000, 0, "",
                  target);
  }

  lemma MarketCommits(c: Cast, w: World, n: nat, cash: int, shop: int, last: string, target: Option<Address>)
    requires Market(c, w, n, cash, shop, last, target)
    ensures Market(c, w.(txs := w.txs + {Tick(n)}), n + 1, cash, shop, last, target)
  {
  }

  lemma ThirdAdmitted(c: Cast, env: Env)
    requires Stampable(env.ts) && Faithful(env.query) && env.txId == Tick(2) && env.recordId == NewId(env.ts, env.txId)
    requires env.contract.None?
    ensures Admitted(TwoAccounts(c), env)
  {
  }

  lemma MarketOpens(c: Cast, query: Query, target: Option<Address>) returns (es: seq<Event>)
    requires Faithful(query) && c.code != c.other && (target.Some? ==> target.value == c.Foreign())
    ensures AdmittedRun(EMPTY, es) && Market(c, Run(EMPTY, es), 3, 1000, 0, "", target) && Opening(es)
    ensures Run(EMPTY, es).book.pays == map[] && Run(EMPTY, es).book.fees == map[]
  {
    var e := Event(Clock(c, query, TEN18, 2, c.buyer, MetaFor(target), None), TokenCreate(c.code, []));
    es := SecondAccount(c, query, MetaFor(target));
    Reached(es);
    ThirdAdmitted(c, e.env);
    MarketBegins(c, e, target);
    es := OpensWith(es, e);
  }

  // ---- what happens at the market ----

  /** Only balances have moved. */
  lemma MarketMoves(c: Cast, w: World, w': World, n: nat, cash: int, shop: int, last: string, target: Option<Address>,
                    cash': int, shop': int, last': string)
    requires c.code != c.other && Market(c, w, n, cash, shop, last, target)
    requires w'.registry == w.registry && w'.tokens == w.tokens && w'.book.lastFee == w.book.lastFee
    requires w'.txs == w.txs + {Tick(n)}
    requires w.book.balances.Keys <= w'.book.balances.Keys
    requires w'.book.balances[c.Genesis()] == BalanceDoc(cash', "") &&
             w'.book.balances[c.Shop()] == BalanceDoc(shop', last')
    ensures Market(c, w', n + 1, cash', shop', last', target)
  {
  }

  /** What the market does next: its n-th transaction, by a person at a time. */
  ghost predicate Nth(c: Cast, e: Event, n: nat, kid: Kid, target: Option<Address>) {
    Stampable(e.env.ts) && Faithful(e.env.query) &&
    e.env == Clock(c, e.env.query, e.env.ts, n, kid, MetaFor(target), None)
  }

  lemma MarketAdmits(c: Cast, w: World, n: nat, e: Event, kid: Kid, cash: int, shop: int, last: string,
                     target: Option<Address>)
    requires Market(c, w, n, cash, shop, last, target) && Nth(c, e, n, kid, target)
    ensures Admitted(w, e.env) && e.env.txId == Tick(n) && e.env.kid == kid
  {
  }

  /** A window with one record in it. */
  lemma OneRow(w: World, env: Env, a: Address, end: Time, id: string)
    requires Faithful(env.query) && id in w.book.pays && w.book.pays[id].merchant == a
    requires forall x :: x in PayTimes(w.book.pays, a) ==>
               (PayCursor(w.book.balances, a) < w.book.pays[x].createdTime <= end <==> x == id)
    ensures var rows, p := RowsOfPays(w, env, a, end), w.book.pays[id];
            rows == [id] && Page(rows) == [id] && PageEnd(rows) == id &&
            SumOver(PayFees(w.book.pays), [id]) == p.fee && Net(w.book.pays, [id]) == p.amount - p.fee
  {
    var rows := RowsOfPays(w, env, a, end);
    assert Answers(PayTimes(w.book.pays, a), PayCursor(w.book.balances, a), end, rows);
    SingleAnswer(PayTimes(w.book.pays, a), PayCursor(w.book.balances, a), end, id, rows);
    OneSum(PayFees(w.book.pays), id);
    OneSum(PayAmounts(w.book.pays), id);
    assert Page(rows) == [id];
  }

  lemma OneSum(m: map<string, int>, id: string)
    ensures SumOver(m, [id]) == if id in m then m[id] else 0
  {
    assert [id][..0] == [];
  }

  lemma SingleAnswer(times: map<string, Time>, start: Time, end: Time, id: string, rows: seq<string>)
    requires Answers(times, start, end, rows) && id in times
    requires forall x :: x in times ==> (start < times[x] <= end <==> x == id)
    ensures rows == [id]
  {
    assert id in rows;
    forall i | 0 <= i < |rows| ensures rows[i] == id {
      assert rows[i] in rows;
    }
    assert rows[0] == rows[|rows| - 1];
  }

  lemma PaidBook(c: Cast, w: World, env: Env, n: nat, amount: int, fee: int, cash: int, shop: int, last: string,
                 target: Option<Address>)
    requires c.code != c.other && env.txId == Tick(n) && Market(c, w, n, cash, shop, last, target)
    ensures var w' := w.(book := PayNow(w.book, env, c.Genesis(), w.book.balances[c.Genesis()], c.Shop(), amount, fee,
                                        "", ""),
                         txs := w.txs + {env.txId});
            Market(c, w', n + 1, cash - amount, shop, last, target)
  {
    var w' := w.(book := PayNow(w.book, env, c.Genesis(), w.book.balances[c.Genesis()], c.Shop(), amount, fee, "", ""),
                 txs := w.txs + {env.txId});
    MarketMoves(c, w, w', n, cash, shop, last, target, cash - amount, shop, last);
  }

  /** The buyer pays the shop from the genesis account. */
  lemma MarketPaid(c: Cast, w: World, e: Event, n: nat, amount: int, fee: int, cash: int, shop: int, last: string,
                   target: Option<Address>)
    requires c.code != c.other && Market(c, w, n, cash, shop, last, target) && e.env.txId == Tick(n) &&
             e.env.kid == c.buyer
    requires e.tx == PayTx(Some(c.Genesis()), c.Shop(), amount, "", "") && 0 < amount <= cash
    requires CalcFee(w.tokens, c.Shop(), "pay", amount) == Ok(fee)
    ensures var w' := Next(w, e.env, e.tx);
            && Succeeds(w, e) && Market(c, w', n + 1, cash - amount, shop, last, target) && w'.book.fees == w.book.fees
            && w'.book.pays ==
               w.book.pays[e.env.recordId := Pay(c.Shop(), amount, fee, 0, c.Genesis(), "", "", "", e.env.ts)]
  {
    PayStep(w, e.env, c.Genesis(), c.Shop(), amount, fee);
    PaidBook(c, w, e.env, n, amount, fee, cash, shop, last, target);
  }

  lemma PayScene(c: Cast, es: seq<Event>, n: nat, e: Event, amount: int, fee: int, cash: int, shop: int, last: string,
                 target: Option<Address>)
    requires c.code != c.other && AdmittedRun(EMPTY, es) && Market(c, Run(EMPTY, es), n, cash, shop, last, target)
    requires Nth(c, e, n, c.buyer, target) && e.tx == PayTx(Some(c.Genesis()), c.Shop(), amount, "", "") &&
             0 < amount <= cash
    requires CalcFee(Run(EMPTY, es).tokens, c.Shop(), "pay", amount) == Ok(fee)
    ensures var w, w' := Run(EMPTY, es), Run(EMPTY, es + [e]);
            && AdmittedRun(EMPTY, es + [e]) && Succeeds(w, e) && Market(c, w', n + 1, cash - amount, shop, last, target)
            && e.env.recordId !in w.book.pays && w'.book.fees == w.book.fees
            && w'.book.pays ==
               w.book.pays[e.env.recordId := Pay(c.Shop(), amount, fee, 0, c.Genesis(), "", "", "", e.env.ts)]
  {
    MarketAdmits(c, Run(EMPTY, es), n, e, c.buyer, cash, shop, last, target);
    FreshRecord(es, e.env);
    MarketPaid(c, Run(EMPTY, es), e, n, amount, fee, cash, shop, last, target);
    Extend(es, e);
  }

  lemma PrunedBook(c: Cast, w: World, env: Env, n: nat, s: PageSum, cash: int, shop: int, last: string,
                   target: Option<Address>)
    requires c.code != c.other && env.txId == Tick(n) && Market(c, w, n, cash, shop, last, target) && s.end != ""
    ensures var w' := w.(book := PrunedPays(w.book, env, c.Shop(), w.book.balances[c.Shop()], s),
                         txs := w.txs + {env.txId});
            Market(c, w', n + 1, cash, shop + s.sum - s.fee, s.end, target)
  {
    var w' := w.(book := PrunedPays(w.book, env, c.Shop(), w.book.balances[c.Shop()], s), txs := w.txs + {env.txId});
    MarketMoves(c, w, w', n, cash, shop, last, target, cash, shop + s.sum - s.fee, s.end);
  }

  /** The shop prunes its pays. */
  lemma MarketPruned(c: Cast, w: World, e: Event, n: nat, rows: seq<string>, cash: int, shop: int, last: string,
                     target: Option<Address>)
    requires c.code != c.other && Market(c, w, n, cash, shop, last, target) && e.env.txId == Tick(n) &&
             e.env.kid == c.shopKid
    requires CursorTime(last).Some? && e.tx.PayPrune? && e.tx.account == c.Shop()
    requires rows == RowsOfPays(w, e.env, c.Shop(), PruneEnd(e.env.ts, e.tx.safe, e.tx.endSeconds))
    requires rows != [] && PageEnd(rows) != ""
    ensures var w', page := Next(w, e.env, e.tx), Page(rows);
            && Succeeds(w, e) && w'.book.pays == w.book.pays
            && Market(c, w', n + 1, cash, shop + Net(w.book.pays, page), PageEnd(rows), target)
            && w'.book.fees == CreateFee(w.book.fees, e.env, c.Shop(), SumOver(PayFees(w.book.pays), page))
  {
    PruneStep(w, e.env, c.Shop(), e.tx.safe, e.tx.endSeconds);
    PrunedBook(c, w, e.env, n, PaySum(w.book.pays, rows), cash, shop, last, target);
  }

  lemma PruneScene(c: Cast, es: seq<Event>, n: nat, e: Event, rows: seq<string>, cash: int, shop: int, last: string,
                   target: Option<Address>)
    requires c.code != c.other && AdmittedRun(EMPTY, es) && Market(c, Run(EMPTY, es), n, cash, shop, last, target)
    requires Nth(c, e, n, c.shopKid, target) && CursorTime(last).Some? && e.tx.PayPrune? && e.tx.account == c.Shop()
    requires rows == RowsOfPays(Run(EMPTY, es), e.env, c.Shop(), PruneEnd(e.env.ts, e.tx.safe, e.tx.endSeconds))
    requires rows != [] && PageEnd(rows) != ""
    ensures var w, w', page := Run(EMPTY, es), Run(EMPTY, es + [e]), Page(rows);
            && AdmittedRun(EMPTY, es + [e]) && Succeeds(w, e) && w'.book.pays == w.book.pays
            && Market(c, w', n + 1, cash, shop + Net(w.book.pays, page), PageEnd(rows), target)
            && w'.book.fees == CreateFee(w.book.fees, e.env, c.Shop(), SumOver(PayFees(w.book.pays), page))
  {
    MarketAdmits(c, Run(EMPTY, es), n, e, c.shopKid, cash, shop, last, target);
    MarketPruned(c, Run(EMPTY, es), e, n, rows, cash, shop, last, target);
    Extend(es, e);
  }

  lemma ReturnedBook(c: Cast, w: World, env: Env, n: nat, amount: int, cash: int, shop: int, last: string)
    requires c.code != c.other && env.txId == Tick(n) && Market(c, w, n, cash, shop, last, None)
    ensures var w' := w.(book := Transferred(w.book, env, c.Shop(), w.book.balances[c.Shop()],
                                             c.Genesis(), w.book.balances[c.Genesis()], amount, 0, "", None),
                         txs := w.txs + {env.txId});
            Market(c, w', n + 1, cash + amount, shop - amount, last, None)
  {
    var w' := w.(book := Transferred(w.book, env, c.Shop(), w.book.balances[c.Shop()],
                                     c.Genesis(), w.book.balances[c.Genesis()], amount, 0, "", None),
                 txs := w.txs + {env.txId});
    MarketMoves(c, w, w', n, cash, shop, last, None, cash + amount, shop - amount, last);
  }

  /** The shop gives back to the buyer what it has. */
  lemma MarketReturned(c: Cast, w: World, e: Event, n: nat, amount: int, cash: int, shop: int, last: string)
    requires c.code != c.other && Market(c, w, n, cash, shop, last, None) && e.env.txId == Tick(n) &&
             e.env.kid == c.shopKid
    requires e.tx == Transfer(Some(c.Shop()), c.Genesis(), amount, "", None, []) && 0 < amount <= shop
    ensures var w' := Next(w, e.env, e.tx);
            && Succeeds(w, e) && Market(c, w', n + 1, cash + amount, shop - amount, last, None)
            && w'.book.pays == w.book.pays && w'.book.fees == w.book.fees
  {
    TransferStep(w, e.env, c.Shop(), c.Genesis(), amount);
    ReturnedBook(c, w, e.env, n, amount, cash, shop, last);
  }

  lemma ReturnScene(c: Cast, es: seq<Event>, n: nat, e: Event, amount: int, cash: int, shop: int, last: string)
    requires c.code != c.other && AdmittedRun(EMPTY, es) && Market(c, Run(EMPTY, es), n, cash, shop, last, None)
    requires Nth(c, e, n, c.shopKid, None)
    requires e.tx == Transfer(Some(c.Shop()), c.Genesis(), amount, "", None, []) && 0 < amount <= shop
    ensures var w, w' := Run(EMPTY, es), Run(EMPTY, es + [e]);
            && AdmittedRun(EMPTY, es + [e]) && Succeeds(w, e)
            && Market(c, w', n + 1, cash + amount, shop - amount, last, None)
            && w'.book.pays == w.book.pays && w'.book.fees == w.book.fees
  {
    MarketAdmits(c, Run(EMPTY, es), n, e, c.shopKid, cash, shop, last, None);
    MarketReturned(c, Run(EMPTY, es), e, n, amount, cash, shop, last);
    Extend(es, e);
  }

  lemma RefundedBook(c: Cast, w: World, env: Env, n: nat, id: string, amount: int, cash: int, shop: int, last: string)
    requires c.code != c.other && env.txId == Tick(n) && Market(c, w, n, cash, shop, last, None)
    requires id in w.book.pays && w.book.pays[id].totalRefund == 0
    ensures var p := w.book.pays[id];
            var w' := w.(book := Refund(w.book, env, c.Shop(), c.Genesis(), w.book.balances[c.Genesis()], amount, 0, "",
                                        id, p),
                         txs := w.txs + {env.txId});
            && Market(c, w', n + 1, cash + amount, shop, last, None) && w'.book.fees == w.book.fees
            && w'.book.pays ==
               w.book.pays[env.recordId := Pay(c.Shop(), -amount, 0, 0, c.Genesis(), id, "", "", env.ts)]
                                          [id := p.(totalRefund := amount)]
  {
    var p := w.book.pays[id];
    var w' := w.(book := Refund(w.book, env, c.Shop(), c.Genesis(), w.book.balances[c.Genesis()], amount, 0, "", id, p),
                 txs := w.txs + {env.txId});
    MarketMoves(c, w, w', n, cash, shop, last, None, cash + amount, shop, last);
  }

  /** The shop refunds a payment of the buyer in full. */
  lemma MarketRefunded(c: Cast, w: World, e: Event, n: nat, id: string, amount: int, cash: int, shop: int, last: string)
    requires c.code != c.other && Market(c, w, n, cash, shop, last, None) && e.env.txId == Tick(n) &&
             e.env.kid == c.shopKid
    requires id in w.book.pays && w.book.pays[id].merchant == c.Shop() && w.book.pays[id].rid == c.Genesis()
    requires w.book.pays[id].amount == amount > 0 && w.book.pays[id].totalRefund == 0 && w.book.pays[id].fee == 0
    requires e.tx == PayRefund(id, amount, "")
    ensures var w' := Next(w, e.env, e.tx);
            && Succeeds(w, e) && Market(c, w', n + 1, cash + amount, shop, last, None) && w'.book.fees == w.book.fees
            && w'.book.pays ==
               w.book.pays[e.env.recordId := Pay(c.Shop(), -amount, 0, 0, c.Genesis(), id, "", "", e.env.ts)]
                                          [id := w.book.pays[id].(totalRefund := amount)]
  {
    FullRefundStep(w, e.env, id, c.Shop(), c.Genesis(), amount);
    RefundedBook(c, w, e.env, n, id, amount, cash, shop, last);
  }

  lemma RefundScene(c: Cast, es: seq<Event>, n: nat, e: Event, id: string, amount: int, cash: int, shop: int,
                    last: string)
    requires c.code != c.other && AdmittedRun(EMPTY, es) && Market(c, Run(EMPTY, es), n, cash, shop, last, None)
    requires var pays := Run(EMPTY, es).book.pays;
             id in pays && pays[id].merchant == c.Shop() && pays[id].rid == c.Genesis() &&
             pays[id].amount == amount > 0 && pays[id].totalRefund == 0 && pays[id].fee == 0
    requires Nth(c, e, n, c.shopKid, None) && e.tx == PayRefund(id, amount, "")
    ensures var w, w' := Run(EMPTY, es), Run(EMPTY, es + [e]);
            && AdmittedRun(EMPTY, es + [e]) && Succeeds(w, e) && Market(c, w', n + 1, cash + amount, shop, last, None)
            && w'.book.fees == w.book.fees && e.env.recordId !in w.book.pays
            && w'.book.pays ==
               w.book.pays[e.env.recordId := Pay(c.Shop(), -amount, 0, 0, c.Genesis(), id, "", "", e.env.ts)]
                                          [id := w.book.pays[id].(totalRefund := amount)]
  {
    MarketAdmits(c, Run(EMPTY, es), n, e, c.shopKid, cash, shop, last, None);
    FreshRecord(es, e.env);
    MarketRefunded(c, Run(EMPTY, es), e, n, id, amount, cash, shop, last);
    Extend(es, e);
  }

  // ---- a market with one payment ----

  const PAID: Time := TEN18 + 1

  function PayEvent(c: Cast, query: Query, n: nat, ts: Time, amount: int, target: Option<Address>): Event {
    Event(Clock(c, query, ts, n, c.buyer, MetaFor(target), None), PayTx(Some(c.Genesis()), c.Shop(), amount, "", ""))
  }

  function PruneEvent(c: Cast, query: Query, n: nat, ts: Time, safe: bool, target: Option<Address>): Event {
    Event(Clock(c, query, ts, n, c.shopKid, MetaFor(target), None), PayPrune(c.Shop(), safe, None))
  }

  /** The fee of a payment: a tenth where there is a policy. */
  function FeeOf(target: Option<Address>, amount: nat): nat {
    if target.None? then 0 else amount / 10
  }

  lemma MarketFee(c: Cast, w: World, n: nat, cash: int, shop: int, last: string, target: Option<Address>, amount: nat)
    requires Market(c, w, n, cash, shop, last, target) && c.code != c.other &&
             (target.Some? ==> target.value == c.Foreign())
    ensures CalcFee(w.tokens, c.Shop(), "pay", amount) == Ok(FeeOf(target, amount))
  {
  }

  /** The only pay record is the buyer's first payment. */
  predicate OnePay(c: Cast, w: World, id: string, amount: int, fee: int) {
    id != "" && CursorTime(id) == Some(PAID) &&
    w.book.pays == map[id := Pay(c.Shop(), amount, fee, 0, c.Genesis(), "", "", "", PAID)]
  }

  lemma PaysFirst(c: Cast, es: seq<Event>, e: Event, amount: nat, target: Option<Address>)
    requires c.code != c.other && 0 < amount <= 1000 && (target.Some? ==> target.value == c.Foreign())
    requires AdmittedRun(EMPTY, es) && Market(c, Run(EMPTY, es), 3, 1000, 0, "", target)
    requires Run(EMPTY, es).book.pays == map[] && Run(EMPTY, es).book.fees == map[]
    requires Nth(c, e, 3, c.buyer, target) && e.env.ts == PAID &&
             e.tx == PayTx(Some(c.Genesis()), c.Shop(), amount, "", "")
    ensures AdmittedRun(EMPTY, es + [e]) && Market(c, Run(EMPTY, es + [e]), 4, 1000 - amount, 0, "", target)
    ensures OnePay(c, Run(EMPTY, es + [e]), e.env.recordId, amount, FeeOf(target, amount)) &&
            Run(EMPTY, es + [e]).book.fees == map[]
  {
    MarketFee(c, Run(EMPTY, es), 3, 1000, 0, "", target, amount);
    RecordCursor(e.env);
    PayScene(c, es, 3, e, amount, FeeOf(target, amount), 1000, 0, "", target);
  }

  lemma PaidOnce(c: Cast, query: Query, amount: nat, target: Option<Address>) returns (es: seq<Event>, id: string)
    requires Faithful(query) && c.code != c.other && 0 < amount <= 1000 &&
             (target.Some? ==> target.value == c.Foreign())
    ensures AdmittedRun(EMPTY, es) && Market(c, Run(EMPTY, es), 4, 1000 - amount, 0, "", target)
    ensures OnePay(c, Run(EMPTY, es), id, amount, FeeOf(target, amount)) && Run(EMPTY, es).book.fees == map[]
    ensures Early(es)
  {
    var e := PayEvent(c, query, 3, PAID, amount, target);
    es := MarketOpens(c, query, target);
    PaysFirst(c, es, e, amount, target);
    EarlyStill(es, e);
    es, id := es + [e], e.env.recordId;
  }

  lemma EarlyStill(es: seq<Event>, e: Event)
    requires Opening(es) && e.env.ts == PAID && e.tx.PayTx?
    ensures Early(es + [e])
  {
  }

  /** No prune yet, and nothing after the payment. */
  predicate Early(es: seq<Event>) {
    forall i :: 0 <= i < |es| ==> TEN18 <= es[i].env.ts <= PAID && !es[i].tx.PayPrune? && !es[i].tx.FeePrune?
  }

  lemma FirstRow(c: Cast, w: World, env: Env, end: Time, id: string, amount: int, fee: int)
    requires OnePay(c, w, id, amount, fee) && PayCursor(w.book.balances, c.Shop()) == 0 && Faithful(env.query) &&
             PAID <= end
    ensures var rows := RowsOfPays(w, env, c.Shop(), end);
            rows == [id] && Page(rows) == rows && PageEnd(rows) == id &&
            SumOver(PayFees(w.book.pays), rows) == fee && Net(w.book.pays, rows) == amount - fee
  {
    OneRow(w, env, c.Shop(), end, id);
  }

  /** The fee record that pruning the payment leaves. */
  predicate FeeLeft(c: Cast, w: World, fid: string, ts: Time, fee: int) {
    if fee == 0 then w.book.fees == map[]
    else fid != "" && CursorTime(fid) == Some(ts) && w.book.fees == map[fid := Fee(c.code, c.Shop(), fee, ts)]
  }

  lemma PrunesFirst(c: Cast, es: seq<Event>, e: Event, id: string, amount: nat, target: Option<Address>)
    requires c.code != c.other && AdmittedRun(EMPTY, es) && Market(c, Run(EMPTY, es), 4, 1000 - amount, 0, "", target)
    requires OnePay(c, Run(EMPTY, es), id, amount, FeeOf(target, amount)) && Run(EMPTY, es).book.fees == map[]
    requires Nth(c, e, 4, c.shopKid, target) && e.tx.PayPrune? && e.tx.account == c.Shop()
    requires PAID <= PruneEnd(e.env.ts, e.tx.safe, e.tx.endSeconds)
    ensures AdmittedRun(EMPTY, es + [e]) && Succeeds(Run(EMPTY, es), e)
    ensures Market(c, Run(EMPTY, es + [e]), 5, 1000 - amount, amount - FeeOf(target, amount), id, target)
    ensures OnePay(c, Run(EMPTY, es + [e]), id, amount, FeeOf(target, amount))
    ensures FeeLeft(c, Run(EMPTY, es + [e]), e.env.recordId, e.env.ts, FeeOf(target, amount))
    ensures RowsOfPays(Run(EMPTY, es), e.env, c.Shop(), PruneEnd(e.env.ts, e.tx.safe, e.tx.endSeconds)) == [id]
  {
    FirstRow(c, Run(EMPTY, es), e.env, PruneEnd(e.env.ts, e.tx.safe, e.tx.endSeconds), id, amount,
             FeeOf(target, amount));
    RecordCursor(e.env);
    PruneScene(c, es, 4, e, [id], 1000 - amount, 0, "", target);
  }

  /** The shop has pruned the payment, with its last transaction. */
  lemma PrunedOnce(c: Cast, query: Query, amount: nat, target: Option<Address>, ts: Time, safe: bool)
    returns (front: seq<Event>, e: Event, id: string)
    requires Faithful(query) && c.code != c.other && 0 < amount <= 1000 &&
             (target.Some? ==> target.value == c.Foreign())
    requires Stampable(ts) && PAID <= PruneEnd(ts, safe, None)
    ensures AdmittedRun(EMPTY, front) && AdmittedRun(EMPTY, front + [e]) && Succeeds(Run(EMPTY, front), e) &&
            Early(front)
    ensures e == PruneEvent(c, query, 4, ts, safe, target)
    ensures Market(c, Run(EMPTY, front + [e]), 5, 1000 - amount, amount - FeeOf(target, amount), id, target)
    ensures OnePay(c, Run(EMPTY, front + [e]), id, amount, FeeOf(target, amount))
    ensures FeeLeft(c, Run(EMPTY, front + [e]), e.env.recordId, ts, FeeOf(target, amount))
    ensures RowsOfPays(Run(EMPTY, front), e.env, c.Shop(), PruneEnd(ts, safe, None)) == [id]
  {
    e := PruneEvent(c, query, 4, ts, safe, target);
    front, id := PaidOnce(c, query, amount, target);
    PrunesFirst(c, front, e, id, amount, target);
  }
}
