// Refunds of one payment: the running total is the sum of its refunds and never exceeds the payment;
// the fees given back never exceed the fee, and rounding keeps back less than one unit a refund.
module Refunds {
  import opened Basics
  import opened World
  import opened Stubs
  import opened Sums
  import opened Fees
  import opened Transactions
  import opened Moves
  import opened Invariants
  import opened Runs

  /** What each refund of a payment gave back, and the fee it gave back. */
  ghost function Refunded(pays: map<string, Pay>, parent: string): map<string, int> {
    map id | id in pays && pays[id].parentId == parent :: -pays[id].amount
  }

  ghost function FeesRefunded(pays: map<string, Pay>, parent: string): map<string, int> {
    map id | id in pays && pays[id].parentId == parent :: -pays[id].fee
  }

  /** t of the amount has been refunded in k refunds, and r of the fee: no more than its share, and each
      refund rounded down by less than one unit. */
  predicate Shares(amount: int, fee: int, t: int, r: int, k: nat) {
    && 0 <= t && 0 <= r
    && (t != 0 ==> t <= amount)
    && (amount > 0 ==> 0 <= fee && r * amount <= t * fee && t * fee - r * amount <= k * (amount - 1))
    && (amount <= 0 ==> t == 0 && r == 0 && k == 0)
  }

  ghost predicate RefundsOk(pays: map<string, Pay>) {
    forall id {:trigger Accounted(pays, id)} :: id in pays ==> Accounted(pays, id)
  }

  ghost predicate Accounted(pays: map<string, Pay>, id: string)
    requires id in pays
  {
    && id != ""
    && (pays[id].parentId == "" || pays[id].parentId in pays)
    && pays[id].totalRefund == Sum(Refunded(pays, id))
    && Shares(pays[id].amount, pays[id].fee, pays[id].totalRefund, Sum(FeesRefunded(pays, id)), |Refunded(pays, id)|)
  }

  // ---- the arithmetic of one refund ----

  lemma ShareGrows(amount: int, fee: int, t: int, r: int, k: nat, a: int, f: int)
    requires Shares(amount, fee, t, r, k) && a > 0 && t + a <= amount
    requires f == if a == amount then fee else MulRat(a, fee, amount)
    ensures Shares(amount, fee, t + a, r + f, k + 1)
  {
    if a == amount {
      assert r * amount <= 0;
      assert r == 0 by { if r > 0 { MulMonotone(1, r, amount); } }
      assert (k + 1) * (amount - 1) >= 0;
    } else {
      FloorBounds(a, fee, amount);
      assert (f + 1) * amount == f * amount + amount;
      assert (t + a) * fee == t * fee + a * fee;
      assert (r + f) * amount == r * amount + f * amount;
      assert (k + 1) * (amount - 1) == k * (amount - 1) + (amount - 1);
      assert a * fee >= 0;
      FloorMonotone(0, a * fee, amount);
    }
  }

  /** A payment refunded in full has given back its fee but for less than one unit a refund after the first. */
  lemma ShareInFull(amount: int, fee: int, r: int, k: nat)
    requires Shares(amount, fee, amount, r, k) && amount > 0
    ensures 0 <= fee - r <= if k > 0 then k - 1 else 0
  {
    var d := fee - r;
    assert amount * fee - r * amount == d * amount;
    assert d >= 0 by { if d < 0 { MulMonotone(1, -d, amount); } }
    assert k * amount == k * (amount - 1) + k;
    if d > 0 && d > k - 1 {
      MulMonotone(k, d, amount);
    }
  }

  lemma ShareBounded(amount: int, fee: int, t: int, r: int, k: nat)
    requires Shares(amount, fee, t, r, k) && amount > 0
    ensures r <= fee
  {
    MulMonotone(t, amount, fee);
    assert (fee + 1) * amount == fee * amount + amount;
    if r > fee {
      MulMonotone(fee + 1, r, amount);
    }
  }

  // ---- one move ----

  lemma NewChild(pays: map<string, Pay>, id: string, p: Pay, parent: string)
    requires id !in pays && parent != ""
    ensures Refunded(pays[id := p], parent) ==
            if p.parentId == parent then Refunded(pays, parent)[id := -p.amount] else Refunded(pays, parent)
    ensures FeesRefunded(pays[id := p], parent) ==
            if p.parentId == parent then FeesRefunded(pays, parent)[id := -p.fee] else FeesRefunded(pays, parent)
  {
  }

  lemma ParentTotal(pays: map<string, Pay>, id: string, p: Pay, parent: string)
    requires id in pays && SamePay(pays[id], p)
    ensures Refunded(pays[id := p], parent) == Refunded(pays, parent)
    ensures FeesRefunded(pays[id := p], parent) == FeesRefunded(pays, parent)
  {
  }

  lemma NoChildYet(pays: map<string, Pay>, id: string)
    requires RefundsOk(pays) && id !in pays && id != ""
    ensures forall x :: x in pays ==> pays[x].parentId != id
  {
    forall x | x in pays ensures pays[x].parentId != id {
      assert Accounted(pays, x);
    }
  }

  /** Filing a payment keeps the refund books. */
  lemma PaymentFiled(pays: map<string, Pay>, id: string, p: Pay)
    requires RefundsOk(pays) && id !in pays && id != "" && p.parentId == "" && p.totalRefund == 0 && p.fee >= 0
    ensures RefundsOk(pays[id := p])
  {
    var pays' := pays[id := p];
    NoChildYet(pays, id);
    assert Refunded(pays', id) == map[] && FeesRefunded(pays', id) == map[];
    SumOfZeros(Refunded(pays', id));
    SumOfZeros(FeesRefunded(pays', id));
    forall x | x in pays' ensures Accounted(pays', x) {
      if x != id {
        assert Accounted(pays, x);
        NewChild(pays, id, p, x);
      }
    }
  }

  lemma SameAccount(pays: map<string, Pay>, pays': map<string, Pay>, id: string)
    requires id in pays && pays.Keys <= pays'.Keys && pays'[id] == pays[id] && Accounted(pays, id)
    requires Refunded(pays', id) == Refunded(pays, id) && FeesRefunded(pays', id) == FeesRefunded(pays, id)
    ensures Accounted(pays', id)
  {
  }

  /** A refund of this much of its parent. */
  predicate IsRefund(pays: map<string, Pay>, id: string, refund: Pay, amount: int) {
    && id !in pays && id != "" && refund.parentId in pays && refund.totalRefund == 0
    && amount > 0 && pays[refund.parentId].totalRefund + amount <= pays[refund.parentId].amount
    && refund.amount == -amount && refund.fee == -RefundedFee(pays[refund.parentId], amount)
  }

  /** The records after it: the refund is filed and its parent's total raised. */
  function AfterRefund(pays: map<string, Pay>, id: string, refund: Pay, amount: int): map<string, Pay>
    requires refund.parentId in pays
  {
    var parent := pays[refund.parentId];
    pays[id := refund][refund.parentId := parent.(totalRefund := parent.totalRefund + amount)]
  }

  /** What the refunds of any payment are after it. */
  lemma AfterRefundChildren(pays: map<string, Pay>, id: string, refund: Pay, amount: int, y: string)
    requires IsRefund(pays, id, refund, amount) && y != ""
    ensures var pays' := AfterRefund(pays, id, refund, amount);
            Refunded(pays', y) ==
            (if y == refund.parentId then Refunded(pays, y)[id := amount] else Refunded(pays, y)) &&
            FeesRefunded(pays', y) ==
            (if y == refund.parentId then FeesRefunded(pays, y)[id := -refund.fee] else FeesRefunded(pays, y))
  {
    var parent := pays[refund.parentId];
    NewChild(pays, id, refund, y);
    ParentTotal(pays[id := refund], refund.parentId, parent.(totalRefund := parent.totalRefund + amount), y);
  }

  /** The books after a refund, seen from the refund itself, from its parent, and from any other payment. */
  lemma RefundSeenByItself(pays: map<string, Pay>, id: string, refund: Pay, amount: int)
    requires RefundsOk(pays) && IsRefund(pays, id, refund, amount)
    ensures Accounted(AfterRefund(pays, id, refund, amount), id)
  {
    AfterRefundChildren(pays, id, refund, amount, id);
    NoChildYet(pays, id);
    assert Refunded(pays, id) == map[] && FeesRefunded(pays, id) == map[];
    SumOfZeros(Refunded(pays, id));
    SumOfZeros(FeesRefunded(pays, id));
  }

  lemma RefundSeenByParent(pays: map<string, Pay>, id: string, refund: Pay, amount: int)
    requires IsRefund(pays, id, refund, amount) && Accounted(pays, refund.parentId)
    ensures Accounted(AfterRefund(pays, id, refund, amount), refund.parentId)
  {
    var x, parent := refund.parentId, pays[refund.parentId];
    AfterRefundChildren(pays, id, refund, amount, x);
    SumPut(Refunded(pays, x), id, amount);
    SumPut(FeesRefunded(pays, x), id, -refund.fee);
    ShareGrows(parent.amount, parent.fee, parent.totalRefund, Sum(FeesRefunded(pays, x)), |Refunded(pays, x)|, amount,
               -refund.fee);
  }

  lemma RefundSeenByOthers(pays: map<string, Pay>, id: string, refund: Pay, amount: int, y: string)
    requires IsRefund(pays, id, refund, amount) && y in pays && y != refund.parentId && Accounted(pays, y)
    ensures Accounted(AfterRefund(pays, id, refund, amount), y)
  {
    AfterRefundChildren(pays, id, refund, amount, y);
    SameAccount(pays, AfterRefund(pays, id, refund, amount), y);
  }

  /** Filing a refund and raising its parent's total keeps the refund books. */
  lemma RefundFiled(pays: map<string, Pay>, id: string, refund: Pay, amount: int)
    requires RefundsOk(pays) && IsRefund(pays, id, refund, amount)
    ensures RefundsOk(AfterRefund(pays, id, refund, amount))
  {
    forall y | y in AfterRefund(pays, id, refund, amount) ensures Accounted(AfterRefund(pays, id, refund, amount), y) {
      if y == id {
        RefundSeenByItself(pays, id, refund, amount);
      } else {
        assert Accounted(pays, y);
        if y == refund.parentId {
          RefundSeenByParent(pays, id, refund, amount);
        } else {
          RefundSeenByOthers(pays, id, refund, amount, y);
        }
      }
    }
  }

  lemma FlowPays(w: World, env: Env, m: Move)
    requires Enabled(w, env, m) && GroupOf(m) == Flow
    ensures Apply(w, env, m).book.pays == w.book.pays
  {
  }

  lemma PrunePays(w: World, env: Env, m: Move)
    requires Enabled(w, env, m) && (m.MPayPrune? || m.MFeePrune?)
    ensures Apply(w, env, m).book.pays == w.book.pays
  {
  }

  lemma OfficePays(w: World, env: Env, m: Move)
    requires Enabled(w, env, m) && GroupOf(m) == Office
    ensures Apply(w, env, m).book.pays == w.book.pays
  {
  }

  lemma OtherPays(w: World, env: Env, m: Move)
    requires Enabled(w, env, m) && !m.MPay? && !m.MPayPending? && !m.MRefund?
    ensures Apply(w, env, m).book.pays == w.book.pays
  {
    match GroupOf(m)
    case Flow => FlowPays(w, env, m);
    case Records => PrunePays(w, env, m);
    case Office => OfficePays(w, env, m);
  }

  lemma RefundMoveFiles(w: World, env: Env, m: Move)
    requires NewIds(w, env) && Enabled(w, env, m) && m.MRefund? && env.recordId != ""
    ensures var pays' := Apply(w, env, m).book.pays;
            env.recordId in pays' && IsRefund(w.book.pays, env.recordId, pays'[env.recordId], m.amount) &&
            pays' == AfterRefund(w.book.pays, env.recordId, pays'[env.recordId], m.amount)
  {
  }

  lemma RefundsMove(w: World, env: Env, m: Move)
    requires RefundsOk(w.book.pays) && NewIds(w, env) && Enabled(w, env, m) && env.recordId != ""
    ensures RefundsOk(Apply(w, env, m).book.pays)
  {
    if m.MRefund? {
      RefundMoveFiles(w, env, m);
      RefundFiled(w.book.pays, env.recordId, Apply(w, env, m).book.pays[env.recordId], m.amount);
    } else if m.MPay? {
      FeeFree(w.tokens, m.merchant, "pay", m.amount);
      PaymentFiled(w.book.pays, env.recordId, Apply(w, env, m).book.pays[env.recordId]);
    } else if m.MPayPending? {
      var doc := w.contracts[m.cid];
      FeeFree(w.tokens, doc.receiver, "pay", w.book.pendings[doc.pbId].amount);
      PaymentFiled(w.book.pays, env.recordId, Apply(w, env, m).book.pays[env.recordId]);
    } else {
      OtherPays(w, env, m);
    }
  }

  // ---- whole runs ----

  lemma {:induction false} RefundsRun(w: World, es: seq<Event>)
    requires Inv(w) && RefundsOk(w.book.pays) && AdmittedRun(w, es)
    ensures RefundsOk(Run(w, es).book.pays)
    decreases |es|
  {
    if es != [] {
      var front, e := es[..|es| - 1], es[|es| - 1];
      var x := Run(w, front);
      RefundsRun(w, front);
      RunInv(w, front);
      if Succeeds(x, e) {
        InvStep(x, e.env, e.tx);
        RecordIdStamped(x, e.env);
        RefundsMove(x, e.env, MoveOf(x, e.env, e.tx));
      }
    }
  }

  /** After any run, for every payment: the running total is the sum of its refunds and at most the
      payment; the fees given back are at most the fee; and once all is refunded in k refunds, at most
      k - 1 units of the fee have been kept back by rounding. */
  lemma RefundAccounting(w: World, es: seq<Event>, id: string)
    requires Inv(w) && RefundsOk(w.book.pays) && AdmittedRun(w, es)
    requires id in Run(w, es).book.pays && Run(w, es).book.pays[id].amount > 0
    ensures var pays := Run(w, es).book.pays;
            var p, given, k := pays[id], Sum(FeesRefunded(pays, id)), |Refunded(pays, id)|;
            && p.totalRefund == Sum(Refunded(pays, id))
            && 0 <= p.totalRefund <= p.amount
            && 0 <= given <= p.fee
            && (p.totalRefund == p.amount ==> p.fee - given <= k - 1)
  {
    RefundsRun(w, es);
    var pays := Run(w, es).book.pays;
    var p, given, k := pays[id], Sum(FeesRefunded(pays, id)), |Refunded(pays, id)|;
    assert Accounted(pays, id);
    ShareBounded(p.amount, p.fee, p.totalRefund, given, k);
    if p.totalRefund == p.amount {
      ShareInFull(p.amount, p.fee, given, k);
      if k == 0 { SumOfZeros(Refunded(pays, id)); }
    }
  }

  lemma NegativeTotal(pays: map<string, Pay>, id: string)
    requires RefundsOk(pays) && id in pays && pays[id].amount < 0
    ensures pays[id].totalRefund == 0
  {
    assert Accounted(pays, id);
  }

  /** A refund can never be refunded. */
  lemma RefundsAreFinal(w: World, env: Env, payId: string, amount: int, memo: string)
    requires RefundsOk(w.book.pays) && payId in w.book.pays && w.book.pays[payId].amount < 0
    ensures Handle(w, env, PayRefund(payId, amount, memo)).Err?
  {
    NegativeTotal(w.book.pays, payId);
  }
}
