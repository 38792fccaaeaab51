// Prunes while the ledger goes on. Between the prunes of a merchant anything may happen: as long as nothing
// of the merchant's is filed in the window, the prunes credit its records in order, 900 a call, each once.
module Interleaved {
  import opened Basics
  import opened World
  import opened Stubs
  import opened Paging
  import opened Transactions
  import opened Moves
  import opened Invariants
  import opened Runs
  import opened Series
  import opened ExactlyOnce

  // ---- the window and its pages ----

  /** Records have been added, but above the window. */
  ghost predicate Above(times: map<string, Time>, times': map<string, Time>, end: Time) {
    && (forall id :: id in times ==> id in times' && times'[id] == times[id])
    && (forall id :: id in times' && id !in times ==> times'[id] > end)
  }

  lemma SameWindow(times: map<string, Time>, times': map<string, Time>, start: Time, end: Time, rows: seq<string>)
    requires Above(times, times', end) && Answers(times', start, end, rows)
    ensures Answers(times, start, end, rows)
  {
    assert forall i :: 0 <= i < |rows| ==> rows[i] in rows;
  }

  /** How far k calls come. */
  function Paged(k: nat, rows: seq<string>): (n: nat)
    ensures n <= |rows|
  {
    Min(k * PRUNE_SIZE, |rows|)
  }

  /** After k calls: the first pages have been credited, the rest is what a query would find, and no call was
      in vain. */
  ghost predicate Progress(times: map<string, Time>, cursor: Time, end: Time, rows: seq<string>, k: nat,
                           credited: seq<string>) {
    && credited == rows[..Paged(k, rows)]
    && Answers(times, cursor, end, rows[Paged(k, rows)..])
    && (k > 0 ==> (k - 1) * PRUNE_SIZE < |rows|)
  }

  lemma PageAfter(rows: seq<string>, k: nat)
    ensures var found := rows[Paged(k, rows)..];
            && (found != [] <==> k * PRUNE_SIZE < |rows|)
            && (found != [] ==>
                  Paged(k + 1, rows) == Paged(k, rows) + |Page(found)| &&
                  rows[..Paged(k + 1, rows)] == rows[..Paged(k, rows)] + Page(found) &&
                  rows[Paged(k + 1, rows)..] == found[|Page(found)|..])
  {
  }

  /** The next call sees all the rest, and takes the next page of it. */
  lemma NextPage(times: map<string, Time>, cursor: Time, end: Time, rows: seq<string>, k: nat, credited: seq<string>,
                 found: seq<string>)
    requires DistinctTimes(times) && Progress(times, cursor, end, rows, k, credited)
    requires Answers(times, cursor, end, found)
    ensures found != [] <==> k * PRUNE_SIZE < |rows|
    ensures found != [] ==>
              PageEnd(found) in times && Progress(times, times[PageEnd(found)], end, rows, k + 1,
                                                  credited + Page(found))
  {
    AnswerUnique(times, cursor, end, rows[Paged(k, rows)..], found);
    PageAfter(rows, k);
    if found != [] { DropAnswers(times, cursor, end, found, |Page(found)|); }
  }

  lemma Start(times: map<string, Time>, cursor: Time, end: Time, rows: seq<string>)
    requires Answers(times, cursor, end, rows)
    ensures Above(times, times, end) && Progress(times, cursor, end, rows, 0, [])
  {
    assert rows[0..] == rows;
  }

  lemma AllPaged(times: map<string, Time>, cursor: Time, end: Time, rows: seq<string>, k: nat, credited: seq<string>)
    requires Progress(times, cursor, end, rows, k, credited) && k * PRUNE_SIZE >= |rows|
    ensures credited == rows && k == CeilDiv(|rows|, PRUNE_SIZE)
  {
    assert rows[..|rows|] == rows;
  }

  // ---- pays ----

  predicate PrunesPays(w: World, e: Event, a: Address) {
    Succeeds(w, e) && MoveOf(w, e.env, e.tx).MPayPrune? && MoveOf(w, e.env, e.tx).a == a
  }

  function PayPage(w: World, e: Event, a: Address): seq<string> {
    if PrunesPays(w, e, a) then PaysTaken(w, e.env, MoveOf(w, e.env, e.tx)) else []
  }

  /** How often a merchant's pays are pruned in a run, and the records that credits, in order. */
  function PayPrunesIn(w: World, es: seq<Event>, a: Address): nat
    decreases |es|
  {
    if es == [] then 0
    else PayPrunesIn(w, es[..|es| - 1], a) + Once(PrunesPays(Run(w, es[..|es| - 1]), es[|es| - 1], a))
  }

  function CreditsTo(w: World, es: seq<Event>, a: Address): seq<string>
    decreases |es|
  {
    if es == [] then []
    else CreditsTo(w, es[..|es| - 1], a) + PayPage(Run(w, es[..|es| - 1]), es[|es| - 1], a)
  }

  /** An event that prunes the merchant's pays up to the end of the window, or no pays of its at all, and files
      nothing of its in the window. */
  ghost predicate PayTrade(w: World, e: Event, a: Address, end: Time) {
    && (PrunesPays(w, e, a) ==> MoveOf(w, e.env, e.tx).end == end)
    && var w' := Next(w, e.env, e.tx);
       forall id :: id in w'.book.pays && id !in w.book.pays && w'.book.pays[id].merchant == a ==>
         w'.book.pays[id].createdTime > end
  }

  ghost predicate PayTrading(w: World, es: seq<Event>, a: Address, end: Time)
    decreases |es|
  {
    es == [] || (PayTrading(w, es[..|es| - 1], a, end) && PayTrade(Run(w, es[..|es| - 1]), es[|es| - 1], a, end))
  }

  lemma PayTimesAbove(w: World, e: Event, a: Address, end: Time)
    requires Inv(w) && Admitted(w, e.env) && PayTrade(w, e, a, end)
    ensures Above(PayTimes(w.book.pays, a), PayTimes(Next(w, e.env, e.tx).book.pays, a), end)
  {
    if Succeeds(w, e) { InvStep(w, e.env, e.tx); }
  }

  lemma PayCursorStays(w: World, e: Event, a: Address)
    requires Inv(w) && Admitted(w, e.env) && !PrunesPays(w, e, a)
    ensures PayCursor(Next(w, e.env, e.tx).book.balances, a) == PayCursor(w.book.balances, a)
  {
    if Succeeds(w, e) {
      var m := MoveOf(w, e.env, e.tx);
      InvStep(w, e.env, e.tx);
      if m.MPayPrune? {
        PayPruneTimes(w, e.env, m.a, m.end);
      } else if m.MFeePrune? {
        FeePruneTimes(w, e.env, m.code, m.end);
      } else {
        OnlyPrunesMoveCursors(w, e.env, m);
        MoveGrows(w, e.env, m);
        KeptCursorTimes(w, Apply(w, e.env, m));
      }
    }
  }

  /** What a prune finds is what is left of the window, whatever was filed above it. */
  lemma PayPruneTakes(w: World, e: Event, a: Address, end: Time, times: map<string, Time>)
    requires Inv(w) && Admitted(w, e.env) && PrunesPays(w, e, a) && MoveOf(w, e.env, e.tx).end == end
    requires Above(times, PayTimes(w.book.pays, a), end)
    ensures var found := RowsOfPays(w, e.env, a, end);
            && found != [] && Answers(times, PayCursor(w.book.balances, a), end, found) && PageEnd(found) in times
            && PaysTaken(w, e.env, MoveOf(w, e.env, e.tx)) == Page(found)
            && PayCursor(Next(w, e.env, e.tx).book.balances, a) == times[PageEnd(found)]
  {
    var found := RowsOfPays(w, e.env, a, end);
    InvStep(w, e.env, e.tx);
    PayPruneTimes(w, e.env, a, end);
    PayPruneCursor(w, e.env, a, end);
    SameWindow(times, PayTimes(w.book.pays, a), PayCursor(w.book.balances, a), end, found);
    PageIsConsumed(times, PayCursor(w.book.balances, a), end, found);
  }

  /** How far the prunes of a merchant have come in a window whose records had these times. */
  ghost predicate PayProgress(x: World, a: Address, end: Time, times: map<string, Time>, rows: seq<string>, k: nat,
                              credited: seq<string>) {
    Above(times, PayTimes(x.book.pays, a), end) &&
    Progress(times, PayCursor(x.book.balances, a), end, rows, k, credited)
  }

  lemma PayPruneProgress(x: World, e: Event, a: Address, end: Time, times: map<string, Time>, rows: seq<string>, k: nat,
                         credited: seq<string>)
    requires Inv(x) && Admitted(x, e.env) && PrunesPays(x, e, a) && MoveOf(x, e.env, e.tx).end == end
    requires DistinctTimes(times) && PayProgress(x, a, end, times, rows, k, credited)
    ensures Progress(times, PayCursor(Next(x, e.env, e.tx).book.balances, a), end, rows, k + 1,
                     credited + PayPage(x, e, a))
  {
    PayPruneTakes(x, e, a, end, times);
    NextPage(times, PayCursor(x.book.balances, a), end, rows, k, credited, RowsOfPays(x, e.env, a, end));
  }

  lemma PayTradeStep(x: World, e: Event, a: Address, end: Time, times: map<string, Time>, rows: seq<string>, k: nat,
                     credited: seq<string>)
    requires Inv(x) && Admitted(x, e.env) && PayTrade(x, e, a, end) && DistinctTimes(times)
    requires PayProgress(x, a, end, times, rows, k, credited)
    ensures PayProgress(Next(x, e.env, e.tx), a, end, times, rows, k + Once(PrunesPays(x, e, a)),
                        credited + PayPage(x, e, a))
  {
    PayTimesAbove(x, e, a, end);
    if PrunesPays(x, e, a) {
      PayPruneProgress(x, e, a, end, times, rows, k, credited);
    } else {
      PayCursorStays(x, e, a);
      assert credited + [] == credited;
    }
  }

  lemma {:induction false} PaysRun(w: World, es: seq<Event>, a: Address, end: Time, times: map<string, Time>,
                                   rows: seq<string>)
    requires Inv(w) && AdmittedRun(w, es) && PayTrading(w, es, a, end) && DistinctTimes(times)
    requires PayProgress(w, a, end, times, rows, 0, [])
    ensures PayProgress(Run(w, es), a, end, times, rows, PayPrunesIn(w, es, a), CreditsTo(w, es, a))
    decreases |es|
  {
    if es != [] {
      var front := es[..|es| - 1];
      PaysRun(w, front, a, end, times, rows);
      RunInv(w, front);
      PayTradeStep(Run(w, front), es[|es| - 1], a, end, times, rows, PayPrunesIn(w, front, a), CreditsTo(w, front, a));
    }
  }

  /** However the prunes of a merchant are mixed with other transactions, k of them credit exactly the first
      900 k records of the window, in order. A merchant entitled to prune succeeds exactly while that is not
      all of them; and when a call first fails, the calls were ceil(n / 900). */
  lemma PaysCreditedInOrder(w: World, es: seq<Event>, a: Address, end: Time, rows: seq<string>, next: Event)
    requires Inv(w) && AdmittedRun(w, es) && PayTrading(w, es, a, end)
    requires DistinctTimes(PayTimes(w.book.pays, a))
    requires Answers(PayTimes(w.book.pays, a), PayCursor(w.book.balances, a), end, rows)
    requires next.tx.PayPrune? && next.tx.account == a &&
             PruneEnd(next.env.ts, next.tx.safe, next.tx.endSeconds) == end
    requires var x := Run(w, es);
             Admitted(x, next.env) && a in x.registry.accounts &&
             next.env.kid in HoldersOf(a, x.registry.accounts[a]) &&
             !IsSuspended(x.registry.accounts[a])
    ensures var k := PayPrunesIn(w, es, a);
            && CreditsTo(w, es, a) == rows[..Paged(k, rows)]
            && (Succeeds(Run(w, es), next) <==> k * PRUNE_SIZE < |rows|)
            && (!Succeeds(Run(w, es), next) ==> CreditsTo(w, es, a) == rows && k == CeilDiv(|rows|, PRUNE_SIZE))
  {
    var times, x, k := PayTimes(w.book.pays, a), Run(w, es), PayPrunesIn(w, es, a);
    var found, cursor := RowsOfPays(x, next.env, a, end), PayCursor(x.book.balances, a);
    Start(times, PayCursor(w.book.balances, a), end, rows);
    PaysRun(w, es, a, end, times, rows);
    RunInv(w, es);
    assert Answers(PayTimes(x.book.pays, a), cursor, end, found);
    SameWindow(times, PayTimes(x.book.pays, a), cursor, end, found);
    NextPage(times, cursor, end, rows, k, CreditsTo(w, es, a), found);
    PruneSucceedsIff(x, next);
    if k * PRUNE_SIZE >= |rows| { AllPaged(times, cursor, end, rows, k, CreditsTo(w, es, a)); }
  }

  lemma MakesMove(w: World, e: Event)
    requires Inv(w) && Admitted(w, e.env) && Succeeds(w, e)
    ensures Enabled(w, e.env, MoveOf(w, e.env, e.tx))
  {
    InvStep(w, e.env, e.tx);
  }

  /** The records an event credits, to whomever. */
  function AnyPayPage(w: World, e: Event): seq<string> {
    if Succeeds(w, e) then PaysTaken(w, e.env, MoveOf(w, e.env, e.tx)) else []
  }

  /** The credits of a merchant are all credits of its records, and only records are credited. */
  predicate PayOwn(pays: map<string, Pay>, a: Address, id: string, own: seq<string>, all: seq<string>) {
    && multiset(own)[id] == (if id in pays && pays[id].merchant == a then multiset(all)[id] else 0)
    && (id !in pays ==> multiset(all)[id] == 0)
  }

  lemma PayPageOwn(w: World, e: Event, a: Address, id: string)
    requires Inv(w) && Admitted(w, e.env)
    ensures PayOwn(w.book.pays, a, id, PayPage(w, e, a), AnyPayPage(w, e))
  {
    if Succeeds(w, e) && MoveOf(w, e.env, e.tx).MPayPrune? {
      var m := MoveOf(w, e.env, e.tx);
      MakesMove(w, e);
      PayRowsOwn(w, e.env, m.a, m.end, id);
    }
  }

  lemma PayRowsOwn(w: World, env: Env, a: Address, end: Time, id: string)
    requires Enabled(w, env, MPayPrune(a, end)) && Faithful(env.query)
    ensures multiset(Page(RowsOfPays(w, env, a, end)))[id] > 0 ==> id in w.book.pays && w.book.pays[id].merchant == a
  {
    var rows := RowsOfPays(w, env, a, end);
    assert Answers(PayTimes(w.book.pays, a), PayCursor(w.book.balances, a), end, rows);
    assert multiset(Page(rows))[id] > 0 ==> id in Page(rows) && id in rows;
  }

  lemma PayOwnAppend(pays: map<string, Pay>, pays': map<string, Pay>, a: Address, id: string, own: seq<string>,
                     all: seq<string>, page: seq<string>, any: seq<string>)
    requires PayOwn(pays, a, id, own, all) && PayOwn(pays, a, id, page, any)
    requires id in pays ==> id in pays' && pays'[id].merchant == pays[id].merchant
    ensures PayOwn(pays', a, id, own + page, all + any)
  {
  }

  /** What a run credits to a merchant is what it credits of the merchant's records. */
  lemma {:induction false} PayCreditOwner(w: World, es: seq<Event>, a: Address, id: string)
    requires Inv(w) && AdmittedRun(w, es)
    ensures PayOwn(Run(w, es).book.pays, a, id, CreditsTo(w, es, a), PayCredits(w, es))
    decreases |es|
  {
    if es != [] {
      var front, e := es[..|es| - 1], es[|es| - 1];
      PayCreditOwner(w, front, a, id);
      RunInv(w, front);
      var x := Run(w, front);
      PayPageOwn(x, e, a, id);
      if Succeeds(x, e) { InvStep(x, e.env, e.tx); }
      PayOwnAppend(x.book.pays, Next(x, e.env, e.tx).book.pays, a, id, CreditsTo(w, front, a), PayCredits(w, front),
                   PayPage(x, e, a), AnyPayPage(x, e));
    }
  }

  // ---- fees ----

  predicate PrunesFees(w: World, e: Event, code: string) {
    Succeeds(w, e) && MoveOf(w, e.env, e.tx).MFeePrune? && MoveOf(w, e.env, e.tx).code == code
  }

  function FeePage(w: World, e: Event, code: string): seq<string> {
    if PrunesFees(w, e, code) then FeesTaken(w, e.env, MoveOf(w, e.env, e.tx)) else []
  }

  function FeePrunesIn(w: World, es: seq<Event>, code: string): nat
    decreases |es|
  {
    if es == [] then 0
    else FeePrunesIn(w, es[..|es| - 1], code) + Once(PrunesFees(Run(w, es[..|es| - 1]), es[|es| - 1], code))
  }

  function FeeCreditsOf(w: World, es: seq<Event>, code: string): seq<string>
    decreases |es|
  {
    if es == [] then []
    else FeeCreditsOf(w, es[..|es| - 1], code) + FeePage(Run(w, es[..|es| - 1]), es[|es| - 1], code)
  }

  /** An event that prunes the token's fees up to the end of the window, or none of them, and files no fee of
      the token in the window. */
  ghost predicate FeeTrade(w: World, e: Event, code: string, end: Time) {
    && (PrunesFees(w, e, code) ==> MoveOf(w, e.env, e.tx).end == end)
    && var w' := Next(w, e.env, e.tx);
       forall id :: id in w'.book.fees && id !in w.book.fees && w'.book.fees[id].code == code ==>
         w'.book.fees[id].createdTime > end
  }

  ghost predicate FeeTrading(w: World, es: seq<Event>, code: string, end: Time)
    decreases |es|
  {
    es == [] || (FeeTrading(w, es[..|es| - 1], code, end) && FeeTrade(Run(w, es[..|es| - 1]), es[|es| - 1], code, end))
  }

  lemma FeeTimesAbove(w: World, e: Event, code: string, end: Time)
    requires Inv(w) && Admitted(w, e.env) && FeeTrade(w, e, code, end)
    ensures Above(FeeTimes(w.book.fees, code), FeeTimes(Next(w, e.env, e.tx).book.fees, code), end)
  {
    if Succeeds(w, e) { InvStep(w, e.env, e.tx); }
  }

  lemma FeeCursorStays(w: World, e: Event, code: string)
    requires Inv(w) && Admitted(w, e.env) && !PrunesFees(w, e, code)
    ensures FeeCursor(Next(w, e.env, e.tx), code) == FeeCursor(w, code)
  {
    if Succeeds(w, e) {
      var m := MoveOf(w, e.env, e.tx);
      InvStep(w, e.env, e.tx);
      if m.MPayPrune? {
        PayPruneTimes(w, e.env, m.a, m.end);
      } else if m.MFeePrune? {
        FeePruneTimes(w, e.env, m.code, m.end);
      } else {
        OnlyPrunesMoveCursors(w, e.env, m);
        MoveGrows(w, e.env, m);
        KeptCursorTimes(w, Apply(w, e.env, m));
      }
    }
  }

  lemma FeePruneTakes(w: World, e: Event, code: string, end: Time, times: map<string, Time>)
    requires Inv(w) && Admitted(w, e.env) && PrunesFees(w, e, code) && MoveOf(w, e.env, e.tx).end == end
    requires Above(times, FeeTimes(w.book.fees, code), end)
    ensures var found := RowsOfFees(w, e.env, code, end);
            && found != [] && Answers(times, FeeCursor(w, code), end, found) && PageEnd(found) in times
            && FeesTaken(w, e.env, MoveOf(w, e.env, e.tx)) == Page(found)
            && FeeCursor(Next(w, e.env, e.tx), code) == times[PageEnd(found)]
  {
    var found := RowsOfFees(w, e.env, code, end);
    InvStep(w, e.env, e.tx);
    FeePruneTimes(w, e.env, code, end);
    FeePruneCursor(w, e.env, code, end);
    SameWindow(times, FeeTimes(w.book.fees, code), FeeCursor(w, code), end, found);
    PageIsConsumed(times, FeeCursor(w, code), end, found);
  }

  ghost predicate FeeProgress(x: World, code: string, end: Time, times: map<string, Time>, rows: seq<string>, k: nat,
                              credited: seq<string>) {
    Above(times, FeeTimes(x.book.fees, code), end) && Progress(times, FeeCursor(x, code), end, rows, k, credited)
  }

  lemma FeePruneProgress(x: World, e: Event, code: string, end: Time, times: map<string, Time>, rows: seq<string>,
                         k: nat, credited: seq<string>)
    requires Inv(x) && Admitted(x, e.env) && PrunesFees(x, e, code) && MoveOf(x, e.env, e.tx).end == end
    requires DistinctTimes(times) && FeeProgress(x, code, end, times, rows, k, credited)
    ensures Progress(times, FeeCursor(Next(x, e.env, e.tx), code), end, rows, k + 1, credited + FeePage(x, e, code))
  {
    FeePruneTakes(x, e, code, end, times);
    NextPage(times, FeeCursor(x, code), end, rows, k, credited, RowsOfFees(x, e.env, code, end));
  }

  lemma FeeTradeStep(x: World, e: Event, code: string, end: Time, times: map<string, Time>, rows: seq<string>, k: nat,
                     credited: seq<string>)
    requires Inv(x) && Admitted(x, e.env) && FeeTrade(x, e, code, end) && DistinctTimes(times)
    requires FeeProgress(x, code, end, times, rows, k, credited)
    ensures FeeProgress(Next(x, e.env, e.tx), code, end, times, rows, k + Once(PrunesFees(x, e, code)),
                        credited + FeePage(x, e, code))
  {
    FeeTimesAbove(x, e, code, end);
    if PrunesFees(x, e, code) {
      FeePruneProgress(x, e, code, end, times, rows, k, credited);
    } else {
      FeeCursorStays(x, e, code);
      assert credited + [] == credited;
    }
  }

  lemma {:induction false} FeesRun(w: World, es: seq<Event>, code: string, end: Time, times: map<string, Time>,
                                   rows: seq<string>)
    requires Inv(w) && AdmittedRun(w, es) && FeeTrading(w, es, code, end) && DistinctTimes(times)
    requires FeeProgress(w, code, end, times, rows, 0, [])
    ensures FeeProgress(Run(w, es), code, end, times, rows, FeePrunesIn(w, es, code), FeeCreditsOf(w, es, code))
    decreases |es|
  {
    if es != [] {
      var front := es[..|es| - 1];
      FeesRun(w, front, code, end, times, rows);
      RunInv(w, front);
      FeeTradeStep(Run(w, front), es[|es| - 1], code, end, times, rows, FeePrunesIn(w, front, code),
                   FeeCreditsOf(w, front, code));
    }
  }

  /** The same for the fees of a token, whose target may change in between. */
  lemma FeesCreditedInOrder(w: World, es: seq<Event>, code: string, end: Time, rows: seq<string>, next: Event)
    requires Inv(w) && AdmittedRun(w, es) && FeeTrading(w, es, code, end)
    requires DistinctTimes(FeeTimes(w.book.fees, code))
    requires Answers(FeeTimes(w.book.fees, code), FeeCursor(w, code), end, rows)
    requires next.tx.FeePrune? && next.tx.code == code &&
             PruneEnd(next.env.ts, next.tx.safe, next.tx.endSeconds) == end
    requires var x := Run(w, es);
             Admitted(x, next.env) && PolicyOf(x, code).Some? &&
             var target := PolicyOf(x, code).value.target;
             target in x.registry.accounts && next.env.kid in HoldersOf(target, x.registry.accounts[target])
    ensures var k := FeePrunesIn(w, es, code);
            && FeeCreditsOf(w, es, code) == rows[..Paged(k, rows)]
            && (Succeeds(Run(w, es), next) <==> k * PRUNE_SIZE < |rows|)
            && (!Succeeds(Run(w, es), next) ==> FeeCreditsOf(w, es, code) == rows && k == CeilDiv(|rows|, PRUNE_SIZE))
  {
    var times, x, k := FeeTimes(w.book.fees, code), Run(w, es), FeePrunesIn(w, es, code);
    var found, cursor := RowsOfFees(x, next.env, code, end), FeeCursor(x, code);
    Start(times, FeeCursor(w, code), end, rows);
    FeesRun(w, es, code, end, times, rows);
    RunInv(w, es);
    assert Answers(FeeTimes(x.book.fees, code), cursor, end, found);
    SameWindow(times, FeeTimes(x.book.fees, code), cursor, end, found);
    NextPage(times, cursor, end, rows, k, FeeCreditsOf(w, es, code), found);
    FeePruneSucceedsIff(x, next);
    if k * PRUNE_SIZE >= |rows| { AllPaged(times, cursor, end, rows, k, FeeCreditsOf(w, es, code)); }
  }

  function AnyFeePage(w: World, e: Event): seq<string> {
    if Succeeds(w, e) then FeesTaken(w, e.env, MoveOf(w, e.env, e.tx)) else []
  }

  /** The credits of a token are all credits of its records, and only records are credited. */
  predicate FeeOwn(fees: map<string, Fee>, code: string, id: string, own: seq<string>, all: seq<string>) {
    && multiset(own)[id] == (if id in fees && fees[id].code == code then multiset(all)[id] else 0)
    && (id !in fees ==> multiset(all)[id] == 0)
  }

  lemma FeePageOwn(w: World, e: Event, code: string, id: string)
    requires Inv(w) && Admitted(w, e.env)
    ensures FeeOwn(w.book.fees, code, id, FeePage(w, e, code), AnyFeePage(w, e))
  {
    if Succeeds(w, e) && MoveOf(w, e.env, e.tx).MFeePrune? {
      var m := MoveOf(w, e.env, e.tx);
      MakesMove(w, e);
      FeeRowsOwn(w, e.env, m.code, m.end, id);
    }
  }

  lemma FeeRowsOwn(w: World, env: Env, code: string, end: Time, id: string)
    requires Enabled(w, env, MFeePrune(code, end)) && Faithful(env.query)
    ensures multiset(Page(RowsOfFees(w, env, code, end)))[id] > 0 ==> id in w.book.fees && w.book.fees[id].code == code
  {
    var rows := RowsOfFees(w, env, code, end);
    assert Answers(FeeTimes(w.book.fees, code), FeeCursor(w, code), end, rows);
    assert multiset(Page(rows))[id] > 0 ==> id in Page(rows) && id in rows;
  }

  lemma FeeOwnAppend(fees: map<string, Fee>, fees': map<string, Fee>, code: string, id: string, own: seq<string>,
                     all: seq<string>, page: seq<string>, any: seq<string>)
    requires FeeOwn(fees, code, id, own, all) && FeeOwn(fees, code, id, page, any)
    requires id in fees ==> id in fees' && fees'[id].code == fees[id].code
    ensures FeeOwn(fees', code, id, own + page, all + any)
  {
  }

  /** And what it credits of a token is what it credits of the token's fees. */
  lemma {:induction false} FeeCreditOwner(w: World, es: seq<Event>, code: string, id: string)
    requires Inv(w) && AdmittedRun(w, es)
    ensures FeeOwn(Run(w, es).book.fees, code, id, FeeCreditsOf(w, es, code), FeeCredits(w, es))
    decreases |es|
  {
    if es != [] {
      var front, e := es[..|es| - 1], es[|es| - 1];
      FeeCreditOwner(w, front, code, id);
      RunInv(w, front);
      var x := Run(w, front);
      FeePageOwn(x, e, code, id);
      if Succeeds(x, e) { InvStep(x, e.env, e.tx); }
      FeeOwnAppend(x.book.fees, Next(x, e.env, e.tx).book.fees, code, id, FeeCreditsOf(w, front, code),
                   FeeCredits(w, front), FeePage(x, e, code), AnyFeePage(x, e));
    }
  }
}
